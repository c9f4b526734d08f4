/**
 * The `Session` object and the WebSocket transport it builds. They refer to
 * each other (the session builds the transport and closes it; the transport
 * emits into the session), so they share one module.
 *
 * Two defects of the code as written are corrected here and recorded beside
 * the corrected members: the control handlers are bound to the transport
 * instead of being copied unbound, and the transport has the `close` method
 * that `end` calls.
 */
module Sessions {
  import opened JsValue
  import opened Wrappers
  import opened Wire
  import opened Sdk
  import opened SessionRules
  import opened Emitter

  /** The socket address: `${socketUrl}?sessionId=<id>&apiKey=<key>`. */
  function SocketUrl(sdk: AssisfySdk, sessionId: Value): string {
    EndpointUrl(ConfigValue(sdk, "socketUrl"), sessionId, sdk.apiKey)
  }

  /** `POST ${baseUrl}/sessions` with body `{...input, auto_trigger}` and the API key header. */
  function SessionsPost(sdk: AssisfySdk, input: map<string, Value>): HttpPost {
    HttpPost(ToJsString(ConfigValue(sdk, "baseUrl")) + "/sessions",
             Obj(input["auto_trigger" := AutoTriggerOf(input)]), sdk.apiKey)
  }

  /** The outcome of `create(input)` once its request ends with `post`. */
  function CreateOutcomeFor(input: map<string, Value>, post: PostOutcome): CreateOutcome {
    CreateOutcomeOf(AutoTriggerOf(input), post)
  }

  /** The close request `end(message)` makes: code 1000 and the message or the default reason. */
  function EndRequest(message: Value): (r: CloseRequest)
    ensures r.code == Num(1000)
    ensures r.reason == (if Truthy(message) then message else Str(DefaultEndMessage))
  {
    CloseRequest(Num(NormalClosure), EndReason(message))
  }

  class Session {
    const sdk: AssisfySdk
    /** `Undefined` until `create` or `connect` sets it. */
    var sessionId: Value
    /** The transport whose handlers and `end` the session holds; `null` while
        `handlePermissionRequest`, `handleInput` and `end` are still undefined. */
    var transport: WebSocketSessionStrategy?
    /** The listener registry, in registration order. */
    var listeners: seq<Listener>
    /** Every `emit`, in order. */
    var log: seq<Emission>
    /** Every call of an application callback, in order. */
    var delivered: seq<Delivery>
    /** Every HTTP request the session issued. */
    var requests: seq<HttpPost>
    /** Every transport the session constructed. */
    ghost var transports: seq<WebSocketSessionStrategy>

    /** Watchers listen for `message` only, and exist only once `end` does;
        the current transport is the last one built. */
    ghost predicate Valid()
      reads this
    {
      && (forall k :: 0 <= k < |listeners| && listeners[k].action.CompleteWatcher? ==>
            listeners[k].event == "message")
      && (transport == null ==> forall k :: 0 <= k < |listeners| ==> !listeners[k].action.CompleteWatcher?)
      && (transport != null ==> |transports| > 0 && transport == transports[|transports| - 1])
    }

    constructor(sdk: AssisfySdk)
      ensures Valid()
      ensures this.sdk == sdk && sessionId == Undefined && transport == null
      ensures listeners == [] && log == [] && delivered == [] && requests == [] && transports == []
    {
      this.sdk := sdk;
      sessionId := Undefined;
      transport := null;
      listeners, log, delivered, requests, transports := [], [], [], [], [];
    }

    /** One `emit(name, payload)`: it is logged, the listeners for `name` ran
        in order as `Dispatch` says, and each `end` it caused closed the
        transport; one that causes no `end` leaves the transport untouched. */
    twostate predicate EmittedOnce(name: string, payload: Value, new thrown: Option<string>)
      reads this, transport
    {
      var d := Dispatch(old(listeners), name, payload);
      && log == old(log) + [Emission(name, payload)]
      && delivered == old(delivered) + d.deliveries
      && thrown == d.thrown
      && listeners == old(listeners) && sessionId == old(sessionId) && transport == old(transport)
      && requests == old(requests) && transports == old(transports)
      && (transport != null ==>
            transport.websocket == AfterCloses(old(transport.websocket), d.ends, EndRequest(Str(CompletedEndMessage))))
      && (transport != null && d.ends == 0 ==> unchanged(transport))
    }

    /** `on(event, callback)`: appends one registration. */
    method On(event: string, id: nat)
      requires Valid()
      modifies this
      ensures Valid()
      ensures listeners == old(listeners) + [Listener(event, Caller(id))]
      ensures log == old(log) && delivered == old(delivered) && sessionId == old(sessionId)
      ensures transport == old(transport) && requests == old(requests) && transports == old(transports)
    {
      listeners := listeners + [Listener(event, Caller(id))];
    }

    /** `emit(name, payload)`: the listeners registered when the call starts
        run in registration order, until one throws. The loop collects what
        each listener does; the callbacks' record and the socket are then
        brought up to date (they are independent records, so this order is
        not observable). */
    method Emit(name: string, payload: Value) returns (thrown: Option<string>)
      requires Valid()
      modifies this, transport
      ensures Valid()
      ensures EmittedOnce(name, payload, thrown)
    {
      log := log + [Emission(name, payload)];
      var ls := listeners;
      ghost var total := Dispatch(ls, name, payload);
      var deliveries: seq<Delivery> := [];
      var ends: nat := 0;
      thrown := None;
      var i := 0;
      while i < |ls| && thrown.None?
        invariant 0 <= i <= |ls|
        invariant thrown.None? ==> total.deliveries == deliveries + DispatchFrom(ls, i, name, payload).deliveries
        invariant thrown.None? ==> total.ends == ends + DispatchFrom(ls, i, name, payload).ends
        invariant thrown.None? ==> total.thrown == DispatchFrom(ls, i, name, payload).thrown
        invariant thrown.Some? ==> total == Dispatched(deliveries, ends, thrown)
        decreases |ls| - i
      {
        ghost var rest := DispatchFrom(ls, i + 1, name, payload);
        var step := Invoke(ls[i], name, payload);
        assert DispatchFrom(ls, i, name, payload) == Combine(step, rest);
        match step {
          case Skip =>
          case Deliver(d) =>
            assert deliveries + [d] + rest.deliveries == deliveries + ([d] + rest.deliveries);
            deliveries := deliveries + [d];
          case EndSession =>
            ends := ends + 1;
          case Throw(m) =>
            assert deliveries + [] == deliveries;
            thrown := Some(m);
        }
        i := i + 1;
      }
      assert deliveries + [] == deliveries;
      assert total == Dispatched(deliveries, ends, thrown);
      delivered := delivered + deliveries;
      if transport != null && ends > 0 {
        EndTimes(ends);
      }
    }

    /** `end("Reason='Session completed'")`, `n` times over, on the current transport. */
    method EndTimes(n: nat)
      requires transport != null
      modifies transport
      ensures transport.websocket == AfterCloses(old(transport.websocket), n, EndRequest(Str(CompletedEndMessage)))
    {
      var k := 0;
      while k < n
        invariant 0 <= k <= n
        invariant transport.websocket == AfterCloses(old(transport.websocket), k, EndRequest(Str(CompletedEndMessage)))
      {
        AfterOneMoreClose(old(transport.websocket), k, EndRequest(Str(CompletedEndMessage)));
        var _ := End(Str(CompletedEndMessage));
        k := k + 1;
      }
    }

    /** `end(message)`, closing the transport as the code intends (see
        `EndAsWritten` for what the code as written does). */
    method End(message: Value) returns (thrown: Option<string>)
      modifies transport
      ensures transport == null ==> thrown == Some(NotAFunction("session.end"))
      ensures transport != null ==>
        thrown.None? && transport.websocket == AfterCloses(old(transport.websocket), 1, EndRequest(message))
    {
      if transport == null {
        return Some(NotAFunction("session.end"));
      }
      transport.Close(Num(NormalClosure), EndReason(message));
      thrown := None;
    }

    /** `handlePermissionRequest(granted)`, bound to the transport (see
        `CopiedHandlersThrow` for the unbound copy the code makes). */
    method HandlePermissionRequest(granted: Value) returns (thrown: Option<string>)
      modifies transport
      ensures transport == null ==> thrown == Some(NotAFunction("session.handlePermissionRequest"))
      ensures transport != null ==>
        transport.websocket.Some? == old(transport.websocket).Some? &&
        (old(transport.websocket).Some? ==>
          thrown.None? &&
          transport.websocket.value == old(transport.websocket).value.(sent := old(transport.websocket).value.sent
                                                                  + [SocketFrame(PermissionData(granted))]))
    {
      if transport == null {
        return Some(NotAFunction("session.handlePermissionRequest"));
      }
      thrown := transport.HandlePermissionRequest(granted);
    }

    /** `handleInput(input)`, bound to the transport. */
    method HandleInput(input: Value) returns (thrown: Option<string>)
      modifies transport
      ensures transport == null ==> thrown == Some(NotAFunction("session.handleInput"))
      ensures transport != null ==>
        transport.websocket.Some? == old(transport.websocket).Some? &&
        (old(transport.websocket).Some? ==>
          thrown.None? &&
          transport.websocket.value == old(transport.websocket).value.(sent := old(transport.websocket).value.sent
                                                                  + [SocketFrame(InputData(input))]))
    {
      if transport == null {
        return Some(NotAFunction("session.handleInput"));
      }
      thrown := transport.HandleInput(input);
    }

    /** `handlePermissionRequest(granted)` as the code writes it: the
        transport's method copied unbound, so it runs with the session as
        `this` and reads `send` off the session's missing `websocket`. */
    method HandlePermissionRequestAsWritten(granted: Value) returns (thrown: Option<string>)
      ensures transport == null ==> thrown == Some(NotAFunction("session.handlePermissionRequest"))
      ensures transport != null ==> thrown == Some(ReadError(Undefined, "send"))
    {
      if transport == null {
        return Some(NotAFunction("session.handlePermissionRequest"));
      }
      var sent := SendVia(SessionObject, SocketFrame(PermissionData(granted)));
      thrown := Some(sent.error);
    }

    /** `handleInput(input)` as the code writes it, copied unbound likewise. */
    method HandleInputAsWritten(input: Value) returns (thrown: Option<string>)
      ensures transport == null ==> thrown == Some(NotAFunction("session.handleInput"))
      ensures transport != null ==> thrown == Some(ReadError(Undefined, "send"))
    {
      if transport == null {
        return Some(NotAFunction("session.handleInput"));
      }
      var sent := SendVia(SessionObject, SocketFrame(InputData(input)));
      thrown := Some(sent.error);
    }

    /** Builds a transport for the current `sessionId`, takes over its handlers
        and `end`, and watches `message` for `complete`. */
    method Wire()
      requires Valid()
      modifies this
      ensures Valid()
      ensures fresh(transport) && transports == old(transports) + [transport]
      ensures transport.session == this && transport.sessionId == sessionId
      ensures transport.websocket == Some(Socket(SocketUrl(sdk, sessionId), [], []))
      ensures listeners == old(listeners) + [Listener("message", CompleteWatcher)]
      ensures sessionId == old(sessionId) && log == old(log) && delivered == old(delivered)
      ensures requests == old(requests)
    {
      var socket := new WebSocketSessionStrategy(this, sdk);
      transport := socket;
      transports := transports + [socket];
      listeners := listeners + [Listener("message", CompleteWatcher)];
    }

    /** The state `create(input)` leaves for each way it can go. Rejected
        before the request: nothing changes. Rejected after it: the request
        is all. Deferred: the request, then one `session_created` carrying the
        whole response data, and no transport. Started: the request, the id,
        one `session_created {sessionId}` announcing it, then exactly one
        fresh transport for that id and one `complete` watcher. */
    twostate predicate CreatedAs(outcome: CreateOutcome, input: map<string, Value>)
      reads this, transport
    {
      && requests == (if outcome.Invalid? then old(requests) else old(requests) + [SessionsPost(sdk, input)])
      && match outcome
         case Invalid(_) => Unchanged()
         case RequestFailed(_) => Unchanged()
         case Deferred(data) =>
           && log == old(log) + [Emission("session_created", data)]
           && delivered == old(delivered) + Dispatch(old(listeners), "session_created", data).deliveries
           && sessionId == old(sessionId) && transport == old(transport)
           && listeners == old(listeners) && transports == old(transports)
           && (transport != null ==> transport.websocket == old(transport.websocket))
         case Started(id) =>
           && sessionId == id
           && log == old(log) + [Emission("session_created", SessionIdPayload(id))]
           && delivered == old(delivered) + Dispatch(old(listeners), "session_created", SessionIdPayload(id)).deliveries
           && fresh(transport) && transports == old(transports) + [transport]
           && transport.session == this && transport.sessionId == id
           && transport.websocket == Some(Socket(SocketUrl(sdk, id), [], []))
           && listeners == old(listeners) + [Listener("message", CompleteWatcher)]
    }

    /** Events, id, transport and registry as they were. */
    twostate predicate Unchanged()
      reads this
    {
      && log == old(log) && delivered == old(delivered) && sessionId == old(sessionId)
      && transport == old(transport) && listeners == old(listeners) && transports == old(transports)
    }

    /** `create(input)`, with the outcome of its POST given as `post`. Which
        way the call goes is `CreateOutcomeOf`'s decision, made as the code
        makes it; the effects follow in the code's order: the request, then
        `session_created`, then the transport. */
    method Create(input: map<string, Value>, post: PostOutcome) returns (err: Option<string>)
      requires Valid()
      modifies this, transport
      ensures Valid()
      ensures err == CreateOutcomeFor(input, post).Rejection()
      ensures CreatedAs(CreateOutcomeFor(input, post), input)
      ensures old(transport) != null ==> unchanged(old(transport))
    {
      var outcome := CreateOutcomeFor(input, post);
      match outcome
      case Invalid(m) =>
        Refuse(input, outcome);
        err := Some(m);
      case RequestFailed(m) =>
        Refuse(input, outcome);
        err := Some(m);
      case Deferred(data) =>
        Defer(input, data);
        err := None;
      case Started(id) =>
        Start(input, id);
        err := None;
    }

    /** A refused `create`: the request, when it was made, is the only effect. */
    method Refuse(input: map<string, Value>, outcome: CreateOutcome)
      requires Valid() && (outcome.Invalid? || outcome.RequestFailed?)
      modifies this
      ensures Valid()
      ensures CreatedAs(outcome, input)
    {
      if outcome.RequestFailed? {
        requests := requests + [SessionsPost(sdk, input)];
      }
    }

    /** A schedule that does not start now: the request, then the announcement. */
    method Defer(input: map<string, Value>, data: Value)
      requires Valid()
      modifies this, transport
      ensures Valid()
      ensures CreatedAs(Deferred(data), input)
      ensures old(transport) != null ==> unchanged(old(transport))
    {
      requests := requests + [SessionsPost(sdk, input)];
      NoThrowBesideMessage("session_created", data);
      var _ := Emit("session_created", data);
    }

    /** A session that starts now: the request, the id, its announcement, and
        then the wiring to a fresh transport. */
    method Start(input: map<string, Value>, id: Value)
      requires Valid()
      modifies this, transport
      ensures Valid()
      ensures CreatedAs(Started(id), input)
      ensures old(transport) != null ==> unchanged(old(transport))
    {
      requests := requests + [SessionsPost(sdk, input)];
      sessionId := id;
      NoThrowBesideMessage("session_created", SessionIdPayload(id));
      var _ := Emit("session_created", SessionIdPayload(id));
      Wire();
    }

    /** `connect(sessionId)`. */
    method Connect(id: Value) returns (err: Option<string>)
      requires Valid()
      modifies this
      ensures Valid()
      ensures !Truthy(id) ==> err == Some(SessionIdRequired) && unchanged(this)
      ensures Truthy(id) ==>
        err.None? && sessionId == id
        && fresh(transport) && transports == old(transports) + [transport]
        && transport.session == this && transport.sessionId == id
        && transport.websocket == Some(Socket(SocketUrl(sdk, id), [], []))
        && listeners == old(listeners) + [Listener("message", CompleteWatcher)]
        && log == old(log) && delivered == old(delivered) && requests == old(requests)
    {
      if !Truthy(id) {
        return Some(SessionIdRequired);
      }
      sessionId := id;
      Wire();
      err := None;
    }

    /** An emission of any name but `message` reaches no watcher: it throws
        nothing and closes nothing. */
    lemma NoThrowBesideMessage(name: string, payload: Value)
      requires Valid() && name != "message"
      ensures Dispatch(listeners, name, payload).thrown.None?
      ensures Dispatch(listeners, name, payload).ends == 0
    {
      WatchersOnlyFor(listeners, "message", name);
      assert listeners[0..] == listeners;
      DispatchWithoutWatchers(listeners, 0, name, payload);
    }
  }

  /** `AssisfySDK.session()`: a fresh session of this SDK instance. */
  method SessionOf(sdk: AssisfySdk) returns (s: Session)
    ensures fresh(s) && s.Valid() && s.sdk == sdk
    ensures s.sessionId == Undefined && s.transport == null
    ensures s.listeners == [] && s.log == [] && s.delivered == [] && s.requests == [] && s.transports == []
  {
    s := new Session(sdk);
  }

  class WebSocketSessionStrategy {
    const session: Session
    const sdk: AssisfySdk
    /** The session's id when the transport was built. */
    const sessionId: Value
    /** `null` until `connectWebSocket` opens the socket. */
    var websocket: Option<Socket>

    constructor(session: Session, sdk: AssisfySdk)
      ensures this.session == session && this.sdk == sdk && sessionId == session.sessionId
      ensures websocket == Some(Socket(SocketUrl(sdk, session.sessionId), [], []))
    {
      this.session := session;
      this.sdk := sdk;
      sessionId := session.sessionId;
      websocket := None;
      new;
      ConnectWebSocket();
    }

    /** Opens one socket to the session's address, nothing sent on it yet. */
    method ConnectWebSocket()
      modifies this
      ensures websocket == Some(Socket(SocketUrl(sdk, sessionId), [], []))
    {
      websocket := Some(Socket(EndpointUrl(ConfigValue(sdk, "socketUrl"), sessionId, sdk.apiKey), [], []));
    }

    /** `onopen`: `session_connected {sessionId}`. */
    method OnOpen()
      requires session.Valid()
      modifies session, session.transport
      ensures session.Valid()
      ensures session.EmittedOnce("session_connected", SessionIdPayload(sessionId), None)
    {
      session.NoThrowBesideMessage("session_connected", SessionIdPayload(sessionId));
      var _ := session.Emit("session_connected", SessionIdPayload(sessionId));
    }

    /** `onmessage`: the parsed frame itself is the `message`; a frame that
        does not parse throws out of the handler and emits nothing. */
    method OnMessage(frame: ParseResult) returns (thrown: Option<string>)
      requires session.Valid()
      modifies session, session.transport
      ensures session.Valid()
      ensures frame.ParseError? ==>
        thrown == Some(frame.message) && unchanged(session)
        && (session.transport != null ==> unchanged(session.transport))
      ensures frame.Parsed? ==> session.EmittedOnce("message", frame.value, thrown)
    {
      match frame
      case ParseError(m) =>
        thrown := Some(m);
      case Parsed(v) =>
        thrown := session.Emit("message", v);
    }

    /** `onerror`: `session_error {sessionId, error: error.message}`. */
    method OnError(errorMessage: Value)
      requires session.Valid()
      modifies session, session.transport
      ensures session.Valid()
      ensures session.EmittedOnce("session_error", ErrorPayload(sessionId, errorMessage), None)
    {
      session.NoThrowBesideMessage("session_error", ErrorPayload(sessionId, errorMessage));
      var _ := session.Emit("session_error", ErrorPayload(sessionId, errorMessage));
    }

    /** `onclose`: `session_disconnected` with the close event's own code and reason. */
    method OnClose(code: Value, reason: Value)
      requires session.Valid()
      modifies session, session.transport
      ensures session.Valid()
      ensures session.EmittedOnce("session_disconnected", DisconnectPayload(sessionId, code, reason), None)
    {
      session.NoThrowBesideMessage("session_disconnected", DisconnectPayload(sessionId, code, reason));
      var _ := session.Emit("session_disconnected", DisconnectPayload(sessionId, code, reason));
    }

    /** Sends one permission frame; `granted` defaults to `false`. */
    method HandlePermissionRequest(granted: Value) returns (thrown: Option<string>)
      modifies this
      ensures websocket.Some? == old(websocket).Some?
      ensures old(websocket).Some? ==>
        thrown.None? &&
        websocket.value == old(websocket).value.(sent := old(websocket).value.sent + [SocketFrame(PermissionData(granted))])
      ensures old(websocket).None? ==> thrown == Some(ReadError(Null, "send"))
    {
      match SendVia(StrategyObject(websocket), SocketFrame(PermissionData(granted)))
      case Success(socket) =>
        websocket := Some(socket);
        thrown := None;
      case Failure(m) =>
        thrown := Some(m);
    }

    /** Sends one input frame; `input` defaults to `''`. */
    method HandleInput(input: Value) returns (thrown: Option<string>)
      modifies this
      ensures websocket.Some? == old(websocket).Some?
      ensures old(websocket).Some? ==>
        thrown.None? &&
        websocket.value == old(websocket).value.(sent := old(websocket).value.sent + [SocketFrame(InputData(input))])
      ensures old(websocket).None? ==> thrown == Some(ReadError(Null, "send"))
    {
      match SendVia(StrategyObject(websocket), SocketFrame(InputData(input)))
      case Success(socket) =>
        websocket := Some(socket);
        thrown := None;
      case Failure(m) =>
        thrown := Some(m);
    }

    /** `close(code, reason)`, which `end` calls and the code as written lacks;
        a missing socket makes it a no-op. */
    method Close(code: Value, reason: Value)
      modifies this
      ensures websocket == AfterCloses(old(websocket), 1, CloseRequest(code, reason))
    {
      if websocket.Some? {
        assert Repeat(CloseRequest(code, reason), 1) == [CloseRequest(code, reason)];
        websocket := Some(websocket.value.(closeRequests := websocket.value.closeRequests + [CloseRequest(code, reason)]));
      }
    }
  }

  /** As written, `create` and `connect` copy the transport's control methods
      onto the session unbound, so a call through the session runs them with
      `this` being the session, which has no `websocket`: every such call
      throws before anything is sent. */
  lemma CopiedHandlersThrow(granted: Value, input: Value)
    ensures SendVia(SessionObject, SocketFrame(PermissionData(granted))) == Failure(ReadError(Undefined, "send"))
    ensures SendVia(SessionObject, SocketFrame(InputData(input))) == Failure(ReadError(Undefined, "send"))
  {
  }
}
