/**
 * The Server-Sent Events transport: a push stream with one listener per
 * event name, plus an HTTP egress endpoint for control messages. Nothing in
 * the session constructs it; it is modelled as the class it is, driving a
 * given session.
 */
module SseStrategy {
  import opened JsValue
  import opened Wrappers
  import opened Wire
  import opened Sdk
  import opened Emitter
  import opened Sessions

  /** The stream event names a listener is registered for, in registration
      order; the heartbeat event is spelled "hearbeat". */
  const EventTypes: seq<string> := [
    "started", "browser_started", "action_run", "thoughts_and_memories",
    "external_resource_requested", "complete", "error", "hearbeat", "connected"
  ]

  const ParseErrorPrefix := "Error parsing event data: "
  const GrantErrorPrefix := "Error granting permission: "
  const InputErrorPrefix := "Error handling input: "
  const ClientClosedReason := "Client closed connection"

  /** An opened `EventSource`: its URL, the event names listened for (one
      entry per `addEventListener`), and how often `close` was called on it. */
  datatype EventStream = EventStream(url: string, listeners: seq<string>, closeCalls: nat)

  /** `${sseUrl}?sessionId=<id>&apiKey=<key>`. */
  function StreamUrl(sdk: AssisfySdk, sessionId: Value): string {
    EndpointUrl(ConfigValue(sdk, "sseUrl"), sessionId, sdk.apiKey)
  }

  /** `${sseEgressUrl}?sessionId=<id>&apiKey=<key>`. */
  function EgressUrl(sdk: AssisfySdk, sessionId: Value): string {
    EndpointUrl(ConfigValue(sdk, "sseEgressUrl"), sessionId, sdk.apiKey)
  }

  /** How many entries of `s` equal `x`. */
  function Occurrences(s: seq<string>, x: string): nat {
    if s == [] then 0 else (if s[0] == x then 1 else 0) + Occurrences(s[1..], x)
  }

  class SSESessionStrategy {
    const session: Session
    const sdk: AssisfySdk
    /** The session's id when the transport was built. */
    const sessionId: Value
    /** `null` until `connectEventSource` opens the stream; never cleared. */
    var eventSource: Option<EventStream>
    /** Every POST made to the egress endpoint. */
    var egress: seq<HttpPost>

    constructor(session: Session, sdk: AssisfySdk)
      ensures this.session == session && this.sdk == sdk && sessionId == session.sessionId
      ensures eventSource == Some(EventStream(StreamUrl(sdk, session.sessionId), EventTypes, 0))
      ensures egress == []
    {
      this.session := session;
      this.sdk := sdk;
      sessionId := session.sessionId;
      eventSource := None;
      egress := [];
      new;
      ConnectEventSource();
    }

    /** Opens the stream once and registers one listener per event name, in order. */
    method ConnectEventSource()
      modifies this
      ensures eventSource == Some(EventStream(StreamUrl(sdk, sessionId), EventTypes, 0))
      ensures egress == old(egress)
    {
      var url := EndpointUrl(ConfigValue(sdk, "sseUrl"), sessionId, sdk.apiKey);
      eventSource := Some(EventStream(url, [], 0));
      for i := 0 to |EventTypes|
        invariant eventSource == Some(EventStream(url, EventTypes[..i], 0))
        invariant egress == old(egress)
      {
        assert EventTypes[..i + 1] == EventTypes[..i] + [EventTypes[i]];
        eventSource := Some(eventSource.value.(listeners := eventSource.value.listeners + [EventTypes[i]]));
      }
      assert EventTypes[..|EventTypes|] == EventTypes;
    }

    /** A listener for `eventType` is registered on the stream. */
    predicate Registered(eventType: string)
      reads this
    {
      eventSource.Some? && eventType in eventSource.value.listeners
    }

    /** `onopen`: `session_connected {sessionId}`. */
    method OnOpen()
      requires session.Valid()
      modifies session, session.transport
      ensures session.Valid()
      ensures session.EmittedOnce("session_connected", SessionIdPayload(sessionId), None)
    {
      session.NoThrowBesideMessage("session_connected", SessionIdPayload(sessionId));
      var _ := session.Emit("session_connected", SessionIdPayload(sessionId));
    }

    /** `onerror`: `session_error {sessionId, error: error.message}`. */
    method OnError(errorMessage: Value)
      requires session.Valid()
      modifies session, session.transport
      ensures session.Valid()
      ensures session.EmittedOnce("session_error", ErrorPayload(sessionId, errorMessage), None)
    {
      session.NoThrowBesideMessage("session_error", ErrorPayload(sessionId, errorMessage));
      var _ := session.Emit("session_error", ErrorPayload(sessionId, errorMessage));
    }

    /** A stream frame of type `eventType` whose data parsed to `data`: the
        registered listener turns it into the canonical `{event, data}`
        message, or into a `session_error` when the data does not parse. A
        frame of a type without a listener reaches nothing. */
    method OnEvent(eventType: string, data: ParseResult)
      requires session.Valid()
      modifies session, session.transport
      ensures session.Valid()
      ensures !Registered(eventType) ==>
        unchanged(session) && (session.transport != null ==> unchanged(session.transport))
      ensures Registered(eventType) && data.Parsed? ==>
        session.EmittedOnce("message", StreamMessage(eventType, data.value), None)
      ensures Registered(eventType) && data.ParseError? ==>
        session.EmittedOnce("session_error", ErrorPayload(sessionId, Str(ParseErrorPrefix + data.message)), None)
    {
      if !Registered(eventType) {
        return;
      }
      match data {
        case Parsed(v) =>
          var message := StreamMessage(eventType, v);
          assert session.listeners[0..] == session.listeners;
          EndsOncePerWatcher(session.listeners, 0, "message", message);
          var _ := session.Emit("message", message);
        case ParseError(m) =>
          var payload := ErrorPayload(sessionId, Str(ParseErrorPrefix + m));
          session.NoThrowBesideMessage("session_error", payload);
          var _ := session.Emit("session_error", payload);
      }
    }

    /** Posts one permission grant (`granted` defaults to `false`); a failed
        POST becomes a `session_error` and never a rejection. */
    method HandlePermissionRequest(granted: Value, post: PostOutcome)
      requires session.Valid()
      modifies this, session, session.transport
      ensures session.Valid()
      ensures egress == old(egress) + [HttpPost(EgressUrl(sdk, sessionId), EgressBody(PermissionData(granted)), Undefined)]
      ensures eventSource == old(eventSource)
      ensures post.Responded? ==>
        unchanged(session) && (session.transport != null ==> unchanged(session.transport))
      ensures post.Failed? ==>
        session.EmittedOnce("session_error",
          ErrorPayload(sessionId, Str(GrantErrorPrefix + ToJsString(Get(post.error, "message")))), None)
    {
      egress := egress + [HttpPost(EgressUrl(sdk, sessionId), EgressBody(PermissionData(granted)), Undefined)];
      if post.Failed? {
        var payload := ErrorPayload(sessionId, Str(GrantErrorPrefix + ToJsString(Get(post.error, "message"))));
        session.NoThrowBesideMessage("session_error", payload);
        var _ := session.Emit("session_error", payload);
      }
    }

    /** Posts one input reply (`input` defaults to `''`, always granted); a
        failed POST becomes a `session_error` and never a rejection. */
    method HandleInput(input: Value, post: PostOutcome)
      requires session.Valid()
      modifies this, session, session.transport
      ensures session.Valid()
      ensures egress == old(egress) + [HttpPost(EgressUrl(sdk, sessionId), EgressBody(InputData(input)), Undefined)]
      ensures eventSource == old(eventSource)
      ensures post.Responded? ==>
        unchanged(session) && (session.transport != null ==> unchanged(session.transport))
      ensures post.Failed? ==>
        session.EmittedOnce("session_error",
          ErrorPayload(sessionId, Str(InputErrorPrefix + ToJsString(Get(post.error, "message")))), None)
    {
      egress := egress + [HttpPost(EgressUrl(sdk, sessionId), EgressBody(InputData(input)), Undefined)];
      if post.Failed? {
        var payload := ErrorPayload(sessionId, Str(InputErrorPrefix + ToJsString(Get(post.error, "message"))));
        session.NoThrowBesideMessage("session_error", payload);
        var _ := session.Emit("session_error", payload);
      }
    }

    /** `close()`: nothing without a stream; otherwise the stream is closed and
        a synthetic `session_disconnected` is emitted. The stream is never
        cleared, so every later call closes and emits again. */
    method Close()
      requires session.Valid()
      modifies this, session, session.transport
      ensures session.Valid()
      ensures egress == old(egress)
      ensures old(eventSource).None? ==>
        eventSource.None? && unchanged(session) && (session.transport != null ==> unchanged(session.transport))
      ensures old(eventSource).Some? ==>
        eventSource == Some(old(eventSource).value.(closeCalls := old(eventSource).value.closeCalls + 1))
        && session.EmittedOnce("session_disconnected",
             DisconnectPayload(sessionId, Num(1000), Str(ClientClosedReason)), None)
    {
      if eventSource.Some? {
        eventSource := Some(eventSource.value.(closeCalls := eventSource.value.closeCalls + 1));
        var payload := DisconnectPayload(sessionId, Num(1000), Str(ClientClosedReason));
        session.NoThrowBesideMessage("session_disconnected", payload);
        var _ := session.Emit("session_disconnected", payload);
      }
    }
  }

  /** No event name is listed twice. */
  lemma EventTypesDistinct()
    ensures forall i, j :: 0 <= i < j < |EventTypes| ==> EventTypes[i] != EventTypes[j]
  {
  }

  /** A list without repeats holds each name once or not at all. */
  lemma {:induction false} OccurrencesWithoutRepeats(s: seq<string>, x: string)
    requires forall i, j :: 0 <= i < j < |s| ==> s[i] != s[j]
    ensures Occurrences(s, x) == (if x in s then 1 else 0)
  {
    if s != [] {
      assert forall i, j :: 0 <= i < j < |s[1..]| ==> s[1..][i] != s[1..][j] by {
        forall i, j | 0 <= i < j < |s[1..]| ensures s[1..][i] != s[1..][j] {
          assert s[1..][i] == s[i + 1] && s[1..][j] == s[j + 1];
        }
      }
      OccurrencesWithoutRepeats(s[1..], x);
      if s[0] == x {
        assert x !in s[1..] by {
          forall k | 0 <= k < |s[1..]| ensures s[1..][k] != x {
            assert s[1..][k] == s[k + 1];
          }
        }
      } else {
        assert x in s <==> x in s[1..];
      }
    }
  }

  /** Every event name of the list has exactly one listener, so a frame of a
      listed type produces exactly one event in the session. */
  lemma OneListenerPerEventType(eventType: string)
    ensures Occurrences(EventTypes, eventType) == (if eventType in EventTypes then 1 else 0)
  {
    EventTypesDistinct();
    OccurrencesWithoutRepeats(EventTypes, eventType);
  }

  /** The heartbeat is registered under the name "hearbeat": a frame named
      "heartbeat" has no listener. */
  lemma HeartbeatIsMisspelled()
    ensures "hearbeat" in EventTypes && "heartbeat" !in EventTypes
  {
    assert EventTypes[7] == "hearbeat";
  }

  /** Neither built-in configuration names a stream endpoint: unless the
      caller's configuration supplies `sseUrl`, the stream URL is built on
      `undefined`, whose text is "undefined". */
  lemma NoDefaultStreamEndpoint(apiKey: Value, config: Value, environment: Value, sessionId: Value)
    requires "sseUrl" !in OwnProperties(config)
    ensures ConfigValue(NewSdk(apiKey, config, environment), "sseUrl") == Undefined
    ensures StreamUrl(NewSdk(apiKey, config, environment), sessionId) == EndpointUrl(Undefined, sessionId, apiKey)
  {
    assert "sseUrl" !in ProductionConfig && "sseUrl" !in DevelopmentConfig;
  }


}
