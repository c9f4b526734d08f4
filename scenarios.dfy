/**
 * End-to-end runs of the model, stated as methods whose postconditions are
 * what a caller of the SDK observes.
 */
module Scenarios {
  import opened JsValue
  import opened Wrappers
  import opened Wire
  import opened Sdk
  import opened SessionRules
  import opened Emitter
  import opened Sessions

  /** The canonical `complete` event as the socket delivers it. */
  function CompleteEvent(): (e: Value)
    ensures IsComplete(e) && !IsNullish(e)
  {
    Obj(map["event" := Str("complete"), "data" := Obj(map[])])
  }

  /** After `connect(id)`, a `complete` frame closes the socket exactly once,
      with code 1000 and the completion reason, and the application's own
      `message` callback still sees the frame. */
  method CompleteEndsSessionOnce(sdk: AssisfySdk, id: Value) returns (closes: seq<CloseRequest>, seen: seq<Delivery>)
    requires Truthy(id)
    ensures closes == [EndRequest(Str(CompletedEndMessage))]
    ensures seen == [Delivery(7, "message", CompleteEvent())]
  {
    var s := SessionOf(sdk);
    var err := s.Connect(id);
    s.On("message", 7);
    var t := s.transport;
    var ls := s.listeners;
    assert ls == [Listener("message", CompleteWatcher), Listener("message", Caller(7))];
    var e := CompleteEvent();
    assert DispatchFrom(ls, 2, "message", e) == Dispatched([], 0, None);
    assert DispatchFrom(ls, 1, "message", e) == Dispatched([Delivery(7, "message", e)], 0, None);
    assert Dispatch(ls, "message", e) == Dispatched([Delivery(7, "message", e)], 1, None);
    assert Repeat(EndRequest(Str(CompletedEndMessage)), 1) == [EndRequest(Str(CompletedEndMessage))];
    var thrown := t.OnMessage(Parsed(CompleteEvent()));
    closes := t.websocket.value.closeRequests;
    seen := s.delivered;
  }

  /** The same session as in `CompleteEndsSessionOnce`, under the code as
      written: the watcher's `end` throws `socket.close is not a function`, so
      the socket is not closed and the application's `message` callback `c`,
      registered after `connect`, never receives the `complete` frame. */
  method CompleteLostAsWritten(sdk: AssisfySdk, id: Value, c: nat)
    returns (thrown: Option<string>, ends: nat, seen: seq<Delivery>)
    requires Truthy(id)
    ensures thrown == Some("socket.close is not a function")
    ensures ends == 0 && seen == []
  {
    var s := SessionOf(sdk);
    var err := s.Connect(id);
    s.On("message", c);
    var ls := s.listeners;
    assert ls == [Listener("message", CompleteWatcher), Listener("message", Caller(c))];
    assert ls[0..0] == [];
    AsWrittenCompleteStopsAtWatcher(ls, 0, 0, "message", CompleteEvent());
    var d := DispatchAsWritten(ls, "message", CompleteEvent());
    thrown, ends, seen := d.thrown, d.ends, d.deliveries;
  }

  /** As written, after `connect(id)` the session's copied
      `handlePermissionRequest` throws reading `send` of `undefined`, and the
      socket the transport opened has nothing sent on it. */
  method CopiedHandlerSendsNothing(sdk: AssisfySdk, id: Value, granted: Value)
    returns (thrown: Option<string>, sent: seq<Value>)
    requires Truthy(id)
    ensures thrown == Some(ReadError(Undefined, "send"))
    ensures sent == []
  {
    var s := SessionOf(sdk);
    var err := s.Connect(id);
    thrown := s.HandlePermissionRequestAsWritten(granted);
    sent := s.transport.websocket.value.sent;
  }

  /** Every `connect` adds its own watcher and they all call the same, latest
      `end`: after two connects a `complete` frame closes the latest socket
      twice and the first socket not at all. */
  method ReconnectEndsTwice(sdk: AssisfySdk, id: Value) returns (latest: seq<CloseRequest>, first: seq<CloseRequest>)
    requires Truthy(id)
    ensures latest == [EndRequest(Str(CompletedEndMessage)), EndRequest(Str(CompletedEndMessage))]
    ensures first == []
  {
    var s := SessionOf(sdk);
    var err := s.Connect(id);
    var t1 := s.transport;
    err := s.Connect(id);
    var t2 := s.transport;
    var ls := s.listeners;
    assert ls == [Listener("message", CompleteWatcher), Listener("message", CompleteWatcher)];
    var e := CompleteEvent();
    assert DispatchFrom(ls, 2, "message", e) == Dispatched([], 0, None);
    assert DispatchFrom(ls, 1, "message", e) == Dispatched([], 1, None);
    assert Dispatch(ls, "message", e) == Dispatched([], 2, None);
    var r := EndRequest(Str(CompletedEndMessage));
    assert Repeat(r, 2) == [r] + Repeat(r, 1) == [r, r];
    var thrown := t1.OnMessage(Parsed(CompleteEvent()));
    latest := t2.websocket.value.closeRequests;
    first := t1.websocket.value.closeRequests;
  }

  /** A `create` whose schedule does not mention `start_now` is deferred
      (`!undefined` holds): it issues one request, reports the whole response
      data, and builds no transport. */
  method DeferredCreateBuildsNoTransport(sdk: AssisfySdk, data: Value)
    returns (err: Option<string>, emitted: seq<Emission>, built: bool, posted: nat)
    ensures err.None?
    ensures emitted == [Emission("session_created", data)]
    ensures !built && posted == 1
  {
    var s := SessionOf(sdk);
    var trigger := Obj(map["interval" := Num(5), "end_at" := Str("2025-01-29T00:00:00Z"),
                           "web_hook_url" := Str("http://localhost:4001/example-webhook")]);
    var input := map["goal" := Str("Who is the president of the United States?"), "withAutoTrigger" := trigger];
    assert AutoTriggerOf(input) == trigger;
    assert Get(trigger, "start_now") == Undefined;
    assert ValidateAutoTrigger(trigger).None? && IsDeferred(trigger);
    var post := Responded(Obj(map["data" := data]));
    assert CreateOutcomeFor(input, post) == Deferred(data);
    err := s.Create(input, post);
    emitted := s.log;
    built := s.transport != null;
    posted := |s.requests|;
  }

  /** A schedule without `web_hook_url` is refused before any request. */
  method IncompleteTriggerIsRefused(sdk: AssisfySdk, post: PostOutcome)
    returns (err: Option<string>, posted: nat, emitted: nat)
    ensures err == Some(AutoTriggerIncomplete)
    ensures posted == 0 && emitted == 0
  {
    var s := SessionOf(sdk);
    var trigger := Obj(map["interval" := Num(5), "end_at" := Str("2025-01-29T00:00:00Z")]);
    var input := map["goal" := Str("x"), "withAutoTrigger" := trigger];
    assert AutoTriggerOf(input) == trigger;
    assert Get(trigger, "web_hook_url") == Undefined;
    assert ValidateAutoTrigger(trigger) == Some(AutoTriggerIncomplete);
    OwnErrorKeepsMessage(AutoTriggerIncomplete);
    assert CreateOutcomeFor(input, post) == Invalid(AutoTriggerIncomplete);
    err := s.Create(input, post);
    posted := |s.requests|;
    emitted := |s.log|;
  }
}
