/**
 * The session's event emitter: an ordered registry of listeners and the
 * specification of `emit`, which calls the listeners registered for an event
 * in registration order and stops at the first one that throws.
 */
module Emitter {
  import opened JsValue
  import opened Wrappers
  import opened SessionRules

  /** One `emit(name, payload)` call, as the session's event log records it. */
  datatype Emission = Emission(name: string, payload: Value)

  /** What a listener does: the library's own `complete` watcher, which calls
      `end` on a `complete` message, or an application callback known by an id. */
  datatype Action = CompleteWatcher | Caller(id: nat)

  /** A registration made by `on(event, callback)`. */
  datatype Listener = Listener(event: string, action: Action)

  /** One call of an application callback. */
  datatype Delivery = Delivery(id: nat, name: string, payload: Value)

  /** The effect of calling one listener for one emission. */
  datatype Step = Skip | Deliver(delivery: Delivery) | EndSession | Throw(message: string)

  /** `message.event === 'complete'`. */
  predicate IsComplete(payload: Value) {
    Get(payload, "event") == Str("complete")
  }

  /** What listener `l` does when `name` is emitted with `payload`. The
      watcher reads `message.event`, which throws on a nullish message. */
  function Invoke(l: Listener, name: string, payload: Value): Step {
    if l.event != name then Skip
    else match l.action
      case Caller(id) => Deliver(Delivery(id, name, payload))
      case CompleteWatcher =>
        if IsNullish(payload) then Throw(ReadError(payload, "event"))
        else if IsComplete(payload) then EndSession
        else Skip
  }

  /** A watcher ends the session exactly on a `complete` message for its
      event, and throws exactly on a nullish one; an application callback is
      called exactly for its own event, with the emitted payload. */
  lemma InvokeCases(l: Listener, name: string, payload: Value)
    ensures Invoke(l, name, payload).EndSession? <==>
      l.event == name && l.action.CompleteWatcher? && IsComplete(payload)
    ensures Invoke(l, name, payload).Throw? <==>
      l.event == name && l.action.CompleteWatcher? && IsNullish(payload)
    ensures Invoke(l, name, payload).Deliver? <==> l.event == name && l.action.Caller?
    ensures Invoke(l, name, payload).Deliver? ==>
      Invoke(l, name, payload).delivery == Delivery(l.action.id, name, payload)
  {
    if l.event == name && l.action.CompleteWatcher? && IsComplete(payload) {
      assert !IsNullish(payload);
    }
  }

  /** The combined effect of an emission: the application callbacks called,
      in order, how many times `end` was called, and what was thrown, if anything. */
  datatype Dispatched = Dispatched(deliveries: seq<Delivery>, ends: nat, thrown: Option<string>)

  /** One listener's step followed by the dispatch to the listeners after it:
      a throw ends the emission, discarding what those would have done. */
  function Combine(step: Step, rest: Dispatched): Dispatched {
    match step
    case Skip => rest
    case Deliver(d) => rest.(deliveries := [d] + rest.deliveries)
    case EndSession => rest.(ends := rest.ends + 1)
    case Throw(m) => Dispatched([], 0, Some(m))
  }

  /** Dispatch to the listeners `ls[i..]`, in order, up to the first that throws. */
  function DispatchFrom(ls: seq<Listener>, i: nat, name: string, payload: Value): Dispatched
    requires i <= |ls|
    decreases |ls| - i
  {
    if i == |ls| then Dispatched([], 0, None)
    else Combine(Invoke(ls[i], name, payload), DispatchFrom(ls, i + 1, name, payload))
  }

  /** `emit(name, payload)` over the whole registry. */
  function Dispatch(ls: seq<Listener>, name: string, payload: Value): Dispatched {
    DispatchFrom(ls, 0, name, payload)
  }

  /** The application callbacks registered for `name`, in registration order. */
  function CallersFor(ls: seq<Listener>, name: string): seq<nat> {
    if ls == [] then []
    else if ls[0].event == name && ls[0].action.Caller? then [ls[0].action.id] + CallersFor(ls[1..], name)
    else CallersFor(ls[1..], name)
  }

  /** The number of `complete` watchers registered for `name`. */
  function WatchersFor(ls: seq<Listener>, name: string): nat {
    if ls == [] then 0
    else (if ls[0].event == name && ls[0].action.CompleteWatcher? then 1 else 0) + WatchersFor(ls[1..], name)
  }

  /** The ids of a sequence of deliveries. */
  function DeliveredIds(ds: seq<Delivery>): seq<nat> {
    if ds == [] then [] else [ds[0].id] + DeliveredIds(ds[1..])
  }

  /** Without a watcher for `name`, an emission throws nothing, ends nothing,
      and calls exactly the callbacks registered for `name`, each once, in order,
      with the emitted payload. */
  lemma {:induction false} DispatchWithoutWatchers(ls: seq<Listener>, i: nat, name: string, payload: Value)
    requires i <= |ls|
    requires WatchersFor(ls[i..], name) == 0
    ensures var d := DispatchFrom(ls, i, name, payload);
      d.thrown.None? && d.ends == 0 && DeliveredIds(d.deliveries) == CallersFor(ls[i..], name)
      && forall k :: 0 <= k < |d.deliveries| ==> d.deliveries[k].name == name && d.deliveries[k].payload == payload
    decreases |ls| - i
  {
    if i < |ls| {
      assert ls[i..][0] == ls[i] && ls[i..][1..] == ls[i + 1..];
      InvokeCases(ls[i], name, payload);
      DispatchWithoutWatchers(ls, i + 1, name, payload);
    }
  }

  /** A non-nullish payload makes no watcher throw; then `end` is called once
      per registered watcher when the payload is a `complete` event, and never
      otherwise, however many application callbacks there are. */
  lemma {:induction false} EndsOncePerWatcher(ls: seq<Listener>, i: nat, name: string, payload: Value)
    requires i <= |ls|
    requires !IsNullish(payload)
    ensures var d := DispatchFrom(ls, i, name, payload);
      d.thrown.None? && d.ends == (if IsComplete(payload) then WatchersFor(ls[i..], name) else 0)
      && DeliveredIds(d.deliveries) == CallersFor(ls[i..], name)
    decreases |ls| - i
  {
    if i < |ls| {
      assert ls[i..][0] == ls[i] && ls[i..][1..] == ls[i + 1..];
      InvokeCases(ls[i], name, payload);
      EndsOncePerWatcher(ls, i + 1, name, payload);
    }
  }

  /** Watchers registered only for `watched` never fire for another name. */
  lemma {:induction false} WatchersOnlyFor(ls: seq<Listener>, watched: string, name: string)
    requires forall k :: 0 <= k < |ls| && ls[k].action.CompleteWatcher? ==> ls[k].event == watched
    requires name != watched
    ensures WatchersFor(ls, name) == 0
  {
    if ls != [] {
      WatchersOnlyFor(ls[1..], watched, name);
    }
  }

  /** A nullish `message` makes the first watcher throw: the callbacks
      registered after it are not called. */
  lemma NullishMessageStopsAtWatcher(c: nat, payload: Value)
    requires IsNullish(payload)
    ensures Dispatch([Listener("message", CompleteWatcher), Listener("message", Caller(c))], "message", payload)
      == Dispatched([], 0, Some(ReadError(payload, "event")))
  {
  }

  /** What listener `l` does as the code is written: the watcher's call of
      `end` throws (`EndAsWritten`), so a `complete` message makes the watcher
      throw instead of ending the session. Every other step is unchanged. */
  function InvokeAsWritten(l: Listener, name: string, payload: Value): Step {
    match Invoke(l, name, payload)
    case EndSession =>
      (match EndAsWritten(Str(CompletedEndMessage))
       case Success(_) => EndSession
       case Failure(m) => Throw(m))
    case step => step
  }

  /** Dispatch to `ls[i..]` as the code is written. */
  function DispatchAsWrittenFrom(ls: seq<Listener>, i: nat, name: string, payload: Value): Dispatched
    requires i <= |ls|
    decreases |ls| - i
  {
    if i == |ls| then Dispatched([], 0, None)
    else Combine(InvokeAsWritten(ls[i], name, payload), DispatchAsWrittenFrom(ls, i + 1, name, payload))
  }

  /** `emit(name, payload)` over the whole registry, as the code is written. */
  function DispatchAsWritten(ls: seq<Listener>, name: string, payload: Value): Dispatched {
    DispatchAsWrittenFrom(ls, 0, name, payload)
  }

  /** Away from a `complete` message the code as written and the corrected
      emitter dispatch identically. */
  lemma {:induction false} AsWrittenAgreesOffCompletion(ls: seq<Listener>, i: nat, name: string, payload: Value)
    requires i <= |ls|
    requires !IsComplete(payload)
    ensures DispatchAsWrittenFrom(ls, i, name, payload) == DispatchFrom(ls, i, name, payload)
    decreases |ls| - i
  {
    if i < |ls| {
      InvokeCases(ls[i], name, payload);
      AsWrittenAgreesOffCompletion(ls, i + 1, name, payload);
    }
  }

  /** As written, a `complete` message makes the first watcher for its event
      throw `socket.close is not a function`: only the callbacks registered
      before that watcher are called, nothing is ended, and the callbacks
      registered after it never see the message. */
  lemma {:induction false} AsWrittenCompleteStopsAtWatcher(ls: seq<Listener>, i: nat, j: nat, name: string, payload: Value)
    requires i <= j < |ls|
    requires ls[j] == Listener(name, CompleteWatcher)
    requires WatchersFor(ls[i..j], name) == 0
    requires IsComplete(payload)
    ensures var d := DispatchAsWrittenFrom(ls, i, name, payload);
      d.thrown == Some("socket.close is not a function") && d.ends == 0
      && DeliveredIds(d.deliveries) == CallersFor(ls[i..j], name)
    decreases j - i
  {
    if i == j {
      EndAsWrittenAlwaysThrows(Str(CompletedEndMessage));
      InvokeCases(ls[i], name, payload);
      assert ls[i..j] == [];
    } else {
      assert ls[i..j][0] == ls[i] && ls[i..j][1..] == ls[i + 1..j];
      InvokeCases(ls[i], name, payload);
      AsWrittenCompleteStopsAtWatcher(ls, i + 1, j, name, payload);
      var rest := DispatchAsWrittenFrom(ls, i + 1, name, payload);
      if ls[i].event == name {
        var d := Delivery(ls[i].action.id, name, payload);
        assert ([d] + rest.deliveries)[1..] == rest.deliveries;
      }
    }
  }
}
