/**
 * The value-level decisions `Session.create`, `Session.connect` and `end`
 * make: the auto-trigger check, the error-message chain of the `catch`
 * blocks, the choice between a deferred and a started session, and the close
 * reason of `end`.
 */
module SessionRules {
  import opened JsValue
  import opened Wrappers
  import opened Wire

  const AutoTriggerNotObject := "Auto trigger must be an object"
  const AutoTriggerIncomplete := "Auto trigger must have a interval, end_at and web_hook_url"
  const SessionIdRequired := "Session ID is required"
  const DefaultEndMessage := "Ending session from client"
  const CompletedEndMessage := "Reason='Session completed'"
  const NormalClosure := 1000

  /** `const { withAutoTrigger = null } = input`. */
  function AutoTriggerOf(input: map<string, Value>): (r: Value)
    ensures "withAutoTrigger" !in input ==> r == Null
    ensures "withAutoTrigger" in input ==> r == WithDefault(input["withAutoTrigger"], Null)
    ensures r.Undefined? == false
    ensures "withAutoTrigger" in input && !input["withAutoTrigger"].Undefined? ==> r == input["withAutoTrigger"]
  {
    if "withAutoTrigger" in input then WithDefault(input["withAutoTrigger"], Null) else Null
  }

  /** The check made before any request: `None` lets `create` go on, `Some`
      carries the message of the error it throws. */
  function ValidateAutoTrigger(autoTrigger: Value): Option<string> {
    if !Truthy(autoTrigger) then None
    else if !IsObjectType(autoTrigger) then Some(AutoTriggerNotObject)
    else if !Truthy(Get(autoTrigger, "interval")) || !Truthy(Get(autoTrigger, "end_at"))
      || !Truthy(Get(autoTrigger, "web_hook_url")) then Some(AutoTriggerIncomplete)
    else None
  }

  /** A missing or falsy trigger is no schedule and passes; a truthy one must
      be an object (`null` never gets this far, being falsy) with truthy
      `interval`, `end_at` and `web_hook_url`, and fails with the matching
      message otherwise. */
  lemma ValidateAutoTriggerCases(autoTrigger: Value)
    ensures ValidateAutoTrigger(autoTrigger) == Some(AutoTriggerNotObject) <==>
      Truthy(autoTrigger) && !IsObjectType(autoTrigger)
    ensures ValidateAutoTrigger(autoTrigger) == Some(AutoTriggerIncomplete) <==>
      Truthy(autoTrigger) && IsObjectType(autoTrigger) &&
      (!Truthy(Get(autoTrigger, "interval")) || !Truthy(Get(autoTrigger, "end_at"))
        || !Truthy(Get(autoTrigger, "web_hook_url")))
    ensures ValidateAutoTrigger(autoTrigger).None? <==>
      !Truthy(autoTrigger) ||
      (Truthy(Get(autoTrigger, "interval")) && Truthy(Get(autoTrigger, "end_at"))
        && Truthy(Get(autoTrigger, "web_hook_url")))
  {
    assert AutoTriggerNotObject != AutoTriggerIncomplete by {
      assert AutoTriggerNotObject[18] != AutoTriggerIncomplete[18];
    }
  }

  /** `errorObject.data` where `const { request, ...errorObject } = error.response || {}`. */
  function ResponseData(error: Value): Value {
    var errorObject := Without(Or(Get(error, "response"), Obj(map[])), "request");
    Get(errorObject, "data")
  }

  /** The operands of the `||` chain before its last one, `error.message`. */
  function ChainCandidates(error: Value): seq<Value> {
    var data := ResponseData(error);
    [Get(data, "error"), Get(data, "message"), Get(data, "error_message"),
     Get(data, "error_description"), data]
  }

  /** `c[0] || c[1] || ... || fallback`. */
  function OrChain(c: seq<Value>, fallback: Value): Value {
    if c == [] then fallback else Or(c[0], OrChain(c[1..], fallback))
  }

  /** An `||` chain yields its first truthy operand. */
  lemma {:induction false} OrChainPicksFirstTruthy(c: seq<Value>, fallback: Value, i: nat)
    requires i < |c| && Truthy(c[i])
    requires forall j :: 0 <= j < i ==> !Truthy(c[j])
    ensures OrChain(c, fallback) == c[i]
  {
    if i > 0 {
      assert !Truthy(c[0]);
      OrChainPicksFirstTruthy(c[1..], fallback, i - 1);
    }
  }

  /** An `||` chain whose operands are all falsy yields its last operand. */
  lemma {:induction false} OrChainFallsThrough(c: seq<Value>, fallback: Value)
    requires forall j :: 0 <= j < |c| ==> !Truthy(c[j])
    ensures OrChain(c, fallback) == fallback
  {
    if c != [] {
      assert !Truthy(c[0]);
      OrChainFallsThrough(c[1..], fallback);
    }
  }

  /** The value a `catch` block hands to `new Error(...)`: the `||` chain over
      the response body's fields, the body, and the error's own message. */
  function ErrorMessageValue(error: Value): Value {
    OrChain(ChainCandidates(error), Get(error, "message"))
  }

  /** The chain's result is the first truthy one of the body's `error`,
      `message`, `error_message`, `error_description` and the body itself, and
      `error.message` when none of them is truthy. */
  lemma ErrorChainPriority(error: Value)
    ensures var c := ChainCandidates(error);
      forall i :: 0 <= i < |c| && Truthy(c[i]) && (forall j :: 0 <= j < i ==> !Truthy(c[j])) ==>
        ErrorMessageValue(error) == c[i]
    ensures var c := ChainCandidates(error);
      (forall i :: 0 <= i < |c| ==> !Truthy(c[i])) ==> ErrorMessageValue(error) == Get(error, "message")
  {
    var c := ChainCandidates(error);
    forall i | 0 <= i < |c| && Truthy(c[i]) && (forall j :: 0 <= j < i ==> !Truthy(c[j]))
      ensures ErrorMessageValue(error) == c[i]
    {
      OrChainPicksFirstTruthy(c, Get(error, "message"), i);
    }
    if forall i :: 0 <= i < |c| ==> !Truthy(c[i]) {
      OrChainFallsThrough(c, Get(error, "message"));
    }
  }

  /** The message of the `Error` a `catch` block rethrows for `error`. */
  function ErrorText(error: Value): string {
    ErrorMessageText(ErrorMessageValue(error))
  }

  /** An error of the library's own (no `response`) keeps its message through
      the `catch` block. */
  lemma {:induction false} OwnErrorKeepsMessage(message: string)
    ensures ErrorText(ErrorObject(message)) == message
  {
    var e := ErrorObject(message);
    assert Get(e, "response") == Undefined;
    assert ResponseData(e) == Undefined;
    OrChainFallsThrough(ChainCandidates(e), Get(e, "message"));
  }

  /** A request error whose response carries the object body `props`. */
  function ResponseError(props: map<string, Value>, rest: map<string, Value>): (e: Value)
    ensures ResponseData(e) == Obj(props)
  {
    var e := Obj(rest["response" := Obj(map["data" := Obj(props)])]);
    assert Without(Obj(map["data" := Obj(props)]), "request").props == map["data" := Obj(props)];
    e
  }

  /** A truthy `error` field in the server's body wins over every other
      field; a falsy one gives way to a truthy `message`. */
  lemma ServerErrorFieldWins(props: map<string, Value>, rest: map<string, Value>)
    ensures "error" in props && Truthy(props["error"]) ==>
      ErrorMessageValue(ResponseError(props, rest)) == props["error"]
    ensures ("error" !in props || !Truthy(props["error"])) && "message" in props && Truthy(props["message"]) ==>
      ErrorMessageValue(ResponseError(props, rest)) == props["message"]
  {
    var e := ResponseError(props, rest);
    ErrorChainPriority(e);
    var c := ChainCandidates(e);
    assert c[0] == Get(Obj(props), "error") && c[1] == Get(Obj(props), "message");
    if "error" in props && Truthy(props["error"]) {
      assert Truthy(c[0]);
    } else if "message" in props && Truthy(props["message"]) {
      assert !Truthy(c[0]) && Truthy(c[1]);
    }
  }

  /** An object body without any of the four fields becomes the message
      "[object Object]", not the request's own message. */
  lemma UnrecognisedBodyBecomesObjectText(props: map<string, Value>, rest: map<string, Value>)
    requires "error" !in props && "message" !in props
    requires "error_message" !in props && "error_description" !in props
    ensures ErrorText(ResponseError(props, rest)) == "[object Object]"
  {
    var e := ResponseError(props, rest);
    ErrorChainPriority(e);
    assert ChainCandidates(e)[4] == Obj(props);
  }

  /** `withAutoTrigger && !withAutoTrigger?.start_now`: a schedule that does
      not start now. */
  predicate IsDeferred(autoTrigger: Value) {
    Truthy(autoTrigger) && !Truthy(Get(autoTrigger, "start_now"))
  }

  /** How a `create` call ends. */
  datatype CreateOutcome =
    | Invalid(message: string)        // rejected before any request
    | RequestFailed(message: string)  // request issued, then rejected through the chain
    | Deferred(data: Value)           // request issued; `session_created` carries the whole data
    | Started(sessionId: Value)       // request issued; the session is wired to a fresh transport
  {
    /** The message the returned promise rejects with, if it does. */
    function Rejection(): Option<string> {
      match this
      case Invalid(m) => Some(m)
      case RequestFailed(m) => Some(m)
      case _ => None
    }
  }

  /** The outcome of `create` for the `withAutoTrigger` value and the
      outcome of its POST, decided as the code decides it; `post` is not
      consulted when validation fails. */
  function CreateOutcomeOf(autoTrigger: Value, post: PostOutcome): CreateOutcome
  {
    match ValidateAutoTrigger(autoTrigger)
    case Some(m) => Invalid(ErrorText(ErrorObject(m)))
    case None =>
      match post
      case Failed(e) => RequestFailed(ErrorText(e))
      case Responded(body) =>
        if IsNullish(body) then RequestFailed(ErrorText(ErrorObject(ReadError(body, "data"))))
        else
          var data := Get(body, "data");
          if IsDeferred(autoTrigger) then Deferred(data)
          else if IsNullish(data) then RequestFailed(ErrorText(ErrorObject(ReadError(data, "sessionId"))))
          else Started(Get(data, "sessionId"))
  }

  /** `create` is rejected before any request exactly when validation fails,
      with validation's own message; a failed request is rejected with the
      message the chain picks; a schedule that does not start now is deferred
      with the whole response data; otherwise the session starts under
      `data.sessionId`. */
  lemma CreateOutcomeCases(autoTrigger: Value, post: PostOutcome)
    ensures var r := CreateOutcomeOf(autoTrigger, post);
      && (r.Invalid? <==> ValidateAutoTrigger(autoTrigger).Some?)
      && (r.Invalid? ==> r.message == ValidateAutoTrigger(autoTrigger).value)
      && (r.Deferred? <==>
            ValidateAutoTrigger(autoTrigger).None? && post.Responded? && !IsNullish(post.body)
            && IsDeferred(autoTrigger))
      && (r.Deferred? ==> r.data == Get(post.body, "data"))
      && (r.Started? <==>
            ValidateAutoTrigger(autoTrigger).None? && post.Responded? && !IsNullish(post.body)
            && !IsDeferred(autoTrigger) && !IsNullish(Get(post.body, "data")))
      && (r.Started? ==> r.sessionId == Get(Get(post.body, "data"), "sessionId"))
      && (ValidateAutoTrigger(autoTrigger).None? && post.Failed? ==> r == RequestFailed(ErrorText(post.error)))
  {
    if ValidateAutoTrigger(autoTrigger).Some? {
      OwnErrorKeepsMessage(ValidateAutoTrigger(autoTrigger).value);
    }
  }

  /** The reason `end(message)` closes with: the message, or the default when it is falsy. */
  function EndReason(message: Value): (r: Value)
    ensures Truthy(r)
    ensures Truthy(message) ==> r == message
    ensures !Truthy(message) ==> r == Str(DefaultEndMessage)
  {
    Or(message, Str(DefaultEndMessage))
  }

  /** The methods a `WebSocketSessionStrategy` instance has: no `close`. */
  const WebSocketStrategyMethods: set<string> := {"connectWebSocket", "handlePermissionRequest", "handleInput"}

  /** `end(message)` as written: `socket.close(1000, message || default)` on a
      transport that has no `close` method. */
  function EndAsWritten(message: Value): Result<CloseRequest, string> {
    var request := CloseRequest(Num(NormalClosure), EndReason(message));
    if "close" in WebSocketStrategyMethods then Success(request)
    else Failure(NotAFunction("socket.close"))
  }

  /** As written, every call of `end` throws, whatever the message: the socket is never closed. */
  lemma EndAsWrittenAlwaysThrows(message: Value)
    ensures EndAsWritten(message) == Failure("socket.close is not a function")
  {
    assert "close" != "connectWebSocket" && "close" != "handleInput";
    assert "close" != "handlePermissionRequest";
    assert NotAFunction("socket.close") == "socket.close is not a function";
  }
}
