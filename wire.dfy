/**
 * What crosses the wire: the abstract outcomes of the foreign I/O (a JSON
 * parse, an HTTP POST), the state of an opened socket, and the payloads the
 * two transports build for the session's events and for control messages.
 */
module Wire {
  import opened JsValue
  import opened Wrappers

  /** The outcome of `JSON.parse` on a frame: the parsed value or the
      `SyntaxError` message. */
  datatype ParseResult = Parsed(value: Value) | ParseError(message: string)

  /** The outcome of an `axios.post`: the response body, or the error it
      rejected with (an object whose `response` and `message` the code reads). */
  datatype PostOutcome = Responded(body: Value) | Failed(error: Value)

  /** An HTTP POST the library issued: target, JSON body and the `x-api-key`
      header (`Undefined` when the request carries none). */
  datatype HttpPost = HttpPost(url: string, body: Value, apiKeyHeader: Value)

  /** A `close(code, reason)` request made on a socket. */
  datatype CloseRequest = CloseRequest(code: Value, reason: Value)

  /** An opened WebSocket: its URL, the frames sent on it, the close requests made. */
  datatype Socket = Socket(url: string, sent: seq<Value>, closeRequests: seq<CloseRequest>)

  const ExternalResourceGranted := "external_resource_granted"
  const AdminPermissionRequest := "admin_permission_request"
  const RequestUserInput := "request_user_input"

  /** A parameter's default as JavaScript applies it: only for `undefined`. */
  function WithDefault(v: Value, default: Value): (r: Value)
    ensures v.Undefined? ==> r == default
    ensures !v.Undefined? ==> r == v
  {
    if v.Undefined? then default else v
  }

  /** The `data` of a permission grant; `granted` defaults to `false`. */
  function PermissionData(granted: Value): (r: Value)
    ensures Get(r, "granted") == WithDefault(granted, Bool(false))
    ensures Get(r, "resource_type") == Str(AdminPermissionRequest)
    ensures r.Obj? && r.props.Keys == {"granted", "resource_type"}
  {
    Obj(map["granted" := WithDefault(granted, Bool(false)),
            "resource_type" := Str(AdminPermissionRequest)])
  }

  /** The `data` of an input reply; `input` defaults to `''` and the grant is always `true`. */
  function InputData(input: Value): (r: Value)
    ensures Get(r, "input") == WithDefault(input, Str(""))
    ensures Get(r, "resource_type") == Str(RequestUserInput)
    ensures Get(r, "granted") == Bool(true)
    ensures r.Obj? && r.props.Keys == {"input", "resource_type", "granted"}
  {
    Obj(map["input" := WithDefault(input, Str("")),
            "resource_type" := Str(RequestUserInput),
            "granted" := Bool(true)])
  }

  /** A control frame on the socket: `{type: 'external_resource_granted', data}`. */
  function SocketFrame(data: Value): (r: Value)
    ensures Get(r, "type") == Str(ExternalResourceGranted) && Get(r, "data") == data
    ensures Get(r, "event") == Undefined
    ensures r.Obj? && r.props.Keys == {"type", "data"}
  {
    Obj(map["type" := Str(ExternalResourceGranted), "data" := data])
  }

  /** A control POST body on the egress endpoint: `{event: 'external_resource_granted', data}`. */
  function EgressBody(data: Value): (r: Value)
    ensures Get(r, "event") == Str(ExternalResourceGranted) && Get(r, "data") == data
    ensures Get(r, "type") == Undefined
    ensures r.Obj? && r.props.Keys == {"event", "data"}
  {
    Obj(map["event" := Str(ExternalResourceGranted), "data" := data])
  }

  /** `{sessionId}`. */
  function SessionIdPayload(sessionId: Value): (r: Value)
    ensures Get(r, "sessionId") == sessionId && r.Obj? && r.props.Keys == {"sessionId"}
  {
    Obj(map["sessionId" := sessionId])
  }

  /** `{sessionId, error}`. */
  function ErrorPayload(sessionId: Value, error: Value): (r: Value)
    ensures Get(r, "sessionId") == sessionId && Get(r, "error") == error
    ensures r.Obj? && r.props.Keys == {"sessionId", "error"}
  {
    Obj(map["sessionId" := sessionId, "error" := error])
  }

  /** `{sessionId, code, reason}`. */
  function DisconnectPayload(sessionId: Value, code: Value, reason: Value): (r: Value)
    ensures Get(r, "sessionId") == sessionId && Get(r, "code") == code && Get(r, "reason") == reason
    ensures r.Obj? && r.props.Keys == {"sessionId", "code", "reason"}
  {
    Obj(map["sessionId" := sessionId, "code" := code, "reason" := reason])
  }

  /** The canonical event a stream frame of type `eventType` becomes: `{event, data}`. */
  function StreamMessage(eventType: string, data: Value): (r: Value)
    ensures Get(r, "event") == Str(eventType) && Get(r, "data") == data
    ensures r.Obj? && r.props.Keys == {"event", "data"}
  {
    Obj(map["event" := Str(eventType), "data" := data])
  }

  /** `${base}?sessionId=${sessionId}&apiKey=${apiKey}`. */
  function EndpointUrl(base: Value, sessionId: Value, apiKey: Value): string {
    ToJsString(base) + "?sessionId=" + ToJsString(sessionId) + "&apiKey=" + ToJsString(apiKey)
  }

  /** The object a control method runs on, as `this`: a transport with its
      `websocket` field, or a `Session`, which has no such property. */
  datatype Receiver = StrategyObject(websocket: Option<Socket>) | SessionObject

  /** `this.websocket.send(frame)`: reading `send` off a missing socket throws. */
  function SendVia(receiver: Receiver, frame: Value): (r: Result<Socket, string>)
    ensures r.Success? <==> receiver.StrategyObject? && receiver.websocket.Some?
    ensures r.Success? ==> r.value == receiver.websocket.value.(sent := receiver.websocket.value.sent + [frame])
    ensures receiver.SessionObject? ==> r == Failure(ReadError(Undefined, "send"))
  {
    match receiver
    case SessionObject => Failure(ReadError(Undefined, "send"))
    case StrategyObject(None) => Failure(ReadError(Null, "send"))
    case StrategyObject(Some(socket)) => Success(socket.(sent := socket.sent + [frame]))
  }

  /** `n` copies of `x`. */
  function Repeat<T>(x: T, n: nat): (r: seq<T>)
    ensures |r| == n && forall i :: 0 <= i < n ==> r[i] == x
  {
    if n == 0 then [] else Repeat(x, n - 1) + [x]
  }

  /** The socket after `n` identical close requests; a missing socket stays missing. */
  function AfterCloses(websocket: Option<Socket>, n: nat, request: CloseRequest): (r: Option<Socket>)
    ensures r.Some? <==> websocket.Some?
    ensures r.Some? ==> r.value.url == websocket.value.url && r.value.sent == websocket.value.sent
    ensures r.Some? ==> r.value.closeRequests == websocket.value.closeRequests + Repeat(request, n)
    ensures n == 0 ==> r == websocket
  {
    match websocket
    case None => None
    case Some(s) =>
      var requests := s.closeRequests + Repeat(request, n);
      assert n == 0 ==> requests == s.closeRequests;
      Some(s.(closeRequests := requests))
  }

  /** One more close request after `n` of them makes `n + 1`. */
  lemma AfterOneMoreClose(websocket: Option<Socket>, n: nat, request: CloseRequest)
    ensures AfterCloses(AfterCloses(websocket, n, request), 1, request) == AfterCloses(websocket, n + 1, request)
  {
    if websocket.Some? {
      var s := websocket.value;
      assert Repeat(request, 1) == [request];
      assert s.closeRequests + Repeat(request, n) + [request] == s.closeRequests + Repeat(request, n + 1);
    }
  }

  /** Both transports carry the same canonical control data; only the name of
      the top-level tag differs (`type` on the socket, `event` on the egress POST). */
  lemma ControlPayloadsAgree(data: Value)
    ensures Get(SocketFrame(data), "data") == Get(EgressBody(data), "data") == data
    ensures Get(SocketFrame(data), "type") == Get(EgressBody(data), "event") == Str(ExternalResourceGranted)
    ensures Get(SocketFrame(data), "event") == Get(EgressBody(data), "type") == Undefined
  {
  }
}
