# assisfy-sdk session layer, modelled in Dafny

This project models the session lifecycle of the assisfy-sdk JavaScript
client. It covers four pieces:

- **The SDK facade** (`AssisfySDK`). It merges the environment's default
  configuration with the caller's overrides and hands out sessions.
- **The `Session`**. It is an event emitter. `create(input)` validates an
  optional auto-trigger schedule and POSTs `/sessions`. Then it either
  reports a deferred schedule or records the session id and wires a
  transport. `connect(sessionId)` wires a transport to an existing session.
  Each wiring takes over the transport's control methods and `end`, and
  registers a watcher that ends the session on a `complete` message.
- **The WebSocket transport** (`WebSocketSessionStrategy`). It opens the
  socket as it is constructed and turns socket callbacks into session
  events. It sends permission and input control frames.
- **The Server-Sent Events transport** (`SSESessionStrategy`). It opens an
  event stream with one listener per event name. Control messages go to an
  egress endpoint by HTTP POST, and `close()` emits a synthetic disconnect.

Modules:

| module | what it holds |
|---|---|
| `JsValue` | JavaScript values and the language semantics the code relies on: truthiness, `typeof`, `?.`, `\|\|`, `String(v)` |
| `Wire` | I/O outcomes as data (a parse result, a POST outcome), socket state, and every payload and frame the transports build |
| `Sdk` | `AssisfySDK` and the two built-in configurations |
| `SessionRules` | `create`'s decisions as pure functions: auto-trigger validation, the error-message chain, the outcome, `end`'s reason |
| `Emitter` | `emit` as a pure function over the listener registry |
| `Sessions` | the `Session` and `WebSocketSessionStrategy` classes, which refer to each other |
| `SseStrategy` | the `SSESessionStrategy` class |
| `Scenarios` | end-to-end runs, stated as what an SDK caller observes |

Modelling choices:

- Sockets, event streams and HTTP are not performed. A POST's outcome is
  passed in as a `Wire.PostOutcome`, and a frame's `JSON.parse` result as a
  `Wire.ParseResult`.
- The effects are recorded as state: the sockets' sent frames and close
  requests, the stream's listeners and close calls, and the requests issued.
- The session's listener registry is a `seq` of registrations. There are
  two kinds: the library's `complete` watcher, and application callbacks,
  which are identified by number.
- `Session.Emit` is a loop over the registry, proved against
  `Emitter.Dispatch`.

What the code does, and the model with it:

- `handlePermissionRequest`, `handleInput` and `end` are assigned only when
  a transport is wired. Calling one of them on a session that has none
  throws a `TypeError`, and the model returns that error.
- `create` ignores `connectStrategy` and always builds the WebSocket
  transport. Nothing in the session constructs the SSE transport.
- Every `create` that starts a session and every successful `connect`
  registers its own `complete` watcher, and each watcher calls the
  session's latest `end`. A deferred or refused `create` registers none.
- The stream event list spells the heartbeat "hearbeat". Neither built-in
  configuration has `sseUrl` or `sseEgressUrl`.

Two defects of the code are listed under "## Findings": `end` calls a
`close` method the transport does not have, and the copied control methods
are not bound to the transport. For each, the model has a member that
exhibits the code as written: `SessionRules.EndAsWritten`,
`Emitter.DispatchAsWritten`, `Sessions.CopiedHandlersThrow` and
`Sessions.Session.HandlePermissionRequestAsWritten`. The rest of
the model uses the corrected behaviour. The session's control methods send
on the transport. `Sessions.Session.End`, `Sessions.Session.Emit`,
`Sessions.Session.EndTimes` and the `complete` scenarios close the socket;
the rows that rest on this corrected `end` are marked "(corrected `end`)" in
the table below. As written, a `complete` message makes the first watcher
throw "socket.close is not a function". The emission stops there, so the
application's own `message` callbacks registered after that watcher never
receive the `complete` frame (`Scenarios.CompleteLostAsWritten`).

## Model

| member | source | states |
|---|---|---|
| `Sdk.NewSdk` | index.js:9-16 | apiKey and environment are kept verbatim. The config's keys are the defaults' keys plus the overrides' keys. An override always wins, and every default that is not overridden is kept. |
| `Sdk.DevelopmentOnlyForDevelopment` | index.js:13 | The development defaults are chosen if and only if the environment is exactly "development". Every other environment, including "staging" and an omitted one, gets production's. |
| `Sdk.NoOverridesKeepsDefaults` | index.js:9-16 | Corollary of `Sdk.NewSdk`: with no `config`, the SDK's configuration is exactly the selected defaults. |
| `Sdk.OverrideExample` | index.js:12-15 | Example of `Sdk.NewSdk`: an overridden `baseUrl` is used, and `socketUrl` keeps its production default. |
| `Sessions.SessionOf` | index.js:18-20 | `session()` returns a fresh session with no id, no transport, no listeners, no events and no requests. |
| `JsValue.Without` | modules/session.js:88 | The rest object lacks `request` and agrees with the original on every other property. |
| `SessionRules.AutoTriggerOf` | modules/session.js:37 | A missing `withAutoTrigger` is `null`, and so is an explicit `undefined`. Any other value given, including `null`, `false` and `0`, is kept as given. The result is never `undefined`. |
| `SessionRules.ValidateAutoTriggerCases` | modules/session.js:39-47 | Rejects a truthy non-object trigger with the "must be an object" message. Rejects a truthy object that lacks a truthy `interval`, `end_at` or `web_hook_url` with the "must have" message. Otherwise passes. Each case is an if-and-only-if. |
| `SessionRules.OrChainPicksFirstTruthy` | modules/session.js:89-96 | A `\|\|` chain yields its first truthy operand. |
| `SessionRules.OrChainFallsThrough` | modules/session.js:89-96 | A chain with no truthy operand yields its last operand. |
| `SessionRules.ErrorChainPriority` | modules/session.js:86-96 | The rethrown message is the first truthy value among the response body's `error`, `message`, `error_message`, `error_description` and the body itself. If none is truthy, it is `error.message`. |
| `SessionRules.OwnErrorKeepsMessage` | modules/session.js:86-96 | An error the library throws itself, which has no `response`, passes through the catch with its message unchanged. |
| `SessionRules.ServerErrorFieldWins` | modules/session.js:89-96 | For every body and every other property of the error: a truthy `error` in the body is what is rethrown, whatever else the body holds. When `error` is missing or falsy (`""`, `0`, `false`, `null`) and `message` is truthy, `message` is rethrown. |
| `SessionRules.UnrecognisedBodyBecomesObjectText` | modules/session.js:89-96 | Every object body that has none of `error`, `message`, `error_message` and `error_description` is reported as "[object Object]", whatever else the error holds. |
| `SessionRules.CreateOutcomeCases` | modules/session.js:36-98 | `create` is rejected before the POST if and only if validation fails, and with validation's message. A failed POST is rejected with the chain's message. A nullish body or (when not deferred) nullish data is rejected. `create` is deferred if and only if the trigger is truthy and `start_now` is falsy; a deferred outcome carries the whole response data. Otherwise it starts with `data.sessionId`. |
| `SessionRules.EndReason` | modules/session.js:77 | The close reason is always truthy. It is the message when that is truthy, and "Ending session from client" otherwise. |
| `SessionRules.EndAsWrittenAlwaysThrows` | modules/session.js:77 | As written, every `end` call fails with "socket.close is not a function", whatever the message. |
| `Sessions.EndRequest` | modules/session.js:75-78 | `end(message)` requests close code 1000 with the reason above. |
| `Sessions.CopiedHandlersThrow` | modules/session.js:73-74 | As written, calling the copied control methods through the session throws, because the session has no `websocket`. Nothing is sent. |
| `Emitter.InvokeCases` | modules/session.js:80-84 | (corrected `end`) A watcher ends the session if and only if the event is `message` and the payload's `event` is "complete". It throws if and only if the payload is nullish. An application callback is called if and only if its event name matches, and then with the emitted payload. |
| `Emitter.EndsOncePerWatcher` | modules/session.js:80-84 | (corrected `end`) With a non-nullish payload nothing throws. `end` is called once per watcher on a `complete` event and never otherwise. The application callbacks registered for the name are called in registration order. |
| `Emitter.DispatchWithoutWatchers` | modules/session.js:61 | An event with no watcher throws nothing and ends nothing. It calls exactly the callbacks registered for its name, each once, in order, with the emitted payload. |
| `Emitter.WatchersOnlyFor` | modules/session.js:135-139 | Watchers registered for `message` never fire for another event name. |
| `Emitter.NullishMessageStopsAtWatcher` | modules/session.js:136 | A `null`/`undefined` message makes the watcher throw on reading `event`. The application callback registered after it is not called, and `end` is not called. |
| `Emitter.AsWrittenAgreesOffCompletion` | modules/session.js:80-84 | For any payload that is not a `complete` event, the emission as written and the corrected one are identical. |
| `Emitter.AsWrittenCompleteStopsAtWatcher` | modules/session.js:75-84 | As written, a `complete` event makes the first watcher for its name throw "socket.close is not a function". Only the callbacks registered before that watcher are called, in order, and `end` closes nothing. |
| `Sessions.Session.constructor` | modules/session.js:13-17 | A new session has the SDK, no id, no transport, and empty registry and histories. |
| `Sessions.Session.On` | modules/session.js:80 | `on` appends exactly one registration and changes nothing else. |
| `Sessions.Session.Emit` | modules/session.js:80-84 | (corrected `end`) The emission is logged once. The callbacks called, the number of `end` calls and what is thrown are exactly `Emitter.Dispatch` over the registry before the call. Every `end` adds one close request (1000, "Reason='Session completed'") to the current socket. An emission that calls no `end` leaves the transport untouched. Nothing else changes. |
| `Sessions.Session.EndTimes` | modules/session.js:80-84 | (corrected `end`) `n` watcher-triggered `end` calls leave exactly `n` close requests (1000, "Reason='Session completed'") on the current socket. |
| `Sessions.Session.End` | modules/session.js:75-78 | (corrected `end`) With a transport: one close request `EndRequest(message)` on its socket, and nothing thrown. Without one: "session.end is not a function". |
| `Sessions.Session.HandlePermissionRequest` | modules/session.js:73 | (corrected binding) With a transport: exactly one permission frame is appended to its socket's sent frames, and nothing else changes. Without one: a `TypeError`. |
| `Sessions.Session.HandleInput` | modules/session.js:74 | (corrected binding) The same, for an input frame. |
| `Sessions.Session.HandlePermissionRequestAsWritten` | modules/session.js:73 | As written: before any wiring the call is "session.handlePermissionRequest is not a function"; after wiring, the unbound copy always throws reading `send` of `undefined` and changes nothing. |
| `Sessions.Session.HandleInputAsWritten` | modules/session.js:74 | The same, for `handleInput`. |
| `Sessions.Session.Wire` | modules/session.js:68-84 | Builds exactly one fresh transport for the current id, opened on `socketUrl?sessionId=&apiKey=`. It becomes the current transport and adds exactly one `complete` watcher. |
| `Sessions.Session.Create` | modules/session.js:36-98 | The rejection is exactly `CreateOutcomeOf`'s, and the new state is `CreatedAs` that outcome. Invalid input: no request, and nothing changes. Failed request: exactly one POST `{...input, auto_trigger}` to `baseUrl/sessions` with the API key header, and nothing else. Deferred: the POST, then one `session_created` with the whole data, and no transport. Started: the POST, the id, one `session_created {sessionId}`, then exactly one fresh transport for that id and one watcher. In every case a transport held before the call, and its socket, are left unchanged. |
| `Sessions.Session.Refuse` | modules/session.js:36-97 | A refused `create`: the POST when it was made, and no other change. |
| `Sessions.Session.Defer` | modules/session.js:60-63 | A deferred schedule: one POST, then one `session_created` carrying the whole data. Id, transport, registry and socket are untouched. A transport held before the call is unchanged. |
| `Sessions.Session.Start` | modules/session.js:65-84 | A session that starts now: one POST, the id recorded, `session_created {sessionId}` emitted before the transport exists, then one fresh transport and one watcher. The transport held before the call, if any, is left unchanged, socket included. |
| `Sessions.Session.Connect` | modules/session.js:117-153 | A falsy id is rejected with "Session ID is required" and changes nothing. A truthy id is stored verbatim, and exactly one fresh transport and one watcher are added. No event is emitted and no request is made. |
| `Sessions.Session.NoThrowBesideMessage` | modules/session.js:135-139 | On a valid session, an emission of any name but `message` throws nothing and ends nothing. |
| `Sessions.WebSocketSessionStrategy.constructor` | strategies/WebSocketSessionStrategy.js:9-15 | The transport takes the session's current id and opens its socket during construction, on `socketUrl?sessionId=<id>&apiKey=<key>`, with nothing sent. |
| `Sessions.WebSocketSessionStrategy.ConnectWebSocket` | strategies/WebSocketSessionStrategy.js:17-22 | The socket is opened on the URL built from `socketUrl`, the id and the API key. |
| `Sessions.WebSocketSessionStrategy.OnOpen` | strategies/WebSocketSessionStrategy.js:23-25 | Emits `session_connected {sessionId}` once, and nothing is thrown. |
| `Sessions.WebSocketSessionStrategy.OnMessage` | strategies/WebSocketSessionStrategy.js:27-30 | A frame that parses is emitted unchanged as `message`. One that does not parse throws the parse error and emits nothing. |
| `Sessions.WebSocketSessionStrategy.OnError` | strategies/WebSocketSessionStrategy.js:32-34 | Emits `session_error {sessionId, error: error.message}` once. |
| `Sessions.WebSocketSessionStrategy.OnClose` | strategies/WebSocketSessionStrategy.js:36-43 | Emits `session_disconnected` once, with the close event's own code and reason. |
| `Sessions.WebSocketSessionStrategy.HandlePermissionRequest` | strategies/WebSocketSessionStrategy.js:46-54 | Appends exactly one frame, `{type: external_resource_granted, data: {granted, resource_type: admin_permission_request}}`. A missing socket throws. |
| `Sessions.WebSocketSessionStrategy.HandleInput` | strategies/WebSocketSessionStrategy.js:56-65 | Appends exactly one frame, `{type: external_resource_granted, data: {input, resource_type: request_user_input, granted: true}}`. |
| `Sessions.WebSocketSessionStrategy.Close` | modules/session.js:77 | (corrected `end`) The source transport has no `close`; this is the one the corrected `end` calls. It records exactly one close request with the given code and reason, and is a no-op on a missing socket. |
| `Wire.WithDefault` | strategies/WebSocketSessionStrategy.js:46 | A parameter default applies only to `undefined`. |
| `Wire.PermissionData` | strategies/WebSocketSessionStrategy.js:49-52 | The permission data has exactly the keys `granted` and `resource_type`. `granted` defaults to `false`. |
| `Wire.InputData` | strategies/WebSocketSessionStrategy.js:59-63 | The input data has exactly `input`, `resource_type` and `granted`. `input` defaults to `''`, and `granted` is always `true`. |
| `Wire.SocketFrame` | strategies/WebSocketSessionStrategy.js:47-48 | A socket control frame has exactly the keys `type` and `data`. It is tagged by `type`, not `event`, and carries the data. |
| `Wire.SendVia` | strategies/WebSocketSessionStrategy.js:47 | A send succeeds if and only if the receiver is a transport with a socket. On success the frame is appended. On a session it throws reading `send` of `undefined`. |
| `Wire.SessionIdPayload` | strategies/WebSocketSessionStrategy.js:24 | `{sessionId}` holds exactly that key. |
| `Wire.ErrorPayload` | strategies/WebSocketSessionStrategy.js:33 | `{sessionId, error}` has exactly those two keys and carries both values. |
| `Wire.DisconnectPayload` | strategies/WebSocketSessionStrategy.js:38-42 | `{sessionId, code, reason}` has exactly those three keys and carries all three values. |
| `Wire.EgressBody` | strategies/SSESessionStrategy.js:98-103 | An egress POST body has exactly the keys `event` and `data`. It is tagged by `event`, not `type`, and carries the data. |
| `Wire.ControlPayloadsAgree` | strategies/SSESessionStrategy.js:98-103 | Corollary of `Wire.SocketFrame` and `Wire.EgressBody`: both transports carry the same control data under the same tag value. Only the tag's key differs. |
| `Wire.StreamMessage` | strategies/SSESessionStrategy.js:73-76 | A stream frame becomes `{event: <type>, data: <parsed>}`, with exactly those keys. |
| `SseStrategy.SSESessionStrategy.constructor` | strategies/SSESessionStrategy.js:39-45 | Takes the session's current id and opens the stream during construction. The stream has one listener per event name, no close calls and no egress. |
| `SseStrategy.SSESessionStrategy.ConnectEventSource` | strategies/SSESessionStrategy.js:51-85 | Opens the stream once on `sseUrl?sessionId=&apiKey=`. Registers listeners for exactly the event list, in order. |
| `SseStrategy.SSESessionStrategy.OnOpen` | strategies/SSESessionStrategy.js:60-62 | Emits `session_connected {sessionId}` once. |
| `SseStrategy.SSESessionStrategy.OnError` | strategies/SSESessionStrategy.js:64-66 | Emits `session_error {sessionId, error: error.message}` once. |
| `SseStrategy.SSESessionStrategy.OnEvent` | strategies/SSESessionStrategy.js:69-84 | (corrected `end`) A frame of a registered type whose data parses emits `message {event, data}` once, and nothing throws. One whose data does not parse emits `session_error` with the prefixed parse message instead. An unregistered type changes nothing. As written, a `complete` frame on a session that has a watcher makes the watcher throw inside the listener's `try`, which then emits an extra `session_error` reading "Error parsing event data: socket.close is not a function". |
| `SseStrategy.SSESessionStrategy.HandlePermissionRequest` | strategies/SSESessionStrategy.js:92-111 | Exactly one POST to `sseEgressUrl?sessionId=&apiKey=` with the permission body. A failed POST emits one `session_error` ("Error granting permission: …") and is never a rejection. A successful one emits nothing. |
| `SseStrategy.SSESessionStrategy.HandleInput` | strategies/SSESessionStrategy.js:118-138 | The same, for the input body and "Error handling input: …". |
| `SseStrategy.SSESessionStrategy.Close` | strategies/SSESessionStrategy.js:143-152 | Without a stream: nothing. With one: one more close call on the stream and one `session_disconnected {sessionId, 1000, "Client closed connection"}`. The stream is never cleared, so a second call closes and emits again. |
| `SseStrategy.EventTypesDistinct` | strategies/SSESessionStrategy.js:18-19 | No event name is listed twice. |
| `SseStrategy.OneListenerPerEventType` | strategies/SSESessionStrategy.js:69-70 | Each listed event name has exactly one listener, and any other name has none. |
| `SseStrategy.HeartbeatIsMisspelled` | strategies/SSESessionStrategy.js:19 | "hearbeat" is registered and "heartbeat" is not. |
| `SseStrategy.NoDefaultStreamEndpoint` | strategies/SSESessionStrategy.js:52-55 | For every configuration that does not set `sseUrl`, including none at all and one that overrides only other keys, the SDK has no `sseUrl` and the stream URL begins with "undefined?sessionId=". |
| `Scenarios.CompleteEndsSessionOnce` | modules/session.js:130-139 | (corrected `end`) After `connect` and one application `message` callback, a `complete` frame closes the socket exactly once, with code 1000 and "Reason='Session completed'". The callback still receives the frame. |
| `Scenarios.CompleteLostAsWritten` | modules/session.js:130-139 | As written, after `connect` and one application `message` callback, a `complete` frame throws "socket.close is not a function", ends nothing, and the callback receives nothing. |
| `Scenarios.CopiedHandlerSendsNothing` | modules/session.js:128-129 | As written, after `connect`, `session.handlePermissionRequest(granted)` throws "Cannot read properties of undefined (reading 'send')" and the transport's socket has nothing sent. |
| `Scenarios.ReconnectEndsTwice` | modules/session.js:128-139 | (corrected `end`) After two `connect` calls, one `complete` frame closes the latest socket twice and the first socket not at all. |
| `Scenarios.DeferredCreateBuildsNoTransport` | modules/session.js:60-63 | A schedule that does not mention `start_now` is deferred, because `!undefined` holds. It makes one request and one `session_created` carrying the whole data, and builds no transport. |
| `Scenarios.IncompleteTriggerIsRefused` | modules/session.js:43-45 | A schedule without `web_hook_url` is refused before any request, and no event is emitted. |

## Left out

- `getSessionData` is not modelled. It is a single HTTP GET whose result is returned unchanged, and it involves no session state.
- All I/O is left out: axios, `ws` and `eventsource`. Their outcomes are parameters (`PostOutcome`, `ParseResult`, the callback arguments), and their effects are recorded as data.
- Asynchrony, event-loop interleaving, and frames racing a close are not modelled. Every callback runs to completion as one method call.
- The JSON grammar and `JSON.stringify` are left out. A parsed frame is a `Value`, and a sent frame is the object before stringification.
- Arrays, floating-point numbers, `NaN`, symbols and functions are left out of `JsValue.Value`. Numbers are integers.
- Only object input to `create` is modelled, as a map. A primitive `input`, which the destructuring would read through, is not.
- A string `config` spread into the SDK configuration (character-indexed keys) is not modelled. Non-object overrides contribute nothing.
- The model does not throw for invalid socket URLs, which `new WebSocket` rejects. It does not model `send` on a socket that is not yet open, or the `readyState` checks.
- Application callbacks never throw in the model. So the case where the SSE listener's `catch` catches an exception thrown by a callback during `emit` is not covered.
- The `TypeError` texts follow V8's wording only approximately. In particular, destructuring `data` out of a nullish body is reported as a property-read error.
- `console.log` in `end` is not modelled.
- The listener-count warning of `setMaxListeners(100)` is not produced, and registration is unbounded.
- The `newListener` and `removeListener` events and listener removal are not modelled; the code never removes a listener.
- `Sessions.Session.Emit`: the callbacks' record and the socket's close requests are brought up to date after the loop over the listeners, not interleaved with it. The two are independent records in the model, so the interleaving is not observable.
- `Sessions.Session.End`: the model records every close request, including a second one on an already closing socket. A real socket ignores repeated closes, and that is not modelled.

## Findings

| source | as written | input that shows it | evidently intended | confidence | as-written member | corrected member |
|---|---|---|---|---|---|---|
| modules/session.js:73-74 | `handlePermissionRequest` and `handleInput` are copied from the transport without binding. A call through the session runs them with `this` as the session, whose `websocket` is undefined. | `create` succeeds, then `session.handlePermissionRequest(true)`: it throws "Cannot read properties of undefined (reading 'send')" and no frame is sent. | The call sends the control frame on the session's socket. | not executed | `Sessions.CopiedHandlersThrow`, `Sessions.Session.HandlePermissionRequestAsWritten`, `Scenarios.CopiedHandlerSendsNothing` | `Sessions.Session.HandlePermissionRequest` |
| modules/session.js:77 | `end` calls `socket.close(...)`, but `WebSocketSessionStrategy` defines no `close` method. | Any `session.end()`: it throws "socket.close is not a function" and the socket stays open. After `connect(id)` and `on('message', cb)`, a frame `{event: "complete"}` makes the session's watcher throw the same error, so the socket stays open and `cb` never receives the `complete` frame. | The socket is closed with code 1000 and the message or the default reason, and the callbacks registered after the watcher still receive the frame. | not executed | `SessionRules.EndAsWrittenAlwaysThrows`, `Emitter.AsWrittenCompleteStopsAtWatcher`, `Scenarios.CompleteLostAsWritten` | `Sessions.Session.End`, `Sessions.Session.Emit`, `Scenarios.CompleteEndsSessionOnce` |
