# birect connection engine in Dafny

A model of the protocol engine of js-birect, a symmetric request/response
protocol over one WebSocket connection, plus the acceptor logic around it.

Each connection keeps three pieces of state:

- a request-id counter (`_lastReqId`);
- a table of pending outgoing requests (`_responsePromises`);
- a map from method name to JSON handler (`_jsonReqHandlerMap`).

The model represents a connection as the immutable record
`BirectConn.Conn(lastReqId, pending, handlers)`. Every entry point of the
connection is a pure step function returning a `Step`:

- the new record;
- the wrappers handed to the transport;
- the events for callers and handlers: `Resolved`, `Rejected`, or
  `Dispatched` (a handler was started);
- the exception the JavaScript code throws, if any, as a `Fault`.

When the code changes state and then throws, the `Step` keeps the changed
state. For example, `_handleResponse` deletes the table entry before it
throws on a bad response type.

A handler's promise settles in a separate step, `Settle`, which builds the
response to send. `ConnTrace.Run` folds a sequence of calls, registrations
and frames over one connection.

The acceptor side (`BirectServer`) keeps its JSON and proto registries and
the per-connection counter and table of every accepted connection. All
accepted connections are built over the server's one JSON map.
`BirectServer.ConnAt` rebuilds connection `i` over that shared map, and
`BirectServer.Commit` writes a step's result back to the server.

Payloads go through two codecs: JSON text in `JsonCodec` and string bytes in
`TextBytes`. Both are stand-ins. They are not JSON syntax and not UTF-8. The
engine relies on only one property of them, which is proved: decoding
returns what was encoded (`JsonCodec.ParseTextStringify`,
`TextBytes.DecodeEncode`).

## Behaviour as written

The model follows the code in places where the protocol's stated design
asks for something else:

- Request ids start at 1 and grow by one per request. Over unbounded
  integers no id is ever reused on a connection; see Left out for the
  precision of the JavaScript counter.
- A request for an unregistered method is never answered. The serving side
  calls an undefined handler and throws (`HandlerMissing`).
- A response whose id has no pending entry is not discarded quietly.
  Reading `.resolve` or `.reject` of the missing entry throws
  (`OrphanResponse`).
- Closing or losing the transport does not fail pending requests. Their
  entries stay in the table.
- A `message` wrapper calls `_handleMessage`, which the connection does not
  define, so the call throws (`MessageHandlerMissing`).
- A handler failure is never answered; see Findings. The corrected
  `Settle` answers it, and the scenarios use that version.

## Model

| member | source | states |
|---|---|---|
| BirectConn.NewConn | birect-conn.js:11-22 | A new connection has counter 0 and an empty table, which satisfies the table invariant. Its handler map is the one passed in, or a new empty map when none is given. |
| BirectConn.NextReqId | birect-conn.js:65-68 | The returned id is the old counter plus one and becomes the new counter. Under the invariant it is above every pending id, so it is not in the table. |
| BirectConn.SendRequestAndWaitForResponse | birect-conn.js:70-76 | The step that sends the request also adds its id to the table. The entry therefore exists before any reply can be handled. |
| BirectConn.SendJSONReq | birect-conn.js:29-34 | Sends one JSON request with the given name and the next id, records that id as pending, and keeps the invariant. The payload decodes back to the params. Params that serialise to `undefined` throw with no state change. |
| BirectConn.HandleJSONReq | birect-conn.js:35-40 | Throws exactly when the name is already registered, with the map unchanged. Otherwise the map gains exactly that name, mapped to the new handler, and every other entry stays. |
| BirectConn.HandleIncomingJSONReq | birect-conn.js:41-55 | Parses the params before calling the handler, so bad JSON throws first. An unknown name throws `HandlerMissing` and sends nothing. A handler that returns a promise yields one `Dispatched` event with the request's id. |
| BirectConn.HandleRequest | birect-conn.js:145-153 | JSON requests take the JSON handler path. Every other type throws `BadRequestType` with no state change. |
| BirectConn.HandleResponse | birect-conn.js:129-143 | Removes exactly the response's id from the table. A missing entry throws `OrphanResponse` when `isError` is set or the type is JSON. `isError` rejects with the data. A JSON response resolves with the parsed data. Any other type throws. |
| BirectConn.OnFrame | birect-conn.js:108-125 | A non-binary frame changes nothing and sends nothing. Undecodable bytes throw. Binary frames go to the request or response path by wrapper tag. A message wrapper or an empty wrapper throws. The invariant is kept. |
| BirectConn.SendResponse | birect-conn.js:78-82 | The response carries the given type, id and data, and leaves `isError` unset. |
| BirectConn.PublicMessage | birect-conn.js:86 | Uses `publicMessage` when it is a non-empty string, otherwise the fixed fallback. Never returns anything else. Throws (`None`) when the rejection value is null or undefined. |
| BirectConn.ErrorResponse | birect-conn.js:84-88 | An error response has `isError` set, type Text and the request's id. Its data decodes to the given message. |
| BirectConn.SendResponseErrorAsWritten | birect-conn.js:84-90 | As written, the error response is never transmitted. A nullish reason fails on reading `publicMessage`. Any other reason gets its error response built (carried in the outcome), and then the call to the undefined `sendWrapper` throws and the throw is swallowed. |
| BirectConn.SendResponseError | birect-conn.js:84-90 | Corrected: every failure except a null or undefined reason sends the error response built from the public message. |
| BirectConn.Settle | birect-conn.js:44-54 | A fulfilled value is answered as JSON, with `isError` clear and the same id, and the data decodes to the value. `undefined` throws and gets no answer. A failure is answered by the corrected error path. |
| BirectConn.SettleAsWritten | birect-conn.js:44-54 | As written, every failure is swallowed. Fulfilled values are answered as in `Settle`. |
| BirectConn.PayloadRoundTrip | birect-conn.js:43-46 | A JSON payload built with `stringify` then `Buffer` is parsed back to the same value. |
| JsonCodec.ParseTextStringify | birect-conn.js:139 | Parsing the text of a value gives the value back. |
| TextBytes.DecodeEncode | birect-conn.js:87 | Decoding the bytes of a string gives the string back. |
| Registry.Register | birect-server.js:30-35 | Succeeds exactly when the name is absent. On success it adds exactly that entry. On a duplicate it fails with that registry's error. |
| Registry.FirstHandlerStays | birect-conn.js:35-40 | Registering a name a second time fails, and the first handler stays. |
| ConnTrace.ApplyIssuesNextId | birect-conn.js:65-68 | One input sends at most one wrapper. That wrapper is a request with the next id, and the counter advances by the number of wrappers sent. |
| ConnTrace.RunIssuesConsecutiveIds | birect-conn.js:65-68 | In any run, the k-th request sent carries the id just above the starting counter plus k. The counter ends at the last id, and the table invariant holds throughout. |
| ConnTrace.NewConnIdsIncrease | birect-conn.js:13 | On a new connection the k-th request gets id k+1, so the first gets 1. Ids strictly increase, so none is reused. |
| ConnTrace.ReplyFindsPendingEntry | birect-conn.js:70-75 | A reply to a request just sent never hits the missing-entry fault. |
| ConnTrace.ResponsesInAnyOrder | birect-conn.js:129-143 | Responses to distinct pending requests can arrive in any order. Each settles its own caller exactly once, in arrival order, with no fault, and removes exactly its own entry. |
| ConnTrace.NoDoubleSettlement | birect-conn.js:130-131 | A second response for an id settles nothing. |
| BirectServer.NewServer | birect-server.js:19-27 | A new server has empty JSON and proto registries and no connections. |
| BirectServer.HandleJSONReq | birect-server.js:30-35 | Duplicate rule on the JSON registry: fails exactly on a present name. Otherwise it adds exactly that entry and leaves the proto registry and connections unchanged. |
| BirectServer.HandleProtoReq | birect-server.js:36-41 | The same rule on the separate proto registry. It leaves the JSON registry unchanged. |
| BirectServer.DuplicateJSONRejected | birect-server.js:30-35 | Registering a name a second time fails, and the first handler stays. |
| BirectServer.RegistriesIndependent | birect_tests.js:33-42 | One name can be registered in both the JSON and the proto registry. |
| BirectServer.ConnAt | birect-server.js:86-87 | Every accepted connection uses the server's JSON map, together with its own counter and table. |
| BirectServer.OnWSConnection | birect-server.js:86-91 | A new connection is `newConn` over the server's JSON map. Existing connections are unchanged. |
| BirectServer.Commit | birect-conn.js:39 | After a step, the connection's own state is written back, and a change to its handler map becomes the shared map of every connection. |
| BirectServer.ServerStep | birect-server.js:87 | An input to an accepted connection steps the connection built over the shared map. |
| BirectServer.ConnectionsShareRegistry | birect-conn.js:18 | All connections of one server read the same handler map. |
| BirectServer.ServerRegistrationReachesAll | birect-server.js:24 | A registration on the server after connections exist reaches every connection and leaves their counters and tables alone. |
| BirectServer.ConnRegistrationReachesAll | birect-conn.js:35-40 | A registration through one accepted connection reaches every other connection. Registering the same name again through any of them throws. |
| BirectServer.UpgradeRequestsOptions | birect-server.js:46-53 | The options keep the given path and `allowConnection`. |
| BirectServer.ListenAndServeOptions | birect-server.js:54-62 | No path is configured. |
| BirectServer.CheckUpgradeRequest | birect-server.js:77-85 | Rejects with 400 exactly when `allowConnection` is given and refuses. Otherwise rejects with 404 exactly when a non-empty path is set and the resource differs. Otherwise accepts with `birect` and the request's origin. |
| BirectServer.DisallowWinsOverPath | birect-server.js:78-81 | A refusal by `allowConnection` yields 400 even when the path is also wrong. |
| BirectServer.ListenAndServeAcceptsAnyResource | birect-server.js:54-61 | With no path configured, and `allowConnection` absent or agreeing, every resource is accepted. |
| BirectServer.OnUpgradeRequest | birect-server.js:69-74 | A rejection leaves the server unchanged. An acceptance adds one new connection over the shared map. |
| Scenarios.EchoHandler | birect_tests.js:22-24 | Answers with the request's `Text` field. It throws on `null`. |
| Scenarios.ServeStartsHandler | birect-conn.js:41-44 | A JSON request for a known name starts that handler under the request's id, with no state change. |
| Scenarios.AnswerSettlesCaller | birect-conn.js:129-139 | The answer to a pending request settles its caller: a fulfilled value resolves it, and a failure rejects it with the response data. The entry is removed. |
| Scenarios.RequestResolvesWithHandlerValue | birect-conn.js:44-47 | Across two connections, a handler that fulfils with v makes the caller's request resolve with v under the same id. The caller's table returns to what it was before the request. |
| Scenarios.RequestRejectsWithPublicMessage | birect-conn.js:84-88 | Across two connections, with the corrected send, a failing handler makes the caller's request reject. The message bytes decode to the public message. |
| Scenarios.ErrorDetailNeverSent | birect-conn.js:86 | What is sent for a failure does not depend on the failure's internal detail. |
| Scenarios.HandlerFailureLeavesCallerPendingAsWritten | birect-conn.js:89 | As written, a failing handler sends nothing, so the caller's entry stays pending. |
| Scenarios.FailureAnsweredOnlyWhenCorrected | birect-conn.js:84-90 | For a failure with a user-safe message such as "bad input", the code as written sends nothing. The corrected code sends the error response carrying that message. |
| Scenarios.UnknownMethodIsNotAnswered | birect-conn.js:42-44 | A request for an unregistered method makes the serving side throw `HandlerMissing`, and the caller's entry stays pending. |
| Scenarios.EchoScenario | birect_tests.js:11-31 | A server on "/birect/upgrade" with the echo handler accepts a client. The client's first request gets id 1, and `sendJSONReq("Echo", {Text: "Foo"})` resolves to a value whose `Text` is "Foo". |

## Left out

- WebSocket I/O (`sendBytes`, `_setup` event wiring, client `connect`, server `_setup`, `_listenAndServe`, `_upgradeRequests`, `http.createServer`): transport plumbing over an external library. `Wire.Transmit` assumes a sent wrapper reaches the peer unchanged.
- The protobuf codec for wrappers, whose schema file is not part of this model. A binary frame carries the decoded wrapper, or `None` when decoding throws. The `DataType` enum is limited to JSON, Proto and Text.
- `JSON.stringify`, `JSON.parse` and `Buffer` UTF-8 conversion: replaced by the stand-in codecs, which keep only the round trip. JSON numbers are integers (floating point is not modelled). Of the non-JSON JavaScript values, only a top-level `undefined` is modelled.
- Promise scheduling: a handler's settlement is fixed when it is dispatched. Sending the answer is a separate `Settle` step, and concurrency is not modelled.
- `_onWSError` and `_onWSClose`: the first rethrows and the second only logs. The model has no close step and leaves pending entries in place.
- The Proto request API of the connection, which the source leaves as a TODO. The proto registry is never consulted, and the fourth argument passed to `newConn` is ignored.
- The server's close listener, which drops the connection object from the WebSocket (birect-server.js:88-90): transport bookkeeping with no protocol state.
- Logging and the unused server fields `_connectionsById` and `_lastId`.
- Whether an exception thrown from the frame listener ends the process. `ConnTrace.Run` continues from the partially updated state.
- Handler-map lookups on a plain JavaScript object also find inherited properties such as `toString` or `__proto__`. The model's map holds only registered names.
- Registering a falsy handler value. A handler that returns something other than a promise.
- A `publicMessage` that is truthy but not a string.
- The width of the protobuf `reqId` field and the precision of `_lastReqId`: ids are unbounded naturals. The counter is a JavaScript Number, and `+= 1` stops advancing at 2^53. From then on every request gets the same id, and a new caller overwrites the pending entry of an earlier one. The model's claim that no id is reused holds only below 2^53.
- BirectConn.HandleResponse: the `Rejected` event's `data` field carries the response's raw data bytes. It does not model the string that `new Error(data)` derives from the decoded buffer object.

## Findings

| source | as written | input that shows it | evidently intended | confidence | as-written member | corrected member |
|---|---|---|---|---|---|---|
| birect-conn.js:89 | `_sendResponseError` sends through `this.sendWrapper`, which is not defined (the method is `_sendWrapper`, line 158), so the call throws inside the promise callback and the catch at lines 52-54 swallows it | any handler whose promise rejects with an error object, e.g. one with `publicMessage` "bad input" (`Scenarios.FailureAnsweredOnlyWhenCorrected`): no response is sent and the caller's request stays pending forever (`Scenarios.HandlerFailureLeavesCallerPendingAsWritten`) | call `this._sendWrapper`, so the error response built at lines 86-88 reaches the caller | high; not executed | BirectConn.SettleAsWritten (exhibited by Scenarios.FailureAnsweredOnlyWhenCorrected) | BirectConn.Settle |
