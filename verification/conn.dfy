/**
  The connection protocol engine: one connection's request-ID counter,
  pending-request table and JSON handler map, and the pure steps that the
  connection's entry points take on them.

  Every step returns the new connection, the wrappers handed to the
  transport, the resolution events, and the exception the JavaScript code
  would throw, if any. A throwing step still returns the state the code had
  already mutated before the throw.
 */
module BirectConn {
  import opened Wrappers
  import opened TextBytes
  import opened JsonCodec
  import opened Wire
  import Registry

  /** How the promise a handler returned eventually settles. */
  datatype Settlement = Fulfilled(value: JsValue) | Failed(reason: Reason)

  /**
    The value a handler's promise is rejected with: `null`/`undefined`, or
    an object with an optional user-safe `publicMessage` and internal detail
    that must not reach the peer.
   */
  datatype Reason = Nullish | ErrorValue(publicMessage: Option<string>, detail: string)

  /** What calling a handler does: it returns a promise, or throws at once. */
  datatype Invocation = Promised(settlement: Settlement) | Threw

  type Handler = Json -> Invocation

  /** The state of one connection (`_lastReqId`, `_responsePromises`, `_jsonReqHandlerMap`). */
  datatype Conn = Conn(lastReqId: nat, pending: set<ReqId>, handlers: map<string, Handler>)

  /** The observable effect of a step on callers and handlers. */
  datatype Event =
    | Resolved(reqId: ReqId, value: Json)        // the caller's promise resolves
    | Rejected(reqId: ReqId, data: Bytes)        // the caller's promise rejects with the response's data
    | Dispatched(reqId: ReqId, settlement: Settlement)  // a handler was started

  /** The exceptions the engine's entry points throw. */
  datatype Fault =
    | UnserialisableParams           // request params stringify to `undefined`
    | DuplicateHandler(duplicate: Registry.Duplicate)
    | MalformedWrapper               // `Wrapper.decode` rejects the frame's bytes
    | MessageHandlerMissing          // `_handleMessage` is not defined on the connection
    | BadWrapper                     // a wrapper with no content
    | BadRequestType(reqType: DataType)
    | BadJson                        // `JSON.parse` rejects a payload
    | HandlerMissing(name: string)   // calling the undefined handler
    | HandlerThrew(name: string)
    | OrphanResponse(reqId: ReqId)   // reading `.resolve`/`.reject` of an undefined entry
    | BadResponseType(resType: DataType)

  datatype Step = Step(conn: Conn, sent: seq<Wrapper>, events: seq<Event>, fault: Option<Fault>)

  /** The public message substituted when a failure carries none. */
  const FallbackMessage: string := "Oops! Something went wrong. Please try again."

  /** Every pending id was issued by this connection. */
  ghost predicate Inv(c: Conn) {
    forall id :: id in c.pending ==> 1 <= id <= c.lastReqId
  }

  function Quiet(c: Conn): Step { Step(c, [], [], None) }

  function Throw(c: Conn, f: Fault): Step { Step(c, [], [], Some(f)) }

  // ---------------------------------------------------------------------
  // Payloads

  /** `new Buffer(JSON.stringify(v), 'utf8')` */
  function PayloadOf(v: Json): Bytes {
    TextBytes.Encode(Stringify(v))
  }

  /** `JSON.parse(data.toBuffer())`, `None` when it throws. */
  function DecodePayload(data: Bytes): Option<Json> {
    ParseText(TextBytes.Decode(data))
  }

  /** A JSON payload decodes back to the value it was built from. */
  lemma PayloadRoundTrip(v: Json)
    ensures DecodePayload(PayloadOf(v)) == Some(v)
  {
    DecodeEncode(Stringify(v));
    ParseTextStringify(v);
  }

  // ---------------------------------------------------------------------
  // Construction and outgoing requests

  /** `newConn`: a fresh counter and table over the given handler map, or a new empty one. */
  function NewConn(handlers: Option<map<string, Handler>>): (c: Conn)
    ensures c.lastReqId == 0 && c.pending == {}
    ensures Inv(c)
    ensures handlers.Some? ==> c.handlers == handlers.value
    ensures handlers.None? ==> c.handlers == map[]
  {
    Conn(0, {}, handlers.GetOr(map[]))
  }

  /** `_nextReqId`: bumps the counter and returns it. */
  function NextReqId(c: Conn): (r: (Conn, ReqId))
    ensures r.1 == c.lastReqId + 1
    ensures r.1 >= 1 && r.1 > c.lastReqId
    ensures r.0.lastReqId == r.1 && r.0.pending == c.pending && r.0.handlers == c.handlers
    ensures Inv(c) ==> r.1 !in c.pending && forall id :: id in c.pending ==> id < r.1
  {
    var id := c.lastReqId + 1;
    (c.(lastReqId := id), id)
  }

  /**
    `_sendRequestAndWaitForResponse`: stores the pending entry for `reqId`
    and hands the request to the transport in the same step, so the entry
    exists before any reply can be processed.
   */
  function SendRequestAndWaitForResponse(c: Conn, reqId: ReqId, req: Request): (r: Step)
    ensures r.conn.pending == c.pending + {reqId} && reqId in r.conn.pending
    ensures r.conn.lastReqId == c.lastReqId && r.conn.handlers == c.handlers
    ensures r.sent == [RequestW(req)] && r.events == [] && r.fault.None?
  {
    Step(c.(pending := c.pending + {reqId}), [RequestW(req)], [], None)
  }

  /**
    `sendJSONReq`: encodes the params, takes the next id, records the
    pending entry and sends a JSON request. Params that stringify to
    `undefined` make the buffer constructor throw before an id is taken.
   */
  function SendJSONReq(c: Conn, name: string, params: JsValue): (r: Step)
    ensures params.Undefined? ==> r == Throw(c, UnserialisableParams)
    ensures params.Defined? ==>
      && r.fault.None? && r.events == []
      && r.conn.lastReqId == c.lastReqId + 1
      && r.conn.pending == c.pending + {r.conn.lastReqId}
      && r.conn.handlers == c.handlers
      && |r.sent| == 1 && r.sent[0].RequestW?
      && r.sent[0].request.reqId == r.conn.lastReqId
      && r.sent[0].request.name == name
      && r.sent[0].request.dtype == JSON
      && DecodePayload(r.sent[0].request.data) == Some(params.json)
    ensures params.Defined? && Inv(c) ==> r.conn.lastReqId !in c.pending
    ensures Inv(c) ==> Inv(r.conn)
  {
    match params
    case Undefined => Throw(c, UnserialisableParams)
    case Defined(v) =>
      PayloadRoundTrip(v);
      var data := PayloadOf(v);
      var (c', reqId) := NextReqId(c);
      SendRequestAndWaitForResponse(c', reqId, Request(reqId, name, JSON, data))
  }

  /** `handleJSONReq`: registers a handler; a name already present throws and changes nothing. */
  function HandleJSONReq(c: Conn, name: string, h: Handler): (r: Step)
    ensures r.sent == [] && r.events == []
    ensures r.fault.Some? <==> name in c.handlers
    ensures r.fault.Some? ==> r.conn == c && r.fault == Some(DuplicateHandler(Registry.Duplicate("JSON", name)))
    ensures r.fault.None? ==>
      && r.conn.lastReqId == c.lastReqId && r.conn.pending == c.pending
      && r.conn.handlers.Keys == c.handlers.Keys + {name}
      && r.conn.handlers[name] == h
      && forall k :: k in c.handlers ==> r.conn.handlers[k] == c.handlers[k]
  {
    match Registry.Register("JSON", c.handlers, name, h)
    case Ok(m) => Quiet(c.(handlers := m))
    case Err(dup) => Throw(c, DuplicateHandler(dup))
  }

  // ---------------------------------------------------------------------
  // Incoming wires

  /**
    `_handleIncomingJSONReq`: looks the handler up, parses the params and
    calls the handler. Parsing comes before the call, so bad JSON throws
    even for an unknown name; an unknown name throws when the undefined
    handler is called and is never answered.
   */
  function HandleIncomingJSONReq(c: Conn, req: Request): (r: Step)
    ensures r.conn == c && r.sent == []
    ensures DecodePayload(req.data).None? ==> r.fault == Some(BadJson)
    ensures DecodePayload(req.data).Some? && req.name !in c.handlers ==> r.fault == Some(HandlerMissing(req.name))
    ensures r.fault.None? <==>
      && DecodePayload(req.data).Some? && req.name in c.handlers
      && c.handlers[req.name](DecodePayload(req.data).value).Promised?
    ensures r.fault.None? ==>
      r.events == [Dispatched(req.reqId, c.handlers[req.name](DecodePayload(req.data).value).settlement)]
    ensures r.fault.Some? ==> r.events == []
  {
    var handler := if req.name in c.handlers then Some(c.handlers[req.name]) else None;
    match DecodePayload(req.data)
    case None => Throw(c, BadJson)
    case Some(params) =>
      match handler
      case None => Throw(c, HandlerMissing(req.name))
      case Some(h) =>
        match h(params)
        case Threw => Throw(c, HandlerThrew(req.name))
        case Promised(s) => Step(c, [], [Dispatched(req.reqId, s)], None)
  }

  /** `_handleRequest`: only JSON requests are served; any other type throws. */
  function HandleRequest(c: Conn, req: Request): (r: Step)
    ensures r.conn == c && r.sent == []
    ensures req.dtype == JSON ==> r == HandleIncomingJSONReq(c, req)
    ensures req.dtype != JSON ==> r == Throw(c, BadRequestType(req.dtype))
  {
    if req.dtype == JSON then HandleIncomingJSONReq(c, req)
    else Throw(c, BadRequestType(req.dtype))
  }

  /**
    `_handleResponse`: deletes the entry for the response's id first, then
    rejects on `isError`, resolves a JSON response with its parsed data, and
    throws on any other type. Settling a missing entry throws.
   */
  function HandleResponse(c: Conn, res: Response): (r: Step)
    ensures r.conn.pending == c.pending - {res.reqId}
    ensures r.conn.lastReqId == c.lastReqId && r.conn.handlers == c.handlers
    ensures r.sent == []
    ensures r.fault == Some(OrphanResponse(res.reqId)) <==>
      res.reqId !in c.pending && (res.isError || res.dtype == JSON)
    ensures res.isError && res.reqId in c.pending ==>
      r.fault.None? && r.events == [Rejected(res.reqId, res.data)]
    ensures !res.isError && res.dtype == JSON && res.reqId in c.pending ==>
      match DecodePayload(res.data)
      case Some(v) => r.fault.None? && r.events == [Resolved(res.reqId, v)]
      case None => r.fault == Some(BadJson) && r.events == []
    ensures !res.isError && res.dtype != JSON ==>
      r.fault == Some(BadResponseType(res.dtype)) && r.events == []
    ensures r.fault.Some? <==> r.events == []
  {
    var known := res.reqId in c.pending;
    var c' := c.(pending := c.pending - {res.reqId});
    if res.isError then
      if known then Step(c', [], [Rejected(res.reqId, res.data)], None)
      else Throw(c', OrphanResponse(res.reqId))
    else if res.dtype == JSON then
      if !known then Throw(c', OrphanResponse(res.reqId))
      else
        match DecodePayload(res.data)
        case None => Throw(c', BadJson)
        case Some(v) => Step(c', [], [Resolved(res.reqId, v)], None)
    else Throw(c', BadResponseType(res.dtype))
  }

  /**
    `_onWSFrame`: ignores non-binary frames, then dispatches on the
    wrapper's content. The message case calls `_handleMessage`, which the
    connection does not define, so it throws.
   */
  function OnFrame(c: Conn, f: Frame): (r: Step)
    ensures f.TextFrame? ==> r == Quiet(c)
    ensures f == BinaryFrame(None) ==> r == Throw(c, MalformedWrapper)
    ensures f.BinaryFrame? && f.decoded.Some? ==>
      match f.decoded.value
      case MessageW(_) => r == Throw(c, MessageHandlerMissing)
      case RequestW(req) => r == HandleRequest(c, req)
      case ResponseW(res) => r == HandleResponse(c, res)
      case NoContent => r == Throw(c, BadWrapper)
    ensures r.sent == []
    ensures Inv(c) ==> Inv(r.conn)
  {
    match f
    case TextFrame(_) => Quiet(c)
    case BinaryFrame(None) => Throw(c, MalformedWrapper)
    case BinaryFrame(Some(w)) =>
      match w
      case MessageW(_) => Throw(c, MessageHandlerMissing)
      case RequestW(req) => HandleRequest(c, req)
      case ResponseW(res) => HandleResponse(c, res)
      case NoContent => Throw(c, BadWrapper)
  }

  // ---------------------------------------------------------------------
  // Answering a request once its handler's promise settles

  /** Whether the response reaches the transport, or why the callback threw (and was logged). */
  datatype Delivery = Transmitted(wrapper: Wrapper) | Swallowed(cause: SendFailure)

  datatype SendFailure =
    | UnserialisableResult     // the handler resolved with `undefined`
    | NullishReason            // reading `publicMessage` of `null`/`undefined`
    | SendWrapperUndefined(built: Response)  // the error response was built, but `this.sendWrapper` is not a function

  /** `_sendResponse`: a response that leaves `isError` unset. */
  function SendResponse(dtype: DataType, reqId: ReqId, data: Bytes): (w: Wrapper)
    ensures w.ResponseW? && !w.response.isError
    ensures w.response.reqId == reqId && w.response.dtype == dtype && w.response.data == data
  {
    ResponseW(Response(reqId, dtype, false, data))
  }

  /**
    The user-safe text of a failure: a non-empty `publicMessage`, else the
    fallback; `None` when reading the property throws.
   */
  function PublicMessage(reason: Reason): (m: Option<string>)
    ensures reason.Nullish? <==> m.None?
    ensures m.Some? ==> m.value != ""
    ensures m.Some? ==>
      (m.value == FallbackMessage || (reason.publicMessage.Some? && m.value == reason.publicMessage.value))
    ensures reason.ErrorValue? && reason.publicMessage.Some? && reason.publicMessage.value != "" ==>
      m == reason.publicMessage
  {
    match reason
    case Nullish => None
    case ErrorValue(pm, _) =>
      if pm.Some? && pm.value != "" then pm else Some(FallbackMessage)
  }

  /** The error response `_sendResponseError` builds: Text, `isError`, the request's id. */
  function ErrorResponse(reqId: ReqId, message: string): (res: Response)
    ensures res.isError && res.dtype == Text && res.reqId == reqId
    ensures TextBytes.Decode(res.data) == message
  {
    DecodeEncode(message);
    Response(reqId, Text, true, TextBytes.Encode(message))
  }

  /**
    `_sendResponseError` as written: it builds the error response and then
    calls `this.sendWrapper`, which is undefined, so the response is never
    transmitted.
   */
  function SendResponseErrorAsWritten(reqId: ReqId, reason: Reason): (d: Delivery)
    ensures d.Swallowed?
    ensures reason.Nullish? <==> d == Swallowed(NullishReason)
    ensures reason.ErrorValue? ==> d.cause.SendWrapperUndefined?
    ensures reason.ErrorValue? ==> d.cause.built == ErrorResponse(reqId, PublicMessage(reason).value)
  {
    match PublicMessage(reason)
    case None => Swallowed(NullishReason)
    case Some(m) => Swallowed(SendWrapperUndefined(ErrorResponse(reqId, m)))
  }

  /** `_sendResponseError` sending through `_sendWrapper`, as evidently intended. */
  function SendResponseError(reqId: ReqId, reason: Reason): (d: Delivery)
    ensures reason.Nullish? <==> d.Swallowed?
    ensures d.Swallowed? ==> d.cause == NullishReason
    ensures d.Transmitted? ==>
      && d.wrapper.ResponseW?
      && d.wrapper.response == ErrorResponse(reqId, PublicMessage(reason).value)
  {
    match PublicMessage(reason)
    case None => Swallowed(NullishReason)
    case Some(m) => Transmitted(ResponseW(ErrorResponse(reqId, m)))
  }

  /**
    The callbacks attached to a handler's promise (birect-conn.js:44-54),
    with the corrected error path: a fulfilled value is answered as JSON with
    the same id, a failure as an error response.
   */
  function Settle(reqId: ReqId, s: Settlement): (d: Delivery)
    ensures d.Transmitted? ==> d.wrapper.ResponseW? && d.wrapper.response.reqId == reqId
    ensures s == Fulfilled(Undefined) ==> d == Swallowed(UnserialisableResult)
    ensures s.Fulfilled? && s.value.Defined? ==>
      && d.Transmitted?
      && d.wrapper.response.dtype == JSON && !d.wrapper.response.isError
      && DecodePayload(d.wrapper.response.data) == Some(s.value.json)
    ensures s.Failed? ==> d == SendResponseError(reqId, s.reason)
  {
    match s
    case Fulfilled(Undefined) => Swallowed(UnserialisableResult)
    case Fulfilled(Defined(v)) =>
      PayloadRoundTrip(v);
      Transmitted(SendResponse(JSON, reqId, PayloadOf(v)))
    case Failed(reason) => SendResponseError(reqId, reason)
  }

  /** The same callbacks as written: every failure is swallowed. */
  function SettleAsWritten(reqId: ReqId, s: Settlement): (d: Delivery)
    ensures s.Failed? ==> d.Swallowed?
    ensures s.Fulfilled? ==> d == Settle(reqId, s)
  {
    match s
    case Fulfilled(_) => Settle(reqId, s)
    case Failed(reason) => SendResponseErrorAsWritten(reqId, reason)
  }
}
