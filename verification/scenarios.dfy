/**
  Exchanges between two connections: a request sent by one, served by the
  other, and answered back. Frames sent by one side arrive at the other
  as sent (`Wire.Transmit`).
 */
module Scenarios {
  import opened Wrappers
  import opened TextBytes
  import opened JsonCodec
  import opened Wire
  import opened BirectConn
  import opened BirectServer

  /**
    A handler answering with `{Text: req.Text}`. Reading `Text` of `null`
    throws; a request without `Text` is answered with an object whose only
    member is undefined, which stringifies as an empty object.
   */
  function EchoHandler(req: Json): (inv: Invocation)
    ensures req.Null? <==> inv.Threw?
    ensures !req.Null? && Field(req, "Text").Defined? ==>
      inv == Promised(Fulfilled(Defined(Obj([Member("Text", Field(req, "Text").json)]))))
  {
    if req.Null? then Threw
    else
      match Field(req, "Text")
      case Undefined => Promised(Fulfilled(Defined(Obj([]))))
      case Defined(t) => Promised(Fulfilled(Defined(Obj([Member("Text", t)]))))
  }

  /** The serving side starts the handler for a JSON request whose name it knows. */
  lemma ServeStartsHandler(server: Conn, req: Request, params: Json, s: Settlement)
    requires req.dtype == JSON && DecodePayload(req.data) == Some(params)
    requires req.name in server.handlers && server.handlers[req.name](params) == Promised(s)
    ensures OnFrame(server, Transmit(RequestW(req))) == Step(server, [], [Dispatched(req.reqId, s)], None)
  {
  }

  /** The caller receiving the answer to one of its pending requests. */
  lemma AnswerSettlesCaller(c: Conn, id: ReqId, s: Settlement)
    requires id in c.pending && Settle(id, s).Transmitted?
    ensures var back := OnFrame(c, Transmit(Settle(id, s).wrapper));
      && back.fault.None? && back.conn.pending == c.pending - {id}
      && (s.Fulfilled? ==> back.events == [Resolved(id, s.value.json)])
      && (s.Failed? ==> back.events == [Rejected(id, Settle(id, s).wrapper.response.data)])
  {
  }

  /**
    A request whose handler fulfils with `v` comes back to the caller as
    `v`, under the request's own id, and the caller's entry is gone.
   */
  lemma RequestResolvesWithHandlerValue(client: Conn, server: Conn, name: string, params: Json, v: Json)
    requires Inv(client)
    requires name in server.handlers
    requires server.handlers[name](params) == Promised(Fulfilled(Defined(v)))
    ensures var send := SendJSONReq(client, name, Defined(params));
      var id := send.sent[0].request.reqId;
      var serve := OnFrame(server, Transmit(send.sent[0]));
      var reply := Settle(id, Fulfilled(Defined(v)));
      && serve.fault.None? && serve.events == [Dispatched(id, Fulfilled(Defined(v)))]
      && reply.Transmitted?
      && var back := OnFrame(send.conn, Transmit(reply.wrapper));
      && back.fault.None? && back.events == [Resolved(id, v)]
      && back.conn.pending == client.pending
  {
    var send := SendJSONReq(client, name, Defined(params));
    var req := send.sent[0].request;
    ServeStartsHandler(server, req, params, Fulfilled(Defined(v)));
    AnswerSettlesCaller(send.conn, req.reqId, Fulfilled(Defined(v)));
  }

  /**
    A request whose handler fails with a user-safe message is rejected at
    the caller with that message's bytes, never the failure's detail, once
    the error response is actually sent.
   */
  lemma RequestRejectsWithPublicMessage(client: Conn, server: Conn, name: string, params: Json,
                                        pm: Option<string>, detail: string)
    requires Inv(client)
    requires name in server.handlers
    requires server.handlers[name](params) == Promised(Failed(ErrorValue(pm, detail)))
    ensures var send := SendJSONReq(client, name, Defined(params));
      var id := send.sent[0].request.reqId;
      var reply := Settle(id, Failed(ErrorValue(pm, detail)));
      && OnFrame(server, Transmit(send.sent[0])).events == [Dispatched(id, Failed(ErrorValue(pm, detail)))]
      && reply.Transmitted?
      && var back := OnFrame(send.conn, Transmit(reply.wrapper));
      && back.fault.None? && |back.events| == 1 && back.events[0].Rejected? && back.events[0].reqId == id
      && TextBytes.Decode(back.events[0].data) == PublicMessage(ErrorValue(pm, detail)).value
      && back.conn.pending == client.pending
  {
    var send := SendJSONReq(client, name, Defined(params));
    var req := send.sent[0].request;
    var id := req.reqId;
    ServeStartsHandler(server, req, params, Failed(ErrorValue(pm, detail)));
    var m := PublicMessage(ErrorValue(pm, detail)).value;
    assert Settle(id, Failed(ErrorValue(pm, detail))) == Transmitted(ResponseW(ErrorResponse(id, m)));
    AnswerSettlesCaller(send.conn, id, Failed(ErrorValue(pm, detail)));
  }

  /** The error response does not depend on the failure's internal detail. */
  lemma ErrorDetailNeverSent(reqId: ReqId, pm: Option<string>, detail1: string, detail2: string)
    ensures Settle(reqId, Failed(ErrorValue(pm, detail1))) == Settle(reqId, Failed(ErrorValue(pm, detail2)))
    ensures SettleAsWritten(reqId, Failed(ErrorValue(pm, detail1))) == SettleAsWritten(reqId, Failed(ErrorValue(pm, detail2)))
  {
  }

  /**
    As written, a handler failure is never answered: the error response is
    built but sending it throws, so the caller's entry stays pending.
   */
  lemma HandlerFailureLeavesCallerPendingAsWritten(client: Conn, name: string, params: Json, reason: Reason)
    requires Inv(client)
    ensures var send := SendJSONReq(client, name, Defined(params));
      var id := send.sent[0].request.reqId;
      && SettleAsWritten(id, Failed(reason)).Swallowed?
      && id in send.conn.pending
  {
  }

  /**
    The discrepancy for a handler failing with a user-safe message such as
    "bad input": as written nothing is sent, corrected the error response
    carrying that message is.
   */
  lemma FailureAnsweredOnlyWhenCorrected(reqId: ReqId, message: string, detail: string)
    requires message != ""
    ensures SettleAsWritten(reqId, Failed(ErrorValue(Some(message), detail))) ==
      Swallowed(SendWrapperUndefined(ErrorResponse(reqId, message)))
    ensures Settle(reqId, Failed(ErrorValue(Some(message), detail))) ==
      Transmitted(ResponseW(ErrorResponse(reqId, message)))
  {
  }

  /**
    A request for a method nobody registered makes the serving side throw
    and is never answered: the caller's entry stays pending.
   */
  lemma UnknownMethodIsNotAnswered(client: Conn, server: Conn, name: string, params: Json)
    requires Inv(client)
    requires name !in server.handlers
    ensures var send := SendJSONReq(client, name, Defined(params));
      var serve := OnFrame(server, Transmit(send.sent[0]));
      && serve == Throw(server, HandlerMissing(name))
      && send.sent[0].request.reqId in send.conn.pending
  {
    var send := SendJSONReq(client, name, Defined(params));
    PayloadRoundTrip(params);
    assert DecodePayload(send.sent[0].request.data) == Some(params);
  }

  /**
    The echo test: a server upgrading requests on "/birect/upgrade" with an
    "Echo" handler, a client connected to it, and `sendJSONReq("Echo",
    {Text: "Foo"})` resolving to a value whose `Text` is "Foo".
   */
  lemma EchoScenario(origin: string)
    ensures var registered := BirectServer.HandleJSONReq(NewServer(), "Echo", EchoHandler);
      && registered.Ok?
      && var opts := UpgradeRequestsOptions(Some("/birect/upgrade"), None);
      && var (s, decision) := OnUpgradeRequest(registered.value, opts, UpgradeRequest("/birect/upgrade", origin));
      && decision == Accept(Protocol, origin) && |s.sessions| == 1
      && var client := NewConn(None);
      && var params := Obj([Member("Text", Str("Foo"))]);
      && var send := SendJSONReq(client, "Echo", Defined(params));
      && send.sent[0].request.reqId == 1
      && var serve := OnFrame(ConnAt(s, 0), Transmit(send.sent[0]));
      && serve.events == [Dispatched(1, Fulfilled(Defined(params)))]
      && var reply := Settle(1, Fulfilled(Defined(params)));
      && reply.Transmitted?
      && var back := OnFrame(send.conn, Transmit(reply.wrapper));
      && |back.events| == 1 && back.events[0].Resolved?
      && Field(back.events[0].value, "Text") == Defined(Str("Foo"))
      && back.conn.pending == {}
  {
    var registered := BirectServer.HandleJSONReq(NewServer(), "Echo", EchoHandler);
    var opts := UpgradeRequestsOptions(Some("/birect/upgrade"), None);
    var (s, decision) := OnUpgradeRequest(registered.value, opts, UpgradeRequest("/birect/upgrade", origin));
    var params := Obj([Member("Text", Str("Foo"))]);
    assert Field(params, "Text") == Defined(Str("Foo"));
    assert EchoHandler(params) == Promised(Fulfilled(Defined(params)));
    RequestResolvesWithHandlerValue(NewConn(None), ConnAt(s, 0), "Echo", params, params);
  }
}
