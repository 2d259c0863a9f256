/**
  Properties of whole runs of one connection: the request ids it issues,
  the invariant on its pending table, and how responses are correlated.
 */
module ConnTrace {
  import opened Wrappers
  import opened JsonCodec
  import opened Wire
  import opened BirectConn

  /** What can happen to a connection from outside: a caller's request, a registration, a frame. */
  datatype Input =
    | Call(name: string, params: JsValue)
    | Register(name: string, handler: Handler)
    | Receive(frame: Frame)

  function Apply(c: Conn, i: Input): Step {
    match i
    case Call(name, params) => SendJSONReq(c, name, params)
    case Register(name, h) => HandleJSONReq(c, name, h)
    case Receive(f) => OnFrame(c, f)
  }

  /** The accumulated effect of a run; a step that throws leaves its partial state in place. */
  datatype Trace = Trace(conn: Conn, sent: seq<Wrapper>, events: seq<Event>, faults: seq<Fault>)

  function FaultsOf(s: Step): seq<Fault> {
    if s.fault.Some? then [s.fault.value] else []
  }

  /**
    Feeds the inputs to the connection in order. Answers to dispatched
    handlers are not inputs: they are sent by the separate `Settle` step, so
    everything `Run` sends is a request.
   */
  function Run(c: Conn, ins: seq<Input>): Trace
    decreases |ins|
  {
    if |ins| == 0 then Trace(c, [], [], [])
    else
      var s := Apply(c, ins[0]);
      var t := Run(s.conn, ins[1..]);
      Trace(t.conn, s.sent + t.sent, s.events + t.events, FaultsOf(s) + t.faults)
  }

  /**
    One input sends at most one wrapper: a request carrying the next id.
    Handler answers are left to `Settle`, which is not an input.
   */
  lemma ApplyIssuesNextId(c: Conn, i: Input)
    requires Inv(c)
    ensures Inv(Apply(c, i).conn)
    ensures Apply(c, i).conn.lastReqId == c.lastReqId + |Apply(c, i).sent|
    ensures |Apply(c, i).sent| <= 1
    ensures |Apply(c, i).sent| == 1 ==>
      Apply(c, i).sent[0].RequestW? && Apply(c, i).sent[0].request.reqId == c.lastReqId + 1
  {
  }

  /**
    The requests a run sends carry the ids following the counter, one
    apart and in order, and the counter ends at the last of them.
   */
  lemma {:induction false} RunIssuesConsecutiveIds(c: Conn, ins: seq<Input>)
    requires Inv(c)
    ensures Inv(Run(c, ins).conn)
    ensures Run(c, ins).conn.lastReqId == c.lastReqId + |Run(c, ins).sent|
    ensures forall k :: 0 <= k < |Run(c, ins).sent| ==>
      Run(c, ins).sent[k].RequestW? && Run(c, ins).sent[k].request.reqId == c.lastReqId + 1 + k
    decreases |ins|
  {
    if |ins| > 0 {
      var s := Apply(c, ins[0]);
      var t := Run(s.conn, ins[1..]);
      assert Run(c, ins).conn == t.conn && Run(c, ins).sent == s.sent + t.sent;
      ApplyIssuesNextId(c, ins[0]);
      RunIssuesConsecutiveIds(s.conn, ins[1..]);
      ConsecutiveAppend(c.lastReqId, s.sent, t.sent);
    }
  }

  /** Requests numbered on from `base`. */
  ghost predicate NumberedFrom(base: nat, ws: seq<Wrapper>) {
    forall k :: 0 <= k < |ws| ==> ws[k].RequestW? && ws[k].request.reqId == base + 1 + k
  }

  lemma ConsecutiveAppend(base: nat, a: seq<Wrapper>, b: seq<Wrapper>)
    requires NumberedFrom(base, a) && NumberedFrom(base + |a|, b)
    ensures NumberedFrom(base, a + b)
  {
    forall k | 0 <= k < |a + b|
      ensures (a + b)[k].RequestW? && (a + b)[k].request.reqId == base + 1 + k
    {
      if k >= |a| {
        assert (a + b)[k] == b[k - |a|];
      }
    }
  }

  /**
    On a new connection the first request gets id 1 and no id is ever
    issued twice: later requests carry strictly larger ids.
   */
  lemma NewConnIdsIncrease(handlers: Option<map<string, Handler>>, ins: seq<Input>)
    ensures var sent := Run(NewConn(handlers), ins).sent;
      && (forall k :: 0 <= k < |sent| ==> sent[k].RequestW? && sent[k].request.reqId == k + 1)
      && (forall j, k :: 0 <= j < k < |sent| ==> sent[j].request.reqId < sent[k].request.reqId)
  {
    RunIssuesConsecutiveIds(NewConn(handlers), ins);
  }

  /** The entry for a sent request is in place before its reply is handled, so the reply is never an orphan. */
  lemma ReplyFindsPendingEntry(c: Conn, name: string, params: JsValue, res: Response)
    requires params.Defined?
    requires res.reqId == SendJSONReq(c, name, params).sent[0].request.reqId
    ensures OnFrame(SendJSONReq(c, name, params).conn, Transmit(ResponseW(res))).fault != Some(OrphanResponse(res.reqId))
  {
  }

  // ---------------------------------------------------------------------
  // Correlation

  /** A response that settles its entry without throwing when the entry exists. */
  predicate Settles(res: Response) {
    res.isError || (res.dtype == JSON && DecodePayload(res.data).Some?)
  }

  /** The event a settling response produces for its caller. */
  function SettlementOf(res: Response): (e: Event)
    requires Settles(res)
    ensures e.Resolved? || e.Rejected?
  {
    if res.isError then Rejected(res.reqId, res.data)
    else Resolved(res.reqId, DecodePayload(res.data).value)
  }

  function ReceiveAll(rs: seq<Response>): (ins: seq<Input>)
    ensures |ins| == |rs|
    ensures forall i :: 0 <= i < |rs| ==> ins[i] == Receive(Transmit(ResponseW(rs[i])))
  {
    if |rs| == 0 then [] else [Receive(Transmit(ResponseW(rs[0])))] + ReceiveAll(rs[1..])
  }

  function IdsOf(rs: seq<Response>): set<ReqId> {
    set i | 0 <= i < |rs| :: rs[i].reqId
  }

  /**
    Responses to distinct outstanding requests, arriving in any order, each
    settle exactly their own caller, in arrival order, and remove exactly
    their own entries.
   */
  lemma {:induction false} ResponsesInAnyOrder(c: Conn, rs: seq<Response>)
    requires forall i :: 0 <= i < |rs| ==> rs[i].reqId in c.pending && Settles(rs[i])
    requires forall i, j :: 0 <= i < j < |rs| ==> rs[i].reqId != rs[j].reqId
    ensures Run(c, ReceiveAll(rs)).faults == []
    ensures |Run(c, ReceiveAll(rs)).events| == |rs|
    ensures forall i :: 0 <= i < |rs| ==> Run(c, ReceiveAll(rs)).events[i] == SettlementOf(rs[i])
    ensures Run(c, ReceiveAll(rs)).conn.pending == c.pending - IdsOf(rs)
    decreases |rs|
  {
    if |rs| > 0 {
      var ins := ReceiveAll(rs);
      var s := HandleResponse(c, rs[0]);
      assert Apply(c, ins[0]) == s;
      assert ins[1..] == ReceiveAll(rs[1..]);
      var t := Run(s.conn, ins[1..]);
      assert Run(c, ins) == Trace(t.conn, s.sent + t.sent, s.events + t.events, FaultsOf(s) + t.faults);
      ResponsesInAnyOrder(s.conn, rs[1..]);
      IdsOfCons(rs);
      EventsCons(rs, s.events, t.events);
    }
  }

  lemma IdsOfCons(rs: seq<Response>)
    requires |rs| > 0
    ensures IdsOf(rs) == {rs[0].reqId} + IdsOf(rs[1..])
  {
    forall id | id in IdsOf(rs) ensures id in {rs[0].reqId} + IdsOf(rs[1..]) {
      var i :| 0 <= i < |rs| && rs[i].reqId == id;
      if i > 0 { assert rs[1..][i - 1] == rs[i]; }
    }
    forall id | id in IdsOf(rs[1..]) ensures id in IdsOf(rs) {
      var i :| 0 <= i < |rs[1..]| && rs[1..][i].reqId == id;
      assert rs[i + 1].reqId == id;
    }
  }

  lemma EventsCons(rs: seq<Response>, head: seq<Event>, tail: seq<Event>)
    requires |rs| > 0 && Settles(rs[0]) && head == [SettlementOf(rs[0])]
    requires |tail| == |rs| - 1
    requires forall i :: 0 <= i < |rs| - 1 ==> Settles(rs[i + 1]) && tail[i] == SettlementOf(rs[1..][i])
    ensures forall i :: 0 <= i < |rs| ==> Settles(rs[i]) && (head + tail)[i] == SettlementOf(rs[i])
  {
    forall i | 0 <= i < |rs| ensures Settles(rs[i]) && (head + tail)[i] == SettlementOf(rs[i]) {
      if i > 0 {
        assert (head + tail)[i] == tail[i - 1];
        assert rs[1..][i - 1] == rs[i];
      }
    }
  }

  /** A second response for the same id settles nothing: no caller is resolved twice. */
  lemma NoDoubleSettlement(c: Conn, first: Response, second: Response)
    requires first.reqId == second.reqId
    ensures HandleResponse(HandleResponse(c, first).conn, second).events == []
  {
  }
}
