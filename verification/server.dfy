/**
  The acceptor side: the server's two handler registries, the decision on
  an HTTP upgrade request, and the connections it accepts, all of which are
  built over the server's one JSON handler map.

  A connection object in the source holds a reference to the server's map,
  so a registration made through any of them is seen by all. The model
  keeps the map once, in the server, and keeps each accepted connection's
  own counter and pending table as a `Session`; `ConnAt` puts the two
  together into the connection the engine steps on.
 */
module BirectServer {
  import opened Wrappers
  import opened TextBytes
  import opened Wire
  import opened BirectConn
  import ConnTrace
  import Registry

  /** A handler for binary-schema requests; the connection never calls one. */
  type ProtoHandler = Bytes -> Invocation

  /** The connection-owned part of an accepted connection. */
  datatype Session = Session(lastReqId: nat, pending: set<ReqId>)

  datatype Server = Server(
    json: map<string, Handler>,
    proto: map<string, ProtoHandler>,
    sessions: seq<Session>)

  /** The subprotocol an accepted upgrade answers with. */
  const Protocol: string := "birect"

  /** `_newServer`: empty registries, no connections. */
  function NewServer(): (s: Server)
    ensures s.json == map[] && s.proto == map[] && s.sessions == []
  {
    Server(map[], map[], [])
  }

  /** `handleJSONReq` on the server: the JSON registry gains `name`, or throws on a duplicate. */
  function HandleJSONReq(s: Server, name: string, h: Handler): (r: Result<Server, Registry.Duplicate>)
    ensures r.Ok? <==> name !in s.json
    ensures r.Ok? ==>
      && r.value.json.Keys == s.json.Keys + {name} && r.value.json[name] == h
      && (forall k :: k in s.json ==> r.value.json[k] == s.json[k])
      && r.value.proto == s.proto && r.value.sessions == s.sessions
    ensures r.Err? ==> r.error == Registry.Duplicate("JSON", name)
  {
    match Registry.Register("JSON", s.json, name, h)
    case Ok(m) => Ok(s.(json := m))
    case Err(e) => Err(e)
  }

  /** `handleProtoReq`: the same rule on the separate proto registry. */
  function HandleProtoReq(s: Server, name: string, h: ProtoHandler): (r: Result<Server, Registry.Duplicate>)
    ensures r.Ok? <==> name !in s.proto
    ensures r.Ok? ==>
      && r.value.proto.Keys == s.proto.Keys + {name} && r.value.proto[name] == h
      && (forall k :: k in s.proto ==> r.value.proto[k] == s.proto[k])
      && r.value.json == s.json && r.value.sessions == s.sessions
    ensures r.Err? ==> r.error == Registry.Duplicate("Proto", name)
  {
    match Registry.Register("Proto", s.proto, name, h)
    case Ok(m) => Ok(s.(proto := m))
    case Err(e) => Err(e)
  }

  /** A second registration of one name in one registry fails and keeps the first handler. */
  lemma DuplicateJSONRejected(s: Server, name: string, h1: Handler, h2: Handler)
    requires name !in s.json
    ensures HandleJSONReq(s, name, h1).Ok?
    ensures var s1 := HandleJSONReq(s, name, h1).value;
      HandleJSONReq(s1, name, h2).Err? && s1.json[name] == h1
  {
  }

  /** The JSON and proto registries are separate: one name may be registered in both. */
  lemma RegistriesIndependent(name: string, h: Handler, p: ProtoHandler)
    ensures HandleJSONReq(NewServer(), name, h).Ok?
    ensures HandleProtoReq(HandleJSONReq(NewServer(), name, h).value, name, p).Ok?
  {
  }

  // ---------------------------------------------------------------------
  // Accepted connections

  /** The connection accepted `i`-th, over the server's JSON handler map. */
  function ConnAt(s: Server, i: nat): (c: Conn)
    requires i < |s.sessions|
    ensures c.handlers == s.json
    ensures c.lastReqId == s.sessions[i].lastReqId && c.pending == s.sessions[i].pending
  {
    Conn(s.sessions[i].lastReqId, s.sessions[i].pending, s.json)
  }

  /** `_onWSConnection`: a new connection built with `newConn` over the server's JSON map. */
  function OnWSConnection(s: Server): (r: Server)
    ensures |r.sessions| == |s.sessions| + 1
    ensures ConnAt(r, |s.sessions|) == NewConn(Some(s.json))
    ensures forall i :: 0 <= i < |s.sessions| ==> ConnAt(r, i) == ConnAt(s, i)
    ensures r.json == s.json && r.proto == s.proto
  {
    s.(sessions := s.sessions + [Session(0, {})])
  }

  /**
    Writes back the state a step left connection `i` in. Its counter and
    table are its own; its handler map is the shared one.
   */
  function Commit(s: Server, i: nat, c: Conn): (r: Server)
    requires i < |s.sessions|
    ensures |r.sessions| == |s.sessions|
    ensures ConnAt(r, i) == c
    ensures forall j :: 0 <= j < |s.sessions| && j != i ==>
      ConnAt(r, j) == ConnAt(s, j).(handlers := c.handlers)
  {
    Server(c.handlers, s.proto, s.sessions[i := Session(c.lastReqId, c.pending)])
  }

  /** An input to the `i`-th accepted connection. */
  function ServerStep(s: Server, i: nat, input: ConnTrace.Input): (r: (Server, Step))
    requires i < |s.sessions|
    ensures |r.0.sessions| == |s.sessions|
    ensures r.1 == ConnTrace.Apply(ConnAt(s, i), input) && ConnAt(r.0, i) == r.1.conn
  {
    var st := ConnTrace.Apply(ConnAt(s, i), input);
    (Commit(s, i, st.conn), st)
  }

  /** Every connection accepted by one server reads the same handler map. */
  lemma ConnectionsShareRegistry(s: Server, i: nat, j: nat)
    requires i < |s.sessions| && j < |s.sessions|
    ensures ConnAt(s, i).handlers == ConnAt(s, j).handlers == s.json
  {
  }

  /** A handler registered on the server after connections were accepted is seen by all of them. */
  lemma ServerRegistrationReachesAll(s: Server, name: string, h: Handler)
    requires name !in s.json
    ensures HandleJSONReq(s, name, h).Ok?
    ensures var r := HandleJSONReq(s, name, h).value;
      forall i :: 0 <= i < |s.sessions| ==>
        && ConnAt(r, i).handlers == ConnAt(s, i).handlers[name := h]
        && ConnAt(r, i).lastReqId == ConnAt(s, i).lastReqId
        && ConnAt(r, i).pending == ConnAt(s, i).pending
  {
    var r := HandleJSONReq(s, name, h).value;
    assert r.json == s.json[name := h];
  }

  /**
    A handler registered through one accepted connection lands in the shared
    map: every other connection serves it, and registering the name again
    through any connection throws.
   */
  lemma ConnRegistrationReachesAll(s: Server, i: nat, j: nat, name: string, h: Handler, h2: Handler)
    requires i < |s.sessions| && j < |s.sessions|
    requires name !in s.json
    ensures var (r, st) := ServerStep(s, i, ConnTrace.Register(name, h));
      && st.fault.None?
      && name in ConnAt(r, j).handlers && ConnAt(r, j).handlers[name] == h
      && BirectConn.HandleJSONReq(ConnAt(r, j), name, h2).fault.Some?
  {
    var (r, st) := ServerStep(s, i, ConnTrace.Register(name, h));
    if j != i {
      assert ConnAt(r, j).handlers == st.conn.handlers;
    }
  }

  // ---------------------------------------------------------------------
  // Upgrade decision

  datatype UpgradeRequest = UpgradeRequest(resource: string, origin: string)

  /** The options `_setup` was given; an absent `path` or `allowConnection` is `None`. */
  datatype Options = Options(path: Option<string>, allowConnection: Option<UpgradeRequest -> bool>)

  datatype Decision = Reject(status: int, reason: string) | Accept(protocol: string, origin: string)

  /** `_upgradeRequests`: serve upgrades on a given path of an existing HTTP server. */
  function UpgradeRequestsOptions(path: Option<string>, allow: Option<UpgradeRequest -> bool>): (o: Options)
    ensures o.path == path && o.allowConnection == allow
  {
    Options(path, allow)
  }

  /** `_listenAndServe`: no path is configured. */
  function ListenAndServeOptions(allow: Option<UpgradeRequest -> bool>): (o: Options)
    ensures o.path.None? && o.allowConnection == allow
  {
    Options(None, allow)
  }

  /** The request is refused by `allowConnection`. */
  predicate Disallowed(opts: Options, req: UpgradeRequest) {
    opts.allowConnection.Some? && !opts.allowConnection.value(req)
  }

  /** A path is configured (a non-empty string, JavaScript-truthy) and the resource differs. */
  predicate WrongPath(opts: Options, req: UpgradeRequest) {
    opts.path.Some? && opts.path.value != "" && req.resource != opts.path.value
  }

  /** `_checkUpgradeRequest`: 400 when disallowed, else 404 on a wrong path, else accept. */
  function CheckUpgradeRequest(opts: Options, req: UpgradeRequest): (d: Decision)
    ensures d == Reject(400, "Bad request") <==> Disallowed(opts, req)
    ensures d == Reject(404, "Not found") <==> !Disallowed(opts, req) && WrongPath(opts, req)
    ensures d.Accept? <==> !Disallowed(opts, req) && !WrongPath(opts, req)
    ensures d.Accept? ==> d.protocol == Protocol && d.origin == req.origin
  {
    if Disallowed(opts, req) then Reject(400, "Bad request")
    else if WrongPath(opts, req) then Reject(404, "Not found")
    else Accept(Protocol, req.origin)
  }

  /** A failing `allowConnection` wins even when the path is wrong too. */
  lemma DisallowWinsOverPath(opts: Options, req: UpgradeRequest)
    requires Disallowed(opts, req) && WrongPath(opts, req)
    ensures CheckUpgradeRequest(opts, req) == Reject(400, "Bad request")
  {
  }

  /** With no path configured and no objection from `allowConnection`, every resource is accepted. */
  lemma ListenAndServeAcceptsAnyResource(allow: Option<UpgradeRequest -> bool>, req: UpgradeRequest)
    requires allow.None? || allow.value(req)
    ensures CheckUpgradeRequest(ListenAndServeOptions(allow), req) == Accept(Protocol, req.origin)
  {
  }

  /**
    An upgrade request end to end: the decision, and when it accepts, the
    transport's `connect` event adding a connection over the shared map.
   */
  function OnUpgradeRequest(s: Server, opts: Options, req: UpgradeRequest): (r: (Server, Decision))
    ensures r.1 == CheckUpgradeRequest(opts, req)
    ensures r.1.Reject? ==> r.0 == s
    ensures r.1.Accept? ==>
      && |r.0.sessions| == |s.sessions| + 1
      && ConnAt(r.0, |s.sessions|) == NewConn(Some(s.json))
      && forall i :: 0 <= i < |s.sessions| ==> ConnAt(r.0, i) == ConnAt(s, i)
  {
    var d := CheckUpgradeRequest(opts, req);
    if d.Accept? then (OnWSConnection(s), d) else (s, d)
  }
}
