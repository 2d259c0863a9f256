/**
  Append-only handler registries keyed by method name, shared by the
  connection (`handleJSONReq`) and the acceptor (`handleJSONReq`,
  `handleProtoReq`).
 */
module Registry {
  import opened Wrappers

  /**
    The error thrown on a second registration: its message is `<kind> request
    handler already exists for <name>`, where `kind` is "JSON" or "Proto".
   */
  datatype Duplicate = Duplicate(kind: string, name: string)

  /** Adds `h` under `name`, or fails when a handler is already registered under that name. */
  function Register<H>(kind: string, m: map<string, H>, name: string, h: H): (r: Result<map<string, H>, Duplicate>)
    ensures r.Ok? <==> name !in m
    ensures r.Ok? ==> r.value.Keys == m.Keys + {name} && r.value[name] == h
    ensures r.Ok? ==> forall k :: k in m ==> r.value[k] == m[k]
    ensures r.Err? ==> r.error == Duplicate(kind, name)
  {
    if name in m then Err(Duplicate(kind, name))
    else Ok(m[name := h])
  }

  /** A second registration under a name fails, and the first handler stays. */
  lemma FirstHandlerStays<H>(kind: string, m: map<string, H>, name: string, h1: H, h2: H)
    requires Register(kind, m, name, h1).Ok?
    ensures Register(kind, Register(kind, m, name, h1).value, name, h2).Err?
    ensures Register(kind, m, name, h1).value[name] == h1
  {
  }
}
