/**
  JSON payload values and a codec standing in for `JSON.stringify` and
  `JSON.parse`.

  Values are the JSON data model with integer numbers; object members keep
  their insertion order. The text form is a prefix-tagged format with
  self-delimiting lengths, not JSON syntax: the engine relies only on
  parsing the stringified text returning the value, which `ParseStringify`
  proves.
 */
module JsonCodec {
  import opened Wrappers

  datatype Json =
    | Null
    | Bool(b: bool)
    | Num(n: int)
    | Str(s: string)
    | Arr(items: seq<Json>)
    | Obj(members: seq<Member>)

  datatype Member = Member(key: string, value: Json)

  /** A JavaScript value as far as the engine can see it: `undefined` or JSON data. */
  datatype JsValue = Undefined | Defined(json: Json)

  /** Property access `v.key`: the first member named `key`, or `undefined`. */
  function Field(v: Json, key: string): (r: JsValue)
    ensures r.Defined? ==> v.Obj? && exists i :: 0 <= i < |v.members| && v.members[i] == Member(key, r.json)
  {
    if v.Obj? then FindMember(v.members, key) else Undefined
  }

  function FindMember(ms: seq<Member>, key: string): (r: JsValue)
    ensures r.Defined? ==> exists i :: 0 <= i < |ms| && ms[i] == Member(key, r.json)
    ensures r.Undefined? ==> forall i :: 0 <= i < |ms| ==> ms[i].key != key
  {
    if |ms| == 0 then Undefined
    else if ms[0].key == key then Defined(ms[0].value)
    else
      var r := FindMember(ms[1..], key);
      assert r.Defined? ==> ms[1..][0] in ms[1..];
      r
  }

  // ---------------------------------------------------------------------
  // Self-delimiting naturals: little-endian chunks of 14 bits, each chunk
  // but the last flagged by adding 0x4000. Every such character lies below
  // the surrogate range.

  const Chunk: nat := 0x4000

  function NatChars(n: nat): (s: string)
    ensures |s| >= 1
    decreases n
  {
    if n < Chunk then [n as char]
    else [(n % Chunk + Chunk) as char] + NatChars(n / Chunk)
  }

  function ReadNat(s: string): (r: Option<(nat, string)>)
    ensures r.Some? ==> |r.value.1| < |s|
  {
    if |s| == 0 then None
    else
      var c := s[0] as int;
      if c < Chunk then Some((c, s[1..]))
      else if c < 2 * Chunk then
        match ReadNat(s[1..])
        case None => None
        case Some((m, rest)) => Some((c - Chunk + Chunk * m, rest))
      else None
  }

  lemma {:induction false} ReadNatChars(n: nat, rest: string)
    ensures ReadNat(NatChars(n) + rest) == Some((n, rest))
    decreases n
  {
    var s := NatChars(n) + rest;
    if n < Chunk {
      assert s[0] as int == n && s[1..] == rest;
    } else {
      assert s[0] as int == n % Chunk + Chunk;
      assert s[1..] == NatChars(n / Chunk) + rest;
      ReadNatChars(n / Chunk, rest);
    }
  }

  // ---------------------------------------------------------------------
  // Stringify

  function Stringify(v: Json): string
    decreases v, 1
  {
    match v
    case Null => "n"
    case Bool(b) => if b then "t" else "f"
    case Num(n) => if n >= 0 then "+" + NatChars(n) else "-" + NatChars(-n)
    case Str(s) => "s" + NatChars(|s|) + s
    case Arr(items) => "a" + NatChars(|items|) + StringifyItems(items)
    case Obj(ms) => "o" + NatChars(|ms|) + StringifyMembers(ms)
  }

  function StringifyItems(items: seq<Json>): string
    decreases items, 0
  {
    if |items| == 0 then "" else Stringify(items[0]) + StringifyItems(items[1..])
  }

  function StringifyMembers(ms: seq<Member>): string
    decreases ms, 0
  {
    if |ms| == 0 then ""
    else "k" + NatChars(|ms[0].key|) + ms[0].key + Stringify(ms[0].value) + StringifyMembers(ms[1..])
  }

  /** `JSON.stringify`: `undefined` has no text. */
  function StringifyValue(v: JsValue): Option<string> {
    match v
    case Undefined => None
    case Defined(j) => Some(Stringify(j))
  }

  // ---------------------------------------------------------------------
  // Parse

  /** Reads a length-prefixed string. */
  function ReadStr(s: string): (r: Option<(string, string)>)
    ensures r.Some? ==> |r.value.1| < |s|
  {
    match ReadNat(s)
    case None => None
    case Some((k, rest)) => if k <= |rest| then Some((rest[..k], rest[k..])) else None
  }

  /** Reads one value from the front of `s`, returning it and what follows. */
  function Parse(s: string): (r: Option<(Json, string)>)
    ensures r.Some? ==> |r.value.1| < |s|
    decreases |s|, 0
  {
    if |s| == 0 then None
    else
      match s[0]
      case 'n' => Some((Null, s[1..]))
      case 't' => Some((Bool(true), s[1..]))
      case 'f' => Some((Bool(false), s[1..]))
      case '+' => ParseNumBody(true, s[1..])
      case '-' => ParseNumBody(false, s[1..])
      case 's' => ParseStrBody(s[1..])
      case 'a' => ParseArrBody(s[1..])
      case 'o' => ParseObjBody(s[1..])
      case _ => None
  }

  function ParseNumBody(nonNegative: bool, s: string): (r: Option<(Json, string)>)
    ensures r.Some? ==> |r.value.1| < |s|
  {
    match ReadNat(s)
    case None => None
    case Some((n, rest)) => Some((Num(if nonNegative then n else 0 - n), rest))
  }

  function ParseStrBody(s: string): (r: Option<(Json, string)>)
    ensures r.Some? ==> |r.value.1| < |s|
  {
    match ReadStr(s)
    case None => None
    case Some((str, rest)) => Some((Str(str), rest))
  }

  function ParseArrBody(s: string): (r: Option<(Json, string)>)
    ensures r.Some? ==> |r.value.1| < |s|
    decreases |s|, 2
  {
    match ReadNat(s)
    case None => None
    case Some((k, rest)) =>
      match ParseItems(k, rest)
      case None => None
      case Some((items, rest')) => Some((Arr(items), rest'))
  }

  function ParseObjBody(s: string): (r: Option<(Json, string)>)
    ensures r.Some? ==> |r.value.1| < |s|
    decreases |s|, 2
  {
    match ReadNat(s)
    case None => None
    case Some((k, rest)) =>
      match ParseMembers(k, rest)
      case None => None
      case Some((ms, rest')) => Some((Obj(ms), rest'))
  }

  function ParseItems(k: nat, s: string): (r: Option<(seq<Json>, string)>)
    ensures r.Some? ==> |r.value.1| <= |s| && |r.value.0| == k
    decreases |s|, 1, k
  {
    if k == 0 then Some(([], s))
    else
      match Parse(s)
      case None => None
      case Some((v, rest)) =>
        match ParseItems(k - 1, rest)
        case None => None
        case Some((vs, rest')) => Some(([v] + vs, rest'))
  }

  function ParseMembers(k: nat, s: string): (r: Option<(seq<Member>, string)>)
    ensures r.Some? ==> |r.value.1| <= |s| && |r.value.0| == k
    decreases |s|, 1, k
  {
    if k == 0 then Some(([], s))
    else if |s| == 0 || s[0] != 'k' then None
    else
      match ReadStr(s[1..])
      case None => None
      case Some((key, rest)) =>
        match Parse(rest)
        case None => None
        case Some((v, rest')) =>
          match ParseMembers(k - 1, rest')
          case None => None
          case Some((ms, rest'')) => Some(([Member(key, v)] + ms, rest''))
  }

  /** `JSON.parse` of a whole text: one value and nothing after it, or a syntax error. */
  function ParseText(s: string): (r: Option<Json>)
    ensures r.Some? ==> Parse(s) == Some((r.value, ""))
  {
    match Parse(s)
    case Some((v, rest)) => if rest == "" then Some(v) else None
    case None => None
  }

  // ---------------------------------------------------------------------
  // Round trip

  lemma ReadStrChars(str: string, rest: string)
    ensures ReadStr(NatChars(|str|) + str + rest) == Some((str, rest))
  {
    var body := str + rest;
    var s := NatChars(|str|) + str + rest;
    assert ReadNat(s) == Some((|str|, body)) by {
      assert s == NatChars(|str|) + body;
      ReadNatChars(|str|, body);
    }
    assert body[..|str|] == str && body[|str|..] == rest;
  }

  /** Parsing the text of a value, whatever follows it, reads back exactly that value. */
  lemma {:induction false} ParseStringify(v: Json, rest: string)
    ensures Parse(Stringify(v) + rest) == Some((v, rest))
    decreases v, 1
  {
    match v
    case Null => ParseScalar(v, rest);
    case Bool(_) => ParseScalar(v, rest);
    case Num(_) => ParseNum(v, rest);
    case Str(_) => ParseStr(v, rest);
    case Arr(items) =>
      ParseItemsStringify(items, rest);
      ParseArr(items, rest);
    case Obj(ms) =>
      ParseMembersStringify(ms, rest);
      ParseObj(ms, rest);
  }

  lemma ParseScalar(v: Json, rest: string)
    requires v.Null? || v.Bool?
    ensures Parse(Stringify(v) + rest) == Some((v, rest))
  {
    var s := Stringify(v) + rest;
    assert s[1..] == rest;
  }

  lemma ParseNum(v: Json, rest: string)
    requires v.Num?
    ensures Parse(Stringify(v) + rest) == Some((v, rest))
  {
    var s := Stringify(v) + rest;
    var m: nat := if v.n >= 0 then v.n else -v.n;
    assert s[0] == (if v.n >= 0 then '+' else '-');
    assert s[1..] == NatChars(m) + rest;
    ReadNatChars(m, rest);
  }

  lemma ParseStr(v: Json, rest: string)
    requires v.Str?
    ensures Parse(Stringify(v) + rest) == Some((v, rest))
  {
    var s := Stringify(v) + rest;
    assert s[0] == 's';
    assert s[1..] == NatChars(|v.s|) + v.s + rest;
    ReadStrChars(v.s, rest);
  }

  lemma ParseArr(items: seq<Json>, rest: string)
    requires ParseItems(|items|, StringifyItems(items) + rest) == Some((items, rest))
    ensures Parse(Stringify(Arr(items)) + rest) == Some((Arr(items), rest))
  {
    var body := StringifyItems(items) + rest;
    var t := NatChars(|items|) + body;
    ReadNatChars(|items|, body);
    assert ReadNat(t) == Some((|items|, body));
    assert ParseArrBody(t) == Some((Arr(items), rest));
    assert Stringify(Arr(items)) + rest == ['a'] + t by {
      Assoc3("a", NatChars(|items|), StringifyItems(items), rest);
    }
    ParseTagged('a', t);
  }

  lemma ParseObj(ms: seq<Member>, rest: string)
    requires ParseMembers(|ms|, StringifyMembers(ms) + rest) == Some((ms, rest))
    ensures Parse(Stringify(Obj(ms)) + rest) == Some((Obj(ms), rest))
  {
    var body := StringifyMembers(ms) + rest;
    var t := NatChars(|ms|) + body;
    ReadNatChars(|ms|, body);
    assert ReadNat(t) == Some((|ms|, body));
    assert ParseObjBody(t) == Some((Obj(ms), rest));
    assert Stringify(Obj(ms)) + rest == ['o'] + t by {
      Assoc3("o", NatChars(|ms|), StringifyMembers(ms), rest);
    }
    ParseTagged('o', t);
  }

  /** What `Parse` does after reading a container tag. */
  lemma ParseTagged(c: char, t: string)
    requires c == 'a' || c == 'o'
    ensures c == 'a' ==> Parse([c] + t) == ParseArrBody(t)
    ensures c == 'o' ==> Parse([c] + t) == ParseObjBody(t)
  {
    var s := [c] + t;
    assert s[0] == c && s[1..] == t;
  }

  lemma {:induction false} ParseItemsStringify(items: seq<Json>, rest: string)
    ensures ParseItems(|items|, StringifyItems(items) + rest) == Some((items, rest))
    decreases items, 0
  {
    if |items| > 0 {
      var tail := StringifyItems(items[1..]) + rest;
      var s := StringifyItems(items) + rest;
      assert s == Stringify(items[0]) + tail;
      ParseStringify(items[0], tail);
      ParseItemsStringify(items[1..], rest);
      assert |items| - 1 == |items[1..]|;
      assert ParseItems(|items|, s) == Some(([items[0]] + items[1..], rest));
      assert [items[0]] + items[1..] == items;
    } else {
      assert items == [] && StringifyItems(items) + rest == rest;
    }
  }

  lemma {:induction false} ParseMembersStringify(ms: seq<Member>, rest: string)
    ensures ParseMembers(|ms|, StringifyMembers(ms) + rest) == Some((ms, rest))
    decreases ms, 0
  {
    if |ms| > 0 {
      var m := ms[0];
      var tail := StringifyMembers(ms[1..]) + rest;
      var t := Stringify(m.value) + tail;
      var u := NatChars(|m.key|) + m.key + t;
      assert StringifyMembers(ms) + rest == ['k'] + u by {
        Assoc5("k", NatChars(|m.key|), m.key, Stringify(m.value), StringifyMembers(ms[1..]), rest);
      }
      ReadStrChars(m.key, t);
      ParseStringify(m.value, tail);
      ParseMembersStringify(ms[1..], rest);
      ParseMembersStep(|ms|, m.key, m.value, ms[1..], u, t, tail, rest);
      assert [Member(m.key, m.value)] + ms[1..] == ms;
    } else {
      assert ms == [] && StringifyMembers(ms) + rest == rest;
    }
  }

  lemma Assoc3(a: string, b: string, c: string, d: string)
    ensures a + b + c + d == a + (b + (c + d))
  {
  }

  lemma Assoc5(a: string, b: string, c: string, d: string, e: string, f: string)
    ensures a + b + c + d + e + f == a + (b + c + (d + (e + f)))
  {
  }

  /** One step of `ParseMembers`: a tagged key, then a value, then the remaining members. */
  lemma ParseMembersStep(k: nat, key: string, v: Json, ms: seq<Member>, u: string, t: string, tail: string, rest: string)
    requires k > 0
    requires ReadStr(u) == Some((key, t))
    requires Parse(t) == Some((v, tail))
    requires ParseMembers(k - 1, tail) == Some((ms, rest))
    ensures ParseMembers(k, ['k'] + u) == Some(([Member(key, v)] + ms, rest))
  {
    var s := ['k'] + u;
    assert s[0] == 'k' && s[1..] == u;
  }

  /** `JSON.parse(JSON.stringify(v))` gives back `v`. */
  lemma ParseTextStringify(v: Json)
    ensures ParseText(Stringify(v)) == Some(v)
  {
    ParseStringify(v, "");
    assert Stringify(v) + "" == Stringify(v);
  }
}
