/** A decoded JSON or YAML document, as the Python code sees it after `json.loads` or
    `yaml.safe_load`, with the dynamic-typing behaviour the code relies on: `.get`,
    truthiness, `in`, iteration and `len`, each failing the way Python fails. */
module Json {
  import opened Base
  import opened Text
  import Collections

  /** Objects keep their members in document order; a key given twice takes its last
      value, as when building a Python dict. Numbers are real-valued. */
  datatype Json =
    | JNull
    | JBool(b: bool)
    | JNum(n: real)
    | JStr(s: string)
    | JArr(items: seq<Json>)
    | JObj(fields: seq<(string, Json)>)

  /** The value bound to `key` (the last binding when repeated). */
  function Lookup(fields: seq<(string, Json)>, key: string): (r: Option<Json>)
    ensures r.None? <==> forall i :: 0 <= i < |fields| ==> fields[i].0 != key
    ensures r.Some? ==> exists i :: 0 <= i < |fields| && fields[i] == (key, r.value)
  {
    if |fields| == 0 then None
    else
      var last := fields[|fields| - 1];
      if last.0 == key then Some(last.1) else Lookup(fields[..|fields| - 1], key)
  }

  /** A binding that no later binding overrides is the one found. */
  lemma {:induction false} LookupLastBinding(fields: seq<(string, Json)>, i: int)
    requires 0 <= i < |fields|
    requires forall j :: i < j < |fields| ==> fields[j].0 != fields[i].0
    ensures Lookup(fields, fields[i].0) == Some(fields[i].1)
  {
    if i < |fields| - 1 {
      LookupLastBinding(fields[..|fields| - 1], i);
    }
  }

  /** The dict's keys in insertion order. */
  function Keys(fields: seq<(string, Json)>): seq<string>
  {
    Collections.Dedup(Collections.MapSeq(fields, (f: (string, Json)) => f.0))
  }

  /** `bool(v)` */
  predicate Truthy(v: Json) {
    match v
    case JNull => false
    case JBool(b) => b
    case JNum(n) => n != 0.0
    case JStr(s) => |s| > 0
    case JArr(items) => |items| > 0
    case JObj(fields) => |fields| > 0
  }

  /** `v.get(key, default)`: only dicts have `.get`; anything else raises AttributeError. */
  function Get(v: Json, key: string, default: Json): (r: Result<Json>)
    ensures r.Ok? <==> v.JObj?
    ensures v.JObj? && Lookup(v.fields, key).None? ==> r == Ok(default)
    ensures v.JObj? && Lookup(v.fields, key).Some? ==> r == Ok(Lookup(v.fields, key).value)
  {
    if !v.JObj? then Err(Invalid("object has no attribute 'get'"))
    else match Lookup(v.fields, key)
      case Some(x) => Ok(x)
      case None => Ok(default)
  }

  /** `key in v` for a string operand: list membership by equality, substring on a
      string, key membership on a dict; any other container raises TypeError. */
  function PyIn(x: string, v: Json): (r: Result<bool>)
    ensures r.Ok? <==> (v.JArr? || v.JStr? || v.JObj?)
    ensures v.JArr? ==> r == Ok(JStr(x) in v.items)
    ensures v.JStr? ==> r == Ok(Contains(v.s, x))
    ensures v.JObj? ==> r == Ok(Lookup(v.fields, x).Some?)
  {
    match v
    case JArr(items) => Ok(JStr(x) in items)
    case JStr(s) => Ok(Contains(s, x))
    case JObj(fields) => Ok(Lookup(fields, x).Some?)
    case _ => Err(Invalid("argument is not iterable"))
  }

  /** `for item in v`: list items, dict keys, or the characters of a string. */
  function Iterate(v: Json): (r: Result<seq<Json>>)
    ensures r.Ok? <==> (v.JArr? || v.JStr? || v.JObj?)
    ensures v.JArr? ==> r == Ok(v.items)
  {
    match v
    case JArr(items) => Ok(items)
    case JStr(s) => Ok(seq(|s|, i requires 0 <= i < |s| => JStr([s[i]])))
    case JObj(fields) => Ok(Collections.MapSeq(Keys(fields), (k: string) => JStr(k)))
    case _ => Err(Invalid("object is not iterable"))
  }

  /** `len(v)` */
  function Len(v: Json): (r: Result<nat>)
    ensures r.Ok? <==> (v.JArr? || v.JStr? || v.JObj?)
  {
    match v
    case JArr(items) => Ok(|items|)
    case JStr(s) => Ok(|s|)
    case JObj(fields) => Ok(|Keys(fields)|)
    case _ => Err(Invalid("object has no len()"))
  }

  /** `v.lower()`: only strings have it. */
  function LowerOf(v: Json): (r: Result<string>)
    ensures r.Ok? <==> v.JStr?
    ensures v.JStr? ==> r == Ok(Lower(v.s))
  {
    if v.JStr? then Ok(Lower(v.s)) else Err(Invalid("object has no attribute 'lower'"))
  }

  /** `v >= t` for a threshold: numbers and booleans compare, anything else raises. */
  function AtLeast(v: Json, t: real): (r: Result<bool>)
    ensures r.Ok? <==> (v.JNum? || v.JBool?)
    ensures v.JNum? ==> r == Ok(v.n >= t)
    ensures v.JBool? ==> r == Ok((if v.b then 1.0 else 0.0) >= t)
  {
    match v
    case JNum(n) => Ok(n >= t)
    case JBool(b) => Ok((if b then 1.0 else 0.0) >= t)
    case _ => Err(Invalid("'>=' not supported"))
  }

  /** A JSON list of strings. */
  function StrList(xs: seq<string>): (r: Json)
    ensures r.JArr? && |r.items| == |xs|
    ensures forall i :: 0 <= i < |xs| ==> r.items[i] == JStr(xs[i])
  {
    JArr(Collections.MapSeq(xs, (x: string) => JStr(x)))
  }

  /** Membership in a JSON list of strings is membership in the strings. */
  lemma InStrList(x: string, xs: seq<string>)
    ensures PyIn(x, StrList(xs)) == Ok(x in xs)
  {
    var v := StrList(xs);
    if x in xs {
      var i :| 0 <= i < |xs| && xs[i] == x;
      assert v.items[i] == JStr(x);
    }
  }
}
