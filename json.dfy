/** JSON values as they are stored in the `*_json` columns, with Python's truthiness. */
module Json {
  import opened Wrappers

  datatype Value =
    | Null
    | Bool(b: bool)
    // `json.loads` reads a number without a fraction or exponent as an `int`, any other as a `float`.
    | Int(i: int)
    | Float(f: real)
    | Str(s: string)
    | Arr(items: seq<Value>)
    | Obj(fields: map<string, Value>)

  /** A JSON object (a Python `dict[str, Any]`). */
  type Object = map<string, Value>

  /** Python's `bool(v)`: None, False, 0, "", [] and {} are falsy. */
  predicate Truthy(v: Value) {
    match v
    case Null => false
    case Bool(b) => b
    case Int(i) => i != 0
    case Float(f) => f != 0.0
    case Str(s) => s != ""
    case Arr(items) => items != []
    case Obj(fields) => fields != map[]
  }

  /** `d.get(k)`: a missing key reads as None. */
  function Get(d: Object, k: string): (v: Value)
    ensures k !in d ==> v == Null
    ensures k in d ==> v == d[k]
  {
    if k in d then d[k] else Null
  }

  /** `payload or {}` for an optional object. */
  function OrEmpty(d: Option<Object>): (r: Object)
    ensures d.Some? ==> r == d.value
    ensures d.None? ==> r == map[]
  {
    d.GetOr(map[])
  }

  /** `Null` for a missing object, the object otherwise (how `None` is serialised). */
  function OptObj(d: Option<Object>): (v: Value)
    ensures d.None? <==> v == Null
  {
    match d
    case Some(o) => Obj(o)
    case None => Null
  }

  /** `Null` for a missing string, the string otherwise. */
  function OptStr(s: Option<string>): (v: Value)
    ensures s.None? <==> v == Null
  {
    match s
    case Some(t) => Str(t)
    case None => Null
  }

  /** `d.get(k)` when it is a truthy JSON string (the only shape the handlers read as a pair name). */
  function TruthyStr(d: Object, k: string): (r: Option<string>)
    ensures r.Some? <==> k in d && d[k].Str? && d[k].s != ""
    ensures r.Some? ==> d[k] == Str(r.value)
  {
    if k in d && d[k].Str? && d[k].s != "" then Some(d[k].s) else None
  }
}
