/** The values `json.loads` can produce, by kind. */
module Json {
  import opened Outcomes

  /** A decoded JSON value. Arrays and objects keep only their kind: nothing in
      the scoring pipeline looks inside them. A JSON `true`/`false` is a Python
      bool, which arithmetic treats as 1/0. */
  datatype Value =
    | Str(s: string)
    | Int(i: int)
    | Real(r: real)
    | Bool(b: bool)
    | Null
    | Array
    | Object

  /** A decoded JSON object, i.e. a Python dict with string keys. */
  type Dict = map<string, Value>

  /** `dict.get(key, default)`. */
  function Get(d: Dict, key: string, default: Value): (v: Value)
    ensures key in d ==> v == d[key]
    ensures key !in d ==> v == default
  {
    if key in d then d[key] else default
  }

  /** The number Python's true division sees for a value, if it is one. */
  function AsNumber(v: Value): (n: Option<real>)
    ensures n.Some? <==> (v.Int? || v.Real? || v.Bool?)
    ensures v.Int? ==> n == Some(v.i as real)
    ensures v.Real? ==> n == Some(v.r)
    ensures v.Bool? ==> n == Some(if v.b then 1.0 else 0.0)
  {
    match v
    case Int(i) => Some(i as real)
    case Real(r) => Some(r)
    case Bool(b) => Some(if b then 1.0 else 0.0)
    case _ => None
  }

  /** True when Python can hash the value, so that it can be a dict lookup key. */
  predicate Hashable(v: Value) {
    !v.Array? && !v.Object?
  }
}
