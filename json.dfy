/** The values a parsed JSON request body (`request.data`) can hold, and
    Python's truthiness and `dict.get` over them. */
module Json {

  datatype Value =
    | Null
    | Bool(b: bool)
    | Num(n: int)
    | Str(s: string)
    | Array(items: seq<Value>)
    | Object(fields: map<string, Value>)

  /** `bool(v)` in Python. */
  predicate Truthy(v: Value) {
    match v
    case Null => false
    case Bool(b) => b
    case Num(n) => n != 0
    case Str(s) => s != ""
    case Array(xs) => xs != []
    case Object(m) => m != map[]
  }

  /** `d.get(key, default)`. */
  function Get(d: map<string, Value>, key: string, default: Value): (v: Value)
    ensures key in d ==> v == d[key]
    ensures key !in d ==> v == default
  {
    if key in d then d[key] else default
  }

  /** The Python exceptions the modelled handlers can raise on a malformed
      request body, and the database's `IntegrityError` for a write that
      breaks a unique column; a raised exception ends the request with a
      server error. */
  datatype Exception =
    | AttributeError(attribute: string)
    | KeyError(key: string)
    | TypeError
    | IntegrityError(column: string)
}
