/** The JavaScript values the mesh plugin handles: membership metadata,
    listen descriptors and message patterns are plain JSON-like objects. */
module Values {

  datatype Option<+T> = None | Some(value: T)

  /** A JSON-like JavaScript value. `Undefined` is what reading a missing
      property yields. Numbers are integers here. */
  datatype Value =
    | Undefined
    | Null
    | Bool(b: bool)
    | Num(n: int)
    | Str(s: string)
    | Arr(items: seq<Value>)
    | Obj(fields: map<string, Value>)

  /** A plain object such as a listen descriptor `{pin, model, host, port, ...}`. */
  type Descriptor = map<string, Value>

  /** JavaScript truthiness: `undefined`, `null`, `false`, `0` and `''` are
      falsy; every array and object, even an empty one, is truthy. */
  predicate Truthy(v: Value) {
    match v
    case Undefined => false
    case Null => false
    case Bool(b) => b
    case Num(n) => n != 0
    case Str(s) => s != ""
    case Arr(_) => true
    case Obj(_) => true
  }

  /** Property read `d[k]`: a missing key reads as `undefined`. */
  function Get(d: Descriptor, k: string): Value {
    if k in d then d[k] else Undefined
  }
}
