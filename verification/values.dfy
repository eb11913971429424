/** Untyped values as they reach a worker through its message channel. */
module Values {

  datatype Option<+T> = None | Some(value: T)

  datatype Result<+T, +E> = Ok(value: T) | Err(error: E)

  /** A structured-clone payload: JSON-like, plus `undefined`. Numbers are
      abstracted to integers; nothing here inspects them. */
  datatype Value =
    | Undefined
    | Null
    | Bool(b: bool)
    | Number(n: int)
    | Str(s: string)
    | Array(items: seq<Value>)
    | Object(fields: map<string, Value>)

  /** Property access `v.key`: `undefined` when `v` is not a plain object or
      has no such key. */
  function Get(v: Value, key: string): (r: Value)
    ensures r != Undefined ==> v.Object? && key in v.fields && v.fields[key] == r
    ensures v.Object? && key in v.fields ==> r == v.fields[key]
  {
    if v.Object? && key in v.fields then v.fields[key] else Undefined
  }
}
