/** Values shared by every module: an optional value and the JSON-shaped
    values that request bodies, response bodies and stored items are made of. */
module Values {

  datatype Option<+T> = None | Some(value: T)

  /** A decoded JSON value. Python's int and float are both `Number`; a number
      is an integer when it has no fractional part. */
  datatype Value =
    | Null
    | Bool(b: bool)
    | Number(n: real)
    | Str(s: string)
    | Arr(items: seq<Value>)
    | Obj(fields: map<string, Value>)

  predicate IsInteger(x: real) {
    x == x.Floor as real
  }

  /** The JSON number for an optional integer, `null` when absent. */
  function OptInt(v: Option<int>): Value {
    match v
    case None => Null
    case Some(i) => Number(i as real)
  }

  function OptReal(v: Option<real>): Value {
    match v
    case None => Null
    case Some(x) => Number(x)
  }

  function OptStr(v: Option<string>): Value {
    match v
    case None => Null
    case Some(s) => Str(s)
  }
}
