/** The JavaScript values that the validation layer receives as `unknown`. */
module Values {

  /** A JSON-like JavaScript value. An object is a map from its own keys to their values;
      a key that is present with the value `undefined` maps to `Undefined`. Numbers are
      mathematical reals and a `Date` is the millisecond timestamp it holds. */
  datatype Value =
    | Undefined
    | Null
    | Bool(b: bool)
    | Num(x: real)
    | Str(s: string)
    | Date(ms: int)
    | Arr(items: seq<Value>)
    | Obj(fields: map<string, Value>)
}
