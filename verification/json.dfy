/** The parsed JSON tree the table consumes. Turning text into this tree is
    the work of the JSON library and is not part of this model. */
module Json {

  /** One JSON node. Integers and floating-point numbers are distinct node
      kinds, as in the library; a floating-point number is represented by a
      `real` stand-in for its `double` value. An object maps each key to one
      value. */
  datatype Value =
    | Null
    | Bool(b: bool)
    | Int(i: int)
    | Num(r: real)
    | Str(s: string)
    | Arr(elems: seq<Value>)
    | Obj(fields: map<string, Value>)

  /** True when `v` is an object that binds `key`. */
  predicate Has(v: Value, key: string)
  {
    v.Obj? && key in v.fields
  }
}
