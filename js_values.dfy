/**
 * The JavaScript values that occur in the chart's JSON data, together with the
 * vector objects that option conversion produces from them.
 */
module JsValues {

  /**
   * A JSON-like value. Numbers are reals (NaN and the infinities are not
   * modelled). `Vector3` stands for a `THREE.Vector3` object: it is not an
   * array, and its components hold whatever the constructor was given
   * (undefined is not modelled inside arrays; the constructor would make it 0).
   */
  datatype Value =
    | Undefined
    | Null
    | Bool(b: bool)
    | Num(n: real)
    | Str(s: string)
    | Arr(items: seq<Value>)
    | Obj(fields: map<string, Value>)
    | Vector3(x: Value, y: Value, z: Value)

  /** JavaScript truthiness: what `if (v)` decides. */
  predicate Truthy(v: Value) {
    match v
    case Undefined => false
    case Null => false
    case Bool(b) => b
    case Num(n) => n != 0.0
    case Str(s) => s != ""
    case _ => true
  }
}
