/** JavaScript values as they arrive in a parsed JSON request body, and the
    JavaScript notion of truthiness that the handlers test with `if (x)` and `!x`. */
module JsValues {

  /** A JavaScript value. Numbers are only copied by the store, never computed
      with, so a finite number is kept as a `real` and NaN as its own case. */
  datatype Value =
    | Undefined
    | Null
    | Bool(b: bool)
    | Num(x: real)
    | NaN
    | Str(s: string)
    | Arr(elems: seq<Value>)
    | Obj(fields: Record)

  /** A plain JavaScript object: property names to values. */
  type Record = map<string, Value>

  /** Reading a property: a missing property reads as `undefined`. */
  function Lookup(o: Record, key: string): Value {
    if key in o then o[key] else Undefined
  }

  /** JavaScript truthiness (the test performed by `if (v)` and negated by `!v`):
      the falsy values are exactly undefined, null, false, 0, NaN and the empty string. */
  predicate Truthy(v: Value)
    ensures !Truthy(v) <==> v in {Undefined, Null, Bool(false), Num(0.0), NaN, Str("")}
  {
    match v
    case Undefined => false
    case Null => false
    case Bool(b) => b
    case Num(x) => x != 0.0
    case NaN => false
    case Str(s) => s != ""
    case Arr(_) => true
    case Obj(_) => true
  }
}
