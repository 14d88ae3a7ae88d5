/**
 * The JSON-compatible JavaScript values the handlers pass through, and the
 * three JavaScript operators whose defaults the handlers rely on:
 * `a || b`, `a ?? b` and a property read.
 */
module JsValues {

  /** A JavaScript value; `Undefined` also stands for a missing key. Numbers are reals (no NaN). */
  datatype Value =
    | Undefined
    | Null
    | Bool(b: bool)
    | Num(x: real)
    | Str(s: string)
    | Arr(elems: seq<Value>)
    | Obj(fields: map<string, Value>)

  /** JavaScript truthiness: undefined, null, false, 0 and "" are falsy; arrays and objects are truthy. */
  predicate Truthy(v: Value) {
    match v
    case Undefined => false
    case Null => false
    case Bool(b) => b
    case Num(x) => x != 0.0
    case Str(s) => s != ""
    case Arr(_) => true
    case Obj(_) => true
  }

  /** The values `??` and `?.` treat as absent. */
  predicate Nullish(v: Value) {
    v.Undefined? || v.Null?
  }

  /** `a || b` */
  function Or(a: Value, b: Value): Value {
    if Truthy(a) then a else b
  }

  /** `a ?? b` */
  function Coalesce(a: Value, b: Value): Value {
    if Nullish(a) then b else a
  }

  /**
   * `v.key` on a value that is not null or undefined, and `v?.key` on any value:
   * the field of an object, undefined for a missing key or a non-object.
   */
  function Member(v: Value, key: string): Value {
    match v
    case Obj(fields) => if key in fields then fields[key] else Undefined
    case _ => Undefined
  }

  /** A one-key object `{ key: text }`, the shape of every error body the handlers send. */
  function Message(key: string, text: string): Value {
    Obj(map[key := Str(text)])
  }
}
