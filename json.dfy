/**
 * Parsed JSON as the maintenance scripts see it: a primitive JavaScript
 * value, with `undefined` standing for a key the object does not have.
 * `null` and `undefined` are distinct values, as they are for `===` and for
 * the SameValueZero comparison `Set` uses, so equality of `JsValue`s is the
 * comparison those scripts make. Arrays and nested objects are not modelled.
 */
module Json {
  datatype JsValue =
    | Undefined
    | Null
    | Bool(b: bool)
    | Number(n: int)
    | Str(s: string)

  type JsObject = map<string, JsValue>

  /** The value of a key, `undefined` when the key is missing. */
  function Get(o: JsObject, key: string): JsValue {
    if key in o then o[key] else Undefined
  }

  /** JavaScript truthiness: `undefined`, `null`, `false`, `0` and `""` are falsy. */
  predicate JsTruthy(v: JsValue) {
    match v
    case Undefined => false
    case Null => false
    case Bool(b) => b
    case Number(n) => n != 0
    case Str(s) => s != ""
  }
}
