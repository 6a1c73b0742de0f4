/** JavaScript values as the platform's core handles them, and the operators it relies on. */
module Values {

  datatype Option<+T> = None | Some(value: T)

  /** A JavaScript value. Numbers are integers in this model; arrays and objects are plain data. */
  datatype JsValue =
    | Undefined
    | Null
    | Bool(b: bool)
    | Num(n: int)
    | Str(s: string)
    | Arr(items: seq<JsValue>)
    | Obj(props: map<string, JsValue>)

  /** ECMAScript ToBoolean: undefined, null, false, 0 and '' are falsy; every other value is truthy. */
  predicate Truthy(v: JsValue) {
    match v
    case Undefined => false
    case Null => false
    case Bool(b) => b
    case Num(n) => n != 0
    case Str(s) => s != ""
    case _ => true
  }

  /** `v === null || v === undefined` */
  predicate Nullish(v: JsValue) {
    v.Undefined? || v.Null?
  }

  /** Arrays and objects compare by identity in JavaScript; the values compared here never share one. */
  predicate IsPrimitive(v: JsValue) {
    !v.Arr? && !v.Obj?
  }

  /** `a === b` */
  predicate StrictEquals(a: JsValue, b: JsValue) {
    IsPrimitive(a) && IsPrimitive(b) && a == b
  }

  /** `a || b` */
  function Or(a: JsValue, b: JsValue): JsValue {
    if Truthy(a) then a else b
  }

  /** Property read `o[key]`: a missing property reads as undefined. */
  function Get(o: map<string, JsValue>, key: string): JsValue {
    if key in o then o[key] else Undefined
  }

  /** `v ? 'Yes' : 'No'` */
  function YesNo(v: JsValue): (r: JsValue)
    ensures r == Str("Yes") || r == Str("No")
    ensures r == Str("Yes") <==> Truthy(v)
  {
    Str(if Truthy(v) then "Yes" else "No")
  }
}
