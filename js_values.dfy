/** Untyped JavaScript values, as they arrive in a request body before any
    validation: the shapes `JSON.parse` can produce, plus `undefined`. */
module JsValues {

  datatype JsValue =
    | Undefined
    | Null
    | Bool(b: bool)
    | Num(n: real)
    | Str(s: string)
    | Arr(items: seq<JsValue>)
    | Obj(fields: map<string, JsValue>)

  /** JavaScript truthiness (`!!x`). NaN is not representable here. */
  predicate Truthy(v: JsValue) {
    match v
    case Undefined => false
    case Null => false
    case Bool(b) => b
    case Num(n) => n != 0.0
    case Str(s) => s != ""
    case Arr(_) => true
    case Obj(_) => true
  }

  /** Property read `(x as any)[key]` on a value already known to be truthy.
      Only own data properties of objects are modelled; no property name the
      handlers read (`orderId`, `type`, `ok`) exists on the prototypes of
      strings, numbers, booleans or arrays, so those read as `undefined`. */
  function Prop(v: JsValue, key: string): (r: JsValue)
    ensures !v.Obj? ==> r == Undefined
    ensures v.Obj? ==> (r != Undefined <==> key in v.fields && v.fields[key] != Undefined)
    ensures v.Obj? && key in v.fields ==> r == v.fields[key]
  {
    if v.Obj? && key in v.fields then v.fields[key] else Undefined
  }

  /** The empty object literal `{}`. */
  const EmptyObject: JsValue := Obj(map[])
}
