/**
 * The JavaScript values that cross the handler's boundary: the caller's
 * `uniqueId` and `options`, and the payloads of upstream events.
 * Arrays are objects in JavaScript; here they are `Obj` values whose keys
 * are the indices.
 */
module Js {
  import opened Wrappers

  datatype JsValue =
    | Undefined
    | Null
    | Bool(b: bool)
    | Num(n: int)
    | Str(s: string)
    | Obj(props: map<string, JsValue>)

  /** JavaScript truthiness: what `if (v)` tests. */
  predicate Truthy(v: JsValue)
  {
    match v
    case Undefined => false
    case Null => false
    case Bool(b) => b
    case Num(n) => n != 0
    case Str(s) => s != ""
    case Obj(_) => true
  }

  /**
   * Reading `v[key]`: None when the read throws a TypeError (`v` is null or
   * undefined); a missing property reads as `undefined`; primitives carry
   * no own properties of the names read here.
   */
  function ReadProperty(v: JsValue, key: string): (r: Option<JsValue>)
    ensures r.None? <==> v == Null || v == Undefined
    ensures r.Some? && r.value != Undefined ==> v.Obj? && key in v.props && v.props[key] == r.value
    ensures v.Obj? && key in v.props ==> r == Some(v.props[key])
    ensures r.Some? && !(v.Obj? && key in v.props) ==> r.value == Undefined
  {
    match v
    case Undefined => None
    case Null => None
    case Obj(props) => Some(if key in props then props[key] else Undefined)
    case _ => Some(Undefined)
  }
}
