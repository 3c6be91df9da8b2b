/** JavaScript value semantics that the backend routes and the frontend pages
    rely on: truthiness, `??`, `||`, `typeof v === "number"`, and the numbers
    `Number(...)` can produce. */
module Js {

  datatype Option<+T> = None | Some(value: T) {
    function GetOr(default: T): T {
      match this
      case Some(v) => v
      case None => default
    }
  }

  /** A value decoded from a JSON request or response body. JSON has no
      literal for NaN or Infinity, though a number too large for a double
      parses as Infinity; floating point is not modelled, so every `Num`
      is a finite real. Arrays and objects are not inspected by the
      modelled code and are all `Composite`. A missing property reads as
      `Undefined`. */
  datatype JsValue =
    | Undefined
    | Null
    | Bool(b: bool)
    | Num(n: real)
    | Str(s: string)
    | Composite

  /** A result of `Number(...)` or of arithmetic: finite, NaN or infinite. */
  datatype JsNumber = Finite(value: real) | NaN | PosInfinity | NegInfinity

  /** `Boolean(v)`: the falsy values are undefined, null, false, 0 and "". */
  predicate Truthy(v: JsValue) {
    match v
    case Undefined => false
    case Null => false
    case Bool(b) => b
    case Num(n) => n != 0.0
    case Str(s) => s != ""
    case Composite => true
  }

  /** `v === null || v === undefined`. */
  predicate Nullish(v: JsValue) {
    v.Undefined? || v.Null?
  }

  /** `a ?? b` */
  function Coalesce(a: JsValue, b: JsValue): (r: JsValue)
    ensures Nullish(a) ==> r == b
    ensures !Nullish(a) ==> r == a
  {
    if Nullish(a) then b else a
  }

  /** `a || b` */
  function Or(a: JsValue, b: JsValue): (r: JsValue)
    ensures Truthy(a) ==> r == a
    ensures !Truthy(a) ==> r == b
  {
    if Truthy(a) then a else b
  }

  /** `typeof v === "number" ? v : null`. A number that overflowed to
      Infinity when parsed would also be kept; the model's numbers are
      finite. */
  function NumberOrNull(v: JsValue): (r: Option<real>)
    ensures r.Some? <==> v.Num?
    ensures r.Some? ==> v == Num(r.value)
  {
    if v.Num? then Some(v.n) else None
  }

  /** `Number.isFinite(n)` */
  predicate IsFinite(n: JsNumber) {
    n.Finite?
  }

  /** The JSON that `JSON.stringify` writes for a number: NaN and the
      infinities become `null`. */
  function NumberToJson(n: JsNumber): (r: JsValue)
    ensures r.Num? <==> IsFinite(n)
    ensures r.Num? ==> r.n == n.value
    ensures !r.Num? ==> r == Null
  {
    if n.Finite? then Num(n.value) else Null
  }
}
