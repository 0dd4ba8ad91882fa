/** The few JavaScript value and Math semantics the game's arithmetic relies on. */
module Js {

  /** A JavaScript argument value, reduced to the kinds the game passes around:
      `undefined` (a call with the argument left out), a finite number, NaN, and a string. */
  datatype JsValue = Undefined | Num(n: real) | NaN | Str(s: string)

  /** JavaScript truthiness: `undefined`, `0`, NaN and `""` are falsy. */
  predicate Truthy(v: JsValue)
  {
    match v
    case Undefined => false
    case Num(n) => n != 0.0
    case NaN => false
    case Str(s) => s != ""
  }

  /** `typeof v === "number"`; NaN is a number. */
  predicate IsNumber(v: JsValue)
  {
    v.Num? || v.NaN?
  }

  /** A value `Math.random()` can return: uniform in [0, 1). */
  predicate IsRandomDraw(r: real)
  {
    0.0 <= r < 1.0
  }

  /** `Math.floor`. */
  function Floor(r: real): (n: int)
    ensures n as real <= r < n as real + 1.0
  {
    r.Floor
  }

  /** `Math.ceil`, through the floor of the negation. */
  function Ceil(r: real): (n: int)
    ensures n as real - 1.0 < r <= n as real
  {
    -Floor(-r)
  }

  function Abs(r: real): (a: real)
    ensures a >= 0.0 && (a == r || a == -r)
  {
    if r < 0.0 then -r else r
  }
}
