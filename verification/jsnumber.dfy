/**
 * The few JavaScript number operations the combat core relies on, on
 * integer operands: `Math.ceil`/`Math.floor` of a half or a third, and
 * division, which yields Infinity or NaN when the divisor is zero.
 *
 * Dafny's `/` on `int` rounds toward negative infinity when the divisor is
 * positive, so `n / d` is `Math.floor(n / d)` for every integer `n`.
 */
module JsNumber {

  /** `Math.ceil(n / 2)`. */
  function CeilHalf(n: int): (r: int)
    ensures 2 * r - 1 <= n <= 2 * r
  {
    (n + 1) / 2
  }

  /** `Math.floor(n / 2)`. */
  function FloorHalf(n: int): (r: int)
    ensures 2 * r <= n <= 2 * r + 1
  {
    n / 2
  }

  /** `Math.ceil(n / 3)`. */
  function CeilThird(n: int): (r: int)
    ensures 3 * r - 2 <= n <= 3 * r
  {
    (n + 2) / 3
  }

  /** `Math.floor(n / 3)`. */
  function FloorThird(n: int): (r: int)
    ensures 3 * r <= n <= 3 * r + 2
  {
    n / 3
  }

  /** A JavaScript number that results from dividing two integers. */
  datatype Ratio = Finite(value: real) | Infinity(negative: bool) | NaN {

    /** `x * 100`. */
    function Percent(): (r: Ratio)
      ensures Finite? <==> r.Finite?
      ensures Finite? ==> r.value == 100.0 * value
      ensures !Finite? ==> r == this
    {
      match this
      case Finite(v) => Finite(100.0 * v)
      case _ => this
    }

    /** `x < bound`; NaN compares false, Infinity by its sign. */
    predicate Below(bound: real) {
      match this
      case Finite(v) => v < bound
      case Infinity(negative) => negative
      case NaN => false
    }
  }

  /** `a / b` in JavaScript, without any guard on `b`. */
  function Divide(a: int, b: int): (r: Ratio)
    ensures b != 0 ==> r.Finite? && r.value * b as real == a as real
    ensures b == 0 && a > 0 ==> r == Infinity(false)
    ensures b == 0 && a < 0 ==> r == Infinity(true)
    ensures b == 0 && a == 0 ==> r == NaN
  {
    if b != 0 then Finite(a as real / b as real)
    else if a > 0 then Infinity(false)
    else if a < 0 then Infinity(true)
    else NaN
  }
}
