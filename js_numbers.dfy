/**
 * JavaScript numbers as the core uses them: a finite value or NaN. Infinities
 * and floating-point rounding are not modelled; values are exact reals.
 */
module JsNumbers {

  datatype JsNumber = NaN | Num(value: real)

  /** `Math.abs`, which keeps NaN. */
  function Abs(n: JsNumber): (r: JsNumber)
    ensures r.NaN? <==> n.NaN?
    ensures r.Num? ==> r.value >= 0.0 && (r.value == n.value || r.value == -n.value)
  {
    match n
    case NaN => NaN
    case Num(v) => Num(if v < 0.0 then -v else v)
  }

  /** Unary minus, which keeps NaN. */
  function Negate(n: JsNumber): JsNumber {
    match n
    case NaN => NaN
    case Num(v) => Num(-v)
  }

  /** `n < 0`, false for NaN. */
  predicate IsNegative(n: JsNumber) {
    n.Num? && n.value < 0.0
  }

  /** `n > 0`, false for NaN. */
  predicate IsPositive(n: JsNumber) {
    n.Num? && n.value > 0.0
  }
}
