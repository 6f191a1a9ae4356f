/** JavaScript numbers as the validators see them, with the comparisons' treatment of NaN
    and the infinities. The finite values are exact reals: rounding is not modelled. */
module Numbers {
  datatype JsNumber = Finite(value: real) | NaN | PosInfinity | NegInfinity

  /** `Number.isFinite` */
  predicate IsFinite(x: JsNumber) {
    x.Finite?
  }

  /** `Number.isInteger`: finite and without a fractional part. */
  predicate IsInteger(x: JsNumber) {
    x.Finite? && x.value.Floor as real == x.value
  }

  /** `x < c`; false as soon as one side is NaN. */
  predicate Less(x: JsNumber, c: real) {
    match x
    case Finite(v) => v < c
    case NegInfinity => true
    case _ => false
  }

  /** `x > c` */
  predicate Greater(x: JsNumber, c: real) {
    match x
    case Finite(v) => v > c
    case PosInfinity => true
    case _ => false
  }

  /** `x <= c` */
  predicate AtMost(x: JsNumber, c: real) {
    match x
    case Finite(v) => v <= c
    case NegInfinity => true
    case _ => false
  }

  /** No comparison with NaN holds, so a NaN passes every range guard written with `<`,
      `>` or `<=`; only an explicit finiteness test stops it. */
  lemma {:induction false} NaNEscapesComparisons(c: real)
    ensures !Less(NaN, c) && !Greater(NaN, c) && !AtMost(NaN, c)
  {
  }

  /** With a finiteness test in front, the JavaScript guard `!(x < lo || x > hi)` is the
      closed interval. */
  lemma {:induction false} FiniteGuardIsInterval(x: JsNumber, lo: real, hi: real)
    ensures (IsFinite(x) && !Less(x, lo) && !Greater(x, hi)) <==> (x.Finite? && lo <= x.value <= hi)
  {
  }
}
