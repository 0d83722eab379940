/**
 * JavaScript numbers as the dashboard sees them: a finite value, one of the
 * two infinities, or NaN.  Finite values are kept as exact reals; IEEE-754
 * rounding is not modelled.
 */
module JsValues {

  datatype JsNumber = Finite(r: real) | PosInf | NegInf | NaN

  /** `x >= c` for a finite constant `c`; every comparison with NaN is false. */
  predicate Ge(x: JsNumber, c: real)
  {
    match x
    case Finite(r) => r >= c
    case PosInf => true
    case NegInf => false
    case NaN => false
  }

  /** `x > c` for a finite constant `c`; every comparison with NaN is false. */
  predicate Gt(x: JsNumber, c: real)
  {
    match x
    case Finite(r) => r > c
    case PosInf => true
    case NegInf => false
    case NaN => false
  }
}
