/** IEEE double values as the JavaScript and Python code sees them: a real number or NaN. */
module Numbers {

  datatype Float = NaN | Finite(v: real)

  /** `x == 0`: false for NaN. */
  predicate IsZero(x: Float) {
    x == Finite(0.0)
  }

  /** `x > 0`: false for NaN. */
  predicate IsPositive(x: Float) {
    x.Finite? && x.v > 0.0
  }

  /** `x < 0`: false for NaN. */
  predicate IsNegative(x: Float) {
    x.Finite? && x.v < 0.0
  }

  /** `x >= t`: false for NaN. */
  predicate AtLeast(x: Float, t: real) {
    x.Finite? && x.v >= t
  }

  /** `-x`. */
  function Neg(x: Float): (r: Float)
    ensures r.NaN? <==> x.NaN?
    ensures r.Finite? ==> r.v == -x.v
  {
    match x
    case NaN => NaN
    case Finite(v) => Finite(-v)
  }

  /** `x - y`: NaN when either operand is NaN. */
  function Sub(x: Float, y: Float): (r: Float)
    ensures r.NaN? <==> x.NaN? || y.NaN?
  {
    if x.NaN? || y.NaN? then NaN else Finite(x.v - y.v)
  }

  /** `Math.abs(x)`. */
  function Abs(x: Float): (r: Float)
    ensures r.NaN? <==> x.NaN?
    ensures r.Finite? ==> r.v >= 0.0 && (r.v == x.v || r.v == -x.v)
  {
    match x
    case NaN => NaN
    case Finite(v) => Finite(if v < 0.0 then -v else v)
  }
}
