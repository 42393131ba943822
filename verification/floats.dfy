/** Scores as the scorer's numeric library produces them: a 64-bit float is either a
    finite value (modelled as an exact `real`; rounding is abstracted away) or NaN.
    NaN matters to the scorer: it propagates through arithmetic, and every ordered
    comparison with it is false. */
module Floats {

  datatype Float = Finite(val: real) | NaN

  function RealAbs(x: real): real {
    if x < 0.0 then -x else x
  }

  /** a + b */
  function Add(a: Float, b: Float): Float {
    if a.Finite? && b.Finite? then Finite(a.val + b.val) else NaN
  }

  /** a * k for a constant k */
  function Scale(a: Float, k: real): Float {
    if a.Finite? then Finite(a.val * k) else NaN
  }

  /** a - k for a constant k */
  function Minus(a: Float, k: real): Float {
    if a.Finite? then Finite(a.val - k) else NaN
  }

  /** abs(a) */
  function Abs(a: Float): Float {
    if a.Finite? then Finite(RealAbs(a.val)) else NaN
  }

  /** a > k, false for NaN */
  predicate Greater(a: Float, k: real) {
    a.Finite? && a.val > k
  }

  /** a < k, false for NaN */
  predicate Less(a: Float, k: real) {
    a.Finite? && a.val < k
  }

  predicate InUnit(a: Float) {
    a.Finite? && 0.0 <= a.val <= 1.0
  }
}
