/** Floating point as exact arithmetic.

    Every `f32`/`f64` quantity of the program is a `real` here, so rounding is
    not modelled. Division is the one operation that needs a decision: IEEE
    division by zero yields an infinity or NaN, which `real` cannot hold, and
    `Div` yields 0 in that case. */
module Float {

  /** `a / b` of the program; exact when `b` is not zero. */
  function Div(a: real, b: real): (q: real)
    ensures b != 0.0 ==> q * b == a
    ensures b == 0.0 ==> q == 0.0
  {
    if b == 0.0 then 0.0 else a / b
  }
}
