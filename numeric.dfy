/**
 * Scalar operations the intersection code takes from the C++ runtime,
 * stated over exact reals: `x - floor(x)` and the `(int)` cast.
 */
module Numeric {

  /** The fractional part `x - floor(x)`: it lies in [0, 1) and differs from `x` by an integer. */
  function Fract(x: real): (r: real)
    ensures 0.0 <= r < 1.0
    ensures (x - r).Floor as real == x - r
  {
    x - x.Floor as real
  }

  /**
   * The C++ conversion `(int)x`, which truncates toward zero (Dafny's `.Floor`
   * rounds toward minus infinity, so negative values are handled apart).
   */
  function Truncate(x: real): (n: int)
    ensures 0.0 <= x ==> 0 <= n && n as real <= x < n as real + 1.0
    ensures x < 0.0 ==> n <= 0 && n as real - 1.0 < x <= n as real
  {
    if 0.0 <= x then x.Floor else -((-x).Floor)
  }
}
