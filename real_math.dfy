/** Exact real arithmetic shared by the projections: `(1 + g) ** i` as it
    appears in the compound-growth formulas, computed over `real`. */
module RealMath {

  /** x raised to the natural power n (Python's `x ** n` for integer n >= 0). */
  function Pow(x: real, n: nat): real
  {
    if n == 0 then 1.0 else x * Pow(x, n - 1)
  }

  /** A positive base gives a positive power. */
  lemma {:induction false} PowPositive(x: real, n: nat)
    requires x > 0.0
    ensures Pow(x, n) > 0.0
  {
    if n > 0 {
      PowPositive(x, n - 1);
    }
  }
}
