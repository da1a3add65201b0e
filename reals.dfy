/** Facts about products and quotients of reals that the solver does not find
    on its own. */
module Reals {
  /** `a * b` is non-negative for non-negative factors. */
  lemma ProductNonNegative(a: real, b: real)
    requires a >= 0.0 && b >= 0.0
    ensures a * b >= 0.0
  {
  }

  lemma ProductPositive(a: real, b: real)
    requires a > 0.0 && b > 0.0
    ensures a * b > 0.0
  {
  }

  /** A factor whose product with a positive number is non-negative is
      itself non-negative. */
  lemma NonNegativeFactor(x: real, w: real)
    requires w > 0.0 && x * w >= 0.0
    ensures x >= 0.0
  {
    if x < 0.0 {
      ProductPositive(-x, w);
    }
  }

  /** Dividing by a positive number keeps the order. */
  lemma DivideMonotone(a: real, b: real, m: real)
    requires a <= b && m > 0.0
    ensures a / m <= b / m
  {
    assert (b / m - a / m) * m == b - a;
    NonNegativeFactor(b / m - a / m, m);
  }
}
