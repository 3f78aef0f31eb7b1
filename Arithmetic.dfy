/** Two facts about real products that the curve and interpolation proofs share. */
module Arithmetic {
  lemma ProductNonNegative(a: real, b: real)
    requires 0.0 <= a && 0.0 <= b
    ensures 0.0 <= a * b
  {
  }

  /** |u| <= c bounds u * u by c * c. */
  lemma SquareBelow(u: real, c: real)
    requires -c <= u <= c
    ensures u * u <= c * c
  {
    ProductNonNegative(c - u, c + u);
    assert c * c - u * u == (c - u) * (c + u);
  }
}
