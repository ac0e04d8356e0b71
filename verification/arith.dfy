/** Facts about products and quotients of reals that the proofs of several modules share. */
module RealArith {
  lemma ProductNonneg(a: real, b: real)
    requires a >= 0.0 && b >= 0.0
    ensures a * b >= 0.0
  {
  }

  /** Where a quotient by a positive number lies relative to 0 and 1. */
  lemma QuotientBounds(x: real, d: real)
    requires d > 0.0
    ensures x >= 0.0 ==> x / d >= 0.0
    ensures x >= d ==> x / d >= 1.0
  {
    var q := x / d;
    assert q * d == x;
    if q < 0.0 { ProductKeepsOrder(q, 0.0, d); }
    if q < 1.0 { ProductKeepsOrder(q, 1.0, d); }
  }

  lemma ProductKeepsOrder(a: real, b: real, c: real)
    requires a < b && c > 0.0
    ensures a * c < b * c
  {
    assert b * c - a * c == (b - a) * c;
  }

  /** Factors of products with one positive factor in common are ordered like the products. */
  lemma FactorOrder(q1: real, q2: real, d: real, e1: real, e2: real)
    requires d > 0.0 && q1 * d == e1 && q2 * d == e2
    ensures e1 <= e2 ==> q1 <= q2
    ensures e1 < e2 ==> q1 < q2
  {
    if q2 < q1 { ProductKeepsOrder(q2, q1, d); }
    if q2 == q1 { assert e1 == e2; }
  }
}
