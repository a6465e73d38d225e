/** Signs of products, which the solver does not find among other terms. */
module Reals {
  lemma ProductSign(a: real, b: real)
    requires a >= 0.0 && b >= 0.0
    ensures a * b >= 0.0
  {
  }

  lemma ProductPositive(a: real, b: real)
    requires a > 0.0 && b > 0.0
    ensures a * b > 0.0
  {
  }

  /** A mixture lies between what is mixed. */
  lemma MixBounds(c: real, v: real, x: real, lo: real, hi: real)
    requires 0.0 <= c <= 1.0 && lo <= v <= hi && lo <= x <= hi
    ensures lo <= c * (x - v) + v <= hi
  {
    ProductSign(c, x - lo);
    ProductSign(1.0 - c, v - lo);
    ProductSign(c, hi - x);
    ProductSign(1.0 - c, hi - v);
    assert c * (x - v) + v - lo == c * (x - lo) + (1.0 - c) * (v - lo);
    assert hi - (c * (x - v) + v) == c * (hi - x) + (1.0 - c) * (hi - v);
  }

  lemma ScaledGap(q: real, d: real, range: real, gap: real, bound: real)
    requires q >= 0.0 && -range <= d <= range && gap == q * d && bound == q * range
    ensures -bound <= gap <= bound
  {
    ProductSign(q, range - d);
    ProductSign(q, range + d);
    assert q * (range - d) == q * range - q * d;
    assert q * (range + d) == q * range + q * d;
  }
}
