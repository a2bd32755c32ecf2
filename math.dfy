/** The pieces of JavaScript's `Math` that the scorer uses, over exact reals. */
module Math {

  /** `Math.min` of two numbers. */
  function Min(a: real, b: real): (r: real)
    ensures r <= a && r <= b
    ensures r == a || r == b
  {
    if a <= b then a else b
  }

  /** `Math.max` of two numbers. */
  function Max(a: real, b: real): (r: real)
    ensures r >= a && r >= b
    ensures r == a || r == b
  {
    if a >= b then a else b
  }

  /** `Math.round`: the nearest integer, halves rounded towards positive infinity. */
  function Round(x: real): (r: int)
    ensures x - 0.5 < r as real <= x + 0.5
  {
    (x + 0.5).Floor
  }

  /** `Math.min` of four numbers, as in `Math.min(a, b, c, d)`. */
  function Min4(a: real, b: real, c: real, d: real): (r: real)
    ensures r <= a && r <= b && r <= c && r <= d
    ensures r == a || r == b || r == c || r == d
  {
    Min(Min(Min(a, b), c), d)
  }

  /** Scaling a non-negative number by at most 1 does not make it larger. */
  lemma ScaleAtMostOne(x: real, w: real)
    requires x <= 1.0 && w >= 0.0
    ensures x * w <= w
  {
  }

  /** The product of two positive numbers is positive. */
  lemma PositiveProduct(x: real, w: real)
    requires x > 0.0 && w > 0.0
    ensures x * w > 0.0
  {
  }

  /** A quotient whose numerator lies between `lo` and `hi` times a positive divisor lies in [lo, hi]. */
  lemma QuotientBounds(n: real, s: real, lo: real, hi: real)
    requires s > 0.0
    requires lo * s <= n <= hi * s
    ensures lo <= n / s <= hi
  {
    var q := n / s;
    assert q * s == n;
    assert (q - lo) * s >= 0.0;
    assert (hi - q) * s >= 0.0;
  }

  /** The product of two non-negative numbers is non-negative. */
  lemma NonNegativeProduct(x: real, w: real)
    requires x >= 0.0 && w >= 0.0
    ensures x * w >= 0.0
  {
  }

  /** The product of a non-positive and a non-negative number is non-positive. */
  lemma NonPositiveProduct(x: real, w: real)
    requires x <= 0.0 && w >= 0.0
    ensures x * w <= 0.0
  {
  }

  /** The signs of a product `x * w` with `w` non-negative, and its bound when `x` lies in [0, 1]. */
  lemma ProductSigns(x: real, w: real)
    ensures x > 0.0 && w > 0.0 ==> x * w > 0.0
    ensures x <= 0.0 && w >= 0.0 ==> x * w <= 0.0
    ensures 0.0 <= x <= 1.0 && w >= 0.0 ==> 0.0 <= x * w <= w
  {
    if x > 0.0 && w > 0.0 {
      PositiveProduct(x, w);
    }
    if x <= 0.0 && w >= 0.0 {
      NonPositiveProduct(x, w);
    }
    if 0.0 <= x <= 1.0 && w >= 0.0 {
      NonNegativeProduct(x, w);
      ScaleAtMostOne(x, w);
    }
  }
}
