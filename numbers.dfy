/** Arithmetic helpers shared by the rules: JavaScript's Math.max/Math.min and
    two facts about products and floors of reals. */
module Numbers {

  function Max(a: real, b: real): real { if a >= b then a else b }
  function Min(a: real, b: real): real { if a <= b then a else b }
  function MaxInt(a: int, b: int): int { if a >= b then a else b }
  function MinInt(a: int, b: int): int { if a <= b then a else b }

  lemma MaxMonotone(floor: real, a: real, b: real)
    requires a <= b
    ensures Max(floor, a) <= Max(floor, b)
  {
  }

  /** Products of non-negative reals grow with both factors. */
  lemma ScaleAtLeast(a: real, a0: real, b: real, b0: real)
    requires 0.0 <= a0 <= a && 0.0 <= b0 <= b
    ensures a0 * b0 <= a * b
  {
    assert a * b - a0 * b0 == a * (b - b0) + b0 * (a - a0);
  }

  /** A non-negative factor keeps the order of the other. */
  lemma ScaleMonotone(base: real, m1: real, m2: real)
    requires base >= 0.0 && m1 <= m2
    ensures base * m1 <= base * m2
  {
    assert base * m2 - base * m1 == base * (m2 - m1);
  }

  /** A product of two positive reals is positive. */
  lemma ProductPositive(a: real, b: real)
    requires a > 0.0 && b > 0.0
    ensures a * b > 0.0
  {
  }

  /** A fraction in [0, 1) of a positive amount lies in [0, amount). */
  lemma FractionOf(u: real, v: real)
    requires v > 0.0 && 0.0 <= u < 1.0
    ensures 0.0 <= u * v < v
  {
    assert v - u * v == (1.0 - u) * v;
  }

  /** Dividing by a positive amount and multiplying back gives the dividend. */
  lemma DivideBack(v: real, p: real)
    requires p > 0.0
    ensures p * (v / p) == v
  {
  }

  /** Below o units' worth at price p means at most o units. */
  lemma QuotientAtMost(v: real, p: real, o: real)
    requires p > 0.0 && v <= o * p
    ensures v / p <= o
  {
    DivideBack(v, p);
    assert p * (o - v / p) == o * p - v;
    SignOfProduct(p, o - v / p);
  }

  /** A product with a positive factor has the sign of the other factor. */
  lemma SignOfProduct(w: real, z: real)
    requires w > 0.0 && w * z >= 0.0
    ensures z >= 0.0
  {
    if z < 0.0 {
      ProductPositive(w, -z);
    }
  }

  /** A mean of x and y weighted by a >= 0 and b > 0 lies between them. */
  lemma WeightedMeanBetween(x: real, a: real, y: real, b: real, m: real)
    requires a >= 0.0 && b > 0.0 && m * (a + b) == x * a + y * b
    ensures Min(x, y) <= m <= Max(x, y)
  {
    var lo, hi := Min(x, y), Max(x, y);
    var w := a + b;
    ScaleAtLeast(a, 0.0, x - lo, 0.0);
    ScaleAtLeast(b, 0.0, y - lo, 0.0);
    assert w * (m - lo) == a * (x - lo) + b * (y - lo);
    SignOfProduct(w, m - lo);
    ScaleAtLeast(a, 0.0, hi - x, 0.0);
    ScaleAtLeast(b, 0.0, hi - y, 0.0);
    assert w * (hi - m) == a * (hi - x) + b * (hi - y);
    SignOfProduct(w, hi - m);
  }

  /** The whole part of an amount scaled by a multiplier. */
  function ScaledFloor(base: real, m: real): (r: int)
    ensures r as real <= base * m < r as real + 1.0
  {
    (base * m).Floor
  }

  /** A larger multiplier of a non-negative base never gives a smaller whole part. */
  lemma ScaledFloorMonotone(base: real, m1: real, m2: real)
    requires base >= 0.0 && m1 <= m2
    ensures ScaledFloor(base, m1) <= ScaledFloor(base, m2)
  {
    ScaleMonotone(base, m1, m2);
    FloorMonotone(base * m1, base * m2);
  }

  lemma FloorMonotone(a: real, b: real)
    requires a <= b
    ensures a.Floor <= b.Floor
  {
  }
}
