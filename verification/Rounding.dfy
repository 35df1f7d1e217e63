/** Rounding of non-negative rationals n / d to whole cents, halves upwards. */
module Rounding {

  function HalfUp(n: nat, d: nat): nat
    requires d > 0
  {
    (2 * n + d) / (2 * d)
  }

  /** The result is the nearest integer, and the upper one at a half. */
  lemma HalfUpIsNearest(n: nat, d: nat)
    requires d > 0
    ensures -(d as int) < 2 * d * HalfUp(n, d) - 2 * n <= d
  {
    var q, k := HalfUp(n, d), 2 * d;
    assert 2 * n + d == k * q + (2 * n + d) % k;
  }

  lemma MulAtLeast(d: nat, x: int)
    requires x >= 1
    ensures d * x >= d
  {
    assert d * (x - 1) >= 0;
  }

  /** Nothing else is the nearest integer. */
  lemma NearestIsHalfUp(n: nat, d: nat, r: int)
    requires d > 0 && -(d as int) < 2 * d * r - 2 * n <= d
    ensures HalfUp(n, d) == r
  {
    HalfUpIsNearest(n, d);
    var x := HalfUp(n, d) - r;
    assert 2 * d * x == 2 * d * HalfUp(n, d) - 2 * d * r;
    assert 2 * d * -x == -(2 * d * x);
    if x >= 1 {
      MulAtLeast(2 * d, x);
    } else if x <= -1 {
      MulAtLeast(2 * d, -x);
    }
  }

  lemma HalfUpOfMultiple(x: nat, d: nat)
    requires d > 0
    ensures HalfUp(x * d, d) == x
  {
    assert 2 * d * x == 2 * (x * d);
    NearestIsHalfUp(x * d, d, x);
  }

  /** Two parts rounded on their own are within one of their sum rounded. */
  lemma RoundedPartsAdd(a: nat, b: nat, d: nat)
    requires d > 0
    ensures -1 <= HalfUp(a, d) + HalfUp(b, d) - HalfUp(a + b, d) <= 1
  {
    hide HalfUp;
    HalfUpIsNearest(a, d);
    HalfUpIsNearest(b, d);
    HalfUpIsNearest(a + b, d);
    ThreeErrors(HalfUp(a, d), HalfUp(b, d), HalfUp(a + b, d), 2 * a, 2 * b, d);
  }

  lemma ThreeErrors(x: int, y: int, z: int, a: int, b: int, d: nat)
    requires d > 0
    requires -(d as int) < 2 * d * x - a <= d && -(d as int) < 2 * d * y - b <= d && -(d as int) < 2 * d * z - (a + b) <= d
    ensures -1 <= x + y - z <= 1
  {
    assert 2 * d * (x + y - z) == 2 * d * x + 2 * d * y - 2 * d * z;
    WithinHalves(d, x + y - z, 3);
  }

  /** An integer whose multiple by 2d stays within k times d is within k halves. */
  lemma WithinHalves(d: nat, x: int, k: nat)
    requires d > 0 && -(k * d) <= 2 * d * x <= k * d
    ensures -(k as int) <= 2 * x <= k
  {
    assert d * (2 * x - k) == 2 * d * x - k * d;
    assert d * (-2 * x - k) == -(2 * d * x) - k * d;
    if 2 * x - k >= 1 {
      MulAtLeast(d, 2 * x - k);
    } else if -2 * x - k >= 1 {
      MulAtLeast(d, -2 * x - k);
    }
  }
}
