/**
 The decimal library under the amounts: a quotient or a product keeps twenty significant digits,
 halves up, and only then is cut to cents. A decimal is v / t, with t a power of ten.
 */
module Decimals {
  import opened Rounding
  import CreditNotes
  import DebitNotes
  import FiscalTotals

  /** The least number of twenty digits. */
  const VEINTE: nat := 10_000_000_000_000_000_000

  /** The power of ten, from t on, that brings a / b to twenty digits before the point. */
  function Subir(a: nat, b: nat, t: nat): (r: nat)
    requires a > 0 && t > 0 && a * t < 10 * (VEINTE * b)
    ensures VEINTE * b <= a * r < 10 * (VEINTE * b) && r >= t
    decreases VEINTE * b - a * t
  {
    if a * t >= VEINTE * b then t
    else
      assert a * (10 * t) == 10 * (a * t) && a * t > 0;
      Subir(a, b, 10 * t)
  }

  /** The power of ten, from u on, that leaves twenty digits of p. */
  function Bajar(p: nat, u: nat): (r: nat)
    requires u > 0 && VEINTE * u <= p
    ensures r >= u && VEINTE * r <= p < 10 * (VEINTE * r)
    decreases p - VEINTE * u
  {
    if p < 10 * (VEINTE * u) then u else Bajar(p, 10 * u)
  }

  /** The factor q / n to twenty digits, over the power of ten t. */
  function Factor(q: nat, n: nat, t: nat): (f: nat)
    requires n > 0 && VEINTE * n <= q * t < 10 * (VEINTE * n)
    ensures VEINTE <= f <= 10 * VEINTE
  {
    TwentyDigits(q * t, n);
    HalfUp(q * t, n)
  }

  lemma TwentyDigits(a: nat, n: nat)
    requires n > 0 && VEINTE * n <= a < 10 * (VEINTE * n)
    ensures VEINTE <= HalfUp(a, n) <= 10 * VEINTE
  {
    hide HalfUp;
    var r := HalfUp(a, n);
    HalfUpIsNearest(a, n);
    assert 2 * n * r == 2 * (n * r);
    assert n * (VEINTE - r) == VEINTE * n - n * r && n * (r - 10 * VEINTE) == n * r - 10 * (VEINTE * n);
    if r < VEINTE {
      MulAtLeast(n, VEINTE - r);
    } else if r > 10 * VEINTE {
      MulAtLeast(n, r - 10 * VEINTE);
    }
  }

  /** lineFromSaleDetail as computed: the factor, the product with x cents, each to twenty digits, and the cents. */
  function Prorrateado(x: nat, q: nat, n: nat): nat
    requires 0 < q <= n
  {
    if x == 0 then 0
    else
      var t := Subir(q, n, 1);
      var f := Factor(q, n, t);
      AtLeastTwenty(x, f);
      var u := Bajar(x * f, 1);
      HalfUp(HalfUp(x * f, u) * u, t)
  }

  lemma AtLeastTwenty(x: nat, f: nat)
    requires x > 0 && f >= VEINTE
    ensures VEINTE <= x * f
  {
    assert x * f == f + (x - 1) * f && (x - 1) * f >= 0;
  }

  /**
   Cutting v / t instead of a / b, when the two are so near that no half lies strictly between them:
   the same cent, but at an exact half the lower one if v / t falls short of it.
   */
  lemma CutsAlike(a: nat, b: nat, v: nat, t: nat)
    requires b > 0 && t > 0 && -(t as int) < 2 * b * v - 2 * a * t < t
    ensures var m := HalfUp(a, b);
            HalfUp(v, t) == if 2 * b * m - 2 * a == b && 2 * b * v < 2 * a * t then m - 1 else m
  {
    hide HalfUp;
    var m := HalfUp(a, b);
    HalfUpIsNearest(a, b);
    var e, d := 2 * b * m - 2 * a, 2 * b * v - 2 * a * t;
    if e == b && d < 0 {
      LowerCent(a, b, m);
      CutTo(a, b, v, t, m - 1, -(b as int), d);
    } else {
      CutTo(a, b, v, t, m, e, d);
    }
  }

  lemma LowerCent(a: int, b: int, m: int)
    ensures 2 * b * (m - 1) - 2 * a == 2 * b * m - 2 * a - 2 * b
  {
  }

  /** r is the cent of v / t when it is that of a / b, up to the distance of the two. */
  lemma CutTo(a: nat, b: nat, v: nat, t: nat, r: int, e: int, d: int)
    requires b > 0 && t > 0 && e == 2 * b * r - 2 * a && d == 2 * b * v - 2 * a * t && -(t as int) < d < t
    requires -(b as int) < e < b || (e == b && d >= 0) || (e == -(b as int) && d < 0)
    ensures HalfUp(v, t) == r
  {
    hide HalfUp;
    CutIdentity(a, b, v, t, r);
    assert t * b == b * t && t * -(b as int) == -(b * t);
    if -(b as int) < e < b { Inside(t, b, e); }
    Divide(b, t, 2 * t * r - 2 * v);
    NearestIsHalfUp(v, t, r);
  }

  lemma CutIdentity(a: int, b: int, v: int, t: int, r: int)
    ensures b * (2 * t * r - 2 * v) == t * (2 * b * r - 2 * a) - (2 * b * v - 2 * a * t)
  {
    assert b * (2 * t * r - 2 * v) == 2 * (b * (t * r)) - 2 * (b * v);
    assert t * (2 * b * r - 2 * a) == 2 * (t * (b * r)) - 2 * (t * a);
    assert b * (t * r) == t * (b * r) && t * a == a * t;
  }

  lemma Inside(t: nat, b: nat, e: int)
    requires -(b as int) < e < b
    ensures t - b * t <= t * e <= b * t - t
  {
    Bounded(t, e, b - 1);
    assert t * (b - 1) == b * t - t;
  }

  lemma Divide(b: nat, t: nat, x: int)
    requires b > 0 && -(b * t) < b * x <= b * t
    ensures -(t as int) < x <= t
  {
    assert b * (x - t) == b * x - b * t && b * (-x - t) == -(b * x) - b * t;
    if x > t {
      MulAtLeast(b, x - t);
    } else if -x > t {
      MulAtLeast(b, -x - t);
    }
  }

  /** Both roundings to twenty digits together stay within 11 parts in 10^19 of the amount. */
  lemma ProductIsNear(x: nat, n: nat, a: int, b: int)
    requires -(n as int) <= a <= n && -10 * (x as int) <= b <= 10 * x
    ensures -(11 * (n * x)) <= n * b + x * a <= 11 * (n * x)
  {
    Bounded(n, b, 10 * x);
    Bounded(x, a, n);
    assert n * (10 * x) == 10 * (n * x) && x * n == n * x;
  }

  lemma ErrorsAdd(x: int, q: int, n: int, t: int, f: int, z: int)
    ensures 2 * n * z - 2 * (x * q) * t == n * (2 * z - 2 * (x * f)) + x * (2 * n * f - 2 * (q * t))
  {
    assert n * (2 * z - 2 * (x * f)) == 2 * n * z - 2 * (n * (x * f));
    assert x * (2 * n * f - 2 * (q * t)) == 2 * (x * (n * f)) - 2 * (x * (q * t));
    assert n * (x * f) == x * (n * f) && x * (q * t) == (x * q) * t;
  }

  lemma Bounded(n: nat, b: int, k: int)
    requires -k <= b <= k
    ensures -(n * k) <= n * b <= n * k
  {
    assert n * (k - b) >= 0 && n * (k + b) >= 0;
    assert n * (k - b) == n * k - n * b && n * (k + b) == n * k + n * b;
  }

  /**
   The amount of a returned piece as the code computes it, for every amount and quantity whose product
   leaves the digits room: the exact part, to the nearest cent. Only at an exact half may it be the
   lower cent, when the twenty digits fall short of it.
   */
  lemma CodeProrates(x: nat, q: nat, n: nat)
    requires 0 < q <= n && 11 * (n * x) < VEINTE
    ensures var m, r := CreditNotes.Prorrata(x, q, n), Prorrateado(x, q, n);
            && (r == m || (r == m - 1 && 2 * n * m - 2 * (x * q) == n))
            && -(n as int) <= 2 * n * r - 2 * (x * q) <= n
            && (q == n ==> r == x)
  {
    hide HalfUp, Prorrateado;
    HalfUpIsNearest(x * q, n);
    if x == 0 {
      NearestIsHalfUp(0, n, 0);
      NothingIsProrated(q, n);
    } else {
      var t, f, u := Digits(x, q, n);
      TwoCuts(x, q, n, t, f, u);
      NearIsNearest(x, q, n, HalfUp(x * f, u) * u, t);
    }
  }

  lemma NothingIsProrated(q: nat, n: nat)
    requires 0 < q <= n
    ensures Prorrateado(0, q, n) == 0
  {
  }

  /** The scales and the factor of a proration. */
  lemma Digits(x: nat, q: nat, n: nat) returns (t: nat, f: nat, u: nat)
    requires 0 < q <= n && x > 0
    ensures t >= VEINTE && -(n as int) < 2 * n * f - 2 * (q * t) <= n && 0 < u <= 10 * x
    ensures Prorrateado(x, q, n) == HalfUp(HalfUp(x * f, u) * u, t)
  {
    hide HalfUp, Subir, Bajar, Factor;
    t := Subir(q, n, 1);
    f := Factor(q, n, t);
    AtLeastTwenty(x, f);
    u := Bajar(x * f, 1);
    FactorIsNear(q, n, t);
    DigitsLeft(x, f, u);
    ScaleIsLarge(q, n, t);
  }

  lemma TwoCuts(x: nat, q: nat, n: nat, t: nat, f: nat, u: nat)
    requires 0 < u <= 10 * x && -(n as int) < 2 * n * f - 2 * (q * t) <= n
    ensures -(11 * (n * x)) <= 2 * n * (HalfUp(x * f, u) * u) - 2 * (x * q) * t <= 11 * (n * x)
  {
    hide HalfUp;
    var v := HalfUp(x * f, u) * u;
    HalfUpIsNearest(x * f, u);
    assert 2 * u * HalfUp(x * f, u) == 2 * v;
    ErrorsAdd(x, q, n, t, f, v);
    ProductIsNear(x, n, 2 * n * f - 2 * (q * t), 2 * v - 2 * (x * f));
  }

  lemma FactorIsNear(q: nat, n: nat, t: nat)
    requires n > 0 && VEINTE * n <= q * t < 10 * (VEINTE * n)
    ensures -(n as int) < 2 * n * Factor(q, n, t) - 2 * (q * t) <= n
  {
    HalfUpIsNearest(q * t, n);
  }

  lemma NearIsNearest(x: nat, q: nat, n: nat, v: nat, t: nat)
    requires n > 0 && 11 * (n * x) < VEINTE <= t
    requires -(11 * (n * x)) <= 2 * n * v - 2 * (x * q) * t <= 11 * (n * x)
    ensures var m, r := HalfUp(x * q, n), HalfUp(v, t);
            && (r == m || (r == m - 1 && 2 * n * m - 2 * (x * q) == n))
            && -(n as int) <= 2 * n * r - 2 * (x * q) <= n
            && (q == n ==> r == x)
  {
    hide HalfUp;
    CutsAlike(x * q, n, v, t);
    var m := HalfUp(x * q, n);
    HalfUpIsNearest(x * q, n);
    assert 2 * n * (m as int - 1) == 2 * n * m - 2 * n;
    if q == n {
      HalfUpOfMultiple(x, n);
      assert 2 * n * x - 2 * (x * n) == 0;
    }
  }

  lemma ScaleIsLarge(q: nat, n: nat, t: nat)
    requires 0 < q <= n && VEINTE * n <= q * t
    ensures t >= VEINTE
  {
    assert (n - q) * t == n * t - q * t && (n - q) * t >= 0;
    assert n * (VEINTE - 1) == VEINTE * n - n;
    if t < VEINTE { Bounded(n, t, VEINTE - 1); }
  }

  lemma DigitsLeft(x: nat, f: nat, u: nat)
    requires f <= 10 * VEINTE && VEINTE * u <= x * f
    ensures u <= 10 * x
  {
    assert x * (10 * VEINTE - f) >= 0 && x * (10 * VEINTE - f) == VEINTE * (10 * x) - x * f;
  }

  lemma {:induction false} SubirIs(a: nat, b: nat, t: nat, r: nat, k: nat)
    requires a > 0 && t > 0 && r == t * Diez(k) && VEINTE * b <= a * r < 10 * (VEINTE * b)
    ensures a * t < 10 * (VEINTE * b) && Subir(a, b, t) == r
    decreases k
  {
    if k == 0 {
    } else {
      assert r == 10 * t * Diez(k - 1);
      SubirIs(a, b, 10 * t, r, k - 1);
    }
  }

  function Diez(k: nat): (r: nat)
    ensures r > 0
  {
    if k == 0 then 1 else 10 * Diez(k - 1)
  }

  /**
   It does happen: three of fourteen pieces of a line of 44.31 are exactly 9.495, and the code credits
   9.49 where halves up would be 9.50.
   */
  lemma HalfCanBeCutDown()
    ensures CreditNotes.Prorrata(4431, 3, 14) == 950 && Prorrateado(4431, 3, 14) == 949
  {
    hide HalfUp, Subir, Bajar, Factor;
    var t, f := 10 * VEINTE, 21_428_571_428_571_428_571;
    TwentyZeros();
    SubirIs(3, 14, 1, t, 20);
    ThreeFourteenths();
    ThreeDigitsLess(4431 * f);
    AtLeastTwenty(4431, f);
    NearestIsHalfUp(4431 * f, 1000, 94_949_999_999_999_999_998);
    NearestIsHalfUp(94_949_999_999_999_999_998_000, t, 949);
    NearestIsHalfUp(4431 * 3, 14, 950);
  }

  lemma TwentyZeros()
    ensures Diez(20) == 10 * VEINTE
  {
    assert Diez(5) == 100_000;
    assert Diez(10) == 10_000_000_000;
    assert Diez(15) == 1_000_000_000_000_000;
  }

  lemma ThreeFourteenths()
    ensures Factor(3, 14, 10 * VEINTE) == 21_428_571_428_571_428_571
  {
    NearestIsHalfUp(3 * (10 * VEINTE), 14, 21_428_571_428_571_428_571);
  }

  lemma ThreeDigitsLess(p: nat)
    requires 1000 * VEINTE <= p < 10_000 * VEINTE
    ensures Bajar(p, 1) == 1000
  {
    assert Bajar(p, 1000) == 1000;
    assert Bajar(p, 100) == Bajar(p, 1000);
    assert Bajar(p, 10) == Bajar(p, 100);
  }

  /** A taxed debit amount divided by 1.18 is never at a half, so the code's value is the exact one to the nearest cent. */
  lemma CodeSplits(importe: nat)
    requires 0 < importe && importe * 100 < VEINTE
    ensures var t := Subir(importe * 100, 118, 1);
            HalfUp(HalfUp(importe * 100 * t, 118), t) == DebitNotes.Partir(FiscalTotals.Gravada, importe).valor
  {
    hide HalfUp, Subir;
    var t := Subir(importe * 100, 118, 1);
    QuotientIsNear(importe * 100, t);
    CutsAlike(importe * 100, 118, HalfUp(importe * 100 * t, 118), t);
    NeverHalf(HalfUp(importe * 100, 118), importe);
  }

  lemma QuotientIsNear(a: nat, t: nat)
    requires a < VEINTE && VEINTE * 118 <= a * t
    ensures -(t as int) < 2 * 118 * HalfUp(a * t, 118) - 2 * a * t < t
  {
    HalfUpIsNearest(a * t, 118);
    assert 2 * a * t == 2 * (a * t);
    assert a * (118 - t) == a * 118 - a * t;
    if t <= 118 { Bounded(a, 118 - t, 118 - t); }
  }

  lemma NeverHalf(m: int, importe: int)
    ensures 2 * 118 * m - 2 * (importe * 100) != 118
  {
    assert 2 * 118 * m - 2 * (importe * 100) - 118 == 4 * (59 * m - 50 * importe) - 118;
    assert 118 % 4 == 2;
  }
}
