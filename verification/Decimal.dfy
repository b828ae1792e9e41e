/** Decimal arithmetic as Python's `decimal` context performs it: every result is
    rounded to `p` significant digits, ties to even.  Decimal values are exact
    reals here; the only inexactness is the rounding that is written out. */
module Decimal {

  /** Significant digits of Python's default context. */
  const PRECISION: nat := 28

  function Pow10(k: int): (r: real)
    ensures r > 0.0
    decreases if k < 0 then -k else k
  {
    if k == 0 then 1.0
    else if k > 0 then 10.0 * Pow10(k - 1)
    else Pow10(k + 1) / 10.0
  }

  function Abs(x: real): real {
    if x < 0.0 then -x else x
  }

  /** The nearest integer, ties to even. */
  function HalfEven(z: real): int {
    var f := z.Floor;
    var rest := z - f as real;
    if rest < 0.5 then f
    else if rest > 0.5 then f + 1
    else if f % 2 == 0 then f
    else f + 1
  }

  /** The nearest integer, ties away from zero, as PostgreSQL rounds `numeric`. */
  function HalfAway(z: real): int {
    if z < 0.0 then -((0.5 - z).Floor) else (z + 0.5).Floor
  }

  /** `n` is the integer nearest to `z`; of two it is the even one. */
  predicate NearestEven(z: real, n: int) {
    -0.5 < n as real - z < 0.5 || ((n as real - z == 0.5 || n as real - z == -0.5) && n % 2 == 0)
  }

  /** `n` is the integer nearest to `z`; of two it is the one further from zero. */
  predicate NearestAway(z: real, n: int) {
    || -0.5 < n as real - z < 0.5
    || (n as real - z == 0.5 && z > 0.0)
    || (n as real - z == -0.5 && z < 0.0)
  }

  lemma HalfEvenIsNearest(z: real, n: int)
    ensures HalfEven(z) == n <==> NearestEven(z, n)
  {
    var f := z.Floor;
    assert f as real <= z < f as real + 1.0;
    if NearestEven(z, n) { assert n == f || n == f + 1; }
  }

  lemma HalfAwayIsNearest(z: real, n: int)
    ensures HalfAway(z) == n <==> NearestAway(z, n)
  {
  }

  /** The decimal exponent of the leading digit of a positive number. */
  function Magnitude(x: real): (e: int)
    requires x > 0.0
    ensures Pow10(e) <= x < Pow10(e + 1)
    decreases x < 1.0, if x < 1.0 then (1.0 / x).Floor else x.Floor
  {
    if x < 1.0 then
      Shrinks(x);
      var e := Magnitude(10.0 * x);
      Pow10Next(e - 1);
      Pow10Next(e);
      e - 1
    else if x < 10.0 then
      assert Pow10(1) == 10.0;
      0
    else
      var e := Magnitude(x / 10.0);
      Pow10Next(e);
      Pow10Next(e + 1);
      e + 1
  }

  lemma Shrinks(x: real)
    requires 0.0 < x < 1.0
    ensures 10.0 * x < 1.0 ==> 0 <= (1.0 / (10.0 * x)).Floor < (1.0 / x).Floor
  {
    if 10.0 * x < 1.0 {
      var y := 1.0 / (10.0 * x);
      assert y * (10.0 * x) == 1.0;
      assert y > 1.0 by {
        if y <= 1.0 { Scale(y, 1.0, 10.0 * x); }
      }
      assert 1.0 / x == 10.0 * y by {
        assert (10.0 * y) * x == 1.0;
      }
    }
  }

  lemma Scale(a: real, b: real, c: real)
    requires a <= b && c >= 0.0
    ensures a * c <= b * c
  {
  }

  lemma Pow10Next(k: int)
    ensures Pow10(k + 1) == 10.0 * Pow10(k)
  {
  }

  /** `p == x * y`, named so that the solver multiplies only where asked to. */
  ghost predicate IsProduct(p: real, x: real, y: real) {
    p == x * y
  }

  lemma TenTimes(x: real, y: real, product: real, y10: real, product10: real)
    requires y10 == 10.0 * y && product10 == 10.0 * product
    ensures IsProduct(product10, x, y10) <==> IsProduct(product, x, y)
  {
    assert x * y10 == 10.0 * (x * y);
  }

  lemma TimesOne(x: real)
    ensures IsProduct(x, x, 1.0)
  {
  }

  lemma {:induction false} Pow10Add(a: int, b: int)
    ensures IsProduct(Pow10(a + b), Pow10(a), Pow10(b))
    decreases if b < 0 then -b else b
  {
    if b > 0 {
      Pow10Add(a, b - 1);
      Pow10Next(a + b - 1);
      Pow10Next(b - 1);
      TenTimes(Pow10(a), Pow10(b - 1), Pow10(a + b - 1), Pow10(b), Pow10(a + b));
    } else if b < 0 {
      Pow10Add(a, b + 1);
      Pow10Next(a + b);
      Pow10Next(b);
      TenTimes(Pow10(a), Pow10(b), Pow10(a + b), Pow10(b + 1), Pow10(a + b + 1));
    } else {
      TimesOne(Pow10(a));
    }
  }

  lemma {:induction false} Pow10Monotone(a: int, b: int)
    requires a <= b
    ensures Pow10(a) <= Pow10(b)
    ensures a < b ==> 10.0 * Pow10(a) <= Pow10(b)
    decreases b - a
  {
    if a < b {
      Pow10Next(b - 1);
      Pow10Monotone(a, b - 1);
    }
  }

  function TenToThe(n: nat): (t: int)
    ensures t >= 1
  {
    if n == 0 then 1 else 10 * TenToThe(n - 1)
  }

  lemma {:induction false} Pow10IsInteger(n: nat)
    ensures Pow10(n) == TenToThe(n) as real
  {
    if n > 0 {
      Pow10IsInteger(n - 1);
    }
  }

  lemma HalfEvenNear(z: real, t: int)
    ensures z <= t as real ==> HalfEven(z) <= t
    ensures z >= t as real ==> HalfEven(z) >= t
    ensures -0.5 <= HalfEven(z) as real - z <= 0.5
    ensures z > t as real + 0.5 ==> HalfEven(z) > t
  {
  }

  lemma Rescale(x: real, u: real, v: real, z: real)
    requires u > 0.0 && v > 0.0 && IsProduct(1.0, u, v) && IsProduct(z, x, u)
    ensures IsProduct(x, z, v)
  {
    assert z * v == x * (u * v);
  }

  lemma Inverse(k: int)
    ensures IsProduct(1.0, Pow10(k), Pow10(-k))
  {
    Pow10Add(k, -k);
  }

  lemma PositiveProduct(x: real, y: real)
    requires x > 0.0 && y > 0.0
    ensures x * y > 0.0
  {
  }

  lemma ProductMonotone(a: real, b: real, c: real, ac: real, bc: real)
    requires c > 0.0 && IsProduct(ac, a, c) && IsProduct(bc, b, c)
    ensures a <= b <==> ac <= bc
    ensures a < b <==> ac < bc
  {
    assert bc - ac == (b - a) * c;
    if a < b { PositiveProduct(b - a, c); }
    if b < a { PositiveProduct(a - b, c); assert ac - bc == (a - b) * c; }
  }

  /** `x * 10^k`, one place at a time. */
  function Shift(x: real, k: int): real
    decreases if k < 0 then -k else k
  {
    if k == 0 then x
    else if k > 0 then 10.0 * Shift(x, k - 1)
    else Shift(x, k + 1) / 10.0
  }

  lemma {:induction false} ShiftIsProduct(x: real, k: int)
    ensures IsProduct(Shift(x, k), x, Pow10(k))
    decreases if k < 0 then -k else k
  {
    if k > 0 {
      ShiftIsProduct(x, k - 1);
      Pow10Next(k - 1);
      TenTimes(x, Pow10(k - 1), Shift(x, k - 1), Pow10(k), Shift(x, k));
    } else if k < 0 {
      ShiftIsProduct(x, k + 1);
      Pow10Next(k);
      TenTimes(x, Pow10(k), Shift(x, k), Pow10(k + 1), Shift(x, k + 1));
    } else {
      TimesOne(x);
    }
  }

  lemma {:induction false} ShiftMonotone(x: real, y: real, k: int)
    ensures x <= y <==> Shift(x, k) <= Shift(y, k)
    decreases if k < 0 then -k else k
  {
    if k > 0 { ShiftMonotone(x, y, k - 1); }
    if k < 0 { ShiftMonotone(x, y, k + 1); }
  }

  lemma {:induction false} ShiftAdds(x: real, y: real, k: int)
    ensures Shift(x, k) + Shift(y, k) == Shift(x + y, k)
    decreases if k < 0 then -k else k
  {
    if k > 0 { ShiftAdds(x, y, k - 1); }
    if k < 0 { ShiftAdds(x, y, k + 1); }
  }

  lemma ShiftZero(k: int)
    ensures Shift(0.0, k) == 0.0
  {
    ShiftAdds(0.0, 0.0, k);
  }

  /** `x` with its decimal point moved so that `p` digits stand before it. */
  function Significand(x: real, p: nat): (z: real)
    requires x > 0.0
  {
    Shift(x, p - 1 - Magnitude(x))
  }

  /** A positive number rounded to `p` significant digits. */
  function RoundPositive(x: real, p: nat): (y: real)
    requires x > 0.0
  {
    Shift(HalfEven(Significand(x, p)) as real, Magnitude(x) - p + 1)
  }

  lemma RoundingProducts(x: real, p: nat)
    requires x > 0.0
    ensures IsProduct(Significand(x, p), x, Pow10(p - 1 - Magnitude(x)))
    ensures IsProduct(RoundPositive(x, p), HalfEven(Significand(x, p)) as real, Pow10(Magnitude(x) - p + 1))
  {
    ShiftIsProduct(x, p - 1 - Magnitude(x));
    ShiftIsProduct(HalfEven(Significand(x, p)) as real, Magnitude(x) - p + 1);
  }

  /** What the context does to every exact result. */
  function Round(x: real, p: nat): real {
    if x == 0.0 then 0.0
    else if x > 0.0 then RoundPositive(x, p)
    else -RoundPositive(-x, p)
  }

  lemma SignificandRestores(x: real, p: nat)
    requires x > 0.0
    ensures IsProduct(x, Significand(x, p), Pow10(Magnitude(x) - p + 1))
  {
    RoundingProducts(x, p);
    var k := p - 1 - Magnitude(x);
    Inverse(k);
    assert -k == Magnitude(x) - p + 1;
    Rescale(x, Pow10(k), Pow10(-k), Significand(x, p));
  }

  lemma SignificandRange(x: real, p: nat)
    requires x > 0.0 && p > 0
    ensures Pow10(p - 1) <= Significand(x, p) < Pow10(p)
    ensures TenToThe(p - 1) <= HalfEven(Significand(x, p)) <= TenToThe(p)
  {
    RoundingProducts(x, p);
    var e, z := Magnitude(x), Significand(x, p);
    var k := p - 1 - e;
    Pow10Add(e, k);
    assert e + k == p - 1;
    ProductMonotone(Pow10(e), x, Pow10(k), Pow10(p - 1), z);
    Pow10Add(e + 1, k);
    assert e + 1 + k == p;
    ProductMonotone(x, Pow10(e + 1), Pow10(k), z, Pow10(p));
    Pow10IsInteger(p - 1);
    Pow10IsInteger(p);
    HalfEvenNear(z, TenToThe(p - 1));
    HalfEvenNear(z, TenToThe(p));
  }

  /** `t == n * 10^k` has at most `p` significant digits. */
  ghost predicate Representable(t: real, n: int, k: int, p: nat) {
    IsProduct(t, n as real, Pow10(k)) && -TenToThe(p) < n < TenToThe(p)
  }

  lemma MagnitudeBelow(t: real, k: int)
    requires 0.0 < t < Pow10(k)
    ensures Magnitude(t) < k
  {
    if Magnitude(t) >= k {
      Pow10Monotone(k, Magnitude(t));
    }
  }

  lemma Regroup(t: real, n: real, a: real, b: real, ab: real, z: real)
    requires IsProduct(t, n, a) && IsProduct(z, t, b) && IsProduct(ab, a, b)
    ensures IsProduct(z, n, ab)
  {
    assert z == n * (a * b);
  }

  /** A representable number's significand is a whole number. */
  lemma RepresentableSignificand(t: real, n: int, k: int, p: nat) returns (m: int)
    requires t > 0.0 && p > 0 && Representable(t, n, k, p)
    ensures Significand(t, p) == m as real
  {
    RoundingProducts(t, p);
    var e := Magnitude(t);
    ProductMonotone(n as real, 0.0, Pow10(k), t, 0.0);
    Pow10IsInteger(p);
    Pow10Add(p, k);
    ProductMonotone(n as real, Pow10(p), Pow10(k), t, Pow10(p + k));
    MagnitudeBelow(t, p + k);
    var up := k + (p - 1 - e);
    Pow10Add(k, p - 1 - e);
    Regroup(t, n as real, Pow10(k), Pow10(p - 1 - e), Pow10(up), Significand(t, p));
    Pow10IsInteger(up);
    m := WholeProduct(n, TenToThe(up), Significand(t, p));
  }

  lemma WholeProduct(n: int, u: int, z: real) returns (m: int)
    requires IsProduct(z, n as real, u as real)
    ensures z == m as real
  {
    m := n * u;
  }

  lemma MagnitudeIs(t: real, e: int)
    requires t > 0.0 && Pow10(e) <= t < Pow10(e + 1)
    ensures Magnitude(t) == e
  {
    MagnitudeBelow(t, e + 1);
    if Magnitude(t) < e {
      Pow10Monotone(Magnitude(t) + 1, e);
    }
  }

  /** Rounding a positive number never carries it past a representable one. */
  lemma RoundPositiveKeepsOrder(x: real, t: real, n: int, k: int, p: nat)
    requires x > 0.0 && t > 0.0 && p > 0 && Representable(t, n, k, p)
    ensures x <= t ==> RoundPositive(x, p) <= t
    ensures x >= t ==> RoundPositive(x, p) >= t
  {
    RoundingProducts(x, p);
    RoundingProducts(t, p);
    var e := Magnitude(x);
    var ulp := Pow10(e - p + 1);
    var m := HalfEven(Significand(x, p));
    SignificandRange(x, p);
    if Pow10(e) <= t < Pow10(e + 1) {
      MagnitudeIs(t, e);
      var whole := RepresentableSignificand(t, n, k, p);
      SignificandRestores(x, p);
      SignificandRestores(t, p);
      ProductMonotone(Significand(x, p), Significand(t, p), ulp, x, t);
      ProductMonotone(Significand(t, p), Significand(x, p), ulp, t, x);
      HalfEvenNear(Significand(x, p), whole);
      ProductMonotone(m as real, Significand(t, p), ulp, RoundPositive(x, p), t);
      ProductMonotone(Significand(t, p), m as real, ulp, t, RoundPositive(x, p));
    } else if t < Pow10(e) {
      Pow10IsInteger(p - 1);
      Pow10Add(p - 1, e - p + 1);
      ProductMonotone(Pow10(p - 1), m as real, ulp, Pow10(e), RoundPositive(x, p));
    } else {
      Pow10IsInteger(p);
      Pow10Add(p, e - p + 1);
      ProductMonotone(m as real, Pow10(p), ulp, RoundPositive(x, p), Pow10(e + 1));
    }
  }

  lemma RoundPositiveIsPositive(x: real, p: nat)
    requires x > 0.0 && p > 0
    ensures RoundPositive(x, p) > 0.0
  {
    RoundingProducts(x, p);
    SignificandRange(x, p);
    PositiveProduct(HalfEven(Significand(x, p)) as real, Pow10(Magnitude(x) - p + 1));
  }

  lemma NegatedRepresentable(t: real, n: int, k: int, p: nat)
    requires Representable(t, n, k, p)
    ensures Representable(-t, -n, k, p)
  {
    NegatedProduct(t, n as real, Pow10(k));
  }

  lemma NegatedProduct(p: real, x: real, y: real)
    requires IsProduct(p, x, y)
    ensures IsProduct(-p, -x, y)
  {
    assert (-x) * y == -(x * y);
  }

  /** Rounding never carries a number past a representable one, in either direction. */
  lemma {:induction false} RoundKeepsOrder(x: real, t: real, n: int, k: int, p: nat)
    requires p > 0 && Representable(t, n, k, p)
    ensures x <= t ==> Round(x, p) <= t
    ensures x >= t ==> Round(x, p) >= t
  {
    RoundKeepsSign(x, p);
    if x > 0.0 && t > 0.0 {
      RoundPositiveKeepsOrder(x, t, n, k, p);
    } else if x < 0.0 && t < 0.0 {
      NegatedRepresentable(t, n, k, p);
      RoundPositiveKeepsOrder(-x, -t, -n, k, p);
    }
  }

  lemma {:induction false} RoundKeepsSign(x: real, p: nat)
    requires p > 0
    ensures (x > 0.0 <==> Round(x, p) > 0.0) && (x < 0.0 <==> Round(x, p) < 0.0)
  {
    if x > 0.0 { RoundPositiveIsPositive(x, p); }
    if x < 0.0 { RoundPositiveIsPositive(-x, p); }
  }

  /** Rounding moves a number by at most half a unit in its last place. */
  lemma RoundError(x: real, p: nat)
    requires x > 0.0
    ensures Abs(Round(x, p) - x) <= 0.5 * Pow10(Magnitude(x) - p + 1)
  {
    RoundingProducts(x, p);
    SignificandRestores(x, p);
    HalfEvenError(Significand(x, p));
    ScaledError(HalfEven(Significand(x, p)) as real, Significand(x, p), Pow10(Magnitude(x) - p + 1),
                RoundPositive(x, p), x);
  }

  /** Rounding to `p` digits: in units of the last of them the result is the nearest integer,
      ties to even, and negative numbers round as their opposites do. */
  lemma RoundIsNearest(x: real, p: nat) returns (z: real, n: int)
    requires x > 0.0 && p > 0
    ensures IsProduct(x, z, Pow10(Magnitude(x) - p + 1)) && Pow10(p - 1) <= z < Pow10(p)
    ensures NearestEven(z, n) && IsProduct(Round(x, p), n as real, Pow10(Magnitude(x) - p + 1))
    ensures Round(-x, p) == -Round(x, p)
  {
    z := Significand(x, p);
    n := HalfEven(z);
    RoundingProducts(x, p);
    SignificandRestores(x, p);
    SignificandRange(x, p);
    HalfEvenIsNearest(z, n);
  }

  lemma HalfEvenError(z: real)
    ensures -0.5 <= HalfEven(z) as real - z <= 0.5
  {
  }

  lemma ScaledError(m: real, z: real, ulp: real, y: real, x: real)
    requires ulp > 0.0 && IsProduct(y, m, ulp) && IsProduct(x, z, ulp) && -0.5 <= m - z <= 0.5
    ensures Abs(y - x) <= 0.5 * ulp
  {
    DifferenceProduct(m, z, ulp, y, x);
    DifferenceProduct(z, m, ulp, x, y);
    HalfBound(m - z, ulp, y - x);
    HalfBound(z - m, ulp, x - y);
  }

  lemma HalfBound(d: real, ulp: real, p: real)
    requires ulp > 0.0 && IsProduct(p, d, ulp) && d <= 0.5
    ensures p <= 0.5 * ulp
  {
    Scale(d, 0.5, ulp);
  }

  lemma DifferenceProduct(a: real, b: real, c: real, ac: real, bc: real)
    requires IsProduct(ac, a, c) && IsProduct(bc, b, c)
    ensures IsProduct(ac - bc, a - b, c)
  {
    assert (a - b) * c == a * c - b * c;
  }

  /** Two numbers of one magnitude, less than half a unit apart, one of them whole on their
      grid: both significands round to that one's. */
  lemma SignificandRoundsTo(x: real, t: real, whole: int, p: nat)
    requires p > 0 && x > 0.0 && t > 0.0 && Magnitude(x) == Magnitude(t) && Significand(t, p) == whole as real
    requires Abs(x - t) < 0.5 * Pow10(Magnitude(t) - p + 1)
    ensures HalfEven(Significand(x, p)) == whole
  {
    RoundingProducts(x, p);
    RoundingProducts(t, p);
    var e := Magnitude(t);
    Inverse(p - 1 - e);
    assert -(p - 1 - e) == e - p + 1;
    if t <= x {
      SignificandGap(x, t, Pow10(p - 1 - e), Pow10(e - p + 1), Significand(x, p), whole as real);
    } else {
      SignificandGap(t, x, Pow10(p - 1 - e), Pow10(e - p + 1), whole as real, Significand(x, p));
    }
    HalfEvenNear(Significand(x, p), whole);
  }

  /** A number less than half a unit away from a representable one of its own magnitude is
      rounded to it. */
  lemma {:induction false} RoundsTo(x: real, t: real, n: int, k: int, p: nat)
    requires p > 0 && t > 0.0 && Representable(t, n, k, p)
    requires Pow10(Magnitude(t)) <= x < Pow10(Magnitude(t) + 1)
    requires Abs(x - t) < 0.5 * Pow10(Magnitude(t) - p + 1)
    ensures Round(x, p) == t
  {
    var e := Magnitude(t);
    MagnitudeIs(x, e);
    var whole := RepresentableSignificand(t, n, k, p);
    SignificandRoundsTo(x, t, whole, p);
    RoundingProducts(x, p);
    SignificandRestores(t, p);
    SameProduct(RoundPositive(x, p), t, whole as real, Pow10(e - p + 1));
  }

  lemma SameProduct(y: real, t: real, m: real, u: real)
    requires IsProduct(y, m, u) && IsProduct(t, m, u)
    ensures y == t
  {
  }

  lemma SignificandGap(x: real, t: real, up: real, ulp: real, z: real, w: real)
    requires up > 0.0 && ulp > 0.0 && IsProduct(1.0, up, ulp)
    requires IsProduct(z, x, up) && IsProduct(w, t, up)
    requires 0.0 <= x - t < 0.5 * ulp
    ensures 0.0 <= z - w < 0.5
  {
    var gap := x - t;
    assert z - w == gap * up;
    ProductMonotone(0.0, gap, up, 0.0, gap * up);
    HalfProduct(up, ulp);
    ProductMonotone(gap, 0.5 * ulp, up, gap * up, 0.5);
  }

  lemma HalfProduct(up: real, ulp: real)
    requires IsProduct(1.0, up, ulp)
    ensures IsProduct(0.5, 0.5 * ulp, up)
  {
    assert 0.5 * ulp * up == 0.5 * (up * ulp);
  }
}
