/** The execute-time price check: how far a fresh price may move from the quote. */
module PriceDrift {
  import opened Decimal

  const DRIFT_TOLERANCE: real := 0.10

  /** Relative drift, computed at `p` digits: the difference is rounded, and so is
      the quotient.  A zero baseline means no drift. */
  function Drift(reprice: real, baseline: real, p: nat): real {
    if baseline == 0.0 then 0.0
    else Round(Abs(Round(reprice - baseline, p)) / baseline, p)
  }

  predicate Drifted(reprice: real, baseline: real) {
    Drift(reprice, baseline, PRECISION) > DRIFT_TOLERANCE
  }

  /** There is no drift to speak of from a quote that is not positive: the quotient by zero is
      skipped, and a negative quote makes it negative. */
  lemma NoDriftFromNothing(reprice: real, baseline: real, p: nat)
    requires baseline <= 0.0 && p > 0
    ensures Drift(reprice, baseline, p) <= 0.0
  {
    if baseline < 0.0 {
      var d := Abs(Round(reprice - baseline, p));
      NegativeQuotient(d, baseline);
      RoundKeepsSign(d / baseline, p);
    }
  }

  lemma NegativeQuotient(d: real, b: real)
    requires d >= 0.0 && b < 0.0
    ensures d / b <= 0.0
  {
    var q := d / b;
    assert q * b == d;
    if q > 0.0 { PositiveProduct(q, -b); }
  }

  /** A column quote clears every price exactly when it is not positive. */
  lemma OnlyPositiveQuotesDrift(b: int)
    requires b < TenToThe(12)
    ensures (forall r: int :: !Drifted(Scaled(r, 4), Scaled(b, 4))) <==> b <= 0
  {
    if b <= 0 {
      ScaledZero(4);
      ScaledMonotone(b, 0, 4);
      forall r: int ensures !Drifted(Scaled(r, 4), Scaled(b, 4)) {
        NoDriftFromNothing(Scaled(r, 4), Scaled(b, 4), PRECISION);
      }
    } else {
      DriftOfColumnPrices(3 * b, b);
      assert Drifted(Scaled(3 * b, 4), Scaled(b, 4));
    }
  }

  /** `n` units of `10^-s`: the value of a number column with `s` decimals. */
  function Scaled(n: int, s: nat): (x: real) {
    Shift(n as real, 0 - s)
  }

  lemma ScaledIsProduct(n: int, s: nat)
    ensures IsProduct(Scaled(n, s), n as real, Pow10(0 - s))
  {
    ShiftIsProduct(n as real, 0 - s);
  }

  lemma TenthOf(n: int, s: nat)
    ensures 10.0 * Scaled(n, s + 1) == Scaled(n, s)
  {
  }

  lemma {:induction false} TenTimesScaled(n: int, s: nat)
    ensures Scaled(10 * n, s) == 10.0 * Scaled(n, s)
  {
    if s > 0 { TenTimesScaled(n, s - 1); }
  }

  lemma ScaledMonotone(m: int, n: int, s: nat)
    ensures m <= n <==> Scaled(m, s) <= Scaled(n, s)
    ensures 0 < n <==> 0.0 < Scaled(n, s)
  {
    ShiftMonotone(m as real, n as real, 0 - s);
    ShiftMonotone(n as real, 0.0, 0 - s);
    ShiftZero(0 - s);
  }

  lemma ScaledAdds(m: int, n: int, s: nat)
    ensures Scaled(m, s) + Scaled(n, s) == Scaled(m + n, s)
  {
    ShiftAdds(m as real, n as real, 0 - s);
    assert m as real + n as real == (m + n) as real;
  }

  lemma ScaledDifference(m: int, n: int, s: nat)
    ensures Scaled(m, s) - Scaled(n, s) == Scaled(m - n, s)
  {
    ScaledAdds(m - n, n, s);
  }

  lemma ScaledRepresentable(n: int, s: nat, p: nat)
    requires -TenToThe(p) < n < TenToThe(p)
    ensures Representable(Scaled(n, s), n, 0 - s, p)
  {
    ScaledIsProduct(n, s);
  }

  /** Rounding a difference keeps it inside, or outside, any representable bound. */
  lemma {:induction false} RoundedDistance(x: real, w: real, n: int, k: int, p: nat)
    requires p > 0 && w > 0.0 && Representable(w, n, k, p)
    ensures Abs(x) <= w ==> Abs(Round(x, p)) <= w
    ensures Abs(x) >= w ==> Abs(Round(x, p)) >= w
  {
    assert Representable(-w, -n, k, p);
    RoundKeepsOrder(x, w, n, k, p);
    RoundKeepsOrder(x, -w, -n, k, p);
  }

  lemma Quotient(d: real, b: real, t: real)
    requires b > 0.0
    ensures d <= t * b ==> d / b <= t
    ensures d >= t * b ==> d / b >= t
  {
    var q := d / b;
    assert q * b == d;
    if q > t { PositiveProduct(q - t, b); assert (q - t) * b == q * b - t * b; }
    if q < t { PositiveProduct(t - q, b); assert (t - q) * b == t * b - q * b; }
  }

  /** Any price within a tenth of the quote clears, whatever digits it carries. */
  lemma {:induction false} WithinToleranceClears(reprice: real, b: int, s: nat, p: nat)
    requires 0 < b < TenToThe(p) && p > 0
    requires 10.0 * Abs(reprice - Scaled(b, s)) <= Scaled(b, s)
    ensures Drift(reprice, Scaled(b, s), p) <= DRIFT_TOLERANCE
  {
    var baseline, tenth := Scaled(b, s), Scaled(b, s + 1);
    ScaledMonotone(0, b, s);
    TenthOf(b, s);
    ScaledRepresentable(b, s + 1, p);
    RoundedDistance(reprice - baseline, tenth, b, 0 - (s + 1), p);
    var d := Abs(Round(reprice - baseline, p));
    QuotientWithin(d, baseline, tenth);
    TenthIsRepresentable(p);
    RoundKeepsOrder(d / baseline, 0.1, 1, -1, p);
  }

  lemma QuotientWithin(d: real, b: real, tenth: real)
    requires b > 0.0 && 10.0 * tenth == b && d <= tenth
    ensures d / b <= 0.1
  {
    Quotient(d, b, 0.1);
  }

  lemma TenthIsRepresentable(p: nat)
    requires p > 0
    ensures Representable(0.1, 1, -1, p)
  {
    assert TenToThe(p) == 10 * TenToThe(p - 1);
    assert Pow10(-1) == 0.1;
  }

  lemma JustAboveTenth(p: nat)
    requires p >= 2
    ensures Representable(0.1 + Pow10(0 - p), TenToThe(p - 1) + 1, 0 - p, p)
  {
    Pow10IsInteger(p - 1);
    Pow10Add(p - 1, 0 - p);
    assert p - 1 + (0 - p) == -1;
    assert Pow10(-1) == 0.1;
    assert TenToThe(p - 1) as real * Pow10(0 - p) == 0.1;
    assert (TenToThe(p - 1) + 1) as real * Pow10(0 - p) == TenToThe(p - 1) as real * Pow10(0 - p) + Pow10(0 - p);
  }

  lemma GapTimesQuote(b: real, u: real, g: real, bu: real, bg: real, bound: real)
    requires u > 0.0 && IsProduct(bu, b, u) && IsProduct(bg, b, g) && 10.0 * bg <= 1.0
    requires IsProduct(bound, 0.1 + g, 10.0 * bu)
    ensures bound <= bu + u
  {
    assert bound == bu + (10.0 * bg) * u;
    Scale(10.0 * bg, 1.0, u);
  }

  lemma GapTimesUnits(b: int, p: nat) returns (bg: real)
    requires p >= 1 && 0 < b < TenToThe(p - 1)
    ensures IsProduct(bg, b as real, Pow10(0 - p)) && 10.0 * bg <= 1.0
  {
    bg := b as real * Pow10(0 - p);
    Pow10IsInteger(p - 1);
    Pow10Add(p - 1, 0 - p);
    assert p - 1 + (0 - p) == -1;
    Pow10Next(-1);
    ProductMonotone(b as real, Pow10(p - 1), Pow10(0 - p), bg, Pow10(-1));
  }

  /** One unit past the tolerance outweighs the gap next to 0.1. */
  lemma GapIsSmall(b: int, s: nat, p: nat) returns (bound: real)
    requires p >= 2 && 0 < b < TenToThe(p - 1)
    ensures IsProduct(bound, 0.1 + Pow10(0 - p), Scaled(b, s)) && bound <= Scaled(b + 1, s + 1)
  {
    var g, quote, tenth := Pow10(0 - p), Scaled(b, s), Scaled(b, s + 1);
    bound := (0.1 + g) * quote;
    var bg := GapTimesUnits(b, p);
    ScaledIsProduct(b, s + 1);
    GapBound(b, s, g, quote, tenth, bg, bound);
  }

  lemma GapBound(b: int, s: nat, g: real, quote: real, tenth: real, bg: real, bound: real)
    requires quote == Scaled(b, s) && tenth == Scaled(b, s + 1) && IsProduct(tenth, b as real, Pow10(0 - (s + 1)))
    requires IsProduct(bound, 0.1 + g, quote) && IsProduct(bg, b as real, g) && 10.0 * bg <= 1.0
    ensures bound <= Scaled(b + 1, s + 1)
  {
    TenthOf(b, s);
    ScaledSum(b, s + 1);
    GapTimesQuote(b as real, Pow10(0 - (s + 1)), g, tenth, bg, bound);
  }

  lemma ScaledSum(n: int, s: nat)
    ensures Scaled(n + 1, s) == Scaled(n, s) + Pow10(0 - s)
  {
    ScaledAdds(n, 1, s);
    ScaledIsProduct(1, s);
  }

  lemma RoundedDistanceReaches(x: real, b: int, s: nat, p: nat)
    requires p >= 2 && 0 < b <= TenToThe(p - 1)
    requires 10.0 * Abs(x) >= Scaled(b, s)
    ensures Abs(Round(x, p)) >= Scaled(b, s + 1)
  {
    ScaledMonotone(0, b, s + 1);
    TenthOf(b, s);
    ScaledRepresentable(b, s + 1, p);
    RoundedDistance(x, Scaled(b, s + 1), b, 0 - (s + 1), p);
  }

  lemma QuotientReaches(d: real, b: real, t: real, bound: real)
    requires b > 0.0 && IsProduct(bound, t, b) && bound <= d
    ensures d / b >= t
  {
    Quotient(d, b, t);
  }

  /** A price a whole unit or more past a tenth of the quote is refused. */
  lemma {:induction false} BeyondToleranceDrifts(reprice: real, b: int, s: nat, p: nat)
    requires p >= 2 && 0 < b < TenToThe(p - 1)
    requires 10.0 * Abs(reprice - Scaled(b, s)) >= Scaled(b + 1, s)
    ensures Drift(reprice, Scaled(b, s), p) > DRIFT_TOLERANCE
  {
    var baseline := Scaled(b, s);
    ScaledMonotone(0, b, s);
    var d := Abs(Round(reprice - baseline, p));
    RoundedDistanceReaches(reprice - baseline, b + 1, s, p);
    var bound := GapIsSmall(b, s, p);
    QuotientReaches(d, baseline, 0.1 + Pow10(0 - p), bound);
    JustAboveTenth(p);
    RoundKeepsOrder(d / baseline, 0.1 + Pow10(0 - p), TenToThe(p - 1) + 1, 0 - p, p);
  }

  function Distance(m: int, n: int): nat {
    if m < n then n - m else m - n
  }

  /** The computed decision is the exact one: on whole units of `10^-s`, rounding to
      `p` digits never changes which side of a tenth the drift falls on. */
  lemma {:induction false} DriftDecisionIsExact(r: int, b: int, s: nat, p: nat)
    requires p >= 2 && 0 < b < TenToThe(p - 1)
    ensures Drift(Scaled(r, s), Scaled(b, s), p) > DRIFT_TOLERANCE <==> 10 * Distance(r, b) > b
  {
    TenToTheMonotone(p - 1, p + 1);
    AtLeastDouble(TenToThe(p - 1), 10 - b % 10);
    DistanceDecides(r, b, s, p);
  }

  lemma AtLeastDouble(t: nat, g: nat)
    requires g >= 1
    ensures 2 * t * g >= 2 * t
  {
  }

  /** At 28 digits this covers every quote a four-decimal, twelve-digit column holds. */
  lemma {:induction false} DriftOfColumnPrices(r: int, b: int)
    requires 0 < b < TenToThe(12)
    ensures Drifted(Scaled(r, 4), Scaled(b, 4)) <==> 10 * Distance(r, b) > b
  {
    TenToTheMonotone(12, PRECISION - 1);
    DriftDecisionIsExact(r, b, 4, PRECISION);
  }

  lemma {:induction false} TenToTheMonotone(m: nat, n: nat)
    requires m <= n
    ensures TenToThe(m) <= TenToThe(n)
  {
    if m < n { TenToTheMonotone(m, n - 1); }
  }

  // ---- exactly where precision runs out ----

  lemma EvenPower(p: nat)
    requires p >= 2
    ensures TenToThe(p - 1) % 2 == 0
  {
    assert TenToThe(p - 1) == 10 * TenToThe(p - 2);
  }

  lemma PowersOfPrecision(p: nat)
    requires p >= 2
    ensures IsProduct(TenToThe(p - 1) as real, 0.1, Pow10(p)) && IsProduct(0.1, TenToThe(p - 1) as real, Pow10(0 - p))
    ensures IsProduct(0.5, 0.5 * Pow10(0 - p), Pow10(p))
  {
    Pow10IsInteger(p - 1);
    Pow10Next(p - 1);
    Pow10Add(p - 1, 0 - p);
    assert p - 1 + (0 - p) == -1;
    assert Pow10(-1) == 0.1;
    Inverse(p);
    assert 0.5 * Pow10(0 - p) * Pow10(p) == 0.5 * (Pow10(p) * Pow10(0 - p));
  }

  /** The significand of a number from 0.1 on, counted from that of 0.1. */
  lemma SignificandPastTenth(q: real, p: nat)
    requires p >= 2 && 0.1 <= q < 1.0
    ensures IsProduct(Significand(q, p) - TenToThe(p - 1) as real, q - 0.1, Pow10(p))
    ensures IsProduct(Round(q, p), HalfEven(Significand(q, p)) as real, Pow10(0 - p))
  {
    assert Pow10(-1) == 0.1 && Pow10(0) == 1.0;
    MagnitudeIs(q, -1);
    RoundingProducts(q, p);
    assert p - 1 - (-1) == p && -1 - p + 1 == 0 - p;
    PowersOfPrecision(p);
    DifferenceProduct(q, 0.1, Pow10(p), Significand(q, p), TenToThe(p - 1) as real);
  }

  lemma HalfEvenFromEven(z: real, w: int)
    requires w % 2 == 0 && w as real <= z
    ensures HalfEven(z) > w <==> z > w as real + 0.5
    ensures HalfEven(z) >= w
  {
    HalfEvenNear(z, w);
  }

  /** A quotient is rounded to something above 0.1 exactly when it is more than half a unit
      above it: the tie goes down, to the even digit. */
  lemma RoundPastTenth(q: real, p: nat)
    requires p >= 2 && q >= 0.0
    ensures Round(q, p) > 0.1 <==> q > 0.1 + 0.5 * Pow10(0 - p)
  {
    TenthIsRepresentable(p);
    RoundKeepsOrder(q, 0.1, 1, -1, p);
    if 0.1 <= q < 1.0 {
      var w, z := TenToThe(p - 1), Significand(q, p);
      SignificandPastTenth(q, p);
      PowersOfPrecision(p);
      ProductMonotone(0.5 * Pow10(0 - p), q - 0.1, Pow10(p), 0.5, z - w as real);
      ProductMonotone(0.0, q - 0.1, Pow10(p), 0.0, z - w as real);
      EvenPower(p);
      HalfEvenFromEven(z, w);
      ProductMonotone(w as real, HalfEven(z) as real, Pow10(0 - p), 0.1, Round(q, p));
    } else if q >= 1.0 {
      HalfUnitIsSmall(p);
      assert Pow10(0) == 1.0;
      OneIsRepresentable(p);
      RoundKeepsOrder(q, 1.0, 1, 0, p);
    }
  }

  lemma OneIsRepresentable(p: nat)
    requires p > 0
    ensures Representable(1.0, 1, 0, p)
  {
    assert TenToThe(p) == 10 * TenToThe(p - 1);
  }

  lemma HalfUnitIsSmall(p: nat)
    requires p >= 2
    ensures 0.0 < 0.5 * Pow10(0 - p) < 0.5
  {
    Pow10Monotone(0 - p, -1);
    assert Pow10(-1) == 0.1;
  }

  /** The first whole distance beyond a tenth of `b`. */
  function FirstBeyond(b: nat): nat {
    b / 10 + 1
  }

  /** A number of at most `10^p` units keeps its place under rounding. */
  lemma UnitsKeepOrder(x: real, n: int, s: nat, p: nat)
    requires p > 0 && 0 < n <= TenToThe(p)
    ensures Abs(x) <= Scaled(n, s) ==> Abs(Round(x, p)) <= Scaled(n, s)
    ensures Abs(x) >= Scaled(n, s) ==> Abs(Round(x, p)) >= Scaled(n, s)
  {
    ScaledMonotone(0, n, s);
    ScaledIsProduct(n, s);
    if n < TenToThe(p) {
      RoundedDistance(x, Scaled(n, s), n, 0 - s, p);
    } else {
      assert TenToThe(p) == 10 * TenToThe(p - 1);
      var m := TenToThe(p - 1);
      Pow10Next(0 - s);
      TenTimesScaled(m, s);
      ScaledIsProduct(m, s);
      TenTimes(m as real, Pow10(0 - s), Scaled(m, s), Pow10(1 - s), Scaled(n, s));
      RoundedDistance(x, Scaled(n, s), TenToThe(p - 1), 1 - s, p);
    }
  }

  /** The quotient of two numbers of units is that of the numbers. */
  lemma QuotientOfUnits(d: real, n: int, b: int, s: nat)
    requires b > 0
    ensures Scaled(b, s) > 0.0
    ensures d >= Scaled(n, s) ==> d / Scaled(b, s) >= n as real / b as real
    ensures d <= Scaled(n, s) ==> d / Scaled(b, s) <= n as real / b as real
  {
    ScaledMonotone(0, b, s);
    ScaledIsProduct(n, s);
    ScaledIsProduct(b, s);
    var q := n as real / b as real;
    assert q * b as real == n as real;
    RatioTimesUnits(q, n as real, b as real, Pow10(0 - s), Scaled(n, s), Scaled(b, s));
    Quotient(d, Scaled(b, s), q);
  }

  lemma RatioTimesUnits(q: real, n: real, b: real, u: real, nu: real, bu: real)
    requires n == q * b && IsProduct(nu, n, u) && IsProduct(bu, b, u)
    ensures nu == q * bu
  {
    assert q * (b * u) == (q * b) * u;
  }

  /** The first distance beyond a tenth is more than half a unit beyond 0.1 exactly below
      this bound. */
  lemma FirstBeyondClearsHalf(b: int, p: nat)
    requires p >= 2 && b > 0
    ensures FirstBeyond(b) as real / b as real > 0.1 + 0.5 * Pow10(0 - p) <==> b < 2 * TenToThe(p - 1) * (10 - b % 10)
  {
    var d, g := FirstBeyond(b), 10 - b % 10;
    assert 10 * d == b + g;
    var q := d as real / b as real;
    assert q * b as real == d as real;
    var h, t := 0.5 * Pow10(0 - p), TenToThe(p - 1) as real;
    PowersOfPrecision(p);
    assert (q - 0.1) * (10.0 * b as real) == 10.0 * (q * b as real) - b as real == g as real;
    HalfUnits(h, Pow10(0 - p), b as real, t);
    ExcessAgainstHalf(q - 0.1, h, b as real, g as real, t);
  }

  lemma HalfUnits(h: real, ulp: real, b: real, t: real)
    requires h == 0.5 * ulp && IsProduct(0.1, t, ulp)
    ensures (h * (10.0 * b)) * (2.0 * t) == b
  {
    var k := t * ulp;
    assert (h * (10.0 * b)) * (2.0 * t) == (10.0 * b) * k;
    assert k == 0.1;
  }

  lemma ExcessAgainstHalf(x: real, h: real, b: real, g: real, t: real)
    requires b > 0.0 && t > 0.0 && x * (10.0 * b) == g && (h * (10.0 * b)) * (2.0 * t) == b
    ensures x > h <==> b < (2.0 * t) * g
  {
    var hb := h * (10.0 * b);
    ProductMonotone(h, x, 10.0 * b, hb, g);
    ProductMonotone(hb, g, 2.0 * t, b, (2.0 * t) * g);
  }

  /** The rounded decision is the exact one for every reprice. */
  ghost predicate DecisionExact(b: int, s: nat, p: nat) {
    forall r: int :: Drift(Scaled(r, s), Scaled(b, s), p) > DRIFT_TOLERANCE <==> 10 * Distance(r, b) > b
  }

  lemma DriftOfDistance(r: int, b: int, s: nat, p: nat) returns (x: real)
    requires b > 0
    ensures Abs(x) == Scaled(Distance(r, b), s) && Scaled(b, s) > 0.0
    ensures Drift(Scaled(r, s), Scaled(b, s), p) == Round(Abs(Round(x, p)) / Scaled(b, s), p)
  {
    x := Scaled(r, s) - Scaled(b, s);
    ScaledDifference(r, b, s);
    ScaledDifference(b, r, s);
    ScaledMonotone(r, b, s);
    ScaledMonotone(b, r, s);
    ScaledMonotone(0, b, s);
  }

  lemma DistanceDecides(r: int, b: int, s: nat, p: nat)
    requires p >= 2 && 0 < b < TenToThe(p + 1) && b < 2 * TenToThe(p - 1) * (10 - b % 10)
    ensures Drift(Scaled(r, s), Scaled(b, s), p) > DRIFT_TOLERANCE <==> 10 * Distance(r, b) > b
  {
    var d, first := Distance(r, b), FirstBeyond(b);
    var x := DriftOfDistance(r, b, s, p);
    var far := Abs(Round(x, p));
    QuotientNonNegative(far, Scaled(b, s));
    RoundPastTenth(far / Scaled(b, s), p);
    FirstBeyondClearsHalf(b, p);
    assert TenToThe(p + 1) == 10 * TenToThe(p);
    if 10 * d > b {
      ScaledMonotone(first, d, s);
      UnitsKeepOrder(x, first, s, p);
      QuotientOfUnits(far, first, b, s);
    } else {
      WithinTenth(x, d, b, s, p);
      HalfUnitIsSmall(p);
    }
  }

  lemma QuotientNonNegative(d: real, b: real)
    requires d >= 0.0 && b > 0.0
    ensures d / b >= 0.0
  {
    Quotient(d, b, 0.0);
  }

  lemma WithinTenth(x: real, d: nat, b: int, s: nat, p: nat)
    requires p >= 2 && 0 < b && 10 * d <= b && d <= TenToThe(p) && Abs(x) == Scaled(d, s) && Scaled(b, s) > 0.0
    ensures Abs(Round(x, p)) / Scaled(b, s) <= 0.1
  {
    if d > 0 {
      UnitsKeepOrder(x, d, s, p);
    } else {
      ScaledZero(s);
    }
    ScaledMonotone(10 * d, b, s);
    TenTimesScaled(d, s);
    Quotient(Abs(Round(x, p)), Scaled(b, s), 0.1);
  }

  lemma ScaledZero(s: nat)
    ensures Scaled(0, s) == 0.0
  {
    ShiftZero(0 - s);
  }

  /** At or past the bound the first distance beyond a tenth is let through. */
  lemma DistanceMissed(b: int, s: nat, p: nat)
    requires p >= 2 && 0 < b < TenToThe(p + 1) && b >= 2 * TenToThe(p - 1) * (10 - b % 10)
    ensures Drift(Scaled(b + FirstBeyond(b), s), Scaled(b, s), p) <= DRIFT_TOLERANCE
    ensures 10 * Distance(b + FirstBeyond(b), b) > b
  {
    var first := FirstBeyond(b);
    var x := DriftOfDistance(b + first, b, s, p);
    var far := Abs(Round(x, p));
    assert TenToThe(p + 1) == 10 * TenToThe(p);
    UnitsKeepOrder(x, first, s, p);
    QuotientOfUnits(far, first, b, s);
    QuotientNonNegative(far, Scaled(b, s));
    RoundPastTenth(far / Scaled(b, s), p);
    FirstBeyondClearsHalf(b, p);
  }

  /** For a quote of up to `p + 1` digits the decision at `p` digits is exact for every
      reprice if and only if the quote is below a bound that its last digit sets. */
  lemma DriftDecisionExactIff(b: int, s: nat, p: nat)
    requires p >= 2 && 0 < b < TenToThe(p + 1)
    ensures DecisionExact(b, s, p) <==> b < 2 * TenToThe(p - 1) * (10 - b % 10)
  {
    if b < 2 * TenToThe(p - 1) * (10 - b % 10) {
      forall r: int ensures Drift(Scaled(r, s), Scaled(b, s), p) > DRIFT_TOLERANCE <==> 10 * Distance(r, b) > b {
        DistanceDecides(r, b, s, p);
      }
    } else {
      DistanceMissed(b, s, p);
    }
  }

  /** A price as the `Numeric(12, 4)` column keeps it, in units of 0.0001. */
  function StoredUnits(price: real): int {
    HalfAway(price * 10000.0)
  }

  lemma FourDecimals(n: int)
    ensures Scaled(n, 4) == n as real / 10000.0
    ensures StoredUnits(Scaled(n, 4)) == n
  {
    assert Pow10(-1) == 0.1;
    assert Pow10(-2) == 0.01;
    assert Pow10(-3) == 0.001;
    assert Pow10(-4) == 0.0001;
  }

  /** Whatever digits a cleared price carries, the cost stored for it stays within
      a tenth of the quote, plus half a unit of column rounding. */
  lemma {:induction false} StoredCostNearQuote(reprice: real, b: int)
    requires 0 < b < TenToThe(12) && !Drifted(reprice, Scaled(b, 4))
    ensures 10 * Distance(StoredUnits(reprice), b) <= b + 5
    ensures reprice == Scaled(StoredUnits(reprice), 4) ==> 10 * Distance(StoredUnits(reprice), b) <= b
  {
    var c := StoredUnits(reprice);
    FourDecimals(b);
    FourDecimals(b + 1);
    FourDecimals(c);
    TenToTheMonotone(12, PRECISION - 1);
    if 10.0 * Abs(reprice - Scaled(b, 4)) >= Scaled(b + 1, 4) {
      BeyondToleranceDrifts(reprice, b, 4, PRECISION);
    }
    if reprice == Scaled(c, 4) {
      DriftOfColumnPrices(c, b);
    }
  }
}
