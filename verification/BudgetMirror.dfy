/** The preview gates against the database's budget check they mirror. */
module BudgetMirror {
  import opened Prelude
  import opened Calendar
  import opened Decimal
  import opened PriceDrift
  import opened Cost

  /** Decimals up to which the Python mirror and the database agree on every input. */
  const MIRROR_DECIMALS: nat := 18

  lemma {:induction false} Rescaled(n: int, s: nat, k: nat)
    ensures Scaled(n * TenToThe(k), s + k) == Scaled(n, s)
    decreases k
  {
    if k > 0 {
      Rescaled(n, s, k - 1);
      TenthOf(n * TenToThe(k - 1), s + k - 1);
      assert n * TenToThe(k) == 10 * (n * TenToThe(k - 1));
      TenTimesScaled(n * TenToThe(k - 1), s + k);
    }
  }

  lemma SixteenDigits()
    ensures TenToThe(16) == 10000000000000000 && TenToThe(12) == 1000000000000
    ensures TenToThe(28) == TenToThe(12) * TenToThe(16)
  {
    assert TenToThe(4) == 10000;
    assert TenToThe(8) == 100000000;
    assert TenToThe(20) == TenToThe(16) * 10000;
    assert TenToThe(24) == TenToThe(20) * 10000;
  }

  /** With at most 18 decimals, rounding to 28 digits cannot hide which side of a
      `Numeric(12, 2)` bound a number is on. */
  lemma BoundSurvivesRounding(n: int, cap: int)
    requires -TenToThe(12) < cap < TenToThe(12)
    ensures Round(Scaled(n, 18), PRECISION) <= Scaled(cap, 2) <==> Scaled(n, 18) <= Scaled(cap, 2)
    ensures Round(Scaled(n, 18), PRECISION) >= Scaled(cap, 2) <==> Scaled(n, 18) >= Scaled(cap, 2)
  {
    SixteenDigits();
    var t := cap * TenToThe(16);
    Rescaled(cap, 2, 16);
    ScaledRepresentable(t, 18, PRECISION);
    ScaledRepresentable(t + 1, 18, PRECISION);
    ScaledRepresentable(t - 1, 18, PRECISION);
    RoundKeepsOrder(Scaled(n, 18), Scaled(t, 18), t, -18, PRECISION);
    RoundKeepsOrder(Scaled(n, 18), Scaled(t + 1, 18), t + 1, -18, PRECISION);
    RoundKeepsOrder(Scaled(n, 18), Scaled(t - 1, 18), t - 1, -18, PRECISION);
    ScaledMonotone(n, t, 18);
    ScaledMonotone(t, n, 18);
    ScaledMonotone(n, t - 1, 18);
    ScaledMonotone(t + 1, n, 18);
    ScaledMonotone(t + 1, t, 18);
    ScaledMonotone(t, t - 1, 18);
  }

  /** A balance as the caller passes it: absent, or with `s` decimals. */
  function BalanceAt(balance: Option<int>, s: nat): Option<real> {
    if balance.Some? then Some(Scaled(balance.value, s)) else None
  }

  /** The gates report what the database would decide. */
  ghost predicate MirrorAgrees(budget: Option<Budget>, spent: int, estimate: real, balance: Option<real>) {
    forall gates: seq<Gate> :: GatesFor(gates, budget, spent, estimate, balance) ==>
      (AllPass(gates) <==> Decide(budget, spent, estimate, balance) == Accepted)
  }

  lemma ExactGatesDecide(gates: seq<Gate>, b: Budget, spent: int, estimate: real, balance: Option<real>,
                         run: bool, month: bool, floor: Option<bool>)
    requires Lists(gates, run, month, floor)
    requires run <==> !(estimate > Cents(b.perRunCap))
    requires month <==> !(b.hardStop && TenThousandths(spent) + estimate > Cents(b.monthlyCap))
    requires floor.Some? <==> balance.Some?
    requires balance.Some? ==> (floor.value <==> !(balance.value - estimate < Cents(b.balanceFloor)))
    ensures AllPass(gates) <==> Decide(Some(b), spent, estimate, balance) == Accepted
  {
    assert gates[0].pass == run && gates[1].pass == month;
    if floor.Some? { assert gates[2].pass == floor.value; }
  }

  /** A preview passes exactly when the budget check would accept the same cost and
      balance: missing budget, soft stop and absent balance included. */
  lemma PassesIffAccepted(budget: Option<Budget>, spent: int, estimate: int, balance: Option<int>)
    requires budget.Some? ==> FitsColumns(budget.value)
    ensures MirrorAgrees(budget, spent, Scaled(estimate, 18), BalanceAt(balance, 18))
  {
    var est, bal := Scaled(estimate, 18), BalanceAt(balance, 18);
    forall gates: seq<Gate> | GatesFor(gates, budget, spent, est, bal)
      ensures AllPass(gates) <==> Decide(budget, spent, est, bal) == Accepted
    {
      if budget.Some? {
        var b := budget.value;
        var n := SumOnGrid(spent, estimate);
        MonthGateIsExact(b, spent, est, n);
        if balance.Some? {
          ScaledDifference(balance.value, estimate, 18);
          FloorGateIsExact(b, bal.value, est, balance.value - estimate);
        }
        ExactGatesDecide(gates, b, spent, est, bal, RunGate(b, est), MonthGate(b, TenThousandths(spent), est),
                         if bal.Some? then Some(FloorGate(b, bal.value, est)) else None);
      } else {
        assert !gates[0].pass;
      }
    }
  }

  lemma ColumnValues(n: int)
    ensures Scaled(n, 4) == TenThousandths(n) && Scaled(n, 2) == Cents(n)
  {
    FourDecimals(n);
    assert Pow10(-1) == 0.1;
    assert Pow10(-2) == 0.01;
  }

  /** A sum or difference on the 18-decimal grid, rounded, is on the same side of a cent
      bound as the exact one. */
  lemma GateOnGrid(x: real, n: int, bound: int)
    requires x == Scaled(n, MIRROR_DECIMALS) && -TenToThe(12) < bound < TenToThe(12)
    ensures Round(x, PRECISION) <= Cents(bound) <==> x <= Cents(bound)
    ensures Round(x, PRECISION) >= Cents(bound) <==> x >= Cents(bound)
  {
    ColumnValues(bound);
    BoundSurvivesRounding(n, bound);
  }

  lemma SumOnGrid(spent: int, estimate: int) returns (n: int)
    ensures TenThousandths(spent) + Scaled(estimate, MIRROR_DECIMALS) == Scaled(n, MIRROR_DECIMALS)
  {
    Rescaled(spent, 4, 14);
    ScaledAdds(spent * TenToThe(14), estimate, MIRROR_DECIMALS);
    ColumnValues(spent);
    n := spent * TenToThe(14) + estimate;
  }

  lemma {:induction false} MonthGateIsExact(b: Budget, spent: int, estimate: real, n: int)
    requires FitsColumns(b) && TenThousandths(spent) + estimate == Scaled(n, MIRROR_DECIMALS)
    ensures MonthGate(b, TenThousandths(spent), estimate)
       <==> !(b.hardStop && TenThousandths(spent) + estimate > Cents(b.monthlyCap))
  {
    GateOnGrid(TenThousandths(spent) + estimate, n, b.monthlyCap);
  }

  lemma {:induction false} FloorGateIsExact(b: Budget, balance: real, estimate: real, n: int)
    requires FitsColumns(b) && balance - estimate == Scaled(n, MIRROR_DECIMALS)
    ensures FloorGate(b, balance, estimate) <==> !(balance - estimate < Cents(b.balanceFloor))
  {
    GateOnGrid(balance - estimate, n, b.balanceFloor);
  }

  /** The mirror agrees with the database on all budgets, spends, costs and balances
      of `s` decimals. */
  ghost predicate MirrorExactAt(s: nat) {
    forall budget: Option<Budget>, spent: int, estimate: int, balance: Option<int> ::
      (budget.Some? ==> FitsColumns(budget.value)) ==>
      MirrorAgrees(budget, spent, Scaled(estimate, s), BalanceAt(balance, s))
  }

  /** One more decimal is too many: with the month spent up to the largest cap, a cost
      of 10^-19 is rounded away by the preview, which passes, and refused by the database. */
  lemma {:induction false} MirrorFailsAtNineteen(s: nat)
    requires s > MIRROR_DECIMALS
    ensures !MirrorExactAt(s)
  {
    var estimate := TenToThe(s - 19);
    Rescaled(1, 19, s - 19);
    var budget, spent := MirrorMisses(Scaled(estimate, s));
    assert !MirrorAgrees(Some(budget), spent, Scaled(estimate, s), BalanceAt(None, s));
  }

  lemma MirrorMisses(est: real) returns (budget: Budget, spent: int)
    requires est == Scaled(1, 19)
    ensures FitsColumns(budget) && !MirrorAgrees(Some(budget), spent, est, None)
  {
    var cap := TenToThe(12) - 1;
    budget, spent := Budget(0, 0, cap, 100, 0, true), 100 * cap;
    SixteenDigits();
    SmallestIsPositive(est);
    RoundsAwayAtCap(cap, est);
    RoundedAwayDisagrees(budget, spent, est);
  }

  /** At a reached monthly cap an estimate that the gates' sum rounds away passes them; the
      database adds it exactly and refuses. */
  lemma RoundedAwayDisagrees(budget: Budget, spent: int, est: real)
    requires budget.hardStop && spent == 100 * budget.monthlyCap
    requires 0.0 < est <= Cents(budget.perRunCap)
    requires Round(Cents(budget.monthlyCap) + est, PRECISION) == Cents(budget.monthlyCap)
    ensures !MirrorAgrees(Some(budget), spent, est, None)
  {
    var gates := [Gate(PerRunCap, true), Gate(MonthlyCap, true)];
    assert GatesFor(gates, Some(budget), spent, est, None);
    assert AllPass(gates);
    assert TenThousandths(spent) == Cents(budget.monthlyCap);
    assert Decide(Some(budget), spent, est, None) == OverMonthlyCap;
  }

  lemma SmallestIsPositive(est: real)
    requires est == Scaled(1, 19)
    ensures 0.0 < est <= 0.001
  {
    ScaledMonotone(0, 1, 19);
    ScaledIsProduct(1, 19);
    Pow10Monotone(-19, -3);
    assert Pow10(-1) == 0.1;
    assert Pow10(-2) == 0.01;
  }

  lemma LargestCap(cap: int, t: real)
    requires cap == TenToThe(12) - 1 && t == Cents(cap)
    ensures t - 0.001 > Pow10(9) && t + 0.001 < Pow10(10) && Magnitude(t) == 9
    ensures Representable(t, cap, -2, PRECISION)
  {
    ColumnValues(cap);
    SixteenDigits();
    TenToTheMonotone(12, PRECISION);
    ScaledRepresentable(cap, 2, PRECISION);
    Pow10IsInteger(9);
    Pow10IsInteger(10);
    assert TenToThe(9) == 1000000000 && TenToThe(10) == 10000000000;
    MagnitudeIs(t, 9);
  }

  /** Next to the largest cap a 19th decimal is lost, on either side. */
  lemma RoundsAwayAtCap(cap: int, est: real)
    requires cap == TenToThe(12) - 1 && est == Scaled(1, 19)
    ensures Round(Cents(cap) + est, PRECISION) == Cents(cap)
    ensures Round(Cents(cap) - est, PRECISION) == Cents(cap)
  {
    var t := Cents(cap);
    LargestCap(cap, t);
    SmallestIsPositive(est);
    TenthOfPlace(est);
    Pow10Monotone(9, 10);
    RoundsTo(t + est, t, cap, -2, PRECISION);
    RoundsTo(t - est, t, cap, -2, PRECISION);
  }

  lemma TenthOfPlace(est: real)
    requires est == Scaled(1, 19)
    ensures est < 0.5 * Pow10(9 - PRECISION + 1)
  {
    ScaledIsProduct(1, 19);
    Pow10Next(-19);
  }

  /** The mirror is exact on all inputs of `s` decimals if and only if `s` is at most 18. */
  lemma MirrorExactIffEighteen(s: nat)
    ensures MirrorExactAt(s) <==> s <= MIRROR_DECIMALS
  {
    if s <= MIRROR_DECIMALS {
      forall budget: Option<Budget>, spent: int, estimate: int, balance: Option<int>
        | budget.Some? ==> FitsColumns(budget.value)
        ensures MirrorAgrees(budget, spent, Scaled(estimate, s), BalanceAt(balance, s))
      {
        var k := MIRROR_DECIMALS - s;
        Rescaled(estimate, s, k);
        var fine := if balance.Some? then Some(balance.value * TenToThe(k)) else None;
        if balance.Some? { Rescaled(balance.value, s, k); }
        PassesIffAccepted(budget, spent, estimate * TenToThe(k), fine);
        assert BalanceAt(fine, 18) == BalanceAt(balance, s);
      }
    } else {
      MirrorFailsAtNineteen(s);
    }
  }

  // ---- from a passing preview to an accepted run ----

  lemma {:induction false} SumOfNonNegatives(ledger: seq<Charge>, counts: Charge -> bool)
    requires forall c :: c in ledger ==> c.cost >= 0
    ensures SumCosts(ledger, counts) >= 0
  {
    if ledger != [] {
      assert ledger[0] in ledger;
      SumOfNonNegatives(ledger[1..], counts);
    }
  }

  /** Taking non-negative charges out of a ledger never raises a month's spend. */
  lemma FewerChargesSpendLess(ledger: seq<Charge>, kept: seq<Charge>, removed: seq<Charge>, tenant: Option<Id>,
                              month: nat)
    requires multiset(ledger) == multiset(kept + removed)
    requires forall c :: c in removed ==> c.cost >= 0
    ensures MonthSpend(kept, tenant, month) <= MonthSpend(ledger, tenant, month)
  {
    SumCostsAnyOrder(ledger, kept + removed, InWindow(tenant, month));
    SumCostsAppend(kept, removed, InWindow(tenant, month));
    SumOfNonNegatives(removed, InWindow(tenant, month));
  }

  /** What the budget check accepts, it accepts at any lower price and spend. */
  lemma DecideIsMonotone(budget: Option<Budget>, spent: int, less: int, price: real, cheaper: real,
                         balance: Option<real>)
    requires Decide(budget, spent, price, balance) == Accepted && less <= spent && cheaper <= price
    ensures Decide(budget, less, cheaper, balance) == Accepted
  {
  }

  lemma {:induction false} AcceptanceSurvives(books: Books, kept: seq<Charge>, removed: seq<Charge>,
                                             price: real, cheaper: real, balance: Option<real>)
    requires AssertBudget(books, price, balance) == Accepted && cheaper <= price
    requires multiset(books.ledger) == multiset(kept + removed)
    requires forall c :: c in removed ==> c.cost >= 0
    ensures AssertBudget(books.(ledger := kept), cheaper, balance) == Accepted
  {
    FewerChargesSpendLess(books.ledger, kept, removed, books.tenant, TruncMonth(books.today));
    DecideIsMonotone(CurrentBudget(books), Spent(books), Spent(books.(ledger := kept)), price, cheaper, balance);
  }

  // ---- how many decimals the margin covers ----

  /** Decimals of a fresh price up to which a tenth of margin covers every drift. */
  const MARGIN_DECIMALS: nat := 20

  /** A quote that is a whole number of tens keeps its decision exact up to `p` digits. */
  lemma TensBound(tenth: int, p: nat)
    requires p >= 2 && 0 < 10 * tenth < TenToThe(p)
    ensures 10 * tenth < TenToThe(p + 1) && 10 * tenth < 2 * TenToThe(p - 1) * (10 - (10 * tenth) % 10)
  {
    assert (10 * tenth) % 10 == 0;
    assert TenToThe(p) == 10 * TenToThe(p - 1);
  }

  /** On a grid of `s` decimals: a price the drift check lets through is at most eleven
      tenths of the quote. */
  lemma {:induction false} ClearedOnGrid(r: int, tenth: int, s: nat, p: nat)
    requires p >= 2 && 0 < 10 * tenth < TenToThe(p)
    requires Drift(Scaled(r, s), Scaled(10 * tenth, s), p) <= DRIFT_TOLERANCE
    ensures Scaled(r, s) <= Scaled(11 * tenth, s)
  {
    TensBound(tenth, p);
    DistanceDecides(r, 10 * tenth, s, p);
    ScaledMonotone(r, 11 * tenth, s);
  }

  /** A tenth of a column quote, on the finest grid the margin covers. */
  lemma TenthOnGrid(b: int) returns (tenth: int)
    requires 0 < b < TenToThe(12)
    ensures 0 < 10 * tenth < TenToThe(PRECISION)
    ensures Scaled(10 * tenth, MARGIN_DECIMALS) == Scaled(b, 4)
      && Scaled(11 * tenth, MARGIN_DECIMALS) == Scaled(11 * b, 5)
  {
    var unit := TenToThe(15);
    assert TenToThe(16) == 10 * unit;
    tenth := b * unit;
    TenTimesProduct(b, unit);
    Rescaled(b, 4, 16);
    Rescaled(11 * b, 5, 15);
    QuoteFitsPrecision(b, 10 * tenth);
  }

  lemma {:induction false} PriceOnGrid(r: int, s: nat) returns (fine: int)
    requires s <= MARGIN_DECIMALS
    ensures Scaled(fine, MARGIN_DECIMALS) == Scaled(r, s)
  {
    Rescaled(r, s, MARGIN_DECIMALS - s);
    fine := r * TenToThe(MARGIN_DECIMALS - s);
  }

  lemma {:induction false} ClearedPriceIsBounded(r: int, b: int, s: nat)
    requires s <= MARGIN_DECIMALS && 0 < b < TenToThe(12) && !Drifted(Scaled(r, s), Scaled(b, 4))
    ensures Scaled(r, s) <= Scaled(11 * b, 5)
  {
    var tenth := TenthOnGrid(b);
    var fine := PriceOnGrid(r, s);
    ClearedOnGrid(fine, tenth, MARGIN_DECIMALS, PRECISION);
  }

  lemma TenTimesProduct(b: int, unit: int)
    ensures b * (10 * unit) == 10 * (b * unit) && (11 * b) * unit == 11 * (b * unit)
  {
  }

  lemma QuoteFitsPrecision(b: int, quote: int)
    requires 0 < b < TenToThe(12) && quote == b * TenToThe(16)
    ensures 0 < quote < TenToThe(PRECISION)
  {
    SixteenDigits();
  }

  /** If the gates pass for 1.1 times a quote, a price the drift check lets through is
      within budget. */
  ghost predicate MarginHolds(budget: Option<Budget>, spent: int, b: int, price: real, balance: Option<real>) {
    forall gates: seq<Gate> ::
      GatesFor(gates, budget, spent, Scaled(11 * b, 5), balance) && AllPass(gates) && !Drifted(price, Scaled(b, 4)) ==>
      Decide(budget, spent, price, balance) == Accepted
  }

  /** It holds on all budgets, spends and positive quotes, for prices of `s` decimals and
      balances of `d`. */
  ghost predicate MarginHoldsAt(s: nat, d: nat) {
    forall budget: Option<Budget>, spent: int, b: int, r: int, balance: Option<int> ::
      (budget.Some? ==> FitsColumns(budget.value)) && 0 < b < TenToThe(12) ==>
      MarginHolds(budget, spent, b, Scaled(r, s), BalanceAt(balance, d))
  }

  function FinerBalance(balance: Option<int>, k: nat): Option<int> {
    if balance.Some? then Some(balance.value * TenToThe(k)) else None
  }

  lemma {:induction false} SameBalance(balance: Option<int>, d: nat, k: nat)
    ensures BalanceAt(FinerBalance(balance, k), d + k) == BalanceAt(balance, d)
  {
    if balance.Some? { Rescaled(balance.value, d, k); }
  }

  /** The gates for 1.1 times a quote report what the database would decide. */
  lemma {:induction false} MirrorAtMargin(budget: Option<Budget>, spent: int, b: int, balance: Option<int>, d: nat)
    requires d <= MIRROR_DECIMALS && (budget.Some? ==> FitsColumns(budget.value))
    ensures MirrorAgrees(budget, spent, Scaled(11 * b, 5), BalanceAt(balance, d))
  {
    Rescaled(11 * b, 5, 13);
    SameBalance(balance, d, MIRROR_DECIMALS - d);
    PassesIffAccepted(budget, spent, 11 * b * TenToThe(13), FinerBalance(balance, MIRROR_DECIMALS - d));
  }

  lemma MarginFollows(budget: Option<Budget>, spent: int, b: int, price: real, balance: Option<real>)
    requires MirrorAgrees(budget, spent, Scaled(11 * b, 5), balance)
    requires Drifted(price, Scaled(b, 4)) || price <= Scaled(11 * b, 5)
    ensures MarginHolds(budget, spent, b, price, balance)
  {
    var est := Scaled(11 * b, 5);
    if price <= est && Decide(budget, spent, est, balance) == Accepted {
      DecideIsMonotone(budget, spent, spent, est, price, balance);
    }
  }

  lemma {:induction false} MarginWithin(budget: Option<Budget>, spent: int, b: int, r: int, s: nat,
                                        balance: Option<int>, d: nat)
    requires s <= MARGIN_DECIMALS && d <= MIRROR_DECIMALS
    requires (budget.Some? ==> FitsColumns(budget.value)) && 0 < b < TenToThe(12)
    ensures MarginHolds(budget, spent, b, Scaled(r, s), BalanceAt(balance, d))
  {
    MirrorAtMargin(budget, spent, b, balance, d);
    if !Drifted(Scaled(r, s), Scaled(b, 4)) { ClearedPriceIsBounded(r, b, s); }
    MarginFollows(budget, spent, b, Scaled(r, s), BalanceAt(balance, d));
  }

  lemma {:induction false} MissedPrice(b: int, quote: nat, fine: int, s: nat, k: nat, p: nat)
    requires p >= 2 && s == 4 + k && quote == b * TenToThe(k) && fine == quote + FirstBeyond(quote)
    requires quote % 10 == 0 && 20 * TenToThe(p - 1) <= quote < TenToThe(p + 1)
    ensures Drift(Scaled(fine, s), Scaled(b, 4), p) <= DRIFT_TOLERANCE
  {
    Rescaled(b, 4, k);
    DistanceMissed(quote, s, p);
  }

  lemma {:induction false} PriceOverCap(cap: int, s: nat, k: nat)
    requires s == 2 + k
    ensures Scaled(cap * TenToThe(k) + 1, s) > Cents(cap)
  {
    Rescaled(cap, 2, k);
    ScaledMonotone(cap * TenToThe(k) + 1, cap * TenToThe(k), s);
    ColumnValues(cap);
  }

  lemma TwentyNineDigits()
    ensures TenToThe(17) == 100000000000000000 && TenToThe(19) == 10000000000000000000
    ensures TenToThe(27) == 1000000000000000000000000000 && TenToThe(29) == 100 * TenToThe(27)
  {
    SixteenDigits();
    assert TenToThe(17) == 10 * TenToThe(16);
    assert TenToThe(19) == 100 * TenToThe(17);
    assert TenToThe(23) == 10000 * TenToThe(19);
    assert TenToThe(27) == 10000 * TenToThe(23);
  }

  lemma QuoteOfThirtyMillion(quote: nat)
    requires quote == 300000000000 * TenToThe(17)
    ensures quote % 10 == 0 && 20 * TenToThe(PRECISION - 1) <= quote < TenToThe(PRECISION + 1)
    ensures quote + FirstBeyond(quote) == 3300000000 * TenToThe(19) + 1
  {
    TwentyNineDigits();
    assert quote == 30000000000000000000000000000;
  }

  /** A quote of 30,000,000 and a price of 33,000,000 and one unit of the 21st decimal: the
      drift is computed as exactly a tenth. */
  lemma {:induction false} DriftLostAtTwentyOne(b: int, quote: nat, fine: int, s: nat, k: nat)
    requires s == 4 + k && quote == b * TenToThe(k) && quote == 300000000000 * TenToThe(17)
    requires fine == 3300000000 * TenToThe(19) + 1
    ensures !Drifted(Scaled(fine, s), Scaled(b, 4))
  {
    QuoteOfThirtyMillion(quote);
    MissedPrice(b, quote, fine, s, k, PRECISION);
  }

  lemma QuoteAtCap(b: int, cap: int)
    requires 11 * b == 1000 * cap
    ensures Scaled(11 * b, 5) == Cents(cap)
  {
    Rescaled(cap, 2, 3);
    assert TenToThe(3) == 1000;
    ColumnValues(cap);
  }

  /** Passing gates, a cleared price and a refusal disprove the margin. */
  lemma MarginBroken(gates: seq<Gate>, budget: Budget, b: int, r: int, s: nat, balance: Option<int>, d: nat)
    requires FitsColumns(budget) && 0 < b < TenToThe(12)
    requires GatesFor(gates, Some(budget), 0, Scaled(11 * b, 5), BalanceAt(balance, d)) && AllPass(gates)
    requires !Drifted(Scaled(r, s), Scaled(b, 4))
    requires Decide(Some(budget), 0, Scaled(r, s), BalanceAt(balance, d)) != Accepted
    ensures !MarginHoldsAt(s, d)
  {
    assert !MarginHolds(Some(budget), 0, b, Scaled(r, s), BalanceAt(balance, d));
  }

  lemma RunGateMisses(cap: int, est: real, price: real) returns (budget: Budget, gates: seq<Gate>)
    requires 0 <= cap < TenToThe(12) && est == Cents(cap) && price > Cents(cap)
    ensures FitsColumns(budget) && GatesFor(gates, Some(budget), 0, est, None) && AllPass(gates)
    ensures Decide(Some(budget), 0, price, None) == OverRunCap
  {
    budget := Budget(0, 0, 0, cap, 0, false);
    gates := [Gate(PerRunCap, true), Gate(MonthlyCap, true)];
  }

  lemma FinePrice(b: int, cap: int) returns (fine: int)
    requires b == 300000000000 && cap == 3300000000
    ensures !Drifted(Scaled(fine, 21), Scaled(b, 4)) && Scaled(fine, 21) > Cents(cap)
  {
    fine := cap * TenToThe(19) + 1;
    DriftLostAtTwentyOne(b, b * TenToThe(17), fine, 21, 17);
    PriceOverCap(cap, 21, 19);
  }

  lemma {:induction false} FinerPrice(b: int, cap: int, s: nat) returns (r: int)
    requires b == 300000000000 && cap == 3300000000 && s > MARGIN_DECIMALS
    ensures !Drifted(Scaled(r, s), Scaled(b, 4)) && Scaled(r, s) > Cents(cap)
  {
    var fine := FinePrice(b, cap);
    Rescaled(fine, 21, s - 21);
    r := fine * TenToThe(s - 21);
  }

  lemma {:induction false} MarginFailsForPrice(s: nat, d: nat)
    requires s > MARGIN_DECIMALS
    ensures !MarginHoldsAt(s, d)
  {
    var b, cap := 300000000000, 3300000000;
    var r := FinerPrice(b, cap, s);
    QuoteAtCap(b, cap);
    SixteenDigits();
    var budget, gates := RunGateMisses(cap, Scaled(11 * b, 5), Scaled(r, s));
    MarginBroken(gates, budget, b, r, s, None, d);
  }

  /** A balance one unit of the 19th decimal short of the largest floor and a price of 11:
      rounded, the difference is the floor. */
  lemma FloorLostAtNineteen(floor: int, balance: real)
    requires floor == TenToThe(12) - 1 && balance == Cents(floor) + 11.0 - Scaled(1, 19)
    ensures Round(balance - 11.0, PRECISION) == Cents(floor) && balance - 11.0 < Cents(floor)
  {
    SmallestIsPositive(Scaled(1, 19));
    RoundsAwayAtCap(floor, Scaled(1, 19));
    assert balance - 11.0 == Cents(floor) - Scaled(1, 19);
  }

  lemma BalanceShort(floor: int) returns (n: int)
    ensures Scaled(n, 19) == Cents(floor) + 11.0 - Scaled(1, 19)
  {
    n := (floor + 1100) * TenToThe(17) - 1;
    Rescaled(floor + 1100, 2, 17);
    ScaledDifference((floor + 1100) * TenToThe(17), 1, 19);
    ColumnValues(floor + 1100);
  }

  lemma {:induction false} ShortBalance(floor: int, d: nat) returns (balance: int)
    requires d > MIRROR_DECIMALS
    ensures Scaled(balance, d) == Cents(floor) + 11.0 - Scaled(1, 19)
  {
    var n := BalanceShort(floor);
    Rescaled(n, 19, d - 19);
    balance := n * TenToThe(d - 19);
  }

  lemma ElevenForTen(s: nat)
    ensures Scaled(11 * TenToThe(s), s) == 11.0 && Scaled(11 * 100000, 5) == 11.0
    ensures !Drifted(11.0, Scaled(100000, 4)) && 100000 < TenToThe(12)
  {
    Rescaled(11, 0, s);
    Rescaled(11, 0, 4);
    Rescaled(11, 0, 5);
    assert TenToThe(4) == 10000 && TenToThe(5) == 100000;
    assert 100000 < TenToThe(12);
    DriftOfColumnPrices(110000, 100000);
  }

  lemma FloorGateMisses(floor: int, balance: real) returns (budget: Budget, gates: seq<Gate>)
    requires floor == TenToThe(12) - 1
    requires Round(balance - 11.0, PRECISION) == Cents(floor) && balance - 11.0 < Cents(floor)
    ensures FitsColumns(budget) && GatesFor(gates, Some(budget), 0, 11.0, Some(balance)) && AllPass(gates)
    ensures Decide(Some(budget), 0, 11.0, Some(balance)) == BelowFloor
  {
    SixteenDigits();
    budget := Budget(0, 0, 0, 2000, floor, false);
    gates := [Gate(PerRunCap, true), Gate(MonthlyCap, true), Gate(BalanceFloor, true)];
  }

  lemma {:induction false} MarginFailsForBalance(s: nat, d: nat)
    requires d > MIRROR_DECIMALS
    ensures !MarginHoldsAt(s, d)
  {
    var floor := TenToThe(12) - 1;
    var balance := ShortBalance(floor, d);
    FloorLostAtNineteen(floor, Scaled(balance, d));
    var budget, gates := FloorGateMisses(floor, Scaled(balance, d));
    ElevenForTen(s);
    MarginBroken(gates, budget, 100000, 11 * TenToThe(s), s, Some(balance), d);
  }

  /** Passing gates for 1.1 times a quote cover every price the drift check lets through if
      and only if prices have at most 20 decimals and balances at most 18. */
  lemma {:induction false} MarginExactIff(s: nat, d: nat)
    ensures MarginHoldsAt(s, d) <==> s <= MARGIN_DECIMALS && d <= MIRROR_DECIMALS
  {
    if s > MARGIN_DECIMALS {
      MarginFailsForPrice(s, d);
    } else if d > MIRROR_DECIMALS {
      MarginFailsForBalance(s, d);
    } else {
      forall budget: Option<Budget>, spent: int, b: int, r: int, balance: Option<int>
        | (budget.Some? ==> FitsColumns(budget.value)) && 0 < b < TenToThe(12)
        ensures MarginHolds(budget, spent, b, Scaled(r, s), BalanceAt(balance, d))
      {
        MarginWithin(budget, spent, b, r, s, balance, d);
      }
    }
  }

  /** On unchanged books: if the gates pass for 1.1 times a quote, every fresh price of at
      most 20 decimals that the drift check lets through is within budget. */
  lemma {:induction false} MarginCoversDrift(gates: seq<Gate>, books: Books, b: int, r: int, s: nat,
                                             balance: Option<int>, d: nat)
    requires s <= MARGIN_DECIMALS && d <= MIRROR_DECIMALS
    requires ValidBooks(books) && 0 < b < TenToThe(12)
    requires GatesFor(gates, CurrentBudget(books), Spent(books), Scaled(11 * b, 5), BalanceAt(balance, d))
    requires AllPass(gates) && !Drifted(Scaled(r, s), Scaled(b, 4))
    ensures AssertBudget(books, Scaled(r, s), BalanceAt(balance, d)) == Accepted
  {
    MarginWithin(CurrentBudget(books), Spent(books), b, r, s, balance, d);
  }
}
