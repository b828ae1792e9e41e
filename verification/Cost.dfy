/** The cost ledger and the monthly budget: what a month has spent, the database's
    budget check, and the preview gates that mirror it in Python. */
module Cost {
  import opened Prelude
  import opened Calendar
  import opened Decimal

  datatype Billing = Billed | PlanCredits | Projected

  /** `unitCost` in millionths of a dollar, `cost` in ten-thousandths. */
  datatype Charge = Charge(tenant: Id, billingDate: nat, units: nat, unitCost: int, cost: int, billing: Billing)

  /** Caps and floor in cents. */
  datatype Budget = Budget(tenant: Id, periodMonth: nat, monthlyCap: int, perRunCap: int, balanceFloor: int,
                           hardStop: bool)

  /** What one statement sees: the visible tables, the bound tenant and the date. */
  datatype Books = Books(budgets: seq<Budget>, ledger: seq<Charge>, tenant: Option<Id>, today: nat)

  // ---- month_spend ----

  /** The filter of `cost.month_spend(month)`; an unbound tenant matches nothing. */
  predicate CountsTowards(c: Charge, tenant: Option<Id>, month: nat) {
    tenant == Some(c.tenant) && c.billing == Billed && month <= c.billingDate < AddMonth(month)
  }

  function SumCosts(ledger: seq<Charge>, counts: Charge -> bool): int {
    if ledger == [] then 0
    else (if counts(ledger[0]) then ledger[0].cost else 0) + SumCosts(ledger[1..], counts)
  }

  function InWindow(tenant: Option<Id>, month: nat): Charge -> bool {
    (c: Charge) => CountsTowards(c, tenant, month)
  }

  function MonthSpend(ledger: seq<Charge>, tenant: Option<Id>, month: nat): int {
    SumCosts(ledger, InWindow(tenant, month))
  }

  function Spent(books: Books): int {
    MonthSpend(books.ledger, books.tenant, TruncMonth(books.today))
  }

  lemma {:induction false} SumCostsAppend(a: seq<Charge>, b: seq<Charge>, counts: Charge -> bool)
    ensures SumCosts(a + b, counts) == SumCosts(a, counts) + SumCosts(b, counts)
  {
    if a == [] {
      assert a + b == b;
    } else {
      SumCostsAppend(a[1..], b, counts);
      assert (a + b)[1..] == a[1..] + b;
    }
  }

  lemma {:induction false} SumCostsWithout(b: seq<Charge>, i: nat, counts: Charge -> bool)
    requires i < |b|
    ensures SumCosts(b, counts) == SumCosts([b[i]], counts) + SumCosts(b[..i] + b[i + 1..], counts)
  {
    SumCostsAppend(b[..i], b[i + 1..], counts);
    SumCostsAppend(b[..i] + [b[i]], b[i + 1..], counts);
    SumCostsAppend(b[..i], [b[i]], counts);
    assert b == b[..i] + [b[i]] + b[i + 1..];
  }

  lemma RemoveOne(b: seq<Charge>, i: nat)
    requires i < |b|
    ensures multiset(b[..i] + b[i + 1..]) == multiset(b) - multiset{b[i]}
  {
    assert b == b[..i] + [b[i]] + b[i + 1..];
  }

  /** A sum does not depend on the order the rows are read in. */
  lemma {:induction false} SumCostsAnyOrder(a: seq<Charge>, b: seq<Charge>, counts: Charge -> bool)
    requires multiset(a) == multiset(b)
    ensures SumCosts(a, counts) == SumCosts(b, counts)
    decreases |a|
  {
    if a == [] {
      assert |b| == |multiset(b)|;
    } else {
      assert a[0] in multiset(b);
      var i :| 0 <= i < |b| && b[i] == a[0];
      RemoveOne(a, 0);
      RemoveOne(b, i);
      SumCostsAnyOrder(a[..0] + a[1..], b[..i] + b[i + 1..], counts);
      SumCostsWithout(a, 0, counts);
      SumCostsWithout(b, i, counts);
    }
  }

  lemma {:induction false} SumCostsSplit(ledger: seq<Charge>, whole: Charge -> bool, a: Charge -> bool,
                                         b: Charge -> bool)
    requires forall c :: whole(c) <==> a(c) || b(c)
    requires forall c :: !(a(c) && b(c))
    ensures SumCosts(ledger, whole) == SumCosts(ledger, a) + SumCosts(ledger, b)
  {
    if ledger != [] {
      SumCostsSplit(ledger[1..], whole, a, b);
      assert whole(ledger[0]) <==> a(ledger[0]) || b(ledger[0]);
      assert !(a(ledger[0]) && b(ledger[0]));
    }
  }

  /** The spends of the months `[m, n)`, added up month by month. */
  function SpendOverMonths(ledger: seq<Charge>, tenant: Option<Id>, m: nat, n: nat): int
    requires m <= n
    decreases n as int - m as int
  {
    if m == n then 0
    else MonthSpend(ledger, tenant, MonthStart(m)) + SpendOverMonths(ledger, tenant, m + 1, n)
  }

  predicate BilledBetween(c: Charge, tenant: Option<Id>, first: nat, end: nat) {
    tenant == Some(c.tenant) && c.billing == Billed && first <= c.billingDate < end
  }

  function InSpan(tenant: Option<Id>, first: nat, end: nat): Charge -> bool {
    (c: Charge) => BilledBetween(c, tenant, first, end)
  }

  /** Consecutive month windows neither overlap nor leave a gap: the month spends of a
      span add up to everything billed in it, whatever order the rows are stored in. */
  lemma MonthsAddUp(ledger: seq<Charge>, stored: seq<Charge>, tenant: Option<Id>, m: nat, n: nat)
    requires m <= n && multiset(ledger) == multiset(stored)
    ensures SpendOverMonths(stored, tenant, m, n)
         == SumCosts(ledger, InSpan(tenant, MonthStart(m), MonthStart(n)))
  {
    MonthsAddUpInOrder(stored, tenant, m, n);
    SumCostsAnyOrder(ledger, stored, InSpan(tenant, MonthStart(m), MonthStart(n)));
  }

  /** A span is its first month's window and the span after it. */
  lemma {:induction false} SpanSplits(tenant: Option<Id>, m: nat, n: nat, c: Charge)
    requires m < n
    ensures BilledBetween(c, tenant, MonthStart(m), MonthStart(n))
       <==> CountsTowards(c, tenant, MonthStart(m)) || BilledBetween(c, tenant, MonthStart(m + 1), MonthStart(n))
    ensures !(CountsTowards(c, tenant, MonthStart(m)) && BilledBetween(c, tenant, MonthStart(m + 1), MonthStart(n)))
  {
    AddMonthToFirst(m);
    MonthsOrdered(m, m + 1);
    MonthsOrdered(m + 1, n);
  }

  lemma {:induction false} MonthsAddUpInOrder(ledger: seq<Charge>, tenant: Option<Id>, m: nat, n: nat)
    requires m <= n
    ensures SpendOverMonths(ledger, tenant, m, n)
         == SumCosts(ledger, InSpan(tenant, MonthStart(m), MonthStart(n)))
    decreases n as int - m as int
  {
    var whole := InSpan(tenant, MonthStart(m), MonthStart(n));
    if m == n {
      NothingCounts(ledger, whole);
    } else {
      MonthsAddUpInOrder(ledger, tenant, m + 1, n);
      var first, rest := InWindow(tenant, MonthStart(m)), InSpan(tenant, MonthStart(m + 1), MonthStart(n));
      forall c ensures (whole(c) <==> first(c) || rest(c)) && !(first(c) && rest(c)) { SpanSplits(tenant, m, n, c); }
      SumCostsSplit(ledger, whole, first, rest);
    }
  }

  lemma {:induction false} NothingCounts(ledger: seq<Charge>, counts: Charge -> bool)
    requires forall c :: !counts(c)
    ensures SumCosts(ledger, counts) == 0
  {
    if ledger != [] {
      NothingCounts(ledger[1..], counts);
    }
  }

  // ---- cost_ledger_math ----

  /** The `cost_ledger_math` check: `round(units * unit_cost_usd, 4) = cost_usd`. */
  predicate LedgerMath(c: Charge) {
    HalfAway((c.units * c.unitCost) as real / 100.0) == c.cost || c.billing == PlanCredits
  }

  /** A billed or projected row is let in exactly with its product, in millionths, rounded to
      the nearest ten-thousandth, ties away from zero; a row of plan credits with any cost. */
  lemma LedgerMathTells(c: Charge)
    ensures var rest := 100 * c.cost - c.units * c.unitCost;
      LedgerMath(c) <==>
        || c.billing == PlanCredits || -50 < rest < 50 || (rest == 50 && c.cost > 0) || (rest == -50 && c.cost < 0)
  {
    NearestHundred(c.units * c.unitCost, c.cost);
  }

  lemma NearestHundred(exact: int, n: int)
    ensures HalfAway(exact as real / 100.0) == n <==>
      var rest := 100 * n - exact;
      -50 < rest < 50 || (rest == 50 && n > 0) || (rest == -50 && n < 0)
  {
    HalfAwayIsNearest(exact as real / 100.0, n);
  }

  /** Exact `units * unit_cost` of the counted rows, in millionths, and their number. */
  function ExactMillionths(ledger: seq<Charge>, counts: Charge -> bool): int {
    if ledger == [] then 0
    else (if counts(ledger[0]) then ledger[0].units * ledger[0].unitCost else 0) + ExactMillionths(ledger[1..], counts)
  }

  function CountRows(ledger: seq<Charge>, counts: Charge -> bool): nat {
    if ledger == [] then 0
    else (if counts(ledger[0]) then 1 else 0) + CountRows(ledger[1..], counts)
  }

  lemma RoundingOfRow(exact: int, cost: int)
    requires HalfAway(exact as real / 100.0) == cost
    ensures -50 <= 100 * cost - exact <= 50
  {
  }

  lemma {:induction false} SumNearExact(ledger: seq<Charge>, counts: Charge -> bool)
    requires forall c :: c in ledger && counts(c) ==> LedgerMath(c) && c.billing == Billed
    ensures -50 * CountRows(ledger, counts)
         <= 100 * SumCosts(ledger, counts) - ExactMillionths(ledger, counts)
         <= 50 * CountRows(ledger, counts)
  {
    if ledger != [] {
      SumNearExact(ledger[1..], counts);
      assert ledger[0] in ledger;
      if counts(ledger[0]) {
        RoundingOfRow(ledger[0].units * ledger[0].unitCost, ledger[0].cost);
      }
    }
  }

  /** A month's spend is within 0.00005 per billed row of the unrounded total. */
  lemma MonthSpendNearExact(ledger: seq<Charge>, tenant: Option<Id>, month: nat)
    requires forall c :: c in ledger ==> LedgerMath(c)
    ensures -50 * CountRows(ledger, InWindow(tenant, month))
         <= 100 * MonthSpend(ledger, tenant, month) - ExactMillionths(ledger, InWindow(tenant, month))
         <= 50 * CountRows(ledger, InWindow(tenant, month))
  {
    SumNearExact(ledger, InWindow(tenant, month));
  }

  // ---- assert_budget ----

  /** The value of a `Numeric(12, 2)` column. */
  function Cents(n: int): real {
    n as real / 100.0
  }

  /** The value of a `Numeric(12, 4)` column. */
  function TenThousandths(n: int): real {
    n as real / 10000.0
  }

  function FindBudget(budgets: seq<Budget>, tenant: Option<Id>, month: nat): (b: Option<Budget>)
    ensures b.Some? ==> b.value in budgets && tenant == Some(b.value.tenant) && b.value.periodMonth == month
    ensures b.None? ==> forall c :: c in budgets ==> !(tenant == Some(c.tenant) && c.periodMonth == month)
  {
    if budgets == [] then None
    else if tenant == Some(budgets[0].tenant) && budgets[0].periodMonth == month then Some(budgets[0])
    else FindBudget(budgets[1..], tenant, month)
  }

  function CurrentBudget(books: Books): Option<Budget> {
    FindBudget(books.budgets, books.tenant, TruncMonth(books.today))
  }

  datatype Verdict = Accepted | NoBudget | OverRunCap | OverMonthlyCap | BelowFloor

  /** The budget check on a budget row and a month's spend: the first refusal in its
      order, on exact numerics. */
  function Decide(budget: Option<Budget>, spent: int, projected: real, balance: Option<real>): Verdict {
    match budget
    case None => NoBudget
    case Some(b) =>
      if projected > Cents(b.perRunCap) then OverRunCap
      else if b.hardStop && TenThousandths(spent) + projected > Cents(b.monthlyCap) then OverMonthlyCap
      else if balance.Some? && balance.value - projected < Cents(b.balanceFloor) then BelowFloor
      else Accepted
  }

  /** `cost.assert_budget`. */
  function AssertBudget(books: Books, projected: real, balance: Option<real>): Verdict {
    Decide(CurrentBudget(books), Spent(books), projected, balance)
  }

  /** The unique constraint on (tenant_id, period_month). */
  ghost predicate UniqueBudgets(budgets: seq<Budget>) {
    forall b, c :: b in budgets && c in budgets && b.tenant == c.tenant && b.periodMonth == c.periodMonth ==> b == c
  }

  /** The budget of the bound tenant for the calendar month of today. */
  ghost predicate IsCurrent(books: Books, b: Budget) {
    b in books.budgets && books.tenant == Some(b.tenant) && b.periodMonth == MonthStart(MonthOf(books.today))
  }

  lemma CurrentIsFound(books: Books, b: Budget)
    requires UniqueBudgets(books.budgets) && IsCurrent(books, b)
    ensures CurrentBudget(books) == Some(b)
  {
  }

  /** The budget check, cap by cap: the first one the price breaks, if it breaks any, and no
      budget exactly when the tenant has none for the month. */
  lemma {:induction false} BudgetTells(books: Books, projected: real, balance: Option<real>)
    requires UniqueBudgets(books.budgets)
    ensures AssertBudget(books, projected, balance) == NoBudget <==> forall b :: !IsCurrent(books, b)
    ensures forall b :: IsCurrent(books, b) ==>
      var run := 100.0 * projected <= b.perRunCap as real;
      var month := b.hardStop ==> Spent(books) as real + 10000.0 * projected <= 100.0 * b.monthlyCap as real;
      var floor := balance.Some? ==> 100.0 * (balance.value - projected) >= b.balanceFloor as real;
      AssertBudget(books, projected, balance)
      == if !run then OverRunCap else if !month then OverMonthlyCap else if !floor then BelowFloor else Accepted
  {
    forall b | IsCurrent(books, b)
      ensures CurrentBudget(books) == Some(b)
    {
      CurrentIsFound(books, b);
    }
    if CurrentBudget(books).Some? { assert IsCurrent(books, CurrentBudget(books).value); }
  }

  /** A row counts towards the spend exactly when it is the tenant's own, billed, and dated in
      the calendar month of today. */
  lemma CountsInMonth(c: Charge, tenant: Option<Id>, today: nat)
    ensures CountsTowards(c, tenant, TruncMonth(today))
       <==> tenant == Some(c.tenant) && c.billing == Billed && MonthOf(c.billingDate) == MonthOf(today)
  {
    WindowOfTrunc(today, c.billingDate);
  }

  // ---- the preview gates ----

  datatype GateId = BudgetConfigured | PerRunCap | MonthlyCap | BalanceFloor

  datatype Gate = Gate(id: GateId, pass: bool)

  predicate AllPass(gates: seq<Gate>) {
    forall i :: 0 <= i < |gates| ==> gates[i].pass
  }

  /** The three tests as Python makes them: sums and differences are rounded first. */
  predicate RunGate(b: Budget, estimate: real) {
    estimate <= Cents(b.perRunCap)
  }

  predicate MonthGate(b: Budget, spent: real, estimate: real) {
    !b.hardStop || Round(spent + estimate, PRECISION) <= Cents(b.monthlyCap)
  }

  predicate FloorGate(b: Budget, balance: real, estimate: real) {
    Round(balance - estimate, PRECISION) >= Cents(b.balanceFloor)
  }

  /** A gate list: the run cap, the month cap and, when there is a balance, the floor. */
  predicate Lists(gates: seq<Gate>, run: bool, month: bool, floor: Option<bool>) {
    gates == [Gate(PerRunCap, run), Gate(MonthlyCap, month)]
           + (if floor.Some? then [Gate(BalanceFloor, floor.value)] else [])
  }

  /** Which gates a preview lists, in order, and how each one stands. */
  predicate GatesFor(gates: seq<Gate>, budget: Option<Budget>, spent: int, estimate: real, balance: Option<real>) {
    match budget
    case None => gates == [Gate(BudgetConfigured, false)]
    case Some(b) =>
      Lists(gates, RunGate(b, estimate), MonthGate(b, TenThousandths(spent), estimate),
            if balance.Some? then Some(FloorGate(b, balance.value, estimate)) else None)
  }

  /** `_evaluate_gates` on what its two queries return: an early return without a
      budget, then a list built up gate by gate. */
  method EvaluateGates(budget: Option<Budget>, spent: int, estimate: real, balance: Option<real>)
    returns (gates: seq<Gate>)
    ensures GatesFor(gates, budget, spent, estimate, balance)
  {
    if budget.None? {
      return [Gate(BudgetConfigured, false)];
    }
    var b := budget.value;
    gates := [Gate(PerRunCap, RunGate(b, estimate))];
    gates := gates + [Gate(MonthlyCap, MonthGate(b, TenThousandths(spent), estimate))];
    if balance.Some? {
      gates := gates + [Gate(BalanceFloor, FloorGate(b, balance.value, estimate))];
    }
  }

  /** Caps and floor fit their `Numeric(12, 2)` columns. */
  predicate FitsColumns(b: Budget) {
    && -TenToThe(12) < b.monthlyCap < TenToThe(12)
    && -TenToThe(12) < b.perRunCap < TenToThe(12)
    && -TenToThe(12) < b.balanceFloor < TenToThe(12)
  }

  ghost predicate ValidBooks(books: Books) {
    forall b :: b in books.budgets ==> FitsColumns(b)
  }
}
