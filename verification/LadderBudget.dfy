/** How far concurrent executions can carry a month past its hard-stop cap. */
module LadderBudget {
  import opened Prelude
  import opened PriceDrift
  import opened Calendar
  import opened Cost
  import opened Ladder
  import opened LadderMachine
  import opened LadderSafety

  /** Past the budget check and not yet committed or rolled back. */
  predicate Pending(a: Attempt) {
    a.phase.Budgeted? || Holds(a)
  }

  predicate InMonthOf(a: Attempt, tenant: Id, m: nat) {
    a.req.ctx.tenant == tenant && MonthOf(DayOf(a.started)) == m
  }

  /** The price in column units; a negative one uses up nothing. */
  function PriceOf(r: Request): nat {
    if StoredUnits(r.reprice) >= 0 then StoredUnits(r.reprice) else 0
  }

  /** The price a pending execution of the month may still add to its spend. */
  function Exposure(tenant: Id, m: nat): Attempt -> nat {
    (a: Attempt) => if Pending(a) && InMonthOf(a, tenant, m) then PriceOf(a.req) else 0
  }

  function PendingCount(tenant: Id, m: nat): Attempt -> nat {
    (a: Attempt) => if Pending(a) && InMonthOf(a, tenant, m) then 1 else 0
  }

  /** The dispatch recorded exactly its price, billed to its own tenant on its own date. */
  predicate RecordsPrice(charges: seq<Charge>, a: Attempt) {
    && |charges| == 1 && charges[0].tenant == a.req.ctx.tenant && charges[0].billing == Billed
    && charges[0].billingDate == DayOf(a.started) && charges[0].cost == PriceOf(a.req)
  }

  /** The dispatch added no more than its price to the month's spend, and nothing to
      another month's or another tenant's. */
  predicate AddsAtMostItsPrice(charges: seq<Charge>, a: Attempt, tenant: Id, m: nat) {
    MonthSpend(charges, Some(tenant), MonthStart(m)) <= if InMonthOf(a, tenant, m) then PriceOf(a.req) else 0
  }

  /** What the bound asks of a run, for one tenant and month: its budget stays, nothing but
      dispatches raises its spend, each of them by at most its price, and at most `k` of its
      executions are pending at once.  Other tenants, and prices of any sign and any number
      of digits, are free. */
  ghost predicate Orderly(s: State, l: Label, tenant: Id, m: nat, k: nat) {
    && (l.SetBudgets? ==>
          FindBudget(l.budgets, Some(tenant), MonthStart(m))
            == FindBudget(s.tables.budgets, Some(tenant), MonthStart(m)))
    && (l.SetLedger? ==> MonthSpend(l.ledger, Some(tenant), MonthStart(m)) <= SpentIn(s.tables, tenant, m))
    && (l.Return? && l.t < |s.attempts| ==> AddsAtMostItsPrice(l.charges, s.attempts[l.t], tenant, m))
    && (l.Swallow? && l.t < |s.attempts| ==> AddsAtMostItsPrice(l.charges, s.attempts[l.t], tenant, m))
    && Total(Step(s, l).attempts, PendingCount(tenant, m)) <= k
  }

  ghost predicate OrderlyRun(s: State, ls: seq<Label>, tenant: Id, m: nat, k: nat)
    decreases |ls|
  {
    ls == [] || (OrderlyRun(s, ls[..|ls| - 1], tenant, m, k)
                 && Orderly(Run(s, ls[..|ls| - 1]), ls[|ls| - 1], tenant, m, k))
  }

  lemma {:induction false} TotalUpdate(attempts: seq<Attempt>, t: nat, a: Attempt, f: Attempt -> nat)
    requires t < |attempts|
    ensures Total(attempts[t := a], f) == Total(attempts, f) - f(attempts[t]) + f(a)
    decreases |attempts|
  {
    var n := |attempts| - 1;
    if t < n {
      TotalUpdate(attempts[..n], t, a, f);
      assert attempts[t := a][..n] == attempts[..n][t := a];
    } else {
      assert attempts[t := a][..n] == attempts[..n];
    }
  }

  lemma TotalSnoc(attempts: seq<Attempt>, a: Attempt, f: Attempt -> nat)
    ensures Total(attempts + [a], f) == Total(attempts, f) + f(a)
  {
    assert (attempts + [a])[..|attempts|] == attempts;
  }

  lemma {:induction false} TotalWithin(attempts: seq<Attempt>, f: Attempt -> nat, g: Attempt -> nat, cap: nat)
    requires forall t :: 0 <= t < |attempts| ==> f(attempts[t]) <= g(attempts[t]) * cap
    ensures Total(attempts, f) <= Total(attempts, g) * cap
    decreases |attempts|
  {
    if attempts != [] {
      var n := |attempts| - 1;
      TotalWithin(attempts[..n], f, g, cap);
      Distribute(Total(attempts[..n], g), g(attempts[n]), cap);
    }
  }

  lemma Distribute(x: int, y: int, c: int)
    ensures (x + y) * c == x * c + y * c
  {
  }

  lemma {:induction false} ExposureWithinCount(attempts: seq<Attempt>, tenant: Id, m: nat, cap: nat)
    requires forall t :: 0 <= t < |attempts| && Pending(attempts[t]) && InMonthOf(attempts[t], tenant, m) ==>
               PriceOf(attempts[t].req) <= cap
    ensures Total(attempts, Exposure(tenant, m)) <= Total(attempts, PendingCount(tenant, m)) * cap
  {
    var f, g := Exposure(tenant, m), PendingCount(tenant, m);
    forall t | 0 <= t < |attempts| ensures f(attempts[t]) <= g(attempts[t]) * cap {
      if g(attempts[t]) == 1 { assert 1 * cap == cap; } else { assert 0 * cap == 0; }
    }
    TotalWithin(attempts, f, g, cap);
  }

  /** The month's budget, which must stop hard. */
  ghost predicate HardBudget(tables: Tables, tenant: Id, m: nat, b: Budget) {
    FindBudget(tables.budgets, Some(tenant), MonthStart(m)) == Some(b) && b.hardStop && b.perRunCap >= 0
  }

  function SpentIn(tables: Tables, tenant: Id, m: nat): int {
    MonthSpend(tables.ledger, Some(tenant), MonthStart(m))
  }

  predicate HasCharges(a: Attempt) {
    a.phase.Dispatched? || a.phase.Marked? || a.phase.Carded?
  }

  ghost predicate PlainAttempt(a: Attempt, tenant: Id, m: nat, b: Budget) {
    && (Pending(a) && InMonthOf(a, tenant, m) ==> PriceOf(a.req) <= 100 * b.perRunCap)
    && (HasCharges(a) ==> AddsAtMostItsPrice(a.phase.charges, a, tenant, m))
  }

  /** Spend plus what is still pending stays within the cap and `k - 1` further runs. */
  ghost predicate CapHolds(s: State, tenant: Id, m: nat, b: Budget, k: nat) {
    && HardBudget(s.tables, tenant, m, b)
    && (forall t :: 0 <= t < |s.attempts| ==> PlainAttempt(s.attempts[t], tenant, m, b))
    && SpentIn(s.tables, tenant, m) + Total(s.attempts, Exposure(tenant, m))
       <= 100 * b.monthlyCap + (k - 1) * (100 * b.perRunCap)
  }

  lemma SumOfOne(c: Charge, counts: Charge -> bool)
    ensures SumCosts([c], counts) == if counts(c) then c.cost else 0
  {
    assert [c][1..] == [];
  }

  /** Recording exactly the price is one way of adding at most it. */
  lemma ChargeCounts(charges: seq<Charge>, a: Attempt, tenant: Id, m: nat)
    requires RecordsPrice(charges, a)
    ensures MonthSpend(charges, Some(tenant), MonthStart(m)) == if InMonthOf(a, tenant, m) then PriceOf(a.req) else 0
    ensures AddsAtMostItsPrice(charges, a, tenant, m)
  {
    WindowOfFirst(m, DayOf(a.started));
    SumOfOne(charges[0], InWindow(Some(tenant), MonthStart(m)));
    assert charges == [charges[0]];
  }

  /** What an accepting check says about this month's spend and price. */
  lemma AcceptedWithinCap(tables: Tables, a: Attempt, tenant: Id, m: nat, b: Budget)
    requires HardBudget(tables, tenant, m, b)
    requires BudgetAccepts(tables, a.req, a.started) && InMonthOf(a, tenant, m)
    ensures PriceOf(a.req) <= 100 * b.perRunCap
    ensures PriceOf(a.req) > 0 ==> SpentIn(tables, tenant, m) + PriceOf(a.req) <= 100 * b.monthlyCap
  {
    var books := BooksOf(tables, a.req.ctx, a.started);
    assert CurrentBudget(books) == Some(b);
    AcceptedInUnits(b, Spent(books), a.req.reprice, a.req.balance);
  }

  /** Rounding to the column cannot carry a price past a bound of whole column units. */
  lemma StoredAtMost(price: real, n: int)
    requires price * 10000.0 <= n as real
    ensures StoredUnits(price) <= n
  {
  }

  lemma AcceptedInUnits(b: Budget, spent: int, price: real, balance: Option<real>)
    requires b.hardStop && Decide(Some(b), spent, price, balance) == Accepted
    ensures StoredUnits(price) <= 100 * b.perRunCap && spent + StoredUnits(price) <= 100 * b.monthlyCap
  {
    StoredAtMost(price, 100 * b.perRunCap);
    StoredAtMost(price, 100 * b.monthlyCap - spent);
  }

  // ---- one step ----

  lemma {:induction false} CapAfterCheck(s: State, t: nat, tenant: Id, m: nat, b: Budget, k: nat)
    requires CapHolds(s, tenant, m, b, k) && t < |s.attempts| && s.attempts[t].phase.Quoted?
    requires BudgetAccepts(s.tables, s.attempts[t].req, s.attempts[t].started)
    requires Total(Put(s, t, Budgeted).attempts, PendingCount(tenant, m)) <= k
    ensures CapHolds(Put(s, t, Budgeted), tenant, m, b, k)
  {
    var a := s.attempts[t];
    var a' := a.(phase := Budgeted);
    TotalUpdate(s.attempts, t, a', Exposure(tenant, m));
    TotalUpdate(s.attempts, t, a', PendingCount(tenant, m));
    if InMonthOf(a, tenant, m) {
      AcceptedWithinCap(s.tables, a, tenant, m, b);
    }
    if InMonthOf(a, tenant, m) && PriceOf(a.req) > 0 {
      RoomForOneMore(s.attempts, tenant, m, 100 * b.perRunCap, k);
    }
  }

  lemma RoomForOneMore(attempts: seq<Attempt>, tenant: Id, m: nat, cap: nat, k: nat)
    requires Total(attempts, PendingCount(tenant, m)) <= k - 1
    requires forall t :: 0 <= t < |attempts| && Pending(attempts[t]) && InMonthOf(attempts[t], tenant, m) ==>
               PriceOf(attempts[t].req) <= cap
    ensures Total(attempts, Exposure(tenant, m)) <= (k - 1) * cap
  {
    ExposureWithinCount(attempts, tenant, m, cap);
    MultiplyMonotone(Total(attempts, PendingCount(tenant, m)), k - 1, cap);
  }

  lemma MultiplyMonotone(x: int, y: int, c: int)
    requires x <= y && c >= 0
    ensures x * c <= y * c
  {
  }

  /** Any other step inside a transaction leaves its exposure or drops it. */
  lemma CapAfterPut(s: State, t: nat, a': Attempt, tenant: Id, m: nat, b: Budget, k: nat)
    requires CapHolds(s, tenant, m, b, k) && t < |s.attempts|
    requires a'.req == s.attempts[t].req && a'.started == s.attempts[t].started
    requires Pending(a') ==> Pending(s.attempts[t])
    requires HasCharges(a') ==> AddsAtMostItsPrice(a'.phase.charges, a', tenant, m)
    ensures CapHolds(s.(attempts := s.attempts[t := a']), tenant, m, b, k)
  {
    TotalUpdate(s.attempts, t, a', Exposure(tenant, m));
    assert PlainAttempt(s.attempts[t], tenant, m, b);
  }

  lemma {:induction false} CapAfterPublish(s: State, t: nat, row: Approval, charges: seq<Charge>, cards: seq<Card>,
                                           effect: Effect, tenant: Id, m: nat, b: Budget, k: nat)
    requires CapHolds(s, tenant, m, b, k) && t < |s.attempts| && Holds(s.attempts[t])
    requires AddsAtMostItsPrice(charges, s.attempts[t], tenant, m)
    ensures CapHolds(Publish(s, t, row, charges, cards, effect), tenant, m, b, k)
  {
    var a := s.attempts[t];
    TotalUpdate(s.attempts, t, a.(phase := Committed(effect)), Exposure(tenant, m));
    assert PlainAttempt(a, tenant, m, b);
    SumCostsAppend(s.tables.ledger, charges, InWindow(Some(tenant), MonthStart(m)));
  }

  lemma {:induction false} CapStepOf(s: State, l: Label, tenant: Id, m: nat, b: Budget, k: nat)
    requires CapHolds(s, tenant, m, b, k) && Orderly(s, l, tenant, m, k) && OfAttempt(l) && l.t < |s.attempts|
    ensures CapHolds(StepOf(s, l), tenant, m, b, k)
  {
    var t, a := l.t, s.attempts[l.t];
    assert PlainAttempt(a, tenant, m, b);
    if l.CheckBudget? && a.phase.Quoted? && BudgetAccepts(s.tables, a.req, a.started) {
      CapAfterCheck(s, t, tenant, m, b, k);
    } else if l.Commit? && a.phase.Carded? {
      var ph := a.phase;
      CapAfterPublish(s, t, ph.row, ph.charges, [ph.card],
                      Wrote(ph.row, ph.charges, ph.card, FreshResponse(a.req, ph.row.id, ph.result)), tenant, m, b, k);
    } else if l.Swallow? && a.phase.Dispatching? {
      CapAfterPublish(s, t, a.phase.row, l.charges, [], Swallowed(a.phase.row, l.charges), tenant, m, b, k);
    } else {
      PlainShape(s, l);
      PlainStage(s, l);
      PlainCharges(s, l);
      CapAfterPut(s, t, StepOf(s, l).attempts[t], tenant, m, b, k);
    }
  }

  /** Neither an accepting budget check nor a publication. */
  predicate IsPlain(s: State, l: Label) {
    && OfAttempt(l) && l.t < |s.attempts|
    && var a := s.attempts[l.t];
       && !(l.Commit? && a.phase.Carded?) && !(l.Swallow? && a.phase.Dispatching?)
       && !(l.CheckBudget? && a.phase.Quoted? && BudgetAccepts(s.tables, a.req, a.started))
  }

  /** A plain statement changes its attempt's phase and dispatch count, and nothing else. */
  lemma PlainShape(s: State, l: Label)
    requires IsPlain(s, l)
    ensures |StepOf(s, l).attempts| == |s.attempts|
    ensures var a, a' := s.attempts[l.t], StepOf(s, l).attempts[l.t];
      StepOf(s, l) == s.(attempts := s.attempts[l.t := a']) && a'.req == a.req && a'.started == a.started
  {
  }

  lemma PlainStage(s: State, l: Label)
    requires IsPlain(s, l) && |StepOf(s, l).attempts| == |s.attempts|
    ensures Pending(StepOf(s, l).attempts[l.t]) ==> Pending(s.attempts[l.t])
  {
  }

  lemma PlainCharges(s: State, l: Label)
    requires IsPlain(s, l) && |StepOf(s, l).attempts| == |s.attempts|
    ensures var a, a' := s.attempts[l.t], StepOf(s, l).attempts[l.t];
      HasCharges(a') ==>
        || (l.Return? && a'.phase.charges == l.charges)
        || (HasCharges(a) && a'.phase.charges == a.phase.charges)
  {
  }

  lemma CapAfterBegin(s: State, a: Attempt, tenant: Id, m: nat, b: Budget, k: nat)
    requires CapHolds(s, tenant, m, b, k) && a.phase.Begun?
    ensures CapHolds(s.(attempts := s.attempts + [a]), tenant, m, b, k)
  {
    TotalSnoc(s.attempts, a, Exposure(tenant, m));
  }

  lemma CapStep(s: State, l: Label, tenant: Id, m: nat, b: Budget, k: nat)
    requires CapHolds(s, tenant, m, b, k) && Orderly(s, l, tenant, m, k)
    ensures CapHolds(Step(s, l), tenant, m, b, k)
  {
    if OfAttempt(l) && l.t < |s.attempts| {
      CapStepOf(s, l, tenant, m, b, k);
    } else if l.Begin? {
      CapAfterBegin(s, Attempt(l.req, s.clock, Begun, 0), tenant, m, b, k);
    }
  }

  lemma {:induction false} CapRun(tables: Tables, clock: nat, ls: seq<Label>, tenant: Id, m: nat, b: Budget, k: nat)
    requires HardBudget(tables, tenant, m, b) && SpentIn(tables, tenant, m) <= 100 * b.monthlyCap && k >= 1
    requires OrderlyRun(Start(tables, clock), ls, tenant, m, k)
    ensures CapHolds(Run(Start(tables, clock), ls), tenant, m, b, k)
    decreases |ls|
  {
    if ls == [] {
      MultiplyMonotone(0, k - 1, 100 * b.perRunCap);
    } else {
      CapRun(tables, clock, ls[..|ls| - 1], tenant, m, b, k);
      CapStep(Run(Start(tables, clock), ls[..|ls| - 1]), ls[|ls| - 1], tenant, m, b, k);
    }
  }

  /** With at most `k` of a tenant's executions of a month ever pending at once, the month's
      committed spend exceeds its hard-stop cap by at most `k - 1` per-run caps; with
      `k == 1`, never at all. */
  lemma {:induction false} MonthlyCapBound(tables: Tables, clock: nat, ls: seq<Label>, tenant: Id, m: nat, b: Budget,
                                           k: nat)
    requires HardBudget(tables, tenant, m, b) && SpentIn(tables, tenant, m) <= 100 * b.monthlyCap && k >= 1
    requires OrderlyRun(Start(tables, clock), ls, tenant, m, k)
    ensures SpentIn(Run(Start(tables, clock), ls).tables, tenant, m)
         <= 100 * b.monthlyCap + (k - 1) * (100 * b.perRunCap)
  {
    CapRun(tables, clock, ls, tenant, m, b, k);
  }
}
