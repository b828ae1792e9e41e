/** The bound on concurrent overspending is tight: for every number of pending executions
    there is an orderly run that reaches it. */
module LadderOvershoot {
  import opened Prelude
  import opened Decimal
  import opened PriceDrift
  import opened Calendar
  import opened Cost
  import opened Json
  import opened Ladder
  import opened LadderMachine
  import opened LadderHistory
  import opened LadderSafety
  import opened LadderReplay
  import opened LadderBudget

  /** Runs of `cap` cents each at moment `now`, in a month whose cap leaves `spare` cents
      beside one run. */
  datatype Scenario = Scenario(cap: nat, spare: nat, now: nat)

  function RunBudget(x: Scenario): Budget {
    Budget(0, TruncMonth(DayOf(x.now)), x.spare + x.cap, x.cap, 0, true)
  }

  /** One tenant, a quote that is still valid, the month's budget, and everything but one
      run's cap already spent. */
  function RunTables(x: Scenario): Tables {
    Tables(map[0 := Preview(0, None, "run", 0, 100 * x.cap, [], true, x.now)], [], [], [SpareCharge(x)],
           [RunBudget(x)], map[])
  }

  function SpareCharge(x: Scenario): Charge {
    Charge(0, DayOf(x.now), 1, 10000 * x.spare, 100 * x.spare, Billed)
  }

  function KeyOf(i: nat): string {
    seq(i, _ => 'k')
  }

  function RunRequest(i: nat, cap: nat): Request {
    Request(Context(0, 0, "system"), 0, None, "run", 0, 0, KeyOf(i), TenThousandths(100 * cap), None)
  }

  function RunCharge(x: Scenario): Charge {
    Charge(0, DayOf(x.now), 1, 10000 * x.cap, 100 * x.cap, Billed)
  }

  lemma PriceOfRun(i: nat, cap: nat)
    ensures PriceOf(RunRequest(i, cap)) == 100 * cap
    ensures StoredUnits(RunRequest(i, cap).reprice) == 100 * cap
  {
    assert TenThousandths(100 * cap) * 10000.0 == (100 * cap) as real;
  }

  lemma NoDrift(x: real, p: nat)
    ensures Drift(x, x, p) == 0.0
  {
  }

  lemma {:induction false} RunIsQuoted(i: nat, x: Scenario)
    ensures QuoteStands(RunTables(x), RunRequest(i, x.cap), x.now)
  {
    NoDrift(TenThousandths(100 * x.cap), PRECISION);
  }

  lemma BudgetFound(x: Scenario, month: nat)
    requires month == TruncMonth(DayOf(x.now))
    ensures FindBudget([RunBudget(x)], Some(0), month) == Some(RunBudget(x))
  {
  }

  lemma RunWithinCap(b: Budget, cap: nat, spent: int)
    requires b.perRunCap == cap && spent + 100 * cap <= 100 * b.monthlyCap
    ensures Decide(Some(b), spent, TenThousandths(100 * cap), None) == Accepted
  {
  }

  lemma {:induction false} SpentAtFirst(x: Scenario, m: nat)
    requires m == MonthOf(DayOf(x.now))
    ensures MonthSpend([SpareCharge(x)], Some(0), MonthStart(m)) == 100 * x.spare
  {
    WindowOfFirst(m, DayOf(x.now));
    SumOfOne(SpareCharge(x), InWindow(Some(0), MonthStart(m)));
  }

  /** Every run is within budget while no other has been charged. */
  lemma {:induction false} RunIsAccepted(i: nat, x: Scenario)
    ensures BudgetAccepts(RunTables(x), RunRequest(i, x.cap), x.now)
  {
    BudgetFound(x, TruncMonth(DayOf(x.now)));
    SpentAtFirst(x, MonthOf(DayOf(x.now)));
    RunWithinCap(RunBudget(x), x.cap, 100 * x.spare);
  }

  // ---- first all enter, then all finish ----

  function EnterLabels(k: nat, cap: nat): seq<Label> {
    if k == 0 then [] else EnterLabels(k - 1, cap) + CallLabels(k - 1, cap)
  }

  function CallLabels(i: nat, cap: nat): seq<Label> {
    [Begin(RunRequest(i, cap))] + [Lookup(i), Load(i), CheckBudget(i)]
  }

  /** The first `k` calls, past their checks. */
  function Waiting(k: nat, x: Scenario): seq<Attempt> {
    if k == 0 then [] else Waiting(k - 1, x) + [Attempt(RunRequest(k - 1, x.cap), x.now, Budgeted, 0)]
  }

  lemma {:induction false} WaitingAt(k: nat, x: Scenario)
    ensures |Waiting(k, x)| == k
    ensures forall t :: 0 <= t < k ==> Waiting(k, x)[t] == Attempt(RunRequest(t, x.cap), x.now, Budgeted, 0)
  {
    if k > 0 { WaitingAt(k - 1, x); }
  }

  /** The first `k` calls have entered; the tables are as they were. */
  function Entered(tables: Tables, k: nat, x: Scenario): State {
    State(x.now, tables, Waiting(k, x), [])
  }

  /** Any number of runs clear their checks on these tables. */
  ghost predicate RunsEnter(tables: Tables, x: Scenario) {
    forall i: nat ::
      var r := RunRequest(i, x.cap);
      FindExisting(tables.approvals, r).None? && QuoteStands(tables, r, x.now) && BudgetAccepts(tables, r, x.now)
  }

  lemma {:induction false} ScenarioRunsEnter(x: Scenario)
    ensures RunsEnter(RunTables(x), x)
  {
    forall i: nat
      ensures QuoteStands(RunTables(x), RunRequest(i, x.cap), x.now)
      ensures BudgetAccepts(RunTables(x), RunRequest(i, x.cap), x.now)
    {
      RunIsQuoted(i, x);
      RunIsAccepted(i, x);
    }
  }

  lemma {:induction false} EnterOne(tables: Tables, n: nat, x: Scenario)
    requires RunsEnter(tables, x)
    ensures Run(Entered(tables, n, x), CallLabels(n, x.cap)) == Entered(tables, n + 1, x)
  {
    WaitingAt(n, x);
    CallEnters(Entered(tables, n, x), RunRequest(n, x.cap));
  }

  /** A run in stages: when each stage leads from one of `states` to the next, so do the
      first `k` of them together. */
  lemma {:induction false} RunInStages(labels: nat -> seq<Label>, stage: nat -> seq<Label>, states: nat -> State,
                                       k: nat)
    requires labels(0) == [] && forall n: nat :: labels(n + 1) == labels(n) + stage(n)
    requires forall n: nat :: Run(states(n), stage(n)) == states(n + 1)
    ensures Run(states(0), labels(k)) == states(k)
  {
    if k > 0 {
      RunInStages(labels, stage, states, k - 1);
      assert labels(k - 1 + 1) == labels(k - 1) + stage(k - 1);
      RunConcat(states(0), labels(k - 1), stage(k - 1));
    }
  }

  lemma {:induction false} EnterRun(tables: Tables, k: nat, x: Scenario)
    requires RunsEnter(tables, x)
    ensures Run(Entered(tables, 0, x), EnterLabels(k, x.cap)) == Entered(tables, k, x)
  {
    forall n: nat ensures Run(Entered(tables, n, x), CallLabels(n, x.cap)) == Entered(tables, n + 1, x) {
      EnterOne(tables, n, x);
    }
    RunInStages((n: nat) => EnterLabels(n, x.cap), (n: nat) => CallLabels(n, x.cap),
                (n: nat) => Entered(tables, n, x), k);
  }

  function FinishLabels(j: nat, x: Scenario): seq<Label> {
    if j == 0 then [] else FinishLabels(j - 1, x) + WriteLabels(j - 1, j - 1, Null, [RunCharge(x)])
  }

  /** `j` of `k` have finished, each with its row and its charge; the rest wait. */
  ghost predicate Shape(s: State, j: nat, k: nat, x: Scenario) {
    && |s.attempts| == k && j <= k
    && (forall t :: j <= t < k ==> s.attempts[t] == Attempt(RunRequest(t, x.cap), x.now, Budgeted, 0))
    && (forall t :: 0 <= t < j ==> s.attempts[t].phase.Committed?)
    && |s.tables.approvals| == j
    && (forall i :: 0 <= i < j ==> s.tables.approvals[i].key == KeyOf(i) && s.tables.approvals[i].id == i)
    && |s.tables.ledger| == 1 + j && s.tables.ledger[0] == SpareCharge(x)
    && (forall i :: 1 <= i < 1 + j ==> s.tables.ledger[i] == RunCharge(x))
  }

  lemma ShapeStep(s: State, j: nat, k: nat, x: Scenario)
    requires j < k && Shape(s, j, k, x)
    ensures Shape(AfterExecution(s, j, j, Null, [RunCharge(x)]), j + 1, k, x)
  {
  }

  lemma RunFits(j: nat, cap: nat)
    requires 100 * cap < TenToThe(12)
    ensures CostFits(RunRequest(j, cap))
  {
    PriceOfRun(j, cap);
  }

  lemma FinishMayWrite(s: State, j: nat, k: nat, x: Scenario)
    requires j < k && 100 * x.cap < TenToThe(12) && Shape(s, j, k, x)
    ensures MayWrite(s, j, j)
  {
    var row := NewRow(RunRequest(j, x.cap), j, x.now);
    forall i | 0 <= i < j ensures !SameKey(s.tables.approvals[i], row) {
      assert |KeyOf(i)| == i && |KeyOf(j)| == j;
    }
    assert forall t :: 0 <= t < k ==> !Holds(s.attempts[t]);
    RunFits(j, x.cap);
  }

  lemma FinishOne(s: State, j: nat, k: nat, x: Scenario)
    requires j < k && 100 * x.cap < TenToThe(12) && Shape(s, j, k, x)
    ensures Shape(Run(s, WriteLabels(j, j, Null, [RunCharge(x)])), j + 1, k, x)
  {
    FinishMayWrite(s, j, k, x);
    WriteSteps(s, j, j, Null, [RunCharge(x)]);
    ShapeStep(s, j, k, x);
  }

  lemma {:induction false} FinishRun(s: State, j: nat, k: nat, x: Scenario)
    requires j <= k && 100 * x.cap < TenToThe(12) && Shape(s, 0, k, x)
    ensures Shape(Run(s, FinishLabels(j, x)), j, k, x)
  {
    if j > 0 {
      var n := j - 1;
      FinishRun(s, n, k, x);
      FinishOne(Run(s, FinishLabels(n, x)), n, k, x);
      RunConcat(s, FinishLabels(n, x), WriteLabels(n, n, Null, [RunCharge(x)]));
    }
  }

  // ---- the run is orderly ----

  /** A label of this scenario: the one tenant, day and price, each dispatch recording it. */
  predicate ScenarioLabel(l: Label, x: Scenario) {
    && (l.Begin? || OfAttempt(l)) && !l.Swallow?
    && (l.Begin? ==> ScenarioRequest(l.req, x.cap))
    && (l.Return? ==> l.charges == [RunCharge(x)])
  }

  predicate ScenarioRequest(r: Request, cap: nat) {
    r.ctx.tenant == 0 && PriceOf(r) == 100 * cap
  }

  ghost predicate ScenarioState(s: State, x: Scenario) {
    s.clock == x.now && forall t :: 0 <= t < |s.attempts| ==>
      s.attempts[t].started == x.now && ScenarioRequest(s.attempts[t].req, x.cap)
  }

  function Begins(ls: seq<Label>): nat {
    if ls == [] then 0 else Begins(ls[..|ls| - 1]) + (if ls[|ls| - 1].Begin? then 1 else 0)
  }

  lemma {:induction false} TotalAtMostLength(attempts: seq<Attempt>, tenant: Id, m: nat)
    ensures Total(attempts, PendingCount(tenant, m)) <= |attempts|
    decreases |attempts|
  {
    if attempts != [] { TotalAtMostLength(attempts[..|attempts| - 1], tenant, m); }
  }

  lemma {:induction false} ScenarioStep(s: State, l: Label, x: Scenario, m: nat, k: nat)
    requires ScenarioState(s, x) && ScenarioLabel(l, x)
    requires |s.attempts| + (if l.Begin? then 1 else 0) <= k
    ensures Orderly(s, l, 0, m, k)
    ensures ScenarioState(Step(s, l), x)
    ensures |Step(s, l).attempts| == |s.attempts| + (if l.Begin? then 1 else 0)
  {
    ScenarioStateStep(s, l, x);
    TotalAtMostLength(Step(s, l).attempts, 0, m);
    if l.Return? && l.t < |s.attempts| {
      ChargeRecordsPrice(s.attempts[l.t], x);
      ChargeCounts(l.charges, s.attempts[l.t], 0, m);
    }
  }

  lemma ScenarioStateStep(s: State, l: Label, x: Scenario)
    requires ScenarioState(s, x) && ScenarioLabel(l, x)
    ensures ScenarioState(Step(s, l), x)
    ensures |Step(s, l).attempts| == |s.attempts| + (if l.Begin? then 1 else 0)
  {
    if !l.Begin? && l.t < |s.attempts| {
      assert Step(s, l) == StepOf(s, l);
      OthersUntouched(s, l);
      SameCall(s, l);
    }
  }

  lemma ChargeRecordsPrice(a: Attempt, x: Scenario)
    requires ScenarioRequest(a.req, x.cap) && a.started == x.now
    ensures RecordsPrice([RunCharge(x)], a)
  {
  }

  lemma {:induction false} ScenarioOrderly(x: Scenario, m: nat, ls: seq<Label>, k: nat)
    requires forall i :: 0 <= i < |ls| ==> ScenarioLabel(ls[i], x)
    requires Begins(ls) <= k
    ensures var s := Start(RunTables(x), x.now);
      && OrderlyRun(s, ls, 0, m, k) && ScenarioState(Run(s, ls), x) && |Run(s, ls).attempts| == Begins(ls)
    decreases |ls|
  {
    if ls != [] {
      var n := |ls| - 1;
      ScenarioOrderly(x, m, ls[..n], k);
      ScenarioStep(Run(Start(RunTables(x), x.now), ls[..n]), ls[n], x, m, k);
    }
  }

  lemma {:induction false} BeginsConcat(a: seq<Label>, b: seq<Label>)
    ensures Begins(a + b) == Begins(a) + Begins(b)
    decreases |b|
  {
    if b == [] {
      assert a + b == a;
    } else {
      BeginsConcat(a, b[..|b| - 1]);
      assert (a + b)[..|a + b| - 1] == a + b[..|b| - 1];
    }
  }

  lemma {:induction false} NoBegins(ls: seq<Label>)
    requires forall i :: 0 <= i < |ls| ==> !ls[i].Begin?
    ensures Begins(ls) == 0
    decreases |ls|
  {
    if ls != [] { NoBegins(ls[..|ls| - 1]); }
  }

  lemma {:induction false} EnterIsScenario(k: nat, x: Scenario)
    ensures forall i :: 0 <= i < |EnterLabels(k, x.cap)| ==> ScenarioLabel(EnterLabels(k, x.cap)[i], x)
    ensures Begins(EnterLabels(k, x.cap)) == k
  {
    if k > 0 {
      var n := k - 1;
      EnterIsScenario(n, x);
      var b, c := [Begin(RunRequest(n, x.cap))], [Lookup(n), Load(n), CheckBudget(n)];
      BeginsConcat(EnterLabels(n, x.cap), b + c);
      BeginsConcat(b, c);
      NoBegins(c);
      assert b[..0] == [];
      assert Begins(b) == 1;
      PriceOfRun(n, x.cap);
      assert forall i :: 0 <= i < |c| ==> ScenarioLabel(c[i], x);
    }
  }

  lemma {:induction false} FinishIsScenario(j: nat, x: Scenario)
    ensures forall i :: 0 <= i < |FinishLabels(j, x)| ==> ScenarioLabel(FinishLabels(j, x)[i], x)
    ensures forall i :: 0 <= i < |FinishLabels(j, x)| ==> !FinishLabels(j, x)[i].Begin?
  {
    if j > 0 { FinishIsScenario(j - 1, x); }
  }

  lemma {:induction false} SumOfSame(ledger: seq<Charge>, c: Charge, counts: Charge -> bool)
    requires forall i :: 0 <= i < |ledger| ==> ledger[i] == c
    requires counts(c)
    ensures SumCosts(ledger, counts) == |ledger| * c.cost
  {
    if ledger != [] {
      SumOfSame(ledger[1..], c, counts);
      Distribute(1, |ledger| - 1, c.cost);
    }
  }

  lemma {:induction false} SpendOfRuns(ledger: seq<Charge>, x: Scenario, m: nat)
    requires |ledger| > 0 && ledger[0] == SpareCharge(x)
    requires forall i :: 1 <= i < |ledger| ==> ledger[i] == RunCharge(x)
    requires m == MonthOf(DayOf(x.now))
    ensures MonthSpend(ledger, Some(0), MonthStart(m)) == 100 * x.spare + (|ledger| - 1) * (100 * x.cap)
  {
    WindowOfFirst(m, DayOf(x.now));
    SumOfSame(ledger[1..], RunCharge(x), InWindow(Some(0), MonthStart(m)));
  }

  function TightLabels(k: nat, x: Scenario): seq<Label> {
    EnterLabels(k, x.cap) + FinishLabels(k, x)
  }

  lemma TightIsScenario(k: nat, x: Scenario)
    ensures forall i :: 0 <= i < |TightLabels(k, x)| ==> ScenarioLabel(TightLabels(k, x)[i], x)
    ensures Begins(TightLabels(k, x)) == k
  {
    EnterIsScenario(k, x);
    FinishIsScenario(k, x);
    NoBegins(FinishLabels(k, x));
    BeginsConcat(EnterLabels(k, x.cap), FinishLabels(k, x));
  }

  lemma {:induction false} TightStart(x: Scenario, m: nat)
    requires m == MonthOf(DayOf(x.now))
    ensures HardBudget(RunTables(x), 0, m, RunBudget(x))
    ensures SpentIn(RunTables(x), 0, m) == 100 * x.spare
  {
    BudgetFound(x, MonthStart(m));
    SpentAtFirst(x, m);
  }

  lemma {:induction false} AllFinished(k: nat, x: Scenario)
    requires 100 * x.cap < TenToThe(12)
    ensures Shape(Run(Start(RunTables(x), x.now), TightLabels(k, x)), k, k, x)
  {
    RunConcat(Start(RunTables(x), x.now), EnterLabels(k, x.cap), FinishLabels(k, x));
    ScenarioRunsEnter(x);
    EnterRun(RunTables(x), k, x);
    EnteredShape(k, x);
    FinishRun(Entered(RunTables(x), k, x), k, k, x);
  }

  lemma EnteredShape(k: nat, x: Scenario)
    ensures Shape(Entered(RunTables(x), k, x), 0, k, x)
  {
    WaitingAt(k, x);
  }

  lemma {:induction false} SpendOfShape(s: State, k: nat, x: Scenario, m: nat)
    requires Shape(s, k, k, x) && m == MonthOf(DayOf(x.now))
    ensures SpentIn(s.tables, 0, m) == 100 * x.spare + k * (100 * x.cap)
  {
    SpendOfRuns(s.tables.ledger, x, m);
  }

  lemma {:induction false} FinalSpend(k: nat, x: Scenario, m: nat)
    requires 100 * x.cap < TenToThe(12) && m == MonthOf(DayOf(x.now))
    ensures SpentIn(Run(Start(RunTables(x), x.now), TightLabels(k, x)).tables, 0, m)
         == 100 * x.spare + k * (100 * x.cap)
  {
    AllFinished(k, x);
    SpendOfShape(Run(Start(RunTables(x), x.now), TightLabels(k, x)), k, x, m);
  }

  lemma TightTotal(k: nat, x: Scenario)
    ensures 100 * x.spare + k * (100 * x.cap) == 100 * (x.spare + x.cap) + (k - 1) * (100 * x.cap)
  {
    Distribute(1, k - 1, 100 * x.cap);
  }

  /** For every `k`, moment, run cap and month cap of at least the run cap there is an orderly
      run with at most `k` pending executions, from a month spent up to one run cap below its
      cap, that ends exactly `k - 1` run caps over it. */
  lemma {:induction false} CapBoundIsTight(k: nat, x: Scenario, m: nat) returns (ls: seq<Label>)
    requires k >= 1 && 100 * x.cap < TenToThe(12) && m == MonthOf(DayOf(x.now))
    ensures HardBudget(RunTables(x), 0, m, RunBudget(x))
    ensures SpentIn(RunTables(x), 0, m) == 100 * (RunBudget(x).monthlyCap - RunBudget(x).perRunCap)
    ensures OrderlyRun(Start(RunTables(x), x.now), ls, 0, m, k)
    ensures SpentIn(Run(Start(RunTables(x), x.now), ls).tables, 0, m)
         == 100 * RunBudget(x).monthlyCap + (k - 1) * (100 * RunBudget(x).perRunCap)
  {
    ls := TightLabels(k, x);
    TightStart(x, m);
    TightOrderly(k, x, m);
    TightEnd(k, x, m);
  }

  lemma {:induction false} TightEnd(k: nat, x: Scenario, m: nat)
    requires 100 * x.cap < TenToThe(12) && m == MonthOf(DayOf(x.now))
    ensures SpentIn(Run(Start(RunTables(x), x.now), TightLabels(k, x)).tables, 0, m)
         == 100 * RunBudget(x).monthlyCap + (k - 1) * (100 * RunBudget(x).perRunCap)
  {
    var spent := SpentIn(Run(Start(RunTables(x), x.now), TightLabels(k, x)).tables, 0, m);
    assert spent == 100 * x.spare + k * (100 * x.cap) by { FinalSpend(k, x, m); }
    TightTotal(k, x);
  }

  lemma {:induction false} TightOrderly(k: nat, x: Scenario, m: nat)
    ensures OrderlyRun(Start(RunTables(x), x.now), TightLabels(k, x), 0, m, k)
  {
    TightIsScenario(k, x);
    ScenarioOrderly(x, m, TightLabels(k, x), k);
  }
}
