/** Races and replays: what losers of a race see, what the winner would have done alone,
    and what a later call with the same key is handed. */
module LadderReplay {
  import opened Prelude
  import opened Decimal
  import opened PriceDrift
  import opened Cost
  import opened Json
  import opened Ladder
  import opened LadderMachine
  import opened LadderHistory
  import opened LadderSafety

  lemma RunSnoc(s: State, ls: seq<Label>, l: Label)
    ensures Run(s, ls + [l]) == Step(Run(s, ls), l)
  {
    assert (ls + [l])[..|ls|] == ls;
  }

  lemma {:induction false} RunConcat(s: State, a: seq<Label>, b: seq<Label>)
    ensures Run(s, a + b) == Run(Run(s, a), b)
    decreases |b|
  {
    if b == [] {
      assert a + b == a;
    } else {
      var n := |b| - 1;
      RunConcat(s, a, b[..n]);
      assert (a + b)[..|a + b| - 1] == a + b[..n];
      assert (a + b)[|a + b| - 1] == b[n];
    }
  }

  // ---- one call, from any state that lets it through ----

  /** Every check passes for attempt `t`. */
  ghost predicate ChecksPass(s: State, t: nat)
    requires t < |s.attempts|
  {
    var a := s.attempts[t];
    && FindExisting(s.tables.approvals, a.req).None?
    && QuoteStands(s.tables, a.req, s.clock)
    && BudgetAccepts(s.tables, a.req, a.started)
  }

  lemma RunOne(s: State, a: Label)
    ensures Run(s, [a]) == Step(s, a)
  {
    RunSnoc(s, [], a);
    assert [] + [a] == [a];
  }

  lemma RunThree(s: State, a: Label, b: Label, c: Label)
    ensures Run(s, [a, b, c]) == Step(Step(Step(s, a), b), c)
  {
    RunOne(s, a);
    RunSnoc(s, [a], b);
    RunSnoc(s, [a] + [b], c);
    assert [a] + [b] + [c] == [a, b, c];
  }

  lemma {:induction false} LookupMisses(s: State, t: nat)
    requires t < |s.attempts| && s.attempts[t].phase.Begun? && ChecksPass(s, t)
    ensures Step(s, Lookup(t)) == Put(s, t, Missed)
  {
  }

  lemma {:induction false} LoadPasses(s: State, t: nat)
    requires t < |s.attempts| && ChecksPass(s, t)
    ensures Step(Put(s, t, Missed), Load(t)) == Put(s, t, Quoted)
  {
    QuoteDecides(s.tables, s.attempts[t].req, s.clock);
    assert Put(Put(s, t, Missed), t, Quoted) == Put(s, t, Quoted);
  }

  lemma {:induction false} BudgetPasses(s: State, t: nat)
    requires t < |s.attempts| && ChecksPass(s, t)
    ensures Step(Put(s, t, Quoted), CheckBudget(t)) == Put(s, t, Budgeted)
  {
    assert Put(Put(s, t, Quoted), t, Budgeted) == Put(s, t, Budgeted);
  }

  lemma {:induction false} CheckSteps(s: State, t: nat)
    requires t < |s.attempts| && s.attempts[t].phase.Begun? && ChecksPass(s, t)
    ensures Run(s, [Lookup(t), Load(t), CheckBudget(t)]) == Put(s, t, Budgeted)
  {
    RunThree(s, Lookup(t), Load(t), CheckBudget(t));
    LookupMisses(s, t);
    LoadPasses(s, t);
    BudgetPasses(s, t);
  }

  /** A new call that clears every check stands past them, next to whatever else goes on. */
  lemma {:induction false} CallEnters(s: State, r: Request)
    requires FindExisting(s.tables.approvals, r).None? && QuoteStands(s.tables, r, s.clock)
    requires BudgetAccepts(s.tables, r, s.clock)
    ensures var t := |s.attempts|;
      Run(s, [Begin(r)] + [Lookup(t), Load(t), CheckBudget(t)])
      == s.(attempts := s.attempts + [Attempt(r, s.clock, Budgeted, 0)])
  {
    var t := |s.attempts|;
    var begun := s.(attempts := s.attempts + [Attempt(r, s.clock, Begun, 0)]);
    RunOne(s, Begin(r));
    RunConcat(s, [Begin(r)], [Lookup(t), Load(t), CheckBudget(t)]);
    CheckSteps(begun, t);
    BudgetedLast(s, r);
  }

  lemma BudgetedLast(s: State, r: Request)
    ensures Put(s.(attempts := s.attempts + [Attempt(r, s.clock, Begun, 0)]), |s.attempts|, Budgeted)
         == s.(attempts := s.attempts + [Attempt(r, s.clock, Budgeted, 0)])
  {
    var a, b := Attempt(r, s.clock, Begun, 0), Attempt(r, s.clock, Budgeted, 0);
    assert (s.attempts + [a])[|s.attempts| := b] == s.attempts + [b];
  }

  function WithWrites(tables: Tables, row: Approval, charges: seq<Charge>, card: Card): Tables {
    tables.(approvals := tables.approvals + [row], ledger := tables.ledger + charges, cards := tables.cards + [card])
  }

  /** An execution's record once it has committed. */
  function Finished(a: Attempt, names: map<Id, string>, id: Id, result: Value, charges: seq<Charge>): Attempt {
    Attempt(a.req, a.started,
            Committed(Wrote(FinalRow(a.req, id, a.started, result), charges, ExecuteCard(a.req, names, a.started, id),
                            FreshResponse(a.req, id, result))), 1)
  }

  /** Commit of attempt `t` with its row, charges and card. */
  function AfterExecution(s: State, t: nat, id: Id, result: Value, charges: seq<Charge>): State
    requires t < |s.attempts|
  {
    var a := s.attempts[t];
    State(s.clock, WithWrites(s.tables, FinalRow(a.req, id, a.started, result), charges,
                              ExecuteCard(a.req, s.tables.names, a.started, id)),
          s.attempts[t := Finished(a, s.tables.names, id, result, charges)], s.commits + [t])
  }

  function At(s: State, t: nat, phase: Phase, dispatches: nat): State
    requires t < |s.attempts|
  {
    s.(attempts := s.attempts[t := s.attempts[t].(phase := phase, dispatches := dispatches)])
  }

  /** Past the checks, with the key and the id free. */
  ghost predicate MayClaim(s: State, t: nat, id: Id)
    requires t < |s.attempts|
  {
    var a := s.attempts[t];
    && a.phase.Budgeted? && a.dispatches == 0
    && !KeyCommitted(s, NewRow(a.req, id, a.started)) && !KeyHeld(s, NewRow(a.req, id, a.started)) && FreshId(s, id)
  }

  /** And what is written fits. */
  ghost predicate MayWrite(s: State, t: nat, id: Id)
    requires t < |s.attempts|
  {
    MayClaim(s, t, id) && CostFits(s.attempts[t].req) && IsActorRole(s.attempts[t].req.ctx.role)
  }

  lemma ClaimStep(s: State, t: nat, id: Id)
    requires t < |s.attempts| && MayClaim(s, t, id)
    ensures Step(s, Claim(t, id)) == At(s, t, Holding(NewRow(s.attempts[t].req, id, s.attempts[t].started)), 0)
  {
  }

  lemma DispatchStep(s: State, t: nat, row: Approval)
    requires t < |s.attempts|
    ensures Step(At(s, t, Holding(row), 0), Dispatch(t)) == At(s, t, Dispatching(row), 1)
  {
  }

  lemma ReturnStep(s: State, t: nat, row: Approval, result: Value, charges: seq<Charge>)
    requires t < |s.attempts|
    ensures Step(At(s, t, Dispatching(row), 1), Return(t, result, charges))
         == At(s, t, Dispatched(row, result, charges), 1)
  {
  }

  lemma MarkStep(s: State, t: nat, row: Approval, result: Value, charges: seq<Charge>)
    requires t < |s.attempts| && UpdateFits(s.attempts[t].req, result)
    ensures Step(At(s, t, Dispatched(row, result, charges), 1), Mark(t))
         == At(s, t, Marked(MarkRow(row, s.attempts[t].req, s.attempts[t].started, result), result, charges), 1)
  {
  }

  lemma CardStep(s: State, t: nat, row: Approval, result: Value, charges: seq<Charge>)
    requires t < |s.attempts| && IsActorRole(s.attempts[t].req.ctx.role)
    ensures Step(At(s, t, Marked(row, result, charges), 1), AddCard(t))
         == At(s, t, Carded(row, result, charges,
                            ExecuteCard(s.attempts[t].req, s.tables.names, s.attempts[t].started, row.id)), 1)
  {
  }

  lemma CommitStep(s: State, t: nat, id: Id, result: Value, charges: seq<Charge>)
    requires t < |s.attempts|
    ensures var a := s.attempts[t];
      Step(At(s, t, Carded(FinalRow(a.req, id, a.started, result), result, charges,
                           ExecuteCard(a.req, s.tables.names, a.started, id)), 1), Commit(t))
      == AfterExecution(s, t, id, result, charges)
  {
  }

  /** The statements of a call from its insert on. */
  function WriteLabels(t: nat, id: Id, result: Value, charges: seq<Charge>): seq<Label> {
    [Claim(t, id), Dispatch(t), Return(t, result, charges), Mark(t), AddCard(t), Commit(t)]
  }

  /** From the insert to the return of the dispatch. */
  lemma {:induction false} DispatchedSteps(s: State, t: nat, id: Id, result: Value, charges: seq<Charge>)
    requires t < |s.attempts| && MayClaim(s, t, id)
    ensures Run(s, [Claim(t, id)] + [Dispatch(t)] + [Return(t, result, charges)])
         == At(s, t, Dispatched(NewRow(s.attempts[t].req, id, s.attempts[t].started), result, charges), 1)
  {
    var row := NewRow(s.attempts[t].req, id, s.attempts[t].started);
    RunOne(s, Claim(t, id));
    ClaimStep(s, t, id);
    RunSnoc(s, [Claim(t, id)], Dispatch(t));
    DispatchStep(s, t, row);
    RunSnoc(s, [Claim(t, id)] + [Dispatch(t)], Return(t, result, charges));
    ReturnStep(s, t, row, result, charges);
  }

  /** Whoever gets past the checks with a free key commits exactly its final row, its
      charges and its card, next to anything else that is going on. */
  lemma {:induction false} WriteSteps(s: State, t: nat, id: Id, result: Value, charges: seq<Charge>)
    requires t < |s.attempts| && MayWrite(s, t, id) && Storable(result)
    ensures Run(s, WriteLabels(t, id, result, charges)) == AfterExecution(s, t, id, result, charges)
  {
    var a := s.attempts[t];
    var c := [Claim(t, id)] + [Dispatch(t)] + [Return(t, result, charges)];
    DispatchedSteps(s, t, id, result, charges);
    RunSnoc(s, c, Mark(t));
    MarkStep(s, t, NewRow(a.req, id, a.started), result, charges);
    RunSnoc(s, c + [Mark(t)], AddCard(t));
    CardStep(s, t, FinalRow(a.req, id, a.started, result), result, charges);
    RunSnoc(s, c + [Mark(t)] + [AddCard(t)], Commit(t));
    CommitStep(s, t, id, result, charges);
    assert c + [Mark(t)] + [AddCard(t)] + [Commit(t)] == WriteLabels(t, id, result, charges);
  }

  // ---- one call with nobody else around ----

  /** The statements of a single call, in order. */
  function SoloLabels(r: Request, id: Id, result: Value, charges: seq<Charge>): seq<Label> {
    [Begin(r)] + [Lookup(0), Load(0), CheckBudget(0)] + WriteLabels(0, id, result, charges)
  }

  /** Every check passes on these tables, and the id is new. */
  ghost predicate Clears(tables: Tables, now: nat, r: Request, id: Id) {
    && FindExisting(tables.approvals, r).None?
    && QuoteStands(tables, r, now)
    && BudgetAccepts(tables, r, now)
    && (forall i :: 0 <= i < |tables.approvals| ==> tables.approvals[i].id != id)
  }

  lemma {:induction false} SoloMayClaim(tables: Tables, now: nat, r: Request, id: Id)
    requires Clears(tables, now, r, id)
    ensures MayClaim(State(now, tables, [Attempt(r, now, Budgeted, 0)], []), 0, id)
  {
    assert OwnQuote(tables, r);
    forall i | 0 <= i < |tables.approvals| ensures !SameKey(tables.approvals[i], NewRow(r, id, now)) {
      assert tables.approvals[i] in tables.approvals;
    }
  }

  /** A call that clears every check and runs alone commits exactly its final row, its
      charges and its card. */
  lemma {:induction false} SoloRun(tables: Tables, now: nat, r: Request, id: Id, result: Value, charges: seq<Charge>)
    requires Clears(tables, now, r, id) && UpdateFits(r, result) && IsActorRole(r.ctx.role)
    ensures var s := Run(Start(tables, now), SoloLabels(r, id, result, charges));
      && s.attempts == [Finished(Attempt(r, now, Begun, 0), tables.names, id, result, charges)]
      && s.tables == WithWrites(tables, FinalRow(r, id, now, result), charges, ExecuteCard(r, tables.names, now, id))
  {
    var s := Start(tables, now);
    var s2 := State(now, tables, [Attempt(r, now, Budgeted, 0)], []);
    SoloChecks(tables, now, r, id);
    RunConcat(s, [Begin(r)] + [Lookup(0), Load(0), CheckBudget(0)], WriteLabels(0, id, result, charges));
    SoloMayClaim(tables, now, r, id);
    WriteSteps(s2, 0, id, result, charges);
  }

  lemma {:induction false} SoloChecks(tables: Tables, now: nat, r: Request, id: Id)
    requires Clears(tables, now, r, id)
    ensures Run(Start(tables, now), [Begin(r)] + [Lookup(0), Load(0), CheckBudget(0)])
         == State(now, tables, [Attempt(r, now, Budgeted, 0)], [])
  {
    CallEnters(Start(tables, now), r);
    assert [] + [Attempt(r, now, Budgeted, 0)] == [Attempt(r, now, Budgeted, 0)];
  }

  // ---- races on one key ----

  lemma OneRowPerKey(approvals: seq<Approval>, i: nat, j: nat)
    requires UniqueRows(approvals) && i < |approvals| && j < |approvals| && SameKey(approvals[i], approvals[j])
    ensures i == j
  {
    var lo, hi := if i < j then i else j, if i < j then j else i;
    assert lo < hi ==> !SameKey(approvals[lo], approvals[hi]);
  }

  lemma HeldKeyIsFree(s: State, base: Tables, t: nat, u: nat)
    requires Unique(s) && Serial(s, base) && t < |s.attempts| && u < |s.attempts|
    requires Published(s.attempts[t]) && Holds(s.attempts[u])
    ensures !SameKey(RowOf(s.attempts[t]), s.attempts[u].phase.row)
  {
    var i := PublishedAt(s, base, t);
    assert Apart(s.tables.approvals[|base.approvals| + i], s.attempts[u].phase.row);
  }

  lemma CommittedRowOfKey(s: State, base: Tables, t: nat, i: nat)
    requires Unique(s) && Serial(s, base) && t < |s.attempts| && Published(s.attempts[t])
    requires i < |s.tables.approvals| && SameKey(s.tables.approvals[i], RowOf(s.attempts[t]))
    ensures s.tables.approvals[i] == RowOf(s.attempts[t])
  {
    var k := PublishedAt(s, base, t);
    var j := |base.approvals| + k;
    OneRowPerKey(s.tables.approvals, i, j);
  }

  predicate SameCallKey(a: Request, b: Request) {
    a.tenant == b.tenant && a.key == b.key
  }

  lemma {:induction false} RivalHasNoRow(s: State, base: Tables, t: nat, u: nat)
    requires Unique(s) && AllOk(s) && Serial(s, base)
    requires t < |s.attempts| && u < |s.attempts| && t != u && Published(s.attempts[t])
    requires SameCallKey(s.attempts[t].req, s.attempts[u].req)
    ensures !Published(s.attempts[u]) && !Holds(s.attempts[u])
  {
    assert AttemptOk(s.tables, s.attempts[t]) && AttemptOk(s.tables, s.attempts[u]);
    var lo, hi := if t < u then t else u, if t < u then u else t;
    if Published(s.attempts[u]) {
      OneLive(s, base, lo, hi);
    } else if Holds(s.attempts[u]) {
      HeldKeyIsFree(s, base, t, u);
    }
  }

  lemma {:induction false} PublishedRowIsItsRequests(tables: Tables, a: Attempt)
    requires AttemptOk(tables, a) && Published(a)
    ensures RowOf(a).tenant == a.req.tenant && RowOf(a).key == a.req.key && RowOf(a).previewId == Some(a.req.previewId)
  {
  }

  lemma {:induction false} RivalReplaysWinner(s: State, base: Tables, t: nat, r: Request, response: Response)
    requires Unique(s) && AllOk(s) && Serial(s, base) && t < |s.attempts| && Published(s.attempts[t])
    requires SameCallKey(s.attempts[t].req, r) && ReplayedFrom(s.tables, r, response)
    ensures response == ReplayOf(RowOf(s.attempts[t])) && r.previewId == s.attempts[t].req.previewId
  {
    PublishedRowIsItsRequests(s.tables, s.attempts[t]);
    var i :| 0 <= i < |s.tables.approvals| && Matches(s.tables.approvals[i], r.ctx, r.tenant, r.key)
          && s.tables.approvals[i].previewId == Some(r.previewId) && response == ReplayOf(s.tables.approvals[i]);
    CommittedRowOfKey(s, base, t, i);
  }

  /** Once an attempt has committed an execution, every other attempt on its tenant and key
      has no row, pending or committed.  If it succeeded it was handed exactly the winner's
      stored response, for the same preview; if the ladder refused it, it never dispatched. */
  lemma {:induction false} WinnerTakesAll(tables: Tables, clock: nat, ls: seq<Label>, t: nat, u: nat)
    requires ValidTables(tables) && t != u
    requires t < |Run(Start(tables, clock), ls).attempts| && u < |Run(Start(tables, clock), ls).attempts|
    requires Published(Run(Start(tables, clock), ls).attempts[t])
    requires SameCallKey(Run(Start(tables, clock), ls).attempts[t].req, Run(Start(tables, clock), ls).attempts[u].req)
    ensures var s := Run(Start(tables, clock), ls);
      var row, rival := RowOf(s.attempts[t]), s.attempts[u];
      && (forall i :: 0 <= i < |s.tables.approvals| && SameKey(s.tables.approvals[i], row) ==>
        s.tables.approvals[i] == row)
      && !Published(rival) && !Holds(rival)
      && (rival.phase.Committed? ==>
            rival.phase.effect == Nothing(ReplayOf(row)) && rival.req.previewId == s.attempts[t].req.previewId
            && rival.dispatches == 0)
      && (rival.phase.RolledBack? && rival.dispatches > 0 ==>
            rival.phase.problem == DispatchFailed || rival.phase.problem == DatabaseError)
  {
    var s := Run(Start(tables, clock), ls);
    UniqueRun(tables, clock, ls);
    AllOkRun(tables, clock, ls);
    SerialRun(tables, clock, ls);
    RivalHasNoRow(s, tables, t, u);
    forall i | 0 <= i < |s.tables.approvals| && SameKey(s.tables.approvals[i], RowOf(s.attempts[t]))
      ensures s.tables.approvals[i] == RowOf(s.attempts[t])
    {
      CommittedRowOfKey(s, tables, t, i);
    }
    assert AttemptOk(s.tables, s.attempts[u]);
    if s.attempts[u].phase.Committed? {
      RivalReplaysWinner(s, tables, t, s.attempts[u].req, s.attempts[u].phase.effect.response);
    }
  }

  /** The winner of a race ends as it would have ended alone: the same row, charges, card
      and response, whatever tables it had run on, as long as its checks pass on them. */
  lemma {:induction false} WinnerAsIfAlone(tables: Tables, clock: nat, ls: seq<Label>, t: nat, alone: Tables)
    requires t < |Run(Start(tables, clock), ls).attempts|
    requires Published(Run(Start(tables, clock), ls).attempts[t])
    requires Run(Start(tables, clock), ls).attempts[t].phase.effect.Wrote?
    requires alone.names == tables.names
    requires var a := Run(Start(tables, clock), ls).attempts[t]; Clears(alone, a.started, a.req, a.phase.effect.row.id)
    ensures var a := Run(Start(tables, clock), ls).attempts[t];
      var effect := a.phase.effect;
      effect.response.result.Some? &&
      var solo := Run(Start(alone, a.started),
                      SoloLabels(a.req, effect.row.id, effect.response.result.value, effect.charges));
      && solo.attempts == [a]
      && solo.tables == WithWrites(alone, effect.row, effect.charges, effect.card)
  {
    var s := Run(Start(tables, clock), ls);
    AllOkRun(tables, clock, ls);
    ExtendsRun(Start(tables, clock), ls);
    assert AttemptOk(s.tables, s.attempts[t]);
    var a := s.attempts[t];
    SoloRun(alone, a.started, a.req, a.phase.effect.row.id, a.phase.effect.response.result.value,
            a.phase.effect.charges);
  }

  // ---- sequential replay ----

  lemma LookupFinds(s: State, u: nat, row: Approval)
    requires UniqueRows(s.tables.approvals) && row in s.tables.approvals
    requires u < |s.attempts| && s.attempts[u].phase.Begun?
    requires Matches(row, s.attempts[u].req.ctx, s.attempts[u].req.tenant, s.attempts[u].req.key)
    ensures FindExisting(s.tables.approvals, s.attempts[u].req) == Some(row)
  {
    var found := FindExisting(s.tables.approvals, s.attempts[u].req);
    var i :| 0 <= i < |s.tables.approvals| && s.tables.approvals[i] == row;
    assert s.tables.approvals[i] in s.tables.approvals;
    var j :| 0 <= j < |s.tables.approvals| && s.tables.approvals[j] == found.value;
    OneRowPerKey(s.tables.approvals, i, j);
  }

  lemma ReplaySteps(s: State, u: nat, row: Approval)
    requires u < |s.attempts| && s.attempts[u].phase.Begun? && s.attempts[u].dispatches == 0
    requires FindExisting(s.tables.approvals, s.attempts[u].req) == Some(row)
    requires row.previewId == Some(s.attempts[u].req.previewId)
    ensures var done := Step(Step(s, Lookup(u)), Commit(u));
      && done.tables == s.tables
      && done.attempts == s.attempts[u := Attempt(s.attempts[u].req, s.attempts[u].started,
                                                  Committed(Nothing(ReplayOf(row))), 0)]
  {
    assert Step(s, Lookup(u)) == Put(s, u, Replaying(ReplayOf(row)));
  }

  /** After an execution commits and after anything else happens -- other executions,
      expiry, new budgets or ledger rows -- a call with the same tenant, key and preview is
      handed the stored response and commits without dispatch, approval or card. */
  lemma ReplayRoundTrip(tables: Tables, clock: nat, ls: seq<Label>, t: nat, more: seq<Label>, u: nat)
    requires ValidTables(tables)
    requires t < |Run(Start(tables, clock), ls).attempts|
    requires Published(Run(Start(tables, clock), ls).attempts[t])
    requires u < |Run(Start(tables, clock), ls + more).attempts|
    requires var a, b := Run(Start(tables, clock), ls).attempts[t], Run(Start(tables, clock), ls + more).attempts[u];
      && b.phase.Begun? && b.req.ctx.tenant == b.req.tenant
      && SameCallKey(a.req, b.req) && a.req.previewId == b.req.previewId
    ensures var row := RowOf(Run(Start(tables, clock), ls).attempts[t]);
      var s := Run(Start(tables, clock), ls + more);
      var done := Step(Step(s, Lookup(u)), Commit(u));
      && done.tables == s.tables
      && done.attempts == s.attempts[u := Attempt(s.attempts[u].req, s.attempts[u].started,
                                                  Committed(Nothing(ReplayOf(row))), 0)]
  {
    var s0 := Run(Start(tables, clock), ls);
    var s := Run(Start(tables, clock), ls + more);
    RunConcat(Start(tables, clock), ls, more);
    SerialRun(tables, clock, ls);
    AllOkRun(tables, clock, ls);
    UniqueRun(tables, clock, ls + more);
    AllOkRun(tables, clock, ls + more);
    StoredRowPersists(s0, tables, t, s, more);
    assert AttemptOk(s0.tables, s0.attempts[t]) && AttemptOk(s.tables, s.attempts[u]);
    LookupFinds(s, u, RowOf(s0.attempts[t]));
    ReplaySteps(s, u, RowOf(s0.attempts[t]));
  }

  lemma StoredRowPersists(s0: State, base: Tables, t: nat, s: State, more: seq<Label>)
    requires Serial(s0, base) && t < |s0.attempts| && Published(s0.attempts[t]) && s == Run(s0, more)
    ensures RowOf(s0.attempts[t]) in s.tables.approvals
  {
    ExtendsRun(s0, more);
    var k := PublishedAt(s0, base, t);
    assert s.tables.approvals[|base.approvals| + k] == RowOf(s0.attempts[t]);
  }

  /** The replay of a finished execution, next to what the call itself returned. */
  ghost predicate ReplaysFinished(replay: Response, id: Id, price: real, returned: Response) {
    && returned.result.Some? && returned == Response(id, Executed, Some(price), returned.result)
    && replay.approvalId == id && replay.status == Executed
    && (exists n :: NearestAway(price * 10000.0, n) && replay.cost == Some(TenThousandths(n)))
    && replay.result.Some? && ComesBackAs(returned.result.value, replay.result.value)
  }

  lemma WrittenReplays(now: Tables, a: Attempt)
    requires AttemptOk(now, a) && Published(a) && a.phase.effect.Wrote?
    ensures ReplaysFinished(ReplayOf(RowOf(a)), a.phase.effect.row.id, a.req.reprice, a.phase.effect.response)
  {
    WrittenTells(now, a);
    assert NearestAway(a.req.reprice * 10000.0, a.phase.effect.row.cost.value);
  }

  /** What a replay hands back, field by field: the approval of a finished execution with its
      price rounded to column units and its result as JSON keeps it; of a swallowed dispatch
      error an unfinished one. */
  lemma {:induction false} ReplayTells(tables: Tables, clock: nat, ls: seq<Label>, t: nat)
    requires t < |Run(Start(tables, clock), ls).attempts|
    requires Published(Run(Start(tables, clock), ls).attempts[t])
    ensures var a := Run(Start(tables, clock), ls).attempts[t];
      var effect, replay := a.phase.effect, ReplayOf(RowOf(a));
      && (effect.Swallowed? ==> replay == Response(effect.row.id, Executing, None, None))
      && (effect.Wrote? ==> ReplaysFinished(replay, effect.row.id, a.req.reprice, effect.response))
  {
    AllOkRun(tables, clock, ls);
    var s := Run(Start(tables, clock), ls);
    assert AttemptOk(s.tables, s.attempts[t]);
    if s.attempts[t].phase.effect.Wrote? {
      WrittenReplays(s.tables, s.attempts[t]);
    } else {
      SwallowedTells(s.tables, s.attempts[t]);
    }
  }

  /** The replayed response is the original one exactly when the price has at most four
      decimals and the result is JSON-native. */
  lemma {:induction false} ReplayEqualsOriginal(tables: Tables, clock: nat, ls: seq<Label>, t: nat)
    requires t < |Run(Start(tables, clock), ls).attempts|
    requires Published(Run(Start(tables, clock), ls).attempts[t])
    requires Run(Start(tables, clock), ls).attempts[t].phase.effect.Wrote?
    ensures var a := Run(Start(tables, clock), ls).attempts[t];
      && a.phase.effect.response.result.Some?
      && (ReplayOf(RowOf(a)) == a.phase.effect.response <==>
            a.req.reprice == TenThousandths(StoredUnits(a.req.reprice)) && Native(a.phase.effect.response.result.value))
      && UpdateFits(a.req, a.phase.effect.response.result.value)
  {
    AllOkRun(tables, clock, ls);
    var s := Run(Start(tables, clock), ls);
    assert AttemptOk(s.tables, s.attempts[t]);
    var a := s.attempts[t];
    ReplayIsFaithful(a.req, RowOf(a).id, a.started, a.phase.effect.response.result.value);
  }
}
