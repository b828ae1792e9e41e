/** Inputs at which the ladder decides otherwise than its documentation, with the exact
    conditions. */
module LadderEdges {
  import opened Prelude
  import opened Cost
  import opened Json
  import opened Ladder
  import opened LadderMachine
  import opened LadderHistory
  import opened LadderReplay
  import opened LadderOvershoot

  // ---- the insert of a racing call ----

  function RowFor(s: State, t: nat, id: Id): Approval
    requires t < |s.attempts|
  {
    NewRow(s.attempts[t].req, id, s.attempts[t].started)
  }

  lemma HeldIsNotCommitted(s: State, row: Approval)
    requires Unique(s)
    ensures !(KeyHeld(s, row) && KeyCommitted(s, row))
  {
    forall i, u | 0 <= i < |s.tables.approvals| && 0 <= u < |s.attempts| && Holds(s.attempts[u])
      ensures !(SameKey(s.tables.approvals[i], row) && SameKey(s.attempts[u].phase.row, row))
    {
      assert Apart(s.tables.approvals[i], s.attempts[u].phase.row);
    }
  }

  predicate HoldsKey(a: Attempt, row: Approval) {
    Holds(a) && SameKey(a.phase.row, row)
  }

  /** At most one open transaction has inserted the key. */
  ghost predicate OneHolder(s: State, row: Approval) {
    forall u, v :: 0 <= u < v < |s.attempts| ==> !(HoldsKey(s.attempts[u], row) && HoldsKey(s.attempts[v], row))
  }

  lemma HolderIsUnique(s: State, row: Approval)
    requires Unique(s)
    ensures OneHolder(s, row)
  {
    forall u, v | 0 <= u < v < |s.attempts| ensures !(HoldsKey(s.attempts[u], row) && HoldsKey(s.attempts[v], row)) {
      assert Holds(s.attempts[u]) && Holds(s.attempts[v]) ==> Apart(s.attempts[u].phase.row, s.attempts[v].phase.row);
    }
  }

  /** The insert of a call past its checks, in every interleaving: it waits exactly while an
      open transaction holds the key, fails exactly when a committed approval has it, and
      goes through exactly when neither does.  Both never happen at once, and the holder it
      waits for is the only one. */
  lemma {:induction false} ClaimDecides(tables: Tables, clock: nat, ls: seq<Label>, t: nat, id: Id)
    requires ValidTables(tables)
    requires t < |Run(Start(tables, clock), ls).attempts| && Run(Start(tables, clock), ls).attempts[t].phase.Budgeted?
    requires FreshId(Run(Start(tables, clock), ls), id)
    ensures var s := Run(Start(tables, clock), ls);
      var row, after := RowFor(s, t, id), Step(s, Claim(t, id));
      && t < |after.attempts|
      && (after == s <==> KeyHeld(s, row))
      && (after.attempts[t].phase == RolledBack(DuplicateIdempotencyKey) <==> KeyCommitted(s, row))
      && (after.attempts[t].phase == Holding(row) <==> !KeyHeld(s, row) && !KeyCommitted(s, row))
      && !(KeyHeld(s, row) && KeyCommitted(s, row))
      && OneHolder(s, row)
  {
    var s := Run(Start(tables, clock), ls);
    UniqueRun(tables, clock, ls);
    HeldIsNotCommitted(s, RowFor(s, t, id));
    HolderIsUnique(s, RowFor(s, t, id));
    ClaimCases(s, t, id);
  }

  lemma ClaimCases(s: State, t: nat, id: Id)
    requires t < |s.attempts| && s.attempts[t].phase.Budgeted? && FreshId(s, id)
    ensures var row, after := RowFor(s, t, id), Step(s, Claim(t, id));
      && t < |after.attempts|
      && (KeyCommitted(s, row) ==> after.attempts[t].phase == RolledBack(DuplicateIdempotencyKey))
      && (!KeyCommitted(s, row) && KeyHeld(s, row) ==> after == s)
      && (!KeyCommitted(s, row) && !KeyHeld(s, row) ==> after.attempts[t].phase == Holding(row))
  {
  }

  // ---- a run in which a second call waits ----

  function EnterCall(t: nat, r: Request): seq<Label> {
    [Begin(r)] + [Lookup(t), Load(t), CheckBudget(t)]
  }

  function PhaseAt(s: State, t: nat): Option<Phase> {
    if t < |s.attempts| then Some(s.attempts[t].phase) else None
  }

  /** Two calls with one request, both past their checks. */
  function BothIn(tables: Tables, now: nat, r: Request): State {
    State(now, tables, [Attempt(r, now, Budgeted, 0), Attempt(r, now, Budgeted, 0)], [])
  }

  lemma {:induction false} BothEnter(tables: Tables, now: nat, r: Request, id: Id)
    requires Clears(tables, now, r, id)
    ensures Run(Start(tables, now), EnterCall(0, r) + EnterCall(1, r)) == BothIn(tables, now, r)
  {
    var a := Attempt(r, now, Budgeted, 0);
    CallEnters(Start(tables, now), r);
    assert [] + [a] == [a];
    var one := State(now, tables, [a], []);
    CallEnters(one, r);
    assert [a] + [a] == [a, a];
    RunConcat(Start(tables, now), EnterCall(0, r), EnterCall(1, r));
  }

  /** The insert of the second call waits for the first call's open transaction.  When that
      rolls back, the insert goes through. */
  lemma {:induction false} SecondCallWaits(tables: Tables, now: nat, r: Request, id: Id, other: Id)
    requires Clears(tables, now, r, id) && Clears(tables, now, r, other) && id != other
    ensures var s := Run(Start(tables, now), EnterCall(0, r) + EnterCall(1, r) + [Claim(0, id)]);
      && s == At(BothIn(tables, now, r), 0, Holding(NewRow(r, id, now)), 0)
      && Step(s, Claim(1, other)) == s
      && PhaseAt(Step(Step(s, Abort(0)), Claim(1, other)), 1) == Some(Holding(NewRow(r, other, now)))
  {
    var both := BothIn(tables, now, r);
    BothEnter(tables, now, r, id);
    RunSnoc(Start(tables, now), EnterCall(0, r) + EnterCall(1, r), Claim(0, id));
    KeyFreeAtFirst(tables, now, r, id);
    KeyFreeAtFirst(tables, now, r, other);
    ClaimStep(both, 0, id);
    HolderBlocks(both, NewRow(r, id, now), other);
    HolderGone(both, NewRow(r, id, now), other);
  }

  lemma {:induction false} KeyFreeAtFirst(tables: Tables, now: nat, r: Request, id: Id)
    requires Clears(tables, now, r, id)
    ensures MayClaim(BothIn(tables, now, r), 0, id) && MayClaim(BothIn(tables, now, r), 1, id)
  {
    assert OwnQuote(tables, r);
    forall i | 0 <= i < |tables.approvals| ensures !SameKey(tables.approvals[i], NewRow(r, id, now)) {
      assert tables.approvals[i] in tables.approvals;
    }
  }

  lemma HolderBlocks(both: State, row: Approval, other: Id)
    requires |both.attempts| == 2 && both.attempts[1].phase.Budgeted? && MayClaim(both, 1, other)
    requires row.tenant == both.attempts[1].req.tenant && row.key == both.attempts[1].req.key && row.id != other
    ensures Step(At(both, 0, Holding(row), 0), Claim(1, other)) == At(both, 0, Holding(row), 0)
  {
    var s := At(both, 0, Holding(row), 0);
    assert Holds(s.attempts[0]) && SameKey(s.attempts[0].phase.row, RowFor(s, 1, other));
    assert KeyHeld(s, RowFor(s, 1, other));
    assert !KeyCommitted(s, RowFor(s, 1, other));
  }

  lemma HolderGone(both: State, row: Approval, other: Id)
    requires |both.attempts| == 2 && both.attempts[1].phase.Budgeted? && MayClaim(both, 1, other)
    ensures PhaseAt(Step(Step(At(both, 0, Holding(row), 0), Abort(0)), Claim(1, other)), 1)
         == Some(Holding(RowFor(both, 1, other)))
  {
    var s := Step(At(both, 0, Holding(row), 0), Abort(0));
    assert !Holds(s.attempts[0]) && !Holds(s.attempts[1]);
    assert !KeyHeld(s, RowFor(s, 1, other)) && !KeyCommitted(s, RowFor(s, 1, other)) && FreshId(s, other);
  }

  /** When the first call commits instead, the waiting insert fails as a duplicate. */
  lemma {:induction false} SecondCallFails(tables: Tables, now: nat, r: Request, id: Id, other: Id, result: Value,
                                           charges: seq<Charge>)
    requires Clears(tables, now, r, id) && Clears(tables, now, r, other) && id != other
    requires UpdateFits(r, result) && IsActorRole(r.ctx.role)
    ensures var won := Run(BothIn(tables, now, r), WriteLabels(0, id, result, charges));
      && won == AfterExecution(BothIn(tables, now, r), 0, id, result, charges)
      && PhaseAt(Step(won, Claim(1, other)), 1) == Some(RolledBack(DuplicateIdempotencyKey))
  {
    var both := BothIn(tables, now, r);
    KeyFreeAtFirst(tables, now, r, id);
    WriteSteps(both, 0, id, result, charges);
    InsertAfterCommit(both, id, other, result, charges);
  }

  lemma InsertAfterCommit(both: State, id: Id, other: Id, result: Value, charges: seq<Charge>)
    requires |both.attempts| == 2 && both.attempts[1].phase.Budgeted?
    requires both.attempts[0].req == both.attempts[1].req
    ensures var won := AfterExecution(both, 0, id, result, charges);
      PhaseAt(Step(won, Claim(1, other)), 1) == Some(RolledBack(DuplicateIdempotencyKey))
  {
    var won := AfterExecution(both, 0, id, result, charges);
    var n := |both.tables.approvals|;
    assert won.tables.approvals[n].key == both.attempts[0].req.key;
    assert SameKey(won.tables.approvals[n], RowFor(won, 1, other));
  }

  /** The two runs at an input: calls on the quote of a scenario. */
  lemma {:induction false} ScenarioCallsRace(x: Scenario, id: Id)
    ensures Clears(RunTables(x), x.now, RunRequest(0, x.cap), id)
  {
    RunIsQuoted(0, x);
    RunIsAccepted(0, x);
  }

  // ---- what may happen around the calls ----

  /** From any state time may pass, the month's budgets and the ledger may become anything, and
      a quote may be stored and have its expiry moved; calls and approvals are not touched. */
  lemma {:induction false} AnythingAround(s: State, d: nat, budgets: seq<Budget>, ledger: seq<Charge>, id: Id,
                                          preview: Preview, expiresAt: int)
    requires id !in s.tables.previews
    ensures Run(s, [Tick(d), SetBudgets(budgets), SetLedger(ledger)] + [AddPreview(id, preview)]
                   + [Reschedule(id, expiresAt)])
         == s.(clock := s.clock + d,
               tables := s.tables.(budgets := budgets, ledger := ledger,
                                   previews := s.tables.previews[id := preview.(expiresAt := expiresAt)]))
  {
    var around := [Tick(d), SetBudgets(budgets), SetLedger(ledger)];
    RunThree(s, Tick(d), SetBudgets(budgets), SetLedger(ledger));
    RunSnoc(s, around, AddPreview(id, preview));
    RunSnoc(s, around + [AddPreview(id, preview)], Reschedule(id, expiresAt));
    assert s.tables.previews[id := preview][id := preview.(expiresAt := expiresAt)]
        == s.tables.previews[id := preview.(expiresAt := expiresAt)];
  }

  // ---- what is discovered only after the dispatch ----

  /** A call that clears every check and runs alone commits if and only if its price and
      result can be stored and its role is an actor role.  Otherwise it has dispatched, and
      everything is rolled back. */
  lemma {:induction false} LoneCallCommitsIff(tables: Tables, now: nat, r: Request, id: Id, result: Value,
                                              charges: seq<Charge>)
    requires Clears(tables, now, r, id)
    ensures var s := Run(Start(tables, now), SoloLabels(r, id, result, charges));
      && |s.attempts| == 1 && s.attempts[0].dispatches == 1
      && (s.attempts[0].phase.Committed? <==> UpdateFits(r, result) && IsActorRole(r.ctx.role))
      && (!s.attempts[0].phase.Committed? ==>
            s.attempts[0].phase == RolledBack(DatabaseError) && s.tables == tables)
  {
    if UpdateFits(r, result) && IsActorRole(r.ctx.role) {
      SoloRun(tables, now, r, id, result, charges);
    } else {
      var s := State(now, tables, [Attempt(r, now, Budgeted, 0)], []);
      SoloChecks(tables, now, r, id);
      SoloMayClaim(tables, now, r, id);
      RunConcat(Start(tables, now), [Begin(r)] + [Lookup(0), Load(0), CheckBudget(0)],
                WriteLabels(0, id, result, charges));
      LateFailure(s, 0, id, result, charges);
    }
  }

  /** The statements from the insert on, when the update or the card fails. */
  lemma {:induction false} LateFailure(s: State, t: nat, id: Id, result: Value, charges: seq<Charge>)
    requires t < |s.attempts| && MayClaim(s, t, id)
    requires !(UpdateFits(s.attempts[t].req, result) && IsActorRole(s.attempts[t].req.ctx.role))
    ensures Run(s, WriteLabels(t, id, result, charges)) == At(s, t, RolledBack(DatabaseError), 1)
  {
    var a := s.attempts[t];
    var row := NewRow(a.req, id, a.started);
    DispatchedSteps(s, t, id, result, charges);
    var c := [Claim(t, id)] + [Dispatch(t)] + [Return(t, result, charges)];
    RunSnoc(s, c, Mark(t));
    RunSnoc(s, c + [Mark(t)], AddCard(t));
    RunSnoc(s, c + [Mark(t)] + [AddCard(t)], Commit(t));
    if UpdateFits(a.req, result) {
      MarkStep(s, t, row, result, charges);
      CardFails(s, t, MarkRow(row, a.req, a.started, result), result, charges);
    } else {
      MarkFails(s, t, row, result, charges);
    }
    FailedStays(s, t);
    assert c + [Mark(t)] + [AddCard(t)] + [Commit(t)] == WriteLabels(t, id, result, charges);
  }

  lemma MarkFails(s: State, t: nat, row: Approval, result: Value, charges: seq<Charge>)
    requires t < |s.attempts| && !UpdateFits(s.attempts[t].req, result)
    ensures Step(At(s, t, Dispatched(row, result, charges), 1), Mark(t)) == At(s, t, RolledBack(DatabaseError), 1)
  {
  }

  lemma CardFails(s: State, t: nat, row: Approval, result: Value, charges: seq<Charge>)
    requires t < |s.attempts| && !IsActorRole(s.attempts[t].req.ctx.role)
    ensures Step(At(s, t, Marked(row, result, charges), 1), AddCard(t)) == At(s, t, RolledBack(DatabaseError), 1)
  {
  }

  lemma FailedStays(s: State, t: nat)
    requires t < |s.attempts|
    ensures Step(At(s, t, RolledBack(DatabaseError), 1), AddCard(t)) == At(s, t, RolledBack(DatabaseError), 1)
    ensures Step(At(s, t, RolledBack(DatabaseError), 1), Commit(t)) == At(s, t, RolledBack(DatabaseError), 1)
  {
  }
}
