/** Why a call is refused: in every interleaving each code has its cause, on the rows the
    failing statement saw, and each cause its code. */
module LadderRefusals {
  import opened Prelude
  import opened Cost
  import opened Ladder
  import opened LadderMachine
  import opened LadderHistory
  import opened LadderReplay

  // ---- the lookup ----

  /** A committed approval of the session's tenant under this tenant and key. */
  predicate Stored(s: State, r: Request, i: int) {
    && 0 <= i < |s.tables.approvals|
    && s.tables.approvals[i].tenant == r.ctx.tenant == r.tenant && s.tables.approvals[i].key == r.key
  }

  lemma LookupFindsStored(s: State, r: Request, i: int)
    requires UniqueRows(s.tables.approvals) && Stored(s, r, i)
    ensures FindExisting(s.tables.approvals, r) == Some(s.tables.approvals[i])
  {
    var found := FindExisting(s.tables.approvals, r);
    assert s.tables.approvals[i] in s.tables.approvals;
    var j :| 0 <= j < |s.tables.approvals| && s.tables.approvals[j] == found.value;
    OneRowPerKey(s.tables.approvals, i, j);
  }

  /** In every interleaving the lookup goes on exactly when nothing is stored under the key.
      It replays what is stored for the same quote, field by field, and refuses the key for
      another quote, whatever else of the call differs. */
  lemma {:induction false} LookupDecides(tables: Tables, clock: nat, ls: seq<Label>, t: nat)
    requires ValidTables(tables)
    requires t < |Run(Start(tables, clock), ls).attempts| && Run(Start(tables, clock), ls).attempts[t].phase.Begun?
    ensures var s := Run(Start(tables, clock), ls);
      var r := s.attempts[t].req;
      && (DoLookup(s, t) == Put(s, t, Missed) <==> forall i :: !Stored(s, r, i))
      && (forall i :: Stored(s, r, i) ==>
            var a := s.tables.approvals[i];
            DoLookup(s, t) == Put(s, t, if a.previewId == Some(r.previewId)
              then Replaying(Response(a.id, a.status, if a.cost.Some? then Some(TenThousandths(a.cost.value)) else None,
                                      a.result))
              else RolledBack(DuplicateIdempotencyKey)))
  {
    var s := Run(Start(tables, clock), ls);
    var r := s.attempts[t].req;
    UniqueRun(tables, clock, ls);
    forall i | Stored(s, r, i) ensures FindExisting(s.tables.approvals, r) == Some(s.tables.approvals[i]) {
      LookupFindsStored(s, r, i);
    }
    NothingStored(s, r);
    assert Put(s, t, Missed).attempts[t].phase == Missed;
  }

  lemma NothingStored(s: State, r: Request)
    ensures FindExisting(s.tables.approvals, r).None? <==> forall i :: !Stored(s, r, i)
  {
    var found := FindExisting(s.tables.approvals, r);
    if found.Some? {
      var j :| 0 <= j < |s.tables.approvals| && s.tables.approvals[j] == found.value;
      assert Stored(s, r, j);
    } else {
      forall i ensures !Stored(s, r, i) {
        if 0 <= i < |s.tables.approvals| { assert s.tables.approvals[i] in s.tables.approvals; }
      }
    }
  }

  // ---- the codes ----

  /** A committed approval has the key, for another quote than the call's. */
  ghost predicate StoredForOther(s: State, r: Request) {
    exists i :: Stored(s, r, i) && s.tables.approvals[i].previewId != Some(r.previewId)
  }

  /** A committed approval has the tenant and key the call would insert. */
  ghost predicate KeyTakenIn(s: State, r: Request) {
    exists i :: 0 <= i < |s.tables.approvals| && s.tables.approvals[i].tenant == r.tenant
             && s.tables.approvals[i].key == r.key
  }

  /** What the failing statement of an open call saw, for each code. */
  ghost predicate Cause(s: State, l: Label, problem: Problem) {
    OfAttempt(l) && l.t < |s.attempts| &&
    var a := s.attempts[l.t];
    match problem
    case DuplicateIdempotencyKey =>
      || (l.Lookup? && a.phase.Begun? && StoredForOther(s, a.req))
      || (l.Claim? && a.phase.Budgeted? && KeyTakenIn(s, a.req))
      || (l.Refuse? && a.phase.Budgeted?)
    case BudgetExceeded =>
      a.phase.Quoted? && (l.DenyBudget? || (l.CheckBudget? && !BudgetAccepts(s.tables, a.req, a.started)))
    case DispatchFailed => l.Raise? && a.phase.Dispatching?
    case DatabaseError =>
      || (l.Mark? && a.phase.Dispatched? && !UpdateFits(a.req, a.phase.result))
      || (l.AddCard? && a.phase.Marked?
          && a.req.ctx.role !in {"as_admin", "as_staff", "client_admin", "client_user", "system"})
      || (l.Abort? && !a.phase.Committed? && !a.phase.RolledBack?)
    case _ => l.Load? && a.phase.Missed? && QuoteRefuses(s.tables, a.req, s.clock, problem)
  }

  lemma {:induction false} LookupCause(s: State, t: nat, problem: Problem)
    requires t < |s.attempts| && s.attempts[t].phase.Begun? && UniqueRows(s.tables.approvals)
    ensures DoLookup(s, t).attempts[t].phase == RolledBack(problem) <==> Cause(s, Lookup(t), problem)
  {
    var r := s.attempts[t].req;
    NothingStored(s, r);
    forall i | Stored(s, r, i) ensures FindExisting(s.tables.approvals, r) == Some(s.tables.approvals[i]) {
      LookupFindsStored(s, r, i);
    }
  }

  lemma {:induction false} LoadCause(s: State, t: nat, problem: Problem)
    requires t < |s.attempts| && s.attempts[t].phase.Missed?
    ensures DoLoad(s, t).attempts[t].phase == RolledBack(problem) <==> Cause(s, Load(t), problem)
    ensures DoLoad(s, t).attempts[t].phase == Quoted <==> QuoteStands(s.tables, s.attempts[t].req, s.clock)
  {
    QuoteDecides(s.tables, s.attempts[t].req, s.clock);
  }

  lemma {:induction false} ClaimCause(s: State, t: nat, id: Id, problem: Problem)
    requires t < |s.attempts| && s.attempts[t].phase.Budgeted?
    ensures DoClaim(s, t, id).attempts[t].phase == RolledBack(problem) <==> Cause(s, Claim(t, id), problem)
  {
    var r, row := s.attempts[t].req, NewRow(s.attempts[t].req, id, s.attempts[t].started);
    assert KeyCommitted(s, row) <==> KeyTakenIn(s, r) by {
      if i :| 0 <= i < |s.tables.approvals| && s.tables.approvals[i].tenant == r.tenant
              && s.tables.approvals[i].key == r.key {
        assert SameKey(s.tables.approvals[i], row);
      }
    }
  }

  lemma {:induction false} LaterCause(s: State, l: Label, problem: Problem)
    requires OfAttempt(l) && l.t < |s.attempts| && !s.attempts[l.t].phase.RolledBack?
    requires !l.Lookup? && !l.Load? && !l.Claim?
    ensures StepOf(s, l).attempts[l.t].phase == RolledBack(problem) <==> Cause(s, l, problem)
  {
  }

  /** A statement of an open call ends it with a code exactly when it sees the code's cause. */
  lemma {:induction false} CodeIffCause(s: State, l: Label, problem: Problem)
    requires OfAttempt(l) && l.t < |s.attempts| && !s.attempts[l.t].phase.RolledBack?
    requires UniqueRows(s.tables.approvals)
    ensures StepOf(s, l).attempts[l.t].phase == RolledBack(problem) <==> Cause(s, l, problem)
  {
    var phase := s.attempts[l.t].phase;
    if l.Lookup? {
      if phase.Begun? { LookupCause(s, l.t, problem); }
    } else if l.Load? {
      if phase.Missed? { LoadCause(s, l.t, problem); }
    } else if l.Claim? {
      if phase.Budgeted? { ClaimCause(s, l.t, l.id, problem); }
    } else {
      LaterCause(s, l, problem);
    }
  }

  /** In every interleaving the next statement of a call that is not yet over ends it with a
      code exactly when it sees the code's cause; and a quote that stands is passed. */
  lemma {:induction false} NextStatementDecides(tables: Tables, clock: nat, ls: seq<Label>, l: Label, problem: Problem)
    requires ValidTables(tables)
    requires OfAttempt(l) && l.t < |Run(Start(tables, clock), ls).attempts|
    requires !Run(Start(tables, clock), ls).attempts[l.t].phase.RolledBack?
    ensures var s := Run(Start(tables, clock), ls);
      && l.t < |Step(s, l).attempts|
      && (Step(s, l).attempts[l.t].phase == RolledBack(problem) <==> Cause(s, l, problem))
      && (l.Load? && s.attempts[l.t].phase.Missed? ==>
            (Step(s, l).attempts[l.t].phase == Quoted <==> QuoteStands(s.tables, s.attempts[l.t].req, s.clock)))
  {
    var s := Run(Start(tables, clock), ls);
    UniqueRun(tables, clock, ls);
    StepOfAttempt(s, l);
    CodeIffCause(s, l, problem);
    if l.Load? && s.attempts[l.t].phase.Missed? { LoadCause(s, l.t, problem); }
  }

  /** Some statement of attempt `t` saw the cause of this code. */
  ghost predicate Caused(start: State, ls: seq<Label>, t: nat, problem: Problem) {
    exists i :: 0 <= i < |ls| && OfAttempt(ls[i]) && ls[i].t == t && Cause(Run(start, ls[..i]), ls[i], problem)
  }

  lemma CausedLater(start: State, ls: seq<Label>, l: Label, t: nat, problem: Problem)
    requires Caused(start, ls, t, problem) || (OfAttempt(l) && l.t == t && Cause(Run(start, ls), l, problem))
    ensures Caused(start, ls + [l], t, problem)
  {
    var n := |ls|;
    assert (ls + [l])[..n] == ls && (ls + [l])[n] == l;
    if Caused(start, ls, t, problem) {
      var i :| 0 <= i < n && OfAttempt(ls[i]) && ls[i].t == t && Cause(Run(start, ls[..i]), ls[i], problem);
      assert (ls + [l])[..i] == ls[..i] && (ls + [l])[i] == ls[i];
    }
  }

  /** Every call that was rolled back with a code had a statement that saw the code's cause. */
  lemma {:induction false} EveryRefusalHasItsCause(tables: Tables, clock: nat, ls: seq<Label>, t: nat, problem: Problem)
    requires ValidTables(tables)
    requires t < |Run(Start(tables, clock), ls).attempts|
    requires Run(Start(tables, clock), ls).attempts[t].phase == RolledBack(problem)
    ensures Caused(Start(tables, clock), ls, t, problem)
    decreases |ls|
  {
    var start := Start(tables, clock);
    if ls != [] {
      var front, l := ls[..|ls| - 1], ls[|ls| - 1];
      var s := Run(start, front);
      assert ls == front + [l];
      StepPlaces(s, l);
      if t < |s.attempts| {
        if s.attempts[t].phase == RolledBack(problem) {
          EveryRefusalHasItsCause(tables, clock, front, t, problem);
        } else {
          RefusedNow(tables, clock, front, l, t, problem);
        }
        CausedLater(start, front, l, t, problem);
      }
    }
  }

  lemma {:induction false} RefusedNow(tables: Tables, clock: nat, front: seq<Label>, l: Label, t: nat, problem: Problem)
    requires ValidTables(tables)
    requires var s := Run(Start(tables, clock), front);
      && t < |s.attempts| && s.attempts[t].phase != RolledBack(problem)
      && t < |Step(s, l).attempts| && Step(s, l).attempts[t].phase == RolledBack(problem)
    ensures OfAttempt(l) && l.t == t && Cause(Run(Start(tables, clock), front), l, problem)
  {
    var s := Run(Start(tables, clock), front);
    StepPlaces(s, l);
    if s.attempts[t].phase.RolledBack? { RolledBackStays(s, l, t); }
    NextStatementDecides(tables, clock, front, l, problem);
  }

  lemma RolledBackStays(s: State, l: Label, t: nat)
    requires t < |s.attempts| && s.attempts[t].phase.RolledBack?
    ensures t < |Step(s, l).attempts| && Step(s, l).attempts[t].phase == s.attempts[t].phase
  {
    StepPlaces(s, l);
    if OfAttempt(l) && l.t == t { StepOfAttempt(s, l); }
  }
}
