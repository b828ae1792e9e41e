/** No dispatch without its checks: every call that ever dispatched, even one rolled back
    later, had passed lookup, quote, budget and claim in that order. */
module LadderChecks {
  import opened Prelude
  import opened PriceDrift
  import opened Cost
  import opened Ladder
  import opened LadderMachine
  import opened LadderHistory

  /** A call: its request and the start of its transaction. */
  datatype Call = Call(req: Request, started: nat)

  function CallOf(a: Attempt): Call {
    Call(a.req, a.started)
  }

  // ---- what each check saw, in the state it ran in ----

  predicate NothingStored(s: State, c: Call) {
    forall i :: 0 <= i < |s.tables.approvals| ==> !Matches(s.tables.approvals[i], c.req.ctx, c.req.tenant, c.req.key)
  }

  predicate WithinBudget(s: State, c: Call) {
    AssertBudget(Books(s.tables.budgets, s.tables.ledger, Some(c.req.ctx.tenant), DayOf(c.started)), c.req.reprice,
                 c.req.balance)
    == Accepted
  }

  /** Neither a committed approval nor an open transaction had the key. */
  predicate KeyUnclaimed(s: State, c: Call) {
    && (forall i :: 0 <= i < |s.tables.approvals| ==>
          !(s.tables.approvals[i].tenant == c.req.tenant && s.tables.approvals[i].key == c.req.key))
    && (forall u :: 0 <= u < |s.attempts| && Holds(s.attempts[u]) ==>
          !(s.attempts[u].phase.row.tenant == c.req.tenant && s.attempts[u].phase.row.key == c.req.key))
  }

  // ---- each stage after the one before, each a statement this very call made ----

  /** The call stands at attempt `t`. */
  predicate Stands(s: State, t: nat, c: Call) {
    t < |s.attempts| && CallOf(s.attempts[t]) == c
  }

  ghost predicate LookedUp(start: State, ls: seq<Label>, t: nat, c: Call) {
    exists i :: 0 <= i < |ls| && ls[i] == Lookup(t)
      && var s := Run(start, ls[..i]); Stands(s, t, c) && s.attempts[t].phase.Begun? && NothingStored(s, c)
  }

  ghost predicate Loaded(start: State, ls: seq<Label>, t: nat, c: Call) {
    exists i :: 0 <= i < |ls| && ls[i] == Load(t) && LookedUp(start, ls[..i], t, c)
      && var s := Run(start, ls[..i]);
         Stands(s, t, c) && s.attempts[t].phase.Missed? && QuoteStands(s.tables, c.req, s.clock)
  }

  ghost predicate Checked(start: State, ls: seq<Label>, t: nat, c: Call) {
    exists i :: 0 <= i < |ls| && ls[i] == CheckBudget(t) && Loaded(start, ls[..i], t, c)
      && var s := Run(start, ls[..i]); Stands(s, t, c) && s.attempts[t].phase.Quoted? && WithinBudget(s, c)
  }

  ghost predicate Won(start: State, ls: seq<Label>, t: nat, c: Call) {
    exists i :: 0 <= i < |ls| && ls[i].Claim? && ls[i].t == t && Checked(start, ls[..i], t, c)
      && var s := Run(start, ls[..i]); Stands(s, t, c) && s.attempts[t].phase.Budgeted? && KeyUnclaimed(s, c)
  }

  ghost predicate Sent(start: State, ls: seq<Label>, t: nat, c: Call) {
    exists i :: 0 <= i < |ls| && ls[i] == Dispatch(t) && Won(start, ls[..i], t, c)
      && var s := Run(start, ls[..i]); Stands(s, t, c) && s.attempts[t].phase.Holding?
  }

  /** How far an attempt's phase says its checks have come. */
  ghost predicate Earned(start: State, ls: seq<Label>, t: nat, a: Attempt) {
    && (a.phase.Missed? ==> LookedUp(start, ls, t, CallOf(a)))
    && (a.phase.Quoted? ==> Loaded(start, ls, t, CallOf(a)))
    && (a.phase.Budgeted? ==> Checked(start, ls, t, CallOf(a)))
    && (a.phase.Holding? ==> Won(start, ls, t, CallOf(a)))
    && (a.dispatches > 0 ==> Sent(start, ls, t, CallOf(a)))
    && (PastDispatch(a) ==> a.dispatches > 0)
  }

  /** What has happened stays in the history. */
  lemma {:induction false} HistoryGrows(start: State, ls: seq<Label>, l: Label, t: nat, c: Call)
    ensures LookedUp(start, ls, t, c) ==> LookedUp(start, ls + [l], t, c)
    ensures Loaded(start, ls, t, c) ==> Loaded(start, ls + [l], t, c)
    ensures Checked(start, ls, t, c) ==> Checked(start, ls + [l], t, c)
    ensures Won(start, ls, t, c) ==> Won(start, ls + [l], t, c)
    ensures Sent(start, ls, t, c) ==> Sent(start, ls + [l], t, c)
  {
    forall i | 0 <= i < |ls| ensures (ls + [l])[..i] == ls[..i] && (ls + [l])[i] == ls[i] { }
  }

  /** What a statement of the call finds in the present state. */
  ghost predicate Finds(s: State, l: Label, t: nat, c: Call) {
    && OfAttempt(l) && l.t == t && Stands(s, t, c)
    && var phase := s.attempts[t].phase;
       || (l.Lookup? && phase.Begun? && NothingStored(s, c))
       || (l.Load? && phase.Missed? && QuoteStands(s.tables, c.req, s.clock))
       || (l.CheckBudget? && phase.Quoted? && WithinBudget(s, c))
       || (l.Claim? && phase.Budgeted? && KeyUnclaimed(s, c))
       || (l.Dispatch? && phase.Holding?)
  }

  /** A check that succeeds in the present state enters the history with its label. */
  lemma NowHappened(start: State, ls: seq<Label>, l: Label, t: nat, c: Call)
    requires Finds(Run(start, ls), l, t, c)
    ensures l.Lookup? ==> LookedUp(start, ls + [l], t, c)
    ensures l.Load? && LookedUp(start, ls, t, c) ==> Loaded(start, ls + [l], t, c)
    ensures l.CheckBudget? && Loaded(start, ls, t, c) ==> Checked(start, ls + [l], t, c)
    ensures l.Claim? && Checked(start, ls, t, c) ==> Won(start, ls + [l], t, c)
    ensures l.Dispatch? && Won(start, ls, t, c) ==> Sent(start, ls + [l], t, c)
  {
    var n := |ls|;
    assert (ls + [l])[..n] == ls && (ls + [l])[n] == l;
  }

  // ---- one statement ----

  /** An attempt that has dispatched, told from its phase. */
  predicate PastDispatch(a: Attempt) {
    a.phase.Dispatching? || a.phase.Dispatched? || a.phase.Marked? || a.phase.Carded? || Published(a)
  }

  /** What a statement must have seen to move its attempt from `a` to `b`. */
  ghost predicate Moves(s: State, l: Label, a: Attempt, b: Attempt) {
    && CallOf(b) == CallOf(a)
    && (b.phase.Missed? && !a.phase.Missed? ==> l.Lookup? && a.phase.Begun? && NothingStored(s, CallOf(a)))
    && (b.phase.Quoted? && !a.phase.Quoted? ==> l.Load? && a.phase.Missed? && QuoteStands(s.tables, a.req, s.clock))
    && (b.phase.Budgeted? && !a.phase.Budgeted? ==> l.CheckBudget? && a.phase.Quoted? && WithinBudget(s, CallOf(a)))
    && (b.phase.Holding? && !a.phase.Holding? ==> l.Claim? && a.phase.Budgeted? && KeyUnclaimed(s, CallOf(a)))
    && (b.dispatches > a.dispatches ==> l.Dispatch? && a.phase.Holding?)
    && b.dispatches >= a.dispatches
    && (PastDispatch(b) ==> PastDispatch(a) || b.dispatches > a.dispatches)
  }

  lemma LookupMoves(s: State, t: nat)
    requires t < |s.attempts| && s.attempts[t].phase.Begun?
    ensures Moves(s, Lookup(t), s.attempts[t], DoLookup(s, t).attempts[t])
  {
    var r := s.attempts[t].req;
    if FindExisting(s.tables.approvals, r).None? {
      forall i | 0 <= i < |s.tables.approvals| ensures !Matches(s.tables.approvals[i], r.ctx, r.tenant, r.key) {
        assert s.tables.approvals[i] in s.tables.approvals;
      }
    }
  }

  lemma LoadMoves(s: State, t: nat)
    requires t < |s.attempts| && s.attempts[t].phase.Missed?
    ensures Moves(s, Load(t), s.attempts[t], DoLoad(s, t).attempts[t])
  {
    QuoteDecides(s.tables, s.attempts[t].req, s.clock);
  }

  lemma CheckMoves(s: State, t: nat)
    requires t < |s.attempts| && s.attempts[t].phase.Quoted?
    ensures Moves(s, CheckBudget(t), s.attempts[t], DoCheckBudget(s, t).attempts[t])
  {
  }

  lemma ClaimMoves(s: State, t: nat, id: Id)
    requires t < |s.attempts| && s.attempts[t].phase.Budgeted?
    ensures Moves(s, Claim(t, id), s.attempts[t], DoClaim(s, t, id).attempts[t])
  {
    var row := NewRow(s.attempts[t].req, id, s.attempts[t].started);
    if DoClaim(s, t, id).attempts[t].phase.Holding? {
      assert !KeyCommitted(s, row) && !KeyHeld(s, row);
      forall i | 0 <= i < |s.tables.approvals|
        ensures !(s.tables.approvals[i].tenant == row.tenant && s.tables.approvals[i].key == row.key)
      {
        assert !SameKey(s.tables.approvals[i], row);
      }
      forall u | 0 <= u < |s.attempts| && Holds(s.attempts[u])
        ensures !(s.attempts[u].phase.row.tenant == row.tenant && s.attempts[u].phase.row.key == row.key)
      {
        assert !SameKey(s.attempts[u].phase.row, row);
      }
    }
  }

  lemma OtherMoves(s: State, l: Label)
    requires OfAttempt(l) && l.t < |s.attempts| && !l.Lookup? && !l.Load? && !l.CheckBudget? && !l.Claim?
    ensures Moves(s, l, s.attempts[l.t], StepOf(s, l).attempts[l.t])
  {
  }

  lemma StepMoves(s: State, l: Label)
    requires OfAttempt(l) && l.t < |s.attempts|
    ensures Moves(s, l, s.attempts[l.t], StepOf(s, l).attempts[l.t])
  {
    var phase := s.attempts[l.t].phase;
    match l
    case Lookup(t) => if phase.Begun? { LookupMoves(s, t); }
    case Load(t) => if phase.Missed? { LoadMoves(s, t); }
    case CheckBudget(t) => if phase.Quoted? { CheckMoves(s, t); }
    case Claim(t, id) => if phase.Budgeted? { ClaimMoves(s, t, id); }
    case _ => OtherMoves(s, l);
  }

  /** A move, remembered: what its phase claims, the history now holds. */
  lemma MoveEarns(start: State, ls: seq<Label>, s: State, l: Label, t: nat, a: Attempt, b: Attempt)
    requires s == Run(start, ls) && t < |s.attempts| && s.attempts[t] == a
    requires OfAttempt(l) && l.t == t && Moves(s, l, a, b) && Earned(start, ls, t, a)
    ensures Earned(start, ls + [l], t, b)
  {
    HistoryGrows(start, ls, l, t, CallOf(a));
    if Finds(s, l, t, CallOf(a)) { NowHappened(start, ls, l, t, CallOf(a)); }
  }

  lemma {:induction false} RunEarns(start: State, ls: seq<Label>, t: nat)
    requires start.attempts == [] && t < |Run(start, ls).attempts|
    ensures Earned(start, ls, t, Run(start, ls).attempts[t])
    decreases |ls|
  {
    if ls != [] {
      var n := |ls| - 1;
      var s := Run(start, ls[..n]);
      assert ls == ls[..n] + [ls[n]];
      StepPlaces(s, ls[n]);
      if t < |s.attempts| {
        RunEarns(start, ls[..n], t);
        if OfAttempt(ls[n]) && ls[n].t == t {
          StepOfAttempt(s, ls[n]);
          StepMoves(s, ls[n]);
          MoveEarns(start, ls[..n], s, ls[n], t, s.attempts[t], Step(s, ls[n]).attempts[t]);
        } else {
          HistoryGrows(start, ls[..n], ls[n], t, CallOf(s.attempts[t]));
        }
      }
    }
  }

  /** In every interleaving, each call that dispatched had, in this order, found no stored
      approval, found its own quote unexpired and within drift, been accepted by the budget
      check, and claimed a key no committed approval and no open transaction had. */
  lemma {:induction false} NoDispatchUnchecked(tables: Tables, clock: nat, ls: seq<Label>, t: nat)
    requires t < |Run(Start(tables, clock), ls).attempts|
    requires var a := Run(Start(tables, clock), ls).attempts[t]; a.dispatches > 0 || Published(a)
    ensures Sent(Start(tables, clock), ls, t, CallOf(Run(Start(tables, clock), ls).attempts[t]))
  {
    RunEarns(Start(tables, clock), ls, t);
  }
}
