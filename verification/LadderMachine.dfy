/** Many `execute` transactions over one committed store, statement by statement, under
    READ COMMITTED.  A label that is not enabled leaves the state as it is, so every
    sequence of labels is an interleaving and every interleaving is a sequence of labels. */
module LadderMachine {
  import opened Prelude
  import opened Cost
  import opened Json
  import opened Ladder

  /** How a transaction ended once it committed. */
  datatype Effect =
    | Nothing(response: Response)
    | Wrote(row: Approval, charges: seq<Charge>, card: Card, response: Response)
    | Swallowed(row: Approval, charges: seq<Charge>)

  /** Where a transaction stands between two statements. */
  datatype Phase =
    | Begun
    | Missed
    | Quoted
    | Budgeted
    | Holding(row: Approval)
    | Dispatching(row: Approval)
    | Dispatched(row: Approval, result: Value, charges: seq<Charge>)
    | Marked(row: Approval, result: Value, charges: seq<Charge>)
    | Carded(row: Approval, result: Value, charges: seq<Charge>, card: Card)
    | Replaying(response: Response)
    | Committed(effect: Effect)
    | RolledBack(problem: Problem)

  /** One call: its request, its transaction's start, and how often it dispatched. */
  datatype Attempt = Attempt(req: Request, started: nat, phase: Phase, dispatches: nat)

  /** `commits` lists the attempts whose writes were committed, in commit order. */
  datatype State = State(clock: nat, tables: Tables, attempts: seq<Attempt>, commits: seq<nat>)

  datatype Label =
    | Tick(d: nat)
    | AddPreview(id: Id, preview: Preview)
    | Reschedule(id: Id, expiresAt: int)
    | SetBudgets(budgets: seq<Budget>)
    | SetLedger(ledger: seq<Charge>)
    | Begin(req: Request)
    | Lookup(t: nat)
    | Load(t: nat)
    | CheckBudget(t: nat)
    | DenyBudget(t: nat)
    | Claim(t: nat, id: Id)
    | Dispatch(t: nat)
    | Return(t: nat, result: Value, charges: seq<Charge>)
    | Mark(t: nat)
    | AddCard(t: nat)
    | Commit(t: nat)
    | Refuse(t: nat)
    | Raise(t: nat)
    | Abort(t: nat)
    | Swallow(t: nat, charges: seq<Charge>)

  predicate Holds(a: Attempt) {
    a.phase.Holding? || a.phase.Dispatching? || a.phase.Dispatched? || a.phase.Marked? || a.phase.Carded?
  }

  predicate Open(a: Attempt) {
    !a.phase.Committed? && !a.phase.RolledBack?
  }

  function Put(s: State, t: nat, phase: Phase): State
    requires t < |s.attempts|
  {
    s.(attempts := s.attempts[t := s.attempts[t].(phase := phase)])
  }

  /** Some committed approval has this tenant and key. */
  predicate KeyCommitted(s: State, row: Approval) {
    exists i :: 0 <= i < |s.tables.approvals| && SameKey(s.tables.approvals[i], row)
  }

  /** Some open transaction has inserted this tenant and key. */
  predicate KeyHeld(s: State, row: Approval) {
    exists u :: 0 <= u < |s.attempts| && Holds(s.attempts[u]) && SameKey(s.attempts[u].phase.row, row)
  }

  /** `gen_random_uuid()` gives an id no committed or pending row has. */
  predicate FreshId(s: State, id: Id) {
    && (forall i :: 0 <= i < |s.tables.approvals| ==> s.tables.approvals[i].id != id)
    && (forall u :: 0 <= u < |s.attempts| && Holds(s.attempts[u]) ==> s.attempts[u].phase.row.id != id)
  }

  function DoLookup(s: State, t: nat): State
    requires t < |s.attempts|
  {
    var r := s.attempts[t].req;
    match FindExisting(s.tables.approvals, r)
    case None => Put(s, t, Missed)
    case Some(a) =>
      if a.previewId != Some(r.previewId) then Put(s, t, RolledBack(DuplicateIdempotencyKey))
      else Put(s, t, Replaying(ReplayOf(a)))
  }

  function DoLoad(s: State, t: nat): State
    requires t < |s.attempts|
  {
    match QuoteProblem(s.tables, s.attempts[t].req, s.clock)
    case Some(problem) => Put(s, t, RolledBack(problem))
    case None => Put(s, t, Quoted)
  }

  function DoCheckBudget(s: State, t: nat): State
    requires t < |s.attempts|
  {
    if BudgetAccepts(s.tables, s.attempts[t].req, s.attempts[t].started) then Put(s, t, Budgeted)
    else Put(s, t, RolledBack(BudgetExceeded))
  }

  /** The insert: a committed key refuses it, a pending key makes it wait. */
  function DoClaim(s: State, t: nat, id: Id): State
    requires t < |s.attempts|
  {
    var row := NewRow(s.attempts[t].req, id, s.attempts[t].started);
    if KeyCommitted(s, row) then Put(s, t, RolledBack(DuplicateIdempotencyKey))
    else if KeyHeld(s, row) || !FreshId(s, id) then s
    else Put(s, t, Holding(row))
  }

  function DoDispatch(s: State, t: nat): State
    requires t < |s.attempts| && s.attempts[t].phase.Holding?
  {
    var a := s.attempts[t];
    s.(attempts := s.attempts[t := a.(phase := Dispatching(a.phase.row), dispatches := a.dispatches + 1)])
  }

  function DoMark(s: State, t: nat): State
    requires t < |s.attempts| && s.attempts[t].phase.Dispatched?
  {
    var a := s.attempts[t];
    if UpdateFits(a.req, a.phase.result)
    then Put(s, t, Marked(MarkRow(a.phase.row, a.req, a.started, a.phase.result), a.phase.result, a.phase.charges))
    else Put(s, t, RolledBack(DatabaseError))
  }

  function DoAddCard(s: State, t: nat): State
    requires t < |s.attempts| && s.attempts[t].phase.Marked?
  {
    var a := s.attempts[t];
    if IsActorRole(a.req.ctx.role)
    then Put(s, t, Carded(a.phase.row, a.phase.result, a.phase.charges,
                          ExecuteCard(a.req, s.tables.names, a.started, a.phase.row.id)))
    else Put(s, t, RolledBack(DatabaseError))
  }

  /** A commit publishes the transaction's rows all at once. */
  function Publish(s: State, t: nat, row: Approval, charges: seq<Charge>, cards: seq<Card>, effect: Effect): State
    requires t < |s.attempts|
  {
    Put(s, t, Committed(effect)).(
      tables := s.tables.(approvals := s.tables.approvals + [row], ledger := s.tables.ledger + charges,
                          cards := s.tables.cards + cards),
      commits := s.commits + [t])
  }

  function DoCommit(s: State, t: nat): State
    requires t < |s.attempts|
  {
    var a := s.attempts[t];
    match a.phase
    case Replaying(response) => Put(s, t, Committed(Nothing(response)))
    case Carded(row, result, charges, card) =>
      Publish(s, t, row, charges, [card], Wrote(row, charges, card, FreshResponse(a.req, row.id, result)))
    case _ => s
  }

  function Step(s: State, l: Label): State {
    match l
    case Tick(d) => s.(clock := s.clock + d)
    case AddPreview(id, preview) =>
      if id in s.tables.previews then s else s.(tables := s.tables.(previews := s.tables.previews[id := preview]))
    case Reschedule(id, expiresAt) =>
      if id !in s.tables.previews then s
      else s.(tables := s.tables.(previews := s.tables.previews[id := s.tables.previews[id].(expiresAt := expiresAt)]))
    case SetBudgets(budgets) => s.(tables := s.tables.(budgets := budgets))
    case SetLedger(ledger) => s.(tables := s.tables.(ledger := ledger))
    case Begin(req) => s.(attempts := s.attempts + [Attempt(req, s.clock, Begun, 0)])
    case _ => if l.t < |s.attempts| then StepOf(s, l) else s
  }

  /** Labels that are a statement of one open transaction. */
  predicate OfAttempt(l: Label) {
    !l.Tick? && !l.AddPreview? && !l.Reschedule? && !l.SetBudgets? && !l.SetLedger? && !l.Begin?
  }

  /** A step of transaction `l.t`. */
  function StepOf(s: State, l: Label): State
    requires OfAttempt(l)
    requires l.t < |s.attempts|
  {
    var phase := s.attempts[l.t].phase;
    match l
    case Lookup(t) => if phase.Begun? then DoLookup(s, t) else s
    case Load(t) => if phase.Missed? then DoLoad(s, t) else s
    case CheckBudget(t) => if phase.Quoted? then DoCheckBudget(s, t) else s
    case Claim(t, id) => if phase.Budgeted? then DoClaim(s, t, id) else s
    case Dispatch(t) => if phase.Holding? then DoDispatch(s, t) else s
    case Return(t, result, charges) =>
      if phase.Dispatching? then Put(s, t, Dispatched(phase.row, result, charges)) else s
    case Mark(t) => if phase.Dispatched? then DoMark(s, t) else s
    case AddCard(t) => if phase.Marked? then DoAddCard(s, t) else s
    case Commit(t) => DoCommit(s, t)
    // any database error of the budget check is reported as an exceeded budget
    case DenyBudget(t) => if phase.Quoted? then Put(s, t, RolledBack(BudgetExceeded)) else s
    // another integrity error on the insert, such as a foreign key, gets the same code
    case Refuse(t) => if phase.Budgeted? then Put(s, t, RolledBack(DuplicateIdempotencyKey)) else s
    case Raise(t) => if phase.Dispatching? then Put(s, t, RolledBack(DispatchFailed)) else s
    // a lost connection or any other database error, at any point
    case Abort(t) => if Open(s.attempts[t]) then Put(s, t, RolledBack(DatabaseError)) else s
    // a caller that catches the dispatch error inside the transaction lets it commit
    case Swallow(t, charges) =>
      if phase.Dispatching? then Publish(s, t, phase.row, charges, [], Swallowed(phase.row, charges)) else s
  }

  function Run(s: State, ls: seq<Label>): State
    decreases |ls|
  {
    if ls == [] then s else Step(Run(s, ls[..|ls| - 1]), ls[|ls| - 1])
  }

  function Start(tables: Tables, clock: nat): State {
    State(clock, tables, [], [])
  }

  // ---- uniqueness ----

  predicate Apart(a: Approval, b: Approval) {
    !SameKey(a, b) && a.id != b.id
  }

  ghost predicate HeldApartFromCommitted(s: State) {
    forall i, t :: 0 <= i < |s.tables.approvals| && 0 <= t < |s.attempts| && Holds(s.attempts[t]) ==>
      Apart(s.tables.approvals[i], s.attempts[t].phase.row)
  }

  ghost predicate HeldApart(s: State) {
    forall t, u :: 0 <= t < u < |s.attempts| && Holds(s.attempts[t]) && Holds(s.attempts[u]) ==>
      Apart(s.attempts[t].phase.row, s.attempts[u].phase.row)
  }

  /** Committed and pending rows all differ in key and in id. */
  ghost predicate Unique(s: State) {
    UniqueRows(s.tables.approvals) && HeldApartFromCommitted(s) && HeldApart(s)
  }

  /** Same key and id: the same row at another stage. */
  predicate SameRow(a: Approval, b: Approval) {
    a.tenant == b.tenant && a.key == b.key && a.id == b.id
  }

  /** A step of one transaction that publishes nothing keeps the rows apart, if what it
      holds afterwards is what it held or a row apart from all others. */
  lemma UniqueAfterPut(s: State, t: nat, a: Attempt)
    requires Unique(s) && t < |s.attempts|
    requires Holds(a) ==>
      || (Holds(s.attempts[t]) && SameRow(s.attempts[t].phase.row, a.phase.row))
      || ((forall i :: 0 <= i < |s.tables.approvals| ==> Apart(s.tables.approvals[i], a.phase.row))
          && (forall u :: 0 <= u < |s.attempts| && Holds(s.attempts[u]) ==>
                Apart(s.attempts[u].phase.row, a.phase.row)))
    ensures Unique(s.(attempts := s.attempts[t := a]))
  {
    var s' := s.(attempts := s.attempts[t := a]);
    forall i, u | 0 <= i < |s'.tables.approvals| && 0 <= u < |s'.attempts| && Holds(s'.attempts[u])
      ensures Apart(s'.tables.approvals[i], s'.attempts[u].phase.row)
    {
      if u == t && Holds(s.attempts[t]) { assert Apart(s.tables.approvals[i], s.attempts[t].phase.row); }
      if u != t { assert Apart(s.tables.approvals[i], s.attempts[u].phase.row); }
    }
    forall v, u | 0 <= v < u < |s'.attempts| && Holds(s'.attempts[v]) && Holds(s'.attempts[u])
      ensures Apart(s'.attempts[v].phase.row, s'.attempts[u].phase.row)
    {
      if v != t && u != t { assert Apart(s.attempts[v].phase.row, s.attempts[u].phase.row); }
      if v == t && Holds(s.attempts[t]) { assert Apart(s.attempts[t].phase.row, s.attempts[u].phase.row); }
      if u == t && Holds(s.attempts[t]) { assert Apart(s.attempts[v].phase.row, s.attempts[t].phase.row); }
    }
  }

  lemma UniqueAfterClaim(s: State, t: nat, id: Id)
    requires Unique(s) && t < |s.attempts| && s.attempts[t].phase.Budgeted?
    ensures Unique(DoClaim(s, t, id))
  {
    var row := NewRow(s.attempts[t].req, id, s.attempts[t].started);
    if KeyCommitted(s, row) {
      UniqueAfterPut(s, t, s.attempts[t].(phase := RolledBack(DuplicateIdempotencyKey)));
    } else if !(KeyHeld(s, row) || !FreshId(s, id)) {
      UniqueAfterPut(s, t, s.attempts[t].(phase := Holding(row)));
    }
  }

  lemma UniqueAfterPublish(s: State, t: nat, row: Approval, charges: seq<Charge>, cards: seq<Card>, effect: Effect)
    requires Unique(s) && t < |s.attempts| && Holds(s.attempts[t]) && row == s.attempts[t].phase.row
    ensures Unique(Publish(s, t, row, charges, cards, effect))
  {
    var s' := Publish(s, t, row, charges, cards, effect);
    var n := |s.tables.approvals|;
    forall i, u | 0 <= i < n + 1 && 0 <= u < |s'.attempts| && Holds(s'.attempts[u])
      ensures Apart(s'.tables.approvals[i], s'.attempts[u].phase.row)
    {
      assert u != t && s'.attempts[u] == s.attempts[u];
      if i < n {
        assert Apart(s.tables.approvals[i], s.attempts[u].phase.row);
      } else if u < t {
        assert Apart(s.attempts[u].phase.row, row);
      } else {
        assert Apart(row, s.attempts[u].phase.row);
      }
    }
    forall v, u | 0 <= v < u < |s'.attempts| && Holds(s'.attempts[v]) && Holds(s'.attempts[u])
      ensures Apart(s'.attempts[v].phase.row, s'.attempts[u].phase.row)
    {
      assert Apart(s.attempts[v].phase.row, s.attempts[u].phase.row);
    }
    forall i, j | 0 <= i < j < n + 1
      ensures Apart(s'.tables.approvals[i], s'.tables.approvals[j])
    {
      if j == n { assert Apart(s.tables.approvals[i], s.attempts[t].phase.row); }
    }
  }

  lemma {:induction false} UniqueStep(s: State, l: Label)
    requires Unique(s)
    ensures Unique(Step(s, l))
  {
    match l
    case Tick(_) =>
    case AddPreview(_, _) =>
    case Reschedule(_, _) =>
    case SetBudgets(_) =>
    case SetLedger(_) =>
    case Begin(req) =>
      var s' := Step(s, l);
      assert forall u :: 0 <= u < |s'.attempts| && Holds(s'.attempts[u]) ==>
        u < |s.attempts| && s'.attempts[u] == s.attempts[u];
    case _ =>
      if l.t < |s.attempts| { UniqueStepOf(s, l); }
  }

  lemma {:induction false} UniqueStepOf(s: State, l: Label)
    requires OfAttempt(l) && l.t < |s.attempts| && Unique(s)
    ensures Unique(StepOf(s, l))
  {
    var t, a := l.t, s.attempts[l.t];
    if l.Claim? {
      if a.phase.Budgeted? { UniqueAfterClaim(s, t, l.id); }
    } else if l.Swallow? && a.phase.Dispatching? {
      UniqueAfterPublish(s, t, a.phase.row, l.charges, [], Swallowed(a.phase.row, l.charges));
    } else if l.Commit? && a.phase.Carded? {
      var ph := a.phase;
      UniqueAfterPublish(s, t, ph.row, ph.charges, [ph.card],
                         Wrote(ph.row, ph.charges, ph.card, FreshResponse(a.req, ph.row.id, ph.result)));
    } else {
      var s' := StepOf(s, l);
      if s' != s {
        assert s' == s.(attempts := s.attempts[t := s'.attempts[t]]);
        UniqueAfterPut(s, t, s'.attempts[t]);
      }
    }
  }

  lemma {:induction false} UniqueRun(tables: Tables, clock: nat, ls: seq<Label>)
    requires ValidTables(tables)
    ensures Unique(Run(Start(tables, clock), ls))
    decreases |ls|
  {
    if ls != [] {
      UniqueRun(tables, clock, ls[..|ls| - 1]);
      UniqueStep(Run(Start(tables, clock), ls[..|ls| - 1]), ls[|ls| - 1]);
    }
  }
}
