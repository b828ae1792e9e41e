/** What every interleaving of `execute` transactions leaves behind: each attempt's record
    agrees with the tables, and the tables hold what the committed attempts wrote, in order. */
module LadderHistory {
  import opened Prelude
  import opened PriceDrift
  import opened Cost
  import opened Json
  import opened Ladder
  import opened LadderMachine

  /** Later tables keep every approval and quote they ever had; only expiry may move. */
  ghost predicate Extends(now: Tables, before: Tables) {
    && before.approvals <= now.approvals
    && (forall id :: id in before.previews ==>
          id in now.previews && now.previews[id].(expiresAt := before.previews[id].expiresAt) == before.previews[id])
    && now.names == before.names
  }

  /** Only a commit changes the tables from inside a transaction. */
  lemma OnlyCommitsWrite(s: State, l: Label)
    requires OfAttempt(l) && l.t < |s.attempts|
    ensures StepOf(s, l).tables != s.tables ==> StepOf(s, l).attempts[l.t].phase.Committed?
    ensures StepOf(s, l).tables.previews == s.tables.previews && StepOf(s, l).tables.names == s.tables.names
    ensures s.tables.approvals <= StepOf(s, l).tables.approvals
  {
  }

  lemma ExtendsStep(s: State, l: Label)
    ensures Extends(Step(s, l).tables, s.tables)
  {
    if OfAttempt(l) && l.t < |s.attempts| {
      OnlyCommitsWrite(s, l);
      assert Step(s, l) == StepOf(s, l);
    }
  }

  lemma ExtendsTransitive(a: Tables, b: Tables, c: Tables)
    requires Extends(b, a) && Extends(c, b)
    ensures Extends(c, a)
  {
  }

  lemma {:induction false} ExtendsRun(s: State, ls: seq<Label>)
    ensures Extends(Run(s, ls).tables, s.tables)
    decreases |ls|
  {
    if ls != [] {
      var mid := Run(s, ls[..|ls| - 1]);
      ExtendsRun(s, ls[..|ls| - 1]);
      ExtendsStep(mid, ls[|ls| - 1]);
      ExtendsTransitive(s.tables, mid.tables, Run(s, ls).tables);
    }
  }

  /** The quote was this tenant's and this operation's, and the price was within drift. */
  ghost predicate QuoteHeld(tables: Tables, r: Request) {
    OwnQuote(tables, r) && !Drifted(r.reprice, TenThousandths(tables.previews[r.previewId].estimate))
  }

  /** A response replayed from a committed row of the same tenant, key and preview. */
  ghost predicate ReplayedFrom(tables: Tables, r: Request, response: Response) {
    exists i :: 0 <= i < |tables.approvals| && Matches(tables.approvals[i], r.ctx, r.tenant, r.key)
             && tables.approvals[i].previewId == Some(r.previewId) && response == ReplayOf(tables.approvals[i])
  }

  ghost predicate Written(tables: Tables, a: Attempt, row: Approval, result: Value) {
    && QuoteHeld(tables, a.req) && UpdateFits(a.req, result) && a.dispatches == 1
    && row == FinalRow(a.req, row.id, a.started, result)
  }

  ghost predicate Claimed(tables: Tables, a: Attempt, row: Approval) {
    QuoteHeld(tables, a.req) && row == NewRow(a.req, row.id, a.started)
  }

  /** An attempt's record agrees with its request and with the tables. */
  ghost predicate AttemptOk(tables: Tables, a: Attempt) {
    match a.phase
    case Begun => a.dispatches == 0
    case Missed => a.dispatches == 0
    case Quoted => a.dispatches == 0 && QuoteHeld(tables, a.req)
    case Budgeted => a.dispatches == 0 && QuoteHeld(tables, a.req)
    case Holding(row) => a.dispatches == 0 && Claimed(tables, a, row)
    case Dispatching(row) => a.dispatches == 1 && Claimed(tables, a, row)
    case Dispatched(row, _, _) => a.dispatches == 1 && Claimed(tables, a, row)
    case Marked(row, result, _) => Written(tables, a, row, result)
    case Carded(row, result, _, card) =>
      && Written(tables, a, row, result) && IsActorRole(a.req.ctx.role)
      && card == ExecuteCard(a.req, tables.names, a.started, row.id)
    case Replaying(response) => a.dispatches == 0 && ReplayedFrom(tables, a.req, response)
    case Committed(effect) => EffectOk(tables, a, effect)
    case RolledBack(problem) =>
      a.dispatches == 0 || (a.dispatches == 1 && (problem == DispatchFailed || problem == DatabaseError))
  }

  ghost predicate EffectOk(tables: Tables, a: Attempt, effect: Effect) {
    match effect
    case Nothing(response) => a.dispatches == 0 && ReplayedFrom(tables, a.req, response)
    case Wrote(row, _, card, response) =>
      && response.result.Some?
      && Written(tables, a, row, response.result.value) && IsActorRole(a.req.ctx.role)
      && card == ExecuteCard(a.req, tables.names, a.started, row.id)
      && response == FreshResponse(a.req, row.id, response.result.value)
    case Swallowed(row, _) => a.dispatches == 1 && Claimed(tables, a, row)
  }

  lemma AttemptOkLater(now: Tables, before: Tables, a: Attempt)
    requires AttemptOk(before, a) && Extends(now, before)
    ensures AttemptOk(now, a)
  {
    assert ReplayedLater(now, before) by {
      forall r, response | ReplayedFrom(before, r, response) ensures ReplayedFrom(now, r, response) {
        var i :| 0 <= i < |before.approvals| && Matches(before.approvals[i], r.ctx, r.tenant, r.key)
             && before.approvals[i].previewId == Some(r.previewId) && response == ReplayOf(before.approvals[i]);
        assert now.approvals[i] == before.approvals[i];
      }
    }
  }

  ghost predicate ReplayedLater(now: Tables, before: Tables) {
    forall r, response :: ReplayedFrom(before, r, response) ==> ReplayedFrom(now, r, response)
  }

  ghost predicate AllOk(s: State) {
    forall t :: 0 <= t < |s.attempts| ==> AttemptOk(s.tables, s.attempts[t])
  }

  lemma LookupOk(s: State, t: nat)
    requires t < |s.attempts| && s.attempts[t].phase.Begun? && AttemptOk(s.tables, s.attempts[t])
    ensures AttemptOk(s.tables, DoLookup(s, t).attempts[t])
  {
    var r := s.attempts[t].req;
    var found := FindExisting(s.tables.approvals, r);
    if found.Some? {
      var i :| 0 <= i < |s.tables.approvals| && s.tables.approvals[i] == found.value;
    }
  }

  lemma LoadOk(s: State, t: nat)
    requires t < |s.attempts| && s.attempts[t].phase.Missed? && AttemptOk(s.tables, s.attempts[t])
    ensures AttemptOk(s.tables, DoLoad(s, t).attempts[t])
  {
    QuoteDecides(s.tables, s.attempts[t].req, s.clock);
  }

  lemma CheckOk(s: State, t: nat)
    requires t < |s.attempts| && s.attempts[t].phase.Quoted? && AttemptOk(s.tables, s.attempts[t])
    ensures AttemptOk(s.tables, DoCheckBudget(s, t).attempts[t])
  {
  }

  lemma {:induction false} ClaimOk(s: State, t: nat, id: Id)
    requires t < |s.attempts| && s.attempts[t].phase.Budgeted? && AttemptOk(s.tables, s.attempts[t])
    ensures AttemptOk(s.tables, DoClaim(s, t, id).attempts[t])
  {
  }

  lemma {:induction false} MarkOk(s: State, t: nat)
    requires t < |s.attempts| && s.attempts[t].phase.Dispatched? && AttemptOk(s.tables, s.attempts[t])
    ensures AttemptOk(s.tables, DoMark(s, t).attempts[t])
  {
  }

  lemma {:induction false} CardOk(s: State, t: nat)
    requires t < |s.attempts| && s.attempts[t].phase.Marked? && AttemptOk(s.tables, s.attempts[t])
    ensures AttemptOk(s.tables, DoAddCard(s, t).attempts[t])
  {
  }

  lemma CommitOk(s: State, t: nat)
    requires t < |s.attempts| && AttemptOk(s.tables, s.attempts[t])
    ensures AttemptOk(DoCommit(s, t).tables, DoCommit(s, t).attempts[t])
  {
    var s', a := DoCommit(s, t), s.attempts[t];
    AttemptOkLater(s'.tables, s.tables, a);
  }

  lemma SwallowOk(s: State, t: nat, charges: seq<Charge>)
    requires t < |s.attempts| && s.attempts[t].phase.Dispatching? && AttemptOk(s.tables, s.attempts[t])
    ensures var row := s.attempts[t].phase.row;
      var s' := Publish(s, t, row, charges, [], Swallowed(row, charges));
      AttemptOk(s'.tables, s'.attempts[t])
  {
    var row := s.attempts[t].phase.row;
    AttemptOkLater(Publish(s, t, row, charges, [], Swallowed(row, charges)).tables, s.tables, s.attempts[t]);
  }

  lemma RollBackOk(tables: Tables, a: Attempt, problem: Problem)
    requires AttemptOk(tables, a) && Open(a)
    requires problem == DispatchFailed || problem == DatabaseError || a.dispatches == 0
    ensures AttemptOk(tables, a.(phase := RolledBack(problem)))
  {
  }

  predicate BeforeDispatch(l: Label) {
    l.Lookup? || l.Load? || l.CheckBudget? || l.DenyBudget? || l.Claim? || l.Refuse?
  }

  lemma EarlyStepOk(s: State, l: Label)
    requires BeforeDispatch(l) && l.t < |s.attempts| && AttemptOk(s.tables, s.attempts[l.t])
    ensures AttemptOk(StepOf(s, l).tables, StepOf(s, l).attempts[l.t])
  {
    var t, a := l.t, s.attempts[l.t];
    match l
    case Lookup(_) => if a.phase.Begun? { LookupOk(s, t); }
    case Load(_) => if a.phase.Missed? { LoadOk(s, t); }
    case CheckBudget(_) => if a.phase.Quoted? { CheckOk(s, t); }
    case DenyBudget(_) => if a.phase.Quoted? { RollBackOk(s.tables, a, BudgetExceeded); }
    case Claim(_, id) => if a.phase.Budgeted? { ClaimOk(s, t, id); }
    case Refuse(_) => if a.phase.Budgeted? { RollBackOk(s.tables, a, DuplicateIdempotencyKey); }
  }

  lemma LateStepOk(s: State, l: Label)
    requires OfAttempt(l) && !BeforeDispatch(l) && l.t < |s.attempts| && AttemptOk(s.tables, s.attempts[l.t])
    ensures AttemptOk(StepOf(s, l).tables, StepOf(s, l).attempts[l.t])
  {
    var t, a := l.t, s.attempts[l.t];
    match l
    case Dispatch(_) =>
    case Return(_, _, _) =>
    case Mark(_) => if a.phase.Dispatched? { MarkOk(s, t); }
    case AddCard(_) => if a.phase.Marked? { CardOk(s, t); }
    case Commit(_) => CommitOk(s, t);
    case Raise(_) => if a.phase.Dispatching? { RollBackOk(s.tables, a, DispatchFailed); }
    case Abort(_) => if Open(a) { RollBackOk(s.tables, a, DatabaseError); }
    case Swallow(_, charges) => if a.phase.Dispatching? { SwallowOk(s, t, charges); }
  }

  /** The stepping attempt's new record agrees with the new tables. */
  lemma {:induction false} StepOfOk(s: State, l: Label)
    requires OfAttempt(l) && l.t < |s.attempts| && AttemptOk(s.tables, s.attempts[l.t])
    ensures AttemptOk(StepOf(s, l).tables, StepOf(s, l).attempts[l.t])
  {
    if BeforeDispatch(l) {
      EarlyStepOk(s, l);
    } else {
      LateStepOk(s, l);
    }
  }

  lemma OthersUntouched(s: State, l: Label)
    requires OfAttempt(l) && l.t < |s.attempts|
    ensures |StepOf(s, l).attempts| == |s.attempts|
    ensures forall u :: 0 <= u < |s.attempts| && u != l.t ==> StepOf(s, l).attempts[u] == s.attempts[u]
  {
  }

  lemma SameCall(s: State, l: Label)
    requires OfAttempt(l) && l.t < |s.attempts|
    ensures l.t < |StepOf(s, l).attempts| && StepOf(s, l).clock == s.clock
    ensures StepOf(s, l).attempts[l.t].req == s.attempts[l.t].req
    ensures StepOf(s, l).attempts[l.t].started == s.attempts[l.t].started
  {
  }

  lemma StepOfAttempt(s: State, l: Label)
    requires OfAttempt(l) && l.t < |s.attempts|
    ensures Step(s, l) == StepOf(s, l)
  {
  }

  /** Attempts keep their places, a step touches no other attempt, and a new one has only
      begun. */
  lemma StepPlaces(s: State, l: Label)
    ensures |s.attempts| <= |Step(s, l).attempts|
    ensures forall t :: 0 <= t < |s.attempts| && !(OfAttempt(l) && l.t == t) ==> Step(s, l).attempts[t] == s.attempts[t]
    ensures forall t :: |s.attempts| <= t < |Step(s, l).attempts| ==>
      Step(s, l).attempts[t].phase.Begun? && Step(s, l).attempts[t].dispatches == 0
  {
    if OfAttempt(l) && l.t < |s.attempts| {
      StepOfAttempt(s, l);
      OthersUntouched(s, l);
    }
  }

  lemma {:induction false} AllOkStep(s: State, l: Label)
    requires AllOk(s)
    ensures AllOk(Step(s, l))
  {
    var s' := Step(s, l);
    ExtendsStep(s, l);
    if OfAttempt(l) && l.t < |s.attempts| {
      StepOfOk(s, l);
      OthersUntouched(s, l);
    }
    forall u | 0 <= u < |s'.attempts| ensures AttemptOk(s'.tables, s'.attempts[u]) {
      if u < |s.attempts| && s'.attempts[u] == s.attempts[u] {
        AttemptOkLater(s'.tables, s.tables, s.attempts[u]);
      }
    }
  }

  lemma {:induction false} AllOkRun(tables: Tables, clock: nat, ls: seq<Label>)
    ensures AllOk(Run(Start(tables, clock), ls))
    decreases |ls|
  {
    if ls != [] {
      AllOkRun(tables, clock, ls[..|ls| - 1]);
      AllOkStep(Run(Start(tables, clock), ls[..|ls| - 1]), ls[|ls| - 1]);
    }
  }

  // ---- the tables are what the committed attempts wrote, in commit order ----

  predicate Published(a: Attempt) {
    a.phase.Committed? && !a.phase.effect.Nothing?
  }

  function RowOf(a: Attempt): Approval
    requires Published(a)
  {
    a.phase.effect.row
  }

  function CardsOf(a: Attempt): seq<Card>
    requires Published(a)
  {
    if a.phase.effect.Wrote? then [a.phase.effect.card] else []
  }

  ghost predicate LogPoints(s: State) {
    && (forall i :: 0 <= i < |s.commits| ==> s.commits[i] < |s.attempts| && Published(s.attempts[s.commits[i]]))
    && (forall i, j :: 0 <= i < j < |s.commits| ==> s.commits[i] != s.commits[j])
    && (forall t :: 0 <= t < |s.attempts| && Published(s.attempts[t]) ==> t in s.commits)
  }

  function WrittenRows(attempts: seq<Attempt>, commits: seq<nat>): (rows: seq<Approval>)
    requires forall i :: 0 <= i < |commits| ==> commits[i] < |attempts| && Published(attempts[commits[i]])
    ensures |rows| == |commits|
    ensures forall i :: 0 <= i < |commits| ==> rows[i] == RowOf(attempts[commits[i]])
  {
    seq(|commits|, i requires 0 <= i < |commits| => RowOf(attempts[commits[i]]))
  }

  function WrittenCards(attempts: seq<Attempt>, commits: seq<nat>): (cards: seq<Card>)
    requires forall i :: 0 <= i < |commits| ==> commits[i] < |attempts| && Published(attempts[commits[i]])
  {
    if commits == [] then []
    else
      var rest := commits[..|commits| - 1];
      WrittenCards(attempts, rest) + CardsOf(attempts[commits[|commits| - 1]])
  }

  /** The approvals and cards are the initial ones followed by what each committed
      attempt wrote; rolled-back and open attempts have left nothing. */
  ghost predicate Serial(s: State, base: Tables) {
    && LogPoints(s)
    && s.tables.approvals == base.approvals + WrittenRows(s.attempts, s.commits)
    && s.tables.cards == base.cards + WrittenCards(s.attempts, s.commits)
  }

  lemma {:induction false} WrittenCardsKept(before: seq<Attempt>, after: seq<Attempt>, commits: seq<nat>)
    requires forall i :: 0 <= i < |commits| ==> commits[i] < |before| && Published(before[commits[i]])
    requires forall i :: 0 <= i < |commits| ==> commits[i] < |after| && after[commits[i]] == before[commits[i]]
    ensures WrittenCards(after, commits) == WrittenCards(before, commits)
    decreases |commits|
  {
    if commits != [] {
      WrittenCardsKept(before, after, commits[..|commits| - 1]);
    }
  }

  /** A step that publishes nothing and touches no published attempt keeps the log. */
  lemma SerialKept(s: State, s': State, base: Tables)
    requires Serial(s, base)
    requires s'.commits == s.commits && |s'.attempts| >= |s.attempts|
    requires s'.tables.approvals == s.tables.approvals && s'.tables.cards == s.tables.cards
    requires forall t :: 0 <= t < |s.attempts| && Published(s.attempts[t]) ==> s'.attempts[t] == s.attempts[t]
    requires forall t :: 0 <= t < |s'.attempts| && Published(s'.attempts[t]) ==>
      t < |s.attempts| && Published(s.attempts[t])
    ensures Serial(s', base)
  {
    WrittenCardsKept(s.attempts, s'.attempts, s.commits);
    assert WrittenRows(s'.attempts, s'.commits) == WrittenRows(s.attempts, s.commits);
  }

  lemma LogPointsPublished(s: State, t: nat, row: Approval, charges: seq<Charge>, cards: seq<Card>, effect: Effect)
    requires LogPoints(s) && t < |s.attempts| && !Published(s.attempts[t]) && !effect.Nothing?
    ensures LogPoints(Publish(s, t, row, charges, cards, effect))
    ensures forall i :: 0 <= i < |s.commits| ==> s.commits[i] != t
  {
    var s' := Publish(s, t, row, charges, cards, effect);
    var n := |s.commits|;
    forall i | 0 <= i < n ensures s.commits[i] != t { assert Published(s.attempts[s.commits[i]]); }
    forall u | 0 <= u < |s'.attempts| && Published(s'.attempts[u]) ensures u in s'.commits {
      if u == t { assert s'.commits[n] == t; } else { assert u in s.commits; }
    }
  }

  /** What the log writes grows by what one more attempt writes. */
  lemma {:induction false} WrittenSnoc(before: seq<Attempt>, after: seq<Attempt>, commits: seq<nat>, t: nat)
    requires forall i :: 0 <= i < |commits| ==> commits[i] < |before| && Published(before[commits[i]])
    requires forall i :: 0 <= i < |commits| ==> commits[i] < |after| && after[commits[i]] == before[commits[i]]
    requires t < |after| && Published(after[t])
    ensures forall i :: 0 <= i < |commits + [t]| ==>
      (commits + [t])[i] < |after| && Published(after[(commits + [t])[i]])
    ensures WrittenRows(after, commits + [t]) == WrittenRows(before, commits) + [RowOf(after[t])]
    ensures WrittenCards(after, commits + [t]) == WrittenCards(before, commits) + CardsOf(after[t])
  {
    WrittenCardsKept(before, after, commits);
    assert (commits + [t])[..|commits|] == commits;
  }

  lemma SerialPublished(s: State, t: nat, row: Approval, charges: seq<Charge>, cards: seq<Card>, effect: Effect,
                        base: Tables)
    requires Serial(s, base) && t < |s.attempts| && !Published(s.attempts[t])
    requires !effect.Nothing? && effect.row == row && cards == (if effect.Wrote? then [effect.card] else [])
    ensures Serial(Publish(s, t, row, charges, cards, effect), base)
  {
    var s' := Publish(s, t, row, charges, cards, effect);
    LogPointsPublished(s, t, row, charges, cards, effect);
    assert s'.commits == s.commits + [t] && RowOf(s'.attempts[t]) == row && CardsOf(s'.attempts[t]) == cards;
    WrittenSnoc(s.attempts, s'.attempts, s.commits, t);
    Reassociate(base.approvals, WrittenRows(s.attempts, s.commits), [row]);
    Reassociate(base.cards, WrittenCards(s.attempts, s.commits), cards);
  }

  lemma Reassociate<T>(a: seq<T>, b: seq<T>, c: seq<T>)
    ensures (a + b) + c == a + (b + c)
  {
  }

  lemma SerialStep(s: State, l: Label, base: Tables)
    requires Serial(s, base)
    ensures Serial(Step(s, l), base)
  {
    if OfAttempt(l) && l.t < |s.attempts| {
      SerialStepOf(s, l, base);
    } else {
      SerialKept(s, Step(s, l), base);
    }
  }

  lemma SerialCommit(s: State, t: nat, base: Tables)
    requires Serial(s, base) && t < |s.attempts| && s.attempts[t].phase.Carded?
    ensures Serial(DoCommit(s, t), base)
  {
    var a, ph := s.attempts[t], s.attempts[t].phase;
    SerialPublished(s, t, ph.row, ph.charges, [ph.card],
                    Wrote(ph.row, ph.charges, ph.card, FreshResponse(a.req, ph.row.id, ph.result)), base);
  }

  lemma SerialSwallow(s: State, t: nat, charges: seq<Charge>, base: Tables)
    requires Serial(s, base) && t < |s.attempts| && s.attempts[t].phase.Dispatching?
    ensures Serial(StepOf(s, Swallow(t, charges)), base)
  {
    SerialPublished(s, t, s.attempts[t].phase.row, charges, [], Swallowed(s.attempts[t].phase.row, charges), base);
  }

  lemma SerialOther(s: State, l: Label, base: Tables)
    requires Serial(s, base) && OfAttempt(l) && l.t < |s.attempts|
    requires !(l.Commit? && s.attempts[l.t].phase.Carded?) && !(l.Swallow? && s.attempts[l.t].phase.Dispatching?)
    ensures Serial(StepOf(s, l), base)
  {
    OthersUntouched(s, l);
    NoPublication(s, l);
    SerialKept(s, StepOf(s, l), base);
  }

  lemma SerialStepOf(s: State, l: Label, base: Tables)
    requires Serial(s, base) && OfAttempt(l) && l.t < |s.attempts|
    ensures Serial(StepOf(s, l), base)
  {
    if l.Commit? && s.attempts[l.t].phase.Carded? {
      SerialCommit(s, l.t, base);
    } else if l.Swallow? && s.attempts[l.t].phase.Dispatching? {
      SerialSwallow(s, l.t, l.charges, base);
    } else {
      SerialOther(s, l, base);
    }
  }

  lemma NoPublication(s: State, l: Label)
    requires OfAttempt(l) && l.t < |s.attempts|
    requires !(l.Commit? && s.attempts[l.t].phase.Carded?) && !(l.Swallow? && s.attempts[l.t].phase.Dispatching?)
    ensures StepOf(s, l).commits == s.commits
    ensures StepOf(s, l).tables == s.tables
    ensures Published(StepOf(s, l).attempts[l.t]) || Published(s.attempts[l.t]) ==> StepOf(s, l) == s
  {
  }

  lemma {:induction false} SerialRun(tables: Tables, clock: nat, ls: seq<Label>)
    ensures Serial(Run(Start(tables, clock), ls), tables)
    decreases |ls|
  {
    if ls != [] {
      SerialRun(tables, clock, ls[..|ls| - 1]);
      SerialStep(Run(Start(tables, clock), ls[..|ls| - 1]), ls[|ls| - 1], tables);
    }
  }
}
