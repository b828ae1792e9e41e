/** A race of any number of calls on one idempotency key: what it leaves behind is what its
    winner would have left alone. */
module LadderRace {
  import opened Prelude
  import opened Ladder
  import opened LadderMachine
  import opened LadderHistory
  import opened LadderReplay

  /** What happens during a race: time passes, calls on the key begin, and statements of
      their transactions run, in any order; dispatch errors leave the context. */
  predicate RaceLabel(l: Label, tenant: Id, key: string) {
    || l.Tick?
    || (l.Begin? && l.req.tenant == tenant && l.req.key == key)
    || (OfAttempt(l) && !l.Swallow?)
  }

  predicate PastCheck(a: Attempt) {
    a.phase.Budgeted? || Holds(a)
  }

  predicate PastLoad(a: Attempt) {
    a.phase.Quoted? || PastCheck(a)
  }

  predicate PastLookup(a: Attempt) {
    a.phase.Missed? || PastLoad(a)
  }

  /** The checks an attempt has behind it also pass at its start, on these tables. */
  predicate Justified(tables: Tables, clock: nat, a: Attempt) {
    && a.started <= clock
    && (PastLookup(a) ==> FindExisting(tables.approvals, a.req).None?)
    && (PastLoad(a) ==> QuoteStands(tables, a.req, a.started))
    && (PastCheck(a) ==> BudgetAccepts(tables, a.req, a.started))
  }

  ghost predicate OneKey(s: State, tenant: Id, key: string) {
    forall t :: 0 <= t < |s.attempts| ==> s.attempts[t].req.tenant == tenant && s.attempts[t].req.key == key
  }

  /** Nothing is committed yet: the tables are still the first ones. */
  ghost predicate Undecided(s: State, tables: Tables) {
    && s.commits == [] && s.tables == tables
    && forall t :: 0 <= t < |s.attempts| ==> Justified(tables, s.clock, s.attempts[t])
  }

  /** Attempt `t` has won: only its writes are in, and its checks pass on the first tables. */
  ghost predicate WonBy(s: State, tables: Tables, t: nat) {
    && s.commits != [] && t < |s.attempts| && Published(s.attempts[t]) && s.attempts[t].phase.effect.Wrote?
    && var a := s.attempts[t];
       var effect := a.phase.effect;
       && s.tables == WithWrites(tables, effect.row, effect.charges, effect.card)
       && Clears(tables, a.started, a.req, effect.row.id)
  }

  ghost predicate RaceInv(s: State, tables: Tables, tenant: Id, key: string) {
    OneKey(s, tenant, key) && (Undecided(s, tables) || exists t :: WonBy(s, tables, t))
  }

  // ---- while nothing is committed ----

  lemma LoadJustified(s: State, t: nat)
    requires t < |s.attempts| && s.attempts[t].phase.Missed? && Justified(s.tables, s.clock, s.attempts[t])
    ensures Justified(s.tables, s.clock, DoLoad(s, t).attempts[t])
  {
    QuoteDecides(s.tables, s.attempts[t].req, s.clock);
    if QuoteStands(s.tables, s.attempts[t].req, s.clock) {
      EarlierQuote(s.tables, s.attempts[t].req, s.attempts[t].started, s.clock);
    }
  }

  lemma CheckJustified(s: State, t: nat)
    requires t < |s.attempts| && Justified(s.tables, s.clock, s.attempts[t])
    ensures s.attempts[t].phase.Begun? ==> Justified(s.tables, s.clock, DoLookup(s, t).attempts[t])
    ensures s.attempts[t].phase.Quoted? ==> Justified(s.tables, s.clock, DoCheckBudget(s, t).attempts[t])
  {
  }

  /** The same call, no further on. */
  predicate NoFurther(a: Attempt, b: Attempt) {
    && b.req == a.req && b.started == a.started
    && (PastLookup(b) ==> PastLookup(a)) && (PastLoad(b) ==> PastLoad(a)) && (PastCheck(b) ==> PastCheck(a))
  }

  lemma OtherGoesNoFurther(s: State, l: Label)
    requires OfAttempt(l) && l.t < |s.attempts| && !l.Load? && !l.Lookup? && !l.CheckBudget?
    ensures l.t < |StepOf(s, l).attempts| && NoFurther(s.attempts[l.t], StepOf(s, l).attempts[l.t])
  {
  }

  lemma NoFurtherJustified(tables: Tables, clock: nat, a: Attempt, b: Attempt)
    requires Justified(tables, clock, a) && NoFurther(a, b)
    ensures Justified(tables, clock, b)
  {
  }

  /** A statement leaves its attempt justified by the tables it ran on. */
  lemma StatementJustified(s: State, l: Label)
    requires OfAttempt(l) && l.t < |s.attempts|
    requires Justified(s.tables, s.clock, s.attempts[l.t])
    ensures l.t < |StepOf(s, l).attempts| && Justified(s.tables, s.clock, StepOf(s, l).attempts[l.t])
  {
    if l.Load? {
      if s.attempts[l.t].phase.Missed? { LoadJustified(s, l.t); }
    } else if l.Lookup? || l.CheckBudget? {
      CheckJustified(s, l.t);
    } else {
      OtherGoesNoFurther(s, l);
      NoFurtherJustified(s.tables, s.clock, s.attempts[l.t], StepOf(s, l).attempts[l.t]);
    }
  }

  /** The first commit decides the race. */
  lemma CommitWins(s: State, t: nat, tables: Tables)
    requires Unique(s) && Undecided(s, tables) && t < |s.attempts| && s.attempts[t].phase.Carded?
    ensures WonBy(DoCommit(s, t), tables, t)
  {
    var a := s.attempts[t];
    assert Justified(tables, s.clock, a);
    forall i | 0 <= i < |tables.approvals| ensures tables.approvals[i].id != a.phase.row.id {
      assert Apart(s.tables.approvals[i], a.phase.row);
    }
  }

  lemma OneKeyStep(s: State, l: Label, tenant: Id, key: string)
    requires OneKey(s, tenant, key) && OfAttempt(l) && l.t < |s.attempts|
    ensures OneKey(StepOf(s, l), tenant, key)
  {
    OthersUntouched(s, l);
    SameCall(s, l);
  }

  lemma UncommittedStep(s: State, l: Label, tables: Tables)
    requires Undecided(s, tables) && OfAttempt(l) && l.t < |s.attempts| && !l.Swallow?
    requires !(l.Commit? && s.attempts[l.t].phase.Carded?)
    ensures Undecided(StepOf(s, l), tables)
  {
    OthersUntouched(s, l);
    SameCall(s, l);
    NoPublication(s, l);
    StatementJustified(s, l);
  }

  lemma UndecidedStep(s: State, l: Label, tables: Tables, tenant: Id, key: string)
    requires Unique(s) && Undecided(s, tables) && OneKey(s, tenant, key)
    requires OfAttempt(l) && l.t < |s.attempts| && !l.Swallow?
    ensures RaceInv(StepOf(s, l), tables, tenant, key)
  {
    OneKeyStep(s, l, tenant, key);
    if l.Commit? && s.attempts[l.t].phase.Carded? {
      CommitWins(s, l.t, tables);
    } else {
      UncommittedStep(s, l, tables);
    }
  }

  // ---- once it is decided ----

  /** A row, pending or committed, has the key its call asked for. */
  lemma RowHasKey(tables: Tables, a: Attempt)
    requires AttemptOk(tables, a)
    ensures Holds(a) ==> a.phase.row.tenant == a.req.tenant && a.phase.row.key == a.req.key
    ensures Published(a) ==> RowOf(a).tenant == a.req.tenant && RowOf(a).key == a.req.key
  {
  }

  /** No other attempt on the key can hold a row beside the winner's. */
  lemma NoRivalHolds(s: State, tables: Tables, w: nat, t: nat, tenant: Id, key: string)
    requires Unique(s) && AllOk(s) && OneKey(s, tenant, key) && WonBy(s, tables, w)
    requires t < |s.attempts|
    ensures !Holds(s.attempts[t])
  {
    RowHasKey(s.tables, s.attempts[w]);
    RowHasKey(s.tables, s.attempts[t]);
    var n := |tables.approvals|;
    assert s.tables.approvals[n] == RowOf(s.attempts[w]);
    assert Holds(s.attempts[t]) ==> Apart(s.tables.approvals[n], s.attempts[t].phase.row);
  }

  lemma DecidedStep(s: State, l: Label, tables: Tables, w: nat, tenant: Id, key: string)
    requires Unique(s) && AllOk(s) && OneKey(s, tenant, key) && WonBy(s, tables, w)
    requires OfAttempt(l) && l.t < |s.attempts| && !l.Swallow?
    ensures WonBy(StepOf(s, l), tables, w) && OneKey(StepOf(s, l), tenant, key)
  {
    NoRivalHolds(s, tables, w, l.t, tenant, key);
    OthersUntouched(s, l);
    NoPublication(s, l);
    OneKeyStep(s, l, tenant, key);
  }

  // ---- the whole race ----

  lemma StillWon(s: State, after: State, tables: Tables, t: nat)
    requires WonBy(s, tables, t)
    requires after.tables == s.tables && after.commits == s.commits && s.attempts <= after.attempts
    ensures WonBy(after, tables, t)
  {
    assert after.attempts[t] == s.attempts[t];
  }

  lemma StillUndecided(s: State, after: State, tables: Tables)
    requires Undecided(s, tables)
    requires after.tables == s.tables && after.commits == s.commits && s.clock <= after.clock
    requires s.attempts <= after.attempts
    requires forall t :: |s.attempts| <= t < |after.attempts| ==> Justified(tables, after.clock, after.attempts[t])
    ensures Undecided(after, tables)
  {
    forall t | 0 <= t < |after.attempts| ensures Justified(tables, after.clock, after.attempts[t]) {
      if t < |s.attempts| {
        assert after.attempts[t] == s.attempts[t];
        LaterJustified(tables, s.clock, after.clock, s.attempts[t]);
      }
    }
  }

  lemma LaterJustified(tables: Tables, clock: nat, later: nat, a: Attempt)
    requires Justified(tables, clock, a) && clock <= later
    ensures Justified(tables, later, a)
  {
  }

  lemma BegunJustified(tables: Tables, clock: nat, a: Attempt)
    requires a.phase.Begun? && a.started <= clock
    ensures Justified(tables, clock, a)
  {
  }

  lemma OutsideShape(s: State, l: Label, tables: Tables)
    requires l.Tick? || l.Begin?
    ensures var after := Step(s, l);
      && after.tables == s.tables && after.commits == s.commits && s.clock <= after.clock
        && s.attempts <= after.attempts
      && (forall t :: |s.attempts| <= t < |after.attempts| ==>
            l.Begin? && after.attempts[t].req == l.req && Justified(tables, after.clock, after.attempts[t]))
  {
    if l.Begin? { BegunJustified(tables, s.clock, Step(s, l).attempts[|s.attempts|]); }
  }

  /** Time passing or another call beginning decides nothing. */
  lemma OutsideStep(s: State, l: Label, tables: Tables, tenant: Id, key: string)
    requires RaceInv(s, tables, tenant, key) && RaceLabel(l, tenant, key) && !OfAttempt(l)
    ensures RaceInv(Step(s, l), tables, tenant, key)
  {
    var after := Step(s, l);
    OutsideShape(s, l, tables);
    if Undecided(s, tables) {
      StillUndecided(s, after, tables);
    } else {
      var t :| WonBy(s, tables, t);
      StillWon(s, after, tables, t);
    }
  }

  lemma RaceStep(s: State, l: Label, tables: Tables, tenant: Id, key: string)
    requires Unique(s) && AllOk(s) && RaceInv(s, tables, tenant, key) && RaceLabel(l, tenant, key)
    ensures RaceInv(Step(s, l), tables, tenant, key)
  {
    if !OfAttempt(l) {
      OutsideStep(s, l, tables, tenant, key);
    } else if l.t < |s.attempts| {
      assert Step(s, l) == StepOf(s, l);
      if Undecided(s, tables) {
        UndecidedStep(s, l, tables, tenant, key);
      } else {
        var w :| WonBy(s, tables, w);
        DecidedStep(s, l, tables, w, tenant, key);
      }
    }
  }

  lemma {:induction false} RaceRun(tables: Tables, clock: nat, ls: seq<Label>, tenant: Id, key: string)
    requires ValidTables(tables) && forall i :: 0 <= i < |ls| ==> RaceLabel(ls[i], tenant, key)
    ensures RaceInv(Run(Start(tables, clock), ls), tables, tenant, key)
    decreases |ls|
  {
    if ls != [] {
      var front := ls[..|ls| - 1];
      RaceRun(tables, clock, front, tenant, key);
      UniqueRun(tables, clock, front);
      AllOkRun(tables, clock, front);
      RaceStep(Run(Start(tables, clock), front), ls[|ls| - 1], tables, tenant, key);
    }
  }

  /** What the winner leaves when it has the database to itself from its own start. */
  function Alone(tables: Tables, a: Attempt): State
    requires a.phase.Committed? && a.phase.effect.Wrote? && a.phase.effect.response.result.Some?
  {
    var effect := a.phase.effect;
    Run(Start(tables, a.started), SoloLabels(a.req, effect.row.id, effect.response.result.value, effect.charges))
  }

  /** Attempt `t` ended as it ends alone, and so did all the tables. */
  ghost predicate AsAlone(s: State, tables: Tables, t: nat) {
    && t < |s.attempts|
    && var a := s.attempts[t];
       && a.phase.Committed? && a.phase.effect.Wrote? && a.phase.effect.response.result.Some?
       && Alone(tables, a).attempts == [a] && Alone(tables, a).tables == s.tables
  }

  /** A loser: no row, and if it succeeded, the winner's stored response. */
  ghost predicate LostTo(loser: Attempt, winner: Attempt)
    requires Published(winner)
  {
    && !Published(loser) && !Holds(loser)
    && (loser.phase.Committed? ==>
          && loser.phase.effect == Nothing(ReplayOf(RowOf(winner))) && loser.dispatches == 0
          && loser.req.previewId == winner.req.previewId)
    && (loser.phase.RolledBack? && loser.dispatches > 0 ==>
          loser.phase.problem == DispatchFailed || loser.phase.problem == DatabaseError)
  }

  lemma {:induction false} WinnerEndsAsAlone(tables: Tables, clock: nat, ls: seq<Label>, t: nat)
    requires WonBy(Run(Start(tables, clock), ls), tables, t)
    ensures AsAlone(Run(Start(tables, clock), ls), tables, t)
  {
    AllOkRun(tables, clock, ls);
    assert AttemptOk(Run(Start(tables, clock), ls).tables, Run(Start(tables, clock), ls).attempts[t]);
    WinnerAsIfAlone(tables, clock, ls, t, tables);
  }

  /** Every other call has lost to attempt `t`. */
  ghost predicate AllLostTo(s: State, t: nat) {
    && t < |s.attempts| && Published(s.attempts[t])
    && forall u :: 0 <= u < |s.attempts| && u != t ==> LostTo(s.attempts[u], s.attempts[t])
  }

  lemma {:induction false} RivalsLose(tables: Tables, clock: nat, ls: seq<Label>, t: nat, tenant: Id, key: string)
    requires ValidTables(tables) && OneKey(Run(Start(tables, clock), ls), tenant, key)
    requires t < |Run(Start(tables, clock), ls).attempts| && Published(Run(Start(tables, clock), ls).attempts[t])
    ensures AllLostTo(Run(Start(tables, clock), ls), t)
  {
    var s := Run(Start(tables, clock), ls);
    forall u | 0 <= u < |s.attempts| && u != t ensures LostTo(s.attempts[u], s.attempts[t]) {
      WinnerTakesAll(tables, clock, ls, t, u);
    }
  }

  /** However calls on one key interleave, either nothing was committed and the tables are
      the first ones, or there is a winner whose lone execution from the first tables leaves
      exactly the tables the race left: approvals, cards and ledger.  Every other call has
      lost to it. */
  lemma {:induction false} RaceIsWinnerAlone(tables: Tables, clock: nat, ls: seq<Label>, tenant: Id, key: string)
    requires ValidTables(tables) && forall i :: 0 <= i < |ls| ==> RaceLabel(ls[i], tenant, key)
    ensures var s := Run(Start(tables, clock), ls);
      if s.commits == [] then s.tables == tables
      else exists t: nat :: AsAlone(s, tables, t) && AllLostTo(s, t)
  {
    var s := Run(Start(tables, clock), ls);
    RaceRun(tables, clock, ls, tenant, key);
    if s.commits != [] {
      var t :| WonBy(s, tables, t);
      WinnerEndsAsAlone(tables, clock, ls, t);
      RivalsLose(tables, clock, ls, t, tenant, key);
    }
  }
}
