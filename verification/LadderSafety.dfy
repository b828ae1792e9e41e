/** Safety of the ladder over every run: exactly-once per key, complete records, one card
    per execution, faithful replays, and costs that stay near their quotes. */
module LadderSafety {
  import opened Prelude
  import opened Decimal
  import opened PriceDrift
  import opened Cost
  import opened Json
  import opened Ladder
  import opened LadderMachine
  import opened LadderHistory

  // ---- counting dispatches ----

  function Total(attempts: seq<Attempt>, f: Attempt -> nat): nat {
    if attempts == [] then 0 else Total(attempts[..|attempts| - 1], f) + f(attempts[|attempts| - 1])
  }

  predicate ForKey(a: Attempt, tenant: Id, key: string) {
    a.req.tenant == tenant && a.req.key == key
  }

  /** Dispatches of one tenant and key: all of them, those of rolled-back attempts, and
      those of attempts still open or committed. */
  function AllCalls(tenant: Id, key: string): Attempt -> nat {
    (a: Attempt) => if ForKey(a, tenant, key) then a.dispatches else 0
  }

  function LostCalls(tenant: Id, key: string): Attempt -> nat {
    (a: Attempt) => if ForKey(a, tenant, key) && a.phase.RolledBack? then a.dispatches else 0
  }

  function LiveCalls(tenant: Id, key: string): Attempt -> nat {
    (a: Attempt) => if ForKey(a, tenant, key) && !a.phase.RolledBack? then a.dispatches else 0
  }

  lemma {:induction false} TotalSplits(attempts: seq<Attempt>, tenant: Id, key: string)
    ensures Total(attempts, AllCalls(tenant, key))
         == Total(attempts, LostCalls(tenant, key)) + Total(attempts, LiveCalls(tenant, key))
    decreases |attempts|
  {
    if attempts != [] {
      TotalSplits(attempts[..|attempts| - 1], tenant, key);
    }
  }

  lemma {:induction false} TotalOfAtMostOne(attempts: seq<Attempt>, f: Attempt -> nat)
    requires forall t :: 0 <= t < |attempts| ==> f(attempts[t]) <= 1
    requires forall t, u :: 0 <= t < u < |attempts| ==> f(attempts[t]) == 0 || f(attempts[u]) == 0
    ensures Total(attempts, f) <= 1
    ensures Total(attempts, f) == 1 <==> exists t :: 0 <= t < |attempts| && f(attempts[t]) == 1
    decreases |attempts|
  {
    if attempts != [] {
      var n := |attempts| - 1;
      TotalOfAtMostOne(attempts[..n], f);
      if f(attempts[n]) == 1 {
        forall t | 0 <= t < n ensures f(attempts[..n][t]) == 0 { }
      } else if exists t :: 0 <= t < |attempts| && f(attempts[t]) == 1 {
        var t :| 0 <= t < |attempts| && f(attempts[t]) == 1;
        assert attempts[..n][t] == attempts[t];
      }
    }
  }

  /** An attempt that dispatched and was not rolled back has its row held or committed. */
  lemma {:induction false} LiveHasRow(s: State, base: Tables, t: nat)
    requires AllOk(s) && Serial(s, base) && t < |s.attempts|
    requires s.attempts[t].dispatches > 0 && !s.attempts[t].phase.RolledBack?
    ensures s.attempts[t].dispatches == 1
    ensures Holds(s.attempts[t]) || Published(s.attempts[t])
    ensures var row := if Holds(s.attempts[t]) then s.attempts[t].phase.row else RowOf(s.attempts[t]);
      row.tenant == s.attempts[t].req.tenant && row.key == s.attempts[t].req.key
  {
    assert AttemptOk(s.tables, s.attempts[t]);
  }

  /** Where a published attempt's row stands in the committed table. */
  lemma PublishedAt(s: State, base: Tables, t: nat) returns (i: nat)
    requires Serial(s, base) && t < |s.attempts| && Published(s.attempts[t])
    ensures i < |s.commits| && s.commits[i] == t
    ensures |base.approvals| + i < |s.tables.approvals|
    ensures s.tables.approvals[|base.approvals| + i] == RowOf(s.attempts[t])
  {
    i :| 0 <= i < |s.commits| && s.commits[i] == t;
  }

  /** Two live dispatches never share a tenant and key. */
  lemma {:induction false} OneLive(s: State, base: Tables, t: nat, u: nat)
    requires Unique(s) && AllOk(s) && Serial(s, base) && t < u < |s.attempts|
    requires s.attempts[t].dispatches > 0 && !s.attempts[t].phase.RolledBack?
    requires s.attempts[u].dispatches > 0 && !s.attempts[u].phase.RolledBack?
    ensures !(s.attempts[t].req.tenant == s.attempts[u].req.tenant && s.attempts[t].req.key == s.attempts[u].req.key)
  {
    LiveHasRow(s, base, t);
    LiveHasRow(s, base, u);
    if Published(s.attempts[t]) && Published(s.attempts[u]) {
      var i := PublishedAt(s, base, t);
      var j := PublishedAt(s, base, u);
      assert i != j;
      var b := |base.approvals|;
      assert !SameKey(s.tables.approvals[b + if i < j then i else j], s.tables.approvals[b + if i < j then j else i]);
    } else if Published(s.attempts[t]) {
      var i := PublishedAt(s, base, t);
      assert Apart(s.tables.approvals[|base.approvals| + i], s.attempts[u].phase.row);
    } else if Published(s.attempts[u]) {
      var i := PublishedAt(s, base, u);
      assert Apart(s.tables.approvals[|base.approvals| + i], s.attempts[t].phase.row);
    } else {
      assert Apart(s.attempts[t].phase.row, s.attempts[u].phase.row);
    }
  }

  /** Some attempt on this tenant and key has dispatched and is open or committed. */
  ghost predicate HasLiveDispatch(s: State, tenant: Id, key: string) {
    exists t :: 0 <= t < |s.attempts| && LiveCalls(tenant, key)(s.attempts[t]) == 1
  }

  /** In every interleaving, a tenant and key has at most one committed approval, at most
      one transaction past the insert and still open, never both, and its dispatches are
      those of rolled-back attempts plus one if an attempt is past dispatch or committed. */
  lemma {:induction false} ExactlyOnce(tables: Tables, clock: nat, ls: seq<Label>, tenant: Id, key: string)
    requires ValidTables(tables)
    ensures var s := Run(Start(tables, clock), ls);
      && (forall i, j :: 0 <= i < j < |s.tables.approvals| ==> !SameKey(s.tables.approvals[i], s.tables.approvals[j]))
      && (forall t, u :: 0 <= t < u < |s.attempts| && Holds(s.attempts[t]) && Holds(s.attempts[u]) ==>
            !SameKey(s.attempts[t].phase.row, s.attempts[u].phase.row))
      && (forall i, t :: 0 <= i < |s.tables.approvals| && 0 <= t < |s.attempts| && Holds(s.attempts[t]) ==>
            !SameKey(s.tables.approvals[i], s.attempts[t].phase.row))
      && Total(s.attempts, AllCalls(tenant, key))
         == Total(s.attempts, LostCalls(tenant, key)) + (if HasLiveDispatch(s, tenant, key) then 1 else 0)
  {
    var s := Run(Start(tables, clock), ls);
    UniqueRun(tables, clock, ls);
    AllOkRun(tables, clock, ls);
    SerialRun(tables, clock, ls);
    var f := LiveCalls(tenant, key);
    forall t | 0 <= t < |s.attempts| ensures f(s.attempts[t]) <= 1 {
      if f(s.attempts[t]) > 0 { LiveHasRow(s, tables, t); }
    }
    forall t, u | 0 <= t < u < |s.attempts| ensures f(s.attempts[t]) == 0 || f(s.attempts[u]) == 0 {
      if f(s.attempts[t]) != 0 && f(s.attempts[u]) != 0 { OneLive(s, tables, t, u); }
    }
    TotalSplits(s.attempts, tenant, key);
    TotalOfAtMostOne(s.attempts, f);
    forall i, j | 0 <= i < j < |s.tables.approvals| ensures !SameKey(s.tables.approvals[i], s.tables.approvals[j]) { }
    forall t, u | 0 <= t < u < |s.attempts| && Holds(s.attempts[t]) && Holds(s.attempts[u])
      ensures !SameKey(s.attempts[t].phase.row, s.attempts[u].phase.row)
    {
      assert Apart(s.attempts[t].phase.row, s.attempts[u].phase.row);
    }
    forall i, t | 0 <= i < |s.tables.approvals| && 0 <= t < |s.attempts| && Holds(s.attempts[t])
      ensures !SameKey(s.tables.approvals[i], s.attempts[t].phase.row)
    {
      assert Apart(s.tables.approvals[i], s.attempts[t].phase.row);
    }
  }

  // ---- complete records and one card each ----

  lemma {:induction false} CardCountAppend(a: seq<Card>, b: seq<Card>, id: Id)
    ensures CardCount(a + b, id) == CardCount(a, id) + CardCount(b, id)
  {
    if a == [] {
      assert a + b == b;
    } else {
      CardCountAppend(a[1..], b, id);
      assert (a + b)[1..] == a[1..] + b;
    }
  }

  lemma {:induction false} NoCardFor(cards: seq<Card>, id: Id)
    requires forall i :: 0 <= i < |cards| ==> cards[i].approvalId != Some(id)
    ensures CardCount(cards, id) == 0
  {
    if cards != [] { NoCardFor(cards[1..], id); }
  }

  /** Each published attempt's cards carry its own row's id. */
  ghost predicate CardsMatchRows(attempts: seq<Attempt>, commits: seq<nat>) {
    forall i :: 0 <= i < |commits| ==>
      && commits[i] < |attempts| && Published(attempts[commits[i]])
      && forall c :: c in CardsOf(attempts[commits[i]]) ==> c.approvalId == Some(RowOf(attempts[commits[i]]).id)
  }

  lemma {:induction false} CountWritten(attempts: seq<Attempt>, commits: seq<nat>, id: Id, k: nat)
    requires CardsMatchRows(attempts, commits)
    requires forall i :: 0 <= i < |commits| && i != k ==> RowOf(attempts[commits[i]]).id != id
    requires k < |commits| ==> RowOf(attempts[commits[k]]).id == id
    ensures CardCount(WrittenCards(attempts, commits), id)
         == if k < |commits| then |CardsOf(attempts[commits[k]])| else 0
    decreases |commits|
  {
    if commits != [] {
      var n := |commits| - 1;
      var rest := commits[..n];
      assert forall i :: 0 <= i < n ==> rest[i] == commits[i];
      CountWritten(attempts, rest, id, k);
      CardCountAppend(WrittenCards(attempts, rest), CardsOf(attempts[commits[n]]), id);
    }
  }

  lemma LogMatchesRows(s: State, base: Tables)
    requires AllOk(s) && Serial(s, base)
    ensures CardsMatchRows(s.attempts, s.commits)
  {
    forall i | 0 <= i < |s.commits|
      ensures forall c :: c in CardsOf(s.attempts[s.commits[i]]) ==>
        c.approvalId == Some(RowOf(s.attempts[s.commits[i]]).id)
    {
      assert AttemptOk(s.tables, s.attempts[s.commits[i]]);
    }
  }

  lemma NoInitialCard(s: State, base: Tables, t: nat)
    requires CardsRefer(base.cards, base.approvals)
    requires Unique(s) && Serial(s, base) && t < |s.attempts| && Published(s.attempts[t])
    ensures CardCount(base.cards, RowOf(s.attempts[t]).id) == 0
  {
    var id := RowOf(s.attempts[t]).id;
    var k := PublishedAt(s, base, t);
    forall i | 0 <= i < |base.cards| ensures base.cards[i].approvalId != Some(id) {
      if base.cards[i].approvalId == Some(id) {
        var j :| 0 <= j < |base.approvals| && base.approvals[j].id == id;
        InitialIdDiffers(s, base, j, k);
      }
    }
    NoCardFor(base.cards, id);
  }

  lemma InitialIdDiffers(s: State, base: Tables, j: nat, k: nat)
    requires Unique(s) && Serial(s, base) && j < |base.approvals| && k < |s.commits|
    ensures base.approvals[j].id != RowOf(s.attempts[s.commits[k]]).id
  {
    assert s.tables.approvals[|base.approvals| + k] == RowOf(s.attempts[s.commits[k]]);
    assert s.tables.approvals[j].id != s.tables.approvals[|base.approvals| + k].id;
  }

  lemma PublishedIdsDiffer(s: State, base: Tables, k: nat, i: nat)
    requires Unique(s) && Serial(s, base) && i < |s.commits| && k < |s.commits| && i != k
    ensures RowOf(s.attempts[s.commits[i]]).id != RowOf(s.attempts[s.commits[k]]).id
  {
    var b := |base.approvals|;
    assert s.tables.approvals[b + i] == RowOf(s.attempts[s.commits[i]]);
    assert s.tables.approvals[b + k] == RowOf(s.attempts[s.commits[k]]);
    var lo, hi := if i < k then i else k, if i < k then k else i;
    assert s.tables.approvals[b + lo].id != s.tables.approvals[b + hi].id;
  }

  lemma {:induction false} CardsOfPublished(s: State, base: Tables, t: nat)
    requires CardsRefer(base.cards, base.approvals)
    requires Unique(s) && AllOk(s) && Serial(s, base) && t < |s.attempts| && Published(s.attempts[t])
    ensures CardCount(s.tables.cards, RowOf(s.attempts[t]).id) == |CardsOf(s.attempts[t])|
  {
    var id := RowOf(s.attempts[t]).id;
    var k := PublishedAt(s, base, t);
    LogMatchesRows(s, base);
    forall i | 0 <= i < |s.commits| && i != k ensures RowOf(s.attempts[s.commits[i]]).id != id {
      PublishedIdsDiffer(s, base, k, i);
    }
    CountWritten(s.attempts, s.commits, id, k);
    NoInitialCard(s, base, t);
    CardCountAppend(base.cards, WrittenCards(s.attempts, s.commits), id);
  }

  /** The record of a finished execution: status, time, cost and result. */
  predicate CompleteRow(row: Approval) {
    row.status == Executed && row.executedAt.Some? && row.cost.Some? && row.result.Some?
  }

  /** Somewhere in the history the caller of `t` caught its dispatch error inside the
      transaction and let it commit. */
  ghost predicate SwallowFired(start: State, ls: seq<Label>, t: nat) {
    exists i :: 0 <= i < |ls| && ls[i].Swallow? && ls[i].t == t && Awaiting(Run(start, ls[..i]), t)
  }

  predicate Awaiting(s: State, t: nat) {
    t < |s.attempts| && s.attempts[t].phase.Dispatching?
  }

  predicate IsStub(s: State, t: nat) {
    t < |s.attempts| && s.attempts[t].phase.Committed? && s.attempts[t].phase.effect.Swallowed?
  }

  lemma StubStep(s: State, l: Label, t: nat)
    ensures IsStub(Step(s, l), t) <==> IsStub(s, t) || (l.Swallow? && l.t == t && Awaiting(s, t))
  {
    if OfAttempt(l) && l.t < |s.attempts| {
      OthersUntouched(s, l);
    }
  }

  lemma FiredSoFar(start: State, ls: seq<Label>, l: Label, t: nat)
    ensures SwallowFired(start, ls + [l], t)
       <==> SwallowFired(start, ls, t) || (l.Swallow? && l.t == t && Awaiting(Run(start, ls), t))
  {
    var n := |ls|;
    assert (ls + [l])[..n] == ls && (ls + [l])[n] == l;
    forall i | 0 <= i < n ensures (ls + [l])[..i] == ls[..i] && (ls + [l])[i] == ls[i] { }
  }

  lemma {:induction false} StubIffFired(start: State, ls: seq<Label>, t: nat)
    requires start.attempts == []
    ensures SwallowFired(start, ls, t) <==> IsStub(Run(start, ls), t)
    decreases |ls|
  {
    if ls != [] {
      var n := |ls| - 1;
      assert ls == ls[..n] + [ls[n]];
      StubIffFired(start, ls[..n], t);
      FiredSoFar(start, ls[..n], ls[n], t);
      StubStep(Run(start, ls[..n]), ls[n], t);
    }
  }

  /** Every committed attempt has its approval in the table.  It is executed, with time,
      cost, result and exactly one card, if and only if its caller never caught its dispatch
      error inside the transaction. */
  lemma RecordsCompleteIffNotSwallowed(tables: Tables, clock: nat, ls: seq<Label>, t: nat)
    requires ValidTables(tables)
    requires t < |Run(Start(tables, clock), ls).attempts| && Published(Run(Start(tables, clock), ls).attempts[t])
    ensures var s := Run(Start(tables, clock), ls);
      && RowOf(s.attempts[t]) in s.tables.approvals
      && (CompleteRow(RowOf(s.attempts[t])) && CardCount(s.tables.cards, RowOf(s.attempts[t]).id) == 1
          <==> !SwallowFired(Start(tables, clock), ls, t))
  {
    var s := Run(Start(tables, clock), ls);
    UniqueRun(tables, clock, ls);
    AllOkRun(tables, clock, ls);
    SerialRun(tables, clock, ls);
    var k := PublishedAt(s, tables, t);
    CardsOfPublished(s, tables, t);
    StubIffFired(Start(tables, clock), ls, t);
    assert AttemptOk(s.tables, s.attempts[t]);
  }

  /** A row beyond the initial ones was written by a call that committed. */
  lemma NewRowIsPublished(s: State, base: Tables, j: nat) returns (t: nat)
    requires Serial(s, base) && |base.approvals| <= j < |s.tables.approvals|
    ensures t < |s.attempts| && Published(s.attempts[t]) && s.tables.approvals[j] == RowOf(s.attempts[t])
  {
    t := s.commits[j - |base.approvals|];
  }

  lemma {:induction false} WrittenCardsRefer(attempts: seq<Attempt>, commits: seq<nat>, c: Card) returns (i: nat)
    requires CardsMatchRows(attempts, commits) && c in WrittenCards(attempts, commits)
    ensures i < |commits| && c in CardsOf(attempts[commits[i]]) && c.approvalId == Some(RowOf(attempts[commits[i]]).id)
    decreases |commits|
  {
    var n := |commits| - 1;
    if c in CardsOf(attempts[commits[n]]) {
      i := n;
    } else {
      i := WrittenCardsRefer(attempts, commits[..n], c);
    }
  }

  /** A card beyond the initial ones was written by a call that committed. */
  lemma NewCardIsPublished(s: State, base: Tables, j: nat) returns (t: nat)
    requires Serial(s, base) && CardsMatchRows(s.attempts, s.commits) && |base.cards| <= j < |s.tables.cards|
    ensures t < |s.attempts| && Published(s.attempts[t]) && s.tables.cards[j] in CardsOf(s.attempts[t])
  {
    var c := s.tables.cards[j];
    assert c == WrittenCards(s.attempts, s.commits)[j - |base.cards|];
    var i := WrittenCardsRefer(s.attempts, s.commits, c);
    t := s.commits[i];
  }

  lemma CommittedStays(s: State, l: Label, t: nat)
    requires t < |s.attempts| && s.attempts[t].phase.Committed?
    ensures t < |Step(s, l).attempts| && Step(s, l).attempts[t] == s.attempts[t]
  {
    StepPlaces(s, l);
    if OfAttempt(l) && l.t == t { StepOfAttempt(s, l); }
  }

  lemma {:induction false} CommittedPersists(start: State, ls: seq<Label>, n: nat, t: nat)
    requires n <= |ls| && t < |Run(start, ls[..n]).attempts| && Run(start, ls[..n]).attempts[t].phase.Committed?
    ensures t < |Run(start, ls).attempts| && Run(start, ls).attempts[t] == Run(start, ls[..n]).attempts[t]
    decreases |ls|
  {
    if n == |ls| {
      assert ls[..n] == ls;
    } else {
      var front := ls[..|ls| - 1];
      assert front[..n] == ls[..n];
      CommittedPersists(start, front, n, t);
      CommittedStays(Run(start, front), ls[|ls| - 1], t);
    }
  }

  lemma WriterCommits(s: State, l: Label)
    requires OfAttempt(l)
    ensures Step(s, l).tables != s.tables ==>
      l.t < |s.attempts| && l.t < |Step(s, l).attempts| && Step(s, l).attempts[l.t].phase.Committed?
  {
    if l.t < |s.attempts| {
      StepOfAttempt(s, l);
      OthersUntouched(s, l);
      OnlyCommitsWrite(s, l);
    }
  }

  /** A statement of a call that never commits leaves all tables as they were: approvals,
      cards, ledger and all. */
  lemma {:induction false} FailedCallWritesNothing(start: State, ls: seq<Label>, i: nat)
    requires i < |ls| && OfAttempt(ls[i])
    requires ls[i].t < |Run(start, ls).attempts| ==> !Run(start, ls).attempts[ls[i].t].phase.Committed?
    ensures Run(start, ls[..i + 1]).tables == Run(start, ls[..i]).tables
  {
    var s, l := Run(start, ls[..i]), ls[i];
    assert ls[..i + 1][..i] == ls[..i] && ls[..i + 1][i] == l;
    WriterCommits(s, l);
    if l.t < |Step(s, l).attempts| && Step(s, l).attempts[l.t].phase.Committed? {
      CommittedPersists(start, ls, i + 1, l.t);
    }
  }

  /** When exceptions leave the context, every committed execution is complete, with exactly
      one card; every approval and card beyond the first ones is one of theirs; and no
      statement of a call that failed has changed any table. */
  lemma {:induction false} RecordsWhenExceptionsLeave(tables: Tables, clock: nat, ls: seq<Label>)
    requires ValidTables(tables)
    requires forall t :: !SwallowFired(Start(tables, clock), ls, t)
    ensures var s := Run(Start(tables, clock), ls);
      && (forall t :: 0 <= t < |s.attempts| && Published(s.attempts[t]) ==>
            && RowOf(s.attempts[t]) in s.tables.approvals && CompleteRow(RowOf(s.attempts[t]))
            && CardCount(s.tables.cards, RowOf(s.attempts[t]).id) == 1)
      && tables.approvals <= s.tables.approvals
      && (forall j :: |tables.approvals| <= j < |s.tables.approvals| ==>
            exists t ::
              0 <= t < |s.attempts| && Published(s.attempts[t]) && s.tables.approvals[j] == RowOf(s.attempts[t]))
      && tables.cards <= s.tables.cards
      && (forall j :: |tables.cards| <= j < |s.tables.cards| ==>
            exists t ::
              0 <= t < |s.attempts| && Published(s.attempts[t]) && s.tables.cards[j] in CardsOf(s.attempts[t]))
      && (forall i :: 0 <= i < |ls| && OfAttempt(ls[i])
                      && (ls[i].t < |s.attempts| ==> !s.attempts[ls[i].t].phase.Committed?) ==>
            Run(Start(tables, clock), ls[..i + 1]).tables == Run(Start(tables, clock), ls[..i]).tables)
  {
    var s := Run(Start(tables, clock), ls);
    forall i | 0 <= i < |ls| && OfAttempt(ls[i])
               && (ls[i].t < |s.attempts| ==> !s.attempts[ls[i].t].phase.Committed?)
      ensures Run(Start(tables, clock), ls[..i + 1]).tables == Run(Start(tables, clock), ls[..i]).tables
    {
      FailedCallWritesNothing(Start(tables, clock), ls, i);
    }
    SerialRun(tables, clock, ls);
    forall t | 0 <= t < |s.attempts| && Published(s.attempts[t])
      ensures RowOf(s.attempts[t]) in s.tables.approvals && CompleteRow(RowOf(s.attempts[t]))
              && CardCount(s.tables.cards, RowOf(s.attempts[t]).id) == 1
    {
      RecordsCompleteIffNotSwallowed(tables, clock, ls, t);
    }
    forall j | |tables.approvals| <= j < |s.tables.approvals|
      ensures exists t ::
        0 <= t < |s.attempts| && Published(s.attempts[t]) && s.tables.approvals[j] == RowOf(s.attempts[t])
    {
      var t := NewRowIsPublished(s, tables, j);
    }
    AllOkRun(tables, clock, ls);
    LogMatchesRows(s, tables);
    forall j | |tables.cards| <= j < |s.tables.cards|
      ensures exists t ::
        0 <= t < |s.attempts| && Published(s.attempts[t]) && s.tables.cards[j] in CardsOf(s.attempts[t])
    {
      var t := NewCardIsPublished(s, tables, j);
    }
  }

  /** The approval a call asked for, field by field. */
  ghost predicate AskedFor(row: Approval, r: Request, started: nat) {
    && row.tenant == r.tenant == r.ctx.tenant && row.key == r.key && row.previewId == Some(r.previewId)
    && row.location == r.location && row.operation == r.operation && row.approvedBy == r.approvedBy
    && row.approvedAt == started
  }

  /** The row of a finished execution: its price rounded to column units, ties away from zero,
      and what JSON makes of its result. */
  ghost predicate RecordsOutcome(row: Approval, r: Request, started: nat, result: Value) {
    && row.status == Executed && row.executedAt == Some(started)
    && row.cost.Some? && NearestAway(r.reprice * 10000.0, row.cost.value)
    && row.result.Some? && ComesBackAs(result, row.result.value)
  }

  /** The row of a call whose dispatch failed and was let commit. */
  ghost predicate Unfinished(row: Approval) {
    row.status == Executing && row.executedAt.None? && row.cost.None? && row.result.None?
  }

  /** The card of an execution: who did what, from the session, and to which approval.  The
      actor goes by the name in its profile, and by "system" only without one. */
  ghost predicate CardTells(card: Card, row: Approval, r: Request, started: nat, names: map<Id, string>) {
    && (r.ctx.actor in names ==> card.actorLabel == names[r.ctx.actor])
    && (r.ctx.actor !in names ==> card.actorLabel == "system")
    && card.action == "Executed " + r.operation
    && card.tenant == r.ctx.tenant && card.actor == r.ctx.actor && card.role == r.ctx.role && card.occurredAt == started
    && card.verb == "execute" && card.location == r.location && card.resourceType == r.operation
    && card.resourceId == card.approvalId == Some(row.id)
  }

  lemma WrittenCardIsStored(s: State, base: Tables, i: nat)
    requires Serial(s, base) && i < |s.commits| && s.attempts[s.commits[i]].phase.effect.Wrote?
    ensures s.attempts[s.commits[i]].phase.effect.card in s.tables.cards
  {
    WrittenCardsHold(s.attempts, s.commits, i);
  }

  lemma {:induction false} WrittenCardsHold(attempts: seq<Attempt>, commits: seq<nat>, i: nat)
    requires forall j :: 0 <= j < |commits| ==> commits[j] < |attempts| && Published(attempts[commits[j]])
    requires i < |commits| && Published(attempts[commits[i]]) && attempts[commits[i]].phase.effect.Wrote?
    ensures attempts[commits[i]].phase.effect.card in WrittenCards(attempts, commits)
    decreases |commits|
  {
    var n := |commits| - 1;
    if i < n {
      WrittenCardsHold(attempts, commits[..n], i);
    }
  }

  lemma {:induction false} WrittenTells(now: Tables, a: Attempt)
    requires AttemptOk(now, a) && Published(a) && a.phase.effect.Wrote?
    ensures var effect := a.phase.effect;
      && effect.response.result.Some? && AskedFor(effect.row, a.req, a.started)
      && RecordsOutcome(effect.row, a.req, a.started, effect.response.result.value)
      && CardTells(effect.card, effect.row, a.req, a.started, now.names)
  {
    HalfAwayIsNearest(a.req.reprice * 10000.0, StoredUnits(a.req.reprice));
    StoredIsOnly(a.phase.effect.response.result.value, Stored(a.phase.effect.response.result.value));
  }

  lemma {:induction false} SwallowedTells(now: Tables, a: Attempt)
    requires AttemptOk(now, a) && Published(a) && a.phase.effect.Swallowed?
    ensures AskedFor(a.phase.effect.row, a.req, a.started) && Unfinished(a.phase.effect.row)
  {
  }

  /** Every committed execution's approval is in the tables and says what the call said: its
      own tenant, key, quote, operation and approver, and, when finished, its price and result.
      Its card is there too and names the session's actor and role; a call whose dispatch error
      was swallowed has an unfinished row. */
  lemma {:induction false} RecordsSayWhatTheCallSaid(tables: Tables, clock: nat, ls: seq<Label>, t: nat)
    requires t < |Run(Start(tables, clock), ls).attempts| && Published(Run(Start(tables, clock), ls).attempts[t])
    ensures var s := Run(Start(tables, clock), ls);
      var a := s.attempts[t];
      var effect := a.phase.effect;
      && effect.row in s.tables.approvals && AskedFor(effect.row, a.req, a.started)
      && (effect.Swallowed? ==> Unfinished(effect.row))
      && (effect.Wrote? ==>
            && effect.response.result.Some?
            && RecordsOutcome(effect.row, a.req, a.started, effect.response.result.value)
            && effect.card in s.tables.cards
            && CardTells(effect.card, effect.row, a.req, a.started, tables.names))
  {
    var s := Run(Start(tables, clock), ls);
    AllOkRun(tables, clock, ls);
    SerialRun(tables, clock, ls);
    ExtendsRun(Start(tables, clock), ls);
    var i := PublishedAt(s, tables, t);
    assert AttemptOk(s.tables, s.attempts[t]);
    if s.attempts[t].phase.effect.Wrote? {
      WrittenCardIsStored(s, tables, i);
      WrittenTells(s.tables, s.attempts[t]);
    } else {
      SwallowedTells(s.tables, s.attempts[t]);
    }
  }

  lemma CardRefers(s: State, base: Tables, m: nat)
    requires Serial(s, base) && CardsMatchRows(s.attempts, s.commits) && CardsRefer(base.cards, base.approvals)
    requires m < |s.tables.cards| && s.tables.cards[m].approvalId.Some?
    ensures exists j :: 0 <= j < |s.tables.approvals| && s.tables.approvals[j].id == s.tables.cards[m].approvalId.value
  {
    var c := s.tables.cards[m];
    if m < |base.cards| {
      assert base.cards[m] == c;
      var j :| 0 <= j < |base.approvals| && base.approvals[j].id == c.approvalId.value;
      assert s.tables.approvals[j] == base.approvals[j];
    } else {
      assert c == WrittenCards(s.attempts, s.commits)[m - |base.cards|];
      var i := WrittenCardsRefer(s.attempts, s.commits, c);
      assert s.tables.approvals[|base.approvals| + i] == RowOf(s.attempts[s.commits[i]]);
    }
  }

  /** Every card that names an approval has that approval in the table. */
  lemma EveryCardHasItsApproval(tables: Tables, clock: nat, ls: seq<Label>)
    requires ValidTables(tables)
    ensures var s := Run(Start(tables, clock), ls); CardsRefer(s.tables.cards, s.tables.approvals)
  {
    var s := Run(Start(tables, clock), ls);
    AllOkRun(tables, clock, ls);
    SerialRun(tables, clock, ls);
    LogMatchesRows(s, tables);
    forall m | 0 <= m < |s.tables.cards| && s.tables.cards[m].approvalId.Some?
      ensures exists j ::
        0 <= j < |s.tables.approvals| && s.tables.approvals[j].id == s.tables.cards[m].approvalId.value
    {
      CardRefers(s, tables, m);
    }
  }

  // ---- costs near quotes ----

  lemma {:induction false} HeldQuoteBoundsCost(tables: Tables, r: Request)
    requires QuoteHeld(tables, r) && 0 < tables.previews[r.previewId].estimate < TenToThe(12)
    ensures var b, c := tables.previews[r.previewId].estimate, StoredUnits(r.reprice);
      && 10 * Distance(c, b) <= b + 5
      && (r.reprice == TenThousandths(c) ==> 10 * Distance(c, b) <= b)
  {
    FourDecimals(tables.previews[r.previewId].estimate);
    FourDecimals(StoredUnits(r.reprice));
    StoredCostNearQuote(r.reprice, tables.previews[r.previewId].estimate);
  }

  /** Every committed execution refers to a stored preview of its own tenant and operation,
      and its stored cost is within a tenth of a positive quote, up to column rounding. */
  lemma {:induction false} CommittedCostNearQuote(tables: Tables, clock: nat, ls: seq<Label>, t: nat)
    requires t < |Run(Start(tables, clock), ls).attempts|
    requires Published(Run(Start(tables, clock), ls).attempts[t])
    requires Run(Start(tables, clock), ls).attempts[t].phase.effect.Wrote?
    ensures var s := Run(Start(tables, clock), ls);
      var row := RowOf(s.attempts[t]);
      && row.previewId.Some? && row.previewId.value in s.tables.previews
      && var quote := s.tables.previews[row.previewId.value];
      && quote.tenant == row.tenant && quote.operation == row.operation
      && row.cost == Some(StoredUnits(s.attempts[t].req.reprice))
      && (0 < quote.estimate < TenToThe(12) ==>
            && 10 * Distance(row.cost.value, quote.estimate) <= quote.estimate + 5
            && (s.attempts[t].req.reprice == TenThousandths(row.cost.value) ==>
                  10 * Distance(row.cost.value, quote.estimate) <= quote.estimate))
  {
    var s := Run(Start(tables, clock), ls);
    AllOkRun(tables, clock, ls);
    assert AttemptOk(s.tables, s.attempts[t]);
    var r := s.attempts[t].req;
    if 0 < s.tables.previews[r.previewId].estimate < TenToThe(12) {
      HeldQuoteBoundsCost(s.tables, r);
    }
  }
}
