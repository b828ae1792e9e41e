/** The audit trail over transactions of all four database roles that overlap in time. */
module Audit {
  import opened Prelude
  import opened Tenancy

  ghost function Cards(db: Db): set<Row> {
    Rows(db, AuditCard)
  }

  // ---- one statement ----

  /** The statement that put a card there: `write_card`, which stamps the session's tenant,
      actor and role on it, or an insert by the worker for its own tenant or by the
      migrator. */
  ghost predicate Accounts(role: DbRole, ctx: Settings, c: Command, card: Row) {
    match c
    case WriteCard(id, content) =>
      && !role.Readonly? && ctx.tenant.Some? && IsActorRole(ctx.role)
      && card.id == id && card.tenant == ctx.tenant
      && card.cells.Card? && card.cells.actor == ctx.actor && card.cells.actorRole == ctx.role
      && card.cells.occurredAt == ctx.now && card.cells.content == content
    case InsertRow(tb, row, _) =>
      && tb == AuditCard && card.(tenant := row.tenant) == row
      && ((role.Worker? && ctx.tenant.Some? && card.tenant == ctx.tenant) || (role.Migrator? && card == row))
    case _ => false
  }

  lemma InsertKeepsCards(role: DbRole, ctx: Settings, db: Db, tb: Table, row: Row, returning: bool)
    requires DoInsert(role, ctx, db, tb, row, returning).Done?
    ensures var after := DoInsert(role, ctx, db, tb, row, returning).db;
      Cards(db) <= Cards(after) <= Cards(db)
        + (if tb == AuditCard then {BeforeInsert(role, ctx, tb, row).value} else {})
  {
  }

  /** Any card an update reaches makes a trigger raise, whatever the role. */
  lemma CardUpdateFails(role: DbRole, ctx: Settings, targets: set<Row>, change: Row -> Row, r: Row)
    requires r in targets
    ensures TriggerFails(role, ctx, AuditCard, targets, change, NoTenantBound)
         || TriggerFails(role, ctx, AuditCard, targets, change, TenantImmutable)
         || TriggerFails(role, ctx, AuditCard, targets, change, AppendOnly)
  {
    var outcome := BeforeUpdate(role, ctx, AuditCard, r, change(r));
    assert TriggerFails(role, ctx, AuditCard, targets, change, outcome.error);
  }

  /** An update of cards gets through only when there is none to update. */
  lemma UpdateKeepsCards(role: DbRole, ctx: Settings, db: Db, tb: Table, where: Row -> bool, change: Row -> Row,
                         reading: bool)
    requires DoUpdate(role, ctx, db, tb, where, change, reading).Done?
    ensures tb == AuditCard ==> Targets(role, ctx, db, tb, Update, where, reading) == {}
    ensures Cards(DoUpdate(role, ctx, db, tb, where, change, reading).db) == Cards(db)
  {
    var targets := Targets(role, ctx, db, tb, Update, where, reading);
    forall r | tb == AuditCard && r in targets ensures false {
      CardUpdateFails(role, ctx, targets, change, r);
    }
  }

  lemma DeleteKeepsCards(role: DbRole, ctx: Settings, db: Db, tb: Table, where: Row -> bool, reading: bool)
    requires DoDelete(role, ctx, db, tb, where, reading).Done?
    ensures Cards(DoDelete(role, ctx, db, tb, where, reading).db) == Cards(db)
  {
  }

  /** No statement of any role takes a card away or changes it, and any card that appears
      is accounted for by the statement. */
  lemma StatementKeepsCards(role: DbRole, ctx: Settings, db: Db, c: Command)
    requires Exec(role, ctx, db, c).Done?
    ensures Cards(db) <= Cards(Exec(role, ctx, db, c).db)
    ensures forall card :: card in Cards(Exec(role, ctx, db, c).db) && card !in Cards(db) ==>
      Accounts(role, ctx, c, card)
  {
    match c
    case Query(_) =>
    case QueryAssigned =>
    case InsertRow(tb, row, returning) => InsertKeepsCards(role, ctx, db, tb, row, returning);
    case UpdateRows(tb, where, change, reading) => UpdateKeepsCards(role, ctx, db, tb, where, change, reading);
    case DeleteRows(tb, where, reading) => DeleteKeepsCards(role, ctx, db, tb, where, reading);
    case InsertPair(_) =>
    case UpdatePairs(_, _) =>
    case DeletePairs(_) =>
    case WriteCard(id, content) =>
      var row := Row(id, ctx.tenant, 0, Card(ctx.actor, LabelIn(OwnProfiles(ctx, db)), ctx.role, ctx.now, content));
      InsertKeepsCards(Migrator, ctx, db, AuditCard, row, false);
  }

  /** `write_card` labels the card with the actor's own profile, or as the system. */
  lemma CardCarriesItsActor(role: DbRole, ctx: Settings, db: Db, id: Id, content: int)
    requires DoWriteCard(role, ctx, db, id, content).Done?
    ensures exists card ::
      && card in Cards(DoWriteCard(role, ctx, db, id, content).db)
      && Accounts(role, ctx, WriteCard(id, content), card)
      && LabelsActor(db, ctx.actor, card.cells.actorLabel)
  {
    var profiles := OwnProfiles(ctx, db);
    var card := Row(id, ctx.tenant, 0, Card(ctx.actor, LabelIn(profiles), ctx.role, ctx.now, content));
    assert card in Cards(DoWriteCard(role, ctx, db, id, content).db);
    forall p | p in Rows(db, UserProfile) && Some(p.id) == ctx.actor ensures p in profiles {
    }
  }

  // ---- overlapping transactions ----

  const TABLES: set<Table> := {Tenant, UserProfile, Membership, TenantCredential, Location, LocationAlias,
                               AuditCard, CostLedger, CostBudget, CostPreview, Approval}

  /** Rows and assignments an open transaction has taken away and put in. */
  datatype Delta = Delta(removed: Db, added: Db)

  const NOTHING: Db := Db(map[], {})

  /** An open transaction: its session, its writes so far, its statements so far. */
  datatype Transaction = Transaction(role: DbRole, ctx: Settings, delta: Delta, commands: seq<Command>)

  /** What a statement of the transaction sees under READ COMMITTED: what is committed at
      that moment, and its own writes. */
  ghost function Seen(committed: Db, d: Delta): Db {
    Db(map tb | tb in TABLES :: (Rows(committed, tb) - Rows(d.removed, tb)) + Rows(d.added, tb),
       (committed.assignments - d.removed.assignments) + d.added.assignments)
  }

  /** The writes after a statement that turned `before` into `after`. */
  ghost function Grown(d: Delta, before: Db, after: Db): Delta {
    Delta(Db(map tb | tb in TABLES :: Rows(d.removed, tb) + (Rows(before, tb) - Rows(after, tb)),
             d.removed.assignments + (before.assignments - after.assignments)),
          Db(map tb | tb in TABLES ::
               (Rows(d.added, tb) - (Rows(before, tb) - Rows(after, tb))) + (Rows(after, tb) - Rows(before, tb)),
             (d.added.assignments - (before.assignments - after.assignments))
               + (after.assignments - before.assignments)))
  }

  /** The committed tables, the open transactions, and those that have committed. */
  datatype World = World(committed: Db, open: map<Id, Transaction>, settled: seq<Transaction>)

  datatype Event =
    | Begin(t: Id, role: DbRole, ctx: Settings)
    | Statement(t: Id, command: Command)
    | Commit(t: Id)
    | Rollback(t: Id)

  /** One event of one transaction, at any time between others.  A refused statement aborts
      its transaction; an event that cannot happen changes nothing. */
  ghost function Step(w: World, e: Event): World {
    match e
    case Begin(t, role, ctx) =>
      if t in w.open then w else w.(open := w.open[t := Transaction(role, ctx, Delta(NOTHING, NOTHING), [])])
    case Statement(t, command) =>
      if t !in w.open then w
      else
        var x := w.open[t];
        var seen := Seen(w.committed, x.delta);
        (match Exec(x.role, x.ctx, seen, command)
         case Refused(_) => w.(open := w.open - {t})
         case Done(after, _, _) =>
           w.(open := w.open[t := Extended(x, seen, after, command)]))
    case Commit(t) =>
      if t !in w.open then w
      else World(Seen(w.committed, w.open[t].delta), w.open - {t}, w.settled + [w.open[t]])
    case Rollback(t) => w.(open := w.open - {t})
  }

  ghost function Steps(w: World, events: seq<Event>): World {
    if events == [] then w else Step(Steps(w, events[..|events| - 1]), events[|events| - 1])
  }

  ghost function Run(db: Db, events: seq<Event>): World {
    Steps(World(db, map[], []), events)
  }

  /** Some statement of the transaction accounts for the card. */
  ghost predicate Explained(x: Transaction, card: Row) {
    exists j :: 0 <= j < |x.commands| && Accounts(x.role, x.ctx, x.commands[j], card)
  }

  /** A transaction has taken no card away, and its own statements account for those it has
      put in. */
  ghost predicate OnlyAdds(x: Transaction) {
    && Cards(x.delta.removed) == {}
    && forall card :: card in Cards(x.delta.added) ==> Explained(x, card)
  }

  ghost predicate Inv(w: World) {
    forall t :: t in w.open ==> OnlyAdds(w.open[t])
  }

  lemma CardsSeen(committed: Db, d: Delta)
    ensures Cards(Seen(committed, d)) == (Cards(committed) - Cards(d.removed)) + Cards(d.added)
  {
  }

  lemma CardsGrown(d: Delta, before: Db, after: Db)
    requires Cards(before) <= Cards(after)
    ensures Cards(Grown(d, before, after).removed) == Cards(d.removed)
    ensures Cards(Grown(d, before, after).added) == Cards(d.added) + (Cards(after) - Cards(before))
  {
  }

  /** What was explained stays so, and a card the last statement accounts for is explained. */
  lemma ExplainedSnoc(x: Transaction, y: Transaction, c: Command, card: Row)
    requires y.role == x.role && y.ctx == x.ctx && y.commands == x.commands + [c]
    requires Explained(x, card) || Accounts(x.role, x.ctx, c, card)
    ensures Explained(y, card)
  {
    if Explained(x, card) {
      var j :| 0 <= j < |x.commands| && Accounts(x.role, x.ctx, x.commands[j], card);
      assert y.commands[j] == x.commands[j];
    } else {
      assert y.commands[|x.commands|] == c;
    }
  }

  /** The transaction after a statement that turned what it saw into `after`. */
  ghost function Extended(x: Transaction, seen: Db, after: Db, c: Command): Transaction {
    Transaction(x.role, x.ctx, Grown(x.delta, seen, after), x.commands + [c])
  }

  lemma ExtendedOnlyAdds(x: Transaction, seen: Db, after: Db, c: Command)
    requires OnlyAdds(x) && Cards(seen) <= Cards(after)
    requires forall card :: card in Cards(after) && card !in Cards(seen) ==> Accounts(x.role, x.ctx, c, card)
    ensures OnlyAdds(Extended(x, seen, after, c))
  {
    CardsGrown(x.delta, seen, after);
    var y := Extended(x, seen, after, c);
    forall card | card in Cards(y.delta.added) ensures Explained(y, card) {
      ExplainedSnoc(x, y, c, card);
    }
  }

  /** A statement that succeeds keeps its transaction to adding cards it accounts for. */
  lemma StatementOnlyAdds(x: Transaction, seen: Db, c: Command)
    requires OnlyAdds(x) && Exec(x.role, x.ctx, seen, c).Done?
    ensures OnlyAdds(Extended(x, seen, Exec(x.role, x.ctx, seen, c).db, c))
  {
    StatementKeepsCards(x.role, x.ctx, seen, c);
    ExtendedOnlyAdds(x, seen, Exec(x.role, x.ctx, seen, c).db, c);
  }

  lemma StepKeepsInv(w: World, e: Event)
    requires Inv(w)
    ensures Inv(Step(w, e))
  {
    if e.Statement? && e.t in w.open {
      var x := w.open[e.t];
      if Exec(x.role, x.ctx, Seen(w.committed, x.delta), e.command).Done? {
        StatementOnlyAdds(x, Seen(w.committed, x.delta), e.command);
      }
    }
  }

  lemma {:induction false} RunKeepsInv(db: Db, events: seq<Event>)
    ensures Inv(Run(db, events))
  {
    if events != [] {
      RunKeepsInv(db, events[..|events| - 1]);
      StepKeepsInv(Run(db, events[..|events| - 1]), events[|events| - 1]);
    }
  }

  /** A commit adds the transaction's cards, and nothing else changes the committed ones. */
  lemma StepAddsCards(w: World, e: Event)
    requires Inv(w)
    ensures Cards(Step(w, e).committed)
         == Cards(w.committed) + (if e.Commit? && e.t in w.open then Cards(w.open[e.t].delta.added) else {})
  {
    if e.Commit? && e.t in w.open {
      CardsSeen(w.committed, w.open[e.t].delta);
    }
  }

  /** Append-only: whatever overlapping transactions of any role do later, every card already
      committed is still there, unchanged. */
  lemma {:induction false} AppendOnlyHistory(db: Db, earlier: seq<Event>, later: seq<Event>)
    ensures Cards(Run(db, earlier).committed) <= Cards(Run(db, earlier + later).committed)
    decreases |later|
  {
    if later == [] {
      assert earlier + later == earlier;
    } else {
      var front, e := later[..|later| - 1], later[|later| - 1];
      AppendOnlyHistory(db, earlier, front);
      assert (earlier + later)[..|earlier + later| - 1] == earlier + front;
      RunKeepsInv(db, earlier + front);
      StepAddsCards(Run(db, earlier + front), e);
    }
  }

  /** Every card beyond the initial ones comes from a statement of a committed transaction,
      made in that transaction's own session. */
  lemma {:induction false} EveryCardIsExplained(db: Db, events: seq<Event>, card: Row)
    requires card in Cards(Run(db, events).committed) && card !in Cards(db)
    ensures exists i :: 0 <= i < |Run(db, events).settled| && Explained(Run(db, events).settled[i], card)
  {
    if events != [] {
      var front, e := events[..|events| - 1], events[|events| - 1];
      var w := Run(db, front);
      RunKeepsInv(db, front);
      StepAddsCards(w, e);
      if card in Cards(w.committed) {
        EveryCardIsExplained(db, front, card);
        var i :| 0 <= i < |w.settled| && Explained(w.settled[i], card);
        assert Step(w, e).settled[i] == w.settled[i];
      } else {
        assert Step(w, e).settled[|w.settled|] == w.open[e.t];
      }
    }
  }

  // ---- no card of a committed transaction is lost ----

  /** The `j`-th statement of the transaction, if it is a `write_card`, has its card among
      these. */
  ghost predicate Kept(x: Transaction, j: nat, cards: set<Row>)
    requires j < |x.commands|
  {
    x.commands[j].WriteCard? ==> exists card :: card in cards && Accounts(x.role, x.ctx, x.commands[j], card)
  }

  ghost predicate AllKept(x: Transaction, cards: set<Row>) {
    forall j :: 0 <= j < |x.commands| ==> Kept(x, j, cards)
  }

  lemma KeptInMore(x: Transaction, cards: set<Row>, more: set<Row>)
    requires AllKept(x, cards) && cards <= more
    ensures AllKept(x, more)
  {
    forall j | 0 <= j < |x.commands| ensures Kept(x, j, more) {
      assert Kept(x, j, cards);
    }
  }

  /** What an open transaction has written is in its own view of the committed cards; what a
      committed one has written is committed. */
  ghost predicate NothingLost(w: World) {
    && (forall t :: t in w.open ==> AllKept(w.open[t], Cards(w.committed) + Cards(w.open[t].delta.added)))
    && (forall i :: 0 <= i < |w.settled| ==> AllKept(w.settled[i], Cards(w.committed)))
  }

  /** The transaction's view of the cards is the committed ones and its own. */
  lemma CardsInView(x: Transaction, committed: Db)
    requires OnlyAdds(x)
    ensures Cards(Seen(committed, x.delta)) == Cards(committed) + Cards(x.delta.added)
  {
    CardsSeen(committed, x.delta);
  }

  lemma ExtendedKeeps(x: Transaction, committed: Db, seen: Db, after: Db, c: Command)
    requires Cards(seen) == Cards(committed) + Cards(x.delta.added) && Cards(seen) <= Cards(after)
    requires AllKept(x, Cards(seen))
    requires c.WriteCard? ==> exists card :: card in Cards(after) && Accounts(x.role, x.ctx, c, card)
    ensures AllKept(Extended(x, seen, after, c), Cards(committed) + Cards(Extended(x, seen, after, c).delta.added))
  {
    var y := Extended(x, seen, after, c);
    CardsGrown(x.delta, seen, after);
    assert Cards(committed) + Cards(y.delta.added) == Cards(after);
    forall j | 0 <= j < |y.commands| ensures Kept(y, j, Cards(after)) {
      if j < |x.commands| {
        assert Kept(x, j, Cards(seen));
      }
    }
  }

  lemma StatementKeeps(x: Transaction, committed: Db, seen: Db, c: Command)
    requires OnlyAdds(x) && AllKept(x, Cards(committed) + Cards(x.delta.added))
    requires seen == Seen(committed, x.delta) && Exec(x.role, x.ctx, seen, c).Done?
    ensures var y := Extended(x, seen, Exec(x.role, x.ctx, seen, c).db, c);
      AllKept(y, Cards(committed) + Cards(y.delta.added))
  {
    CardsInView(x, committed);
    StatementKeepsCards(x.role, x.ctx, seen, c);
    WrittenCardIsThere(x.role, x.ctx, seen, c);
    ExtendedKeeps(x, committed, seen, Exec(x.role, x.ctx, seen, c).db, c);
  }

  lemma WrittenCardIsThere(role: DbRole, ctx: Settings, db: Db, c: Command)
    requires Exec(role, ctx, db, c).Done?
    ensures c.WriteCard? ==> exists card :: card in Cards(Exec(role, ctx, db, c).db) && Accounts(role, ctx, c, card)
  {
    if c.WriteCard? { CardCarriesItsActor(role, ctx, db, c.id, c.content); }
  }

  lemma OpenLosesNothing(w: World, t: Id, y: Transaction)
    requires NothingLost(w) && AllKept(y, Cards(w.committed) + Cards(y.delta.added))
    ensures NothingLost(w.(open := w.open[t := y]))
  {
  }

  lemma StatementLosesNothing(w: World, t: Id, c: Command)
    requires Inv(w) && NothingLost(w)
    ensures NothingLost(Step(w, Statement(t, c)))
  {
    if t in w.open {
      var x := w.open[t];
      var seen := Seen(w.committed, x.delta);
      if Exec(x.role, x.ctx, seen, c).Done? {
        StatementKeeps(x, w.committed, seen, c);
        OpenLosesNothing(w, t, Extended(x, seen, Exec(x.role, x.ctx, seen, c).db, c));
      }
    }
  }

  lemma CommitLosesNothing(w: World, t: Id)
    requires Inv(w) && NothingLost(w)
    ensures NothingLost(Step(w, Commit(t)))
  {
    if t in w.open {
      var after := Step(w, Commit(t));
      CardsSeen(w.committed, w.open[t].delta);
      forall u | u in after.open
        ensures AllKept(after.open[u], Cards(after.committed) + Cards(after.open[u].delta.added))
      {
        KeptInMore(w.open[u], Cards(w.committed) + Cards(w.open[u].delta.added),
                   Cards(after.committed) + Cards(w.open[u].delta.added));
      }
      forall i | 0 <= i < |after.settled| ensures AllKept(after.settled[i], Cards(after.committed)) {
        if i < |w.settled| {
          KeptInMore(w.settled[i], Cards(w.committed), Cards(after.committed));
        } else {
          KeptInMore(w.open[t], Cards(w.committed) + Cards(w.open[t].delta.added), Cards(after.committed));
        }
      }
    }
  }

  lemma {:induction false} RunLosesNothing(db: Db, events: seq<Event>)
    ensures NothingLost(Run(db, events))
  {
    if events != [] {
      var w, e := Run(db, events[..|events| - 1]), events[|events| - 1];
      RunLosesNothing(db, events[..|events| - 1]);
      RunKeepsInv(db, events[..|events| - 1]);
      match e
      case Begin(_, _, _) =>
      case Statement(t, c) => StatementLosesNothing(w, t, c);
      case Commit(t) => CommitLosesNothing(w, t);
      case Rollback(_) =>
    }
  }

  /** Every successful `write_card` of a committed transaction has its card, with that
      session's tenant, actor and role, among the committed ones, whatever else overlapped. */
  lemma {:induction false} EveryWriteIsKept(db: Db, events: seq<Event>, i: nat, j: nat)
    requires i < |Run(db, events).settled| && j < |Run(db, events).settled[i].commands|
    requires Run(db, events).settled[i].commands[j].WriteCard?
    ensures var x := Run(db, events).settled[i];
      exists card :: card in Cards(Run(db, events).committed) && Accounts(x.role, x.ctx, x.commands[j], card)
  {
    RunLosesNothing(db, events);
    assert Kept(Run(db, events).settled[i], j, Cards(Run(db, events).committed));
  }

  // ---- a transaction left alone ----

  /** The statements one after another on one database; nothing once one is refused. */
  ghost function InTurn(role: DbRole, ctx: Settings, db: Db, commands: seq<Command>): Option<Db> {
    if commands == [] then Some(db)
    else Next(role, ctx, InTurn(role, ctx, db, commands[..|commands| - 1]), commands[|commands| - 1])
  }

  ghost function Next(role: DbRole, ctx: Settings, made: Option<Db>, c: Command): Option<Db> {
    match made
    case None => None
    case Some(now) =>
      match Exec(role, ctx, now, c)
      case Refused(_) => None
      case Done(after, _, _) => Some(after)
  }

  ghost predicate AllTables(db: Db) {
    db.rows.Keys == TABLES
  }

  lemma EveryTable(tb: Table)
    ensures tb in TABLES
  {
    match tb
    case Tenant => case UserProfile => case Membership => case TenantCredential => case Location =>
    case LocationAlias => case AuditCard => case CostLedger => case CostBudget => case CostPreview => case Approval =>
  }

  lemma ExecKeepsTables(role: DbRole, ctx: Settings, db: Db, c: Command)
    requires AllTables(db) && Exec(role, ctx, db, c).Done?
    ensures AllTables(Exec(role, ctx, db, c).db)
  {
    forall tb: Table ensures tb in TABLES { EveryTable(tb); }
  }

  /** Taking away what is gone and adding what is new gives what there is. */
  lemma ChangesApplied<T>(committed: set<T>, removed: set<T>, added: set<T>, after: set<T>)
    ensures var before := (committed - removed) + added;
      (committed - (removed + (before - after))) + ((added - (before - after)) + (after - before)) == after
  {
  }

  lemma SeenAt(committed: Db, d: Delta, tb: Table)
    ensures Rows(Seen(committed, d), tb) == (Rows(committed, tb) - Rows(d.removed, tb)) + Rows(d.added, tb)
  {
    EveryTable(tb);
  }

  lemma GrownAt(d: Delta, before: Db, after: Db, tb: Table)
    ensures var gone, come := Rows(before, tb) - Rows(after, tb), Rows(after, tb) - Rows(before, tb);
      && Rows(Grown(d, before, after).removed, tb) == Rows(d.removed, tb) + gone
      && Rows(Grown(d, before, after).added, tb) == (Rows(d.added, tb) - gone) + come
  {
    EveryTable(tb);
  }

  lemma {:induction false} OwnRowsAreSeen(committed: Db, d: Delta, after: Db, tb: Table)
    ensures Rows(Seen(committed, Grown(d, Seen(committed, d), after)), tb) == Rows(after, tb)
  {
    var before := Seen(committed, d);
    SeenAt(committed, d, tb);
    GrownAt(d, before, after, tb);
    SeenAt(committed, Grown(d, before, after), tb);
    ChangesApplied(Rows(committed, tb), Rows(d.removed, tb), Rows(d.added, tb), Rows(after, tb));
  }

  lemma SameTables(a: Db, b: Db)
    requires AllTables(a) && AllTables(b) && a.assignments == b.assignments
    requires forall tb :: Rows(a, tb) == Rows(b, tb)
    ensures a == b
  {
    forall tb | tb in a.rows.Keys ensures a.rows[tb] == b.rows[tb] {
      assert Rows(a, tb) == Rows(b, tb);
    }
    assert a.rows == b.rows;
  }

  lemma SeenHasAllTables(committed: Db, d: Delta)
    ensures AllTables(Seen(committed, d))
  {
  }

  /** What a statement made of the tables is what the next one sees. */
  lemma {:induction false} OwnWritesAreSeen(committed: Db, d: Delta, after: Db)
    requires AllTables(after)
    ensures Seen(committed, Grown(d, Seen(committed, d), after)) == after
  {
    var again := Seen(committed, Grown(d, Seen(committed, d), after));
    forall tb ensures Rows(again, tb) == Rows(after, tb) { OwnRowsAreSeen(committed, d, after, tb); }
    ChangesApplied(committed.assignments, d.removed.assignments, d.added.assignments, after.assignments);
    SeenHasAllTables(committed, Grown(d, Seen(committed, d), after));
    SameTables(again, after);
  }

  lemma NothingSeen(committed: Db)
    requires AllTables(committed)
    ensures Seen(committed, Delta(NOTHING, NOTHING)) == committed
  {
    var seen := Seen(committed, Delta(NOTHING, NOTHING));
    forall tb ensures Rows(seen, tb) == Rows(committed, tb) { SeenAt(committed, Delta(NOTHING, NOTHING), tb); }
    SeenHasAllTables(committed, Delta(NOTHING, NOTHING));
    SameTables(seen, committed);
  }

  /** The events of one transaction up to its end. */
  function Statements(t: Id, commands: seq<Command>): seq<Event> {
    seq(|commands|, i requires 0 <= i < |commands| => Statement(t, commands[i]))
  }

  /** The transaction is open and sees what its statements made, or it has been aborted. */
  ghost predicate Underway(w: World, now: World, t: Id, role: DbRole, ctx: Settings, made: Option<Db>) {
    && now.committed == w.committed && now.settled == w.settled && now.open - {t} == w.open - {t}
    && (made.Some? <==> t in now.open)
    && (made.Some? ==>
          && now.open[t].role == role && now.open[t].ctx == ctx && AllTables(made.value)
          && Seen(w.committed, now.open[t].delta) == made.value)
  }

  lemma {:induction false} BegunUnderway(w: World, t: Id, role: DbRole, ctx: Settings)
    requires t !in w.open && AllTables(w.committed)
    ensures Underway(w, Step(w, Begin(t, role, ctx)), t, role, ctx, Some(w.committed))
  {
    var now := Step(w, Begin(t, role, ctx));
    assert now.open - {t} == w.open - {t};
    NothingSeen(w.committed);
  }

  lemma StatementStep(w: World, t: Id, c: Command)
    requires t in w.open
    ensures var x := w.open[t];
      var seen := Seen(w.committed, x.delta);
      var o := Exec(x.role, x.ctx, seen, c);
      Step(w, Statement(t, c)) ==
        w.(open := if o.Done? then w.open[t := Extended(x, seen, o.db, c)] else w.open - {t})
  {
  }

  lemma ExtendedSees(committed: Db, x: Transaction, made: Db, after: Db, c: Command)
    requires made == Seen(committed, x.delta) && AllTables(after)
    ensures Seen(committed, Extended(x, made, after, c).delta) == after
  {
    OwnWritesAreSeen(committed, x.delta, after);
  }

  lemma ReplacedUnderway(w: World, now: World, t: Id, y: Transaction, after: Db)
    requires now.committed == w.committed && now.settled == w.settled && now.open - {t} == w.open - {t}
    requires AllTables(after) && Seen(w.committed, y.delta) == after
    ensures Underway(w, now.(open := now.open[t := y]), t, y.role, y.ctx, Some(after))
  {
    assert now.open[t := y] - {t} == now.open - {t};
  }

  /** After a statement with this outcome. */
  lemma OutcomeUnderway(w: World, now: World, t: Id, role: DbRole, ctx: Settings, made: Db, o: Outcome, c: Command)
    requires Underway(w, now, t, role, ctx, Some(made)) && (o.Done? ==> AllTables(o.db))
    ensures var later :=
        now.(open := if o.Done? then now.open[t := Extended(now.open[t], made, o.db, c)] else now.open - {t});
      Underway(w, later, t, role, ctx, if o.Done? then Some(o.db) else None)
  {
    if o.Done? {
      ExtendedSees(w.committed, now.open[t], made, o.db, c);
      ReplacedUnderway(w, now, t, Extended(now.open[t], made, o.db, c), o.db);
    } else {
      assert (now.open - {t}) - {t} == now.open - {t};
    }
  }

  lemma {:induction false} NextUnderway(w: World, now: World, t: Id, role: DbRole, ctx: Settings, made: Option<Db>,
                                        c: Command)
    requires Underway(w, now, t, role, ctx, made)
    ensures Underway(w, Step(now, Statement(t, c)), t, role, ctx, Next(role, ctx, made, c))
  {
    if made.Some? {
      StatementStep(now, t, c);
      if Exec(role, ctx, made.value, c).Done? { ExecKeepsTables(role, ctx, made.value, c); }
      OutcomeUnderway(w, now, t, role, ctx, made.value, Exec(role, ctx, made.value, c), c);
    }
  }

  lemma {:induction false} StatementsUnderway(w: World, t: Id, role: DbRole, ctx: Settings, commands: seq<Command>)
    requires t !in w.open && AllTables(w.committed)
    ensures Underway(w, Steps(Step(w, Begin(t, role, ctx)), Statements(t, commands)), t, role, ctx,
                     InTurn(role, ctx, w.committed, commands))
    decreases |commands|
  {
    var begun := Step(w, Begin(t, role, ctx));
    if commands == [] {
      BegunUnderway(w, t, role, ctx);
    } else {
      var front, last := commands[..|commands| - 1], commands[|commands| - 1];
      StatementsUnderway(w, t, role, ctx, front);
      var events := Statements(t, commands);
      assert events[..|events| - 1] == Statements(t, front);
      NextUnderway(w, Steps(begun, Statements(t, front)), t, role, ctx, InTurn(role, ctx, w.committed, front), last);
    }
  }

  /** A transaction that nobody interferes with commits exactly what its statements make of
      the tables one after another, and leaves them alone when one of them is refused or when
      it rolls back. */
  lemma {:induction false} AllOrNothing(w: World, t: Id, role: DbRole, ctx: Settings, commands: seq<Command>)
    requires t !in w.open && AllTables(w.committed)
    ensures var now := Steps(Step(w, Begin(t, role, ctx)), Statements(t, commands));
      var made := InTurn(role, ctx, w.committed, commands);
      && Step(now, Commit(t)).committed == (if made.Some? then made.value else w.committed)
      && Step(now, Rollback(t)).committed == w.committed
      && t !in Step(now, Commit(t)).open && t !in Step(now, Rollback(t)).open
  {
    StatementsUnderway(w, t, role, ctx, commands);
  }

  /** Committed and open transactions have the roles they were begun in. */
  ghost predicate AllApi(w: World) {
    (forall t :: t in w.open ==> w.open[t].role.Api?) && (forall i :: 0 <= i < |w.settled| ==> w.settled[i].role.Api?)
  }

  lemma {:induction false} ApiRun(db: Db, events: seq<Event>)
    requires forall i :: 0 <= i < |events| && events[i].Begin? ==> events[i].role.Api?
    ensures AllApi(Run(db, events))
  {
    if events != [] {
      ApiRun(db, events[..|events| - 1]);
    }
  }

  /** When only the API role runs, every new card went through `write_card`, and so carries
      the tenant, the actor and the role of the session that wrote it. */
  lemma ApiCardsCarryTheSession(db: Db, events: seq<Event>, card: Row)
    requires forall i :: 0 <= i < |events| && events[i].Begin? ==> events[i].role.Api?
    requires card in Cards(Run(db, events).committed) && card !in Cards(db)
    ensures exists i ::
      && 0 <= i < |Run(db, events).settled|
      && var ctx := Run(db, events).settled[i].ctx;
         && ctx.tenant.Some? && card.tenant == ctx.tenant
         && card.cells.Card? && card.cells.actor == ctx.actor && card.cells.actorRole == ctx.role
  {
    ApiRun(db, events);
    EveryCardIsExplained(db, events, card);
    var w := Run(db, events);
    var i :| 0 <= i < |w.settled| && Explained(w.settled[i], card);
    var x := w.settled[i];
    var j :| 0 <= j < |x.commands| && Accounts(x.role, x.ctx, x.commands[j], card);
    assert x.commands[j].WriteCard?;
  }
}
