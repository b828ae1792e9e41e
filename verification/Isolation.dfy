/** Noninterference and frames for tenant sessions, and what location scoping shows. */
module Isolation {
  import opened Prelude
  import opened Tenancy

  /** Rows of the session's own tenant; for the two global tables, its own tenant row and
      its own profile. */
  predicate Belongs(tb: Table, row: Row, ctx: Settings) {
    match tb
    case Tenant => SqlEq(Some(row.id), ctx.tenant).True?
    case UserProfile => SqlEq(Some(row.id), ctx.actor).True?
    case _ => TenantIs(ctx, row).True?
  }

  ghost function Mine(db: Db, tb: Table, ctx: Settings): set<Row> {
    set r | r in Rows(db, tb) && Belongs(tb, r, ctx)
  }

  ghost function Theirs(db: Db, tb: Table, ctx: Settings): set<Row> {
    set r | r in Rows(db, tb) && !Belongs(tb, r, ctx)
  }

  ghost predicate Owned(db: Db, ctx: Settings, pair: (Id, Id)) {
    OwnsAssignment(Mine(db, Membership, ctx), ctx, pair)
  }

  ghost function MyPairs(db: Db, ctx: Settings): set<(Id, Id)> {
    set p | p in db.assignments && Owned(db, ctx, p)
  }

  ghost function TheirPairs(db: Db, ctx: Settings): set<(Id, Id)> {
    set p | p in db.assignments && !Owned(db, ctx, p)
  }

  /** Two databases no session under `ctx` can tell apart. */
  ghost predicate Agree(a: Db, b: Db, ctx: Settings) {
    (forall tb :: Mine(a, tb, ctx) == Mine(b, tb, ctx)) && MyPairs(a, ctx) == MyPairs(b, ctx)
  }

  /** Everything outside the session's own rows is the same. */
  ghost predicate Untouched(before: Db, after: Db, ctx: Settings) {
    && (forall tb :: Theirs(after, tb, ctx) == Theirs(before, tb, ctx))
    && TheirPairs(after, ctx) == TheirPairs(before, ctx)
  }

  // ---- what a tenant role can see or reach is its own ----

  lemma SelectIsMine(role: DbRole, ctx: Settings, db: Db, tb: Table, row: Row)
    requires !role.Migrator? && SelectPolicy(role, ctx, db, tb, row).True?
    ensures Belongs(tb, row, ctx)
  {
  }

  lemma WriteIsMine(role: DbRole, ctx: Settings, tb: Table, verb: Verb, row: Row)
    requires !role.Migrator? && WritePolicy(role, ctx, tb, verb, row).True?
    ensures Belongs(tb, row, ctx) && TenantTrigger(tb)
  {
  }

  lemma SeenIsMine(role: DbRole, ctx: Settings, db: Db)
    requires !role.Migrator?
    ensures SeenMemberships(role, ctx, db) == Mine(db, Membership, ctx)
    ensures SeenAssigned(role, ctx, db) == MyPairs(db, ctx)
  {
  }

  lemma SelectAgrees(role: DbRole, ctx: Settings, a: Db, b: Db, tb: Table, row: Row)
    requires !role.Migrator? && Agree(a, b, ctx)
    ensures SelectPolicy(role, ctx, a, tb, row) == SelectPolicy(role, ctx, b, tb, row)
  {
    SeenIsMine(role, ctx, a);
    SeenIsMine(role, ctx, b);
    assert Mine(a, Membership, ctx) == Mine(b, Membership, ctx);
  }

  lemma ViewAgrees(role: DbRole, ctx: Settings, a: Db, b: Db, tb: Table)
    requires !role.Migrator? && Agree(a, b, ctx)
    ensures View(role, ctx, a, tb) == View(role, ctx, b, tb)
  {
    assert Mine(a, tb, ctx) == Mine(b, tb, ctx);
    forall r ensures r in View(role, ctx, a, tb) <==> r in View(role, ctx, b, tb) {
      SelectAgrees(role, ctx, a, b, tb, r);
      if SelectPolicy(role, ctx, a, tb, r).True? {
        SelectIsMine(role, ctx, a, tb, r);
        assert r in Rows(a, tb) <==> r in Mine(a, tb, ctx);
        assert r in Rows(b, tb) <==> r in Mine(b, tb, ctx);
      }
    }
  }

  lemma TargetIsMine(role: DbRole, ctx: Settings, db: Db, tb: Table, verb: Verb, where: Row -> bool, reading: bool,
                     r: Row)
    requires !role.Migrator?
    ensures r in Targets(role, ctx, db, tb, verb, where, reading)
       <==> r in Mine(db, tb, ctx) && WritePolicy(role, ctx, tb, verb, r).True?
            && (reading ==> SelectPolicy(role, ctx, db, tb, r).True?) && where(r)
  {
    if WritePolicy(role, ctx, tb, verb, r).True? { WriteIsMine(role, ctx, tb, verb, r); }
  }

  lemma TargetsAgree(role: DbRole, ctx: Settings, a: Db, b: Db, tb: Table, verb: Verb, where: Row -> bool,
                     reading: bool)
    requires !role.Migrator? && Agree(a, b, ctx)
    ensures Targets(role, ctx, a, tb, verb, where, reading) == Targets(role, ctx, b, tb, verb, where, reading)
    ensures Targets(role, ctx, a, tb, verb, where, reading) <= Mine(a, tb, ctx)
  {
    assert Mine(a, tb, ctx) == Mine(b, tb, ctx);
    forall r
      ensures r in Targets(role, ctx, a, tb, verb, where, reading)
           <==> r in Targets(role, ctx, b, tb, verb, where, reading)
      ensures r in Targets(role, ctx, a, tb, verb, where, reading) ==> r in Mine(a, tb, ctx)
    {
      SelectAgrees(role, ctx, a, b, tb, r);
      TargetIsMine(role, ctx, a, tb, verb, where, reading, r);
      TargetIsMine(role, ctx, b, tb, verb, where, reading, r);
    }
  }

  // ---- replacing own rows ----

  /** `after` differs from `before` only in rows of one table that are the session's own. */
  ghost predicate Replaces(before: Db, after: Db, ctx: Settings, tb: Table, removed: set<Row>, added: set<Row>) {
    && after.rows == before.rows[tb := (Rows(before, tb) - removed) + added]
    && (forall r :: r in removed || r in added ==> Belongs(tb, r, ctx))
  }

  lemma ReplacedRows(before: Db, after: Db, ctx: Settings, tb: Table, removed: set<Row>, added: set<Row>)
    requires Replaces(before, after, ctx, tb, removed, added)
    ensures forall t :: Theirs(after, t, ctx) == Theirs(before, t, ctx)
    ensures forall t ::
      Mine(after, t, ctx) == if t == tb then (Mine(before, tb, ctx) - removed) + added else Mine(before, t, ctx)
  {
    forall t
      ensures Theirs(after, t, ctx) == Theirs(before, t, ctx)
      ensures Mine(after, t, ctx) == if t == tb then (Mine(before, tb, ctx) - removed) + added else Mine(before, t, ctx)
    {
      if t == tb {
        assert Rows(after, t) == (Rows(before, t) - removed) + added;
      } else {
        assert Rows(after, t) == Rows(before, t);
      }
    }
  }

  /** With the foreign key and the primary key in force before and after, changing the
      session's own memberships moves no assignment in or out of its ownership. */
  lemma OwnershipStable(before: Db, after: Db, ctx: Settings, pair: (Id, Id))
    requires Integrity(before) && Integrity(after)
    requires Theirs(before, Membership, ctx) == Theirs(after, Membership, ctx)
    requires pair in before.assignments && pair in after.assignments
    ensures Owned(before, ctx, pair) <==> Owned(after, ctx, pair)
  {
    var m :| m in Rows(before, Membership) && m.id == pair.0;
    var n :| n in Rows(after, Membership) && n.id == pair.0;
    OwnedIffMine(before, ctx, pair, m);
    OwnedIffMine(after, ctx, pair, n);
    if !Belongs(Membership, m, ctx) {
      assert m in Theirs(before, Membership, ctx);
      assert m in Rows(after, Membership);
    }
    if !Belongs(Membership, n, ctx) {
      assert n in Theirs(after, Membership, ctx);
      assert n in Rows(before, Membership);
    }
  }

  lemma OwnedIffMine(db: Db, ctx: Settings, pair: (Id, Id), m: Row)
    requires Integrity(db) && m in Rows(db, Membership) && m.id == pair.0
    ensures Owned(db, ctx, pair) <==> Belongs(Membership, m, ctx)
  {
    if Belongs(Membership, m, ctx) {
      assert m in Mine(db, Membership, ctx);
    }
  }

  lemma PairsKept(before: Db, after: Db, ctx: Settings)
    requires Integrity(before) && Integrity(after)
    requires Theirs(before, Membership, ctx) == Theirs(after, Membership, ctx)
    requires after.assignments == before.assignments
    ensures MyPairs(after, ctx) == MyPairs(before, ctx) && TheirPairs(after, ctx) == TheirPairs(before, ctx)
  {
    forall p | p in before.assignments ensures Owned(before, ctx, p) <==> Owned(after, ctx, p) {
      OwnershipStable(before, after, ctx, p);
    }
  }

  /** A statement that replaces own rows keeps agreement and leaves the rest alone. */
  lemma ReplacementIsLocal(before: Db, after: Db, ctx: Settings, tb: Table, removed: set<Row>, added: set<Row>)
    requires Replaces(before, after, ctx, tb, removed, added)
    requires Integrity(before) && Integrity(after) && after.assignments == before.assignments
    ensures Untouched(before, after, ctx) && MyPairs(after, ctx) == MyPairs(before, ctx)
    ensures forall t ::
      Mine(after, t, ctx) == if t == tb then (Mine(before, tb, ctx) - removed) + added else Mine(before, t, ctx)
  {
    ReplacedRows(before, after, ctx, tb, removed, added);
    PairsKept(before, after, ctx);
  }

  // ---- each statement ----

  /** The outcomes of one statement on two databases, as its session may see them. */
  ghost predicate Alike(a: Outcome, b: Outcome, ctx: Settings) {
    && (a.Done? && b.Done? ==> a.rows == b.rows && a.pairs == b.pairs && Agree(a.db, b.db, ctx))
    && (a.Refused? && a.error != ConstraintViolation ==> b == a)
    && (b.Refused? && b.error != ConstraintViolation ==> a == b)
  }

  ghost predicate Framed(db: Db, o: Outcome, ctx: Settings) {
    o.Done? ==> Integrity(o.db) && Untouched(db, o.db, ctx)
  }

  lemma InsertIsLocal(role: DbRole, ctx: Settings, db: Db, tb: Table, row: Row, returning: bool)
    requires Integrity(db)
    requires !role.Migrator? || (Belongs(tb, row, ctx) && TenantTrigger(tb))
    ensures var o := DoInsert(role, ctx, db, tb, row, returning);
      Framed(db, o, ctx) && (o.Done? ==>
        && BeforeInsert(role, ctx, tb, row).Success?
        && o.rows == {BeforeInsert(role, ctx, tb, row).value} && o.pairs == {}
        && MyPairs(o.db, ctx) == MyPairs(db, ctx)
        && forall t :: Mine(o.db, t, ctx) == if t == tb then Mine(db, tb, ctx) + o.rows else Mine(db, t, ctx))
  {
    var o := DoInsert(role, ctx, db, tb, row, returning);
    if o.Done? {
      var inserted := BeforeInsert(role, ctx, tb, row).value;
      if !role.Migrator? { WriteIsMine(role, ctx, tb, Insert, inserted); }
      assert (Rows(db, tb) - {}) + {inserted} == Rows(db, tb) + {inserted};
      ReplacementIsLocal(db, o.db, ctx, tb, {}, {inserted});
    }
  }

  lemma InsertAgrees(role: DbRole, ctx: Settings, a: Db, b: Db, tb: Table, row: Row, returning: bool)
    requires Agree(a, b, ctx) && Integrity(a) && Integrity(b)
    requires !role.Migrator? || (Belongs(tb, row, ctx) && TenantTrigger(tb))
    ensures Alike(DoInsert(role, ctx, a, tb, row, returning), DoInsert(role, ctx, b, tb, row, returning), ctx)
  {
    InsertIsLocal(role, ctx, a, tb, row, returning);
    InsertIsLocal(role, ctx, b, tb, row, returning);
    if !role.Migrator? && BeforeInsert(role, ctx, tb, row).Success? {
      SelectAgrees(role, ctx, a, b, tb, BeforeInsert(role, ctx, tb, row).value);
    }
  }

  ghost function Image(role: DbRole, ctx: Settings, tb: Table, targets: set<Row>, change: Row -> Row): set<Row> {
    set r | r in targets :: Updated(role, ctx, tb, change, r)
  }

  lemma {:induction false} UpdateIsLocal(role: DbRole, ctx: Settings, db: Db, tb: Table,
                                        where: Row -> bool, change: Row -> Row, reading: bool)
    requires Integrity(db) && !role.Migrator?
    ensures var o := DoUpdate(role, ctx, db, tb, where, change, reading);
      var targets := Targets(role, ctx, db, tb, Update, where, reading);
      Framed(db, o, ctx) && (o.Done? ==>
        && o.rows == Image(role, ctx, tb, targets, change) && o.pairs == {}
        && MyPairs(o.db, ctx) == MyPairs(db, ctx)
        && forall t ::
             Mine(o.db, t, ctx) == if t == tb then (Mine(db, tb, ctx) - targets) + o.rows else Mine(db, t, ctx))
  {
    var o := DoUpdate(role, ctx, db, tb, where, change, reading);
    var targets := Targets(role, ctx, db, tb, Update, where, reading);
    if o.Done? {
      forall r | r in targets ensures Belongs(tb, r, ctx) { WriteIsMine(role, ctx, tb, Update, r); }
      forall r | r in o.rows ensures Belongs(tb, r, ctx) { WriteIsMine(role, ctx, tb, Update, r); }
      ReplacementIsLocal(db, o.db, ctx, tb, targets, o.rows);
    }
  }

  lemma ChecksAgree(role: DbRole, ctx: Settings, a: Db, b: Db, tb: Table, image: set<Row>, reading: bool)
    requires !role.Migrator? && Agree(a, b, ctx)
    ensures CheckFails(role, ctx, a, tb, image, reading) == CheckFails(role, ctx, b, tb, image, reading)
  {
    forall r ensures SelectPolicy(role, ctx, a, tb, r) == SelectPolicy(role, ctx, b, tb, r) {
      SelectAgrees(role, ctx, a, b, tb, r);
    }
  }

  lemma UpdateAgrees(role: DbRole, ctx: Settings, a: Db, b: Db, tb: Table, where: Row -> bool, change: Row -> Row,
                     reading: bool)
    requires Agree(a, b, ctx) && Integrity(a) && Integrity(b) && !role.Migrator?
    ensures Alike(DoUpdate(role, ctx, a, tb, where, change, reading),
                  DoUpdate(role, ctx, b, tb, where, change, reading), ctx)
  {
    UpdateIsLocal(role, ctx, a, tb, where, change, reading);
    UpdateIsLocal(role, ctx, b, tb, where, change, reading);
    TargetsAgree(role, ctx, a, b, tb, Update, where, reading);
    var targets := Targets(role, ctx, a, tb, Update, where, reading);
    ChecksAgree(role, ctx, a, b, tb, Image(role, ctx, tb, targets, change), reading);
  }

  /** Assignments that survive the deletion of some memberships. */
  ghost function KeptPairs(pairs: set<(Id, Id)>, tb: Table, deleted: set<Row>): set<(Id, Id)> {
    if tb == Membership then set p | p in pairs && forall m :: m in deleted ==> m.id != p.0 else pairs
  }

  lemma {:induction false} DeleteIsLocal(role: DbRole, ctx: Settings, db: Db, tb: Table, where: Row -> bool,
                                         reading: bool)
    requires Integrity(db) && !role.Migrator?
    ensures var o := DoDelete(role, ctx, db, tb, where, reading);
      var targets := Targets(role, ctx, db, tb, Delete, where, reading);
      Framed(db, o, ctx) && (o.Done? ==>
        && o.rows == targets && o.pairs == {}
        && MyPairs(o.db, ctx) == KeptPairs(MyPairs(db, ctx), tb, targets)
        && forall t :: Mine(o.db, t, ctx) == if t == tb then Mine(db, tb, ctx) - targets else Mine(db, t, ctx))
  {
    var o := DoDelete(role, ctx, db, tb, where, reading);
    var targets := Targets(role, ctx, db, tb, Delete, where, reading);
    if o.Done? {
      forall r | r in targets ensures Belongs(tb, r, ctx) { WriteIsMine(role, ctx, tb, Delete, r); }
      assert Rows(db, tb) - targets == (Rows(db, tb) - targets) + {};
      ReplacedRows(db, o.db, ctx, tb, targets, {});
      assert o.db.assignments == KeptPairs(db.assignments, tb, targets);
      forall p | p in o.db.assignments ensures Owned(db, ctx, p) <==> Owned(o.db, ctx, p) {
        OwnershipStable(db, o.db, ctx, p);
      }
      forall p | p in TheirPairs(db, ctx) ensures p in o.db.assignments {
        if tb == Membership {
          forall m | m in targets ensures m.id != p.0 {
            if m.id == p.0 { OwnedIffMine(db, ctx, p, m); }
          }
        }
      }
      assert TheirPairs(o.db, ctx) == TheirPairs(db, ctx);
      assert MyPairs(o.db, ctx) == KeptPairs(MyPairs(db, ctx), tb, targets);
    }
  }

  lemma DeleteAgrees(role: DbRole, ctx: Settings, a: Db, b: Db, tb: Table, where: Row -> bool, reading: bool)
    requires Agree(a, b, ctx) && Integrity(a) && Integrity(b) && !role.Migrator?
    ensures Alike(DoDelete(role, ctx, a, tb, where, reading), DoDelete(role, ctx, b, tb, where, reading), ctx)
  {
    DeleteIsLocal(role, ctx, a, tb, where, reading);
    DeleteIsLocal(role, ctx, b, tb, where, reading);
    TargetsAgree(role, ctx, a, b, tb, Delete, where, reading);
  }

  /** Changing assignments that are all the session's own is local too. */
  lemma PairReplacementIsLocal(before: Db, after: Db, ctx: Settings, removed: set<(Id, Id)>, added: set<(Id, Id)>)
    requires after == before.(assignments := (before.assignments - removed) + added)
    requires forall p :: p in removed || p in added ==> Owned(before, ctx, p)
    ensures Untouched(before, after, ctx)
    ensures MyPairs(after, ctx) == (MyPairs(before, ctx) - removed) + added
    ensures forall t :: Mine(after, t, ctx) == Mine(before, t, ctx)
  {
    forall t ensures Mine(after, t, ctx) == Mine(before, t, ctx) && Theirs(after, t, ctx) == Theirs(before, t, ctx) {
      assert Rows(after, t) == Rows(before, t);
    }
    assert Mine(after, Membership, ctx) == Mine(before, Membership, ctx);
    assert TheirPairs(after, ctx) == TheirPairs(before, ctx);
  }

  lemma TouchIsOwned(role: DbRole, ctx: Settings, db: Db, pair: (Id, Id))
    requires !role.Migrator?
    ensures MayTouchPair(role, ctx, db, pair) <==> Owned(db, ctx, pair)
  {
    SeenIsMine(role, ctx, db);
  }

  ghost predicate IsPairCommand(c: Command) {
    c.InsertPair? || c.UpdatePairs? || c.DeletePairs?
  }

  lemma PairTargetsAreMine(role: DbRole, ctx: Settings, db: Db, which: ((Id, Id)) -> bool)
    requires !role.Migrator?
    ensures PairTargets(role, ctx, db, which) == set p | p in MyPairs(db, ctx) && which(p)
  {
    forall p ensures p in PairTargets(role, ctx, db, which) <==> p in MyPairs(db, ctx) && which(p) {
      TouchIsOwned(role, ctx, db, p);
    }
  }

  /** What an assignment statement takes away and adds, told from own rows alone. */
  ghost function PairChange(c: Command, mine: set<(Id, Id)>): (set<(Id, Id)>, set<(Id, Id)>)
    requires IsPairCommand(c)
  {
    match c
    case InsertPair(pair) => ({}, {pair})
    case UpdatePairs(which, move) =>
      var t := set p | p in mine && which(p);
      (t, set p | p in t :: move(p))
    case DeletePairs(which) => (set p | p in mine && which(p), {})
  }

  lemma {:induction false} PairCommandIsLocal(role: DbRole, ctx: Settings, db: Db, c: Command)
    requires Integrity(db) && !role.Migrator? && IsPairCommand(c)
    ensures var o := Exec(role, ctx, db, c);
      var (removed, added) := PairChange(c, MyPairs(db, ctx));
      Framed(db, o, ctx) && (o.Done? ==>
        && o.rows == {} && o.pairs == (if c.DeletePairs? then removed else added)
        && MyPairs(o.db, ctx) == (MyPairs(db, ctx) - removed) + added
        && forall t :: Mine(o.db, t, ctx) == Mine(db, t, ctx))
  {
    var o := Exec(role, ctx, db, c);
    var (removed, added) := PairChange(c, MyPairs(db, ctx));
    if !c.InsertPair? { PairTargetsAreMine(role, ctx, db, c.which); }
    if o.Done? {
      forall p | p in added ensures Owned(db, ctx, p) { TouchIsOwned(role, ctx, db, p); }
      assert o.db.assignments == (db.assignments - removed) + added;
      assert o.db == db.(assignments := (db.assignments - removed) + added);
      PairReplacementIsLocal(db, o.db, ctx, removed, added);
    }
  }

  lemma TouchAgrees(role: DbRole, ctx: Settings, a: Db, b: Db, pair: (Id, Id))
    requires !role.Migrator? && Agree(a, b, ctx)
    ensures MayTouchPair(role, ctx, a, pair) == MayTouchPair(role, ctx, b, pair)
  {
    TouchIsOwned(role, ctx, a, pair);
    TouchIsOwned(role, ctx, b, pair);
    assert Mine(a, Membership, ctx) == Mine(b, Membership, ctx);
  }

  lemma PairTargetsAgree(role: DbRole, ctx: Settings, a: Db, b: Db, which: ((Id, Id)) -> bool)
    requires !role.Migrator? && Agree(a, b, ctx)
    ensures PairTargets(role, ctx, a, which) == PairTargets(role, ctx, b, which)
  {
    PairTargetsAreMine(role, ctx, a, which);
    PairTargetsAreMine(role, ctx, b, which);
  }

  /** Constraints aside, an assignment statement is refused on both or on neither. */
  lemma PairRefusalsAgree(role: DbRole, ctx: Settings, a: Db, b: Db, c: Command)
    requires Agree(a, b, ctx) && !role.Migrator? && IsPairCommand(c)
    ensures var o, p := Exec(role, ctx, a, c), Exec(role, ctx, b, c);
      && (o.Refused? && o.error != ConstraintViolation ==> p == o)
      && (p.Refused? && p.error != ConstraintViolation ==> o == p)
  {
    forall p ensures MayTouchPair(role, ctx, a, p) == MayTouchPair(role, ctx, b, p) {
      TouchAgrees(role, ctx, a, b, p);
    }
    if !c.InsertPair? { PairTargetsAgree(role, ctx, a, b, c.which); }
  }

  lemma PairCommandAgrees(role: DbRole, ctx: Settings, a: Db, b: Db, c: Command)
    requires Agree(a, b, ctx) && Integrity(a) && Integrity(b) && !role.Migrator? && IsPairCommand(c)
    ensures Alike(Exec(role, ctx, a, c), Exec(role, ctx, b, c), ctx)
  {
    PairRefusalsAgree(role, ctx, a, b, c);
    PairCommandIsLocal(role, ctx, a, c);
    PairCommandIsLocal(role, ctx, b, c);
  }

  /** The card's label is read from the actor's own profile. */
  lemma CardAgrees(role: DbRole, ctx: Settings, a: Db, b: Db, id: Id, content: int)
    requires Agree(a, b, ctx) && Integrity(a) && Integrity(b) && !role.Migrator?
    ensures Alike(DoWriteCard(role, ctx, a, id, content), DoWriteCard(role, ctx, b, id, content), ctx)
    ensures Framed(a, DoWriteCard(role, ctx, a, id, content), ctx)
  {
    assert OwnProfiles(ctx, a) == Mine(a, UserProfile, ctx);
    assert OwnProfiles(ctx, b) == Mine(b, UserProfile, ctx);
    assert Mine(a, UserProfile, ctx) == Mine(b, UserProfile, ctx);
    if !role.Readonly? && ctx.tenant.Some? && IsActorRole(ctx.role) {
      var row := Row(id, ctx.tenant, 0, Card(ctx.actor, LabelIn(OwnProfiles(ctx, a)), ctx.role, ctx.now, content));
      InsertIsLocal(Migrator, ctx, a, AuditCard, row, false);
      InsertAgrees(Migrator, ctx, a, b, AuditCard, row, false);
    }
  }

  lemma ReadAgrees(role: DbRole, ctx: Settings, a: Db, b: Db, c: Command)
    requires Agree(a, b, ctx) && !role.Migrator? && (c.Query? || c.QueryAssigned?)
    ensures Alike(Exec(role, ctx, a, c), Exec(role, ctx, b, c), ctx)
  {
    if c.Query? {
      ViewAgrees(role, ctx, a, b, c.tb);
    } else {
      SeenIsMine(role, ctx, a);
      SeenIsMine(role, ctx, b);
    }
  }

  lemma RowCommandAgrees(role: DbRole, ctx: Settings, a: Db, b: Db, c: Command)
    requires Agree(a, b, ctx) && Integrity(a) && Integrity(b) && !role.Migrator?
    requires c.InsertRow? || c.UpdateRows? || c.DeleteRows?
    ensures Alike(Exec(role, ctx, a, c), Exec(role, ctx, b, c), ctx)
  {
    match c
    case InsertRow(tb, row, returning) => InsertAgrees(role, ctx, a, b, tb, row, returning);
    case UpdateRows(tb, where, change, reading) => UpdateAgrees(role, ctx, a, b, tb, where, change, reading);
    case DeleteRows(tb, where, reading) => DeleteAgrees(role, ctx, a, b, tb, where, reading);
  }

  /** One statement of a tenant role: on two databases that agree on the session's rows it
      returns the same, fails the same (constraint violations aside), and they still agree. */
  lemma {:induction false} ExecAgrees(role: DbRole, ctx: Settings, a: Db, b: Db, c: Command)
    requires Agree(a, b, ctx) && Integrity(a) && Integrity(b) && !role.Migrator?
    ensures Alike(Exec(role, ctx, a, c), Exec(role, ctx, b, c), ctx)
  {
    if c.Query? || c.QueryAssigned? {
      ReadAgrees(role, ctx, a, b, c);
    } else if c.WriteCard? {
      CardAgrees(role, ctx, a, b, c.id, c.content);
    } else if IsPairCommand(c) {
      PairCommandAgrees(role, ctx, a, b, c);
    } else {
      RowCommandAgrees(role, ctx, a, b, c);
    }
  }

  lemma RowCommandIsFramed(role: DbRole, ctx: Settings, db: Db, c: Command)
    requires Integrity(db) && !role.Migrator? && (c.InsertRow? || c.UpdateRows? || c.DeleteRows?)
    ensures Framed(db, Exec(role, ctx, db, c), ctx)
  {
    match c
    case InsertRow(tb, row, returning) => InsertIsLocal(role, ctx, db, tb, row, returning);
    case UpdateRows(tb, where, change, reading) => UpdateIsLocal(role, ctx, db, tb, where, change, reading);
    case DeleteRows(tb, where, reading) => DeleteIsLocal(role, ctx, db, tb, where, reading);
  }

  lemma ReadIsFramed(role: DbRole, ctx: Settings, db: Db, c: Command)
    requires Integrity(db) && (c.Query? || c.QueryAssigned?)
    ensures Framed(db, Exec(role, ctx, db, c), ctx)
    ensures Exec(role, ctx, db, c).Done? ==> Exec(role, ctx, db, c).db == db
  {
  }

  /** One statement of a tenant role touches nothing outside the session's own rows. */
  lemma {:induction false} ExecIsFramed(role: DbRole, ctx: Settings, db: Db, c: Command)
    requires Integrity(db) && !role.Migrator?
    ensures Framed(db, Exec(role, ctx, db, c), ctx)
  {
    if c.Query? || c.QueryAssigned? {
      ReadIsFramed(role, ctx, db, c);
    } else if c.WriteCard? {
      CardAgrees(role, ctx, db, db, c.id, c.content);
    } else if IsPairCommand(c) {
      PairCommandIsLocal(role, ctx, db, c);
    } else {
      RowCommandIsFramed(role, ctx, db, c);
    }
  }

  // ---- whole sessions, with a client that adapts to what it has seen ----

  datatype Seen = Seen(rows: set<Row>, pairs: set<(Id, Id)>)

  datatype Session = Ongoing(db: Db, seen: seq<Seen>) | Aborted

  /** One more statement, chosen by the client from everything returned so far; a refused one
      aborts the session. */
  ghost function Continued(role: DbRole, ctx: Settings, s: Session, client: seq<Seen> -> Command): Session {
    match s
    case Aborted => Aborted
    case Ongoing(now, seen) =>
      match Exec(role, ctx, now, client(seen))
      case Refused(_) => Aborted
      case Done(after, rows, pairs) => Ongoing(after, seen + [Seen(rows, pairs)])
  }

  /** `n` statements of an adaptive client. */
  ghost function RunSession(role: DbRole, ctx: Settings, db: Db, client: seq<Seen> -> Command, n: nat): Session {
    if n == 0 then Ongoing(db, []) else Continued(role, ctx, RunSession(role, ctx, db, client, n - 1), client)
  }

  /** Noninterference: whatever an adaptive client of a tenant role does, if its statements
      succeed on two databases that agree on its tenant's rows, it sees the same on both,
      and they agree afterwards. */
  lemma {:induction false} Noninterference(role: DbRole, ctx: Settings, a: Db, b: Db, client: seq<Seen> -> Command,
                                           n: nat)
    requires Agree(a, b, ctx) && Integrity(a) && Integrity(b) && !role.Migrator?
    requires RunSession(role, ctx, a, client, n).Ongoing? && RunSession(role, ctx, b, client, n).Ongoing?
    ensures var s, t := RunSession(role, ctx, a, client, n), RunSession(role, ctx, b, client, n);
      s.seen == t.seen && Agree(s.db, t.db, ctx) && Integrity(s.db) && Integrity(t.db)
  {
    if n > 0 {
      var s, t := RunSession(role, ctx, a, client, n - 1), RunSession(role, ctx, b, client, n - 1);
      Noninterference(role, ctx, a, b, client, n - 1);
      ExecAgrees(role, ctx, s.db, t.db, client(s.seen));
      ExecIsFramed(role, ctx, s.db, client(s.seen));
      ExecIsFramed(role, ctx, t.db, client(t.seen));
    }
  }

  /** No row and no assignment of another tenant changes in such a session. */
  lemma {:induction false} OtherTenantsUntouched(role: DbRole, ctx: Settings, db: Db, client: seq<Seen> -> Command,
                                                 n: nat)
    requires Integrity(db) && !role.Migrator? && RunSession(role, ctx, db, client, n).Ongoing?
    ensures var s := RunSession(role, ctx, db, client, n); Integrity(s.db) && Untouched(db, s.db, ctx)
  {
    if n > 0 {
      var s := RunSession(role, ctx, db, client, n - 1);
      OtherTenantsUntouched(role, ctx, db, client, n - 1);
      ExecIsFramed(role, ctx, s.db, client(s.seen));
    }
  }

  // ---- location scope ----

  /** The actor's assigned locations: active memberships of the bound tenant, read from the
      tables themselves. */
  ghost function Scope(ctx: Settings, db: Db): set<Id> {
    set p | p in db.assignments && Joined(Rows(db, Membership), ctx, p) :: p.1
  }

  lemma JoinThroughPolicies(role: DbRole, ctx: Settings, db: Db, p: (Id, Id))
    requires !role.Migrator?
    ensures p in SeenAssigned(role, ctx, db) && Joined(SeenMemberships(role, ctx, db), ctx, p)
       <==> p in db.assignments && Joined(Rows(db, Membership), ctx, p)
  {
    if p in db.assignments && Joined(Rows(db, Membership), ctx, p) {
      var m :| m in Rows(db, Membership) && m.cells.Member? && m.id == p.0 && TenantIs(ctx, m).True?
            && SqlEq(Some(m.cells.user), ctx.actor).True? && m.cells.status == "active";
      assert m in SeenMemberships(role, ctx, db);
    }
  }

  /** `can_read_location`, evaluated through the caller's own policies, answers as it would
      on the unfiltered tables. */
  lemma ScopeSeesThroughPolicies(role: DbRole, ctx: Settings, db: Db, location: Id)
    requires !role.Migrator?
    ensures CanReadLocation(role, ctx, db, location)
         <==> ScopeAllows(Rows(db, Membership), db.assignments, ctx, location)
  {
    forall p ensures p in SeenAssigned(role, ctx, db) && Joined(SeenMemberships(role, ctx, db), ctx, p)
               <==> p in db.assignments && Joined(Rows(db, Membership), ctx, p)
    {
      JoinThroughPolicies(role, ctx, db, p);
    }
  }

  /** The locations the API role sees are exactly its tenant's locations in scope: all of
      them for an operator or with nothing assigned, the assigned ones otherwise. */
  lemma VisibleLocations(ctx: Settings, db: Db)
    ensures View(Api, ctx, db, Location)
         == set l | l in Rows(db, Location) && l.tenant.Some? && l.tenant == ctx.tenant
                 && (ctx.role in {"as_admin", "as_staff", "system"} || Scope(ctx, db) == {} || l.id in Scope(ctx, db))
  {
    forall l | l in Rows(db, Location)
      ensures CanReadLocation(Api, ctx, db, l.id) <==> IsOperator(ctx) || Scope(ctx, db) == {} || l.id in Scope(ctx, db)
    {
      ScopeSeesThroughPolicies(Api, ctx, db, l.id);
      ScopeAllowsIffInScope(ctx, db, l.id);
    }
  }

  lemma ScopeAllowsIffInScope(ctx: Settings, db: Db, location: Id)
    ensures ScopeAllows(Rows(db, Membership), db.assignments, ctx, location)
       <==> IsOperator(ctx) || Scope(ctx, db) == {} || location in Scope(ctx, db)
  {
    if exists p :: p in db.assignments && Joined(Rows(db, Membership), ctx, p) {
      var p :| p in db.assignments && Joined(Rows(db, Membership), ctx, p);
      assert p.1 in Scope(ctx, db);
    }
  }

  /** A member of one tenant, assigned to one of its two locations. */
  function OneMember(status: string): Db {
    Db(map[Membership := {Row(1, Some(5), 0, Member(7, status))},
           Location := {Row(10, Some(5), 0, Other(0)), Row(11, Some(5), 0, Other(0))}],
       {(1, 10)})
  }

  /** Only an active membership narrows the scope: a member whose assignment hangs on a
      membership in any other state sees the location it is not assigned to. */
  lemma ScopeNarrowsIffActive(status: string, now: nat)
    ensures var ctx := Settings(Some(5), Some(7), "client_user", now);
      Row(11, Some(5), 0, Other(0)) in View(Api, ctx, OneMember(status), Location) <==> status != "active"
  {
    var ctx, db := Settings(Some(5), Some(7), "client_user", now), OneMember(status);
    var m := Row(1, Some(5), 0, Member(7, status));
    VisibleLocations(ctx, db);
    assert m in Rows(db, Membership);
    assert Joined(Rows(db, Membership), ctx, (1, 10)) <==> status == "active";
    assert status == "active" ==> (1, 10).1 in Scope(ctx, db);
    assert forall l :: l in Scope(ctx, db) ==> l == 10;
  }

  /** An unbound session sees no tenant row at all. */
  lemma UnboundSeesNothing(role: DbRole, ctx: Settings, db: Db, tb: Table)
    requires !role.Migrator? && ctx.tenant.None? && tb != UserProfile
    ensures View(role, ctx, db, tb) == {}
  {
    forall r | r in View(role, ctx, db, tb) ensures false { SelectIsMine(role, ctx, db, tb, r); }
  }
}
