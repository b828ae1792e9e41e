/** What each database role may do: for every role, table and statement exactly when it is let
    through, which rows it reaches, and the error it fails with otherwise.  Stated on the
    tables' names and the rows' own columns. */
module Permits {
  import opened Prelude
  import opened Tenancy
  import opened Isolation

  /** The tables the API role writes, row by row within its tenant. */
  const API_TABLES: set<Table> :=
    {Membership, TenantCredential, Location, LocationAlias, CostLedger, CostBudget, CostPreview, Approval}

  /** The tables the worker adds rows to. */
  const WORKER_TABLES: set<Table> := {AuditCard, CostLedger}

  /** The row is of the bound tenant. */
  predicate OfTenant(row: Row, ctx: Settings) {
    row.tenant.Some? && row.tenant == ctx.tenant
  }

  // ---- reading ----

  /** What a role sees of a table it may read: its tenant's rows; of the global tables its
      tenant's row and, in the API, its actor's profile; of locations, in the API, those in
      scope.  The read-only role has no policy on credentials and approvals. */
  ghost predicate Shown(role: DbRole, ctx: Settings, db: Db, tb: Table, row: Row) {
    match tb
    case Tenant => role.Migrator? || ctx.tenant == Some(row.id)
    case UserProfile => role.Migrator? || (role.Api? && ctx.actor == Some(row.id))
    case Location =>
      || role.Migrator?
      || (OfTenant(row, ctx)
          && (role.Api? ==>
                || ctx.role in {"as_admin", "as_staff", "system"}
                || Scope(ctx, db) == {} || row.id in Scope(ctx, db)))
    case TenantCredential => role.Migrator? || (role.Api? && OfTenant(row, ctx))
    case Approval => role.Migrator? || (role.Api? && OfTenant(row, ctx))
    case _ => role.Migrator? || OfTenant(row, ctx)
  }

  lemma ShownIffSelected(role: DbRole, ctx: Settings, db: Db, tb: Table, row: Row)
    requires role.Worker? ==> tb !in {UserProfile, Membership, TenantCredential, CostBudget, Approval}
    ensures SelectPolicy(role, ctx, db, tb, row).True? <==> Shown(role, ctx, db, tb, row)
  {
    if role.Api? && tb == Location {
      ScopeSeesThroughPolicies(role, ctx, db, row.id);
      ScopeAllowsIffInScope(ctx, db, row.id);
    }
  }

  /** A query is refused exactly for the worker on five tables; everyone else is given exactly
      the rows shown, and nothing changes. */
  lemma {:induction false} QueryDecides(role: DbRole, ctx: Settings, db: Db, tb: Table)
    ensures Exec(role, ctx, db, Query(tb)) ==
      if role.Worker? && tb in {UserProfile, Membership, TenantCredential, CostBudget, Approval}
      then Refused(PermissionDenied)
      else Done(db, set r | r in Rows(db, tb) && Shown(role, ctx, db, tb, r), {})
  {
    if !(role.Worker? && tb in {UserProfile, Membership, TenantCredential, CostBudget, Approval}) {
      forall r ensures r in View(role, ctx, db, tb) <==> r in Rows(db, tb) && Shown(role, ctx, db, tb, r) {
        ShownIffSelected(role, ctx, db, tb, r);
      }
      assert View(role, ctx, db, tb) == set r | r in Rows(db, tb) && Shown(role, ctx, db, tb, r);
    }
  }

  // ---- inserting ----

  /** A row that names no tenant gets the bound one. */
  function Stamped(row: Row, ctx: Settings): Row {
    row.(tenant := ctx.tenant)
  }

  function WithRow(db: Db, tb: Table, row: Row): Db {
    WithRows(db, tb, Rows(db, tb) + {row})
  }

  /** Why an insert of a tenant role fails before any constraint is asked. */
  ghost function InsertError(role: DbRole, ctx: Settings, db: Db, tb: Table, row: Row, returning: bool): Option<Error> {
    if role.Readonly? || (role.Worker? && tb !in WORKER_TABLES) || (role.Api? && tb == AuditCard)
    then Some(PermissionDenied)
    else if tb == Tenant || tb == UserProfile then Some(PolicyViolation)
    else if ctx.tenant.None? then Some(NoTenantBound)
    else if row.tenant.Some? && row.tenant != ctx.tenant then Some(CrossTenantInsert)
    else if returning && !Shown(role, ctx, db, tb, Stamped(row, ctx)) then Some(PolicyViolation)
    else None
  }

  /** The insert goes through exactly into the role's tables, in a bound session, for a row of
      no tenant or its own; returning it needs the right to see it.  The row is then there
      with its tenant, next to everything that was, unless a constraint objects. */
  lemma {:induction false} InsertDecides(role: DbRole, ctx: Settings, db: Db, tb: Table, row: Row, returning: bool)
    requires !role.Migrator?
    ensures var after := WithRow(db, tb, Stamped(row, ctx));
      Exec(role, ctx, db, InsertRow(tb, row, returning)) ==
        match InsertError(role, ctx, db, tb, row, returning)
        case Some(error) => Refused(error)
        case None => if Integrity(after) then Done(after, {Stamped(row, ctx)}, {}) else Refused(ConstraintViolation)
    ensures InsertError(role, ctx, db, tb, row, returning).None? ==> (role.Api? && tb in API_TABLES) || role.Worker?
  {
    if (role.Api? && tb != AuditCard) || (role.Worker? && tb in WORKER_TABLES) {
      ShownIffSelected(role, ctx, db, tb, Stamped(row, ctx));
      InsertTriggers(role, ctx, tb, row);
      InsertPolicies(role, ctx, tb, row);
    }
  }

  lemma InsertTriggers(role: DbRole, ctx: Settings, tb: Table, row: Row)
    requires !role.Migrator?
    ensures BeforeInsert(role, ctx, tb, row) ==
      if tb == Tenant || tb == UserProfile then Success(row)
      else if ctx.tenant.None? then Failure(NoTenantBound)
      else if row.tenant.Some? && row.tenant != ctx.tenant then Failure(CrossTenantInsert)
      else Success(Stamped(row, ctx))
  {
  }

  lemma InsertPolicies(role: DbRole, ctx: Settings, tb: Table, row: Row)
    requires (role.Api? && tb != AuditCard) || (role.Worker? && tb in WORKER_TABLES)
    ensures tb == Tenant || tb == UserProfile ==> !WritePolicy(role, ctx, tb, Insert, row).True?
    ensures tb != Tenant && tb != UserProfile && ctx.tenant.Some? ==>
      WritePolicy(role, ctx, tb, Insert, Stamped(row, ctx)).True?
  {
  }

  /** Of the constraints modelled only membership's primary key can object to a row. */
  lemma {:induction false} OnlyMembershipClashes(db: Db, tb: Table, row: Row)
    requires Integrity(db)
    ensures Integrity(WithRow(db, tb, row)) <==>
      (tb == Membership ==> forall m :: m in Rows(db, Membership) && m.id == row.id ==> m == row)
  {
    var after := WithRow(db, tb, row);
    assert Rows(after, Membership) == if tb == Membership then Rows(db, tb) + {row} else Rows(db, Membership);
    forall p | p in after.assignments ensures exists m :: m in Rows(after, Membership) && m.id == p.0 {
      var m :| m in Rows(db, Membership) && m.id == p.0;
      assert m in Rows(after, Membership);
    }
    if Integrity(after) && tb == Membership {
      forall m | m in Rows(db, Membership) && m.id == row.id ensures m == row {
        assert m in Rows(after, Membership) && row in Rows(after, Membership);
      }
    }
  }

  // ---- updating and deleting ----

  /** The rows an update or delete of the API role reaches: those of its tenant that it asks
      for, on its own tables, and sees if the statement reads any. */
  ghost function Reached(ctx: Settings, db: Db, tb: Table, where: Row -> bool, reading: bool): set<Row> {
    set r | r in Rows(db, tb) && tb in API_TABLES && OfTenant(r, ctx) && where(r)
         && (reading ==> Shown(Api, ctx, db, tb, r))
  }

  lemma TargetsAreReached(ctx: Settings, db: Db, tb: Table, verb: Verb, where: Row -> bool, reading: bool)
    requires verb == Update || verb == Delete
    ensures Targets(Api, ctx, db, tb, verb, where, reading) == Reached(ctx, db, tb, where, reading)
  {
    forall r
      ensures r in Targets(Api, ctx, db, tb, verb, where, reading) <==> r in Reached(ctx, db, tb, where, reading)
    {
      ShownIffSelected(Api, ctx, db, tb, r);
    }
  }

  /** A changed row as it is written: six of the tables note the moment. */
  function Touched(ctx: Settings, tb: Table, row: Row): Row {
    if tb in {Tenant, UserProfile, Membership, TenantCredential, Location, CostBudget}
    then row.(updatedAt := ctx.now)
    else row
  }

  ghost function ImageOf(ctx: Settings, tb: Table, rows: set<Row>, change: Row -> Row): set<Row> {
    set r | r in rows :: Touched(ctx, tb, change(r))
  }

  /** Some changed row would go to another tenant. */
  ghost predicate Moves(ctx: Settings, rows: set<Row>, change: Row -> Row) {
    exists r :: r in rows && change(r).tenant.Some? && change(r).tenant != ctx.tenant
  }

  /** Some changed row would have no tenant, or not be seen by a statement that reads. */
  ghost predicate Hides(ctx: Settings, db: Db, tb: Table, rows: set<Row>, change: Row -> Row, reading: bool) {
    exists r :: r in rows &&
      (change(r).tenant.None? || (reading && !Shown(Api, ctx, db, tb, Touched(ctx, tb, change(r)))))
  }

  /** Only the API role updates, any of its tables and never cards.  It replaces exactly the
      rows reached by what they are changed to, and fails as a whole when one of them would
      leave the tenant. */
  lemma {:induction false} UpdateDecides(role: DbRole, ctx: Settings, db: Db, tb: Table, where: Row -> bool,
                                         change: Row -> Row, reading: bool)
    requires !role.Migrator?
    ensures var rows := Reached(ctx, db, tb, where, reading);
      var image := ImageOf(ctx, tb, rows, change);
      var after := WithRows(db, tb, (Rows(db, tb) - rows) + image);
      Exec(role, ctx, db, UpdateRows(tb, where, change, reading)) ==
        if !role.Api? || tb == AuditCard then Refused(PermissionDenied)
        else if Moves(ctx, rows, change) then Refused(TenantImmutable)
        else if Hides(ctx, db, tb, rows, change, reading) then Refused(PolicyViolation)
        else if Integrity(after) then Done(after, image, {}) else Refused(ConstraintViolation)
  {
    if role.Api? && tb != AuditCard {
      var rows := Reached(ctx, db, tb, where, reading);
      TargetsAreReached(ctx, db, tb, Update, where, reading);
      UpdateErrors(ctx, db, tb, rows, change);
      if !Moves(ctx, rows, change) {
        ImagesAgree(ctx, db, tb, rows, change);
        ChecksAreHides(ctx, db, tb, rows, change, reading);
      }
    }
  }

  lemma UpdateErrors(ctx: Settings, db: Db, tb: Table, rows: set<Row>, change: Row -> Row)
    requires tb != AuditCard && forall r :: r in rows ==> tb in API_TABLES && OfTenant(r, ctx)
    ensures !TriggerFails(Api, ctx, tb, rows, change, NoTenantBound)
    ensures !TriggerFails(Api, ctx, tb, rows, change, AppendOnly)
    ensures TriggerFails(Api, ctx, tb, rows, change, TenantImmutable) <==> Moves(ctx, rows, change)
  {
    if Moves(ctx, rows, change) {
      var r :| r in rows && change(r).tenant.Some? && change(r).tenant != ctx.tenant;
      assert BeforeUpdate(Api, ctx, tb, r, change(r)) == Failure(TenantImmutable);
    }
  }

  lemma ImagesAgree(ctx: Settings, db: Db, tb: Table, rows: set<Row>, change: Row -> Row)
    requires tb != AuditCard && forall r :: r in rows ==> tb in API_TABLES && OfTenant(r, ctx)
    requires !Moves(ctx, rows, change)
    ensures forall r :: r in rows ==> Updated(Api, ctx, tb, change, r) == Touched(ctx, tb, change(r))
    ensures Image(Api, ctx, tb, rows, change) == ImageOf(ctx, tb, rows, change)
  {
  }

  lemma ChecksAreHides(ctx: Settings, db: Db, tb: Table, rows: set<Row>, change: Row -> Row, reading: bool)
    requires tb != AuditCard && forall r :: r in rows ==> tb in API_TABLES && OfTenant(r, ctx)
    requires !Moves(ctx, rows, change)
    ensures CheckFails(Api, ctx, db, tb, ImageOf(ctx, tb, rows, change), reading)
       <==> Hides(ctx, db, tb, rows, change, reading)
  {
    forall r | r in rows
      ensures SelectPolicy(Api, ctx, db, tb, Touched(ctx, tb, change(r))).True?
         <==> Shown(Api, ctx, db, tb, Touched(ctx, tb, change(r)))
      ensures Touched(ctx, tb, change(r)) in ImageOf(ctx, tb, rows, change)
    {
      ShownIffSelected(Api, ctx, db, tb, Touched(ctx, tb, change(r)));
    }
  }

  /** Only the API role deletes, any of its tables and never cards, and exactly the rows
      reached; a membership takes its assignments along.  No constraint objects. */
  lemma {:induction false} DeleteDecides(role: DbRole, ctx: Settings, db: Db, tb: Table, where: Row -> bool,
                                         reading: bool)
    requires !role.Migrator? && Integrity(db)
    ensures var rows := Reached(ctx, db, tb, where, reading);
      var kept := set p | p in db.assignments && (tb == Membership ==> forall m :: m in rows ==> m.id != p.0);
      Exec(role, ctx, db, DeleteRows(tb, where, reading)) ==
        if !role.Api? || tb == AuditCard then Refused(PermissionDenied)
        else Done(WithRows(db, tb, Rows(db, tb) - rows).(assignments := kept), rows, {})
  {
    if role.Api? && tb != AuditCard {
      var rows := Reached(ctx, db, tb, where, reading);
      var kept := set p | p in db.assignments && (tb == Membership ==> forall m :: m in rows ==> m.id != p.0);
      TargetsAreReached(ctx, db, tb, Delete, where, reading);
      assert tb != Membership ==> kept == db.assignments;
      DeletionKeepsIntegrity(db, tb, rows, kept);
    }
  }

  lemma DeletionKeepsIntegrity(db: Db, tb: Table, rows: set<Row>, kept: set<(Id, Id)>)
    requires Integrity(db) && kept <= db.assignments
    requires tb == Membership ==> forall p, m :: p in kept && m in rows ==> m.id != p.0
    ensures Integrity(WithRows(db, tb, Rows(db, tb) - rows).(assignments := kept))
  {
    var after := WithRows(db, tb, Rows(db, tb) - rows).(assignments := kept);
    assert Rows(after, Membership) == if tb == Membership then Rows(db, tb) - rows else Rows(db, Membership);
    forall p | p in kept ensures exists m :: m in Rows(after, Membership) && m.id == p.0 {
      var m :| m in Rows(db, Membership) && m.id == p.0;
      assert m in Rows(after, Membership);
    }
  }

  // ---- assignments ----

  /** The assignment hangs on a membership of the bound tenant. */
  ghost predicate OwnPair(ctx: Settings, db: Db, pair: (Id, Id)) {
    exists m :: m in Rows(db, Membership) && m.id == pair.0 && OfTenant(m, ctx)
  }

  lemma TouchIffOwnPair(role: DbRole, ctx: Settings, db: Db, pair: (Id, Id))
    requires !role.Migrator?
    ensures MayTouchPair(role, ctx, db, pair) <==> OwnPair(ctx, db, pair)
    ensures OwnsAssignment(SeenMemberships(role, ctx, db), ctx, pair) <==> OwnPair(ctx, db, pair)
  {
    if OwnPair(ctx, db, pair) {
      var m :| m in Rows(db, Membership) && m.id == pair.0 && OfTenant(m, ctx);
      assert m in SeenMemberships(role, ctx, db);
    }
  }

  /** Assignments are read by all but the worker and written by the API role alone: those of
      the tenant's own memberships, before and after.  No constraint objects. */
  lemma {:induction false} PairsDecide(role: DbRole, ctx: Settings, db: Db, pair: (Id, Id))
    requires !role.Migrator? && Integrity(db)
    ensures Exec(role, ctx, db, QueryAssigned) ==
      if role.Worker? then Refused(PermissionDenied)
      else Done(db, {}, set p | p in db.assignments && OwnPair(ctx, db, p))
    ensures Exec(role, ctx, db, InsertPair(pair)) ==
      if !role.Api? then Refused(PermissionDenied)
      else if !OwnPair(ctx, db, pair) then Refused(PolicyViolation)
      else Done(db.(assignments := db.assignments + {pair}), {}, {pair})
  {
    forall p
      ensures MayTouchPair(role, ctx, db, p) <==> OwnPair(ctx, db, p)
      ensures OwnsAssignment(SeenMemberships(role, ctx, db), ctx, p) <==> OwnPair(ctx, db, p)
    {
      TouchIffOwnPair(role, ctx, db, p);
    }
    assert SeenAssigned(role, ctx, db) == set p | p in db.assignments && OwnPair(ctx, db, p);
    if OwnPair(ctx, db, pair) {
      OwnPairsKeepIntegrity(ctx, db, db.assignments + {pair});
    }
  }

  lemma OwnPairsKeepIntegrity(ctx: Settings, db: Db, pairs: set<(Id, Id)>)
    requires Integrity(db) && forall p :: p in pairs ==> p in db.assignments || OwnPair(ctx, db, p)
    ensures Integrity(db.(assignments := pairs))
  {
    var after := db.(assignments := pairs);
    assert Rows(after, Membership) == Rows(db, Membership);
  }

  ghost function OwnPairs(ctx: Settings, db: Db, which: ((Id, Id)) -> bool): set<(Id, Id)> {
    set p | p in db.assignments && OwnPair(ctx, db, p) && which(p)
  }

  lemma OwnPairsAreTargets(role: DbRole, ctx: Settings, db: Db, which: ((Id, Id)) -> bool)
    requires !role.Migrator?
    ensures PairTargets(role, ctx, db, which) == OwnPairs(ctx, db, which)
  {
    forall p ensures p in PairTargets(role, ctx, db, which) <==> p in OwnPairs(ctx, db, which) {
      TouchIffOwnPair(role, ctx, db, p);
    }
  }

  lemma {:induction false} PairDeletionDecides(role: DbRole, ctx: Settings, db: Db, which: ((Id, Id)) -> bool)
    requires !role.Migrator? && Integrity(db)
    ensures var own := OwnPairs(ctx, db, which);
      Exec(role, ctx, db, DeletePairs(which)) ==
        if !role.Api? then Refused(PermissionDenied)
        else Done(db.(assignments := db.assignments - own), {}, own)
  {
    OwnPairsAreTargets(role, ctx, db, which);
    OwnPairsKeepIntegrity(ctx, db, db.assignments - OwnPairs(ctx, db, which));
  }

  lemma {:induction false} PairUpdateDecides(role: DbRole, ctx: Settings, db: Db, which: ((Id, Id)) -> bool,
                                             move: ((Id, Id)) -> (Id, Id))
    requires !role.Migrator? && Integrity(db)
    ensures var own := OwnPairs(ctx, db, which);
      var moved := set p | p in own :: move(p);
      Exec(role, ctx, db, UpdatePairs(which, move)) ==
        if !role.Api? then Refused(PermissionDenied)
        else if exists p :: p in moved && !OwnPair(ctx, db, p) then Refused(PolicyViolation)
        else Done(db.(assignments := (db.assignments - own) + moved), {}, moved)
  {
    var own := OwnPairs(ctx, db, which);
    var moved := set p | p in own :: move(p);
    OwnPairsAreTargets(role, ctx, db, which);
    forall p ensures MayTouchPair(role, ctx, db, p) <==> OwnPair(ctx, db, p) {
      TouchIffOwnPair(role, ctx, db, p);
    }
    if forall p :: p in moved ==> OwnPair(ctx, db, p) {
      OwnPairsKeepIntegrity(ctx, db, (db.assignments - own) + moved);
    }
  }

  // ---- the migrator ----

  /** The migrator is let through everywhere, with the rows it gives; only cards stay as they
      are. */
  lemma MigratorInserts(ctx: Settings, db: Db, tb: Table, row: Row, returning: bool)
    ensures Exec(Migrator, ctx, db, InsertRow(tb, row, returning)) ==
      if Integrity(WithRow(db, tb, row)) then Done(WithRow(db, tb, row), {row}, {}) else Refused(ConstraintViolation)
  {
  }

  lemma {:induction false} MigratorUpdates(ctx: Settings, db: Db, tb: Table, where: Row -> bool, change: Row -> Row,
                                           reading: bool)
    ensures var rows := set r | r in Rows(db, tb) && where(r);
      var image := ImageOf(ctx, tb, rows, change);
      var after := WithRows(db, tb, (Rows(db, tb) - rows) + image);
      Exec(Migrator, ctx, db, UpdateRows(tb, where, change, reading)) ==
        if tb == AuditCard && rows != {} then Refused(AppendOnly)
        else if Integrity(after) then Done(after, image, {}) else Refused(ConstraintViolation)
  {
    var rows := set r | r in Rows(db, tb) && where(r);
    assert Targets(Migrator, ctx, db, tb, Update, where, reading) == rows;
    MigratorTriggers(ctx, tb, rows, change);
  }

  lemma MigratorTriggers(ctx: Settings, tb: Table, rows: set<Row>, change: Row -> Row)
    ensures !TriggerFails(Migrator, ctx, tb, rows, change, NoTenantBound)
    ensures !TriggerFails(Migrator, ctx, tb, rows, change, TenantImmutable)
    ensures TriggerFails(Migrator, ctx, tb, rows, change, AppendOnly) <==> tb == AuditCard && rows != {}
    ensures tb != AuditCard || rows == {} ==> Image(Migrator, ctx, tb, rows, change) == ImageOf(ctx, tb, rows, change)
  {
    if tb == AuditCard && rows != {} {
      var r :| r in rows;
      assert BeforeUpdate(Migrator, ctx, tb, r, change(r)) == Failure(AppendOnly);
    }
  }

  lemma {:induction false} MigratorDeletes(ctx: Settings, db: Db, tb: Table, where: Row -> bool, flag: bool)
    requires Integrity(db)
    ensures var rows := set r | r in Rows(db, tb) && where(r);
      var kept := set p | p in db.assignments && (tb == Membership ==> forall m :: m in rows ==> m.id != p.0);
      Exec(Migrator, ctx, db, DeleteRows(tb, where, flag)) ==
        if tb == AuditCard && rows != {} then Refused(AppendOnly)
        else Done(WithRows(db, tb, Rows(db, tb) - rows).(assignments := kept), rows, {})
  {
    var rows := set r | r in Rows(db, tb) && where(r);
    var kept := set p | p in db.assignments && (tb == Membership ==> forall m :: m in rows ==> m.id != p.0);
    assert Targets(Migrator, ctx, db, tb, Delete, where, flag) == rows;
    assert tb != Membership ==> kept == db.assignments;
    DeletionKeepsIntegrity(db, tb, rows, kept);
  }

  // ---- the audit card ----

  /** `write_card` is for the API, the worker and the migrator, in a bound session with an
      actor role, and then adds exactly one card, the session's own. */
  lemma {:induction false} CardDecides(role: DbRole, ctx: Settings, db: Db, id: Id, content: int)
    requires Integrity(db)
    ensures var o := Exec(role, ctx, db, WriteCard(id, content));
      if role.Readonly? then o == Refused(PermissionDenied)
      else if ctx.tenant.None? then o == Refused(NoTenantBound)
      else if ctx.role !in {"as_admin", "as_staff", "client_admin", "client_user", "system"} then o == Refused(BadRole)
      else exists name ::
        && LabelsActor(db, ctx.actor, name)
        && var card := Row(id, ctx.tenant, 0, Card(ctx.actor, name, ctx.role, ctx.now, content));
           o == Done(WithRow(db, AuditCard, card), {card}, {})
  {
    var profiles := OwnProfiles(ctx, db);
    var name := LabelIn(profiles);
    forall p | p in Rows(db, UserProfile) && Some(p.id) == ctx.actor ensures p in profiles { }
    assert LabelsActor(db, ctx.actor, name);
    var card := Row(id, ctx.tenant, 0, Card(ctx.actor, name, ctx.role, ctx.now, content));
    OnlyMembershipClashes(db, AuditCard, card);
  }
}
