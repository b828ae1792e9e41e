/** Row-level tenant isolation: grants, per-command policies in three-valued logic, the
    tenant triggers, and what one statement of one database role does to the tables. */
module Tenancy {
  import opened Prelude

  // ---- SQL's three-valued logic ----

  datatype Truth = True | False | Unknown

  function SqlEq<T(==)>(a: Option<T>, b: Option<T>): Truth {
    if a.None? || b.None? then Unknown else if a == b then True else False
  }

  function SqlAnd(a: Truth, b: Truth): Truth {
    if a.False? || b.False? then False else if a.True? && b.True? then True else Unknown
  }

  function ToTruth(b: bool): Truth {
    if b then True else False
  }

  // ---- schema ----

  datatype DbRole = Api | Worker | Readonly | Migrator

  /** The transaction's settings: `app.tenant_id`, `app.actor_id`, `app.role`, and `now()`. */
  datatype Settings = Settings(tenant: Option<Id>, actor: Option<Id>, role: string, now: nat)

  datatype Table = Tenant | UserProfile | Membership | TenantCredential | Location | LocationAlias
                 | AuditCard | CostLedger | CostBudget | CostPreview | Approval

  /** The columns policies and functions look at; everything else is opaque. */
  datatype Cells =
    | Member(user: Id, status: string)
    | Profile(name: string)
    | Card(actor: Option<Id>, actorLabel: string, actorRole: string, occurredAt: nat, content: int)
    | Other(content: int)

  datatype Row = Row(id: Id, tenant: Option<Id>, updatedAt: nat, cells: Cells)

  /** `assignments` is `membership_location`: pairs of membership id and location id. */
  datatype Db = Db(rows: map<Table, set<Row>>, assignments: set<(Id, Id)>)

  function Rows(db: Db, tb: Table): set<Row> {
    if tb in db.rows then db.rows[tb] else {}
  }

  datatype Verb = Select | Insert | Update | Delete

  // ---- grants ----

  predicate Granted(role: DbRole, tb: Table, verb: Verb) {
    match role
    case Migrator => true
    case Api => tb == AuditCard ==> verb == Select
    case Worker =>
      if verb == Select then tb !in {UserProfile, Membership, TenantCredential, CostBudget, Approval}
      else verb == Insert && tb in {AuditCard, CostLedger}
    case Readonly => verb == Select
  }

  predicate GrantedAssigned(role: DbRole, verb: Verb) {
    role == Migrator || role == Api || (role == Readonly && verb == Select)
  }

  // ---- the session functions ----

  predicate IsOperator(ctx: Settings) {
    ctx.role in {"as_admin", "as_staff", "system"}
  }

  function TenantIs(ctx: Settings, row: Row): Truth {
    SqlEq(row.tenant, ctx.tenant)
  }

  /** Memberships a role sees through `membership_select_tenant`. */
  ghost function SeenMemberships(role: DbRole, ctx: Settings, db: Db): set<Row> {
    set m | m in Rows(db, Membership) && (role.Migrator? || TenantIs(ctx, m).True?)
  }

  /** `membership_location_select`: its subquery itself runs under the membership policy. */
  ghost predicate OwnsAssignment(memberships: set<Row>, ctx: Settings, pair: (Id, Id)) {
    exists m :: m in memberships && m.id == pair.0 && TenantIs(ctx, m).True?
  }

  ghost function SeenAssigned(role: DbRole, ctx: Settings, db: Db): set<(Id, Id)> {
    set p | p in db.assignments && (role.Migrator? || OwnsAssignment(SeenMemberships(role, ctx, db), ctx, p))
  }

  /** One row of the join in `can_read_location`. */
  ghost predicate Joined(memberships: set<Row>, ctx: Settings, pair: (Id, Id)) {
    exists m :: m in memberships && m.cells.Member? && m.id == pair.0 && TenantIs(ctx, m).True?
             && SqlEq(Some(m.cells.user), ctx.actor).True? && m.cells.status == "active"
  }

  /** `app.can_read_location` over given memberships and assignments. */
  ghost predicate ScopeAllows(memberships: set<Row>, assignments: set<(Id, Id)>, ctx: Settings, location: Id) {
    || IsOperator(ctx)
    || !(exists p :: p in assignments && Joined(memberships, ctx, p))
    || (exists p :: p in assignments && Joined(memberships, ctx, p) && p.1 == location)
  }

  /** The function as a caller evaluates it: through its own policies. */
  ghost predicate CanReadLocation(role: DbRole, ctx: Settings, db: Db, location: Id) {
    ScopeAllows(SeenMemberships(role, ctx, db), SeenAssigned(role, ctx, db), ctx, location)
  }

  // ---- policies ----

  ghost function SelectPolicy(role: DbRole, ctx: Settings, db: Db, tb: Table, row: Row): Truth {
    match role
    case Migrator => True
    case Api =>
      (match tb
       case Tenant => SqlEq(Some(row.id), ctx.tenant)
       case UserProfile => SqlEq(Some(row.id), ctx.actor)
       case Location => SqlAnd(TenantIs(ctx, row), ToTruth(CanReadLocation(role, ctx, db, row.id)))
       case _ => TenantIs(ctx, row))
    case Worker =>
      (match tb
       case Tenant => SqlEq(Some(row.id), ctx.tenant)
       case UserProfile => False
       case TenantCredential => False
       case CostBudget => False
       case Approval => False
       case _ => TenantIs(ctx, row))
    case Readonly =>
      (match tb
       case Tenant => SqlEq(Some(row.id), ctx.tenant)
       case UserProfile => False
       case TenantCredential => False
       case Approval => False
       case _ => TenantIs(ctx, row))
  }

  /** Insert, update and delete policies all compare the tenant; where there is none for
      the role and table, row-level security denies. */
  function WritePolicy(role: DbRole, ctx: Settings, tb: Table, verb: Verb, row: Row): Truth {
    match role
    case Migrator => True
    case Readonly => False
    case Api => if tb in {Tenant, UserProfile, AuditCard} then False else TenantIs(ctx, row)
    case Worker =>
      if verb == Insert && tb in {Membership, TenantCredential, LocationAlias, AuditCard, CostLedger}
        then TenantIs(ctx, row)
      else if verb == Update && tb in {Membership, TenantCredential, LocationAlias} then TenantIs(ctx, row)
      else False
  }

  ghost function View(role: DbRole, ctx: Settings, db: Db, tb: Table): set<Row> {
    set r | r in Rows(db, tb) && SelectPolicy(role, ctx, db, tb, r).True?
  }

  // ---- triggers ----

  datatype Error = PermissionDenied | PolicyViolation | NoTenantBound | CrossTenantInsert | TenantImmutable
                 | AppendOnly | ConstraintViolation | BadRole

  predicate TenantTrigger(tb: Table) {
    tb != Tenant && tb != UserProfile
  }

  predicate UpdatedAtTrigger(tb: Table) {
    tb in {Tenant, UserProfile, Membership, TenantCredential, Location, CostBudget}
  }

  /** `app.tg_enforce_tenant` before an insert. */
  function BeforeInsert(role: DbRole, ctx: Settings, tb: Table, row: Row): Result<Row, Error> {
    if !TenantTrigger(tb) || role.Migrator? then Success(row)
    else if ctx.tenant.None? then Failure(NoTenantBound)
    else if row.tenant.None? then Success(row.(tenant := ctx.tenant))
    else if SqlEq(row.tenant, ctx.tenant).False? then Failure(CrossTenantInsert)
    else Success(row)
  }

  /** `app.tg_enforce_tenant`, then `audit.tg_forbid_mutation` or `app.tg_set_updated_at`,
      before an update. */
  function BeforeUpdate(role: DbRole, ctx: Settings, tb: Table, before: Row, after: Row): Result<Row, Error> {
    if TenantTrigger(tb) && !role.Migrator? && ctx.tenant.None? then Failure(NoTenantBound)
    else if TenantTrigger(tb) && !role.Migrator? && SqlEq(after.tenant, before.tenant).False?
      then Failure(TenantImmutable)
    else if tb == AuditCard then Failure(AppendOnly)
    else Success(if UpdatedAtTrigger(tb) then after.(updatedAt := ctx.now) else after)
  }

  // ---- one statement ----

  /** `reads` marks a statement that mentions columns of the table, in a WHERE or a
      RETURNING, and so needs the SELECT policies as well. */
  datatype Command =
    | Query(tb: Table)
    | QueryAssigned
    | InsertRow(tb: Table, row: Row, returning: bool)
    | UpdateRows(tb: Table, where: Row -> bool, change: Row -> Row, reading: bool)
    | DeleteRows(tb: Table, where: Row -> bool, reading: bool)
    | InsertPair(pair: (Id, Id))
    | UpdatePairs(which: ((Id, Id)) -> bool, move: ((Id, Id)) -> (Id, Id))
    | DeletePairs(which: ((Id, Id)) -> bool)
    | WriteCard(id: Id, content: int)

  datatype Outcome = Done(db: Db, rows: set<Row>, pairs: set<(Id, Id)>) | Refused(error: Error)

  /** The constraints isolation depends on: membership's primary key and the foreign key
      from assignments to memberships. */
  ghost predicate Integrity(db: Db) {
    && (forall m, n :: m in Rows(db, Membership) && n in Rows(db, Membership) && m.id == n.id ==> m == n)
    && (forall p :: p in db.assignments ==> exists m :: m in Rows(db, Membership) && m.id == p.0)
  }

  ghost function Constrained(db: Db, rows: set<Row>, pairs: set<(Id, Id)>): Outcome {
    if Integrity(db) then Done(db, rows, pairs) else Refused(ConstraintViolation)
  }

  function WithRows(db: Db, tb: Table, rows: set<Row>): Db {
    db.(rows := db.rows[tb := rows])
  }

  ghost function DoInsert(role: DbRole, ctx: Settings, db: Db, tb: Table, row: Row, returning: bool): Outcome {
    match BeforeInsert(role, ctx, tb, row)
    case Failure(error) => Refused(error)
    case Success(inserted) =>
      if !WritePolicy(role, ctx, tb, Insert, inserted).True? then Refused(PolicyViolation)
      else if returning && !SelectPolicy(role, ctx, db, tb, inserted).True? then Refused(PolicyViolation)
      else Constrained(WithRows(db, tb, Rows(db, tb) + {inserted}), {inserted}, {})
  }

  /** The rows an update or delete reaches. */
  ghost function Targets(role: DbRole, ctx: Settings, db: Db, tb: Table, verb: Verb, where: Row -> bool,
                         reading: bool): set<Row> {
    set r | r in Rows(db, tb) && WritePolicy(role, ctx, tb, verb, r).True?
         && (reading ==> SelectPolicy(role, ctx, db, tb, r).True?) && where(r)
  }

  /** Why an update of these targets fails, if it does. */
  ghost predicate TriggerFails(role: DbRole, ctx: Settings, tb: Table, targets: set<Row>, change: Row -> Row,
                               error: Error) {
    exists r :: r in targets && BeforeUpdate(role, ctx, tb, r, change(r)) == Failure(error)
  }

  ghost function Updated(role: DbRole, ctx: Settings, tb: Table, change: Row -> Row, r: Row): Row {
    var b := BeforeUpdate(role, ctx, tb, r, change(r));
    if b.Success? then b.value else r
  }

  ghost predicate CheckFails(role: DbRole, ctx: Settings, db: Db, tb: Table, image: set<Row>, reading: bool) {
    exists r :: r in image &&
      (!WritePolicy(role, ctx, tb, Update, r).True? || (reading && !SelectPolicy(role, ctx, db, tb, r).True?))
  }

  ghost function DoUpdate(role: DbRole, ctx: Settings, db: Db, tb: Table, where: Row -> bool, change: Row -> Row,
                          reading: bool): Outcome {
    var targets := Targets(role, ctx, db, tb, Update, where, reading);
    var image := set r | r in targets :: Updated(role, ctx, tb, change, r);
    if TriggerFails(role, ctx, tb, targets, change, NoTenantBound) then Refused(NoTenantBound)
    else if TriggerFails(role, ctx, tb, targets, change, TenantImmutable) then Refused(TenantImmutable)
    else if TriggerFails(role, ctx, tb, targets, change, AppendOnly) then Refused(AppendOnly)
    else if CheckFails(role, ctx, db, tb, image, reading) then Refused(PolicyViolation)
    else Constrained(WithRows(db, tb, (Rows(db, tb) - targets) + image), image, {})
  }

  /** Deleting a membership takes its assignments along. */
  ghost function DoDelete(role: DbRole, ctx: Settings, db: Db, tb: Table, where: Row -> bool, reading: bool): Outcome {
    var targets := Targets(role, ctx, db, tb, Delete, where, reading);
    var kept := if tb == Membership
                then set p | p in db.assignments && forall m :: m in targets ==> m.id != p.0
                else db.assignments;
    if tb == AuditCard && targets != {} then Refused(AppendOnly)
    else Constrained(WithRows(db, tb, Rows(db, tb) - targets).(assignments := kept), targets, {})
  }

  /** All four assignment policies are the same ownership test. */
  ghost predicate MayTouchPair(role: DbRole, ctx: Settings, db: Db, pair: (Id, Id)) {
    role.Migrator? || OwnsAssignment(SeenMemberships(role, ctx, db), ctx, pair)
  }

  ghost function PairTargets(role: DbRole, ctx: Settings, db: Db, which: ((Id, Id)) -> bool): set<(Id, Id)> {
    set p | p in db.assignments && MayTouchPair(role, ctx, db, p) && which(p)
  }

  ghost function DoUpdatePairs(role: DbRole, ctx: Settings, db: Db, which: ((Id, Id)) -> bool,
                               move: ((Id, Id)) -> (Id, Id)): Outcome {
    var targets := PairTargets(role, ctx, db, which);
    var image := set p | p in targets :: move(p);
    if exists p :: p in image && !MayTouchPair(role, ctx, db, p) then Refused(PolicyViolation)
    else Constrained(db.(assignments := (db.assignments - targets) + image), {}, image)
  }

  /** The label `write_card` finds in the actor's own profile. */
  ghost function LabelIn(profiles: set<Row>): string {
    if exists p :: p in profiles && p.cells.Profile?
    then (var p :| p in profiles && p.cells.Profile?; p.cells.name)
    else "system"
  }

  ghost function OwnProfiles(ctx: Settings, db: Db): set<Row> {
    set p | p in Rows(db, UserProfile) && SqlEq(Some(p.id), ctx.actor).True?
  }

  /** The name in the actor's profile, or "system" when there is no such profile. */
  ghost predicate LabelsActor(db: Db, actor: Option<Id>, name: string) {
    || (name == "system" && forall p :: p in Rows(db, UserProfile) && p.cells.Profile? ==> Some(p.id) != actor)
    || (exists p :: p in Rows(db, UserProfile) && p.cells.Profile? && Some(p.id) == actor && p.cells.name == name)
  }

  /** `audit.write_card`: runs as the migrator, takes tenant, actor and role from the session. */
  ghost function DoWriteCard(role: DbRole, ctx: Settings, db: Db, id: Id, content: int): Outcome {
    if role.Readonly? then Refused(PermissionDenied)
    else if ctx.tenant.None? then Refused(NoTenantBound)
    else if !IsActorRole(ctx.role) then Refused(BadRole)
    else DoInsert(Migrator, ctx, db, AuditCard,
                  Row(id, ctx.tenant, 0, Card(ctx.actor, LabelIn(OwnProfiles(ctx, db)), ctx.role, ctx.now, content)),
                  false)
  }

  ghost function Exec(role: DbRole, ctx: Settings, db: Db, c: Command): Outcome {
    match c
    case Query(tb) =>
      if !Granted(role, tb, Select) then Refused(PermissionDenied) else Done(db, View(role, ctx, db, tb), {})
    case QueryAssigned =>
      if !GrantedAssigned(role, Select) then Refused(PermissionDenied) else Done(db, {}, SeenAssigned(role, ctx, db))
    case InsertRow(tb, row, returning) =>
      if !Granted(role, tb, Insert) then Refused(PermissionDenied) else DoInsert(role, ctx, db, tb, row, returning)
    case UpdateRows(tb, where, change, reading) =>
      if !Granted(role, tb, Update)
      then Refused(PermissionDenied)
      else DoUpdate(role, ctx, db, tb, where, change, reading)
    case DeleteRows(tb, where, reading) =>
      if !Granted(role, tb, Delete) then Refused(PermissionDenied) else DoDelete(role, ctx, db, tb, where, reading)
    case InsertPair(pair) =>
      if !GrantedAssigned(role, Insert) then Refused(PermissionDenied)
      else if !MayTouchPair(role, ctx, db, pair) then Refused(PolicyViolation)
      else Constrained(db.(assignments := db.assignments + {pair}), {}, {pair})
    case UpdatePairs(which, move) =>
      if !GrantedAssigned(role, Update) then Refused(PermissionDenied) else DoUpdatePairs(role, ctx, db, which, move)
    case DeletePairs(which) =>
      if !GrantedAssigned(role, Delete) then Refused(PermissionDenied)
      else Constrained(db.(assignments := db.assignments - PairTargets(role, ctx, db, which)), {},
                       PairTargets(role, ctx, db, which))
    case WriteCard(id, content) => DoWriteCard(role, ctx, db, id, content)
  }
}
