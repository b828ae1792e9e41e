/** Sessions of several tenants on one database, statement by statement: what one tenant's
    sessions see is what they would see without the others. */
module SharedIsolation {
  import opened Prelude
  import opened Tenancy
  import opened Isolation

  /** What a statement returns to its session. */
  datatype Reply = Rows(rows: set<Row>, pairs: set<(Id, Id)>) | Failed(error: Error)

  /** A session and the client behind it, which chooses each statement from the replies so
      far. */
  datatype Client = Client(role: DbRole, ctx: Settings, program: seq<Reply> -> Command)

  /** The database and the replies each session has had. */
  datatype Shared = Shared(db: Db, replies: map<Id, seq<Reply>>)

  function RepliesOf(s: Shared, session: Id): seq<Reply> {
    if session in s.replies then s.replies[session] else []
  }

  ghost function NextReply(s: Shared, client: Client, session: Id): Reply {
    match Exec(client.role, client.ctx, s.db, client.program(RepliesOf(s, session)))
    case Refused(error) => Failed(error)
    case Done(_, rows, pairs) => Rows(rows, pairs)
  }

  ghost function NextDb(s: Shared, client: Client, session: Id): Db {
    match Exec(client.role, client.ctx, s.db, client.program(RepliesOf(s, session)))
    case Refused(_) => s.db
    case Done(after, _, _) => after
  }

  /** One statement of one session; a refused one changes nothing. */
  ghost function Turn(clients: map<Id, Client>, s: Shared, session: Id): Shared {
    if session !in clients then s
    else Shared(NextDb(s, clients[session], session),
                s.replies[session := RepliesOf(s, session) + [NextReply(s, clients[session], session)]])
  }

  /** The sessions take turns in the order of the schedule. */
  ghost function Play(clients: map<Id, Client>, db: Db, schedule: seq<Id>): Shared {
    if schedule == [] then Shared(db, map[])
    else Turn(clients, Play(clients, db, schedule[..|schedule| - 1]), schedule[|schedule| - 1])
  }

  predicate OfTenant(clients: map<Id, Client>, session: Id, tenant: Option<Id>) {
    session in clients && clients[session].ctx.tenant == tenant
  }

  /** The turns of one tenant's sessions, the others' removed. */
  function Only(clients: map<Id, Client>, schedule: seq<Id>, tenant: Option<Id>): seq<Id> {
    if schedule == [] then []
    else
      var front, last := schedule[..|schedule| - 1], schedule[|schedule| - 1];
      Only(clients, front, tenant) + (if OfTenant(clients, last, tenant) then [last] else [])
  }

  // ---- one tenant's rows, for all its actors ----

  /** The databases agree for every session of the tenant. */
  ghost predicate TenantAgree(a: Db, b: Db, tenant: Option<Id>) {
    forall ctx: Settings :: ctx.tenant == tenant ==> Agree(a, b, ctx)
  }

  /** Agreement for one session of the tenant is agreement for another, apart from the
      actor's own profile. */
  lemma AgreeForActor(a: Db, b: Db, ctx: Settings, other: Settings)
    requires Agree(a, b, ctx) && other.tenant == ctx.tenant
    requires Mine(a, UserProfile, other) == Mine(b, UserProfile, other)
    ensures Agree(a, b, other)
  {
    forall tb ensures Mine(a, tb, other) == Mine(b, tb, other) {
      if tb != UserProfile {
        assert Mine(a, tb, other) == Mine(a, tb, ctx) && Mine(b, tb, other) == Mine(b, tb, ctx);
        assert Mine(a, tb, ctx) == Mine(b, tb, ctx);
      }
    }
    SamePairs(a, ctx, other);
    SamePairs(b, ctx, other);
  }

  lemma SamePairs(db: Db, ctx: Settings, other: Settings)
    requires other.tenant == ctx.tenant
    ensures MyPairs(db, other) == MyPairs(db, ctx)
  {
    assert Mine(db, Membership, other) == Mine(db, Membership, ctx);
  }

  /** No tenant role writes profiles. */
  lemma ProfilesUntouched(role: DbRole, ctx: Settings, db: Db, c: Command)
    requires !role.Migrator? && Exec(role, ctx, db, c).Done?
    ensures Tenancy.Rows(Exec(role, ctx, db, c).db, UserProfile) == Tenancy.Rows(db, UserProfile)
  {
    if c.UpdateRows? && c.tb == UserProfile {
      assert Targets(role, ctx, db, c.tb, Update, c.where, c.reading) == {};
    } else if c.DeleteRows? && c.tb == UserProfile {
      assert Targets(role, ctx, db, c.tb, Delete, c.where, c.reading) == {};
    }
  }

  // ---- another tenant's statement ----

  /** What is left alone for one tenant's session includes all that is another tenant's. */
  lemma UntouchedKeepsMine(before: Db, after: Db, ctx: Settings, other: Settings)
    requires Integrity(before) && Integrity(after) && Untouched(before, after, other) && ctx.tenant != other.tenant
    requires Tenancy.Rows(after, UserProfile) == Tenancy.Rows(before, UserProfile)
    ensures Agree(before, after, ctx)
  {
    forall tb ensures Mine(before, tb, ctx) == Mine(after, tb, ctx) {
      if tb != UserProfile {
        assert Theirs(after, tb, other) == Theirs(before, tb, other);
        forall r ensures r in Mine(before, tb, ctx) <==> r in Mine(after, tb, ctx) {
          if Belongs(tb, r, ctx) {
            assert !Belongs(tb, r, other);
            assert r in Tenancy.Rows(before, tb) <==> r in Theirs(before, tb, other);
            assert r in Tenancy.Rows(after, tb) <==> r in Theirs(after, tb, other);
          }
        }
      }
    }
    PairsKeptForOthers(before, after, ctx, other);
  }

  lemma OwnedByOne(db: Db, ctx: Settings, other: Settings, pair: (Id, Id))
    requires Integrity(db) && ctx.tenant != other.tenant && Owned(db, ctx, pair)
    ensures !Owned(db, other, pair)
  {
    var m :| m in Mine(db, Membership, ctx) && m.id == pair.0 && TenantIs(ctx, m).True?;
    forall n | n in Mine(db, Membership, other) && n.id == pair.0 ensures !TenantIs(other, n).True? {
      assert n == m;
    }
  }

  lemma PairsKeptForOthers(before: Db, after: Db, ctx: Settings, other: Settings)
    requires Integrity(before) && Integrity(after) && Untouched(before, after, other) && ctx.tenant != other.tenant
    requires Mine(before, Membership, ctx) == Mine(after, Membership, ctx)
    ensures MyPairs(before, ctx) == MyPairs(after, ctx)
  {
    forall p ensures p in MyPairs(before, ctx) <==> p in MyPairs(after, ctx) {
      assert Owned(before, ctx, p) == Owned(after, ctx, p);
      if Owned(before, ctx, p) {
        OwnedByOne(before, ctx, other, p);
        OwnedByOne(after, ctx, other, p);
        assert p in before.assignments <==> p in TheirPairs(before, other);
        assert p in after.assignments <==> p in TheirPairs(after, other);
      }
    }
  }

  /** A statement of another tenant's session changes nothing the tenant's sessions can
      tell. */
  lemma OtherStatement(role: DbRole, other: Settings, db: Db, c: Command, tenant: Option<Id>)
    requires !role.Migrator? && Integrity(db) && other.tenant != tenant && Exec(role, other, db, c).Done?
    ensures Integrity(Exec(role, other, db, c).db) && TenantAgree(db, Exec(role, other, db, c).db, tenant)
  {
    var after := Exec(role, other, db, c).db;
    ExecIsFramed(role, other, db, c);
    ProfilesUntouched(role, other, db, c);
    forall ctx: Settings | ctx.tenant == tenant ensures Agree(db, after, ctx) {
      UntouchedKeepsMine(db, after, ctx, other);
    }
  }

  lemma AgreeTransitive(a: Db, b: Db, c: Db, tenant: Option<Id>)
    requires TenantAgree(a, b, tenant) && TenantAgree(b, c, tenant)
    ensures TenantAgree(a, c, tenant)
  {
    forall ctx: Settings | ctx.tenant == tenant ensures Agree(a, c, ctx) {
      assert Agree(a, b, ctx) && Agree(b, c, ctx);
    }
  }

  // ---- a statement of the tenant itself ----

  /** One statement on two databases that agree for the tenant gives the same reply and keeps
      them agreeing, unless a constraint refuses it on one of them. */
  lemma OwnStatement(role: DbRole, ctx: Settings, a: Db, b: Db, c: Command)
    requires !role.Migrator? && Integrity(a) && Integrity(b) && TenantAgree(a, b, ctx.tenant)
    requires Exec(role, ctx, a, c) != Refused(ConstraintViolation)
      && Exec(role, ctx, b, c) != Refused(ConstraintViolation)
    ensures var o, p := Exec(role, ctx, a, c), Exec(role, ctx, b, c);
      && (o.Refused? ==> p == o)
      && (o.Done? ==>
            && p.Done? && p.rows == o.rows && p.pairs == o.pairs
            && Integrity(o.db) && Integrity(p.db) && TenantAgree(o.db, p.db, ctx.tenant))
  {
    assert Agree(a, b, ctx);
    ExecAgrees(role, ctx, a, b, c);
    var o, p := Exec(role, ctx, a, c), Exec(role, ctx, b, c);
    if o.Done? && p.Done? {
      ExecIsFramed(role, ctx, a, c);
      ExecIsFramed(role, ctx, b, c);
      OwnAgreement(role, ctx, a, b, c);
    }
  }

  lemma OwnAgreement(role: DbRole, ctx: Settings, a: Db, b: Db, c: Command)
    requires !role.Migrator? && TenantAgree(a, b, ctx.tenant)
    requires Exec(role, ctx, a, c).Done? && Exec(role, ctx, b, c).Done?
    requires Agree(Exec(role, ctx, a, c).db, Exec(role, ctx, b, c).db, ctx)
    ensures TenantAgree(Exec(role, ctx, a, c).db, Exec(role, ctx, b, c).db, ctx.tenant)
  {
    var x, y := Exec(role, ctx, a, c).db, Exec(role, ctx, b, c).db;
    ProfilesUntouched(role, ctx, a, c);
    ProfilesUntouched(role, ctx, b, c);
    forall other: Settings | other.tenant == ctx.tenant ensures Agree(x, y, other) {
      assert Agree(a, b, other);
      assert Mine(x, UserProfile, other) == Mine(a, UserProfile, other);
      assert Mine(y, UserProfile, other) == Mine(b, UserProfile, other);
      AgreeForActor(x, y, ctx, other);
    }
  }

  // ---- whole schedules ----

  /** No session runs as the migrator. */
  predicate TenantRoles(clients: map<Id, Client>) {
    forall session :: session in clients ==> !clients[session].role.Migrator?
  }

  /** No statement of the tenant was refused by a constraint. */
  ghost predicate Unconstrained(clients: map<Id, Client>, s: Shared, tenant: Option<Id>) {
    forall session :: OfTenant(clients, session, tenant) ==> Failed(ConstraintViolation) !in RepliesOf(s, session)
  }

  /** The tenant's sessions have seen the same, and can tell no difference. */
  ghost predicate SameFor(clients: map<Id, Client>, s: Shared, t: Shared, tenant: Option<Id>) {
    && Integrity(s.db) && Integrity(t.db) && TenantAgree(s.db, t.db, tenant)
    && forall session :: OfTenant(clients, session, tenant) ==> RepliesOf(s, session) == RepliesOf(t, session)
  }

  lemma TurnReplies(clients: map<Id, Client>, s: Shared, session: Id, other: Id)
    ensures RepliesOf(s, other) <= RepliesOf(Turn(clients, s, session), other)
    ensures other != session ==> RepliesOf(Turn(clients, s, session), other) == RepliesOf(s, other)
  {
  }

  lemma UnconstrainedBefore(clients: map<Id, Client>, s: Shared, session: Id, tenant: Option<Id>)
    requires Unconstrained(clients, Turn(clients, s, session), tenant)
    ensures Unconstrained(clients, s, tenant)
  {
    forall other | OfTenant(clients, other, tenant) ensures Failed(ConstraintViolation) !in RepliesOf(s, other) {
      TurnReplies(clients, s, session, other);
    }
  }

  lemma OtherTurn(clients: map<Id, Client>, s: Shared, t: Shared, session: Id, tenant: Option<Id>)
    requires TenantRoles(clients) && SameFor(clients, s, t, tenant) && !OfTenant(clients, session, tenant)
    ensures SameFor(clients, Turn(clients, s, session), t, tenant)
  {
    if session in clients {
      var client := clients[session];
      var c := client.program(RepliesOf(s, session));
      if Exec(client.role, client.ctx, s.db, c).Done? {
        OtherStatement(client.role, client.ctx, s.db, c, tenant);
        AgreeSymmetric(s.db, Exec(client.role, client.ctx, s.db, c).db, tenant);
        AgreeTransitive(Exec(client.role, client.ctx, s.db, c).db, s.db, t.db, tenant);
      }
      forall other | OfTenant(clients, other, tenant)
        ensures RepliesOf(Turn(clients, s, session), other) == RepliesOf(t, other)
      {
        TurnReplies(clients, s, session, other);
      }
    }
  }

  lemma AgreeSymmetric(a: Db, b: Db, tenant: Option<Id>)
    requires TenantAgree(a, b, tenant)
    ensures TenantAgree(b, a, tenant)
  {
    forall ctx: Settings | ctx.tenant == tenant ensures Agree(b, a, ctx) {
      assert Agree(a, b, ctx);
    }
  }

  lemma OwnTurn(clients: map<Id, Client>, s: Shared, t: Shared, session: Id, tenant: Option<Id>)
    requires TenantRoles(clients) && SameFor(clients, s, t, tenant) && OfTenant(clients, session, tenant)
    requires Unconstrained(clients, Turn(clients, s, session), tenant)
    requires Unconstrained(clients, Turn(clients, t, session), tenant)
    ensures SameFor(clients, Turn(clients, s, session), Turn(clients, t, session), tenant)
  {
    var client := clients[session];
    var c := client.program(RepliesOf(s, session));
    assert RepliesOf(s, session) == RepliesOf(t, session);
    LastReply(clients, s, session);
    LastReply(clients, t, session);
    OwnStatement(client.role, client.ctx, s.db, t.db, c);
    forall other | OfTenant(clients, other, tenant)
      ensures RepliesOf(Turn(clients, s, session), other) == RepliesOf(Turn(clients, t, session), other)
    {
      TurnReplies(clients, s, session, other);
      TurnReplies(clients, t, session, other);
    }
  }

  lemma LastReply(clients: map<Id, Client>, s: Shared, session: Id)
    requires session in clients
    ensures RepliesOf(Turn(clients, s, session), session)
         == RepliesOf(s, session) + [NextReply(s, clients[session], session)]
    ensures NextReply(s, clients[session], session) in RepliesOf(Turn(clients, s, session), session)
  {
    var all := RepliesOf(Turn(clients, s, session), session);
    assert all[|all| - 1] == NextReply(s, clients[session], session);
  }

  /** However sessions of any tenants interleave, what one tenant's sessions are told, and
      the rows they own afterwards, are what they would be with the other tenants' statements
      removed, if no constraint refuses one of its statements in either. */
  lemma {:induction false} OthersMakeNoDifference(clients: map<Id, Client>, db: Db, schedule: seq<Id>,
                                                  tenant: Option<Id>)
    requires TenantRoles(clients) && Integrity(db)
    requires Unconstrained(clients, Play(clients, db, schedule), tenant)
    requires Unconstrained(clients, Play(clients, db, Only(clients, schedule, tenant)), tenant)
    ensures SameFor(clients, Play(clients, db, schedule), Play(clients, db, Only(clients, schedule, tenant)), tenant)
    decreases |schedule|
  {
    if schedule != [] {
      var front, last := schedule[..|schedule| - 1], schedule[|schedule| - 1];
      var s := Play(clients, db, front);
      UnconstrainedBefore(clients, s, last, tenant);
      if OfTenant(clients, last, tenant) {
        var mine := Only(clients, front, tenant);
        assert (mine + [last])[..|mine|] == mine;
        UnconstrainedBefore(clients, Play(clients, db, mine), last, tenant);
        OthersMakeNoDifference(clients, db, front, tenant);
        OwnTurn(clients, s, Play(clients, db, mine), last, tenant);
      } else {
        assert Only(clients, schedule, tenant) == Only(clients, front, tenant);
        OthersMakeNoDifference(clients, db, front, tenant);
        OtherTurn(clients, s, Play(clients, db, Only(clients, front, tenant)), last, tenant);
      }
    }
  }

  // ---- a session alone ----

  function SeenIn(reply: Reply): Isolation.Seen {
    match reply
    case Rows(rows, pairs) => Isolation.Seen(rows, pairs)
    case Failed(_) => Isolation.Seen({}, {})
  }

  function AllSeen(replies: seq<Reply>): seq<Isolation.Seen> {
    seq(|replies|, i requires 0 <= i < |replies| => SeenIn(replies[i]))
  }

  function Times(session: Id, n: nat): seq<Id> {
    seq(n, _ => session)
  }

  ghost predicate NoneFailed(replies: seq<Reply>) {
    forall i :: 0 <= i < |replies| ==> replies[i].Rows?
  }

  /** The client of a session, as one that shares the database. */
  function Sharing(role: DbRole, ctx: Settings, client: seq<Isolation.Seen> -> Command): Client {
    Client(role, ctx, (replies: seq<Reply>) => client(AllSeen(replies)))
  }

  /** The session has been told what the run has seen, or something of both was refused. */
  ghost predicate InStep(replies: seq<Reply>, db: Db, run: Isolation.Session) {
    && (run.Ongoing? <==> NoneFailed(replies))
    && (run.Ongoing? ==> db == run.db && AllSeen(replies) == run.seen)
  }

  lemma OneMoreTurn(role: DbRole, ctx: Settings, client: seq<Isolation.Seen> -> Command, s: Shared, session: Id,
                    run: Isolation.Session)
    requires InStep(RepliesOf(s, session), s.db, run)
    ensures var replies, reply := RepliesOf(s, session), NextReply(s, Sharing(role, ctx, client), session);
      InStep(replies + [reply], NextDb(s, Sharing(role, ctx, client), session), Continued(role, ctx, run, client))
  {
    var replies, reply := RepliesOf(s, session), NextReply(s, Sharing(role, ctx, client), session);
    FailedSnoc(replies, reply);
    assert AllSeen(replies + [reply]) == AllSeen(replies) + [SeenIn(reply)];
  }

  /** A session that has the database to itself is told, statement by statement, what it would
      be told by running them in a row, up to the first that is refused, and leaves the same
      tables. */
  lemma {:induction false} AloneIsInARow(role: DbRole, ctx: Settings, db: Db, client: seq<Isolation.Seen> -> Command,
                                         session: Id, n: nat)
    ensures var s := Play(map[session := Sharing(role, ctx, client)], db, Times(session, n));
      && |RepliesOf(s, session)| == n
      && InStep(RepliesOf(s, session), s.db, RunSession(role, ctx, db, client, n))
  {
    if n > 0 {
      var clients := map[session := Sharing(role, ctx, client)];
      AloneIsInARow(role, ctx, db, client, session, n - 1);
      assert Times(session, n)[..n - 1] == Times(session, n - 1);
      var s := Play(clients, db, Times(session, n - 1));
      LastReply(clients, s, session);
      OneMoreTurn(role, ctx, client, s, session, RunSession(role, ctx, db, client, n - 1));
    }
  }

  lemma FailedSnoc(replies: seq<Reply>, reply: Reply)
    ensures NoneFailed(replies + [reply]) <==> NoneFailed(replies) && reply.Rows?
  {
    if NoneFailed(replies + [reply]) {
      assert (replies + [reply])[|replies|] == reply;
      forall i | 0 <= i < |replies| ensures replies[i].Rows? { assert (replies + [reply])[i] == replies[i]; }
    }
  }
}
