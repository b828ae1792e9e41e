/** `tenant_context`: identity bound to one transaction, on connections that a pool hands
    from task to task. */
module Connections {
  import opened Prelude
  import opened Tenancy
  import opened Isolation

  datatype RequestContext = RequestContext(tenantId: Id, actorId: Id, role: string)

  /** A setting's text: the rendering of a uuid, or any other text. */
  datatype Text = Uuid(id: Id) | Plain(text: string)

  const EMPTY: Text := Plain("")

  const TENANT := "app.tenant_id"
  const ACTOR := "app.actor_id"
  const ROLE := "app.role"

  /** One server connection: its own settings, and those local to the open transaction. */
  datatype Conn = Conn(base: map<string, Text>, local: map<string, Text>, open: bool)

  // ---- the session functions of the database ----

  /** `current_setting(name, true)`. */
  function Current(c: Conn, name: string): Option<Text> {
    if name in c.local then Some(c.local[name])
    else if name in c.base then Some(c.base[name])
    else None
  }

  /** `nullif(current_setting(name, true), '')`. */
  function Bound(c: Conn, name: string): Option<Text> {
    if Current(c, name) == Some(EMPTY) then None else Current(c, name)
  }

  datatype CastError = NotAUuid

  /** `app.current_tenant_id` and `app.current_actor_id`, whose cast may fail. */
  function CurrentId(c: Conn, name: string): Result<Option<Id>, CastError> {
    match Bound(c, name)
    case None => Success(None)
    case Some(Uuid(id)) => Success(Some(id))
    case Some(Plain(_)) => Failure(NotAUuid)
  }

  /** A setting read as an id: missing or empty it is nobody's, a uuid's text is that uuid, and
      any other text makes the statement fail. */
  lemma CastDecides(c: Conn, name: string)
    ensures var text := if name in c.local then Some(c.local[name])
                        else if name in c.base then Some(c.base[name])
                        else None;
      && (CurrentId(c, name) == Success(None) <==> text.None? || text == Some(Plain("")))
      && (forall id: Id :: CurrentId(c, name) == Success(Some(id)) <==> text == Some(Uuid(id)))
      && (CurrentId(c, name).Failure? <==> text.Some? && text.value.Plain? && text.value != Plain(""))
  {
  }

  /** `app.current_role`; a role that is a uuid's text is no role the policies know. */
  function CurrentRole(c: Conn): string {
    match Bound(c, ROLE)
    case Some(Plain(text)) => text
    case Some(Uuid(_)) => "uuid"
    case None => "none"
  }

  /** What the policies read in this transaction. */
  function SettingsOf(c: Conn, now: nat): Result<Settings, CastError> {
    match (CurrentId(c, TENANT), CurrentId(c, ACTOR))
    case (Success(tenant), Success(actor)) => Success(Settings(tenant, actor, CurrentRole(c), now))
    case _ => Failure(NotAUuid)
  }

  // ---- what a connection does ----

  function Begun(c: Conn): Conn {
    Conn(c.base, map[], true)
  }

  /** `set_config(name, value, true)`. */
  function SetLocal(c: Conn, name: string, value: Text): Conn {
    c.(local := c.local[name := value])
  }

  function Identified(c: Conn, ctx: RequestContext): Conn {
    SetLocal(SetLocal(SetLocal(c, TENANT, Uuid(ctx.tenantId)), ACTOR, Uuid(ctx.actorId)), ROLE, Plain(ctx.role))
  }

  /** The end of a transaction, by commit or by rollback, drops its local settings.  A name
      first mentioned in it may stay behind as an empty placeholder; `left` says which. */
  function Ended(c: Conn, left: set<string>): Conn {
    Conn((map n | n in left && n in c.local :: EMPTY) + c.base, map[], false)
  }

  /** Between transactions nothing identifies anyone: each of the three names is missing
      or an empty placeholder, which only the `nullif` keeps from being a value. */
  predicate Anonymous(base: map<string, Text>) {
    forall n :: n in {TENANT, ACTOR, ROLE} && n in base ==> base[n] == EMPTY
  }

  predicate Clean(c: Conn) {
    Anonymous(c.base) && c.local == map[]
  }

  /** What a transaction of `tenant_context` must be bound to. */
  function Identity(ctx: RequestContext, now: nat): Settings {
    Settings(Some(ctx.tenantId), Some(ctx.actorId), if ctx.role == "" then "none" else ctx.role, now)
  }

  function Nobody(now: nat): Settings {
    Settings(None, None, "none", now)
  }

  lemma CleanIsUnbound(c: Conn, now: nat)
    requires Clean(c)
    ensures SettingsOf(c, now) == Success(Nobody(now))
  {
    assert forall n :: n in {TENANT, ACTOR, ROLE} ==> Bound(c, n).None?;
  }

  lemma IdentifiedIsBound(c: Conn, ctx: RequestContext, now: nat)
    ensures SettingsOf(Identified(c, ctx), now) == Success(Identity(ctx, now))
  {
    assert TENANT != ACTOR && ACTOR != ROLE && TENANT != ROLE by {
      assert |ACTOR| != |TENANT| && |ACTOR| != |ROLE| && |TENANT| != |ROLE|;
    }
    var after := Identified(c, ctx);
    assert Current(after, TENANT) == Some(Uuid(ctx.tenantId));
    assert Current(after, ACTOR) == Some(Uuid(ctx.actorId));
    assert Current(after, ROLE) == Some(Plain(ctx.role));
  }

  // ---- tasks over a pool ----

  datatype Phase =
    | Idle
    | Opening(conn: Id, ctx: RequestContext)
    | Inside(conn: Id, ctx: RequestContext)
    | Outside(conn: Id)

  /** Rows a statement returned to a task, with the phase it was in. */
  datatype Answer = Answer(phase: Phase, role: DbRole, tb: Table, rows: set<Row>)

  datatype World = World(conns: map<Id, Conn>, phases: map<Id, Phase>, answers: seq<Answer>)

  datatype Event =
    | Connect(conn: Id)
    | Discard(conn: Id)
    | Enter(task: Id, conn: Id, ctx: RequestContext)
    | Bind(task: Id)
    | OpenPlain(task: Id, conn: Id)
    | Select(task: Id, role: DbRole, db: Db, tb: Table, now: nat)
    | End(task: Id, left: set<string>)
    | Lose(task: Id)

  function PhaseOf(w: World, task: Id): Phase {
    if task in w.phases then w.phases[task] else Idle
  }

  /** The connection is in the pool: known and in no transaction. */
  predicate Free(w: World, conn: Id) {
    conn in w.conns && !w.conns[conn].open
  }

  predicate Holds(w: World, task: Id, conn: Id) {
    !PhaseOf(w, task).Idle? && PhaseOf(w, task).conn == conn
  }

  /** One event; an event that cannot happen leaves the world as it is, and so does
      `tenant_context` on a session already in a transaction, which raises. */
  ghost function Step(w: World, e: Event): World {
    match e
    case Connect(conn) =>
      if conn in w.conns then w else w.(conns := w.conns[conn := Conn(map[], map[], false)])
    case Discard(conn) =>
      if Free(w, conn) then w.(conns := w.conns - {conn}) else w
    case Enter(task, conn, ctx) =>
      if PhaseOf(w, task).Idle? && Free(w, conn)
      then w.(conns := w.conns[conn := Begun(w.conns[conn])], phases := w.phases[task := Opening(conn, ctx)])
      else w
    case Bind(task) =>
      var p := PhaseOf(w, task);
      if p.Opening? && p.conn in w.conns
      then w.(conns := w.conns[p.conn := Identified(w.conns[p.conn], p.ctx)],
              phases := w.phases[task := Inside(p.conn, p.ctx)])
      else w
    case OpenPlain(task, conn) =>
      if PhaseOf(w, task).Idle? && Free(w, conn)
      then w.(conns := w.conns[conn := Begun(w.conns[conn])], phases := w.phases[task := Outside(conn)])
      else w
    case Select(task, role, db, tb, now) =>
      var p := PhaseOf(w, task);
      if !p.Idle? && p.conn in w.conns && SettingsOf(w.conns[p.conn], now).Success?
      then w.(answers := w.answers + [Answer(p, role, tb, View(role, SettingsOf(w.conns[p.conn], now).value, db, tb))])
      else w
    case End(task, left) =>
      var p := PhaseOf(w, task);
      if !p.Idle? && p.conn in w.conns
      then w.(conns := w.conns[p.conn := Ended(w.conns[p.conn], left)], phases := w.phases[task := Idle])
      else w
    case Lose(task) =>
      var p := PhaseOf(w, task);
      if p.Idle? then w else w.(conns := w.conns - {p.conn}, phases := w.phases[task := Idle])
  }

  ghost function Run(events: seq<Event>): World {
    if events == [] then World(map[], map[], []) else Step(Run(events[..|events| - 1]), events[|events| - 1])
  }

  // ---- what every interleaving keeps ----

  /** A task's connection is its own and is bound as its phase says. */
  predicate TaskOk(w: World, task: Id) {
    var p := PhaseOf(w, task);
    !p.Idle? ==>
      && p.conn in w.conns && w.conns[p.conn].open && Anonymous(w.conns[p.conn].base)
      && w.conns[p.conn].local == (if p.Inside? then Identified(Begun(w.conns[p.conn]), p.ctx).local else map[])
  }

  /** A row of the context's tenant; of the two global tables, its tenant's row and its
      actor's profile. */
  predicate CarriesIdentity(tb: Table, row: Row, ctx: RequestContext) {
    match tb
    case Tenant => row.id == ctx.tenantId
    case UserProfile => row.id == ctx.actorId
    case _ => row.tenant == Some(ctx.tenantId)
  }

  /** Rows returned inside a context are the context's own; outside there are none. */
  ghost predicate AnswerOk(r: Answer) {
    match r.phase
    case Inside(_, ctx) => r.role.Migrator? || forall row :: row in r.rows ==> CarriesIdentity(r.tb, row, ctx)
    case _ => r.role.Migrator? || r.rows == {}
  }

  /** No connection serves two tasks at once. */
  ghost predicate Exclusive(w: World) {
    forall t, u, c :: Holds(w, t, c) && Holds(w, u, c) ==> t == u
  }

  ghost predicate Inv(w: World) {
    && (forall t :: TaskOk(w, t))
    && Exclusive(w)
    && (forall c :: Free(w, c) ==> Clean(w.conns[c]))
    && (forall i :: 0 <= i < |w.answers| ==> AnswerOk(w.answers[i]))
  }

  /** In a world that keeps the invariant, a task's transaction reads its own identity
      inside `tenant_context`, and nobody's before the binding or outside. */
  lemma BindingOfPhase(w: World, task: Id, now: nat)
    requires TaskOk(w, task) && !PhaseOf(w, task).Idle?
    ensures var p := PhaseOf(w, task);
      p.conn in w.conns && SettingsOf(w.conns[p.conn], now)
        == Success(if p.Inside? then Identity(p.ctx, now) else Nobody(now))
  {
    var p := PhaseOf(w, task);
    if p.Inside? {
      IdentifiedIsBound(Begun(w.conns[p.conn]), p.ctx, now);
      assert w.conns[p.conn] == Identified(Begun(w.conns[p.conn]), p.ctx);
    } else {
      CleanIsUnbound(w.conns[p.conn], now);
    }
  }

  lemma NobodySeesNothing(role: DbRole, db: Db, tb: Table, now: nat)
    requires !role.Migrator?
    ensures View(role, Nobody(now), db, tb) == {}
  {
    forall r | r in View(role, Nobody(now), db, tb) ensures false {
      SelectIsMine(role, Nobody(now), db, tb, r);
    }
  }

  lemma SelectOk(w: World, task: Id, role: DbRole, db: Db, tb: Table, now: nat)
    requires TaskOk(w, task) && !PhaseOf(w, task).Idle?
    ensures var p := PhaseOf(w, task);
      && p.conn in w.conns && SettingsOf(w.conns[p.conn], now).Success?
      && AnswerOk(Answer(p, role, tb, View(role, SettingsOf(w.conns[p.conn], now).value, db, tb)))
  {
    var p := PhaseOf(w, task);
    BindingOfPhase(w, task, now);
    if !role.Migrator? {
      if p.Inside? {
        forall row | row in View(role, Identity(p.ctx, now), db, tb) ensures CarriesIdentity(tb, row, p.ctx) {
          SelectIsMine(role, Identity(p.ctx, now), db, tb, row);
        }
      } else {
        NobodySeesNothing(role, db, tb, now);
      }
    }
  }

  /** An event changes only the phase of a task it names. */
  lemma OthersKeepTheirPhase(w: World, e: Event, task: Id)
    requires e.Connect? || e.Discard? || e.Select? || e.task != task
    ensures PhaseOf(Step(w, e), task) == PhaseOf(w, task)
  {
  }

  lemma StepKeepsTask(w: World, e: Event, task: Id)
    requires Inv(w)
    ensures TaskOk(Step(w, e), task)
  {
    assert TaskOk(w, task);
    if e.Connect? || e.Discard? || e.Select? {
      OthersKeepTheirPhase(w, e, task);
    } else if e.task != task {
      OthersKeepTheirPhase(w, e, task);
      assert TaskOk(w, e.task);
      var p, q := PhaseOf(w, task), PhaseOf(w, e.task);
      if !p.Idle? && !q.Idle? {
        assert Holds(w, task, p.conn);
        assert !Holds(w, e.task, p.conn);
      }
    } else if (e.Enter? || e.OpenPlain?) && Free(w, e.conn) {
      assert Clean(w.conns[e.conn]);
    }
  }

  /** A task holds a connection because it held it before or just took it from the pool. */
  lemma HeldOrTaken(w: World, e: Event, task: Id, conn: Id)
    requires Inv(w) && Holds(Step(w, e), task, conn)
    ensures Holds(w, task, conn) || (Free(w, conn) && (e.Enter? || e.OpenPlain?) && e.task == task)
  {
    if e.Connect? || e.Discard? || e.Select? || e.task != task {
      OthersKeepTheirPhase(w, e, task);
    }
  }

  lemma StepKeepsExclusive(w: World, e: Event)
    requires Inv(w)
    ensures Exclusive(Step(w, e))
  {
    var after := Step(w, e);
    forall t, u, c | Holds(after, t, c) && Holds(after, u, c) ensures t == u {
      HeldOrTaken(w, e, t, c);
      HeldOrTaken(w, e, u, c);
      assert TaskOk(w, t) && TaskOk(w, u);
    }
  }

  lemma StepKeepsPool(w: World, e: Event, conn: Id)
    requires Inv(w) && Free(Step(w, e), conn)
    ensures Clean(Step(w, e).conns[conn])
  {
    if e.Bind? || e.End? {
      assert TaskOk(w, e.task);
    }
    if Free(w, conn) && !(e.End? && Holds(w, e.task, conn)) {
      assert Clean(w.conns[conn]);
      assert Step(w, e).conns[conn] == w.conns[conn];
    }
  }

  lemma StepKeepsInv(w: World, e: Event)
    requires Inv(w)
    ensures Inv(Step(w, e))
  {
    forall t ensures TaskOk(Step(w, e), t) { StepKeepsTask(w, e, t); }
    StepKeepsExclusive(w, e);
    forall c | Free(Step(w, e), c) ensures Clean(Step(w, e).conns[c]) { StepKeepsPool(w, e, c); }
    if e.Select? && !PhaseOf(w, e.task).Idle? {
      SelectOk(w, e.task, e.role, e.db, e.tb, e.now);
    }
  }

  lemma {:induction false} RunKeepsInv(events: seq<Event>)
    ensures Inv(Run(events))
  {
    if events != [] {
      RunKeepsInv(events[..|events| - 1]);
      StepKeepsInv(Run(events[..|events| - 1]), events[|events| - 1]);
    }
  }

  /** In every interleaving of tasks over the pool, the transaction a task is in reads
      exactly the identity of its own `tenant_context`, and nobody's before the binding or
      outside of one. */
  lemma BindingIsExact(events: seq<Event>, task: Id, now: nat)
    requires !PhaseOf(Run(events), task).Idle?
    ensures var w := Run(events); var p := PhaseOf(w, task);
      && p.conn in w.conns
      && SettingsOf(w.conns[p.conn], now) == Success(if p.Inside? then Identity(p.ctx, now) else Nobody(now))
  {
    RunKeepsInv(events);
    BindingOfPhase(Run(events), task, now);
  }

  /** Every row such a task is given, in any role but the migrator's, carries the identity
      of the context it was read in; a task outside of one is given none. */
  lemma AnswersCarryTheirTenant(events: seq<Event>, i: nat, row: Row)
    requires i < |Run(events).answers| && row in Run(events).answers[i].rows && !Run(events).answers[i].role.Migrator?
    ensures var answer := Run(events).answers[i];
      answer.phase.Inside? && CarriesIdentity(answer.tb, row, answer.phase.ctx)
  {
    RunKeepsInv(events);
    assert AnswerOk(Run(events).answers[i]);
  }

  // ---- one task's way through a context ----

  /** Nobody else's connection and no other task's phase is any different. */
  ghost predicate OthersSame(before: World, after: World, task: Id, conn: Id) {
    && (forall c :: c != conn ==> (c in after.conns <==> c in before.conns))
    && (forall c :: c != conn && c in before.conns && c in after.conns ==> after.conns[c] == before.conns[c])
    && (forall t :: t != task ==> PhaseOf(after, t) == PhaseOf(before, t))
  }

  lemma EntersAndBinds(w: World, task: Id, conn: Id, ctx: RequestContext)
    requires PhaseOf(w, task).Idle? && Free(w, conn)
    ensures var inside := Step(Step(w, Enter(task, conn, ctx)), Bind(task));
      && PhaseOf(inside, task) == Inside(conn, ctx) && inside.answers == w.answers && OthersSame(w, inside, task, conn)
  {
    var entered := Step(w, Enter(task, conn, ctx));
    assert PhaseOf(entered, task) == Opening(conn, ctx);
    assert forall t :: t != task ==> PhaseOf(entered, t) == PhaseOf(w, t);
  }

  lemma EndsClean(w: World, task: Id, left: set<string>)
    requires Inv(w) && !PhaseOf(w, task).Idle?
    ensures var conn, ended := PhaseOf(w, task).conn, Step(w, End(task, left));
      && PhaseOf(ended, task).Idle? && Free(ended, conn) && Clean(ended.conns[conn])
      && OthersSame(w, ended, task, conn) && ended.answers == w.answers
  {
    assert TaskOk(w, task);
    StepKeepsPool(w, End(task, left), PhaseOf(w, task).conn);
  }

  lemma IdentityIsRead(w: World, task: Id, role: DbRole, db: Db, tb: Table, now: nat)
    requires Inv(w) && PhaseOf(w, task).Inside?
    ensures var p := PhaseOf(w, task);
      Step(w, Event.Select(task, role, db, tb, now))
      == w.(answers := w.answers + [Answer(p, role, tb, View(role, Identity(p.ctx, now), db, tb))])
  {
    BindingOfPhase(w, task, now);
  }

  /** A task that takes a free connection and binds its context is inside it, reads exactly the
      rows its own identity may see, and gives the connection back to the pool, clean, when the
      transaction ends; everyone else is left alone. */
  lemma {:induction false} ContextGoesThrough(events: seq<Event>, task: Id, conn: Id, ctx: RequestContext, role: DbRole,
                                              db: Db, tb: Table, now: nat, left: set<string>)
    requires PhaseOf(Run(events), task).Idle? && Free(Run(events), conn)
    ensures var w := Run(events);
      var inside := Step(Step(w, Enter(task, conn, ctx)), Bind(task));
      var answered := Step(inside, Event.Select(task, role, db, tb, now));
      var ended := Step(answered, End(task, left));
      && PhaseOf(inside, task) == Inside(conn, ctx) && OthersSame(w, inside, task, conn)
      && answered == inside.(answers := w.answers
           + [Answer(Inside(conn, ctx), role, tb, View(role, Identity(ctx, now), db, tb))])
      && PhaseOf(ended, task).Idle? && Free(ended, conn) && Clean(ended.conns[conn])
      && OthersSame(answered, ended, task, conn) && ended.answers == answered.answers
  {
    var w := Run(events);
    RunKeepsInv(events);
    StepKeepsInv(w, Enter(task, conn, ctx));
    StepKeepsInv(Step(w, Enter(task, conn, ctx)), Bind(task));
    EntersAndBinds(w, task, conn, ctx);
    var inside := Step(Step(w, Enter(task, conn, ctx)), Bind(task));
    StepKeepsInv(inside, Event.Select(task, role, db, tb, now));
    IdentityIsRead(inside, task, role, db, tb, now);
    EndsClean(Step(inside, Event.Select(task, role, db, tb, now)), task, left);
  }

  /** A transaction opened outside of any context reads as nobody, sees nothing in a tenant role,
      and leaves the connection free and clean. */
  lemma {:induction false} PlainGoesThrough(events: seq<Event>, task: Id, conn: Id, role: DbRole, db: Db, tb: Table,
                                            now: nat, left: set<string>)
    requires PhaseOf(Run(events), task).Idle? && Free(Run(events), conn) && !role.Migrator?
    ensures var w := Run(events);
      var outside := Step(w, OpenPlain(task, conn));
      var answered := Step(outside, Event.Select(task, role, db, tb, now));
      var ended := Step(answered, End(task, left));
      && PhaseOf(outside, task) == Outside(conn) && OthersSame(w, outside, task, conn)
      && answered == outside.(answers := w.answers + [Answer(Outside(conn), role, tb, {})])
      && PhaseOf(ended, task).Idle? && Free(ended, conn) && Clean(ended.conns[conn])
      && OthersSame(answered, ended, task, conn) && ended.answers == answered.answers
  {
    var w := Run(events);
    RunKeepsInv(events);
    StepKeepsInv(w, OpenPlain(task, conn));
    var outside := Step(w, OpenPlain(task, conn));
    OpensPlain(w, task, conn);
    BindingOfPhase(outside, task, now);
    NobodySeesNothing(role, db, tb, now);
    StepKeepsInv(outside, Event.Select(task, role, db, tb, now));
    EndsClean(Step(outside, Event.Select(task, role, db, tb, now)), task, left);
  }

  lemma OpensPlain(w: World, task: Id, conn: Id)
    requires PhaseOf(w, task).Idle? && Free(w, conn)
    ensures var outside := Step(w, OpenPlain(task, conn));
      PhaseOf(outside, task) == Outside(conn) && outside.answers == w.answers && OthersSame(w, outside, task, conn)
  {
  }

  /** A lost connection is gone, its task is idle, and nothing else changes; new connections
      start clean, and a free one may be discarded. */
  lemma PoolChanges(w: World, task: Id, conn: Id)
    ensures !PhaseOf(w, task).Idle? ==>
      var after := Step(w, Lose(task));
      PhaseOf(after, task).Idle? && PhaseOf(w, task).conn !in after.conns
      && OthersSame(w, after, task, PhaseOf(w, task).conn)
    ensures conn !in w.conns ==> Step(w, Connect(conn)) == w.(conns := w.conns[conn := Conn(map[], map[], false)])
    ensures Free(w, conn) ==> conn !in Step(w, Discard(conn)).conns && OthersSame(w, Step(w, Discard(conn)), task, conn)
  {
  }

  // ---- the context manager on one session ----

  datatype SessionError = TransactionOpen

  class Session {
    var base: map<string, Text>
    var local: map<string, Text>
    var open: bool

    constructor ()
      ensures View() == Conn(map[], map[], false)
    {
      base, local, open := map[], map[], false;
    }

    function View(): Conn
      reads this
    {
      Conn(base, local, open)
    }

    method SetConfig(name: string, value: Text)
      requires open
      modifies this`local
      ensures View() == SetLocal(old(View()), name, value)
    {
      local := local[name := value];
    }

    /** Entering `tenant_context`: an open transaction is refused; otherwise a transaction
        is begun and bound, whatever the connection's earlier settings were. */
    method EnterTenantContext(ctx: RequestContext) returns (r: Result<(), SessionError>)
      modifies this
      ensures r.Failure? <==> old(open)
      ensures r.Failure? ==> View() == old(View())
      ensures r.Success? ==> View() == Identified(Begun(old(View())), ctx)
      ensures r.Success? ==> forall now :: SettingsOf(View(), now) == Success(Identity(ctx, now))
    {
      if open {
        return Failure(TransactionOpen);
      }
      open, local := true, map[];
      SetConfig(TENANT, Uuid(ctx.tenantId));
      SetConfig(ACTOR, Uuid(ctx.actorId));
      SetConfig(ROLE, Plain(ctx.role));
      forall now ensures SettingsOf(View(), now) == Success(Identity(ctx, now)) {
        IdentifiedIsBound(Begun(old(View())), ctx, now);
      }
      r := Success(());
    }

    /** Leaving it, by commit or by rollback: nobody is bound any more. */
    method ExitTenantContext(left: set<string>)
      requires open
      modifies this
      ensures View() == Ended(old(View()), left)
      ensures old(Anonymous(base)) ==> Clean(View()) && forall now :: SettingsOf(View(), now) == Success(Nobody(now))
    {
      base := (map n | n in left && n in local :: EMPTY) + base;
      local, open := map[], false;
      if old(Anonymous(base)) {
        assert Clean(View());
        forall now ensures SettingsOf(View(), now) == Success(Nobody(now)) {
          CleanIsUnbound(View(), now);
        }
      }
    }
  }
}
