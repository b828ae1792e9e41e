/** The ladder as one transaction runs it: a session that reads and writes table rows in
    place, and the request boundary that commits or rolls the session back. */
module LadderSession {
  import opened Prelude
  import opened Decimal
  import opened PriceDrift
  import opened Cost
  import opened BudgetMirror
  import opened Json
  import opened Ladder
  import opened LadderMachine
  import opened LadderReplay

  /** What the awaited dispatch does: return a result or raise, perhaps after charging. */
  datatype Dispatched = Returned(result: Value, charges: seq<Charge>) | Raised(charges: seq<Charge>)

  /** The call may go ahead up to its insert. */
  predicate Admitted(tables: Tables, r: Request, started: nat, now: int) {
    FindExisting(tables.approvals, r).None? && QuoteStands(tables, r, now) && BudgetAccepts(tables, r, started)
  }

  /** The rows that foreign keys of previews and approvals may name. */
  datatype References = References(tenants: set<Id>, profiles: set<Id>, locations: set<Id>)

  predicate Known(refs: References, tenant: Id, profile: Id, location: Option<Id>) {
    tenant in refs.tenants && profile in refs.profiles && (location.Some? ==> location.value in refs.locations)
  }

  /** What other calls commit between this call's lookup and its insert. */
  datatype Rivals = Rivals(approvals: seq<Approval>, cards: seq<Card>, ledger: seq<Charge>)

  function Seeing(tables: Tables, rivals: Rivals): Tables {
    tables.(approvals := tables.approvals + rivals.approvals, cards := tables.cards + rivals.cards,
            ledger := tables.ledger + rivals.ledger)
  }

  /** One open transaction: the rows it sees, its own writes included. */
  class Session {
    const ctx: Context
    const started: nat
    const refs: References
    const budgets: seq<Budget>
    const names: map<Id, string>
    var previews: map<Id, Preview>
    var approvals: seq<Approval>
    var cards: seq<Card>
    var ledger: seq<Charge>

    constructor (ctx: Context, started: nat, refs: References, tables: Tables)
      ensures View() == tables && this.ctx == ctx && this.started == started && this.refs == refs
    {
      this.ctx, this.started, this.refs := ctx, started, refs;
      budgets, names := tables.budgets, tables.names;
      previews, approvals, cards, ledger := tables.previews, tables.approvals, tables.cards, tables.ledger;
    }

    function View(): Tables
      reads this
    {
      Tables(previews, approvals, cards, ledger, budgets, names)
    }

    /** Stores a priced quote.  It succeeds whether or not the gates pass, and `passes`
        tells whether the budget check would accept the same cost and balance now. */
    method CreatePreview(id: Id, tenant: Id, location: Option<Id>, operation: string, requestedBy: Id,
                         estimate: real, balance: Option<real>) returns (r: Result<Preview, Problem>)
      requires id !in previews
      modifies this`previews
      ensures r.Success? <==>
        && tenant == ctx.tenant && -99999999.99995 < estimate < 99999999.99995
        && tenant in refs.tenants && requestedBy in refs.profiles
        && (location.Some? ==> location.value in refs.locations)
      ensures r.Failure? ==> previews == old(previews)
      ensures r.Success? ==>
        var books := Books(budgets, ledger, Some(ctx.tenant), DayOf(started));
        && previews == old(previews)[id := r.value]
        && r.value.tenant == tenant && r.value.operation == operation
        && NearestAway(estimate * 10000.0, r.value.estimate)
        && r.value.location == location && r.value.requestedBy == requestedBy
        && r.value.expiresAt == started + 15 * 60 * 1_000_000
        && GatesFor(r.value.gates, CurrentBudget(books), Spent(books), estimate, balance)
        && (r.value.passes <==> AllPass(r.value.gates))
        && (forall n, b ::
              ValidBooks(books) && estimate == Scaled(n, MIRROR_DECIMALS)
              && balance == BalanceAt(b, MIRROR_DECIMALS) ==>
              (r.value.passes <==> AssertBudget(books, estimate, balance) == Accepted))
    {
      var books := BooksOf(View(), ctx, started);
      var budget, spent := CurrentBudget(books), Spent(books);
      var gates := EvaluateGates(budget, spent, estimate, balance);
      var passes := forall i :: 0 <= i < |gates| ==> gates[i].pass;
      FitsIff(estimate);
      HalfAwayIsNearest(estimate * 10000.0, StoredUnits(estimate));
      if tenant != ctx.tenant || !Fits(estimate) {
        return Failure(DatabaseError);
      }
      if !Known(refs, tenant, requestedBy, location) {
        return Failure(DatabaseError);
      }
      var preview := Preview(tenant, location, operation, requestedBy, StoredUnits(estimate), gates, passes,
                             started + PREVIEW_LIFETIME);
      previews := previews[id := preview];
      forall n, b | ValidBooks(books) && estimate == Scaled(n, MIRROR_DECIMALS)
                    && balance == BalanceAt(b, MIRROR_DECIMALS)
        ensures passes <==> AssertBudget(books, estimate, balance) == Accepted
      {
        PassesIffAccepted(budget, spent, n, b);
      }
      r := Success(preview);
    }

    /** `insert into approval`: an integrity error when a foreign key names nothing or the
        tenant already has the key. */
    method InsertApproval(row: Approval) returns (ok: bool)
      modifies this`approvals
      ensures ok <==>
        && row.tenant in refs.tenants && row.approvedBy in refs.profiles
        && (row.location.Some? ==> row.location.value in refs.locations)
        && forall i :: 0 <= i < |old(approvals)| ==> !SameKey(old(approvals)[i], row)
      ensures approvals == if ok then old(approvals) + [row] else old(approvals)
    {
      if !Known(refs, row.tenant, row.approvedBy, row.location) {
        return false;
      }
      for i := 0 to |approvals|
        invariant forall j :: 0 <= j < i ==> !SameKey(approvals[j], row)
        invariant approvals == old(approvals)
      {
        if SameKey(approvals[i], row) {
          return false;
        }
      }
      approvals := approvals + [row];
      ok := true;
    }

    /** `update approval set ... where id = ...`: every row with the id, and no other. */
    method MarkExecuted(id: Id, r: Request, result: Value)
      modifies this`approvals
      ensures |approvals| == |old(approvals)|
      ensures forall i :: 0 <= i < |approvals| ==>
        approvals[i] == (if old(approvals)[i].id == id
          then MarkRow(old(approvals)[i], r, started, result) else old(approvals)[i])
    {
      for i := 0 to |approvals|
        invariant |approvals| == |old(approvals)|
        invariant forall j :: i <= j < |approvals| ==> approvals[j] == old(approvals)[j]
        invariant forall j :: 0 <= j < i ==>
          approvals[j] == (if old(approvals)[j].id == id
            then MarkRow(old(approvals)[j], r, started, result) else old(approvals)[j])
      {
        if approvals[i].id == id {
          approvals := approvals[i := MarkRow(approvals[i], r, started, result)];
        }
      }
    }

    /** The second half of `execute`, once the checks have passed: claim the key,
        dispatch, mark the row executed and write the card.  Any integrity error of the
        insert is a duplicate to the caller, and nothing is dispatched. */
    method ClaimAndDispatch(r: Request, id: Id, dispatch: Dispatched) returns (res: Result<Response, Problem>)
      requires r.ctx == ctx
      requires forall i :: 0 <= i < |approvals| ==> approvals[i].id != id
      modifies this`approvals, this`cards, this`ledger
      ensures !Insertable(refs, old(approvals), r) ==>
        View() == old(View()) && res == Failure(DuplicateIdempotencyKey)
      ensures Insertable(refs, old(approvals), r) ==>
        WriteOutcome(old(View()), View(), r, started, id, dispatch, res)
    {
      var inserted := InsertApproval(NewRow(r, id, started));
      if !inserted {
        return Failure(DuplicateIdempotencyKey);
      }
      assert approvals == old(approvals) + [NewRow(r, id, started)];
      ledger := ledger + dispatch.charges;
      if dispatch.Raised? {
        return Failure(DispatchFailed);
      }
      if !UpdateFits(r, dispatch.result) {
        return Failure(DatabaseError);
      }
      MarkExecuted(id, r, dispatch.result);
      assert approvals == old(approvals) + [FinalRow(r, id, started, dispatch.result)];
      if !IsActorRole(ctx.role) {
        return Failure(DatabaseError);
      }
      cards := cards + [ExecuteCard(r, names, started, id)];
      res := Success(FreshResponse(r, id, dispatch.result));
    }

    /** `execute`: replay, or check, claim, dispatch, mark and card.  A failure before the
        insert leaves the rows alone; one after it leaves its rows behind, for the
        transaction boundary to roll back.  The insert sees what rivals have committed. */
    method Execute(r: Request, now: int, id: Id, rivals: Rivals, dispatch: Dispatched)
      returns (res: Result<Response, Problem>)
      requires r.ctx == ctx
      requires forall i :: 0 <= i < |approvals| ==> approvals[i].id != id
      requires forall i :: 0 <= i < |rivals.approvals| ==> rivals.approvals[i].id != id
      modifies this`approvals, this`cards, this`ledger
      ensures FindExisting(old(approvals), r).Some? ==>
        View() == old(View()) && res == ReplayResult(FindExisting(old(approvals), r).value, r)
      ensures FindExisting(old(approvals), r).None? && !Admitted(old(View()), r, started, now) ==>
        View() == old(View()) && res.Failure? && Refuses(old(View()), r, started, now, res.error)
      ensures Admitted(old(View()), r, started, now) && !Insertable(refs, rivals.approvals, r) ==>
        View() == Seeing(old(View()), rivals) && res == Failure(DuplicateIdempotencyKey)
      ensures Admitted(old(View()), r, started, now) && Insertable(refs, rivals.approvals, r) ==>
        WriteOutcome(Seeing(old(View()), rivals), View(), r, started, id, dispatch, res)
    {
      var existing := FindExisting(approvals, r);
      if existing.Some? {
        if existing.value.previewId != Some(r.previewId) {
          return Failure(DuplicateIdempotencyKey);
        }
        return Success(ReplayOf(existing.value));
      }
      var problem := QuoteProblem(View(), r, now);
      QuoteDecides(View(), r, now);
      if problem.Some? {
        return Failure(problem.value);
      }
      if !BudgetAccepts(View(), r, started) {
        return Failure(BudgetExceeded);
      }
      KeyIsFree(View(), r, rivals.approvals, now);
      approvals, cards, ledger := approvals + rivals.approvals, cards + rivals.cards, ledger + rivals.ledger;
      res := ClaimAndDispatch(r, id, dispatch);
    }
  }

  /** Some row has the tenant and key the call would insert. */
  predicate KeyTaken(approvals: seq<Approval>, r: Request) {
    exists i :: 0 <= i < |approvals| && approvals[i].tenant == r.tenant && approvals[i].key == r.key
  }

  /** The insert meets its foreign keys and its unique key. */
  predicate Insertable(refs: References, approvals: seq<Approval>, r: Request) {
    Known(refs, r.tenant, r.approvedBy, r.location) && !KeyTaken(approvals, r)
  }

  /** What a key hit returns: the stored response, or a duplicate for another preview. */
  function ReplayResult(found: Approval, r: Request): Result<Response, Problem> {
    if found.previewId == Some(r.previewId) then Success(ReplayOf(found)) else Failure(DuplicateIdempotencyKey)
  }

  /** The code a call that is not admitted is refused with, on the stored quote's fields: the
      budget is asked only about a quote that stands. */
  predicate Refuses(tables: Tables, r: Request, started: nat, now: int, problem: Problem) {
    || QuoteRefuses(tables, r, now, problem)
    || (problem == BudgetExceeded && QuoteStands(tables, r, now) && !BudgetAccepts(tables, r, started))
  }

  /** What an admitted call leaves behind. */
  ghost predicate WriteOutcome(before: Tables, after: Tables, r: Request, started: nat, id: Id, dispatch: Dispatched,
                               res: Result<Response, Problem>)
  {
    match dispatch
    case Raised(charges) =>
      res == Failure(DispatchFailed) &&
      after == before.(approvals := before.approvals + [NewRow(r, id, started)], ledger := before.ledger + charges)
    case Returned(result, charges) =>
      && (res.Success? <==> UpdateFits(r, result) && IsActorRole(r.ctx.role))
      && (res.Success? ==>
            res.value == FreshResponse(r, id, result) &&
            after == WithWrites(before, FinalRow(r, id, started, result), charges,
                                ExecuteCard(r, before.names, started, id)))
      && (res.Failure? ==> res.error == DatabaseError)
  }

  /** After the lookup and the preview's tenant check, only a rival can have the key. */
  lemma KeyIsFree(tables: Tables, r: Request, rivals: seq<Approval>, now: int)
    requires FindExisting(tables.approvals, r).None? && QuoteStands(tables, r, now)
    ensures KeyTaken(tables.approvals + rivals, r) <==> KeyTaken(rivals, r)
  {
    assert OwnQuote(tables, r);
    var all := tables.approvals + rivals;
    forall i | 0 <= i < |tables.approvals| ensures !(all[i].tenant == r.tenant && all[i].key == r.key) {
      assert tables.approvals[i] in tables.approvals;
    }
    if KeyTaken(rivals, r) {
      var i :| 0 <= i < |rivals| && rivals[i].tenant == r.tenant && rivals[i].key == r.key;
      assert all[|tables.approvals| + i] == rivals[i];
    }
  }

  lemma UntakenIsUnfound(approvals: seq<Approval>, r: Request)
    requires !KeyTaken(approvals, r)
    ensures FindExisting(approvals, r).None?
  {
    forall a | a in approvals ensures !Matches(a, r.ctx, r.tenant, r.key) {
      var i :| 0 <= i < |approvals| && approvals[i] == a;
    }
  }

  /** A call that clears its checks and can insert, run alone from the tables its insert
      sees, leaves what a success leaves. */
  lemma LoneCallWrites(tables: Tables, r: Request, started: nat, now: nat, id: Id, rivals: Rivals, result: Value,
                       charges: seq<Charge>)
    requires Admitted(tables, r, started, now) && started <= now && !KeyTaken(rivals.approvals, r)
    requires forall i :: 0 <= i < |tables.approvals| ==> tables.approvals[i].id != id
    requires forall i :: 0 <= i < |rivals.approvals| ==> rivals.approvals[i].id != id
    requires UpdateFits(r, result) && IsActorRole(r.ctx.role)
    requires BudgetAccepts(Seeing(tables, rivals), r, started)
    ensures Run(Start(Seeing(tables, rivals), started), SoloLabels(r, id, result, charges)).tables
         == WithWrites(Seeing(tables, rivals), FinalRow(r, id, started, result), charges,
                       ExecuteCard(r, tables.names, started, id))
  {
    var seen := Seeing(tables, rivals);
    EarlierQuote(tables, r, started, now);
    KeyIsFree(tables, r, rivals.approvals, now);
    UntakenIsUnfound(seen.approvals, r);
    SoloRun(seen, started, r, id, result, charges);
  }

  /** The database behind the requests: its committed tables. */
  class Database {
    const refs: References
    var tables: Tables

    constructor (refs: References, tables: Tables)
      ensures this.tables == tables && this.refs == refs
    {
      this.refs, this.tables := refs, tables;
    }

    /** One request inside `tenant_context`, begun at `started` and past its lookup at `now`,
        with what rivals commit meanwhile: the transaction commits when the call returns and
        rolls back when an exception leaves it.  `caught` is a caller that catches the
        exception inside the context, which then commits what the call left behind.  A success
        leaves what the interleaving model's lone call leaves. */
    method Handle(r: Request, started: nat, now: nat, id: Id, rivals: Rivals, dispatch: Dispatched, caught: bool)
      returns (res: Result<Response, Problem>)
      requires started <= now
      requires forall i :: 0 <= i < |tables.approvals| ==> tables.approvals[i].id != id
      requires forall i :: 0 <= i < |rivals.approvals| ==> rivals.approvals[i].id != id
      modifies this
      ensures res.Failure? && (!caught || res.error != DispatchFailed) ==> tables == Seeing(old(tables), rivals)
      ensures FindExisting(old(tables).approvals, r).Some? ==>
        && tables == Seeing(old(tables), rivals)
        && res == ReplayResult(FindExisting(old(tables).approvals, r).value, r)
      ensures FindExisting(old(tables).approvals, r).None? ==>
        Handled(refs, old(tables), tables, r, started, now, id, rivals, dispatch, caught, res)
      ensures FindExisting(old(tables).approvals, r).None? && res.Success? ==> dispatch.Returned?
      ensures FindExisting(old(tables).approvals, r).None? && res.Success?
              && BudgetAccepts(Seeing(old(tables), rivals), r, started) ==>
        tables == Run(Start(Seeing(old(tables), rivals), started),
                      SoloLabels(r, id, dispatch.result, dispatch.charges)).tables
    {
      var session := new Session(r.ctx, started, refs, tables);
      res := session.Execute(r, now, id, rivals, dispatch);
      var stored := FindExisting(tables.approvals, r).Some?;
      if !stored && (res.Success? || (caught && res.error == DispatchFailed)) {
        tables := session.View();
      } else {
        tables := Seeing(tables, rivals);
      }
      if !stored && res.Success? && BudgetAccepts(Seeing(old(tables), rivals), r, started) {
        LoneCallWrites(old(tables), r, started, now, id, rivals, dispatch.result, dispatch.charges);
      }
    }
  }

  /** What a call without a stored approval comes to: a refusal with its reason, a
      duplicate, a failed dispatch, a failed update or card, or exactly its writes. */
  ghost predicate Handled(refs: References, before: Tables, after: Tables, r: Request, started: nat, now: nat, id: Id,
                          rivals: Rivals, dispatch: Dispatched, caught: bool, res: Result<Response, Problem>)
  {
    var seen := Seeing(before, rivals);
    if !Admitted(before, r, started, now)
    then res.Failure? && Refuses(before, r, started, now, res.error) && after == seen
    else if !Insertable(refs, rivals.approvals, r) then res == Failure(DuplicateIdempotencyKey) && after == seen
    else
      match dispatch
      case Raised(charges) =>
        && res == Failure(DispatchFailed)
        && after == if caught
                    then seen.(approvals := seen.approvals + [NewRow(r, id, started)], ledger := seen.ledger + charges)
                    else seen
      case Returned(result, charges) =>
        if UpdateFits(r, result) && IsActorRole(r.ctx.role)
        then
          && res == Success(FreshResponse(r, id, result))
          && after == WithWrites(seen, FinalRow(r, id, started, result), charges,
                                 ExecuteCard(r, before.names, started, id))
        else res == Failure(DatabaseError) && after == seen
  }
}
