/** The approval ladder's rows and the statements `execute` runs, one function each. */
module Ladder {
  import opened Prelude
  import opened Decimal
  import opened PriceDrift
  import opened Cost
  import opened Json

  /** The identity bound to a transaction. */
  datatype Context = Context(tenant: Id, actor: Id, role: string)

  datatype Preview = Preview(tenant: Id, location: Option<Id>, operation: string, requestedBy: Id,
                             estimate: int, gates: seq<Gate>, passes: bool, expiresAt: int)

  datatype Status = Approved | Executing | Executed | Failed | Expired

  /** `cost` in ten-thousandths. */
  datatype Approval = Approval(id: Id, tenant: Id, location: Option<Id>, previewId: Option<Id>, operation: string,
                               approvedBy: Id, approvedAt: nat, key: string, status: Status,
                               executedAt: Option<nat>, cost: Option<int>, result: Option<Value>)

  datatype Card = Card(tenant: Id, location: Option<Id>, occurredAt: nat, actor: Id, actorLabel: string, role: string,
                       verb: string, action: string, resourceType: string, resourceId: Option<Id>,
                       approvalId: Option<Id>)

  datatype Tables = Tables(previews: map<Id, Preview>, approvals: seq<Approval>, cards: seq<Card>,
                           ledger: seq<Charge>, budgets: seq<Budget>, names: map<Id, string>)

  /** The arguments of one `execute` call. */
  datatype Request = Request(ctx: Context, tenant: Id, location: Option<Id>, operation: string, approvedBy: Id,
                             previewId: Id, key: string, reprice: real, balance: Option<real>)

  datatype Problem = DuplicateIdempotencyKey | NotFound | PreviewExpired | PreviewPriceDrift | BudgetExceeded
                   | DispatchFailed | DatabaseError

  datatype Response = Response(approvalId: Id, status: Status, cost: Option<real>, result: Option<Value>)

  const DAY: nat := 86_400_000_000
  const PREVIEW_LIFETIME: nat := 900_000_000

  /** `current_date` of a transaction, from its start in microseconds. */
  function DayOf(instant: nat): nat {
    instant / DAY
  }

  /** Whole days of 24 hours, in microseconds. */
  lemma DayHolds(instant: nat, day: nat)
    ensures DayOf(instant) == day <==>
      day * (24 * 60 * 60 * 1_000_000) <= instant < (day + 1) * (24 * 60 * 60 * 1_000_000)
  {
  }

  /** Rows of `approval` a session sees under one tenant and key. */
  predicate Matches(a: Approval, ctx: Context, tenant: Id, key: string) {
    a.tenant == ctx.tenant && a.tenant == tenant && a.key == key
  }

  function FindExisting(approvals: seq<Approval>, r: Request): (found: Option<Approval>)
    ensures found.Some? ==> found.value in approvals && Matches(found.value, r.ctx, r.tenant, r.key)
    ensures found.None? ==> forall a :: a in approvals ==> !Matches(a, r.ctx, r.tenant, r.key)
  {
    if approvals == [] then None
    else if Matches(approvals[0], r.ctx, r.tenant, r.key) then Some(approvals[0])
    else FindExisting(approvals[1..], r)
  }

  /** The stored response a replay hands back. */
  function ReplayOf(a: Approval): Response {
    Response(a.id, a.status, if a.cost.Some? then Some(TenThousandths(a.cost.value)) else None, a.result)
  }

  function LoadPreview(tables: Tables, r: Request): Option<Preview> {
    if r.previewId in tables.previews
       && tables.previews[r.previewId].tenant == r.ctx.tenant
       && tables.previews[r.previewId].tenant == r.tenant
       && tables.previews[r.previewId].operation == r.operation
    then Some(tables.previews[r.previewId]) else None
  }

  /** The checks between loading the preview and asking for budget. */
  function QuoteProblem(tables: Tables, r: Request, now: int): Option<Problem> {
    match LoadPreview(tables, r)
    case None => Some(NotFound)
    case Some(p) =>
      if p.expiresAt < now then Some(PreviewExpired)
      else if Drifted(r.reprice, TenThousandths(p.estimate)) then Some(PreviewPriceDrift)
      else None
  }

  // ---- the same decision, on the stored quote's own fields ----

  /** The quote is stored, the session's own, and for this operation.  Who asked for it and
      for which location is not compared. */
  predicate OwnQuote(tables: Tables, r: Request) {
    && r.previewId in tables.previews
    && tables.previews[r.previewId].tenant == r.ctx.tenant == r.tenant
    && tables.previews[r.previewId].operation == r.operation
  }

  /** The quote is the call's own, has not expired, and the price is within its tolerance. */
  predicate QuoteStands(tables: Tables, r: Request, now: int) {
    && OwnQuote(tables, r)
    && now <= tables.previews[r.previewId].expiresAt
    && !Drifted(r.reprice, TenThousandths(tables.previews[r.previewId].estimate))
  }

  /** When each of the three codes is due: drift is asked about only while the quote lives. */
  predicate QuoteRefuses(tables: Tables, r: Request, now: int, problem: Problem) {
    match problem
    case NotFound => !OwnQuote(tables, r)
    case PreviewExpired => OwnQuote(tables, r) && tables.previews[r.previewId].expiresAt < now
    case PreviewPriceDrift =>
      && OwnQuote(tables, r) && now <= tables.previews[r.previewId].expiresAt
      && Drifted(r.reprice, TenThousandths(tables.previews[r.previewId].estimate))
    case _ => false
  }

  /** The checks of the quote end with exactly the code that is due, or with none exactly
      when the quote stands. */
  lemma QuoteDecides(tables: Tables, r: Request, now: int)
    ensures QuoteProblem(tables, r, now).None? <==> QuoteStands(tables, r, now)
    ensures forall problem :: QuoteProblem(tables, r, now) == Some(problem) <==> QuoteRefuses(tables, r, now, problem)
  {
  }

  /** For a price of four decimals and the tenant's own column quote, without any decimal
      context: refused as expired past its moment, then as drifted more than a tenth away from
      a positive quote, and otherwise not at all. */
  lemma {:induction false} ColumnPriceDecides(tables: Tables, r: Request, now: int, price: int)
    requires OwnQuote(tables, r) && r.reprice == TenThousandths(price)
    requires tables.previews[r.previewId].estimate < TenToThe(12)
    ensures var quote := tables.previews[r.previewId];
      QuoteProblem(tables, r, now)
      == if quote.expiresAt < now then Some(PreviewExpired)
         else if quote.estimate > 0 && 10 * Distance(price, quote.estimate) > quote.estimate
           then Some(PreviewPriceDrift)
         else None
  {
    var quote := tables.previews[r.previewId];
    FourDecimals(price);
    FourDecimals(quote.estimate);
    if quote.estimate > 0 {
      DriftOfColumnPrices(price, quote.estimate);
    } else {
      NoDriftFromNothing(r.reprice, TenThousandths(quote.estimate), PRECISION);
    }
  }

  /** A quote that stands now stood at any earlier moment. */
  lemma EarlierQuote(tables: Tables, r: Request, started: int, now: int)
    requires started <= now && QuoteStands(tables, r, now)
    ensures QuoteStands(tables, r, started)
  {
  }

  function BooksOf(tables: Tables, ctx: Context, started: nat): Books {
    Books(tables.budgets, tables.ledger, Some(ctx.tenant), DayOf(started))
  }

  predicate BudgetAccepts(tables: Tables, r: Request, started: nat) {
    AssertBudget(BooksOf(tables, r.ctx, started), r.reprice, r.balance) == Accepted
  }

  /** The row the insert makes; `now()` is the transaction's start. */
  function NewRow(r: Request, id: Id, started: nat): Approval {
    Approval(id, r.tenant, r.location, Some(r.previewId), r.operation, r.approvedBy, started, r.key,
             Executing, None, None, None)
  }

  /** An amount fits `Numeric(12, 4)` when it does so rounded. */
  predicate Fits(amount: real) {
    -TenToThe(12) < StoredUnits(amount) < TenToThe(12)
  }

  /** Told from the amount alone: less than half a column unit under 10^8. */
  lemma FitsIff(amount: real)
    ensures Fits(amount) <==> -99999999.99995 < amount < 99999999.99995
  {
    assert TenToThe(4) == 10000 && TenToThe(8) == 100000000 && TenToThe(12) == 1000000000000;
  }

  /** The price as the update stores it must fit its column. */
  predicate CostFits(r: Request) {
    Fits(r.reprice)
  }

  /** The update goes through: the price fits its column and `jsonb` takes the result. */
  predicate UpdateFits(r: Request, result: Value) {
    CostFits(r) && Storable(result)
  }

  function MarkRow(row: Approval, r: Request, started: nat, result: Value): Approval {
    row.(status := Executed, executedAt := Some(started), cost := Some(StoredUnits(r.reprice)),
         result := Some(Stored(result)))
  }

  function FinalRow(r: Request, id: Id, started: nat, result: Value): Approval {
    MarkRow(NewRow(r, id, started), r, started, result)
  }

  /** `audit.write_card`: tenant, actor, label and role come from the session. */
  function WriteCard(ctx: Context, names: map<Id, string>, now: nat, location: Option<Id>, verb: string, action: string,
                     resourceType: string, resourceId: Option<Id>, approvalId: Option<Id>): Card
  {
    Card(ctx.tenant, location, now, ctx.actor, if ctx.actor in names then names[ctx.actor] else "system", ctx.role,
         verb, action, resourceType, resourceId, approvalId)
  }

  function ExecuteCard(r: Request, names: map<Id, string>, started: nat, id: Id): Card {
    WriteCard(r.ctx, names, started, r.location, "execute", "Executed " + r.operation, r.operation, Some(id), Some(id))
  }

  /** What the call itself returns: the price as given, the result as dispatched. */
  function FreshResponse(r: Request, id: Id, result: Value): Response {
    Response(id, Executed, Some(r.reprice), Some(result))
  }

  predicate SameKey(a: Approval, b: Approval) {
    a.tenant == b.tenant && a.key == b.key
  }

  /** The unique constraint on (tenant_id, idempotency_key) and the primary key. */
  ghost predicate UniqueRows(approvals: seq<Approval>) {
    forall i, j :: 0 <= i < j < |approvals| ==>
      !SameKey(approvals[i], approvals[j]) && approvals[i].id != approvals[j].id
  }

  /** The foreign key from a card to its approval. */
  ghost predicate CardsRefer(cards: seq<Card>, approvals: seq<Approval>) {
    forall i :: 0 <= i < |cards| && cards[i].approvalId.Some? ==>
      exists j :: 0 <= j < |approvals| && approvals[j].id == cards[i].approvalId.value
  }

  ghost predicate ValidTables(tables: Tables) {
    UniqueRows(tables.approvals) && CardsRefer(tables.cards, tables.approvals)
  }

  function CardCount(cards: seq<Card>, id: Id): nat {
    if cards == [] then 0
    else (if cards[0].approvalId == Some(id) then 1 else 0) + CardCount(cards[1..], id)
  }

  /** What a replay finds once the call's update went through, and nothing if it did not. */
  function ReplayAfter(r: Request, id: Id, started: nat, result: Value): Option<Response> {
    if UpdateFits(r, result) then Some(ReplayOf(FinalRow(r, id, started, result))) else None
  }

  /** A replay returns what the call returned exactly when the price fits its column with at
      most four decimals and the result is JSON-native without U+0000. */
  lemma ReplayIsFaithful(r: Request, id: Id, started: nat, result: Value)
    ensures ReplayAfter(r, id, started, result) == Some(FreshResponse(r, id, result))
       <==> CostFits(r) && r.reprice == TenThousandths(StoredUnits(r.reprice)) && Native(result) && Storable(result)
  {
    RoundTripIffNative(result);
  }
}
