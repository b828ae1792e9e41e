# Spend ladder, tenant isolation and key cache: a Dafny model

The backend lets a tenant spend money in three stages. A *preview* stores a priced quote with
advisory gates. *Execute* takes an idempotency key and a fresh price, checks the quote's age,
the price drift and the month's budget, claims the key in a unique column, dispatches, marks the
row executed and writes an audit card, all in one database transaction. All of it lives on a
multi-tenant PostgreSQL database whose row-level policies read the identity that
`tenant_context` binds to the transaction. One in-process cache keeps the token signing keys.

This project models that behaviour and proves what holds over every interleaving, every input and
every reachable state. `dafny verify dfyconfig.toml` checks all of it.

| module | models |
|---|---|
| `Decimal`, `PriceDrift` | Python's 28-digit half-even decimals and the execute-time drift check |
| `Calendar`, `Cost` | month windows, `cost.month_spend`, the ledger check, `cost.assert_budget`, the preview gates |
| `BudgetMirror` | the preview gates against the database check they mirror |
| `Json` | what survives `json.dumps(..., default=str)` into `jsonb` and back |
| `Ladder`, `LadderSession` | the ladder's rows; one transaction and the request boundary as classes updated in place |
| `LadderMachine`, `LadderHistory` | any number of `execute` transactions interleaved statement by statement; their history |
| `LadderChecks`, `LadderRefusals` | what every call had seen before it dispatched; the cause of every refusal |
| `LadderSafety`, `LadderReplay` | exactly-once, complete records, races and replays |
| `LadderRace` | races on one key against the winner's lone execution |
| `LadderEdges` | inputs at which the ladder decides otherwise than its text, with the exact conditions |
| `LadderBudget`, `LadderOvershoot` | how far concurrent executions can pass a monthly cap, and that the bound is attained |
| `Tenancy`, `Permits` | grants, policies in three-valued logic, triggers; what each role may do, statement by statement |
| `Isolation`, `SharedIsolation` | noninterference for one session and for interleaved ones, frames, location scope |
| `Audit` | the audit trail over overlapping transactions of all four database roles |
| `Connections` | `tenant_context` over pooled connections |
| `Jwks` | the signing-key cache: double-checked locking under a monotone clock |

## Conventions

- Money columns are whole numbers of their last place (0.0001 for `Numeric(12, 4)`, 0.01 for
  `Numeric(12, 2)`); Python decimals are exact reals and every rounding of the decimal context is
  written out. Times are microseconds on an arbitrary non-decreasing clock, days are UTC days.
- The transaction level is READ COMMITTED, since the session factory sets no other. An insert whose
  key an open transaction holds waits for it; it fails if the holder commits and may go on if the
  holder rolls back. A label of the machine that is not enabled changes nothing, so *every* list of
  labels is an interleaving and the theorems quantify over all of them. That the surroundings are
  free to move is shown in `LadderEdges.AnythingAround` and `Connections.PoolChanges`.
- Randomness (uuids, taken as fresh), clocks, the dispatch's result and the charges it records are inputs.
- `execute` itself writes no ledger row. The cap theorems therefore take as hypothesis, for the
  tenant and month in question, that each dispatch adds at most its price in the same transaction,
  that nothing else raises the month's spend, and that the month's budget stays
  (`LadderBudget.Orderly`).
- Any database error of the budget check is reported as an exceeded budget (label `DenyBudget`), and
  the interleaving model lets the insert fail for other integrity errors than the key (label `Refuse`).
- `JwksCache.get` never compares its `url`; the model has one.
- The migrator owns `audit.write_card` and is taken to bypass row-level security, as the superuser
  of the container setup does.

## Where the code decides otherwise than its text

The model follows the code in each of these. The member named shows the input or the exact condition.

- `execute`'s docstring says the loser of a race fails "rather than blocking". The insert waits
  exactly while an open transaction holds the key and fails exactly when a committed approval has it
  (`LadderEdges.ClaimDecides`; a run in which a call waits in `LadderEdges.SecondCallWaits`, with inputs in
  `LadderEdges.ScenarioCallsRace`).
- Every integrity error of the insert is reported as a duplicate key: a foreign key that names
  nothing as well as a taken key (`LadderSession.Session.ClaimAndDispatch`).
- On a key hit only the preview id is compared. Location, operation and approver are not
  (`LadderReplay.ReplayRoundTrip`).
- A preview is not consumed: any number of keys may execute one quote
  (`LadderOvershoot.CapBoundIsTight` does so).
- A quote that is zero or negative clears every price, and no other does (`PriceDrift.OnlyPositiveQuotesDrift`).
- The gates "mirror" the budget check up to 18 decimals and not beyond
  (`BudgetMirror.MirrorExactIffEighteen`).
- A tenth of margin is meant to cover the drift. With a reprice of more than 20 decimals it does not:
  the drift of 33,000,000 + 10^−21 from a quote of 30,000,000 is computed as exactly 0.10
  (`BudgetMirror.MarginExactIff`).
- A caller that catches the dispatch error inside the transaction commits an `executing` row, and
  nothing else does (`LadderSafety.RecordsCompleteIffNotSwallowed`).
- A price outside `Numeric(12, 4)`, a result with U+0000 in it, or a session role outside the enum
  is discovered only after the dispatch; the transaction then rolls back although the dispatch
  happened (`LadderEdges.LoneCallCommitsIff`).
- A member whose assignments all hang on non-active memberships counts as unassigned, and so sees
  every location of the tenant (`Isolation.ScopeNarrowsIffActive`).

## Model

| member | source | states |
|---|---|---|
| Decimal.RoundKeepsOrder | app/services/approval_ladder.py:204-207 | a result of the decimal context never crosses a number the context can represent, in either direction and for any precision |
| Decimal.RoundError | app/services/approval_ladder.py:204-207 | rounding a positive number to p digits moves it by at most half a unit in its last place |
| Decimal.RoundsTo | app/services/approval_ladder.py:204-207 | a number less than half a unit from a representable one of its magnitude is rounded to it; the reason drifts and sums can vanish |
| Decimal.RoundIsNearest | app/services/approval_ladder.py:204-207 | in units of the p-th digit the rounded number is the nearest integer, the even one of two; negative numbers round as their opposites |
| PriceDrift.WithinToleranceClears | app/services/approval_ladder.py:204-207 | a reprice of any number of digits within a tenth of the quote is never refused for drift |
| PriceDrift.BeyondToleranceDrifts | app/services/approval_ladder.py:204-207 | a reprice of any number of digits one column unit or more beyond a tenth is always refused |
| PriceDrift.DriftDecisionIsExact | app/services/approval_ladder.py:204-207 | on whole column units the rounded decision equals the exact one, 10·\|r−b\| > b, for every precision p and 0 < b < 10^(p−1) |
| PriceDrift.DriftOfColumnPrices | app/services/approval_ladder.py:25-25 | at 28 digits this covers every positive quote a `Numeric(12, 4)` column holds |
| PriceDrift.DriftDecisionExactIff | app/services/approval_ladder.py:204-207 | for a quote b of up to p+1 digits the decision at p digits is exact for every reprice if and only if b < 2·10^(p−1)·(10 − b mod 10); past that bound the first distance beyond a tenth is let through |
| PriceDrift.RoundPastTenth | app/services/approval_ladder.py:204-207 | a quotient is rounded above 0.10 if and only if it exceeds it by more than half a unit of the last digit; the tie goes down |
| PriceDrift.StoredCostNearQuote | app/services/approval_ladder.py:204-252 | the stored cost c of a cleared price satisfies 10·\|c−b\| ≤ b+5 in column units, and ≤ b when the price had at most four decimals |
| PriceDrift.OnlyPositiveQuotesDrift | app/services/approval_ladder.py:205-206 | among column quotes those that are zero or negative, and no other, clear every price |
| Calendar.WindowsAbut | migrations/versions/0004_audit_and_cost.py:353-363 | each month window ends on the day the next begins, through leap years, centuries and year ends |
| Calendar.WindowIsUnique | migrations/versions/0004_audit_and_cost.py:353-363 | first-of-month windows partition the days: a day is in exactly one |
| Calendar.AddMonthToFirst | migrations/versions/0004_audit_and_cost.py:361-362 | one month after the first of a month is the first of the next, although month addition clamps |
| Calendar.WindowOfTrunc | migrations/versions/0004_audit_and_cost.py:354-362 | the half-open window that truncation and `+ 1 month` bound holds exactly the days of the current month |
| Calendar.MonthsWithinYear | migrations/versions/0004_audit_and_cost.py:353-362 | the months of a year begin 0, 31, 59, 90, ... 334 days after its first day, and one later from March on when its number is divisible by 4 and not by 100, or by 400 |
| Calendar.MonthStartIsCivil | migrations/versions/0004_audit_and_cost.py:353-362 | every month's first day by the closed formula over years counted from March, 365y + ⌊y/4⌋ − ⌊y/100⌋ + ⌊y/400⌋ + ⌊(153k + 2)/5⌋ − 306, which has no month lengths in it |
| Calendar.AddMonthClamps | migrations/versions/0004_audit_and_cost.py:361-362 | one month on is the same day of the next month, or that month's last day when it has no such day |
| Calendar.GregorianCycle | migrations/versions/0004_audit_and_cost.py:353-363 | month starts repeat every 400 years, which are whole weeks: an independent check of the leap rule |
| Cost.SumCostsAnyOrder | migrations/versions/0004_audit_and_cost.py:357-358 | a month's sum does not depend on the order of the rows |
| Cost.MonthsAddUp | migrations/versions/0004_audit_and_cost.py:353-363 | the month spends of consecutive months add up to everything billed in the span, in any row order |
| Cost.MonthSpendNearExact | migrations/versions/0004_audit_and_cost.py:125-128 | the month's spend differs from the unrounded units times unit cost by at most 0.00005 per billed row |
| Cost.FindBudget | migrations/versions/0004_audit_and_cost.py:374-381 | a budget is found if and only if the tenant has one for the month, and it is that tenant's and month's |
| Cost.BudgetTells | migrations/versions/0004_audit_and_cost.py:374-398 | no budget exactly when the tenant has none for the calendar month; otherwise the first cap or floor the price breaks, in exact numbers, if it breaks any |
| Cost.CountsInMonth | migrations/versions/0004_audit_and_cost.py:357-362 | a row counts towards the spend if and only if it is the tenant's, billed, and dated in today's calendar month |
| Cost.LedgerMathTells | migrations/versions/0004_audit_and_cost.py:125-128 | a row passes the check if and only if it is plan credits or its cost is units times unit cost rounded to the nearest ten-thousandth, ties away from zero |
| Cost.EvaluateGates | app/services/approval_ladder.py:132-167 | the list is a single failing gate without a budget; otherwise run cap, month cap and, given a balance, floor, in that order and with those outcomes |
| BudgetMirror.PassesIffAccepted | app/services/approval_ladder.py:71-71 | for costs and balances of at most 18 decimals, all gates pass if and only if the database would accept the same cost and balance: missing budget, soft stop and absent balance included |
| BudgetMirror.MirrorFailsAtNineteen | app/services/approval_ladder.py:150-152 | at any scale above 18 decimals there is a budget, a spend and a cost the preview passes and the database refuses |
| BudgetMirror.MirrorExactIffEighteen | app/services/approval_ladder.py:115-120 | the mirror is exact on all inputs of s decimals if and only if s ≤ 18 |
| BudgetMirror.FewerChargesSpendLess | migrations/versions/0004_audit_and_cost.py:357-362 | removing non-negative charges, wherever they stand, never raises a month's spend |
| BudgetMirror.AcceptanceSurvives | migrations/versions/0004_audit_and_cost.py:374-398 | an accepted cost stays accepted at a lower price and after removing non-negative charges |
| BudgetMirror.ClearedPriceIsBounded | app/services/approval_ladder.py:204-207 | a cleared reprice of up to 20 decimals is at most 1.1 times the quote, for every positive column quote |
| BudgetMirror.MarginCoversDrift | app/services/approval_ladder.py:204-215 | if the gates pass for 1.1 times a positive quote, every reprice of at most 20 decimals that clears the drift check is accepted on unchanged books, given a balance of at most 18 decimals or none |
| BudgetMirror.MarginFailsForPrice | app/services/approval_ladder.py:204-215 | at any scale above 20 decimals there is a quote and a reprice that clears the drift check and is refused although the gates passed for 1.1 times the quote: 30,000,000 and 33,000,000 + 10^−21 |
| BudgetMirror.MarginFailsForBalance | app/services/approval_ladder.py:158-166 | at any balance scale above 18 decimals the floor gate passes on a rounded difference and the accepted reprice is refused |
| BudgetMirror.MarginExactIff | app/services/approval_ladder.py:204-215 | the margin of a tenth covers every drift on all inputs if and only if reprices have at most 20 decimals and balances at most 18 |
| Json.RoundTripIffNative | app/services/approval_ladder.py:249-249 | a dispatch result can be stored and is read back unchanged if and only if it is built from JSON's own types and holds no U+0000, which `jsonb` refuses |
| Json.ReadBackTells | app/services/approval_ladder.py:249-249 | a value is refused if and only if some text in it has a U+0000; otherwise exactly this comes back: lists for lists and tuples item by item, dicts key by key, the text of any other object, and every other value itself |
| Ladder.FindExisting | app/services/approval_ladder.py:298-322 | an approval is found if and only if the session sees one of this tenant and key |
| Ladder.QuoteDecides | app/services/approval_ladder.py:198-207 | on the stored preview's own fields: not found if and only if none has this id, tenant and operation; expired if and only if there is one and its moment has passed; drifted if and only if it lives and the price is off; no problem if and only if none of these |
| Ladder.ColumnPriceDecides | app/services/approval_ladder.py:198-207 | for four-decimal prices and column quotes, in whole units: expired first, then drifted if and only if the quote b is positive and 10·\|r−b\| > b |
| Ladder.DayHolds | migrations/versions/0004_audit_and_cost.py:376-376 | the budget's date is the day of 24 hours the transaction began in |
| Ladder.FitsIff | migrations/versions/0005_approval_ladder.py:76-76 | an amount fits its column if and only if it is less than half a column unit under 10^8 |
| Ladder.ReplayIsFaithful | app/services/approval_ladder.py:241-322 | a replay finds the original response if and only if the price fits its column with at most four decimals and the result is JSON-native without U+0000 |
| LadderMachine.UniqueStep | migrations/versions/0005_approval_ladder.py:87-88 | each statement of each transaction keeps all committed and pending rows apart in key and id |
| LadderMachine.UniqueRun | migrations/versions/0005_approval_ladder.py:87-88 | and so does every interleaving |
| LadderHistory.OnlyCommitsWrite | app/db/rls.py:30-43 | inside a transaction only its commit changes the tables others see |
| LadderHistory.ExtendsRun | app/services/approval_ladder.py:217-252 | no interleaving removes or rewrites a committed approval, or a stored quote other than its expiry |
| LadderHistory.AllOkRun | app/services/approval_ladder.py:192-269 | at every moment each call's phase agrees with its request and the tables: quote held, rows exactly as written, dispatches counted, replays from committed rows |
| LadderHistory.SerialRun | app/services/approval_ladder.py:217-262 | approvals and cards are always the initial ones followed by what the committed calls wrote, in commit order; open and rolled-back calls left nothing |
| LadderChecks.NoDispatchUnchecked | app/services/approval_ladder.py:192-239 | every call that ever dispatched, rolled back or not, had itself in this order found no stored approval, found its own quote unexpired and within drift, been accepted by the budget check, and claimed a key nobody had |
| LadderRefusals.LookupDecides | app/services/approval_ladder.py:192-196 | in every interleaving the lookup goes on if and only if nothing is stored under the key; it replays id, status, cost and result of what is stored for the same preview and refuses the key for another one |
| LadderRefusals.NextStatementDecides | app/services/approval_ladder.py:192-262 | in every interleaving a call's next statement ends it with a code if and only if it sees that code's cause on the rows; a load passes if and only if the quote stands |
| LadderRefusals.EveryRefusalHasItsCause | app/services/approval_ladder.py:192-262 | every call that was rolled back with a code had a statement that saw the code's cause |
| LadderSafety.ExactlyOnce | app/services/approval_ladder.py:192-239 | per tenant and key: at most one committed approval, at most one open transaction past the insert, never both, and dispatches are those of rolled-back calls plus one if a call is past dispatch or committed |
| LadderSafety.RecordsCompleteIffNotSwallowed | app/services/approval_ladder.py:217-262 | a committed call's approval is executed, with time, cost, result and exactly one card, if and only if its caller never caught the dispatch error inside the transaction |
| LadderSafety.RecordsSayWhatTheCallSaid | app/services/approval_ladder.py:217-262 | a committed execution's approval is in the tables with the call's tenant, key, quote, location, operation and approver; when finished, with the rounded price and the result as JSON keeps it, and a card with the session's tenant, actor, role, the actor's profile name ("system" exactly without one) and the action; when its dispatch error was swallowed, unfinished |
| LadderSafety.RecordsWhenExceptionsLeave | app/deps.py:55-62 | when exceptions leave the context, every committed execution is complete with exactly one card, every approval and card beyond the first ones is one of theirs, and no statement of a call that failed has changed any table |
| LadderSafety.FailedCallWritesNothing | app/db/rls.py:30-43 | in every interleaving a statement of a call that never commits leaves approvals, cards, ledger and all other tables as they were |
| LadderSafety.EveryCardHasItsApproval | migrations/versions/0005_approval_ladder.py:91-94 | every card that names an approval has that approval in the table, in every interleaving |
| LadderSafety.CommittedCostNearQuote | app/services/approval_ladder.py:198-252 | every committed execution refers to a stored preview of its tenant and operation, and its cost is within a tenth of a positive quote up to column rounding |
| LadderEdges.ClaimDecides | app/services/approval_ladder.py:217-237 | in every interleaving the insert of a call past its checks waits exactly while an open transaction holds the key, fails exactly when a committed approval has it, goes through exactly when neither does; never both, and the holder is the only one |
| LadderEdges.SecondCallWaits | app/services/approval_ladder.py:185-190 | two calls with one request: the second insert waits while the first is open, and goes through when it rolls back |
| LadderEdges.SecondCallFails | app/services/approval_ladder.py:185-190 | when the first commits, the waiting insert fails as a duplicate |
| LadderEdges.LoneCallCommitsIff | app/services/approval_ladder.py:239-262 | a lone call that clears every check commits if and only if its price and result can be stored and its role is an actor role; otherwise it has dispatched and everything is rolled back |
| LadderReplay.WriteSteps | app/services/approval_ladder.py:217-262 | a call past the checks with a free key and a storable result commits exactly its row, charges and card, next to anything else going on |
| LadderReplay.SoloRun | app/services/approval_ladder.py:192-269 | a call that clears every check, with a price and a result the update can store, and has the database to itself commits exactly its final row, charges and card |
| LadderReplay.WinnerTakesAll | app/services/approval_ladder.py:192-239 | once a call has committed, no rival on its key has a row; a rival that succeeds is handed the winner's stored response for the same preview, and one the ladder refuses never dispatched |
| LadderRace.RaceIsWinnerAlone | app/services/approval_ladder.py:185-239 | however calls on one key interleave, either nothing is committed and the tables are the first ones, or the tables are exactly those the winner leaves when it runs alone from them, and every other call has no row and, if it succeeded, the winner's stored response |
| LadderReplay.ReplayRoundTrip | app/services/approval_ladder.py:192-196 | after a commit and any further history, a call with the same tenant, key and preview is handed the stored response and commits with no dispatch, approval or card |
| LadderReplay.ReplayEqualsOriginal | app/services/approval_ladder.py:241-269 | in every run the stored response equals the original one if and only if price and result round-trip |
| LadderReplay.ReplayTells | app/services/approval_ladder.py:241-322 | field by field what a replay of any committed execution hands back, next to what the call returned: same id and status, the price to the column, the result as JSON keeps it; of a swallowed dispatch error an executing row without cost and result |
| LadderBudget.CapRun | app/services/approval_ladder.py:209-215 | in every orderly interleaving, spend plus what is pending stays within the cap and k−1 further runs |
| LadderBudget.MonthlyCapBound | migrations/versions/0004_audit_and_cost.py:388-392 | with at most k of a tenant's executions of a month pending at once the month's committed spend passes a hard-stop cap by at most k−1 per-run caps, with k = 1 never; prices of any sign and digits, other tenants free |
| LadderOvershoot.CapBoundIsTight | app/services/approval_ladder.py:209-239 | for every k, moment, run cap and month cap of at least the run cap an orderly interleaving, all on one quote, attains the bound exactly |
| LadderSession.Session.CreatePreview | app/services/approval_ladder.py:48-106 | a quote is stored, whether or not the gates pass, exactly when it is the session's tenant's, fits its column and its foreign keys hold; rounded to its column, expiring 15 minutes on the clock later, with the gates of the current books and `passes` true exactly when all of them pass; up to 18 decimals that is exactly when the budget check would accept it |
| LadderSession.Session.InsertApproval | migrations/versions/0005_approval_ladder.py:83-88 | the insert succeeds if and only if its foreign keys name something and the tenant has no row with the key, and then appends exactly that row |
| LadderSession.Session.MarkExecuted | app/services/approval_ladder.py:241-252 | exactly the rows with the id are marked, all others are unchanged |
| LadderSession.Session.ClaimAndDispatch | app/services/approval_ladder.py:217-269 | when the insert fails, by its key or a foreign key: a duplicate, no dispatch and no change; otherwise the row left by a raising dispatch, the row, charges and card of a returning one, and when it fails after all |
| LadderSession.Session.Execute | app/services/approval_ladder.py:192-269 | replay, refusal with the code due on the stored preview's fields, duplicate when a rival committed the key since the lookup or a foreign key fails, or the writes of an admitted call: one of the four for every input |
| LadderSession.Database.Handle | app/deps.py:55-62 | whatever rivals commit meanwhile: a failed call leaves all tables as they and the rivals had them, unless the caller catches the dispatch error, which leaves exactly the executing row and its charges; a success adds exactly its writes, those of the interleaving model's lone call |
| Isolation.ExecAgrees | migrations/versions/0002_roles_and_functions.py:187-282 | one statement of a tenant role on two databases that agree on its tenant returns the same, fails the same (constraints aside) and keeps them agreeing |
| Isolation.ExecIsFramed | migrations/versions/0002_roles_and_functions.py:127-154 | one statement of a tenant role changes no row and no assignment outside its tenant |
| Isolation.Noninterference | migrations/versions/0005_approval_ladder.py:100-144 | whatever an adaptive client does, its successful statements show it the same on both databases, which still agree |
| Isolation.OtherTenantsUntouched | migrations/versions/0004_audit_and_cost.py:190-249 | over whole sessions no row or assignment of another tenant changes |
| SharedIsolation.OthersMakeNoDifference | migrations/versions/0002_roles_and_functions.py:187-282 | however sessions of any tenants interleave statement by statement, with adaptive clients, what one tenant's sessions are told and own is what it would be with the other tenants' statements removed |
| SharedIsolation.OtherStatement | migrations/versions/0002_roles_and_functions.py:127-154 | a statement of another tenant's session changes nothing any session of this tenant can tell |
| SharedIsolation.AloneIsInARow | migrations/versions/0002_roles_and_functions.py:187-282 | a session with the database to itself is told and leaves what its statements give when run in a row, up to the first that is refused |
| Isolation.ScopeSeesThroughPolicies | migrations/versions/0002_roles_and_functions.py:101-126 | `can_read_location`, evaluated under the caller's own policies, answers as on the unfiltered tables |
| Isolation.VisibleLocations | migrations/versions/0003_location.py:167-171 | the API role sees exactly its tenant's locations in scope: all for an operator or with no assignment, else the assigned ones |
| Isolation.ScopeNarrowsIffActive | migrations/versions/0002_roles_and_functions.py:108-114 | a member assigned to one of two locations sees the other one exactly when the membership is not active |
| Isolation.UnboundSeesNothing | migrations/versions/0002_roles_and_functions.py:187-202 | without a bound tenant no tenant role sees a row of any tenant table |
| Permits.QueryDecides | migrations/versions/0002_roles_and_functions.py:47-66 | each role is given exactly the rows listed for its table, tenant, actor and scope; only the worker is refused, on five tables |
| Permits.InsertDecides | migrations/versions/0005_approval_ladder.py:127-131 | a row goes in, stamped with the tenant, if and only if the role writes the table (API: eight tables, worker: cards and ledger), a tenant is bound and the row names none or that one; the error otherwise |
| Permits.UpdateDecides | migrations/versions/0005_approval_ladder.py:132-137 | only the API role updates; it replaces exactly the tenant's rows asked for, and fails as a whole if and only if one would leave the tenant or be hidden |
| Permits.DeleteDecides | migrations/versions/0005_approval_ladder.py:138-142 | only the API role deletes, exactly the tenant's rows asked for; a membership takes its assignments along |
| Permits.PairsDecide | migrations/versions/0002_roles_and_functions.py:219-237 | assignments are read by all roles but the worker and added by the API role alone, exactly those of the tenant's own memberships |
| Permits.PairUpdateDecides | migrations/versions/0002_roles_and_functions.py:238-251 | an assignment moves if and only if it hangs on an own membership before and after |
| Permits.PairDeletionDecides | migrations/versions/0002_roles_and_functions.py:252-259 | exactly the own assignments asked for are deleted |
| Permits.OnlyMembershipClashes | migrations/versions/0002_roles_and_functions.py:127-154 | of the constraints modelled only a taken membership id objects to a row that is let in |
| Permits.MigratorInserts | migrations/versions/0002_roles_and_functions.py:127-132 | the migrator's rows go in as given, for any tenant, unless a constraint objects |
| Permits.MigratorDeletes | migrations/versions/0004_audit_and_cost.py:289-306 | the migrator deletes exactly the rows asked for, except that a statement that reaches a card fails |
| Permits.MigratorUpdates | migrations/versions/0004_audit_and_cost.py:289-306 | the migrator updates every row asked for, except that a statement that reaches a card fails |
| Permits.CardDecides | migrations/versions/0004_audit_and_cost.py:321-347 | `write_card` adds exactly one card, the session's own, if and only if the role may call it, a tenant is bound and the session's role is one of the five; the error otherwise |
| Audit.UpdateKeepsCards | migrations/versions/0004_audit_and_cost.py:289-306 | an update of cards gets through, for any role, only when it reaches none, and every update leaves the cards as they were |
| Audit.StatementKeepsCards | migrations/versions/0004_audit_and_cost.py:280-306 | no statement of any role removes or changes a card, and a card that appears is accounted for by that statement |
| Audit.CardCarriesItsActor | migrations/versions/0004_audit_and_cost.py:321-337 | a card from `write_card` carries the session's tenant, actor and role and the actor's own name, or "system" |
| Audit.AppendOnlyHistory | migrations/versions/0004_audit_and_cost.py:300-306 | whatever overlapping transactions of the four roles do later, every committed card survives unchanged |
| Audit.EveryCardIsExplained | migrations/versions/0004_audit_and_cost.py:280-337 | in every interleaving of statements, commits and rollbacks, a card beyond the first ones stems from a statement of a committed transaction in its own session |
| Audit.EveryWriteIsKept | app/services/audit.py:17-48 | conversely, every successful `write_card` of a committed transaction has its card, with that session's identity, among the committed ones, whatever else overlapped |
| Audit.AllOrNothing | app/db/rls.py:30-43 | a transaction left alone commits exactly what its statements make of the tables one after another; if one is refused, or it rolls back, nothing |
| Audit.ApiCardsCarryTheSession | migrations/versions/0004_audit_and_cost.py:279-341 | when only the API role writes, each new card carries tenant, actor and role of the session that wrote it |
| Connections.CleanIsUnbound | migrations/versions/0002_roles_and_functions.py:69-92 | missing settings and the empty ones a past transaction leaves both read as nobody |
| Connections.IdentifiedIsBound | app/db/rls.py:31-42 | the three local settings bind exactly the context, whatever the connection held before |
| Connections.CastDecides | migrations/versions/0002_roles_and_functions.py:69-84 | a setting that is missing or empty is nobody's id, a uuid's text is that uuid, and any other text fails the statement |
| Connections.RunKeepsInv | app/db/rls.py:28-43 | every interleaving keeps connections exclusive, pooled ones clean and each task's binding its own |
| Connections.BindingIsExact | app/db/rls.py:28-43 | inside `tenant_context` the bound tenant, actor and role are exactly those of the context entered; before the binding and outside they are nobody's |
| Connections.AnswersCarryTheirTenant | migrations/versions/0002_roles_and_functions.py:199-202 | every row returned to a task of a tenant role carries the identity of its context; outside of one there is none |
| Connections.ContextGoesThrough | app/db/rls.py:28-43 | in every run a task that takes a free connection gets inside its context, reads exactly the rows its identity may see, and leaves the connection free and clean; nobody else is touched |
| Connections.PlainGoesThrough | migrations/versions/0002_roles_and_functions.py:69-92 | a transaction opened outside any context gives a tenant role no row at all and leaves the connection free and clean |
| Connections.Session.EnterTenantContext | app/db/rls.py:28-43 | refused with nothing changed in an open transaction; otherwise begun and bound exactly |
| Connections.Session.ExitTenantContext | app/db/rls.py:30-43 | after commit or rollback nobody is bound |
| Jwks.OneFetchInFlight | app/core/security.py:62-71 | at most one fetch is in flight, and the lock is held exactly while one is, after failures and cancellations too |
| Jwks.QuietAfterStore | app/core/security.py:58-71 | no fetch begins or succeeds within the lifetime of an earlier success |
| Jwks.ReturnsAreFresh | app/core/security.py:58-71 | every key set handed out is non-empty and was stored by that call's own fetch or is the last one stored and unexpired |
| Jwks.CacheOutlivesFailures | app/core/security.py:66-70 | failed, empty and cancelled fetches leave the cache as the last success made it |
| Jwks.CancelledLeaves | app/core/security.py:62-66 | a caller that is cancelled leaves, with the lock free if it held it and the cache as it was |
| Jwks.FetchRate | app/core/security.py:69-70 | a window of length L holds at most ⌊L/ttl⌋ + 1 successful fetches |
| Jwks.LockedHalfIsSteps | app/core/security.py:62-71 | the locked half, run to its end, is the machine's steps: same cache, free lock, same answer |
| Jwks.FastPathServesLastStore | app/core/security.py:59-61 | in every interleaving the unlocked check hands out the last stored keys, never empty, exactly while they are younger than a lifetime |
| Jwks.FastPathIsStep | app/core/security.py:58-62 | the unlocked check is the machine's step: served where it serves, sent to the lock where it waits |
| Jwks.JwksCache.RefreshLocked | app/core/security.py:62-71 | the locked half always frees the lock, returns non-empty keys that are now cached, or fails and changes nothing |
| Jwks.Fetch | app/core/security.py:79-85 | succeeds if and only if the document is well shaped; files exactly the entries with a text `kid`, the last of several under it |

## Left out

- LadderOvershoot.CapBoundIsTight: covers run caps up to the month cap. A larger run cap is as good as the month cap while nothing is credited, and tightness is not claimed for it.
- Isolation.Noninterference: is stated over successful statements, because primary keys, unique keys and foreign keys span tenants and a constraint error can depend on another tenant's rows. Of the constraints only membership's primary key and the assignment's foreign key are modelled, the two that isolation needs.
- Isolation.OtherTenantsUntouched: covers rows a statement targets. Cascades from a deleted location, and from a deleted tenant, are not part of this model; deleting a membership takes its assignments along.
- Isolation.ExecAgrees: inserts one row at a time; a multi-row insert is several statements.
- Audit.AppendOnlyHistory: covers row operations. TRUNCATE and schema changes by the migrator are outside row triggers and outside this model.
- Audit.CardCarriesItsActor: takes the card's id as given; the identity sequence is shared by all tenants.
- LadderBudget.MonthlyCapBound: its hypotheses on ledger and budget are those under Conventions; `execute` alone does not establish them.
- LadderRace.RaceIsWinnerAlone: is about calls on one key and nothing else; a run that also edits budgets, ledger or previews, or executes other keys, has other effects than the winner's.
- PriceDrift.DriftDecisionExactIff: stops at quotes of p+1 digits, where the condition stops being the exact one; no column quote has more than 12 of 28.
- SharedIsolation.OthersMakeNoDifference: every statement commits by itself, a refused one changes nothing, and no constraint refuses a statement of the tenant, since a constraint error can depend on another tenant's rows.
- LadderSession.Session.ClaimAndDispatch: says nothing of the rows after a database error, which aborts the transaction; `LadderSession.Database.Handle` says they are rolled back.
- Several `execute` calls inside one transaction: the interleaving model has one call per transaction, the `LadderSession.Session` class can be called repeatedly.
- Approvals changed other than by `execute`, which the API role's grants would permit.
- `params`, `units`, `detail`, `error` and the gates' detail strings, the card's `simulated` flag and request id: opaque or absent.
- Time zones and daylight saving: dates are UTC days. JSON floats, unpaired surrogates, NaN and infinite decimals.
- The text form of uuids: rendering and casting back is taken as exact.
- The HTTP download of the keys and the checking of tokens, routing, middleware, settings, location schemas and pagination, health probes, and the migrations' upgrade and downgrade as a round trip: library plumbing or easy members.
