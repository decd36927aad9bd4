# Point-of-sale write path: model and proofs

A Dafny model of the write path of the multi-tenant point-of-sale backend: the sale core and its idempotency rule, held
orders, shift close, the stock ledger, and the smaller state machines around them (offline sync, PIN lockout,
refresh-token rotation, modifier-group assignment), with the summaries and reports computed from the same tables. One
`Store` datatype (module `Schema`) holds the tables, so conservation, exactly-once, replay, summary and report theorems
all speak about the same states.

## How it is built

- **Decisions.** `Pricing`, `Core` and `HeldOrders` say, from what a transaction has read, whether it is rejected,
  answered from a stored row, or writes, with the program's branch order and error codes. `SameRequest`, `Json` and
  `Sorting` are the idempotency arbiter down to the canonical text it compares.
- **Calls.** `Database` is the services as statements over tables updated in place: loops, partial writes and rollback.
  Each call is proved to commit one ledger event or to leave every table as it was, and to answer what `Solo` says.
  `PricingLoops`, `Shifts`, `Sync`, `CatalogWrites` and `PinLockout` have the other loops and row updates.
- **Outcomes.** `Access`, `Cart`, `Checkout`, `Holding`, `Converting` and `Shiftwork` say from the rows alone, without any of the
  decisions above, when each call succeeds, exactly what it stores, and why it is refused, and prove that `Solo` answers so.
- **Committed histories.** `Ledger` has one event per kind of commit with its guard and effect, and the invariant `Inv`.
  `History`, `Replays`, `Estimates` and `Reports` prove theorems over every history.
- **Interleavings.** `Transactions` runs the same transactions statement by statement, concurrently and with retries.
  `Interleaving` proves that every reachable database is the fold of the committed events, so every theorem about
  histories holds of every interleaving. `Alone` proves that a transaction nobody disturbs is the call of `Database`.
- **Repetitions.** `Resubmission` proves, over histories and over interleaved runs, that what succeeded once is answered
  again and never written again.

## Isolation assumptions of the interleaved machine

- READ COMMITTED: each statement sees the latest committed state and the transaction's own writes.
- Updated, inserted and `FOR UPDATE` rows, and the unique-index entries they occupy, stay locked until commit or abort; a
  statement that needs such a row waits.
- A conversion and an open-shift attempt read one snapshot; updating a row that changed since then is a serialization
  failure. Change is detected by comparing row values, so the machine admits at least the runs PostgreSQL admits. No
  further conflict detection of the Serializable level is assumed.
- Generated ids are fresh. Any transaction may abort at any moment, for any reason, and leaves nothing behind.
- A transaction that is going to be rejected issues its remaining reads and locks first; a rejection writes nothing, so
  only the time at which it happens differs.
- The initial database satisfies `Ledger.Inv`. Administration (users, outlets, catalog, tax settings) may change
  anything it likes between statements within the column and key constraints.

## Model

| member | source | states |
|---|---|---|
| Interleaving.Refines | src/transactions/transactions.service.ts:190-221 | in every state of every run of concurrent, retried, aborted transactions the database is the fold of the events committed so far, each allowed by the database it met: failures, retries and waits leave no trace |
| Interleaving.StatementKeeps | src/held-orders/held-orders.service.ts:266-402 | any single statement of any transaction keeps what the transaction knows (locks held, buffered writes, reads that must still hold) |
| Interleaving.Framed | src/held-orders/held-orders.service.ts:472-484 | another transaction's commit on rows this one has not locked leaves this one exactly as able to commit as before |
| Interleaving.ClosedShiftsStayClear | src/shifts/shifts.service.ts:157-217 | in every interleaving no committed state has a closed session with an open held order that originated from it |
| Interleaving.ConversionsCommitOnOpenSessions | src/held-orders/held-orders.service.ts:335-396 | a first-time conversion commits while its origin session is open, at the version it expected, and submits that version's lines; the rows of the sale it writes read back as those lines, in order |
| Interleaving.SuccessReportsStoredSale | src/transactions/transactions.service.ts:190-221 | a sale or conversion that succeeded did so within three attempts and reports its own sale: stored under its tenant and key, it passes the arbiter against the checkout's request, or is linked from the CONVERTED order and was sold by the caller for the request's payment |
| Interleaving.SameKeySameSale | prisma/schema.prisma:436 | two successes for one key, of any two jobs in one run, report the same sale |
| Alone.SaleAlone | src/transactions/transactions.service.ts:399-765 | a sale transaction of the machine that nobody disturbs gives the same event or rejection as the call |
| Alone.ConvertAlone | src/held-orders/held-orders.service.ts:266-402 | the same for a conversion |
| Alone.HoldAlone | src/held-orders/held-orders.service.ts:60-88 | the same for creating a held order, session lock included |
| Alone.EditAlone | src/held-orders/held-orders.service.ts:128-168 | the same for an update |
| Alone.CancelAlone | src/held-orders/held-orders.service.ts:170-188 | the same for a cancellation |
| Alone.OpenAlone | src/shifts/shifts.service.ts:53-101 | the same for opening a shift |
| Alone.CloseAlone | src/shifts/shifts.service.ts:125-228 | the same for closing a shift, summary included |
| Alone.AdjustAlone | src/stock/stock.service.ts:31-125 | the same for a stock adjustment |
| Alone.ConflictsEnd | src/transactions/transactions.service.ts:190-221 | an attempt that meets a conflict starts over with nothing held, twice at most for sales, conversions and shifts, and then asks for a retry; other calls fail at once |
| LedgerFacts.EventKeeps | src/transactions/transactions.service.ts:644-757 | every kind of commit keeps the whole invariant: money, unique keys, one open shift per user, non-negative stock, held-order headers and links |
| History.InvariantAlways | src/transactions/transactions.service.ts:644-757 | the invariant holds after every committed history |
| History.ClosedShiftsHaveNoOpenOrders | src/shifts/shifts.service.ts:175-217 | after every committed history a closed session has no open order of its own |
| History.StockIsTheSumOfMovements | src/transactions/transactions.service.ts:704-745 | after any history every balance is non-negative and equals its initial value plus the sum of all movements appended since, sales and adjustments together |
| History.EventConserves | src/stock/stock.service.ts:71-121 | each commit changes a balance by exactly the signed quantities of the movements it appends, and removes no movement |
| History.ExactlyOnce | src/transactions/transactions.service.ts:413-422 | any two successes for one key report the same sale, and the later one wrote nothing |
| History.StockTakenOnce | src/transactions/transactions.service.ts:715-745 | whatever follows, the movements that refer to a sale are exactly those of its own single write |
| History.VersionDeterminesRow | src/held-orders/held-orders.service.ts:151-187 | versions never fall, a version determines the whole row, and CANCELLED and CONVERTED are absorbing |
| History.EventAdvances | src/held-orders/held-orders.service.ts:151-163 | each successful update, cancel or conversion finds the order open at the expected version and leaves the next one |
| History.OneSuccessPerVersion | src/held-orders/held-orders.service.ts:360-365 | at most one request succeeds per order and version |
| History.ConvertedIffLinked | src/held-orders/held-orders.service.ts:387-396 | an order is CONVERTED exactly when it links to a stored completed sale, which is this order's: tenant, outlet, session, cashier and bag of lines |
| History.ConversionSubmitsItsVersion | src/held-orders/held-orders.service.ts:367-382 | a conversion submits exactly the lines committed at the version it expected, whatever was committed in between; the rows of the sale it writes read back as those lines in order, and a sale found stored has them as a bag |
| History.HeadersAgree | src/held-orders/held-orders.service.ts:544-592 | in every reachable state the estimates are the sums over the rows, which are numbered 0..n-1 |
| Replays.StoredKeyDecides | src/transactions/transactions.service.ts:413-422 | once a key is stored, a well-formed request of an authorised caller is a replay exactly when seller, outlet, session, customer, discount, tender and lines agree with the stored rows, else a mismatch; catalog, stock, session state and outlet state do not matter |
| Replays.ReplayedTender | src/transactions/transactions.service.ts:803-824 | a stored cash sale is replayed only for the amount that was handed over, any other only without cash fields |
| Replays.RepetitionReplays | src/transactions/transactions.service.ts:413-422 | a committed sale answers exactly the later repetitions of its request, lines and options in any order, at any later state of the history; any other request under its key is a mismatch |
| Replays.ConvertedReplaysExactly | src/held-orders/held-orders.service.ts:282-333 | checking out a converted order replays its linked sale exactly when the key is the sale's, the caller is the order's cashier and method and cash amount are the sale's, and never writes |
| Replays.StoredAnswersLater | src/transactions/transactions.service.ts:413-422 | a sale stored as the answer to a request stays so, and answers exactly the repetitions of it, at every later state of any history |
| Replays.RedeemedAnswersLater | src/held-orders/held-orders.service.ts:282-333 | an order redeemed by a caller stays so, and a later checkout of it is a replay exactly when key, tender and caller are the same, at every later state of any history |
| Resubmission.ConversionReplays | src/held-orders/held-orders.service.ts:282-396 | the conversion that any event of a history committed answers exactly the later checkouts of the order with that key and tender by that caller, at any expected version, with the same sale |
| Resubmission.CheckoutReplays | src/transactions/transactions.service.ts:413-422 | the same for a checkout, whether it wrote its sale or found it stored; other requests under its key are mismatches |
| Resubmission.FinishedCheckoutAnswers | src/transactions/transactions.service.ts:413-422 | in any interleaved run, a later request under the key of a finished checkout is answered with its sale when it repeats it and rejected when it does not, and leaves the database as it is |
| Resubmission.FinishedConversionAnswers | src/held-orders/held-orders.service.ts:282-333 | the same for a repetition of any finished conversion |
| Resubmission.RepeatedCheckoutNeverWrites | src/transactions/transactions.service.ts:190-221 | a repetition of a finished checkout that itself runs interleaved with everything else never holds a row, never writes one, and can only succeed with the same sale |
| Resubmission.RepeatedConversionNeverWrites | src/held-orders/held-orders.service.ts:266-333 | a checkout of an order begun after a finished one by the same caller, whatever its key, version and payment, never holds or writes a row and can only succeed with the same sale |
| SameRequest.AssertSameRequestExact | src/transactions/transactions.service.ts:767-801 | the arbiter accepts exactly the same seller, outlet, session, customer and discount, the same method and, for cash, the same amount handed over, and the stored lines in some order |
| SameRequest.LineBagExact | src/transactions/transactions.service.ts:771-785 | equal bags of lines are exactly lists that are rearrangements of each other, line for line alike |
| SameRequest.CanonicalLinesExact | src/transactions/transactions.service.ts:771-785 | comparing the sorted canonical texts decides equality of the line multisets |
| SameRequest.LineTextExact | src/transactions/transactions.service.ts:771-778 | two lines have one canonical text exactly when they mean the same |
| Json.StringArrayInjective | src/transactions/transactions.service.ts:795 | the JSON text of an array of strings determines the array |
| Sorting.SortIsCanonical | src/transactions/transactions.service.ts:777-779 | comparing sorted copies compares multisets |
| CoreFacts.WrittenSaleIsSound | src/transactions/transactions.service.ts:594-757 | every sale the core writes satisfies the money equations, 0 < total <= 2^53-1, one PAID payment of the total, change = tender - total >= 0 for CASH, and serialises without leaving the safe range |
| CoreFacts.WrittenTaxIsNearest | src/transactions/transactions.service.ts:619-634 | the stored tax is the nearest integer to (subtotal - discount) times the rate, ties upward, or zero when tax is off |
| CoreFacts.WrittenSaleAnswersItsRequest | src/transactions/transactions.service.ts:644-702 | the stored rows read back as the request, which is therefore a repetition of itself |
| CoreFacts.DecrementsExact | src/transactions/transactions.service.ts:704-714 | the aggregation has each tracked product once, with the total quantity of its lines |
| CatalogSnapshots.WrittenSaleCopiesCatalog | src/transactions/transactions.service.ts:607-702 | against one view of the catalog each item row snapshots its product's name, SKU, cost and price and each option's group, name and delta; stock is taken for exactly the tracked products |
| CatalogSnapshots.CreatedHoldsRequest | src/held-orders/held-orders.service.ts:60-88 | a created order holds exactly the requested lines in order, for its creator's own open session |
| CatalogSnapshots.UpdatedHoldsRequest | src/held-orders/held-orders.service.ts:139-163 | an update replaces exactly what it was sent, items or label, and keeps the rest |
| Cart.SaleExact | src/transactions/transactions.service.ts:462-641 | a cart passes exactly when every product is offered, every option can be chosen, every selection rule holds and discount, worth and total are in reach; prices are then catalog price plus deltas, totals are worth, discount and the tax due, and a refusal names the first fault |
| Cart.HoldExact | src/held-orders/held-orders.service.ts:487-556 | the same for held orders, where a required MULTIPLE group is refused even bare |
| Checkout.InputExact | src/transactions/dto/create-transaction.dto.ts:20-86 | the input contract in its published bounds, and the code of input that breaks it |
| Checkout.CheckoutExact | src/transactions/transactions.service.ts:399-765 | a checkout under a new key succeeds exactly when request, caller, session, outlet, customer, discount, cart, payment and stock allow it, stores exactly the sale the rows describe, and is otherwise refused for the first of these that does not hold |
| Checkout.CheckoutTakesStock | src/transactions/transactions.service.ts:704-745 | it takes from the outlet's stock exactly the quantity of each tracked product it orders, appends one movement row for each, and changes nothing else |
| Checkout.TakenKeyExact | src/transactions/transactions.service.ts:413-422 | a checkout under a taken key is answered with the stored sale exactly when it fits, the caller may sell and the sale answers it, else refused with the code of what is missing |
| Checkout.CheckoutTax | src/transactions/transactions.service.ts:404-407 | the stored tax is the nearest integer to the rate of the caller's own active tenant row, ties upward, or zero when that row charges none |
| Holding.CreateExact | src/held-orders/held-orders.service.ts:60-88 | a held order is created exactly when request, caller, outlet, own open session and cart allow it; the row and its items are then the request's at catalog prices, and nothing else changes |
| Holding.UpdateExact | src/held-orders/held-orders.service.ts:128-168 | an update succeeds exactly on an order in scope, open at the expected version, with a cart that can be held; label, items and estimates become what was sent or stay |
| Holding.CancelExact | src/held-orders/held-orders.service.ts:170-188 | a cancellation succeeds exactly on an order in scope, open at the expected version, and changes status, stamp and version only |
| Holding.HeldTax | src/held-orders/held-orders.service.ts:544-556 | the tax estimate of a created or repriced order is that of the order's own active tenant row |
| Converting.ClaimExact | src/held-orders/held-orders.service.ts:266-365 | an unconverted order is claimed exactly when the request fits, the order is in scope and open at the expected version, the token reaches its outlet and its origin session is open, unstamped and fits it; each refusal has its code |
| Converting.OpenOrdersAreClaimed | src/held-orders/held-orders.service.ts:345-365 | in every sound state the origin session never stands in the way: an open order in scope at its version is claimed |
| Converting.ConvertExact | src/held-orders/held-orders.service.ts:266-402 | a checkout of an order under a new key converts exactly when the order may be claimed and its cart may be checked out; sale, stock, movements and the terminal row are then stored together, and the refusal is otherwise that of claim or checkout |
| Converting.ConvertTakenKeyExact | src/held-orders/held-orders.service.ts:367-396 | under a taken key the order is linked to that sale exactly when the sale answers the order's cart, and nothing is sold |
| Converting.ConvertedExact | src/held-orders/held-orders.service.ts:282-333 | a converted order is answered with its linked sale exactly when scope, cashier, key and payment agree, and refused with the code of what does not |
| Converting.ConvertTax | src/transactions/transactions.service.ts:404-407 | the tax of a sale a conversion writes is that of the caller's own active tenant row |
| Shiftwork.OpenExact | src/shifts/shifts.service.ts:53-101 | a shift opens exactly for a caller who may sell, works at the open outlet and has no open session, and is then stored open and unstamped |
| Shiftwork.CloseExact | src/shifts/shifts.service.ts:125-228 | a shift closes exactly when it is the tenant's, open, the caller's own if a cashier, without open orders and with takings the summary can carry; it is then closed and stamped, and nothing else changes |
| Shiftwork.AdjustExact | src/stock/stock.service.ts:31-125 | an adjustment succeeds exactly when outlet, tracked product and user are the tenant's, a deduction is covered and the balance stays in range; balance, adjustment and signed movement are then exactly the request's |
| PricingAgreement.PricingAgrees | src/held-orders/held-orders.service.ts:487-556 | the held-order routine accepts exactly when the undiscounted sale core accepts and no line leaves a required MULTIPLE group bare; then prices and totals are equal |
| HeldOrderFacts.EstimateIsTheSale | src/held-orders/held-orders.service.ts:544-556 | with catalog and tax unchanged the sale core prices the order's lines at exactly the stored estimates |
| Estimates.EstimateIsCharged | src/held-orders/held-orders.service.ts:60-402 | end to end in any history: an order last priced against the catalog and tax that its conversion reads is charged exactly the subtotal, tax and total it showed, whatever was committed and relabelled in between |
| Estimates.EditedIsPriced | src/held-orders/held-orders.service.ts:139-163 | an update that replaces the items prices the order against the present catalog and tax; one that does not leaves rows and estimates as they were |
| HeldOrderFacts.RowsReadBack | src/held-orders/held-orders.service.ts:558-592 | the persisted rows read back, by display order, as the requested lines |
| CatalogWrites.AcceptanceAgrees | src/products/products.service.ts:208-414 | on every catalog the assignment writes can produce from a supported one, the two routines accept the same carts at the same prices |
| CatalogWrites.RoutinesDisagree | src/transactions/transactions.service.ts:582-592 | a concrete catalog with a required MULTIPLE group on which the sale core sells a bare cart and the held-order routine refuses it |
| CatalogWrites.ScanExact | src/products/products.service.ts:215-237 | the seen loop accepts exactly the lists of known selection types without a repeated group and without a required MULTIPLE one |
| CatalogWrites.WriteKeeps | src/products/products.service.ts:208-414 | every assignment write keeps keys distinct and required MULTIPLE groups out |
| CatalogWrites.ReplacedExactly | src/products/products.service.ts:258-279 | an accepted replacement leaves exactly the requested assignments of that product, display order included, and everybody else's alone |
| CatalogWrites.WrittenExactly | src/products/products.service.ts:208-441 | each of the four writes, when accepted, leaves exactly the requested row under its key, no row under a key it gave up, and every other row and table as it was; a rejected one changes nothing |
| CatalogWrites.AcceptedExactly | src/products/products.service.ts:208-441 | each write is accepted exactly when the product is the tenant's, the selection types are supported, the groups are live and the keys free or taken as it needs |
| CatalogWrites.ProductCatalog.ReplaceModifierGroups | src/products/products.service.ts:208-280 | the write with its checks in order, or nothing |
| CatalogWrites.ProductCatalog.AssignModifierGroup | src/products/products.service.ts:282-331 | the insert with its checks in order, or nothing |
| CatalogWrites.ProductCatalog.UpdateModifierGroupAssignment | src/products/products.service.ts:333-414 | the update by primary key with its checks in order, or nothing |
| CatalogWrites.ProductCatalog.RemoveModifierGroup | src/products/products.service.ts:416-441 | the delete by primary key with its checks in order, or nothing |
| Tax.TaxIsNearest | src/common/utils/tax.util.ts:42-51 | the integer form is the one nearest integer to amount times rate, ties upward |
| Tax.BasisPointsExact | src/common/utils/tax.util.ts:42-45 | dropping the dot from any two-decimal rate text yields exactly 100 times the rate |
| Tax.TaxMonotone | src/common/utils/tax.util.ts:50-51 | tax and total are monotone in the amount |
| Tax.TaxBounded | src/common/utils/tax.util.ts:50-51 | for rates up to 100% the tax is at most the amount |
| PricingLoops.SumDeltas | src/transactions/transactions.service.ts:594-596 | the sum of at most 50 int4 deltas in JavaScript numbers is exact at every step |
| PricingLoops.SaleLinesLoop | src/transactions/transactions.service.ts:515-605 | the line loop, with its option, selection-count and rule loops, computes the specified lines or the specified first error |
| PricingLoops.HeldLinesLoop | src/held-orders/held-orders.service.ts:506-541 | the held-order line loop does the same for its own specification |
| PricingLoops.CountSelections | src/transactions/transactions.service.ts:556-560 | groupSelections holds how often each group was chosen |
| Database.Database.ExecuteCore | src/transactions/transactions.service.ts:349-375 | the core inside its caller's transaction writes one complete sale, or reports a stored one, or is rejected |
| Database.Database.CreateSale | src/transactions/transactions.service.ts:190-195 | one attempt commits exactly the event of its answer or leaves every table as it was |
| Database.Database.CreateInternal | src/transactions/transactions.service.ts:190-221 | conflicting attempts are rolled back without trace, the first other one answers, and three conflicts end in the retry error |
| Database.Database.TakeAll | src/transactions/transactions.service.ts:715-729 | the conditional decrements all apply exactly when the starting stock covers every one of them, and then take each once |
| Database.Database.InsertItems | src/transactions/transactions.service.ts:662-681 | one item row per line, in request order |
| Database.Database.InsertModifiers | src/transactions/transactions.service.ts:684-702 | every modifier snapshot lands on the item row of its own line |
| Database.Database.AggregateStock | src/transactions/transactions.service.ts:704-714 | the loop over the lines computes the per-product decrements |
| Database.Database.CreateHeldOrder | src/held-orders/held-orders.service.ts:60-88 | commits the specified order with its numbered rows, or nothing |
| Database.Database.UpdateHeldOrder | src/held-orders/held-orders.service.ts:128-168 | commits the next version of the order, or nothing |
| Database.Database.CancelHeldOrder | src/held-orders/held-orders.service.ts:170-188 | commits the cancellation, or nothing |
| Database.Database.ConvertHeldOrder | src/held-orders/held-orders.service.ts:266-402 | claim, sale and terminal update commit together, or nothing does |
| Database.Database.OpenShift | src/shifts/shifts.service.ts:53-101 | commits an open session for a user who has none, or nothing |
| Database.Database.CloseShift | src/shifts/shifts.service.ts:125-228 | closes an open session without open orders and with a reportable summary, or nothing |
| Database.Database.CreateAdjustment | src/stock/stock.service.ts:31-125 | balance, adjustment row and signed movement commit together, or nothing does |
| Database.AtomicKeeps | src/transactions/transactions.service.ts:190-195 | every call, whatever it answers, keeps the invariant |
| Shifts.DeriveSummary | src/shifts/shifts.service.ts:246-294 | over the query's sales, with the items of each in whatever order they come, the nested loops compute the tender sums, the sale total and one line per product with the first known name |
| Shifts.SummaryConserves | src/shifts/shifts.service.ts:246-294 | in every state, however the items of each sale are ordered, the summary counts the session's completed sales, its cash, QRIS and EDC figures are each the totals of the sales paid that way and together the total of all, and each product appears once with the quantity of all its lines and the first name known for it |
| Shifts.QuerySales | src/shifts/shifts.service.ts:247-258 | the query lists each completed sale of the session once, by creation time and id |
| Shifts.OneOrder | src/shifts/shifts.service.ts:251 | that order is total, so the query has one result |
| Reports.SummaryIsTheDays | src/reports/reports.service.ts:288-300 | the summary over whole days is the sum of their daily reports |
| Reports.RangesAdd | src/reports/reports.service.ts:240-242 | cutting a range anywhere loses nothing and counts nothing twice |
| Reports.ReportConsistent | src/reports/reports.service.ts:220-274 | in every state total = gross - discount + tax, net = gross - discount, and the count is the number of sales |
| Reports.FiguresExact | src/reports/reports.service.ts:220-274 | count, gross, discount, tax, total and cogs are each the sum of their column over exactly the tenant's completed sales in the half-open range and at the outlet asked for |
| Reports.CostIsPerItem | src/reports/reports.service.ts:243-258 | the cost of a sale is the sum over its items of quantity times unit cost |
| Reports.AverageIsNearest | src/reports/reports.service.ts:97-101 | the average is the one integer nearest to net / count, ties upward |
| Reports.HistoryReports | src/reports/reports.service.ts:220-274 | after any history a report is the report before plus the sales the history wrote, each once; nothing else changes a report |
| Sync.Transactions | src/sync/sync.service.ts:34-68 | a valid batch equals its rows applied one by one, each through its own retry loop, with one result per row in order and synced + failed = total; an invalid or forbidden one changes nothing |
| Sync.BatchExact | src/sync/sync.service.ts:70-127 | a batch is let through exactly when every row fits, the caller may sell and a cashier's assigned outlet is every row's; each refusal has its code |
| Sync.RowExact | src/sync/sync.service.ts:41-61 | a row under a new key is sold by its first attempt without a conflict exactly when it may be checked out, and its result is the id of that attempt or the code of the refusal |
| Sync.StoredReplays | src/transactions/transactions.service.ts:413-422 | a row whose key holds its own sale is answered with that sale's id by its first attempt without a conflict, asks for a retry if all three meet one, and leaves the whole store unchanged either way |
| Sync.ResubmissionIsANoOp | src/sync/sync.service.ts:34-68 | resubmitting SYNCED rows, any selection in any order, at any later database that still has the sales, returns the same ids for the rows that get through and changes nothing |
| Sync.BatchesCompose | src/sync/sync.service.ts:41-61 | where a batch is cut makes no difference |
| PinLockout.RateBound | src/auth/auth.service.ts:142-188 | from a clean counter at most max * (floor(T / D) + 1) wrong PINs are compared within a span T, for any non-decreasing attempt times |
| PinLockout.RateBoundIsTight | src/auth/auth.service.ts:401-459 | for every number of lock periods there are attempts that reach the bound exactly |
| PinLockout.LockIffMaxAlways | src/auth/auth.service.ts:425-437 | in every run locked_until is set exactly when the counter has reached the maximum |
| PinLockout.RetryAfterSuffices | src/auth/auth.service.ts:524-533 | waiting the reported seconds is enough and, above the minimum of one second, a second less is not |
| PinLockout.TryExact | src/auth/auth.service.ts:142-221 | from the row alone: the PIN is compared exactly when user and PIN are there and no lock runs, logs in exactly when it is then right and clears counter and lock, is answered as locked exactly under a running lock or at the failure that reaches the maximum, with that lock's wait, and as invalid otherwise |
| PinLockout.PinUser.PinLogin | src/auth/auth.service.ts:142-221 | one attempt's outcome and the row it leaves, as TryExact describes them |
| PinLockout.PinUser.RecordFailedPin | src/auth/auth.service.ts:401-459 | the failure transaction keeps lock and counter in step and restarts the counter after an expired lock |
| PinLockout.PinUser.SetPin | src/users/users.service.ts:65-103 | a new PIN starts with a clean counter and no lock |
| RefreshTokens.OneRefreshSucceeds | src/auth/auth.service.ts:303-340 | of all refreshes ever started with one token at most one succeeds |
| RefreshTokens.RevokedStays | src/auth/auth.service.ts:253-370 | REVOKED is absorbing and no session leaves its chain or is prolonged |
| RefreshTokens.ChainsAreLinear | src/auth/auth.service.ts:303-338 | in every reachable state each session has at most one successor, a rotated session is revoked, and each login has at most one ACTIVE session |
| RefreshTokens.RevokedTokensAreRefused | src/auth/auth.service.ts:286-322 | once a token's session is revoked, by rotation or logout, no refresh with it that has not yet succeeded ever succeeds |
| RefreshTokens.RotationCommits | src/auth/auth.service.ts:285-338 | a rotation commits only on a session that is ACTIVE and unexpired at that moment, and leaves it revoked with one active successor |
| RefreshTokens.SucceededWasUnexpired | src/auth/auth.service.ts:277-292 | whoever has succeeded brought the token of a session that had not expired |
| RefreshTokens.RefreshAlone | src/auth/auth.service.ts:246-338 | an undisturbed refresh succeeds exactly with an ACTIVE unexpired session of an enabled user, revokes an ACTIVE one that is not usable, and otherwise changes nothing |

## Left out

- Controllers, guards, HTTP status mapping, error texts, logging, response field names; results are the error code or the stored row.
- UUID syntax, lower-casing of ids and trimming of notes, labels and titles are taken as already applied to every request.
- Strings are sequences of Unicode scalar values; lone surrogates are not represented.
- Rows older than the current contract: CASH payments with the tender in `amount`, sales without exactly one payment. The initial database is assumed to have none.
- Foreign-key locks and the tenant conditions inside the stock updates; the decrement is conditional on the balance alone.
- The Number fallback of the tax helper for rates that are not Decimals.
- Cart.SaleExact: of several selection rules a line breaks, the one reported is only said to be one of them, because the assignments are read in no promised order.
- The order of options created in the same instant, and a held-order version beyond int4.
- A batch or item list so long that an aggregate of the database exceeds what a Number can hold.
- The claims that stock updates cannot deadlock, that no direct sale lands on a session closed meanwhile, that distinct orders link to distinct sales, and that the PIN lock holds under concurrent attempts: the code does not promise them.
- An error outside the sale core's own error handling, which would end the sync loop early.
- PIN attempts are sequential; hashing, token signing and random tokens are equality and freshness.
- Refresh tokens: access tokens, expiry of the successor beyond its stored time, and device fields.
- CatalogWrites.ProductCatalog.ReplaceModifierGroups: concurrent edits of one product are not modelled.
- Reports: the range check on each reported figure and the parsing of dates; days are fixed 24-hour days.
- Sales status changes after commit (void, cancel), receipts, catalog search, plain record keeping, seed and bootstrap scripts.
