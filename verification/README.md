# Order to cash: one saga over three services, and what it guarantees

Orders, Fulfillment and Billing each own their tables and meet only in two ways. A service publishes facts, which Orders consumes in order
per order and producer, but in any interleaving of producers and as often as they are redelivered. Orders owes commands, one row per
order and command kind, which the responder may execute any number of times. Facts move the order; command replies never do. This project
models that protocol together with the aggregates under it, and proves what survives every interleaving.

## How it is built

- **Aggregates**, as classes with the fields the source updates in place: `OrderAggregate.Order`, `Stock.StockItem` and
  `Stock.Reservation`, `BuyerCreditAggregate.BuyerCredit`, `InvoiceAggregate.Invoice`; `OrderStock` has the order-scoped reserve, release
  and despatch over several items, `Ledger` the one-pass ledger summary.
- **Handlers**, as methods on a store of tables, each proved equal to a transaction function on table values: `OrdersService`,
  `FulfillmentHandlers`, `BillingHandlers`. The functions (`HandleFact`, `ReserveTx`, `ReleaseTx`, `DespatchTx`, `HoldTx`,
  `ReleaseCreditTx`, `IssueTx`, `PayTx`) are what the rest reasons about.
- **Invariants over tables of all orders**, although every transaction loads only one order's rows: `FulfillmentInvariants`,
  `FulfillmentPhases`, `FulfillmentFacts`, `BillingInvariants`, `BillingRuns`, `BillingFacts`, `OrdersRecords`, `Redelivery`.
- **The saga machine** of one order (`Saga`): status, command rows, and the phases of its stock and its credit. `SagaInvariant` holds its
  inductive invariant; `SagaSafety`, `SagaProgress`, `SagaStranding`, `SagaOrdinary` and `SagaTermination` build on it.
- **The composed system** (`System`): any number of orders over shared stock and credit lines. One step places an order, delivers a fact,
  executes an owed command, reads a status for a cancellation, commits a cancellation decided on such a read, reads for a payment, commits
  a payment decided on such a read, or brings in stock. `OrdersSimulation`, `FulfillmentSimulation` and `BillingSimulation` show that each
  transaction on the tables is a step of the saga machine; `SystemDelivery`, `SystemExecution` and `SystemMoves` do so for each kind of
  system step; `SystemRuns.SystemRefinesSagas` puts them together for every run. The theorems about the tables themselves are in
  `SystemTheorems`, `SystemExclusion`, `SystemStranding`, `SystemCompensation`, `SystemOrdinary`, `SystemReservations`, `SystemRest`,
  `SystemClimb`, `SystemTermination`, `SystemUnits`, `SystemInvoices`, `SystemRecords`, `SystemProjection` and `SystemDocument`; `SystemExample`, `SystemStalls` and `SystemRefusals` hold concrete runs.
- **Satellites**: `Projection` (the read model's fold) and `Notifications` (insert first, send, take back).

## Promises that the code does not keep

- **A cancelled order can be despatched.** `apps/orders/src/application/cancel-order.handler.ts:101` reads the status without a lock, and
  only a read of `stock_reserved`, `credit_approved` or `confirmed` starts a compensation. After a read of `placed`, the transaction at
  line 125 reads again but leaves the decision to `Order.cancel`, which is legal up to `confirmed`. An order that was confirmed in between
  is then cancelled with its despatch under way. `SystemExample.ShippedAfterCancelIsReachable` is a concrete run to a cancelled order with
  consumed stock. `SystemExclusion.ExclusionFailsExactly` gives the exact condition at the commit: the status is `confirmed` and the
  reservations are not released. The first half is what the transaction re-reads; the second is Fulfillment's, so a transaction that refused
  `confirmed` outright would be safe, and would also refuse the harmless case. `SystemTheorems.CancelExcludesDespatch` is the guarantee for
  every order of which no cancellation meets that condition. What holds without any condition is `SystemTheorems.ShipWithHold`: whatever is
  shipped has its full exposure tied up until it is paid.
- **A reservation made after a cancellation stays.** `specs/shared/saga.md:262-271` promises a `stock.release` when `stock.reserved` arrives
  for an order that its operator cancelled while `placed`. `apps/orders/src/application/saga-fact-handler.ts:163-181` ignores that fact, and
  the model follows the code: `SystemExample.StrandedStockIsReachable`. `SystemStranding.StockStrandsExactly` says of every direct
  cancellation whether it can leave stock reserved for good, from the status and the command rows that it finds;
  `SystemStranding.CreditStrandsExactly` does so for credit.
- **An order of total zero stops short.** The API accepts a unit price of zero. `apps/billing/src/application/invoice-issue.handler.ts:103-108`
  demands an active hold, and a hold of zero is none, so the order stops at `despatched`: `SystemStalls.ZeroTotalStalls`. Cancelling it at
  `confirmed` does not end it either, since the release of a hold of zero publishes nothing: `SystemStalls.ZeroTotalCancellationHangs`.
  `SystemTheorems.ProgressAtRest` says where every order that is not cancelled comes to rest: the other two kinds that stop short are an
  order none of whose products is stocked, at `placed`, and one without a usable credit line, at `stock_reserved`.
- **A refused hold can still be held.** A refusal leaves no ledger entry (`apps/billing/src/domain/buyer-credit.ts:217-238`), so the same
  `credit.hold`, executed once more, is decided afresh. If the order was cancelled by the refusal in the meantime, the approval is ignored
  and nothing asks the exposure back: `SystemRefusals.RefusedHoldCanStillBeHeld`. `SystemExclusion.CompensationCompletes` shows that,
  without late direct cancellations, this is the only way in which compensation leaves anything behind.
- **A negative amount can be held.** `BuyerCredit` checks the limit only, and the message format only that the amount is an integer:
  `BillingRuns.NegativeHoldsUnderflow`. `BillingRuns.UnderflowIff` gives the exact condition under which a later release fails; order totals
  are never negative, so no run of the composed system meets it.
- **A failed delivery is not deduplicated.** It leaves no dedup row, so its repeat counts as a first delivery.
  `Redelivery.FailsExactlyOn` says which deliveries fail, and `Redelivery.RepeatsAreDroppedIff` that these are exactly the ones whose repeats
  are not dropped. By `SystemTheorems.NothingThrows` no run of the composed system delivers such a fact.

## Model

| member | source | states |
|---|---|---|
| OrderAggregate.BuildTransitionIndex | apps/orders/src/domain/order-transitions.ts:25-133 | the index built row by row from the twelve rows of Table T-1 answers, for every pair of statuses, "the next status of the happy path, or a cancellation from one of the four statuses before `despatched`", and nothing else |
| OrderAggregate.TransitionsClimb | apps/orders/src/domain/order-transitions.ts:25-100 | every legal edge strictly climbs the rank of the statuses, no edge leaves a terminal status, no cancellation is legal from `despatched` on |
| OrderAggregate.RowIsFound | apps/orders/src/domain/order-transitions.ts:130-132 | every row of the table is the one its own pair of statuses looks up, so no row is shadowed by another |
| OrderAggregate.Order.Place | apps/orders/src/domain/order.ts:127-179 | placing succeeds exactly for a non-empty, single-currency order whose net total is not negative; then the order is `placed` with one fact carrying its parties, currency, lines and totals, otherwise the error says which rule failed first |
| OrderAggregate.Order.Reconstitute | apps/orders/src/domain/order.ts:181-230 | loading accepts exactly a non-empty row in one currency whose reason is present if and only if it is cancelled and whose total is not negative, refuses with the first failing check, emits nothing and derives the totals afresh |
| OrderAggregate.Order.TransitionTo | apps/orders/src/domain/order.ts:360-455 | a command method makes the whole change with its facts, or is refused and changes nothing |
| OrderAggregate.Order.Cancel | apps/orders/src/domain/order.ts:397-436 | a cancellation is legal along Table T-1 and for the reasons its status allows, records the compensation steps it is given, and changes nothing when it is refused |
| OrderAggregate.ComputeTotals | apps/orders/src/domain/order-totals.ts:24-41 | one pass over the lines accumulates price times quantity and the line discounts, and refuses a foreign currency before a negative total |
| OrderAggregate.TotalsAdd | apps/orders/src/domain/order-totals.ts:24-41 | every line counts once: gross and discount of a concatenation are the sums of the parts' gross and discount |
| OrderAggregate.TotalsAreSums | apps/orders/src/domain/order-totals.ts:24-41 | the net total is the sum, line by line, of price times quantity less the line's discount, and the discount the sum of the line discounts |
| SagaSteps.StepForStatusIsActionOn | apps/orders/src/application/saga-steps.ts:161-336 | the first-match search over the variants of a fact gives, for every fact and every status, the one action of the written-out fact/status table, so the order of the rows never matters |
| SagaSteps.InvoiceGrossIsOrderGross | apps/orders/src/application/saga-command-payloads.ts:100-123 | for any list of lines, the gross that Billing computes from the payload is the order's own gross |
| SagaSteps.HeldAmountEqualsInvoiceTotal | apps/orders/src/application/saga-command-payloads.ts:80-125 | whatever facts trigger them, the hold payload and the invoice payload of one order agree on amount, currency and credit line |
| OrdersService.SagaFactHandler.Apply | apps/orders/src/application/saga-steps.ts:161-305 | the closure of an advance row leaves the aggregate and its facts exactly as the table's change says, with approve and confirm in one step |
| OrdersService.SagaFactHandler.Handle | apps/orders/src/application/saga-fact-handler.ts:67-226 | one delivery skips, drops a duplicate, unwinds a late approval, records an ignored fact, or saves, enqueues and deduplicates in one transaction; an error changes nothing at all |
| OrdersService.CancelOrderHandler.ExecuteAfterRead | apps/orders/src/application/cancel-order.handler.ts:99-152 | with the status that an earlier unlocked read returned, a cancellation either owes a stock release and changes no order, or re-reads and cancels under the aggregate's own rules |
| OrdersService.CancelOrderHandler.BeginStockReleaseCompensation | apps/orders/src/application/cancel-order.handler.ts:178-235 | afterwards a `stock.release` is owed: by the row that was there, payload and trigger untouched, or by one new row that counts as an accepted operator cancellation; no order, fact or other row changes, and asking again changes nothing |
| OrdersService.HandlingKeepsTheLines | apps/orders/src/application/saga-fact-handler.ts:185-216 | no delivery, of whatever fact, changes the lines, the currency or the credit line of any order |
| OrdersService.FreshRepeatChangesNothing | apps/orders/src/application/saga-fact-handler.ts:92-226 | handling the same fact again at once, under another event id, changes no order, no command row and no outbox entry |
| OrdersRecords.CancellationRecordsItsCause | apps/orders/src/application/saga-steps.ts:60-159 | a delivery that cancels records one `order.cancelled` with the reason of its fact and exactly its compensation steps (none for a rejected stock, the stock release under the delivered event, or stock first and then the credit release under the delivered event), and any other delivery records no cancellation |
| OrdersRecords.ReasonsMatchTheTable | apps/orders/src/domain/order.ts:397-436 | a cancellation reason is legal in a status exactly when a row of the step table cancels from there with it, or when it is the operator's and the order is not despatched yet |
| OrdersRecords.PlansAreWhatIsRecorded | apps/orders/src/application/cancel-order.handler.ts:110-118 | the releases that an operator is promised, in their order, are the compensation steps that the cancelling row records from the status that was read |
| OrdersRecords.PlansAreForTheTable | apps/orders/src/application/cancel-order.handler.ts:110-118 | a plan exists exactly for the statuses from which a release cancels the order for its operator; from every other the cancellation is direct |
| OrdersRecords.DirectAnswersAreTrue | apps/orders/src/application/cancel-order.handler.ts:125-151 | each answer to a direct cancellation says what became of the order: unknown, left alone in a status past cancelling, or cancelled for the operator with no compensation step |
| OrdersRecords.OutcomesAreTrue | apps/orders/src/application/saga-fact-handler.ts:92-226 | the answer to a delivery names the one command that is owed from now on, which the delivered fact has triggered; an ignored fact leaves one row with a status in which the table has nothing for it |
| Redelivery.FailsExactlyOn | apps/orders/src/application/saga-steps.ts:85-90 | whatever the fact, the status and the command table, a delivery fails exactly when the release of a payment is first delivered while its order is `credit_approved` or `confirmed` |
| Redelivery.RedeliveryInvariance | apps/orders/src/application/saga-fact-handler.ts:92-226 | any sequence of deliveries, none of which meets that guard, ends in the same tables as the sequence without its repeats |
| Redelivery.RepeatsAreDroppedIff | apps/orders/src/application/saga-fact-handler.ts:92-226 | all later repeats of a delivered fact, after any other deliveries, do nothing if and only if its delivery did not meet that guard |
| Redelivery.ARepeatAfterAFailureCounts | apps/orders/src/application/saga-steps.ts:85-90 | from any store with a confirmed order: a payment release that comes too early fails, leaves no dedup row, and its repeat completes the order that would otherwise stay `paid` |
| Stock.Reservation.Release | apps/fulfillment/src/domain/reservation.ts:107-113 | a reservation is released only from `reserved`, and refuses without a change otherwise |
| Stock.Reservation.Consume | apps/fulfillment/src/domain/reservation.ts:115-120 | a reservation is consumed only from `reserved`, and refuses without a change otherwise |
| Stock.StockItem.Reconstitute | apps/fulfillment/src/domain/stock-item.ts:41-63 | loading refuses exactly the counters that break F1, and restores counters and reservations as stored |
| Stock.StockItem.Reserve | apps/fulfillment/src/domain/stock-item.ts:106-140 | exactly a quantity within availability adds one `reserved` reservation and its units to the counter; more changes nothing |
| Stock.StockItem.Release | apps/fulfillment/src/domain/stock-item.ts:142-169 | every `reserved` reservation of that one order moves to `released` and its units leave the counter; one consumed reservation refuses the whole call without a change |
| Stock.StockItem.Consume | apps/fulfillment/src/domain/stock-item.ts:171-195 | every `reserved` reservation of that one order moves to `consumed` and its units leave both counters; one released reservation refuses the whole call without a change |
| Stock.StockItem.Replenish | apps/fulfillment/src/domain/stock-item.ts:197-205 | availability grows by exactly the quantity, no reservation is touched, and an item that satisfies F1 still does |
| OrderStock.SumByProduct | apps/fulfillment/src/domain/order-stock-reservation.ts:56-66 | repeated products are added up, in whatever order their lines come |
| OrderStock.AcceptedIffEveryProductFits | apps/fulfillment/src/domain/order-stock-reservation.ts:49-133 | a reserve request is accepted if and only if every product is known and its lines together fit; without any known product nothing carries the refusal |
| OrderStock.ShortagesAreExact | apps/fulfillment/src/domain/order-stock-reservation.ts:62-80 | the shortages are exactly the lines whose product is unknown or whose product total exceeds what is available, each with the units of its line and what is available |
| OrderStock.RefusalNamesTheLines | apps/fulfillment/src/domain/order-stock-reservation.ts:62-102 | a refusal blames an unknown product exactly when some line names one, and every shortage asks for the units of its line |
| OrderStock.ReserveLines | apps/fulfillment/src/domain/order-stock-reservation.ts:104-119 | once no line is short, no single `reserve` runs out of units, and each line adds its own reservation, in line order |
| OrderStock.ReserveOrderStock | apps/fulfillment/src/domain/order-stock-reservation.ts:49-133 | all or nothing over all the items, with exactly one fact recorded whenever some item is known |
| OrderStock.RowsForHaveRequestedUnits | apps/fulfillment/src/domain/order-stock-reservation.ts:104-119 | the reservations that the lines add at one product hold together what the lines ask of it |
| OrderStock.ReleaseOrderStock | apps/fulfillment/src/domain/order-stock-reservation.ts:148-193 | releases on every item and records one fact listing every released reservation, or refuses when any is consumed; nothing reserved records nothing |
| OrderStock.CreateDespatchForOrder | apps/fulfillment/src/domain/order-despatch.ts:46-81 | consumes on every item and gives one despatch line per consumed reservation, in item order, or refuses when any is released |
| FulfillmentHandlers.FulfillmentStore.LockItems | apps/fulfillment/src/infrastructure/persistence/stock-item.repository.ts:76-98 | a lock loads each item with its shared counters and only this order's reservations |
| FulfillmentHandlers.FulfillmentStore.SaveAll | apps/fulfillment/src/infrastructure/persistence/stock-item.repository.ts:121-159 | a save upserts the loaded items and reservations and leaves every other order's rows alone |
| FulfillmentHandlers.StockReservationHandler.Reserve | apps/fulfillment/src/application/stock-reservation.handler.ts:35-97 | any reservation of the order short-circuits; otherwise all or nothing in one transaction, and the tables stay valid |
| FulfillmentHandlers.StockReservationHandler.Release | apps/fulfillment/src/application/stock-reservation.handler.ts:99-136 | an order without reservations, or with none left to release, is already released; a consumed one is refused; the tables stay valid |
| FulfillmentHandlers.StockReservationHandler.ReleaseInTransaction | apps/fulfillment/src/application/stock-reservation.handler.ts:108-135 | the transaction alone, with the stock rows that an earlier unlocked read named: it refuses when one of them is gone, and otherwise releases on exactly those rows |
| FulfillmentHandlers.DespatchCreationHandler.Create | apps/fulfillment/src/application/despatch-creation.handler.ts:56-132 | answers the despatch that exists, refuses, or consumes everything and stores one despatch with the next number; the tables stay valid |
| FulfillmentHandlers.DespatchCreationHandler.CreateInTransaction | apps/fulfillment/src/application/despatch-creation.handler.ts:69-131 | the transaction alone, after stale reads: it refuses when a named stock row is gone, and answers a despatch that was made in the meantime |
| FulfillmentInvariants.SaveKeepsTables | apps/fulfillment/src/domain/stock-item.ts:41-63 | partial load: an operation that is balanced on the one order it loaded keeps the counters of all orders together right, and conserves units |
| FulfillmentInvariants.TotalAfterChange | apps/fulfillment/src/domain/stock-item.ts:106-199 | the total over all orders moves by exactly the one order's difference |
| FulfillmentInvariants.ReserveKeepsTables | apps/fulfillment/src/application/stock-reservation.handler.ts:35-97 | a reserve, accepted or refused, keeps `reservedUnits` equal to the `reserved` units of all orders and within F1 |
| FulfillmentInvariants.ReleaseKeepsTables | apps/fulfillment/src/application/stock-reservation.handler.ts:99-136 | so does a release, and no unit is lost |
| FulfillmentInvariants.DespatchKeepsTables | apps/fulfillment/src/application/despatch-creation.handler.ts:56-132 | so does a despatch: units and consumed units together stay the same |
| FulfillmentInvariants.StockOverRuns | apps/fulfillment/src/domain/stock-item.ts:41-199 | after any run over any number of orders: 0 <= reservedUnits = reserved units of all orders <= units, and units + consumed = initial + brought in |
| FulfillmentPhases.ReserveOnceReserved | apps/fulfillment/src/application/stock-reservation.handler.ts:40-62 | once an order has reservations, in any status, its reserve request changes nothing |
| FulfillmentPhases.ReserveFirst | apps/fulfillment/src/application/stock-reservation.handler.ts:35-97 | a first request reserves everything in one phase with one fact, or refuses with one fact, or finds no product at all and leaves no trace; other orders keep what they have |
| FulfillmentPhases.ReleaseByPhase | apps/fulfillment/src/domain/order-stock-reservation.ts:148-193 | a release moves a wholly reserved order to wholly released, and is a no-op or a refusal in every other phase |
| FulfillmentPhases.DespatchByPhase | apps/fulfillment/src/domain/order-despatch.ts:46-81 | a despatch moves a wholly reserved order to wholly consumed, and is a repeat or a refusal in every other phase |
| FulfillmentPhases.OneLockArbitrates | apps/fulfillment/src/domain/stock-item.ts:142-194 | of a release and a despatch whichever comes first wins, and the other is refused and changes nothing |
| FulfillmentFacts.ReservedUnits | apps/fulfillment/src/domain/order-stock-reservation.ts:104-133 | an accepted first request leaves, on every product, exactly the units that its lines ask for |
| FulfillmentFacts.SettledUnits | apps/fulfillment/src/domain/order-despatch.ts:36-81 | settling an order's reservations loses no unit of any product, and what is reported names all of them |
| FulfillmentFacts.NumbersOverRuns | apps/fulfillment/src/application/despatch-creation.handler.ts:101-120 | over any run no two despatches share a reference |
| Ledger.SummariseLedger | apps/billing/src/domain/credit-exposure.ts:56-93 | the one-pass fold gives, per order in first-seen order, the filtered sums, and activeHolds + openExposure = committedExposure = all holds - all releases |
| Ledger.FirstSeenIsExact | apps/billing/src/domain/credit-exposure.ts:56-76 | the order list of the fold names every order of the ledger exactly once |
| Ledger.ExposuresAddUp | apps/billing/src/domain/credit-exposure.ts:76-93 | for any list of entries the exposures of the orders add up to holds minus releases of the whole list |
| Ledger.ConsumeIsNeutral | apps/billing/src/domain/credit-exposure.ts:40-93 | a `consume` entry of any order and amount moves no exposure |
| Ledger.OrderEntriesSuffice | apps/billing/src/domain/buyer-credit.ts:59-61 | one order's entries give the same sums for that order as the full ledger |
| BuyerCreditAggregate.BuyerCredit.Reconstitute | apps/billing/src/domain/buyer-credit.ts:79-111 | loading refuses exactly a negative limit, a line above its limit and a foreign entry currency |
| BuyerCreditAggregate.BuyerCredit.ApproveHold | apps/billing/src/domain/buyer-credit.ts:172-215 | a hold is recorded if and only if the evaluation says that it fits; otherwise nothing changes |
| BuyerCreditAggregate.BuyerCredit.RefuseHold | apps/billing/src/domain/buyer-credit.ts:217-243 | a refusal records one fact and no entry, and cannot claim `over limit` of an amount that fits |
| BuyerCreditAggregate.BuyerCredit.ReleaseHold | apps/billing/src/domain/buyer-credit.ts:245-300 | a release gives back the whole outstanding exposure of the order with one entry and one fact, nothing when there is none, and fails exactly on a negative one |
| BuyerCreditAggregate.BuyerCredit.ConsumeHold | apps/billing/src/domain/buyer-credit.ts:302-325 | exactly an active hold is consumed, with one entry, no fact and an unchanged scalar |
| BuyerCreditAggregate.PartialLoadReadsTheSame | apps/billing/src/domain/buyer-credit.ts:149-325 | everything an operation reads is the same on one order's entries as on the full ledger |
| BuyerCreditAggregate.PartialLoadRefines | apps/billing/src/domain/buyer-credit.ts:149-325 | hold, release and consume on the partially loaded line commute with loading, and keep the scalar equal to holds minus releases of the full ledger |
| InvoiceAggregate.Invoice.Issue | apps/billing/src/domain/invoice.ts:92-158 | issuing derives amount and total from the lines, and refuses exactly an empty line list, a line or a discount in another currency, and a discount above the gross, with the first failing check |
| InvoiceAggregate.Invoice.Reconstitute | apps/billing/src/domain/invoice.ts:160-213 | loading refuses exactly a row whose status and payment date disagree, whose lines have another currency, or whose totals do not reconcile with its lines |
| InvoiceAggregate.Invoice.MarkPaid | apps/billing/src/domain/invoice.ts:284-312 | exactly the total in the invoice's currency settles an open invoice, once; everything else is refused without a change |
| BillingHandlers.BillingStore.LockForOrder | apps/billing/src/infrastructure/persistence/buyer-credit.repository.ts:33-67 | a lock loads the scalar of the whole line and one order's entries, and a stored line never fails to load |
| BillingHandlers.CreditHoldHandler.Hold | apps/billing/src/application/credit-hold.handler.ts:32-118 | evaluate, ask the port only about a fitting amount, then one hold or one refusal; a repeat answers the earlier hold; the tables stay valid |
| BillingHandlers.CreditReleaseHandler.Release | apps/billing/src/application/credit-release.handler.ts:39-80 | releases what is outstanding, and is a success that changes nothing when nothing is; the tables stay valid |
| BillingHandlers.InvoiceIssueHandler.Issue | apps/billing/src/application/invoice-issue.handler.ts:67-144 | a repeat is answered without a transaction and changes nothing; a success always answers the one invoice of the order, marked created exactly when there was none before |
| BillingHandlers.InvoiceIssueHandler.IssueInTransaction | apps/billing/src/application/invoice-issue.handler.ts:79-144 | one invoice per order and only for an active hold, which it consumes in the same transaction; the tables stay valid |
| BillingHandlers.PaymentRegisterHandler.ReadUnlocked | apps/billing/src/application/payment-register.handler.ts:89-121 | on valid tables the unlocked reads answer `duplicate` exactly when that reference paid that invoice, conflict exactly when it paid another, and hand on an unpaid reference with an invoice that the transaction can still recognise |
| BillingHandlers.PaymentRegisterHandler.RegisterInTransaction | apps/billing/src/application/payment-register.handler.ts:122-219 | at whatever later state it runs, the transaction re-reads under the locks, then pays, releases and saves all of it or nothing; the tables stay valid |
| BillingInvariants.ShapeDecides | apps/billing/src/domain/buyer-credit.ts:149-155 | on a ledger of the reachable shape, exposure, active hold and first hold can be read off its last entry |
| BillingInvariants.HoldKeepsBilling | apps/billing/src/application/credit-hold.handler.ts:32-118 | a hold keeps every line within its limit, every order's ledger a prefix of hold, release or hold, consume, release, and invoices and payments in step |
| BillingInvariants.ReleaseKeepsBilling | apps/billing/src/application/credit-release.handler.ts:39-80 | so does a release |
| BillingInvariants.IssueKeepsBilling | apps/billing/src/application/invoice-issue.handler.ts:67-144 | so does an invoice, which stands for exactly one consumed hold |
| BillingInvariants.PayKeepsBilling | apps/billing/src/application/payment-register.handler.ts:122-219 | so does a payment whose earlier reads may be stale: settled invoices and payments stay one to one |
| BillingRuns.BillingOverRuns | apps/billing/src/domain/buyer-credit.ts:79-111 | all of this holds after any run over any number of orders, lines and stale payment reads, and no stored line is ever refused when it is loaded |
| BillingRuns.UnderflowIff | apps/billing/src/domain/buyer-credit.ts:245-300 | a release underflows if and only if a negative amount had been held for that order, which the aggregate does not refuse |
| BillingRuns.NegativeHoldsUnderflow | apps/billing/src/domain/buyer-credit.ts:149-215 | a hold of any negative amount fits and is accepted on any line, and the release after it underflows |
| BillingRuns.BoundsOverRuns | apps/billing/src/domain/buyer-credit.ts:134-155 | in runs without negative holds 0 <= committedExposure <= creditLimit on every line, and no release underflows |
| BillingRuns.HoldAnswersAreTrue | apps/billing/src/application/credit-hold.handler.ts:45-116 | a first hold is taken exactly when it leaves the line within its limit, in the line's currency, and the provider agrees; answer and fact say what is left after it, and a refusal blames the limit exactly when there is too little |
| BillingRuns.HeldOnceIsAnswered | apps/billing/src/application/credit-hold.handler.ts:45-58 | an order that has a hold is answered with the amount that was held, whatever is asked for this time |
| BillingRuns.ReleaseAnswersAreTrue | apps/billing/src/application/credit-release.handler.ts:51-69 | a release gives the order's whole exposure back to the line; answer and fact say how much it was and what is available after it |
| BillingRuns.IssueAnswersAreTrue | apps/billing/src/application/invoice-issue.handler.ts:72-131 | an existing invoice is answered; a new one is issued exactly for an order whose one entry is a positive hold, in the line's currency, with lines that cover the discount: it takes the next number, lists the given lines and their sum, and consumes the whole hold; each refusal is given exactly in its case |
| BillingRuns.PaymentAcceptedIff | apps/billing/src/domain/invoice.ts:284-293 | on valid tables a payment is accepted if and only if its invoice is open, it is of the invoice's total in the invoice's currency, and its reference is unused; each other answer is given exactly in its case |
| BillingRuns.SettledForGood | apps/billing/src/application/payment-register.handler.ts:96-165 | once a reference has settled an invoice, a repeat changes nothing, the reference settles no other invoice and no other reference settles it |
| BillingRuns.PaidOnceOverRuns | apps/billing/src/application/invoice-application-errors.ts:54-64 | over any continuation with any number of concurrent registrations, that payment stays the only one of its invoice and its reference |
| BillingRuns.PaymentThenRelease | apps/billing/src/application/payment-register.handler.ts:166-219 | an accepted payment is of exactly the invoice's total and records the payment first and then the release it causes, of the whole hold, unless the hold had been released already |
| BillingRuns.PaymentFreesTheHold | apps/billing/src/application/payment-register.handler.ts:166-219 | after it the order's exposure is zero and the line has back exactly what was held |
| BillingFacts.FactsTellAllOverRuns | apps/billing/src/application/invoice-issue.handler.ts:110-131 | over any run every invoice and payment that is stored is announced with what is stored, every announced one is stored, and no two invoices share a reference |
| SagaInvariant.StepKeeps | apps/orders/src/application/saga-steps.ts:161-305 | the inductive invariant of the saga: every delivery, execution, cancellation half and payment keeps what each status, phase and command row says about the others |
| OrdersSimulation.HandlingRefines | apps/orders/src/application/saga-fact-handler.ts:114-226 | for every fact, every status and every command table, the fact handler does what the saga machine does: where the machine throws it fails and changes nothing, what the machine ignores it ignores, and otherwise the order, its rows and its facts are the machine's |
| OrdersSimulation.DirectCancelRefines | apps/orders/src/application/cancel-order.handler.ts:125-151 | the direct cancellation on the tables is the saga machine's |
| FulfillmentSimulation.ReserveRefines | apps/fulfillment/src/application/stock-reservation.handler.ts:35-97 | a reserve on the shared tables is one decision of the order's saga, and undecided only when no product is known |
| FulfillmentSimulation.ReleaseRefines | apps/fulfillment/src/application/stock-reservation.handler.ts:99-136 | a release on the shared tables is the saga's, and touches no other order |
| FulfillmentSimulation.DespatchRefines | apps/fulfillment/src/application/despatch-creation.handler.ts:56-132 | a despatch on the shared tables is the saga's, and touches no other order |
| BillingSimulation.HoldRefines | apps/billing/src/application/credit-hold.handler.ts:32-118 | a hold on the shared line is one decision of the order's saga, and undecided only when the line is missing or of another currency |
| BillingSimulation.IssueRefines | apps/billing/src/application/invoice-issue.handler.ts:67-144 | an invoice on the shared tables is the saga's: issued exactly for a held, positive amount |
| BillingSimulation.PayRefines | apps/billing/src/application/payment-register.handler.ts:122-219 | an accepted payment is of exactly the order's net total, and is the saga's settlement |
| SystemDelivery.DeliveryRefines | apps/orders/src/application/saga-fact-handler.ts:67-226 | any delivery to Orders, first or repeated, is at most one step of that order's saga and moves no other order |
| SystemRuns.SystemStepExplained | apps/orders/src/application/saga-steps.ts:161-305 | one step of the three services together is at most one step of one order's saga, and keeps the tables of all orders |
| SystemRuns.SystemRefinesSagas | apps/orders/src/application/saga-steps.ts:161-305 | from any stock and credit lines, after any interleaving over any number of orders, every order's part of every table is explained by a run of its saga |
| SystemTheorems.ShipWithHold | apps/orders/src/application/saga-steps.ts:222-245 | an order whose reservations are consumed never has a release for cancellation, and its full exposure is tied up until it has paid |
| SystemTheorems.UniformReservations | apps/fulfillment/src/domain/reservation.ts:107-120 | after any run all reservations of an order, over all items, are reserved, all released or all consumed |
| SystemTheorems.MoneyIdentity | apps/orders/src/domain/order-totals.ts:24-41 | after any run every amount asked for, held, consumed, invoiced, paid and released is what the order's lines are worth (price times quantity less discount, summed), in its currency |
| SystemInvoices.InvoicesShowOrders | apps/orders/src/application/saga-command-payloads.ts:37-48 | after any run an invoice names every line of its order with its units and price, and its amount, discount and total are the sums over these lines |
| SystemInvoices.ExactPaymentSettles | apps/billing/src/application/payment-register.handler.ts:122-219 | after any run an `invoiced` order that is not paid yet is settled by what its lines are worth, in its currency and under a new reference, and its exposure returns to zero; any other sum changes nothing |
| SystemUnits.UnitsAreOrdered | apps/orders/src/application/saga-command-payloads.ts:28-35 | after any run an order that has reservations has exactly the units of its own lines on every product, and every fact of Fulfillment counts them: reserved line by line, released and despatched product by product, refused with the units of its lines |
| SystemUnits.DespatchedAsOrdered | apps/fulfillment/src/domain/order-despatch.ts:36-81 | what a despatch lists and what it has consumed are, on every product, the units that the order's lines order |
| SystemTheorems.NothingThrows | apps/orders/src/application/saga-steps.ts:85-90 | after any run the next fact of any stream is handled without an error, so the unmapped release reason and a refused transition are unreachable |
| SystemTheorems.Outcomes | apps/orders/src/application/saga-steps.ts:161-305 | a completed order has everything consumed, a paid invoice and no exposure; a cancelled one has no invoice and no payment; `credit_approved` is never stored |
| SystemTheorems.CancelExcludesDespatch | apps/fulfillment/src/application/despatch-creation.handler.ts:69-117 | in every run in which no direct cancellation of that order commits at `confirmed` with its stock not released, the order, once cancelled, has no consumed reservation and no despatch, whatever happens to other orders |
| SystemTheorems.ProgressAtRest | apps/orders/src/application/saga-fact-handler.ts:114-226 | every order that is at rest (no unanswered command, no undelivered fact) and not cancelled is classified by what a caller knows: without any stocked product it stands at `placed` with nothing reserved; without a usable credit line at `stock_reserved` with its stock held and no exposure; with a positive total it is `completed` or waits `invoiced` for its payment; with a total of zero it stands at `despatched`, or at `confirmed` with its stock released for an operator |
| SystemStalls.ZeroTotalStalls | apps/billing/src/application/invoice-issue.handler.ts:103-108 | a reachable order of total zero that is at rest and `despatched`, because a hold of zero is no active hold |
| SystemStalls.ZeroTotalCancellationHangs | apps/billing/src/application/credit-release.handler.ts:51-69 | a reachable order of total zero whose accepted cancellation hangs at `confirmed`: releasing its hold of zero publishes nothing |
| SystemRest.RestIsReachable | apps/orders/src/infrastructure/saga/saga-command-dispatcher.ts:140-206 | after any run an order can be brought to rest by deliveries and executions alone, so no run gets stuck short of it |
| SystemExclusion.ExclusionFailsExactly | apps/orders/src/application/cancel-order.handler.ts:99-152 | after a direct cancellation some continuation consumes the cancelled order's stock if and only if the order was `confirmed` and its reservations not released |
| SystemExclusion.CompensationCompletes | apps/orders/src/application/cancel-order.handler.ts:178-235 | an order of any total that was cancelled after a hold was owed, at rest, has all reservations released, and has exposure left exactly when it was cancelled by a refused hold, its total is positive and it has ledger entries all the same (a repeat of the hold was approved); never when its hold was decided once; asked of orders of which no direct cancellation commits after `placed` |
| SystemStranding.StockStrandsExactly | apps/orders/src/application/cancel-order.handler.ts:125-151 | a direct cancellation leaves a continuation open that ends at rest with stock reserved for the cancelled order if and only if it finds the order `placed` with its reserve owed and all products stocked, or `stock_reserved` with no release owed |
| SystemStranding.CreditStrandsExactly | apps/orders/src/application/cancel-order.handler.ts:125-151 | and one that ends at rest with exposure left if and only if it finds the order `confirmed`, its total positive and no credit release owed |
| SystemRefusals.RefusedHoldCanStillBeHeld | apps/billing/src/application/credit-hold.handler.ts:66-116 | a run of the composed system to an order that was cancelled because its hold was refused, at rest with its exposure not zero: the repeated hold was decided afresh and approved |
| SystemExclusion.StrandedExactly | apps/orders/src/application/saga-fact-handler.ts:136-181 | in any run, however it was cancelled, a cancelled order at rest still holds stock, or credit, exactly when something was acquired and nothing ever asked for it back |
| SystemExample.UnguardedCancelIsReachable | apps/orders/src/application/cancel-order.handler.ts:101-126 | one item and one credit line suffice for the composed system to reach the cancellation that breaks the exclusion |
| SystemExample.ShippedAfterCancelIsReachable | apps/orders/src/application/cancel-order.handler.ts:101-151 | and from there a cancelled order whose reservations are consumed |
| SystemExample.StrandedStockIsReachable | apps/orders/src/application/saga-fact-handler.ts:163-181 | the composed system reaches a cancelled order at rest whose unit is still reserved: the cancellation overtook an owed `stock.reserve` |
| SystemCompensation.RecordedCompensationHappened | apps/orders/src/application/saga-steps.ts:114-159 | release first, cancel second: after any run every compensation step that a cancellation records names a release that was published and that the tables show, the stock's before the credit's, and a credit rejection never lacks it |
| SystemRecords.CancellationsAreTold | apps/orders/src/application/cancel-order.handler.ts:125-136 | after any run a recorded cancellation has the reason that the order has, and an operator's has no compensation step if and only if it was committed directly |
| SystemOrdinary.FirstDeliveryTotality | apps/orders/src/application/saga-fact-handler.ts:163-216 | without a cancellation of the order, however often an operator reads it, and without second decisions, every first-delivered fact of it is acted on, none ignored, none failing |
| SystemOrdinary.NoRequestIsRefused | apps/billing/src/application/invoice-issue.handler.ts:103-108 | in such runs Fulfillment and Billing refuse no release, despatch or invoice that the order owes |
| SystemClimb.EveryStepClimbs | apps/orders/src/domain/order-transitions.ts:25-100 | no step of the system lowers the rank of an order, changes its lines, currency or credit line, or replaces a command row |
| SystemClimb.FewStatusChanges | apps/orders/src/application/saga-fact-handler.ts:185-209 | an order changes its stored status at most eight times in any run |
| SystemTermination.FewStepsChangeAnything | apps/orders/src/application/saga-fact-handler.ts:185-209 | in any run at most 35 steps change an order, its command rows, their answers, its facts or what was acknowledged of them, and two more for every refusal published |
| SystemReservations.ReservationsAreWhole | apps/fulfillment/src/domain/order-stock-reservation.ts:104-133 | after any run an order has reservations of every product of its lines, all of them stocked, or of none |
| SystemReservations.StaleReleaseReads | apps/fulfillment/src/application/stock-reservation.handler.ts:103-115 | however stale the unlocked read of the stock rows, the release transaction does at its commit what the whole handler would do there, and the guard against changed reservations never fires |
| SystemReservations.StaleDespatchReads | apps/fulfillment/src/application/despatch-creation.handler.ts:59-95 | the same for a despatch, which answers with the one that was made in the meantime |
| Projection.RanksNameStatuses | apps/projector/src/domain/order-status-rank.ts:35-53 | the ranks are in the order of the statuses they imply, with both terminal ones on top |
| SystemProjection.AdvancesAreImplied | apps/projector/src/domain/order-status-rank.ts:41-59 | the status a fact implies is the one the step table moves its order to, one legal edge away |
| SystemProjection.EmissionsAreImplied | apps/projector/src/domain/order-status-rank.ts:41-59 | the status an order's own fact implies is where the edge that emits it leads |
| Projection.ProjectReads | apps/projector/src/infrastructure/persistence/delta-to-pipeline.ts:159-257 | whenever an event id names one envelope, the fold of deltas reads as: the events and timeline entries seen, the greatest rank and its status, and in every write-once field and the header a value that some fact supplied, if any did |
| Projection.FieldsSay | apps/projector/src/domain/fact-projection.ts:138-182 | with one source per field, each field is exactly what the facts of its own kind carry: the despatch reference of `order.despatched`, the invoice reference of `invoice.issued`, the payment reference of `payment.received`, the reason of `order.cancelled`, the header of `order.placed` |
| Projection.ProjectionConverges | apps/projector/src/domain/projection-delta.ts:34-69 | the same facts in any order and with any repeats give one document, header included, when each write-once field has a single source |
| Projection.ConvergesExactly | apps/projector/src/domain/projection-delta.ts:34-69 | exactly then: for any list of facts in which an event id names one envelope, all arrival orders and repeats give one document if and only if each reference, the cancellation reason and the header have one value among the facts |
| SystemProjection.SystemProjectionConverges | apps/projector/src/domain/fact-projection.ts:68-201 | the facts that the composed system records of an order do have single sources, so their projection never depends on arrival |
| SystemDocument.ProjectedFields | apps/projector/src/domain/fact-projection.ts:86-182 | once all facts of an order are projected, in any order and with any repeats, the references are those of its despatch, its invoice and the payment that settled it, the reason is its own, and the header has its parties, currency and lines and what these lines add up to |
| SystemProjection.ProjectedStatusAtRest | apps/projector/src/domain/order-status-rank.ts:35-53 | at rest the projected status of every order is its status in Orders, be it over, waiting or stopped at any status |
| Notifications.NotificationDispatchService.Dispatch | apps/notifications/src/application/notification-dispatch.service.ts:108-155 | a delivery is a duplicate, a send, a failed send taken back, or a failed send whose row stays |
| Notifications.AtMostOneSend | apps/notifications/src/application/notification-dispatch.service.ts:108-155 | over any deliveries nothing is sent twice, and a recorded event was either sent or orphaned, never both |
| Notifications.SentExactly | apps/notifications/src/application/notification-dispatch.service.ts:108-155 | an event has been sent exactly when one of its deliveries could be sent and no earlier one was orphaned |
| Notifications.OutcomesAreExact | apps/notifications/src/application/notification-dispatch.service.ts:108-155 | every delivery is answered by what came before it: a duplicate exactly when an earlier delivery of the event was sent or orphaned, and otherwise what became of this send |

## Left out

- SystemExclusion.CompensationCompletes: stated for an order of which no direct cancellation commits after it has left `placed`; `SystemExclusion.StrandedExactly` covers every other cancelled order, and `SystemStranding` every direct cancellation.
- SystemOrdinary.FirstDeliveryTotality: stated for runs that do not execute a refused reserve or hold again and in which no operator cancels the order; with either, ignored facts are ordinary.
- SystemTermination.FewStepsChangeAnything: the bound grows with the number of refusals, because a refused command may be executed, and refused, any number of times; an order's own facts that need no work may be acknowledged in further steps.
- Redelivery.RedeliveryInvariance: asks that no delivery of the sequence meets the guard of `Redelivery.FailsExactlyOn`; `Redelivery.RepeatsAreDroppedIff` shows for a single delivery that the guard is exact.
- Interleavings inside one transaction: each transaction is one atomic step. `orders.findById` takes no row lock (`apps/orders/src/application/cancel-order.handler.ts:126`), so a lost update between a fact and a cancellation on the same row is not modelled. The unlocked reads of a cancellation and of a payment are steps of their own. Those of a stock release, a despatch and an invoice are part of one step; `SystemReservations.StaleReleaseReads` and `SystemReservations.StaleDespatchReads` show that stale ones change nothing, and an invoice that was found is never removed.
- Identifiers: numbers in place of UUIDs and codes; an order's id is also its reference, an invoice is named by its order, the company is part of the product code, and an event is named by its order, its producer and its position in that stream.
- Payment requests that name an invoice by id and by reference at once, and mismatches between the two.
- Order line mutators (`addLine`, `removeLine`, `changeLineQuantity`): legal before `credit_approved`, called by no handler.
- `Money` and `Quantity` themselves: amounts are unbounded integers with a currency, quantities at least one; the safe-integer bound is not modelled.
- The order in which a repository returns ledger rows and reservations: insertion order.
- `IdempotentConsumer`, the command table, the outbox relay and the dispatcher: modelled by what their callers rely on (dedup row and work in one transaction, one row per order and command, order per order and producer). A command row is either answered or not; parking, retry delays and rejected rows are not modelled.
- Ignored facts: a row keeps the event id and the observed status; the expected status and the marker of the table are left out.
- Dead-lettered facts and `recordSagaFailure`: no fact is dropped, the facts that announce a failure never arise.
- `PlaceOrderHandler` beyond creating an order in `placed` with its fact: request-id races and number allocation.
- The credit decision port: its answer is a parameter of the hold, free in every run.
- The replenish handler: only its transaction on the tables (`apps/fulfillment/src/application/commands/stock.command-handlers.ts`), as one step of the system.
- Projection.ProjectReads: the timeline is the set of its entries (the stored array is sorted afresh on every update by a key that ends in the event id); the header has the parties, the currency, the lines and the totals of `order.placed`, without its date and the parties' GLN numbers (the credit line stands for the parties); summaries and money formatting are left out.
- The retry loop and dead-letter queue around the notification dispatcher, and the recipients of a notification.
- Clocks, trace ids, metrics, generated ids, message envelopes beyond event id, order and fact.
- Gateway, web application, seeds, wiring, and the adapters for NATS, Kafka, MySQL and MongoDB.
