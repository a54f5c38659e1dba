/** How the tables of the three services, looked at for one order, stand for a saga state. */
module Abstraction {
  import opened Kernel
  import opened OrderAggregate
  import opened SagaSteps
  import opened OrdersService
  import opened Stock
  import opened FulfillmentTables
  import opened FulfillmentPhases
  import L = Ledger
  import opened BillingTables
  import opened BillingInvariants
  import S = Saga

  // ---- Facts and events ----

  predicate IsEvent(f: Fact, e: S.SagaEvent) {
    match e
    case PlacedEvent => f.OrderPlacedFact?
    case StockRejectedEvent => f.StockRejectedFact?
    case StockReservedEvent => f.StockReservedFact?
    case StockReleasedEvent => f.StockReleasedFact?
    case DespatchedEvent => f.OrderDespatchedFact?
    case CreditRejectedEvent => f.CreditRejectedFact?
    case CreditApprovedEvent => f.CreditApprovedFact?
    case CancelReleaseEvent => f.CreditReleasedFact? && f.creditReason == ForOrderCancelled
    case InvoicedEvent => f.InvoiceIssuedFact?
    case PaidEvent => f.PaymentReceivedFact?
    case PaymentReleaseEvent => f.CreditReleasedFact? && f.creditReason == ForInvoicePaid
  }

  /** Every amount a Billing fact speaks of is the order's net total. */
  predicate SpeaksOf(f: Fact, net: int) {
    match f
    case CreditApprovedFact(held, _) => held == net
    case CreditRejectedFact(requested, _, _) => requested == net
    case CreditReleasedFact(released, _, _, _) => released == net
    case InvoiceIssuedFact(_, total) => total == net
    case PaymentReceivedFact(_, paid) => paid == net
    case _ => true
  }

  // ---- Orders ----

  ghost predicate OrderIs(order: OrderSnapshot, g: S.SagaState) {
    ValidSnapshot(order) && order.status == g.status && order.cancellationReason == g.reason
      && g.positive == (NetOf(order.lines) > 0)
  }

  function RowFor(commands: CommandTable, o: OrderId, kind: CommandKind): Option<CommandRow> {
    if (o, kind) in commands then Some(commands[(o, kind)]) else None
  }

  predicate RowIs(row: Option<CommandRow>, answered: bool, payload: CommandPayload, state: S.Row) {
    && (row.Some? <==> state != S.NoRow)
    && (answered <==> state == S.Answered)
    && (row.Some? ==> row.value.payload == payload)
  }

  function ReleaseReasonOf(byOperator: bool): StockReleaseReason {
    if byOperator then AfterOrderCancelled else AfterCreditRejection
  }

  /** The payload of every command, a function of the order's lines and of who asked for the release. */
  function PayloadOf(kind: CommandKind, order: OrderSnapshot, byOperator: bool): CommandPayload {
    match kind
    case ReserveStock => ReserveStockPayload(ReserveLinesOf(order.lines))
    case ReleaseStock => ReleaseStockPayload(ReleaseReasonOf(byOperator))
    case CreateDespatch => CreateDespatchPayload
    case HoldCredit => HoldCreditPayload(order.credit, Money(NetOf(order.lines), order.currency))
    case IssueInvoice =>
      IssueInvoicePayload(order.credit, order.currency, InvoiceLinesOf(order.lines), DiscountOf(order.lines))
    case ReleaseCredit => ReleaseCreditPayload(order.credit)
  }

  function StateOf(kind: CommandKind, g: S.SagaState): S.Row {
    match kind
    case ReserveStock => g.reserveRow
    case ReleaseStock => g.releaseRow
    case CreateDespatch => g.despatchRow
    case HoldCredit => g.holdRow
    case IssueInvoice => g.invoiceRow
    case ReleaseCredit => g.refundRow
  }

  ghost predicate RowsAre(commands: CommandTable, answered: set<(OrderId, CommandKind)>, o: OrderId,
                          order: OrderSnapshot, g: S.SagaState) {
    && (forall kind ::
        RowIs(RowFor(commands, o, kind), (o, kind) in answered, PayloadOf(kind, order, g.byOperator), StateOf(kind, g)))
    && (IsOperatorCancelEnvelope(RowAt(commands, o, ReleaseStock)) <==> g.byOperator)
    && !IsOperatorCancelEnvelope(RowAt(commands, o, ReleaseCredit))
  }

  /** The facts that one save of the order records, by the status it had and the status it has: Table T-1's emissions.
      */
  predicate Announces(facts: seq<Fact>, before: OrderStatus, after: OrderStatus) {
    && (before != after ==> before != Cancelled && before != Completed)
    && StatusRank(before) <= StatusRank(after)
    && if before == after then facts == []
       else if after == Cancelled then |facts| == 1 && facts[0].OrderCancelledFact?
       else if after == Confirmed then facts == [OrderConfirmedFact]
       else if after == Completed then facts == [OrderCompletedFact]
       else facts == []
  }

  /** First `order.placed`, then nothing that the orchestrator works on; the closing facts are there exactly when
      the order is closed, and a cancellation is announced once. */
  ghost predicate OrdersStreamIs(facts: seq<Fact>, status: OrderStatus) {
    && |facts| >= 1 && facts[0].OrderPlacedFact?
    && (forall i :: 1 <= i < |facts| ==> NeedsNoWork(facts[i]))
    && (forall i :: 0 <= i < |facts| ==>
        (facts[i].OrderCancelledFact? ==> status == Cancelled)
          && (facts[i].OrderCompletedFact? ==> status == Completed)
          && (facts[i].OrderConfirmedFact? ==> StatusRank(Confirmed) <= StatusRank(status)))
    && (status == Cancelled ==> exists i :: 0 <= i < |facts| && facts[i].OrderCancelledFact?)
    && (status == Completed ==> exists i :: 0 <= i < |facts| && facts[i].OrderCompletedFact?)
    && (status == Confirmed ==> exists i :: 0 <= i < |facts| && facts[i].OrderConfirmedFact?)
    && (forall i, j :: 0 <= i < j < |facts| ==> !(facts[i].OrderCancelledFact? && facts[j].OrderCancelledFact?))
  }

  ghost predicate ProcessedIs(processed: set<EventId>, p: Producer, o: OrderId, seen: nat) {
    forall k: nat :: EventId(p, o, k) in processed <==> k < seen
  }

  ghost predicate ReadsAre(statusReads: set<(OrderId, OrderStatus)>, o: OrderId, g: S.SagaState) {
    forall status :: (o, status) in statusReads ==> if S.Compensates(status) then g.sawCompensating else g.sawOther
  }

  // ---- Fulfillment ----

  function StatusOf(phase: S.StockPhase): Option<ReservationStatus> {
    match phase
    case StockUntouched => None
    case StockHeld => Some(Reserved)
    case StockFreed => Some(Released)
    case StockShipped => Some(Consumed)
  }

  ghost predicate StockIs(f: FulfillmentState, o: OrderId, lines: seq<OrderLine>, phase: S.StockPhase) {
    && InPhase(f.reservations, o, StatusOf(phase))
    && OnLines(f.reservations, o, ReserveLinesOf(lines))
    && (o in f.despatches <==> phase == S.StockShipped)
  }

  ghost predicate StockStreamIs(facts: seq<Fact>, refusals: nat, phase: S.StockPhase, byOperator: bool) {
    && |facts| == refusals + S.StockFacts(phase)
    && (forall i :: 0 <= i < |facts| ==> IsEvent(facts[i], S.StockEvent(refusals, phase, i)))
    && (forall i :: 0 <= i < |facts| ==> facts[i].StockReleasedFact? ==>
        facts[i].releaseReason == ReleaseReasonOf(byOperator))
  }

  // ---- Billing ----

  function EntriesOf(o: OrderId, amount: Money, phase: S.CreditPhase): seq<L.Entry> {
    var hold, consume, release := L.Entry(o, amount, L.Hold), L.Entry(o, amount, L.Consume),
      L.Entry(o, amount, L.Release);
    match phase
    case CreditUntouched => []
    case CreditHeld => [hold]
    case CreditFreed => [hold, release]
    case CreditInvoiced => [hold, consume]
    case CreditFreedAfterInvoice => [hold, consume, release]
    case CreditSettled => [hold, consume, release]
    case CreditSettledAfterFree => [hold, consume, release]
  }

  predicate IsInvoiced(phase: S.CreditPhase) {
    !phase.CreditUntouched? && !phase.CreditHeld? && !phase.CreditFreed?
  }

  predicate IsSettled(phase: S.CreditPhase) {
    phase.CreditSettled? || phase.CreditSettledAfterFree?
  }

  ghost predicate CreditIs(b: BillingState, o: OrderId, order: OrderSnapshot, phase: S.CreditPhase) {
    var amount := Money(NetOf(order.lines), order.currency);
    && OrderEntries(b, order.credit, o) == EntriesOf(o, amount, phase)
    && (forall c :: c != order.credit ==> OrderEntries(b, c, o) == [])
    && (phase != S.CreditUntouched ==> order.credit in b.credits && b.credits[order.credit].currency == order.currency)
    && (o in b.invoices <==> IsInvoiced(phase))
    && (o in b.invoices ==> && b.invoices[o].order == o && b.invoices[o].credit == order.credit
                            && b.invoices[o].total == NetOf(order.lines) && b.invoices[o].currency == order.currency
                            && (b.invoices[o].state.Settled? <==> IsSettled(phase)))
  }

  ghost predicate CreditStreamIs(facts: seq<Fact>, refusals: nat, phase: S.CreditPhase, net: int) {
    && |facts| == refusals + S.CreditFacts(phase)
    && (forall i :: 0 <= i < |facts| ==>
        IsEvent(facts[i], S.CreditEvent(refusals, phase, i)) && SpeaksOf(facts[i], net))
  }
}
