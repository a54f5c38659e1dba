/** The fact step table and the payloads of the commands it owes. */
module SagaSteps {
  import opened Kernel
  import opened OrderAggregate

  /** What an `advance` row does to the order. */
  datatype Advance =
    | LeaveStatus | ReserveOrder | ApproveAndConfirm | DespatchOrder | InvoiceOrder | PayOrder | CompleteOrder

  /** Where a `cancel` row takes its reason and its compensation steps from. */
  datatype CancelRule = BecauseStockRejected | FromStockRelease | FromStockThenCreditRelease

  datatype SagaStep =
    | Skip
    | AdvanceStep(precondition: OrderStatus, advance: Advance, commandAfter: Option<CommandKind>)
    | CancelStep(precondition: OrderStatus, rule: CancelRule)

  datatype StepError =
    | OrderRefused(error: OrderError)
    | UnmappedCreditReleaseReason(reason: CreditReleaseReason)
    | UnexpectedReleaseTrigger
    | NoLines

  /** `SAGA_STEPS`: every variant of a fact type, in table order. */
  function StepVariantsFor(fact: Fact): seq<SagaStep> {
    match fact
    case OrderPlacedFact(_) => [AdvanceStep(Placed, LeaveStatus, Some(ReserveStock))]
    case StockReservedFact(_) => [AdvanceStep(Placed, ReserveOrder, Some(HoldCredit))]
    case StockRejectedFact(_, _) => [CancelStep(Placed, BecauseStockRejected)]
    case CreditApprovedFact(_, _) => [AdvanceStep(StockReserved, ApproveAndConfirm, Some(CreateDespatch))]
    case CreditRejectedFact(_, _, _) => [AdvanceStep(StockReserved, LeaveStatus, Some(ReleaseStock))]
    case StockReleasedFact(_, _) =>
      [CancelStep(StockReserved, FromStockRelease),
       AdvanceStep(CreditApproved, LeaveStatus, Some(ReleaseCredit)),
       AdvanceStep(Confirmed, LeaveStatus, Some(ReleaseCredit))]
    case OrderDespatchedFact(_, _) => [AdvanceStep(Confirmed, DespatchOrder, Some(IssueInvoice))]
    case InvoiceIssuedFact(_, _) => [AdvanceStep(Despatched, InvoiceOrder, None)]
    case PaymentReceivedFact(_, _) => [AdvanceStep(Invoiced, PayOrder, None)]
    case CreditReleasedFact(_, _, _, _) =>
      [AdvanceStep(Paid, CompleteOrder, None),
       CancelStep(CreditApproved, FromStockThenCreditRelease),
       CancelStep(Confirmed, FromStockThenCreditRelease)]
    case OrderConfirmedFact => [Skip]
    case OrderCompletedFact => [Skip]
    case OrderCancelledFact(_, _) => [Skip]
    case OrderSagaFailedFact => []
  }

  /** No variant at all, or only `skip`: the fact is acknowledged without any I/O. */
  predicate NeedsNoWork(fact: Fact) {
    forall i :: 0 <= i < |StepVariantsFor(fact)| ==> StepVariantsFor(fact)[i].Skip?
  }

  function FirstMatching(variants: seq<SagaStep>, status: OrderStatus): Option<SagaStep> {
    if variants == [] then None
    else if !variants[0].Skip? && variants[0].precondition == status then Some(variants[0])
    else FirstMatching(variants[1..], status)
  }

  function StepForStatus(fact: Fact, status: OrderStatus): (r: Option<SagaStep>)
    ensures r.Some? ==> !r.value.Skip? && r.value.precondition == status && r.value in StepVariantsFor(fact)
    ensures r.None? ==> forall step :: step in StepVariantsFor(fact) && !step.Skip? ==> step.precondition != status
  {
    FirstMatchingIsExact(StepVariantsFor(fact), status);
    FirstMatching(StepVariantsFor(fact), status)
  }

  lemma FirstMatchingIsExact(variants: seq<SagaStep>, status: OrderStatus)
    ensures var r := FirstMatching(variants, status);
            && (r.Some? ==> !r.value.Skip? && r.value.precondition == status && r.value in variants)
            && (r.None? ==> forall step :: step in variants && !step.Skip? ==> step.precondition != status)
  {
  }

  /** The table as one readable function: which statuses act on a fact, and how. */
  function ActionOn(fact: Fact, status: OrderStatus): Option<SagaStep> {
    match (fact, status)
    case (OrderPlacedFact(_), Placed) => Some(AdvanceStep(Placed, LeaveStatus, Some(ReserveStock)))
    case (StockReservedFact(_), Placed) => Some(AdvanceStep(Placed, ReserveOrder, Some(HoldCredit)))
    case (StockRejectedFact(_, _), Placed) => Some(CancelStep(Placed, BecauseStockRejected))
    case (CreditApprovedFact(_, _), StockReserved) =>
      Some(AdvanceStep(StockReserved, ApproveAndConfirm, Some(CreateDespatch)))
    case (CreditRejectedFact(_, _, _), StockReserved) =>
      Some(AdvanceStep(StockReserved, LeaveStatus, Some(ReleaseStock)))
    case (StockReleasedFact(_, _), StockReserved) => Some(CancelStep(StockReserved, FromStockRelease))
    case (StockReleasedFact(_, _), CreditApproved) =>
      Some(AdvanceStep(CreditApproved, LeaveStatus, Some(ReleaseCredit)))
    case (StockReleasedFact(_, _), Confirmed) => Some(AdvanceStep(Confirmed, LeaveStatus, Some(ReleaseCredit)))
    case (OrderDespatchedFact(_, _), Confirmed) => Some(AdvanceStep(Confirmed, DespatchOrder, Some(IssueInvoice)))
    case (InvoiceIssuedFact(_, _), Despatched) => Some(AdvanceStep(Despatched, InvoiceOrder, None))
    case (PaymentReceivedFact(_, _), Invoiced) => Some(AdvanceStep(Invoiced, PayOrder, None))
    case (CreditReleasedFact(_, _, _, _), Paid) => Some(AdvanceStep(Paid, CompleteOrder, None))
    case (CreditReleasedFact(_, _, _, _), CreditApproved) =>
      Some(CancelStep(CreditApproved, FromStockThenCreditRelease))
    case (CreditReleasedFact(_, _, _, _), Confirmed) => Some(CancelStep(Confirmed, FromStockThenCreditRelease))
    case _ => None
  }

  /** The first-match search over the table never depends on the row order: preconditions are pairwise distinct. */
  lemma StepForStatusIsActionOn(fact: Fact, status: OrderStatus)
    ensures StepForStatus(fact, status) == ActionOn(fact, status)
  {
    var v := StepVariantsFor(fact);
    if |v| == 3 {
      assert v[1..][1..] == [v[2]];
      assert FirstMatching([v[2]], status) == if v[2].precondition == status then Some(v[2])
             else FirstMatching([], status);
      assert FirstMatching(v[1..], status) == if v[1].precondition == status then Some(v[1])
             else FirstMatching(v[1..][1..], status);
    }
  }

  // ---- Cancellation reasons ----

  function MapReason(reason: StockReleaseReason): CancellationReason {
    match reason
    case AfterCreditRejection => CreditRejection
    case AfterOrderCancelled => OperatorCancelled
  }

  function MapCreditReleaseReason(reason: CreditReleaseReason): Result<CancellationReason, StepError> {
    if reason != ForOrderCancelled then Err(UnmappedCreditReleaseReason(reason)) else Ok(OperatorCancelled)
  }

  function ReasonOf(rule: CancelRule, e: Envelope): Result<CancellationReason, StepError> {
    match rule
    case BecauseStockRejected => Ok(StockRejection)
    case FromStockRelease => if e.fact.StockReleasedFact? then Ok(MapReason(e.fact.releaseReason))
      else Err(UnexpectedReleaseTrigger)
    case FromStockThenCreditRelease =>
      if e.fact.CreditReleasedFact? then MapCreditReleaseReason(e.fact.creditReason) else Err(UnexpectedReleaseTrigger)
  }

  /** An operator cancellation that took both releases reports stock first; the earlier event's id is not known there.
      */
  function CompensationOf(rule: CancelRule, e: Envelope): seq<CompensationStep> {
    match rule
    case BecauseStockRejected => []
    case FromStockRelease => [StockReleasedStep(Some(e.eventId))]
    case FromStockThenCreditRelease => [StockReleasedStep(None), CreditReleasedStep(Some(e.eventId))]
  }

  // ---- Command payloads ----

  function ReserveLinesOf(lines: seq<OrderLine>): seq<ReserveLine> {
    seq(|lines|, i requires 0 <= i < |lines| => ReserveLine(lines[i].product, lines[i].quantity))
  }

  function InvoiceLinesOf(lines: seq<OrderLine>): seq<InvoiceLine> {
    seq(|lines|, i requires 0 <= i < |lines| =>
        InvoiceLine(lines[i].product, lines[i].quantity, lines[i].unitPrice.amount))
  }

  /** The payload of a command owed by `fact`, a snapshot of the order as it is when the command is enqueued. */
  function BuildSagaCommandPayload(kind: CommandKind, order: OrderSnapshot,
                                   fact: Fact): Result<CommandPayload, StepError> {
    match kind
    case ReserveStock => if order.lines == [] then Err(NoLines)
      else Ok(ReserveStockPayload(ReserveLinesOf(order.lines)))
    case ReleaseStock => if fact.CreditRejectedFact? then Ok(ReleaseStockPayload(AfterCreditRejection))
      else Err(UnexpectedReleaseTrigger)
    case CreateDespatch => Ok(CreateDespatchPayload)
    case HoldCredit => Ok(HoldCreditPayload(order.credit, Money(NetOf(order.lines), order.currency)))
    case IssueInvoice =>
      if order.lines == [] then Err(NoLines)
      else Ok(IssueInvoicePayload(order.credit, order.currency, InvoiceLinesOf(order.lines), DiscountOf(order.lines)))
    case ReleaseCredit => Ok(ReleaseCreditPayload(order.credit))
  }

  /** `Σ unitPrice × units` over the invoice lines: what Billing computes on its own. */
  function InvoiceGross(lines: seq<InvoiceLine>): int {
    if lines == [] then 0
      else InvoiceGross(lines[..|lines| - 1]) + lines[|lines| - 1].unitPrice * lines[|lines| - 1].units
  }

  /** Billing's gross of the invoice payload is the order's own gross. */
  lemma {:induction false} InvoiceGrossIsOrderGross(lines: seq<OrderLine>)
    ensures InvoiceGross(InvoiceLinesOf(lines)) == GrossOf(lines)
  {
    if lines != [] {
      var init := lines[..|lines| - 1];
      InvoiceGrossIsOrderGross(init);
      assert InvoiceLinesOf(lines)[..|lines| - 1] == InvoiceLinesOf(init);
    }
  }

  /** Money identity: the amount held is the order's net total, and the invoice that Billing derives
      from the lines and the discount in the other payload comes to exactly the same amount. */
  lemma HeldAmountEqualsInvoiceTotal(order: OrderSnapshot, f: Fact, g: Fact)
    requires ValidSnapshot(order)
    ensures var hold := BuildSagaCommandPayload(HoldCredit, order, f);
            var issue := BuildSagaCommandPayload(IssueInvoice, order, g);
            && hold.Ok? && issue.Ok?
            && hold.value.amount == Money(NetOf(order.lines), order.currency)
            && InvoiceGross(issue.value.invoiceLines) - issue.value.discount == hold.value.amount.amount
            && issue.value.currency == hold.value.amount.currency
            && issue.value.credit == hold.value.credit
  {
    InvoiceGrossIsOrderGross(order.lines);
  }
}
