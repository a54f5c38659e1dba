/** One order's saga across the three services: the order and its command rows at Orders, the phase of its
    reservations at Fulfillment, the phase of its hold at Billing, and the facts still on their way.
    The composed system projects onto this machine, order by order. */
module Saga {
  import opened Kernel

  datatype StockPhase = StockUntouched | StockHeld | StockFreed | StockShipped

  /** The two phases with a release after the invoice are what must never happen. */
  datatype CreditPhase =
    | CreditUntouched | CreditHeld | CreditFreed | CreditInvoiced | CreditSettled
    | CreditFreedAfterInvoice | CreditSettledAfterFree

  datatype SagaEvent =
    | PlacedEvent
    | StockRejectedEvent | StockReservedEvent | StockReleasedEvent | DespatchedEvent
    | CreditRejectedEvent | CreditApprovedEvent | CancelReleaseEvent | InvoicedEvent | PaidEvent | PaymentReleaseEvent

  /** A row of the command table; answered means the responder has replied at least once. */
  datatype Row = NoRow | Pending | Answered

  /** What the services know of what an order refers to: whether some product of its lines is stocked, and whether its
      credit line exists in its currency. */
  datatype ReferenceData = ReferenceData(stocked: bool, creditable: bool)

  /** How many of its requests the order's stock and credit have been refused. */
  datatype Refusals = Refusals(stock: nat, credit: nat)

  /** `reference`: the reference data of the order; `positive`: its total is above zero.
      A stream is its refusals followed by the facts of its phase.
      `sawCompensating`, `sawOther`: what the unlocked reads of operator cancellations have returned so far. */
  datatype SagaState = SagaState(
    reference: ReferenceData, positive: bool,
    status: OrderStatus, reason: Option<CancellationReason>,
    reserveRow: Row, holdRow: Row, releaseRow: Row, despatchRow: Row, invoiceRow: Row, refundRow: Row, byOperator: bool,
    placedSeen: bool,
    refusals: Refusals, stock: StockPhase, stockSeen: nat, credit: CreditPhase, creditSeen: nat,
    sawCompensating: bool, sawOther: bool)

  // ---- Streams ----

  function StockFacts(p: StockPhase): nat {
    match p
    case StockUntouched => 0
    case StockHeld => 1
    case StockFreed => 2
    case StockShipped => 2
  }

  function CreditFacts(p: CreditPhase): nat {
    match p
    case CreditUntouched => 0
    case CreditHeld => 1
    case CreditFreed => 2
    case CreditInvoiced => 2
    case CreditFreedAfterInvoice => 3
    case CreditSettled => 4
    case CreditSettledAfterFree => 4
  }

  function StockLength(s: SagaState): nat { s.refusals.stock + StockFacts(s.stock) }

  function CreditLength(s: SagaState): nat { s.refusals.credit + CreditFacts(s.credit) }

  /** The fact at place `i` of a Fulfillment stream: the refusals first, then the facts of the phase. */
  function StockEvent(refusals: nat, phase: StockPhase, i: nat): SagaEvent {
    if i < refusals then StockRejectedEvent
    else if i == refusals then StockReservedEvent
    else if phase == StockFreed then StockReleasedEvent else DespatchedEvent
  }

  /** The fact at place `i` of a Billing stream. */
  function CreditEvent(refusals: nat, phase: CreditPhase, i: nat): SagaEvent {
    var place := i - refusals;
    if place < 0 then CreditRejectedEvent
    else if place == 0 then CreditApprovedEvent
    else if place == 1 then (if phase == CreditFreed then CancelReleaseEvent else InvoicedEvent)
    else if place == 2 then (if phase == CreditSettled then PaidEvent else CancelReleaseEvent)
    else if phase == CreditSettled then PaymentReleaseEvent else PaidEvent
  }

  function StockEventAt(s: SagaState, i: nat): SagaEvent { StockEvent(s.refusals.stock, s.stock, i) }

  function CreditEventAt(s: SagaState, i: nat): SagaEvent { CreditEvent(s.refusals.credit, s.credit, i) }

  // ---- What Orders does with a first delivery ----

  datatype Reaction = Acts(next: SagaState) | Ignores | Throws

  /** Enqueueing is idempotent. */
  function Owed(row: Row): Row {
    if row == NoRow then Pending else row
  }

  predicate AcceptedCancel(s: SagaState) {
    s.releaseRow != NoRow && s.byOperator
  }

  function Cancelling(s: SagaState, reason: CancellationReason): SagaState {
    s.(status := Cancelled, reason := Some(reason))
  }

  function OnPlaced(s: SagaState): Reaction {
    if s.status == Placed then Acts(s.(reserveRow := Owed(s.reserveRow))) else Ignores
  }

  function OnStockRejected(s: SagaState): Reaction {
    if s.status == Placed then Acts(Cancelling(s, StockRejection)) else Ignores
  }

  function OnStockReserved(s: SagaState): Reaction {
    if s.status == Placed then Acts(s.(status := StockReserved, holdRow := Owed(s.holdRow))) else Ignores
  }

  function OnStockReleased(s: SagaState): Reaction {
    if s.status == StockReserved then Acts(Cancelling(s, if s.byOperator then OperatorCancelled else CreditRejection))
    else if s.status == CreditApproved || s.status == Confirmed then Acts(s.(refundRow := Owed(s.refundRow)))
    else Ignores
  }

  function OnDespatched(s: SagaState): Reaction {
    if s.status == Confirmed then Acts(s.(status := Despatched, invoiceRow := Owed(s.invoiceRow))) else Ignores
  }

  function OnCreditRejected(s: SagaState): Reaction {
    if s.status == StockReserved then Acts(s.(releaseRow := Owed(s.releaseRow))) else Ignores
  }

  /** An approval that comes after an accepted operator cancellation is unwound; otherwise it confirms the order. */
  function OnCreditApproved(s: SagaState): Reaction {
    if (s.status == Cancelled && s.reason == Some(OperatorCancelled))
      || (s.status == StockReserved && AcceptedCancel(s))
    then Acts(s.(refundRow := Owed(s.refundRow)))
    else if s.status == StockReserved then Acts(s.(status := Confirmed, despatchRow := Owed(s.despatchRow)))
    else Ignores
  }

  function OnInvoiced(s: SagaState): Reaction {
    if s.status == Despatched then Acts(s.(status := Invoiced)) else Ignores
  }

  function OnPaid(s: SagaState): Reaction {
    if s.status == Invoiced then Acts(s.(status := Paid)) else Ignores
  }

  /** A release after a payment has no cancellation reason to map to. */
  function OnPaymentRelease(s: SagaState): Reaction {
    if s.status == Paid then Acts(s.(status := Completed))
    else if s.status == CreditApproved || s.status == Confirmed then Throws else Ignores
  }

  function OnCancelRelease(s: SagaState): Reaction {
    if s.status == Paid then Acts(s.(status := Completed))
    else if s.status == CreditApproved || s.status == Confirmed then Acts(Cancelling(s, OperatorCancelled)) else Ignores
  }

  function React(s: SagaState, e: SagaEvent): Reaction {
    match e
    case PlacedEvent => OnPlaced(s)
    case StockRejectedEvent => OnStockRejected(s)
    case StockReservedEvent => OnStockReserved(s)
    case StockReleasedEvent => OnStockReleased(s)
    case DespatchedEvent => OnDespatched(s)
    case CreditRejectedEvent => OnCreditRejected(s)
    case CreditApprovedEvent => OnCreditApproved(s)
    case InvoicedEvent => OnInvoiced(s)
    case PaidEvent => OnPaid(s)
    case PaymentReleaseEvent => OnPaymentRelease(s)
    case CancelReleaseEvent => OnCancelRelease(s)
  }

  // ---- Deliveries: the next fact of one stream, acknowledged unless its handling throws ----

  predicate StockPending(s: SagaState) { s.stockSeen < StockLength(s) }

  predicate CreditPending(s: SagaState) { s.creditSeen < CreditLength(s) }

  function PlacedDelivery(s: SagaState): SagaState {
    match OnPlaced(s)
    case Throws => s
    case Ignores => s.(placedSeen := true)
    case Acts(next) => next.(placedSeen := true)
  }

  function StockAcknowledged(s: SagaState, r: Reaction): SagaState {
    match r
    case Throws => s
    case Ignores => s.(stockSeen := s.stockSeen + 1)
    case Acts(next) => next.(stockSeen := next.stockSeen + 1)
  }

  function CreditAcknowledged(s: SagaState, r: Reaction): SagaState {
    match r
    case Throws => s
    case Ignores => s.(creditSeen := s.creditSeen + 1)
    case Acts(next) => next.(creditSeen := next.creditSeen + 1)
  }

  // ---- Who touches what ----

  predicate SameOrder(s: SagaState, t: SagaState) {
    t.status == s.status && t.reason == s.reason
  }

  predicate SameFulfillment(s: SagaState, t: SagaState) {
    t.stock == s.stock && t.refusals.stock == s.refusals.stock && t.stockSeen == s.stockSeen
      && t.despatchRow == s.despatchRow
  }

  predicate SameBilling(s: SagaState, t: SagaState) {
    t.credit == s.credit && t.refusals.credit == s.refusals.credit && t.creditSeen == s.creditSeen
      && t.refundRow == s.refundRow
  }

  // ---- Executions: how a responder decides a request that is still open ----

  /** `NoDecision` only when the reference data is missing. */
  datatype Decision = Accept | Decline | NoDecision

  function ReserveExecuted(s: SagaState, d: Decision): (t: SagaState)
    ensures SameOrder(s, t) && SameBilling(s, t)
  {
    if s.stock != StockUntouched || d == NoDecision then s.(reserveRow := Answered)
    else if d == Accept then s.(reserveRow := Answered, stock := StockHeld)
    else s.(reserveRow := Answered, refusals := s.refusals.(stock := s.refusals.stock + 1))
  }

  function ReleaseExecuted(s: SagaState): (t: SagaState)
    ensures SameOrder(s, t) && SameBilling(s, t)
  {
    s.(releaseRow := Answered, stock := if s.stock == StockHeld then StockFreed else s.stock)
  }

  function DespatchExecuted(s: SagaState): (t: SagaState)
    ensures SameOrder(s, t) && SameBilling(s, t)
  {
    s.(despatchRow := Answered, stock := if s.stock == StockHeld then StockShipped else s.stock)
  }

  function HoldExecuted(s: SagaState, d: Decision): (t: SagaState)
    ensures SameOrder(s, t) && SameFulfillment(s, t)
  {
    if s.credit != CreditUntouched || d == NoDecision then s.(holdRow := Answered)
    else if d == Accept then s.(holdRow := Answered, credit := CreditHeld)
    else s.(holdRow := Answered, refusals := s.refusals.(credit := s.refusals.credit + 1))
  }

  function IssueExecuted(s: SagaState): (t: SagaState)
    ensures SameOrder(s, t) && SameFulfillment(s, t)
  {
    s.(invoiceRow := Answered, credit := if s.credit == CreditHeld && s.positive then CreditInvoiced else s.credit)
  }

  function RefundExecuted(s: SagaState): (t: SagaState)
    ensures SameOrder(s, t) && SameFulfillment(s, t)
  {
    s.(refundRow := Answered, credit := if s.credit == CreditHeld && s.positive then CreditFreed
                                        else if s.credit == CreditInvoiced then CreditFreedAfterInvoice else s.credit)
  }

  function PaymentRegistered(s: SagaState): (t: SagaState)
    ensures SameOrder(s, t) && SameFulfillment(s, t)
  {
    if s.credit == CreditInvoiced then s.(credit := CreditSettled)
    else if s.credit == CreditFreedAfterInvoice then s.(credit := CreditSettledAfterFree) else s
  }

  // ---- The operator: an unlocked read, and later one of two writes ----

  predicate Compensates(status: OrderStatus) {
    status == StockReserved || status == CreditApproved || status == Confirmed
  }

  function StatusRead(s: SagaState): (t: SagaState)
    ensures SameOrder(s, t) && SameFulfillment(s, t) && SameBilling(s, t)
  {
    if Compensates(s.status) then s.(sawCompensating := true) else s.(sawOther := true)
  }

  function CancelEnqueued(s: SagaState): (t: SagaState)
    ensures SameOrder(s, t) && SameFulfillment(s, t) && SameBilling(s, t)
  {
    if s.releaseRow != NoRow then s else s.(releaseRow := Pending, byOperator := true)
  }

  function CancelledDirect(s: SagaState): (t: SagaState)
    ensures SameFulfillment(s, t) && SameBilling(s, t)
  {
    if StatusRank(s.status) <= StatusRank(Confirmed) then Cancelling(s, OperatorCancelled) else s
  }

  // ---- Steps and runs ----

  datatype SagaMove =
    | DeliverPlaced | DeliverStock | DeliverCredit
    | ExecReserve(decision: Decision) | ExecRelease | ExecDespatch
    | ExecHold(decision: Decision) | ExecIssue | ExecReleaseCredit
    | CancelRead | CancelEnqueue | CancelDirect
    | Pay

  /** A delivery needs an undelivered fact, an execution needs its row, a cancellation an earlier read. */
  predicate Enabled(s: SagaState, m: SagaMove) {
    match m
    case DeliverPlaced => !s.placedSeen
    case DeliverStock => StockPending(s)
    case DeliverCredit => CreditPending(s)
    case ExecReserve(d) => s.reserveRow != NoRow && (d == NoDecision ==> !s.reference.stocked)
    case ExecHold(d) => s.holdRow != NoRow && (d == NoDecision ==> !s.reference.creditable)
    case ExecRelease => s.releaseRow != NoRow
    case ExecDespatch => s.despatchRow != NoRow
    case ExecIssue => s.invoiceRow != NoRow
    case ExecReleaseCredit => s.refundRow != NoRow
    case CancelRead => true
    case CancelEnqueue => s.sawCompensating
    case CancelDirect => s.sawOther
    case Pay => true
  }

  function Next(s: SagaState, m: SagaMove): SagaState
    requires Enabled(s, m)
  {
    match m
    case DeliverPlaced => PlacedDelivery(s)
    case DeliverStock => StockAcknowledged(s, React(s, StockEventAt(s, s.stockSeen)))
    case DeliverCredit => CreditAcknowledged(s, React(s, CreditEventAt(s, s.creditSeen)))
    case ExecReserve(d) => ReserveExecuted(s, d)
    case ExecRelease => ReleaseExecuted(s)
    case ExecDespatch => DespatchExecuted(s)
    case ExecHold(d) => HoldExecuted(s, d)
    case ExecIssue => IssueExecuted(s)
    case ExecReleaseCredit => RefundExecuted(s)
    case CancelRead => StatusRead(s)
    case CancelEnqueue => CancelEnqueued(s)
    case CancelDirect => CancelledDirect(s)
    case Pay => PaymentRegistered(s)
  }

  /** One step of any kind; a step that is not enabled does not happen. */
  function Step(s: SagaState, m: SagaMove): SagaState {
    if Enabled(s, m) then Next(s, m) else s
  }

  function Run(s: SagaState, moves: seq<SagaMove>): SagaState {
    if moves == [] then s else Step(Run(s, moves[..|moves| - 1]), moves[|moves| - 1])
  }

  lemma RunSnoc(s: SagaState, moves: seq<SagaMove>, m: SagaMove)
    ensures Run(s, moves + [m]) == Step(Run(s, moves), m)
  {
    assert (moves + [m])[..|moves|] == moves;
  }

  /** A placed order whose `order.placed` fact is still to be delivered. */
  function Begun(reference: ReferenceData, positive: bool): SagaState {
    SagaState(reference, positive, Placed, None,
              NoRow, NoRow, NoRow, NoRow, NoRow, NoRow, false, false,
              Refusals(0, 0), StockUntouched, 0, CreditUntouched, 0,
              false, false)
  }
}
