/** Value types shared by the three services: identities, money, statuses and the facts
    that travel between them. */
module Kernel {

  // Identifiers are compared for equality only, so numbers stand for the source's strings.
  // An order's id and its business reference are one-to-one; one identifier stands for both.
  type OrderId = nat
  type ProductCode = nat
  type CreditId = nat
  type CurrencyCode = nat
  type PaymentReference = nat

  /** A strictly positive count of units. */
  type Quantity = n: int | n > 0 witness 1

  datatype Option<+T> = None | Some(value: T)

  datatype Result<+T, +E> = Ok(value: T) | Err(error: E)

  /** An integer count of minor units and its currency. */
  datatype Money = Money(amount: int, currency: CurrencyCode)

  datatype OrderStatus =
    | Placed | StockReserved | CreditApproved | Confirmed
    | Despatched | Invoiced | Paid | Completed | Cancelled

  datatype CancellationReason = StockRejection | CreditRejection | OperatorCancelled

  /** The position of a status along Table T-1; both terminal statuses rank highest. */
  function StatusRank(s: OrderStatus): nat {
    match s
    case Placed => 1
    case StockReserved => 2
    case CreditApproved => 3
    case Confirmed => 4
    case Despatched => 5
    case Invoiced => 6
    case Paid => 7
    case Completed => 8
    case Cancelled => 9
  }

  datatype ReservationRef = ReservationRef(product: ProductCode, units: nat)

  datatype Shortage = Shortage(product: ProductCode, requested: nat, available: int)

  datatype StockRefusal = InsufficientStock | UnknownProduct

  /** Why a stock release was asked for; it travels from the command to the fact. */
  datatype StockReleaseReason = AfterCreditRejection | AfterOrderCancelled

  datatype CreditRefusal = OverLimit | PortRefusal(code: nat)

  datatype CreditReleaseReason = ForOrderCancelled | ForInvoicePaid

  /** What caused a release: the request itself, or the payment event at this place of the order's billing stream. */
  datatype Cause = ByRequest | ByPaymentEvent(position: nat)

  datatype CompensationStep = StockReleasedStep(eventId: Option<EventId>) | CreditReleasedStep(eventId: Option<EventId>)

  datatype OrderLine = OrderLine(product: ProductCode, quantity: Quantity, unitPrice: Money, lineDiscount: Money)

  /** What `order.placed` says of the order: its parties, its currency, its totals and its lines. */
  datatype PlacedHeader = PlacedHeader(
    credit: CreditId, currency: CurrencyCode, initialAmount: int, initialDiscount: int, totalAmount: int,
    items: seq<OrderLine>)

  /** The facts, with the payload fields that some handler or property reads. */
  datatype Fact =
    | OrderPlacedFact(header: PlacedHeader)
    | OrderConfirmedFact
    | OrderCompletedFact
    | OrderCancelledFact(reason: CancellationReason, steps: seq<CompensationStep>)
    | OrderSagaFailedFact
    | StockReservedFact(reservations: seq<ReservationRef>)
    | StockRejectedFact(shortages: seq<Shortage>, refusal: StockRefusal)
    | StockReleasedFact(released: seq<ReservationRef>, releaseReason: StockReleaseReason)
    | OrderDespatchedFact(despatchReference: nat, despatched: seq<ReservationRef>)
    | CreditApprovedFact(heldAmount: int, availableAfterHold: int)
    | CreditRejectedFact(requestedAmount: int, availableCredit: int, creditRefusal: CreditRefusal)
    | CreditReleasedFact(releasedAmount: int, availableAfterRelease: int, creditReason: CreditReleaseReason,
                         cause: Cause)
    | InvoiceIssuedFact(invoiceReference: nat, invoiceTotal: int)
    | PaymentReceivedFact(paymentReference: PaymentReference, paidAmount: int)

  datatype Producer = Orders | Fulfillment | Billing

  /** A fact is identified by its producer, its order (the partition key) and its place in that stream. */
  datatype EventId = EventId(producer: Producer, order: OrderId, position: nat)

  /** `correlationId` is the order the fact is about. */
  datatype Envelope = Envelope(eventId: EventId, correlationId: OrderId, fact: Fact)

  /** An event id names one envelope. */
  predicate IdsNameEnvelopes(es: seq<Envelope>) {
    forall i, j :: 0 <= i < |es| && 0 <= j < |es| && es[i].eventId == es[j].eventId ==> es[i] == es[j]
  }

  // ---- The six saga commands and their request payloads ----

  datatype CommandKind =
    | ReserveStock | ReleaseStock | CreateDespatch | HoldCredit | IssueInvoice | ReleaseCredit

  datatype ReserveLine = ReserveLine(product: ProductCode, units: Quantity)

  datatype InvoiceLine = InvoiceLine(product: ProductCode, units: Quantity, unitPrice: int)

  datatype CommandPayload =
    | ReserveStockPayload(reserveLines: seq<ReserveLine>)
    | ReleaseStockPayload(reason: StockReleaseReason)
    | CreateDespatchPayload
    | HoldCreditPayload(credit: CreditId, amount: Money)
    | IssueInvoicePayload(credit: CreditId, currency: CurrencyCode, invoiceLines: seq<InvoiceLine>, discount: int)
    | ReleaseCreditPayload(credit: CreditId)

  /** One producer's outbox, grouped by order because a stream is FIFO per order only. */
  type Outbox = map<OrderId, seq<Fact>>

  function StreamOf(outbox: Outbox, o: OrderId): seq<Fact> {
    if o in outbox then outbox[o] else []
  }

  function Recorded(outbox: Outbox, o: OrderId, facts: seq<Fact>): Outbox {
    if facts == [] then outbox else outbox[o := StreamOf(outbox, o) + facts]
  }

  lemma RecordedGrows(outbox: Outbox, o: OrderId, facts: seq<Fact>)
    ensures StreamOf(Recorded(outbox, o, facts), o) == StreamOf(outbox, o) + facts
    ensures forall other :: other != o ==> StreamOf(Recorded(outbox, o, facts), other) == StreamOf(outbox, other)
  {
    if facts == [] {
      assert StreamOf(outbox, o) + facts == StreamOf(outbox, o);
    }
  }
}
