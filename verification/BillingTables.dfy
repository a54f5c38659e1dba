/** The tables of Billing and what one transaction does to them: lock a credit line with the entries of one order,
    run the domain operation, append and save. */
module BillingTables {
  import opened Kernel
  import opened Ledger
  import opened BuyerCreditAggregate
  import opened InvoiceAggregate

  datatype CreditRow = CreditRow(limit: int, currency: CurrencyCode)

  datatype PaymentRow = PaymentRow(order: OrderId, amount: int)

  /** `payments` is keyed by its unique reference, `invoices` by its unique order. */
  datatype BillingState = BillingState(
    credits: map<CreditId, CreditRow>,
    ledgers: map<CreditId, seq<Entry>>,
    invoices: map<OrderId, InvoiceSnapshot>,
    payments: map<PaymentReference, PaymentRow>,
    nextInvoice: nat,
    outbox: Outbox)

  datatype BillingError =
    | CreditLineNotFound
    | CreditCurrencyMismatch(expected: CurrencyCode)
    | InvoiceCurrencyMismatch(expected: CurrencyCode)
    | NoActiveCreditHold
    | InvoiceNotFound
    | PaymentReferenceConflict
    | CreditRefused(creditError: CreditError)
    | InvoiceRefused(invoiceError: InvoiceError)

  datatype BillingReply =
    | HoldApproved(held: int, availableAfter: int)
    | HoldRejected(available: int, refusal: CreditRefusal)
    | HoldAlreadyThere(heldAmount: Money)
    | CreditReleasedNow(released: int)
    | NothingReleased
    | InvoiceOf(invoice: InvoiceSnapshot, created: bool)
    | PaymentAccepted
    | PaymentDuplicate

  /** The answer of the pluggable credit-decision port; `over_limit` is not in its vocabulary. */
  datatype CreditDecision = Approve | Refuse(code: nat)

  // ---- Load and save ----

  function LedgerOf(s: BillingState, c: CreditId): seq<Entry> {
    if c in s.ledgers then s.ledgers[c] else []
  }

  /** The whole line's scalar (a sum over every entry) and the entries of one order. */
  function LoadedLine(s: BillingState, c: CreditId, o: OrderId): CreditSnapshot
    requires c in s.credits
  {
    CreditSnapshot(s.credits[c].limit, s.credits[c].currency, CommittedOf(LedgerOf(s, c)),
                   EntriesFor(LedgerOf(s, c), o))
  }

  /** Appended entries are inserted, recorded facts drained into the order's stream. */
  function SavedLine(s: BillingState, c: CreditId, o: OrderId, appended: seq<Entry>, facts: seq<Fact>): BillingState {
    s.(ledgers := s.ledgers[c := LedgerOf(s, c) + appended], outbox := Recorded(s.outbox, o, facts))
  }

  // ---- credit.hold and credit.release ----

  function HoldTx(s: BillingState, c: CreditId, o: OrderId, amount: Money, decision: CreditDecision)
    : (BillingState, Result<BillingReply, BillingError>)
  {
    if c !in s.credits then (s, Err(CreditLineNotFound))
    else
      var line := LoadedLine(s, c, o);
      match Evaluate(line, o, amount)
      case AlreadyHeld(held) => (s, Ok(HoldAlreadyThere(held)))
      case HoldCurrencyMismatch(expected) => (s, Err(CreditCurrencyMismatch(expected)))
      case Exceeds(available) => RefusedHold(s, c, o, amount, available, OverLimit)
      case Fits =>
        match decision
        case Refuse(code) => RefusedHold(s, c, o, amount, Available(line), PortRefusal(code))
        case Approve =>
          (SavedLine(s, c, o, [Entry(o, amount, Hold)], [ApprovedFact(line, o, amount)]),
           Ok(HoldApproved(amount.amount, Available(line) - amount.amount)))
  }

  function RefusedHold(s: BillingState, c: CreditId, o: OrderId, amount: Money, available: int, refusal: CreditRefusal)
    : (BillingState, Result<BillingReply, BillingError>)
  {
    (SavedLine(s, c, o, [], [CreditRejectedFact(amount.amount, available, refusal)]),
     Ok(HoldRejected(available, refusal)))
  }

  function ReleaseCreditTx(s: BillingState, c: CreditId, o: OrderId): (BillingState, Result<BillingReply,
                                                                       BillingError>) {
    if c !in s.credits then (s, Err(CreditLineNotFound))
    else
      var line := LoadedLine(s, c, o);
      var outstanding := ExposureOf(line.entries, o);
      if outstanding < 0 then (s, Err(CreditRefused(ReleaseUnderflow(outstanding))))
      else if outstanding == 0 then (s, Ok(NothingReleased))
      else (SavedLine(s, c, o, [ReleaseEntry(line, o)], [ReleasedFact(line, o, ForOrderCancelled, ByRequest)]),
            Ok(CreditReleasedNow(outstanding)))
  }

  // ---- invoice.issue ----

  /** Inside the transaction, whatever the unlocked pre-read said. */
  function IssueTx(s: BillingState, c: CreditId, o: OrderId, currency: CurrencyCode, lines: seq<InvoiceLine>,
                   discount: int)
    : (BillingState, Result<BillingReply, BillingError>)
  {
    if c !in s.credits then (s, Err(CreditLineNotFound))
    else if o in s.invoices then (s, Ok(InvoiceOf(s.invoices[o], false)))
    else if currency != s.credits[c].currency then (s, Err(InvoiceCurrencyMismatch(s.credits[c].currency)))
    else if ActiveHoldOf(LoadedLine(s, c, o).entries, o) <= 0 then (s, Err(NoActiveCreditHold))
    else match IssueRefusal(lines, discount)
      case Some(error) => (s, Err(InvoiceRefused(error)))
      case None =>
        var invoice := IssuedInvoice(o, c, s.nextInvoice, currency, lines, discount);
        (InvoicedState(s, c, o, invoice), Ok(InvoiceOf(invoice, true)))
  }

  /** The invoice and its fact, the consumed hold without one, and the allocated number. */
  function InvoicedState(s: BillingState, c: CreditId, o: OrderId, invoice: InvoiceSnapshot): BillingState
    requires c in s.credits
  {
    SavedLine(s, c, o, [ConsumeEntry(LoadedLine(s, c, o), o)], [InvoiceIssuedFact(invoice.reference, invoice.total)])
      .(invoices := s.invoices[o := invoice], nextInvoice := s.nextInvoice + 1)
  }

  // ---- payment.register ----

  datatype FastPath = AnswerDuplicate | RefuseConflict | RefuseNotFound | Proceed(seen: InvoiceSnapshot)

  /** The unlocked reads: the reference first, then the invoice's identity. */
  function PayFastPath(s: BillingState, ref: PaymentReference, o: OrderId): FastPath {
    if ref in s.payments then
      if s.payments[ref].order !in s.invoices then RefuseNotFound
      else if s.payments[ref].order != o then RefuseConflict
      else AnswerDuplicate
    else if o !in s.invoices then RefuseNotFound
    else Proceed(s.invoices[o])
  }

  predicate PaidBy(s: BillingState, o: OrderId, ref: PaymentReference) {
    ref in s.payments && s.payments[ref].order == o
  }

  /** The transaction, with the snapshot that the unlocked reads saw, at whatever later state it runs. */
  function PayTx(s: BillingState, seen: InvoiceSnapshot, ref: PaymentReference, amount: Money): (BillingState,
      Result<BillingReply, BillingError>) {
    var c, o := seen.credit, seen.order;
    if c !in s.credits then (s, Err(CreditLineNotFound))
    else if o !in s.invoices then (s, Err(InvoiceNotFound))
    else if s.invoices[o].state.Settled? && PaidBy(s, o, ref) then (s, Ok(PaymentDuplicate))
    else match PaymentRefusal(s.invoices[o], amount)
      case Some(error) => (s, Err(InvoiceRefused(error)))
      case None =>
        var outstanding := ExposureOf(LoadedLine(s, c, o).entries, o);
        if outstanding < 0 then (s, Err(CreditRefused(ReleaseUnderflow(outstanding))))
        else if ref in s.payments then (s, Err(PaymentReferenceConflict))
        else (PaidState(s, c, o, ref), Ok(PaymentAccepted))
  }

  /** The facts of an accepted payment: the payment, then the release it causes when exposure is left. */
  function PaymentFacts(s: BillingState, c: CreditId, o: OrderId, ref: PaymentReference): seq<Fact>
    requires c in s.credits && o in s.invoices
  {
    var line := LoadedLine(s, c, o);
    [PaymentReceivedFact(ref, s.invoices[o].total)]
    + if ExposureOf(line.entries, o) == 0 then []
      else [ReleasedFact(line, o, ForInvoicePaid, ByPaymentEvent(|StreamOf(s.outbox, o)|))]
  }

  function PaidState(s: BillingState, c: CreditId, o: OrderId, ref: PaymentReference): BillingState
    requires c in s.credits && o in s.invoices
  {
    var line := LoadedLine(s, c, o);
    SavedLine(s, c, o, if ExposureOf(line.entries, o) == 0 then []
              else [ReleaseEntry(line, o)], PaymentFacts(s, c, o, ref))
      .(invoices := s.invoices[o := s.invoices[o].(state := Settled)],
        payments := s.payments[ref := PaymentRow(o, s.invoices[o].total)])
  }
}
