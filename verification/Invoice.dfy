/** The `Invoice` aggregate: issued once with its fact, paid at most once. */
module InvoiceAggregate {
  import opened Kernel
  import SagaSteps

  datatype InvoiceError =
    | EmptyInvoiceLines
    | InvoiceLineCurrencyMismatch
    | DiscountCurrencyMismatch
    | NegativeInvoiceTotal(amount: int, discount: int)
    | InvalidInvoiceSnapshot
    | AlreadyPaid
    | PaymentCurrencyMismatch(expectedCurrency: CurrencyCode)
    | PaymentAmountMismatch(expectedAmount: int)

  datatype InvoiceState = Open | Settled

  /** An invoice belongs to one order and there is at most one for it, so the order identifies it. */
  datatype InvoiceSnapshot = InvoiceSnapshot(
    order: OrderId, credit: CreditId, reference: nat, currency: CurrencyCode,
    lines: seq<InvoiceLine>, amount: int, discount: int, total: int, state: InvoiceState)

  /** A line with the currency of its price. */
  datatype PricedLine = PricedLine(line: InvoiceLine, currency: CurrencyCode)

  /** A stored row: the status and the payment date are two columns, and each line carries its own currency. */
  datatype InvoiceRow = InvoiceRow(
    order: OrderId, credit: CreditId, reference: nat, currency: CurrencyCode,
    lines: seq<PricedLine>, amount: int, discount: int, total: int, paid: bool, hasPaymentDate: bool)

  function PricedIn(lines: seq<InvoiceLine>, currency: CurrencyCode): (priced: seq<PricedLine>)
    ensures LinesOf(priced) == lines && AllIn(priced, currency)
  {
    seq(|lines|, i requires 0 <= i < |lines| => PricedLine(lines[i], currency))
  }

  function LinesOf(priced: seq<PricedLine>): seq<InvoiceLine> {
    seq(|priced|, i requires 0 <= i < |priced| => priced[i].line)
  }

  predicate AllIn(priced: seq<PricedLine>, currency: CurrencyCode) {
    forall i :: 0 <= i < |priced| ==> priced[i].currency == currency
  }

  /** The row that a save writes: one currency throughout, and a payment date exactly when it is paid. */
  function RowOf(s: InvoiceSnapshot): InvoiceRow {
    InvoiceRow(s.order, s.credit, s.reference, s.currency, PricedIn(s.lines, s.currency), s.amount, s.discount, s.total,
               s.state.Settled?, s.state.Settled?)
  }

  function SnapshotOf(row: InvoiceRow): InvoiceSnapshot {
    InvoiceSnapshot(row.order, row.credit, row.reference, row.currency, LinesOf(row.lines), row.amount, row.discount,
                    row.total,
                    if row.paid then Settled else Open)
  }

  predicate Reconciles(s: InvoiceSnapshot) {
    s.amount == SagaSteps.InvoiceGross(s.lines) && s.total == s.amount - s.discount
  }

  /** What `issue` creates from a request. */
  function IssuedInvoice(order: OrderId, credit: CreditId, reference: nat, currency: CurrencyCode,
                         lines: seq<InvoiceLine>, discount: int): InvoiceSnapshot {
    InvoiceSnapshot(order, credit, reference, currency, lines, SagaSteps.InvoiceGross(lines), discount,
                    SagaSteps.InvoiceGross(lines) - discount, Open)
  }

  function IssueRefusal(lines: seq<InvoiceLine>, discount: int): Option<InvoiceError> {
    if lines == [] then Some(EmptyInvoiceLines)
    else if SagaSteps.InvoiceGross(lines) < discount then
      Some(NegativeInvoiceTotal(SagaSteps.InvoiceGross(lines), discount))
    else None
  }

  function PaymentRefusal(s: InvoiceSnapshot, amount: Money): Option<InvoiceError> {
    if s.state.Settled? then Some(AlreadyPaid)
    else if amount.currency != s.currency then Some(PaymentCurrencyMismatch(s.currency))
    else if amount.amount != s.total then Some(PaymentAmountMismatch(s.total))
    else None
  }

  method GrossOfLines(lines: seq<InvoiceLine>) returns (amount: int)
    ensures amount == SagaSteps.InvoiceGross(lines)
  {
    amount := 0;
    for i := 0 to |lines|
      invariant amount == SagaSteps.InvoiceGross(lines[..i])
    {
      assert lines[..i + 1][..i] == lines[..i];
      amount := amount + lines[i].unitPrice * lines[i].units;
    }
    assert lines[..|lines|] == lines;
  }

  class Invoice {
    const order: OrderId
    const credit: CreditId
    const reference: nat
    const currency: CurrencyCode
    const lines: seq<InvoiceLine>
    const amount: int
    const discount: int
    const total: int
    /** Status and payment date are one value, so neither exists without the other (B9). */
    var state: InvoiceState
    var events: seq<Fact>

    function Snapshot(): InvoiceSnapshot reads `state {
      InvoiceSnapshot(order, credit, reference, currency, lines, amount, discount, total, state)
    }

    constructor FromSnapshot(s: InvoiceSnapshot, events: seq<Fact>)
      ensures Snapshot() == s && this.events == events
      ensures order == s.order && credit == s.credit
    {
      order, credit, reference, currency := s.order, s.credit, s.reference, s.currency;
      lines, amount, discount, total, state := s.lines, s.amount, s.discount, s.total, s.state;
      this.events := events;
    }

    /** The only way an invoice comes into being: one currency, derived totals (B6) and exactly one fact. */
    static method Issue(order: OrderId, credit: CreditId, reference: nat, currency: CurrencyCode,
                        lines: seq<PricedLine>, discount: Money) returns (r: Result<Invoice, InvoiceError>)
      ensures r.Ok? <==> lines != [] && AllIn(lines, currency) && discount.currency == currency
                         && discount.amount <= SagaSteps.InvoiceGross(LinesOf(lines))
      ensures r.Ok? ==> && fresh(r.value)
                        && r.value.Snapshot()
                           == IssuedInvoice(order, credit, reference, currency, LinesOf(lines), discount.amount)
                        && r.value.events == [InvoiceIssuedFact(reference, r.value.total)]
      ensures r.Err? ==> r.error == if lines == [] then EmptyInvoiceLines
                                    else if !AllIn(lines, currency) then InvoiceLineCurrencyMismatch
                                    else if discount.currency != currency then DiscountCurrencyMismatch
                                    else NegativeInvoiceTotal(SagaSteps.InvoiceGross(LinesOf(lines)), discount.amount)
    {
      if lines == [] {
        return Err(EmptyInvoiceLines);
      }
      var oneCurrency := SharesCurrency(lines, currency);
      if !oneCurrency {
        return Err(InvoiceLineCurrencyMismatch);
      }
      var amount := GrossOfLines(LinesOf(lines));
      if discount.currency != currency {
        return Err(DiscountCurrencyMismatch);
      }
      var total := amount - discount.amount;
      if total < 0 {
        return Err(NegativeInvoiceTotal(amount, discount.amount));
      }
      var snapshot :=
        InvoiceSnapshot(order, credit, reference, currency, LinesOf(lines), amount, discount.amount, total, Open);
      var invoice := new Invoice.FromSnapshot(snapshot, [InvoiceIssuedFact(reference, total)]);
      return Ok(invoice);
    }

    static method SharesCurrency(lines: seq<PricedLine>, currency: CurrencyCode) returns (all: bool)
      ensures all == AllIn(lines, currency)
    {
      for i := 0 to |lines|
        invariant AllIn(lines[..i], currency)
      {
        if lines[i].currency != currency {
          return false;
        }
      }
      return true;
    }

    /** Refuses a row whose status and payment date disagree (B9), whose lines have another currency, or whose totals do
        not reconcile with its lines (B6). */
    static method Reconstitute(row: InvoiceRow) returns (r: Result<Invoice, InvoiceError>)
      ensures r.Ok? <==> row.paid == row.hasPaymentDate && AllIn(row.lines, row.currency) && Reconciles(SnapshotOf(row))
      ensures r.Ok? ==> fresh(r.value) && r.value.Snapshot() == SnapshotOf(row) && r.value.events == []
      ensures r.Ok? ==> r.value.order == row.order && r.value.credit == row.credit
      ensures r.Err? ==> r.error == InvalidInvoiceSnapshot
    {
      if row.paid != row.hasPaymentDate {
        return Err(InvalidInvoiceSnapshot);
      }
      var oneCurrency := SharesCurrency(row.lines, row.currency);
      if !oneCurrency {
        return Err(InvalidInvoiceSnapshot);
      }
      var amount := GrossOfLines(LinesOf(row.lines));
      if amount != row.amount || amount - row.discount != row.total {
        return Err(InvalidInvoiceSnapshot);
      }
      var invoice := new Invoice.FromSnapshot(SnapshotOf(row), []);
      return Ok(invoice);
    }

    /** One indivisible step to `paid` with one fact; a refusal (B8, B10) changes nothing. */
    method MarkPaid(paymentReference: PaymentReference, paid: Money) returns (r: Result<(), InvoiceError>)
      modifies this
      ensures r.Ok? <==> old(state).Open? && paid == Money(total, currency)
      ensures match PaymentRefusal(old(Snapshot()), paid)
              case Some(error) => r == Err(error) && Snapshot() == old(Snapshot()) && events == old(events)
              case None => r.Ok? && Snapshot() == old(Snapshot()).(state := Settled)
                           && events == old(events) + [PaymentReceivedFact(paymentReference, total)]
    {
      if state.Settled? {
        return Err(AlreadyPaid);
      }
      if paid.currency != currency {
        return Err(PaymentCurrencyMismatch(currency));
      }
      if paid.amount != total {
        return Err(PaymentAmountMismatch(total));
      }
      state := Settled;
      events := events + [PaymentReceivedFact(paymentReference, paid.amount)];
      return Ok(());
    }
  }
}
