/** Invoices and payments in the composed system: an invoice shows its order line by line, and the exact payment of an
    invoiced order is never refused. */
module SystemInvoices {
  import opened Kernel
  import opened OrderAggregate
  import opened SagaSteps
  import opened InvoiceAggregate
  import opened BillingTables
  import opened BillingInvariants
  import R = BillingRuns
  import F = BillingFacts
  import S = Saga
  import I = SagaInvariant
  import opened System
  import opened SystemRefinement
  import X = SystemExecution
  import opened SystemRuns
  import opened SystemClimb
  import opened SystemTheorems

  // ---- The composed system as a run of Billing ----

  /** What a step asks of Billing. */
  function BillingOpOf(y: SystemState, step: SystemStep): Option<R.BillingOp> {
    match step
    case Execute(o, kind, decision) =>
      if (o, kind) !in y.orders.commands then None
      else
        (match y.orders.commands[(o, kind)].payload
         case HoldCreditPayload(c, amount) => Some(R.HoldOp(c, o, amount, decision))
         case IssueInvoicePayload(c, currency, lines, discount) => Some(R.IssueOp(c, o, currency, lines, discount))
         case ReleaseCreditPayload(c) => Some(R.ReleaseCreditOp(c, o))
         case _ => None)
    case ReadPayment(ref, o) => Some(R.PayReadOp(ref, o))
    case CommitPayment(ref, seen, paid) => Some(R.PayCommitOp(ref, seen, paid))
    case _ => None
  }

  lemma BillingMoves(y: SystemState, step: SystemStep)
    ensures SystemNext(y, step).billing
            == if BillingOpOf(y, step).None? then y.billing else R.BillingStep(y.billing, BillingOpOf(y, step).value)
  {
  }

  /** After any run: every invoice and payment is announced as it is stored, and references are unique. */
  lemma {:induction false} BillingTellsAll(y0: SystemState, steps: seq<SystemStep>)
    requires Initial(y0)
    ensures F.TellsAll(RunSystem(y0, steps).billing.state)
  {
    if steps != [] {
      var y, last := RunSystem(y0, steps[..|steps| - 1]), steps[|steps| - 1];
      BillingTellsAll(y0, steps[..|steps| - 1]);
      BillingMoves(y, last);
      if BillingOpOf(y, last).Some? {
        F.StepTellsAll(y.billing, BillingOpOf(y, last).value);
      }
    }
  }

  // ---- Invoices ----

  /** The invoice names every line of the order, in order, with its units and its price, and adds up to the order's
      total. */
  predicate Shows(invoice: InvoiceSnapshot, order: OrderSnapshot) {
    && |invoice.lines| == |order.lines|
    && (forall i :: 0 <= i < |order.lines| ==>
                      && invoice.lines[i].product == order.lines[i].product
                      && invoice.lines[i].units == order.lines[i].quantity
                      && invoice.lines[i].unitPrice == order.lines[i].unitPrice.amount)
    && invoice.currency == order.currency && invoice.credit == order.credit
    && invoice.discount == LinesDiscount(order.lines) && invoice.total == LinesWorth(order.lines)
    && invoice.amount == LinesWorth(order.lines) + LinesDiscount(order.lines)
  }

  ghost predicate InvoiceShows(y: SystemState, o: OrderId) {
    o in y.billing.state.invoices ==> o in y.orders.orders && Shows(y.billing.state.invoices[o], y.orders.orders[o])
  }

  /** What the payload of the order asks for. */
  lemma IssuedShows(order: OrderSnapshot, o: OrderId, reference: nat)
    ensures Shows(IssuedInvoice(o, order.credit, reference, order.currency, InvoiceLinesOf(order.lines),
                                DiscountOf(order.lines)),
                  order)
  {
    InvoiceGrossIsOrderGross(order.lines);
    TotalsAreSums(order.lines);
  }

  /** An operation leaves an invoice as it was, but for its state, or issues it. */
  lemma InvoicesStay(r: R.BillingRun, op: R.BillingOp, o: OrderId)
    requires o in R.BillingStep(r, op).state.invoices
    ensures var t := R.BillingStep(r, op).state;
            if o in r.state.invoices then t.invoices[o] == r.state.invoices[o].(state := t.invoices[o].state)
            else op.IssueOp? && op.order == o
                 && t.invoices[o]
                    == IssuedInvoice(o, op.credit, r.state.nextInvoice, op.currency, op.lines, op.discount)
  {
    R.StepOnlyGrows(r, op);
    if o !in r.state.invoices && !op.IssueOp? {
      OnlyIssuesInvoice(r, op);
    }
  }

  lemma OnlyIssuesInvoice(r: R.BillingRun, op: R.BillingOp)
    requires !op.IssueOp?
    ensures R.BillingStep(r, op).state.invoices.Keys == r.state.invoices.Keys
  {
  }

  lemma PayloadIsOfTheOrder(y: SystemState, o: OrderId, g: S.SagaState, kind: CommandKind)
    requires OrdersPart(y, o, g) && (o, kind) in y.orders.commands
    requires y.orders.commands[(o, kind)].payload.IssueInvoicePayload?
    ensures var order := y.orders.orders[o];
            y.orders.commands[(o, kind)].payload
            == IssueInvoicePayload(order.credit, order.currency, InvoiceLinesOf(order.lines), DiscountOf(order.lines))
  {
    X.RowPayload(y, o, g, kind);
  }

  lemma StepShows(y: SystemState, hs: map<OrderId, History>, step: SystemStep, o: OrderId)
    requires SystemOk(y, hs) && InvoiceShows(y, o)
    ensures InvoiceShows(SystemNext(y, step), o)
  {
    var op := BillingOpOf(y, step);
    BillingMoves(y, step);
    StepKeepsTerms(y, step, o);
    if op.Some? && o in SystemNext(y, step).billing.state.invoices {
      InvoicesStay(y.billing, op.value, o);
      if o !in y.billing.state.invoices {
        assert ExplainedAt(y, hs, o);
        RowsNeedOrders(y, hs, o, step.kind);
        PayloadIsOfTheOrder(y, o, Now(hs[o]), step.kind);
        IssuedShows(y.orders.orders[o], o, y.billing.state.nextInvoice);
      }
    }
  }

  /** After any run an invoice shows its order, line by line and in its totals. */
  lemma {:induction false} InvoicesShowOrders(y0: SystemState, steps: seq<SystemStep>, o: OrderId)
    requires Initial(y0)
    ensures InvoiceShows(RunSystem(y0, steps), o)
  {
    if steps != [] {
      var init := steps[..|steps| - 1];
      InvoicesShowOrders(y0, init, o);
      var hs := SystemRefinesSagas(y0, init);
      StepShows(RunSystem(y0, init), hs, steps[|steps| - 1], o);
    }
  }

  // ---- Payments ----

  /** The two steps of a payment, with nothing in between. */
  function Paying(ref: PaymentReference, o: OrderId, invoice: InvoiceSnapshot, paid: Money): seq<SystemStep> {
    [ReadPayment(ref, o), CommitPayment(ref, invoice, paid)]
  }

  lemma PayingState(y: SystemState, ref: PaymentReference, o: OrderId, paid: Money)
    requires o in y.billing.state.invoices && ref !in y.billing.state.payments
    ensures var invoice := y.billing.state.invoices[o];
            var z := RunSystem(y, Paying(ref, o, invoice, paid));
            z.billing.state == PayTx(y.billing.state, invoice, ref, paid).0 && z.orders == y.orders
  {
    var invoice := y.billing.state.invoices[o];
    var read := SystemNext(y, ReadPayment(ref, o));
    RunSystemSnoc(y, [], ReadPayment(ref, o));
    RunSystemSnoc(y, [ReadPayment(ref, o)], CommitPayment(ref, invoice, paid));
    assert [] + [ReadPayment(ref, o)] == [ReadPayment(ref, o)];
    assert [ReadPayment(ref, o)] + [CommitPayment(ref, invoice, paid)] == Paying(ref, o, invoice, paid);
    assert PayFastPath(y.billing.state, ref, o) == Proceed(invoice);
  }

  /** After any run, an `invoiced` order that is not paid yet can be paid: what its lines are worth, in its currency and
      under a reference that is new, settles it and frees its credit; any other sum changes nothing. */
  lemma ExactPaymentSettles(y0: SystemState, steps: seq<SystemStep>, o: OrderId, ref: PaymentReference, paid: Money)
    requires Initial(y0) && o in RunSystem(y0, steps).orders.orders
    requires var y := RunSystem(y0, steps);
             y.orders.orders[o].status == Invoiced && !IsPaid(y, o) && ref !in y.billing.state.payments
    ensures var y := RunSystem(y0, steps);
            var order := y.orders.orders[o];
            && o in y.billing.state.invoices
            && var z := RunSystem(y, Paying(ref, o, y.billing.state.invoices[o], paid));
               if paid == Money(LinesWorth(order.lines), order.currency)
               then IsPaid(z, o) && PaidBy(z.billing.state, o, ref) && o in z.orders.orders && ExposureAt(z, o) == 0
               else z.billing.state == y.billing.state
  {
    var y := RunSystem(y0, steps);
    var h := ReachedOrder(y0, steps, o);
    InvoicedIsOpen(y, o, Now(h));
    InvoicesShowOrders(y0, steps, o);
    var invoice := y.billing.state.invoices[o];
    R.PaymentAcceptedIff(y.billing.state, invoice, ref, paid);
    PayingState(y, ref, o, paid);
    PaidOrNot(y, o, ref, paid, RunSystem(y, Paying(ref, o, invoice, paid)));
  }

  lemma InvoicedIsOpen(y: SystemState, o: OrderId, g: S.SagaState)
    requires StandsFor(y, o, g) && I.SagaInv(g) && g.status == Invoiced && !IsPaid(y, o)
    ensures o in y.billing.state.invoices && y.billing.state.invoices[o].state.Open?
  {
  }

  lemma PaidOrNot(y: SystemState, o: OrderId, ref: PaymentReference, paid: Money, z: SystemState)
    requires o in y.billing.state.invoices && StillNames(y.billing.state, y.billing.state.invoices[o])
    requires ValidBilling(y.billing.state) && o in y.orders.orders && z.orders == y.orders
    requires y.billing.state.invoices[o].credit == y.orders.orders[o].credit
    requires var (t, reply) := PayTx(y.billing.state, y.billing.state.invoices[o], ref, paid);
             z.billing.state == t && y.billing.state.invoices[o].order == o
    ensures PayTx(y.billing.state, y.billing.state.invoices[o], ref, paid).1 == Ok(PaymentAccepted) ==>
              IsPaid(z, o) && PaidBy(z.billing.state, o, ref) && ExposureAt(z, o) == 0
    ensures PayTx(y.billing.state, y.billing.state.invoices[o], ref, paid).1 != Ok(PaymentAccepted) ==>
              z.billing.state == y.billing.state
  {
    if PayTx(y.billing.state, y.billing.state.invoices[o], ref, paid).1 == Ok(PaymentAccepted) {
      R.PaymentFreesTheHold(y.billing.state, y.billing.state.invoices[o], ref, paid);
    }
  }
}
