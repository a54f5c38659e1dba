/** The fields of the projected document, against the tables of the three services: once all facts of an order are in,
    the read model shows what the services have stored. */
module SystemDocument {
  import opened Kernel
  import opened OrderAggregate
  import opened OrderStock
  import opened BillingTables
  import F = BillingFacts
  import S = Saga
  import I = SagaInvariant
  import opened System
  import opened SystemRefinement
  import opened SystemRuns
  import opened SystemTheorems
  import U = SystemUnits
  import V = SystemInvoices
  import D = SystemRecords
  import J = Projection
  import opened SystemProjection

  /** An envelope of the order comes from one place of one stream. */
  lemma FromAStream(y: SystemState, o: OrderId, g: S.SagaState, es: seq<Envelope>, e: Envelope)
    returns (p: Producer, k: nat)
    requires StandsFor(y, o, g) && I.SagaInv(g) && AllFactsOf(y, o, es) && e in es
    ensures k < |StreamAt(y, p, o)| && StreamAt(y, p, o)[k] == e.fact
    ensures e.fact.OrderDespatchedFact? ==> p == Fulfillment
    ensures e.fact.InvoiceIssuedFact? || e.fact.PaymentReceivedFact? ==> p == Billing
    ensures e.fact.OrderCancelledFact? || e.fact.OrderPlacedFact? ==> p == Orders
  {
    p, k := e.eventId.producer, e.eventId.position;
    OnePlaceEach(y, o, g, p, k);
  }

  lemma InTheFacts(y: SystemState, o: OrderId, es: seq<Envelope>, p: Producer, f: Fact) returns (e: Envelope)
    requires AllFactsOf(y, o, es) && f in StreamAt(y, p, o)
    ensures e in es && e.fact == f
  {
    var k :| 0 <= k < |StreamAt(y, p, o)| && StreamAt(y, p, o)[k] == f;
    e := EnvelopeAt(y, p, o, k);
  }

  lemma DespatchNamed(y: SystemState, o: OrderId, g: S.SagaState, es: seq<Envelope>, r: nat)
    requires StandsFor(y, o, g) && I.SagaInv(g) && AllFactsOf(y, o, es)
    requires U.StockTells(y.fulfillment, o, y.orders.orders[o].lines)
    ensures J.NamesDespatch(es, r) <==>
            o in y.fulfillment.despatches && y.fulfillment.despatches[o].despatchReference == r
  {
    if e :| e in es && e.fact.OrderDespatchedFact? && e.fact.despatchReference == r {
      var p, k := FromAStream(y, o, g, es, e);
      assert U.StockFactIsTrue(y.fulfillment, o, y.orders.orders[o].lines, StreamAt(y, Fulfillment, o)[k]);
    }
    if o in y.fulfillment.despatches {
      var e := InTheFacts(y, o, es, Fulfillment, OrderStock.DespatchFact(y.fulfillment.despatches[o]));
    }
  }

  lemma InvoiceNamed(y: SystemState, o: OrderId, g: S.SagaState, es: seq<Envelope>, r: nat)
    requires StandsFor(y, o, g) && I.SagaInv(g) && AllFactsOf(y, o, es) && F.TellsAll(y.billing.state)
    ensures J.NamesInvoice(es, r) <==> o in y.billing.state.invoices && y.billing.state.invoices[o].reference == r
  {
    var s := y.billing.state;
    if e :| e in es && e.fact.InvoiceIssuedFact? && e.fact.invoiceReference == r {
      var p, k := FromAStream(y, o, g, es, e);
      assert F.FactIsTrue(s, o, StreamOf(s.outbox, o)[k]);
    }
    if o in s.invoices {
      assert F.InvoiceAnnounced(s, o);
      var e := InTheFacts(y, o, es, Billing, InvoiceIssuedFact(s.invoices[o].reference, s.invoices[o].total));
    }
  }

  lemma PaymentNamed(y: SystemState, o: OrderId, g: S.SagaState, es: seq<Envelope>, ref: PaymentReference)
    requires StandsFor(y, o, g) && I.SagaInv(g) && AllFactsOf(y, o, es) && F.TellsAll(y.billing.state)
    ensures J.NamesPayment(es, ref) <==> PaidBy(y.billing.state, o, ref)
  {
    var s := y.billing.state;
    if e :| e in es && e.fact.PaymentReceivedFact? && e.fact.paymentReference == ref {
      var p, k := FromAStream(y, o, g, es, e);
      assert F.FactIsTrue(s, o, StreamOf(s.outbox, o)[k]);
    }
    if PaidBy(s, o, ref) {
      assert F.PaymentAnnounced(s, ref);
      var e := InTheFacts(y, o, es, Billing, PaymentReceivedFact(ref, s.payments[ref].amount));
    }
  }

  lemma ReasonNamed(y: SystemState, o: OrderId, g: S.SagaState, es: seq<Envelope>, direct: bool, r: CancellationReason)
    requires StandsFor(y, o, g) && I.SagaInv(g) && AllFactsOf(y, o, es) && D.CancellationTold(y.orders, o, direct)
    ensures J.NamesReason(es, r) <==> y.orders.orders[o].cancellationReason == Some(r)
  {
    if e :| e in es && e.fact.OrderCancelledFact? && e.fact.reason == r {
      var p, k := FromAStream(y, o, g, es, e);
      assert StreamOf(y.orders.outbox, o)[k].OrderCancelledFact?;
    }
    if y.orders.orders[o].cancellationReason == Some(r) {
      var i :| 0 <= i < |StreamAt(y, Orders, o)| && StreamAt(y, Orders, o)[i].OrderCancelledFact?;
      var e := InTheFacts(y, o, es, Orders, StreamAt(y, Orders, o)[i]);
    }
  }

  lemma HeaderNamed(y: SystemState, o: OrderId, g: S.SagaState, es: seq<Envelope>)
    requires StandsFor(y, o, g) && AllFactsOf(y, o, es) && HeaderAnnounced(y, o)
    ensures var order := y.orders.orders[o];
            J.NamesHeader(es, HeaderFor(order.lines, order.currency, order.credit))
  {
    assert EnvelopeAt(y, Orders, o, 0) in es;
  }

  /** What the read model shows of an order. */
  ghost predicate ShowsTables(d: J.Document, y: SystemState, o: OrderId)
    requires o in y.orders.orders
  {
    var order := y.orders.orders[o];
    && (forall r: nat :: d.fields.despatchReference == Some(r) <==>
                           o in y.fulfillment.despatches && y.fulfillment.despatches[o].despatchReference == r)
    && (forall r: nat :: d.fields.invoiceReference == Some(r) <==>
                           o in y.billing.state.invoices && y.billing.state.invoices[o].reference == r)
    && (forall ref: nat :: d.fields.paymentReference == Some(ref) <==> PaidBy(y.billing.state, o, ref))
    && d.fields.cancellationReason == order.cancellationReason
    && d.header.Some? && HeaderShows(d.header.value, order)
  }

  /** The terms of the order, and the sums over its lines. */
  predicate HeaderShows(h: PlacedHeader, order: OrderSnapshot) {
    && h.credit == order.credit && h.currency == order.currency && h.items == order.lines
    && h.totalAmount == LinesWorth(order.lines) && h.initialDiscount == LinesDiscount(order.lines)
    && h.initialAmount == LinesWorth(order.lines) + LinesDiscount(order.lines)
  }

  lemma DocumentShows(d: J.Document, y: SystemState, o: OrderId, g: S.SagaState, es: seq<Envelope>, direct: bool)
    requires StandsFor(y, o, g) && I.SagaInv(g) && AllFactsOf(y, o, es) && J.OneSource(es) && d == J.Project(es)
    requires U.StockTells(y.fulfillment, o, y.orders.orders[o].lines) && F.TellsAll(y.billing.state)
    requires D.CancellationTold(y.orders, o, direct) && HeaderAnnounced(y, o)
    ensures ShowsTables(d, y, o)
  {
    J.FieldsSay(es);
    forall r: nat
      ensures d.fields.despatchReference == Some(r) <==>
              o in y.fulfillment.despatches && y.fulfillment.despatches[o].despatchReference == r
      ensures d.fields.invoiceReference == Some(r) <==>
              o in y.billing.state.invoices && y.billing.state.invoices[o].reference == r
      ensures d.fields.paymentReference == Some(r) <==> PaidBy(y.billing.state, o, r)
    {
      DespatchNamed(y, o, g, es, r);
      InvoiceNamed(y, o, g, es, r);
      PaymentNamed(y, o, g, es, r);
    }
    forall r ensures d.fields.cancellationReason == Some(r) <==> y.orders.orders[o].cancellationReason == Some(r) {
      ReasonNamed(y, o, g, es, direct, r);
    }
    HeaderNamed(y, o, g, es);
    TotalsAreSums(y.orders.orders[o].lines);
  }

  /** After any run, with all facts of an order projected in any order and any number of times: the despatch reference
      is that of its despatch, the invoice reference that of its invoice, the payment reference the one that paid it,
      the reason the order's own, and the header has its parties, its currency, its lines and what these add up to. */
  lemma ProjectedFields(y0: SystemState, steps: seq<SystemStep>, o: OrderId, es: seq<Envelope>)
    requires Initial(y0) && o in RunSystem(y0, steps).orders.orders && AllFactsOf(RunSystem(y0, steps), o, es)
    ensures ShowsTables(J.Project(es), RunSystem(y0, steps), o)
  {
    var y := RunSystem(y0, steps);
    var h := ReachedOrder(y0, steps, o);
    U.UnitsAreOrdered(y0, steps, o);
    V.BillingTellsAll(y0, steps);
    D.CancellationsAreTold(y0, steps, o);
    HeadersAnnounced(y0, steps, o);
    FactsHaveOneSource(y, o, Now(h), es);
    DocumentShows(J.Project(es), y, o, Now(h), es, D.DirectlyCancelled(y0, steps, o));
  }
}
