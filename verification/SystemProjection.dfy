/** The projected document of an order, against the order itself, in the composed system. */
module SystemProjection {
  import opened Kernel
  import opened OrderAggregate
  import opened SagaSteps
  import opened OrdersService
  import opened Abstraction
  import S = Saga
  import I = SagaInvariant
  import P = SagaProgress
  import opened System
  import opened SystemRefinement
  import opened SystemRuns
  import opened SystemClimb
  import opened SystemTheorems
  import C = SystemCompensation
  import J = Projection

  function EnvelopeAt(y: SystemState, p: Producer, o: OrderId, k: nat): Envelope
    requires k < |StreamAt(y, p, o)|
  {
    Envelope(EventId(p, o, k), o, StreamAt(y, p, o)[k])
  }

  /** `es` holds every fact that any of the three services has recorded about the order, in any order, any number of
      times. */
  ghost predicate AllFactsOf(y: SystemState, o: OrderId, es: seq<Envelope>) {
    && (forall e :: e in es ==> e.eventId.order == o && e.eventId.position < |StreamAt(y, e.eventId.producer, o)|
                                && e == EnvelopeAt(y, e.eventId.producer, o, e.eventId.position))
    && (forall p: Producer, k: nat :: k < |StreamAt(y, p, o)| ==> EnvelopeAt(y, p, o, k) in es)
  }

  /** Every fact that fills a write-once field has one place in one stream. */
  lemma OnePlaceEach(y: SystemState, o: OrderId, g: S.SagaState, p: Producer, k: nat)
    requires StandsFor(y, o, g) && I.SagaInv(g) && k < |StreamAt(y, p, o)|
    ensures var f := StreamAt(y, p, o)[k];
            && (f.OrderDespatchedFact? ==> p == Fulfillment && k == g.refusals.stock + 1)
            && (f.InvoiceIssuedFact? ==> p == Billing && k == g.refusals.credit + 1)
            && (f.PaymentReceivedFact? ==> p == Billing && k == g.refusals.credit + 2)
            && (f.OrderPlacedFact? ==> p == Orders && k == 0)
            && (f.OrderCancelledFact? || f.OrderCompletedFact? || f.OrderConfirmedFact? ==> p == Orders)
            && (f.StockReservedFact? ==> p == Fulfillment) && (f.CreditApprovedFact? ==> p == Billing)
  {
    match p
    case Orders => if k > 0 { assert NeedsNoWork(StreamAt(y, p, o)[k]); OwnFacts(StreamAt(y, p, o)[k]); }
    case Fulfillment => assert IsEvent(StreamAt(y, p, o)[k], S.StockEvent(g.refusals.stock, g.stock, k));
    case Billing => BillingPlaces(StreamAt(y, p, o), g, NetOf(y.orders.orders[o].lines), k);
  }

  lemma OwnFacts(f: Fact)
    requires NeedsNoWork(f)
    ensures f.OrderConfirmedFact? || f.OrderCompletedFact? || f.OrderCancelledFact? || f.OrderSagaFailedFact?
  {
    assert |StepVariantsFor(f)| > 0 ==> StepVariantsFor(f)[0].Skip?;
  }

  lemma BillingPlaces(facts: seq<Fact>, g: S.SagaState, net: int, k: nat)
    requires I.SagaInv(g) && CreditStreamIs(facts, g.refusals.credit, g.credit, net) && k < |facts|
    ensures facts[k].InvoiceIssuedFact? ==> k == g.refusals.credit + 1
    ensures facts[k].PaymentReceivedFact? ==> k == g.refusals.credit + 2
    ensures !facts[k].OrderDespatchedFact? && !facts[k].OrderPlacedFact? && !facts[k].OrderCancelledFact?
            && !facts[k].OrderCompletedFact? && !facts[k].OrderConfirmedFact? && !facts[k].StockReservedFact?
  {
    assert IsEvent(facts[k], S.CreditEvent(g.refusals.credit, g.credit, k));
  }

  /** Two facts at places that the streams allow agree on every write-once field. */
  lemma SamePlaceAgrees(a: Envelope, b: Envelope)
    requires a.eventId == b.eventId ==> a == b
    requires a.eventId.order == b.eventId.order
    requires a.fact.OrderDespatchedFact? && b.fact.OrderDespatchedFact? ==> a.eventId == b.eventId
    requires a.fact.InvoiceIssuedFact? && b.fact.InvoiceIssuedFact? ==> a.eventId == b.eventId
    requires a.fact.PaymentReceivedFact? && b.fact.PaymentReceivedFact? ==> a.eventId == b.eventId
    requires a.fact.OrderPlacedFact? && b.fact.OrderPlacedFact? ==> a.eventId == b.eventId
    requires a.fact.OrderCancelledFact? && b.fact.OrderCancelledFact? ==> a.eventId == b.eventId
    ensures J.Agree(a, b)
  {
  }

  lemma OneCancellation(y: SystemState, o: OrderId, g: S.SagaState, i: nat, j: nat)
    requires OrdersPart(y, o, g) && i < |StreamAt(y, Orders, o)| && j < |StreamAt(y, Orders, o)|
    requires StreamAt(y, Orders, o)[i].OrderCancelledFact? && StreamAt(y, Orders, o)[j].OrderCancelledFact?
    ensures i == j
  {
  }

  lemma FactsAgree(y: SystemState, o: OrderId, g: S.SagaState, p: Producer, i: nat, q: Producer, j: nat)
    requires StandsFor(y, o, g) && I.SagaInv(g) && i < |StreamAt(y, p, o)| && j < |StreamAt(y, q, o)|
    ensures J.Agree(EnvelopeAt(y, p, o, i), EnvelopeAt(y, q, o, j))
  {
    OnePlaceEach(y, o, g, p, i);
    OnePlaceEach(y, o, g, q, j);
    if StreamAt(y, p, o)[i].OrderCancelledFact? && StreamAt(y, q, o)[j].OrderCancelledFact? {
      OneCancellation(y, o, g, i, j);
    }
    SamePlaceAgrees(EnvelopeAt(y, p, o, i), EnvelopeAt(y, q, o, j));
  }

  lemma FactsHaveOneSource(y: SystemState, o: OrderId, g: S.SagaState, es: seq<Envelope>)
    requires StandsFor(y, o, g) && I.SagaInv(g) && AllFactsOf(y, o, es)
    ensures J.OneSource(es)
  {
    forall i, j | 0 <= i < |es| && 0 <= j < |es| ensures J.Agree(es[i], es[j]) {
      assert es[i] in es && es[j] in es;
      FactsAgree(y, o, g, es[i].eventId.producer, es[i].eventId.position, es[j].eventId.producer,
                 es[j].eventId.position);
    }
  }

  /** After any run, projecting all the facts of an order gives the same document however they arrive. */
  lemma SystemProjectionConverges(y0: SystemState, steps: seq<SystemStep>, o: OrderId, es: seq<Envelope>,
                                  fs: seq<Envelope>)
    requires Initial(y0) && o in RunSystem(y0, steps).orders.orders
    requires AllFactsOf(RunSystem(y0, steps), o, es) && AllFactsOf(RunSystem(y0, steps), o, fs)
    ensures J.Project(es) == J.Project(fs)
  {
    var h := ReachedOrder(y0, steps, o);
    FactsHaveOneSource(RunSystem(y0, steps), o, Now(h), es);
    SameFactsOf(RunSystem(y0, steps), o, es, fs);
    J.ProjectionConverges(es, fs);
  }

  lemma SameFactsOf(y: SystemState, o: OrderId, es: seq<Envelope>, fs: seq<Envelope>)
    requires AllFactsOf(y, o, es) && AllFactsOf(y, o, fs)
    ensures J.SameFacts(es, fs)
  {
    forall e ensures e in es <==> e in fs {
      if e in es {
        assert EnvelopeAt(y, e.eventId.producer, o, e.eventId.position) in fs;
      }
      if e in fs {
        assert EnvelopeAt(y, e.eventId.producer, o, e.eventId.position) in es;
      }
    }
  }

  // ---- The projected status at rest ----

  lemma RanksAre(f: Fact)
    ensures J.RankOf(f) in {0, 1, 2, 3, 4, 5, 6, 7, 98, 99}
    ensures J.RankOf(f) == 99 <==> f.OrderCancelledFact?
    ensures J.RankOf(f) == 98 <==> f.OrderCompletedFact?
    ensures J.RankOf(f) == 7 <==> f.PaymentReceivedFact?
    ensures J.RankOf(f) == 6 <==> f.InvoiceIssuedFact?
    ensures J.RankOf(f) == 5 <==> f.OrderDespatchedFact?
    ensures J.RankOf(f) == 4 <==> f.OrderConfirmedFact?
    ensures J.RankOf(f) == 3 <==> f.CreditApprovedFact?
    ensures J.RankOf(f) == 2 <==> f.StockReservedFact?
  {
  }

  /** The ranks that the state of an order still allows among its facts. */
  predicate RankFits(rank: nat, g: S.SagaState) {
    && rank in {0, 1, 2, 3, 4, 5, 6, 7, 98, 99}
    && (rank == 99 ==> g.status == Cancelled) && (rank == 98 ==> g.status == Completed)
    && (rank == 7 ==> g.credit != S.CreditInvoiced && IsInvoiced(g.credit))
    && (rank == 6 ==> IsInvoiced(g.credit)) && (rank == 5 ==> g.stock == S.StockShipped)
    && (rank == 4 ==> StatusRank(Confirmed) <= StatusRank(g.status))
    && (rank == 3 ==> g.credit != S.CreditUntouched) && (rank == 2 ==> g.stock != S.StockUntouched)
  }

  lemma RankBound(y: SystemState, o: OrderId, g: S.SagaState, p: Producer, k: nat)
    requires StandsFor(y, o, g) && I.SagaInv(g) && k < |StreamAt(y, p, o)|
    ensures RankFits(J.RankOf(StreamAt(y, p, o)[k]), g)
  {
    OnePlaceEach(y, o, g, p, k);
    RanksAre(StreamAt(y, p, o)[k]);
    if p == Fulfillment {
      StockRanks(StreamAt(y, p, o), g, k);
    }
    if p == Billing {
      BillingRanks(StreamAt(y, p, o), g, NetOf(y.orders.orders[o].lines), k);
    }
  }

  lemma StockRanks(facts: seq<Fact>, g: S.SagaState, k: nat)
    requires StockStreamIs(facts, g.refusals.stock, g.stock, g.byOperator) && k < |facts|
    ensures facts[k].OrderDespatchedFact? ==> g.stock == S.StockShipped
    ensures facts[k].StockReservedFact? ==> g.stock != S.StockUntouched
  {
    assert IsEvent(facts[k], S.StockEvent(g.refusals.stock, g.stock, k));
  }

  lemma BillingRanks(facts: seq<Fact>, g: S.SagaState, net: int, k: nat)
    requires I.SagaInv(g) && CreditStreamIs(facts, g.refusals.credit, g.credit, net) && k < |facts|
    ensures facts[k].InvoiceIssuedFact? ==> IsInvoiced(g.credit)
    ensures facts[k].PaymentReceivedFact? ==> IsInvoiced(g.credit) && g.credit != S.CreditInvoiced
    ensures facts[k].CreditApprovedFact? ==> g.credit != S.CreditUntouched
  {
    assert IsEvent(facts[k], S.CreditEvent(g.refusals.credit, g.credit, k));
  }

  /** The rank that proves the status of an order at rest. */
  function RestRank(g: S.SagaState): nat {
    match g.status
    case Cancelled => 99
    case Completed => 98
    case Invoiced => 6
    case Despatched => 5
    case Confirmed => 4
    case StockReserved => 2
    case _ => 1
  }

  /** The fact that proves it. */
  lemma Witness(y: SystemState, o: OrderId, g: S.SagaState) returns (p: Producer, k: nat)
    requires StandsFor(y, o, g) && P.Resting(g)
    ensures k < |StreamAt(y, p, o)| && J.RankOf(StreamAt(y, p, o)[k]) == RestRank(g)
  {
    match g.status
    case Placed => p, k := Orders, 0;
    case StockReserved =>
      p := Fulfillment;
      k := ReservedFact(StreamAt(y, Fulfillment, o), g.refusals.stock, g.byOperator);
    case Invoiced =>
      p := Billing;
      k := InvoiceFact(StreamAt(y, Billing, o), g.refusals.credit, NetOf(y.orders.orders[o].lines));
    case Despatched =>
      p := Fulfillment;
      k := DespatchFact(StreamAt(y, Fulfillment, o), g.refusals.stock, g.byOperator);
    case _ =>
      p := Orders;
      k := OwnFact(StreamAt(y, Orders, o), g.status);
  }

  lemma ReservedFact(facts: seq<Fact>, refusals: nat, byOperator: bool) returns (k: nat)
    requires StockStreamIs(facts, refusals, S.StockHeld, byOperator)
    ensures k < |facts| && J.RankOf(facts[k]) == 2
  {
    k := refusals;
    assert IsEvent(facts[k], S.StockEvent(refusals, S.StockHeld, k));
  }

  lemma OwnFact(facts: seq<Fact>, status: OrderStatus) returns (k: nat)
    requires OrdersStreamIs(facts, status) && status in {Cancelled, Completed, Confirmed}
    ensures k < |facts| && J.RankOf(facts[k]) == if status == Cancelled then 99 else if status == Completed then 98
            else 4
  {
    if status == Cancelled {
      k :| k < |facts| && facts[k].OrderCancelledFact?;
    } else if status == Completed {
      k :| k < |facts| && facts[k].OrderCompletedFact?;
    } else {
      k :| k < |facts| && facts[k].OrderConfirmedFact?;
    }
  }

  lemma DespatchFact(facts: seq<Fact>, refusals: nat, byOperator: bool) returns (k: nat)
    requires StockStreamIs(facts, refusals, S.StockShipped, byOperator)
    ensures k < |facts| && J.RankOf(facts[k]) == 5
  {
    k := refusals + 1;
    assert IsEvent(facts[k], S.StockEvent(refusals, S.StockShipped, k));
  }

  lemma InvoiceFact(facts: seq<Fact>, refusals: nat, net: int) returns (k: nat)
    requires CreditStreamIs(facts, refusals, S.CreditInvoiced, net)
    ensures k < |facts| && J.RankOf(facts[k]) == 6
  {
    k := refusals + 1;
    assert IsEvent(facts[k], S.CreditEvent(refusals, S.CreditInvoiced, k));
  }

  lemma GreatestRank(y: SystemState, o: OrderId, g: S.SagaState, es: seq<Envelope>)
    requires StandsFor(y, o, g) && I.SagaInv(g) && AllFactsOf(y, o, es) && P.Resting(g)
    ensures J.Project(es).status == g.status
  {
    FactsHaveOneSource(y, o, g, es);
    J.OneSourceNames(es);
    J.ProjectReads(es);
    var p, k := Witness(y, o, g);
    assert EnvelopeAt(y, p, o, k) in es;
    var w :| 0 <= w < |es| && es[w] == EnvelopeAt(y, p, o, k);
    forall i | 0 <= i < |es| ensures RankFits(J.RankOf(es[i].fact), g) {
      assert es[i] in es;
      RankBound(y, o, g, es[i].eventId.producer, es[i].eventId.position);
    }
    StatusFromRanks(J.Project(es), es, g, w);
  }

  lemma StatusFromRanks(d: J.Document, es: seq<Envelope>, g: S.SagaState, w: nat)
    requires J.Reads(d, es) && w < |es| && forall i :: 0 <= i < |es| ==> RankFits(J.RankOf(es[i].fact), g)
    requires P.Resting(g) && J.RankOf(es[w].fact) == RestRank(g)
    ensures d.status == g.status
  {
    var i :| 0 <= i < |es| && J.RankOf(es[i].fact) == d.statusRank;
    assert RankFits(J.RankOf(es[i].fact), g) && J.RankOf(es[w].fact) <= d.statusRank;
  }

  /** At rest the read model and the order agree, for every order: whatever order the facts arrived in and however
      often, the projected status is the status of the order, be it over, waiting or stopped. */
  lemma ProjectedStatusAtRest(y0: SystemState, steps: seq<SystemStep>, o: OrderId, es: seq<Envelope>)
    requires Initial(y0) && o in RunSystem(y0, steps).orders.orders && AllFactsOf(RunSystem(y0, steps), o, es)
    requires AtRest(RunSystem(y0, steps), o)
    ensures J.Project(es).status == RunSystem(y0, steps).orders.orders[o].status
  {
    var h := ReachedOrder(y0, steps, o);
    RestIsQuiescent(RunSystem(y0, steps), o, Now(h));
    P.Progress(Now(h));
    GreatestRank(RunSystem(y0, steps), o, Now(h), es);
  }

  // ---- The projected header ----

  /** The first fact of a placed order announces the terms that the order still has. */
  ghost predicate HeaderAnnounced(y: SystemState, o: OrderId) {
    o in y.orders.orders ==>
      && StreamAt(y, Orders, o) != []
      && StreamAt(y, Orders, o)[0]
         == OrderPlacedFact(HeaderFor(y.orders.orders[o].lines, y.orders.orders[o].currency, y.orders.orders[o].credit))
  }

  predicate StartsWith(facts: seq<Fact>, more: seq<Fact>) {
    facts != [] ==> more != [] && more[0] == facts[0]
  }

  lemma OwnStreamStartsAlike(y: SystemState, step: SystemStep, o: OrderId)
    ensures StartsWith(StreamAt(y, Orders, o), StreamAt(SystemNext(y, step), Orders, o))
  {
    if step.Deliver? && step.position <= Offset(y, step.producer, step.order)
       && step.position < |StreamAt(y, step.producer, step.order)| {
      var facts := C.HandlingRecords(y.orders, Envelope(EventId(step.producer, step.order, step.position), step.order,
                                                        StreamAt(y, step.producer, step.order)[step.position]));
    }
  }

  lemma PlacingAnnounces(y: SystemState, step: SystemStep, o: OrderId)
    requires NeverPlaced(y, o)
    ensures HeaderAnnounced(SystemNext(y, step), o)
  {
    if step.Deliver? && step.position <= Offset(y, step.producer, step.order)
       && step.position < |StreamAt(y, step.producer, step.order)| {
      HandlingPlacesNothing(y.orders, Envelope(EventId(step.producer, step.order, step.position), step.order,
                                               StreamAt(y, step.producer, step.order)[step.position]));
    }
    assert StreamAt(y, Orders, o) == [];
  }

  lemma {:induction false} HeadersAnnounced(y0: SystemState, steps: seq<SystemStep>, o: OrderId)
    requires Initial(y0)
    ensures HeaderAnnounced(RunSystem(y0, steps), o)
  {
    if steps != [] {
      var init, last := steps[..|steps| - 1], steps[|steps| - 1];
      var y := RunSystem(y0, init);
      HeadersAnnounced(y0, init, o);
      if o in y.orders.orders {
        OwnStreamStartsAlike(y, last, o);
        StepKeepsTerms(y, last, o);
      } else {
        var h := ReachedOrder(y0, init, o);
        PlacingAnnounces(y, last, o);
      }
    }
  }

  // ---- The rank table against Table T-1 ----

  /** A fact that advances its order implies the status that the table moves it to: one edge away, and where the advance
      ends, but for the approval, which goes on to `confirmed` at once. */
  lemma AdvancesAreImplied(f: Fact, order: OrderSnapshot, step: SagaStep)
    requires ActionOn(f, order.status) == Some(step) && step.AdvanceStep? && Advanced(step.advance, order).Ok?
    requires !f.CreditReleasedFact? && !f.StockReleasedFact? && !f.CreditRejectedFact?
    ensures J.ImpliedStatusOf(f).Some?
    ensures var implied, after := J.ImpliedStatusOf(f).value, Advanced(step.advance, order).value.order.status;
            if f.OrderPlacedFact? then implied == order.status == after
            else FindTransition(order.status, implied).Some?
                 && (after == implied || (implied == CreditApproved && after == Confirmed))
  {
  }

  /** And the order's own facts imply the status that the edge which emits them leads to. */
  lemma EmissionsAreImplied(order: OrderSnapshot, to: OrderStatus, reason: CancellationReason,
                            steps: seq<CompensationStep>)
    ensures to != Cancelled && Transitioned(order, to).Ok? ==>
              forall f :: f in Transitioned(order, to).value.facts ==> J.ImpliedStatusOf(f) == Some(to)
    ensures CancelledBy(order, reason, steps).Ok? ==>
              forall f :: f in CancelledBy(order, reason, steps).value.facts ==> J.ImpliedStatusOf(f) == Some(Cancelled)
  {
  }
}
