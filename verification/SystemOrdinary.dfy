/** Runs without an operator and without second decisions: every fact is acted on, and no request is refused. */
module SystemOrdinary {
  import opened Kernel
  import opened OrderAggregate
  import opened SagaSteps
  import opened OrdersService
  import opened FulfillmentTables
  import opened FulfillmentPhases
  import opened BillingTables
  import opened BillingInvariants
  import opened Abstraction
  import BS = BillingSimulation
  import S = Saga
  import I = SagaInvariant
  import N = SagaOrdinary
  import opened System
  import opened SystemRefinement
  import D = SystemDelivery
  import opened SystemRuns

  /** The responder has refused a request of the order. */
  predicate StockRefused(y: SystemState, o: OrderId) {
    exists i :: 0 <= i < |StreamAt(y, Fulfillment, o)| && StreamAt(y, Fulfillment, o)[i].StockRejectedFact?
  }

  predicate CreditRefused(y: SystemState, o: OrderId) {
    exists i :: 0 <= i < |StreamAt(y, Billing, o)| && StreamAt(y, Billing, o)[i].CreditRejectedFact?
  }

  /** No operator cancels the order, and a request of it that was refused is not decided again. */
  predicate OrdinaryStep(y: SystemState, step: SystemStep, o: OrderId) {
    match step
    case CancelAfterRead(other, _) => other != o
    case Execute(other, kind, _) =>
      other == o ==> (kind == ReserveStock ==> !StockRefused(y, o)) && (kind == HoldCredit ==> !CreditRefused(y, o))
    case _ => true
  }

  predicate OrdinaryRun(y0: SystemState, steps: seq<SystemStep>, o: OrderId) {
    forall i :: 0 <= i < |steps| ==> OrdinaryStep(RunSystem(y0, steps[..i]), steps[i], o)
  }

  ghost predicate OrdinaryHistory(hs: map<OrderId, History>, o: OrderId) {
    o in hs ==> N.OrdinaryInv(Now(hs[o]))
  }

  /** A refusal shows in the responder's stream. */
  lemma RefusalsShow(y: SystemState, o: OrderId, g: S.SagaState)
    requires StandsFor(y, o, g)
    ensures g.refusals.stock > 0 ==> StockRefused(y, o)
    ensures g.refusals.credit > 0 ==> CreditRefused(y, o)
  {
    if g.refusals.stock > 0 {
      assert IsEvent(StreamAt(y, Fulfillment, o)[0], S.StockRejectedEvent);
    }
    if g.refusals.credit > 0 {
      assert IsEvent(StreamAt(y, Billing, o)[0], S.CreditRejectedEvent);
    }
  }

  lemma OrdinaryMoves(y: SystemState, step: SystemStep, o: OrderId, g: S.SagaState, m: S.SagaMove)
    requires StandsFor(y, o, g) && StandsForMove(y, step, o, m) && OrdinaryStep(y, step, o)
    ensures N.OrdinaryMove(g, m)
  {
    RefusalsShow(y, o, g);
  }

  lemma OrdinaryHistoryGrows(y: SystemState, step: SystemStep, hs: map<OrderId, History>, hs': map<OrderId, History>,
                             o: OrderId)
    requires ExplainedAt(y, hs, o) && HistoryGrows(y, step, hs, hs', o) && OrdinaryStep(y, step, o)
             && OrdinaryHistory(hs, o)
    ensures OrdinaryHistory(hs', o)
  {
    if o in hs {
      var m: Option<S.SagaMove> :| hs'[o] == Longer(hs[o], m) && (m.Some? ==> StandsForMove(y, step, o, m.value));
      LongerMoves(hs[o], m);
      HistoriesKeepTheInvariant(hs[o]);
      if m.Some? {
        OrdinaryMoves(y, step, o, Now(hs[o]), m.value);
        N.OrdinaryStep(Now(hs[o]), m.value);
      }
    } else if o in hs' {
      N.BeginningIsOrdinary(hs'[o].reference, hs'[o].positive);
    }
  }

  lemma {:induction false} OrdinaryRunsStayOrdinary(y0: SystemState, steps: seq<SystemStep>, o: OrderId)
    returns (hs: map<OrderId, History>)
    requires Initial(y0) && OrdinaryRun(y0, steps, o)
    ensures SystemOk(RunSystem(y0, steps), hs) && OrdinaryHistory(hs, o)
  {
    if steps == [] {
      hs := map[];
      InitialIsOk(y0);
    } else {
      var init, last := steps[..|steps| - 1], steps[|steps| - 1];
      forall i | 0 <= i < |init| ensures OrdinaryStep(RunSystem(y0, init[..i]), init[i], o) {
        assert init[..i] == steps[..i] && init[i] == steps[i];
      }
      var before := OrdinaryRunsStayOrdinary(y0, init, o);
      hs := SystemStepExplained(RunSystem(y0, init), before, last);
      assert OrdinaryStep(RunSystem(y0, steps[..|steps| - 1]), steps[|steps| - 1], o);
      assert ExplainedAt(RunSystem(y0, init), before, o) && HistoryGrows(RunSystem(y0, init), last, before, hs, o);
      OrdinaryHistoryGrows(RunSystem(y0, init), last, before, hs, o);
    }
  }

  // ---- Every fact is acted on ----

  /** First-delivery totality: the next fact of any stream of the order is processed; it neither is ignored nor fails.
      */
  lemma FirstDeliveryTotality(y0: SystemState, steps: seq<SystemStep>, p: Producer, o: OrderId)
    requires Initial(y0) && OrdinaryRun(y0, steps, o)
    ensures var y := RunSystem(y0, steps);
            Offset(y, p, o) < |StreamAt(y, p, o)| ==> HandleFact(y.orders, D.NextEnvelope(y, p, o)).1.Processed?
  {
    var y := RunSystem(y0, steps);
    var hs := OrdinaryRunsStayOrdinary(y0, steps, o);
    assert ExplainedAt(y, hs, o);
    if o !in hs {
      assert StreamAt(y, p, o) == [];
    } else if Offset(y, p, o) < |StreamAt(y, p, o)| {
      HistoriesKeepTheInvariant(hs[o]);
      N.OrdinaryFactsAct(Now(hs[o]));
      NextIsActedOn(y, p, o, Now(hs[o]));
    }
  }

  lemma NextIsActedOn(y: SystemState, p: Producer, o: OrderId, g: S.SagaState)
    requires StandsFor(y, o, g) && I.SagaInv(g) && N.EveryFactActs(g) && Offset(y, p, o) < |StreamAt(y, p, o)|
    ensures HandleFact(y.orders, D.NextEnvelope(y, p, o)).1.Processed?
  {
    D.NotApprovedStatus(g);
    match p
    case Fulfillment => HandledActs(y, p, o, g, S.StockEventAt(g, g.stockSeen));
    case Billing => HandledActs(y, p, o, g, S.CreditEventAt(g, g.creditSeen));
    case Orders =>
      if g.placedSeen {
        assert NeedsNoWork(StreamAt(y, Orders, o)[Offset(y, Orders, o)]);
      } else {
        HandledActs(y, p, o, g, S.PlacedEvent);
      }
  }

  lemma HandledActs(y: SystemState, p: Producer, o: OrderId, g: S.SagaState, event: S.SagaEvent)
    requires OrdersPart(y, o, g) && DeliveryPart(y, o, g) && Offset(y, p, o) < |StreamAt(y, p, o)|
    requires p == Orders ==> !g.placedSeen
    requires IsEvent(D.NextEnvelope(y, p, o).fact, event) && g.status != CreditApproved && S.React(g, event).Acts?
    requires D.NextEnvelope(y, p, o).fact.StockReleasedFact? ==>
               D.NextEnvelope(y, p, o).fact.releaseReason == ReleaseReasonOf(g.byOperator)
    ensures HandleFact(y.orders, D.NextEnvelope(y, p, o)).1.Processed?
  {
    D.NextIsHandled(y, p, o, g, event);
  }

  // ---- No request is refused ----

  /** What the responders would say to the requests that the order owes, or has owed. */
  ghost predicate RequestsAccepted(y: SystemState, o: OrderId)
    requires o in y.orders.orders
  {
    var order := y.orders.orders[o];
    && ((o, ReleaseStock) in y.orders.commands ==> forall reason :: ReleaseTx(y.fulfillment, o, reason).1.Ok?)
    && ((o, CreateDespatch) in y.orders.commands ==> DespatchTx(y.fulfillment, o).1.Ok?)
    && ((o, IssueInvoice) in y.orders.commands && NetOf(order.lines) > 0 ==>
          IssueTx(y.billing.state, order.credit, o, order.currency, InvoiceLinesOf(order.lines),
                  DiscountOf(order.lines)).1.Ok?)
  }

  /** So a terminal reservation, a missing reservation and a missing hold are unreachable refusals in such a run. */
  lemma NoRequestIsRefused(y0: SystemState, steps: seq<SystemStep>, o: OrderId)
    requires Initial(y0) && OrdinaryRun(y0, steps, o) && o in RunSystem(y0, steps).orders.orders
    ensures RequestsAccepted(RunSystem(y0, steps), o)
  {
    var y := RunSystem(y0, steps);
    var hs := OrdinaryRunsStayOrdinary(y0, steps, o);
    assert ExplainedAt(y, hs, o);
    HistoriesKeepTheInvariant(hs[o]);
    N.NothingIsRefused(Now(hs[o]));
    OwedRequestsAccepted(y, o, Now(hs[o]));
  }

  lemma OwedRequestsAccepted(y: SystemState, o: OrderId, g: S.SagaState)
    requires TablesOk(y) && StandsFor(y, o, g) && N.NoRequestIsRefused(g)
    ensures RequestsAccepted(y, o)
  {
    var order := y.orders.orders[o];
    RowsSay(y, o, g);
    if g.releaseRow != S.NoRow {
      forall reason ensures ReleaseTx(y.fulfillment, o, reason).1.Ok? {
        ReleaseByPhase(y.fulfillment, o, reason, StatusOf(g.stock));
      }
    }
    if g.despatchRow != S.NoRow {
      DespatchByPhase(y.fulfillment, o, StatusOf(g.stock));
    }
    if g.invoiceRow != S.NoRow && NetOf(order.lines) > 0 {
      IssueAccepted(y.billing.state, o, order, g);
    }
  }

  lemma RowsSay(y: SystemState, o: OrderId, g: S.SagaState)
    requires StandsFor(y, o, g)
    ensures (o, ReleaseStock) in y.orders.commands <==> g.releaseRow != S.NoRow
    ensures (o, CreateDespatch) in y.orders.commands <==> g.despatchRow != S.NoRow
    ensures (o, IssueInvoice) in y.orders.commands <==> g.invoiceRow != S.NoRow
  {
    var order := y.orders.orders[o];
    forall kind: CommandKind ensures (o, kind) in y.orders.commands <==> StateOf(kind, g) != S.NoRow {
      assert RowIs(RowFor(y.orders.commands, o, kind), (o, kind) in y.answered, PayloadOf(kind, order, g.byOperator),
                   StateOf(kind, g));
    }
    assert StateOf(ReleaseStock, g) == g.releaseRow && StateOf(CreateDespatch, g) == g.despatchRow
           && StateOf(IssueInvoice, g) == g.invoiceRow;
  }

  lemma IssueAccepted(b: BillingState, o: OrderId, order: OrderSnapshot, g: S.SagaState)
    requires LinesOk(b) && BS.BillingIs(b, o, order, g) && OrderIs(order, g) && NetOf(order.lines) > 0
    requires g.credit == S.CreditHeld || g.credit == S.CreditInvoiced || g.credit == S.CreditSettled
    ensures IssueTx(b, order.credit, o, order.currency, InvoiceLinesOf(order.lines), DiscountOf(order.lines)).1.Ok?
  {
    BS.EntriesDecide(b, o, order, g.credit);
    InvoiceGrossIsOrderGross(order.lines);
  }
}
