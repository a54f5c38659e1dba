/** What a cancellation says about its compensation is true: every release it records has happened, stock first. */
module SystemCompensation {
  import opened Kernel
  import opened SagaSteps
  import opened OrdersService
  import opened Stock
  import opened FulfillmentPhases
  import opened Abstraction
  import S = Saga
  import I = SagaInvariant
  import N = SagaTermination
  import opened System
  import opened SystemRefinement
  import D = SystemDelivery
  import opened SystemRuns
  import opened SystemTheorems

  // ---- In terms of the saga ----

  /** The events that a truthful record names: the one release that each stream can have for a cancellation. */
  predicate TrueRecord(reason: CancellationReason, steps: seq<CompensationStep>, o: OrderId, g: S.SagaState) {
    || (steps == [] && reason != CreditRejection)
    || (steps == [StockReleasedStep(Some(EventId(Fulfillment, o, g.refusals.stock + 1)))]
        && reason != StockRejection && g.stock == S.StockFreed)
    || (steps == [StockReleasedStep(None), CreditReleasedStep(Some(EventId(Billing, o, g.refusals.credit + 1)))]
        && reason == OperatorCancelled && g.stock == S.StockFreed && g.credit == S.CreditFreed)
  }

  predicate TrueRecords(facts: seq<Fact>, o: OrderId, g: S.SagaState) {
    forall i :: 0 <= i < |facts| && facts[i].OrderCancelledFact? ==> TrueRecord(facts[i].reason, facts[i].steps, o, g)
  }

  /** What has been released for a cancellation stays so. */
  predicate StaysReleased(g: S.SagaState, t: S.SagaState) {
    && (g.stock == S.StockFreed ==> t.stock == S.StockFreed && t.refusals.stock == g.refusals.stock)
    && (g.credit == S.CreditFreed ==> t.credit == S.CreditFreed && t.refusals.credit == g.refusals.credit)
  }

  lemma ReactionReleasesNothing(g: S.SagaState, e: S.SagaEvent)
    ensures StaysReleased(g, S.StockAcknowledged(g, S.React(g, e)))
            && StaysReleased(g, S.CreditAcknowledged(g, S.React(g, e)))
  {
    N.ReactionClimbs(g, e);
  }

  lemma PlacedReleasesNothing(g: S.SagaState)
    ensures StaysReleased(g, S.PlacedDelivery(g))
  {
  }

  lemma StockStaysReleased(g: S.SagaState, d: S.Decision)
    ensures StaysReleased(g, S.ReserveExecuted(g, d)) && StaysReleased(g, S.ReleaseExecuted(g))
            && StaysReleased(g, S.DespatchExecuted(g))
  {
  }

  lemma CreditStaysReleased(g: S.SagaState, d: S.Decision)
    ensures StaysReleased(g, S.HoldExecuted(g, d)) && StaysReleased(g, S.IssueExecuted(g))
            && StaysReleased(g, S.RefundExecuted(g))
    ensures StaysReleased(g, S.PaymentRegistered(g))
  {
  }

  lemma OperatorReleasesNothing(g: S.SagaState)
    ensures StaysReleased(g, S.StatusRead(g)) && StaysReleased(g, S.CancelEnqueued(g))
            && StaysReleased(g, S.CancelledDirect(g))
  {
  }

  lemma StepStaysReleased(g: S.SagaState, m: S.SagaMove)
    ensures StaysReleased(g, S.Step(g, m))
  {
    PlacedReleasesNothing(g);
    OperatorReleasesNothing(g);
    match m
    case DeliverPlaced =>
    case DeliverStock => if S.StockPending(g) { ReactionReleasesNothing(g, S.StockEventAt(g, g.stockSeen)); }
    case DeliverCredit => if S.CreditPending(g) { ReactionReleasesNothing(g, S.CreditEventAt(g, g.creditSeen)); }
    case ExecReserve(d) => StockStaysReleased(g, d);
    case ExecRelease => StockStaysReleased(g, S.NoDecision);
    case ExecDespatch => StockStaysReleased(g, S.NoDecision);
    case ExecHold(d) => CreditStaysReleased(g, d);
    case ExecIssue => CreditStaysReleased(g, S.NoDecision);
    case ExecReleaseCredit => CreditStaysReleased(g, S.NoDecision);
    case CancelRead =>
    case CancelEnqueue =>
    case CancelDirect =>
    case Pay => CreditStaysReleased(g, S.NoDecision);
  }

  lemma RecordsStayTrue(facts: seq<Fact>, o: OrderId, g: S.SagaState, t: S.SagaState)
    requires TrueRecords(facts, o, g) && StaysReleased(g, t)
    ensures TrueRecords(facts, o, t)
  {
    forall i | 0 <= i < |facts|
      && facts[i].OrderCancelledFact? ensures TrueRecord(facts[i].reason, facts[i].steps, o, t) {
      assert TrueRecord(facts[i].reason, facts[i].steps, o, g);
    }
  }

  // ---- The facts of one step ----

  /** What the handling of `e` can record of its order: a cancellation is the table's, with its compensation. */
  predicate HandledFacts(s: OrdersState, e: Envelope, facts: seq<Fact>) {
    && e.correlationId in s.orders
    && forall i :: 0 <= i < |facts| && facts[i].OrderCancelledFact? ==>
                     exists rule :: CancelsBy(s.orders[e.correlationId].status, e, rule)
                       && ReasonOf(rule, e) == Ok(facts[i].reason)
                                    && facts[i].steps == CompensationOf(rule, e)
  }

  predicate CancelsBy(status: OrderStatus, e: Envelope, rule: CancelRule) {
    ActionOn(e.fact, status) == Some(CancelStep(status, rule))
  }

  lemma HandlingRecords(s: OrdersState, e: Envelope) returns (facts: seq<Fact>)
    ensures var t := HandleFact(s, e).0;
            && StreamOf(t.outbox, e.correlationId) == StreamOf(s.outbox, e.correlationId) + facts
            && (forall other :: other != e.correlationId ==> StreamOf(t.outbox, other) == StreamOf(s.outbox, other))
    ensures facts == [] || HandledFacts(s, e, facts)
  {
    var o := e.correlationId;
    facts := [];
    assert StreamOf(s.outbox, o) + [] == StreamOf(s.outbox, o);
    if !HandleFact(s, e).1.Failed? && HandleFact(s, e).1 != Duplicate && HandleFact(s, e).0.outbox != s.outbox {
      StepForStatusIsActionOn(e.fact, s.orders[o].status);
      var step := StepForStatus(e.fact, s.orders[o].status).value;
      facts := StepChange(step, s.orders[o], e).value.facts;
      ChangeRecords(s, e, step);
    }
  }

  lemma ChangeRecords(s: OrdersState, e: Envelope, step: SagaStep)
    requires e.correlationId in s.orders && !step.Skip?
             && ActionOn(e.fact, s.orders[e.correlationId].status) == Some(step)
    requires StepChange(step, s.orders[e.correlationId], e).Ok?
    ensures HandledFacts(s, e, StepChange(step, s.orders[e.correlationId], e).value.facts)
  {
    if step.CancelStep? {
      assert CancelsBy(s.orders[e.correlationId].status, e, step.rule);
    }
  }

  /** The streams in which a release can come, and what its place says of the phases. */
  lemma StockReleaseIsTrue(y: SystemState, p: Producer, o: OrderId, k: nat, g: S.SagaState)
    requires StandsFor(y, o, g) && k < |StreamAt(y, p, o)| && StreamAt(y, p, o)[k].StockReleasedFact?
    ensures p == Fulfillment && g.stock == S.StockFreed && k == g.refusals.stock + 1
  {
    var fact := StreamAt(y, p, o)[k];
    D.EventsNeedWork(fact, S.StockReleasedEvent);
    assert p == Fulfillment ==> IsEvent(fact, S.StockEvent(g.refusals.stock, g.stock, k));
    assert p == Billing ==> IsEvent(fact, S.CreditEvent(g.refusals.credit, g.credit, k));
  }

  lemma CreditReleaseIsTrue(y: SystemState, p: Producer, o: OrderId, k: nat, g: S.SagaState)
    requires StandsFor(y, o, g) && k < |StreamAt(y, p, o)|
    requires StreamAt(y, p, o)[k].CreditReleasedFact? && StreamAt(y, p, o)[k].creditReason == ForOrderCancelled
    requires g.credit != S.CreditFreedAfterInvoice && g.credit != S.CreditSettledAfterFree
    ensures p == Billing && g.credit == S.CreditFreed && k == g.refusals.credit + 1
  {
    var fact := StreamAt(y, p, o)[k];
    D.EventsNeedWork(fact, S.CancelReleaseEvent);
    assert p == Fulfillment ==> IsEvent(fact, S.StockEvent(g.refusals.stock, g.stock, k));
    assert p == Billing ==> IsEvent(fact, S.CreditEvent(g.refusals.credit, g.credit, k));
  }

  /** A confirmed order whose credit is free has its stock free as well. */
  lemma StockIsFreedFirst(g: S.SagaState)
    requires I.SagaInv(g)
    ensures g.status != CreditApproved && g.credit != S.CreditFreedAfterInvoice && g.credit != S.CreditSettledAfterFree
    ensures g.status == Confirmed && g.credit == S.CreditFreed ==> g.stock == S.StockFreed
  {
  }

  /** A fact that cancels its order proves what is recorded with the cancellation. */
  lemma CancellingFactIsTrue(y: SystemState, p: Producer, o: OrderId, k: nat, g: S.SagaState, e: Envelope,
                             rule: CancelRule)
    requires StandsFor(y, o, g) && I.SagaInv(g) && k < |StreamAt(y, p, o)|
             && e == Envelope(EventId(p, o, k), o, StreamAt(y, p, o)[k])
    requires CancelsBy(g.status, e, rule) && ReasonOf(rule, e).Ok?
    ensures TrueRecord(ReasonOf(rule, e).value, CompensationOf(rule, e), o, g)
  {
    StockIsFreedFirst(g);
    RuleOfFact(g.status, e, rule);
    if rule == FromStockRelease {
      StockReleaseIsTrue(y, p, o, k, g);
    } else if rule == FromStockThenCreditRelease {
      CreditReleaseIsTrue(y, p, o, k, g);
    }
    RecordFits(o, g, e, rule);
  }

  lemma RuleOfFact(status: OrderStatus, e: Envelope, rule: CancelRule)
    requires CancelsBy(status, e, rule) && ReasonOf(rule, e).Ok?
    ensures rule == FromStockRelease ==> e.fact.StockReleasedFact?
    ensures rule == FromStockThenCreditRelease ==>
              e.fact.CreditReleasedFact? && e.fact.creditReason == ForOrderCancelled
                && (status == Confirmed || status == CreditApproved)
  {
  }

  lemma RecordFits(o: OrderId, g: S.SagaState, e: Envelope, rule: CancelRule)
    requires ReasonOf(rule, e).Ok?
    requires rule == FromStockRelease ==>
             g.stock == S.StockFreed && e.eventId == EventId(Fulfillment, o, g.refusals.stock + 1)
    requires rule == FromStockThenCreditRelease ==>
               g.stock == S.StockFreed && g.credit == S.CreditFreed
                 && e.eventId == EventId(Billing, o, g.refusals.credit + 1)
    ensures TrueRecord(ReasonOf(rule, e).value, CompensationOf(rule, e), o, g)
  {
  }

  lemma HandledFactsAreTrue(y: SystemState, p: Producer, o: OrderId, k: nat, g: S.SagaState, e: Envelope,
                            facts: seq<Fact>)
    requires StandsFor(y, o, g) && I.SagaInv(g) && k < |StreamAt(y, p, o)|
             && e == Envelope(EventId(p, o, k), o, StreamAt(y, p, o)[k])
    requires HandledFacts(y.orders, e, facts)
    ensures TrueRecords(facts, o, g)
  {
    forall i | 0 <= i < |facts|
      && facts[i].OrderCancelledFact? ensures TrueRecord(facts[i].reason, facts[i].steps, o, g) {
      var rule :| CancelsBy(y.orders.orders[o].status, e, rule) && ReasonOf(rule, e) == Ok(facts[i].reason)
                  && facts[i].steps == CompensationOf(rule, e);
      CancellingFactIsTrue(y, p, o, k, g, e, rule);
    }
  }

  lemma DeliveryRecords(y: SystemState, p: Producer, o: OrderId, k: nat, g: S.SagaState)
    requires StandsFor(y, o, g) && I.SagaInv(g) && TrueRecords(StreamAt(y, Orders, o), o, g)
    ensures TrueRecords(StreamAt(Delivering(y, p, o, k), Orders, o), o, g)
  {
    if k <= Offset(y, p, o) && k < |StreamAt(y, p, o)| {
      HandledRecords(y, p, o, k, g, Envelope(EventId(p, o, k), o, StreamAt(y, p, o)[k]));
      DeliveredStream(y, p, o, k, Envelope(EventId(p, o, k), o, StreamAt(y, p, o)[k]));
    } else {
      NotDelivered(y, p, o, k);
    }
  }

  lemma HandledRecords(y: SystemState, p: Producer, o: OrderId, k: nat, g: S.SagaState, e: Envelope)
    requires StandsFor(y, o, g) && I.SagaInv(g) && TrueRecords(StreamAt(y, Orders, o), o, g)
    requires k < |StreamAt(y, p, o)| && e == Envelope(EventId(p, o, k), o, StreamAt(y, p, o)[k])
    ensures TrueRecords(StreamOf(HandleFact(y.orders, e).0.outbox, o), o, g)
  {
    var facts := HandlingRecords(y.orders, e);
    if facts != [] {
      HandledFactsAreTrue(y, p, o, k, g, e, facts);
    }
    RecordsAppend(StreamAt(y, Orders, o), facts, o, g);
  }

  lemma NotDelivered(y: SystemState, p: Producer, o: OrderId, k: nat)
    requires k > Offset(y, p, o) || k >= |StreamAt(y, p, o)|
    ensures Delivering(y, p, o, k) == y
  {
  }

  lemma DeliveredStream(y: SystemState, p: Producer, o: OrderId, k: nat, e: Envelope)
    requires k <= Offset(y, p, o) && k < |StreamAt(y, p, o)| && e == Envelope(EventId(p, o, k), o, StreamAt(y, p, o)[k])
    ensures StreamAt(Delivering(y, p, o, k), Orders, o) == StreamOf(HandleFact(y.orders, e).0.outbox, o)
  {
  }

  lemma RecordsAppend(was: seq<Fact>, facts: seq<Fact>, o: OrderId, g: S.SagaState)
    requires TrueRecords(was, o, g) && TrueRecords(facts, o, g)
    ensures TrueRecords(was + facts, o, g)
  {
  }

  lemma CancellationRecords(y: SystemState, o: OrderId, observed: OrderStatus, g: S.SagaState)
    requires TrueRecords(StreamAt(y, Orders, o), o, g)
    ensures TrueRecords(StreamAt(Cancelling(y, o, observed), Orders, o), o, g)
  {
  }

  lemma PlacingRecords(y: SystemState, step: SystemStep, o: OrderId, g: S.SagaState)
    requires step.PlaceOrder? && TrueRecords(StreamAt(y, Orders, o), o, g)
    ensures TrueRecords(StreamAt(SystemNext(y, step), Orders, o), o, g)
  {
  }

  /** No other step adds to the order's own facts. */
  lemma OtherStepsRecordNothing(y: SystemState, step: SystemStep, o: OrderId)
    requires !step.PlaceOrder? && (step.Deliver? || step.CancelAfterRead? ==> step.order != o)
    ensures StreamAt(SystemNext(y, step), Orders, o) == StreamAt(y, Orders, o)
  {
    if step.Deliver? && step.position <= Offset(y, step.producer, step.order)
      && step.position < |StreamAt(y, step.producer, step.order)| {
      var _ := HandlingRecords(y.orders, Envelope(EventId(step.producer, step.order, step.position), step.order,
                                                  StreamAt(y, step.producer, step.order)[step.position]));
    }
  }

  lemma StepRecords(y: SystemState, step: SystemStep, o: OrderId, g: S.SagaState)
    requires StandsFor(y, o, g) && I.SagaInv(g) && TrueRecords(StreamAt(y, Orders, o), o, g)
    ensures TrueRecords(StreamAt(SystemNext(y, step), Orders, o), o, g)
  {
    if step.PlaceOrder? {
      PlacingRecords(y, step, o, g);
    } else if step.Deliver? && step.order == o {
      DeliveryRecords(y, step.producer, o, step.position, g);
    } else if step.CancelAfterRead? && step.order == o {
      CancellationRecords(y, o, step.observed, g);
    } else {
      OtherStepsRecordNothing(y, step, o);
    }
  }

  // ---- Over whole runs ----

  ghost predicate RecordsExplained(y: SystemState, hs: map<OrderId, History>, o: OrderId) {
    o in hs ==> TrueRecords(StreamAt(y, Orders, o), o, Now(hs[o]))
  }

  lemma StepExplainsRecords(y: SystemState, step: SystemStep, hs: map<OrderId, History>, hs': map<OrderId, History>,
                            o: OrderId)
    requires ExplainedAt(y, hs, o) && RecordsExplained(y, hs, o) && HistoryGrows(y, step, hs, hs', o)
    requires ExplainedAt(SystemNext(y, step), hs', o)
    ensures RecordsExplained(SystemNext(y, step), hs', o)
  {
    if o in hs {
      var m: Option<S.SagaMove> :| hs'[o] == Longer(hs[o], m) && (m.Some? ==> StandsForMove(y, step, o, m.value));
      LongerMoves(hs[o], m);
      HistoriesKeepTheInvariant(hs[o]);
      StepRecords(y, step, o, Now(hs[o]));
      if m.Some? {
        StepStaysReleased(Now(hs[o]), m.value);
      }
      RecordsStayTrue(StreamAt(SystemNext(y, step), Orders, o), o, Now(hs[o]), Now(hs'[o]));
    } else if o in hs' {
      assert Now(hs'[o]).status == Placed;
    }
  }

  lemma {:induction false} RecordsOverRuns(y0: SystemState, steps: seq<SystemStep>, o: OrderId)
    returns (hs: map<OrderId, History>)
    requires Initial(y0)
    ensures SystemOk(RunSystem(y0, steps), hs) && RecordsExplained(RunSystem(y0, steps), hs, o)
  {
    if steps == [] {
      hs := map[];
      InitialIsOk(y0);
    } else {
      var y := RunSystem(y0, steps[..|steps| - 1]);
      var before := RecordsOverRuns(y0, steps[..|steps| - 1], o);
      hs := SystemStepExplained(y, before, steps[|steps| - 1]);
      assert ExplainedAt(y, before, o) && ExplainedAt(RunSystem(y0, steps), hs, o)
             && HistoryGrows(y, steps[|steps| - 1], before, hs, o);
      StepExplainsRecords(y, steps[|steps| - 1], before, hs, o);
    }
  }

  /** The release that a step records is a fact of its responder, and the tables show it. */
  ghost predicate Happened(y: SystemState, o: OrderId, step: CompensationStep)
    requires o in y.orders.orders
  {
    match step
    case StockReleasedStep(id) =>
      && InPhase(y.fulfillment.reservations, o, Some(Released))
      && (id.Some? ==>
          Published(y, Fulfillment, o, id.value) && StreamAt(y, Fulfillment, o)[id.value.position].StockReleasedFact?)
    case CreditReleasedStep(id) =>
      && ExposureAt(y, o) == 0
      && id.Some? && Published(y, Billing, o, id.value)
      && StreamAt(y, Billing, o)[id.value.position].CreditReleasedFact?
      && StreamAt(y, Billing, o)[id.value.position].creditReason == ForOrderCancelled
  }

  predicate Published(y: SystemState, p: Producer, o: OrderId, id: EventId) {
    id.producer == p && id.order == o && id.position < |StreamAt(y, p, o)|
  }

  /** Release first, cancel second: after any run every recorded step has happened, the stock's before the credit's, and
      a cancellation for a credit rejection never lacks its stock release. */
  lemma RecordedCompensationHappened(y0: SystemState, steps: seq<SystemStep>, o: OrderId, i: nat)
    requires Initial(y0) && o in RunSystem(y0, steps).orders.orders
    requires i < |StreamAt(RunSystem(y0, steps), Orders, o)|
             && StreamAt(RunSystem(y0, steps), Orders, o)[i].OrderCancelledFact?
    ensures var y := RunSystem(y0, steps);
            var f := StreamAt(y, Orders, o)[i];
            && (forall step :: step in f.steps ==> Happened(y, o, step))
            && (f.reason == StockRejection ==> f.steps == []) && (f.reason == CreditRejection ==> |f.steps| == 1)
            && |f.steps| <= 2 && (|f.steps| >= 1 ==> f.steps[0].StockReleasedStep?)
               && (|f.steps| == 2 ==> f.steps[1].CreditReleasedStep?)
  {
    var y := RunSystem(y0, steps);
    var hs := RecordsOverRuns(y0, steps, o);
    assert ExplainedAt(y, hs, o);
    var f := StreamAt(y, Orders, o)[i];
    forall step | step in f.steps ensures Happened(y, o, step) {
      TrueRecordHappened(y, o, Now(hs[o]), f.reason, f.steps, step);
    }
  }

  lemma TrueRecordHappened(y: SystemState, o: OrderId, g: S.SagaState, reason: CancellationReason,
                           steps: seq<CompensationStep>,
                           step: CompensationStep)
    requires TablesOk(y) && StandsFor(y, o, g) && TrueRecord(reason, steps, o, g) && step in steps
    ensures Happened(y, o, step)
  {
    if step.StockReleasedStep? {
      StockReleaseHappened(y, o, g);
    } else {
      ExposureByPhase(y, o, g);
      CreditReleaseHappened(y, o, g);
    }
  }

  lemma StockReleaseHappened(y: SystemState, o: OrderId, g: S.SagaState)
    requires StandsFor(y, o, g) && g.stock == S.StockFreed
    ensures InPhase(y.fulfillment.reservations, o, Some(Released))
    ensures g.refusals.stock + 1 < |StreamAt(y, Fulfillment, o)|
            && StreamAt(y, Fulfillment, o)[g.refusals.stock + 1].StockReleasedFact?
  {
    assert |StreamAt(y, Fulfillment, o)| == g.refusals.stock + 2;
    assert IsEvent(StreamAt(y, Fulfillment, o)[g.refusals.stock + 1], S.StockReleasedEvent);
  }

  lemma CreditReleaseHappened(y: SystemState, o: OrderId, g: S.SagaState)
    requires StandsFor(y, o, g) && g.credit == S.CreditFreed
    ensures g.refusals.credit + 1 < |StreamAt(y, Billing, o)|
            && StreamAt(y, Billing, o)[g.refusals.credit + 1].CreditReleasedFact?
    ensures StreamAt(y, Billing, o)[g.refusals.credit + 1].creditReason == ForOrderCancelled
  {
    assert |StreamAt(y, Billing, o)| == g.refusals.credit + 2;
    assert IsEvent(StreamAt(y, Billing, o)[g.refusals.credit + 1], S.CancelReleaseEvent);
  }
}
