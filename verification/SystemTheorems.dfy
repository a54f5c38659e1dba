/** What the refinement says about the tables of the composed system, after any run. */
module SystemTheorems {
  import opened Kernel
  import opened OrderAggregate
  import opened SagaSteps
  import opened OrdersService
  import opened Stock
  import opened FulfillmentTables
  import opened FulfillmentInvariants
  import opened FulfillmentPhases
  import L = Ledger
  import opened BillingTables
  import opened BillingInvariants
  import R = BillingRuns
  import opened Abstraction
  import BS = BillingSimulation
  import S = Saga
  import I = SagaInvariant
  import T = SagaSafety
  import P = SagaProgress
  import opened System
  import opened SystemRefinement
  import D = SystemDelivery
  import opened SystemRuns
  import V = SystemReservations

  // ---- Reading the tables ----

  function ExposureAt(y: SystemState, o: OrderId): int
    requires o in y.orders.orders
  {
    L.ExposureOf(LedgerOf(y.billing.state, y.orders.orders[o].credit), o)
  }

  ghost predicate IsPaid(y: SystemState, o: OrderId) {
    o in y.billing.state.invoices && y.billing.state.invoices[o].state.Settled?
  }

  predicate CancelRefunded(y: SystemState, o: OrderId) {
    exists i :: 0 <= i < |StreamAt(y, Billing, o)| && StreamAt(y, Billing, o)[i].CreditReleasedFact?
                && StreamAt(y, Billing, o)[i].creditReason == ForOrderCancelled
  }

  /** The reservations of an order have one phase. */
  lemma PhaseIsUnique(f: FulfillmentState, o: OrderId, a: Option<ReservationStatus>, b: Option<ReservationStatus>)
    requires TableOk(f) && InPhase(f.reservations, o, a) && InPhase(f.reservations, o, b)
    ensures a == b
  {
    if a.Some? && b.Some? {
      var key :| key in f.reservations && key.0 == o;
      assert f.reservations[key][0].status == a.value;
      assert f.reservations[key][0].status == b.value;
    }
  }

  /** The phase that the tables show is the saga's. */
  lemma PhaseIs(y: SystemState, o: OrderId, g: S.SagaState, phase: Option<ReservationStatus>)
    requires TableOk(y.fulfillment) && StandsFor(y, o, g)
    ensures InPhase(y.fulfillment.reservations, o, phase) <==> phase == StatusOf(g.stock)
  {
    if InPhase(y.fulfillment.reservations, o, phase) {
      PhaseIsUnique(y.fulfillment, o, phase, StatusOf(g.stock));
    }
  }

  lemma ExposureByPhase(y: SystemState, o: OrderId, g: S.SagaState)
    requires StandsFor(y, o, g) && R.ValidRun(y.billing)
    ensures ExposureAt(y, o) == if g.credit.CreditHeld? || g.credit.CreditInvoiced? then NetOf(y.orders.orders[o].lines)
            else 0
    ensures IsPaid(y, o) <==> IsSettled(g.credit)
  {
    var order := y.orders.orders[o];
    if order.credit in y.billing.state.credits {
      BS.EntriesDecide(y.billing.state, o, order, g.credit);
      R.ExposureByShape(y.billing.state, order.credit, o);
    } else {
      L.OrderEntriesSuffice(LedgerOf(y.billing.state, order.credit), o);
      assert OrderEntries(y.billing.state, order.credit, o) == [];
    }
  }

  /** The explanation of one order, ready to use. */
  lemma ReachedOrder(y0: SystemState, steps: seq<SystemStep>, o: OrderId) returns (h: History)
    requires Initial(y0)
    ensures var y := RunSystem(y0, steps);
            && TablesOk(y)
            && (o in y.orders.orders ==> StandsFor(y, o, Now(h)) && I.SagaInv(Now(h)))
            && (o !in y.orders.orders ==> NeverPlaced(y, o))
  {
    var hs := SystemRefinesSagas(y0, steps);
    assert ExplainedAt(RunSystem(y0, steps), hs, o);
    if o in hs {
      h := hs[o];
      HistoriesKeepTheInvariant(h);
    } else {
      h := History(S.ReferenceData(false, false), false, []);
    }
  }

  // ---- Ship with hold ----

  ghost predicate ShippedWithHold(y: SystemState, o: OrderId) {
    InPhase(y.fulfillment.reservations, o, Some(Consumed)) ==>
      && o in y.orders.orders && !CancelRefunded(y, o)
      && (IsPaid(y, o) || ExposureAt(y, o) == NetOf(y.orders.orders[o].lines))
  }

  /** After any run, an order whose reservations are consumed has never had its credit released for a cancellation,
      and its whole total counts against the credit line until it is paid. */
  lemma ShipWithHold(y0: SystemState, steps: seq<SystemStep>, o: OrderId)
    requires Initial(y0)
    ensures ShippedWithHold(RunSystem(y0, steps), o)
  {
    var h := ReachedOrder(y0, steps, o);
    if o in RunSystem(y0, steps).orders.orders {
      ShippedOrder(RunSystem(y0, steps), o, Now(h));
    } else {
      UnplacedIsUnshipped(RunSystem(y0, steps), o);
    }
  }

  lemma UnplacedIsUnshipped(y: SystemState, o: OrderId)
    requires NeverPlaced(y, o)
    ensures ShippedWithHold(y, o)
  {
  }

  lemma ShippedOrder(y: SystemState, o: OrderId, g: S.SagaState)
    requires TablesOk(y) && StandsFor(y, o, g) && I.SagaInv(g)
    ensures ShippedWithHold(y, o)
  {
    if InPhase(y.fulfillment.reservations, o, Some(Consumed)) {
      PhaseIsUnique(y.fulfillment, o, Some(Consumed), StatusOf(g.stock));
      ShippedPhases(g);
      ShippedCredit(y, o, g);
    }
  }

  lemma ShippedCredit(y: SystemState, o: OrderId, g: S.SagaState)
    requires TablesOk(y) && StandsFor(y, o, g)
             && (g.credit.CreditHeld? || g.credit.CreditInvoiced? || g.credit.CreditSettled?)
    ensures !CancelRefunded(y, o) && (IsPaid(y, o) || ExposureAt(y, o) == NetOf(y.orders.orders[o].lines))
  {
    ExposureByPhase(y, o, g);
    NoCancelRelease(StreamAt(y, Billing, o), g, NetOf(y.orders.orders[o].lines));
  }

  lemma ShippedPhases(g: S.SagaState)
    requires I.SagaInv(g) && g.stock == S.StockShipped
    ensures g.credit.CreditHeld? || g.credit.CreditInvoiced? || g.credit.CreditSettled?
  {
  }

  lemma NoCancelRelease(facts: seq<Fact>, g: S.SagaState, net: int)
    requires CreditStreamIs(facts, g.refusals.credit, g.credit, net)
    requires g.credit.CreditHeld? || g.credit.CreditInvoiced? || g.credit.CreditSettled?
    ensures forall i :: 0 <= i < |facts| ==>
            !(facts[i].CreditReleasedFact? && facts[i].creditReason == ForOrderCancelled)
  {
    forall i | 0 <= i < |facts| ensures !(facts[i].CreditReleasedFact? && facts[i].creditReason == ForOrderCancelled) {
      assert IsEvent(facts[i], S.CreditEvent(g.refusals.credit, g.credit, i));
    }
  }

  // ---- Uniform reservations and the money identity ----

  /** After any run the reservations of an order, over all items, are all reserved, all released or all consumed. */
  lemma UniformReservations(y0: SystemState, steps: seq<SystemStep>, o: OrderId)
    requires Initial(y0)
    ensures exists phase :: InPhase(RunSystem(y0, steps).fulfillment.reservations, o, phase)
  {
    var y := RunSystem(y0, steps);
    var h := ReachedOrder(y0, steps, o);
    assert InPhase(y.fulfillment.reservations, o, if o in y.orders.orders then StatusOf(Now(h).stock) else None);
  }

  /** One amount throughout: what is asked for, held, invoiced, consumed, paid and released is what the order's lines
      are worth. */
  ghost predicate OneAmount(y: SystemState, o: OrderId)
    requires o in y.orders.orders
  {
    var order := y.orders.orders[o];
    var net := LinesWorth(order.lines);
    && (forall i :: 0 <= i < |StreamAt(y, Billing, o)| ==> SpeaksOf(StreamAt(y, Billing, o)[i], net))
    && (forall i :: 0 <= i < |OrderEntries(y.billing.state, order.credit, o)| ==>
                      OrderEntries(y.billing.state, order.credit, o)[i].amount == Money(net, order.currency))
    && (forall c :: c != order.credit ==> OrderEntries(y.billing.state, c, o) == [])
    && (o in y.billing.state.invoices ==> y.billing.state.invoices[o].total == net)
    && (forall ref :: PaidBy(y.billing.state, o, ref) ==> y.billing.state.payments[ref].amount == net)
    && (ExposureAt(y, o) == 0 || ExposureAt(y, o) == net)
  }

  lemma MoneyIdentity(y0: SystemState, steps: seq<SystemStep>, o: OrderId)
    requires Initial(y0) && o in RunSystem(y0, steps).orders.orders
    ensures OneAmount(RunSystem(y0, steps), o)
  {
    var h := ReachedOrder(y0, steps, o);
    OneAmountHolds(RunSystem(y0, steps), o, Now(h));
  }

  lemma OneAmountHolds(y: SystemState, o: OrderId, g: S.SagaState)
    requires TablesOk(y) && StandsFor(y, o, g)
    ensures OneAmount(y, o)
  {
    TotalsAreSums(y.orders.orders[o].lines);
    ExposureByPhase(y, o, g);
    PaymentAmounts(y, o, g);
  }

  lemma PaymentAmounts(y: SystemState, o: OrderId, g: S.SagaState)
    requires StandsFor(y, o, g) && PaymentsOk(y.billing.state)
    ensures forall ref :: PaidBy(y.billing.state, o, ref) ==>
            y.billing.state.payments[ref].amount == NetOf(y.orders.orders[o].lines)
  {
  }

  // ---- No delivery throws ----

  /** After any run, handling the next fact of any stream of any order does not throw. */
  lemma NothingThrows(y0: SystemState, steps: seq<SystemStep>, p: Producer, o: OrderId)
    requires Initial(y0)
    ensures var y := RunSystem(y0, steps);
            Offset(y, p, o) < |StreamAt(y, p, o)| ==> !HandleFact(y.orders, D.NextEnvelope(y, p, o)).1.Failed?
  {
    var y := RunSystem(y0, steps);
    var h := ReachedOrder(y0, steps, o);
    if o !in y.orders.orders {
      assert StreamAt(y, p, o) == [];
    } else if Offset(y, p, o) < |StreamAt(y, p, o)| {
      NextDoesNotThrow(y, p, o, Now(h));
    }
  }

  lemma NextDoesNotThrow(y: SystemState, p: Producer, o: OrderId, g: S.SagaState)
    requires StandsFor(y, o, g) && I.SagaInv(g) && Offset(y, p, o) < |StreamAt(y, p, o)|
    ensures !HandleFact(y.orders, D.NextEnvelope(y, p, o)).1.Failed?
  {
    D.NotApprovedStatus(g);
    match p
    case Fulfillment =>
      I.StockDelivered(g);
      D.NextIsHandled(y, p, o, g, S.StockEventAt(g, g.stockSeen));
    case Billing =>
      I.CreditDelivered(g);
      D.NextIsHandled(y, p, o, g, S.CreditEventAt(g, g.creditSeen));
    case Orders =>
      if g.placedSeen {
        assert NeedsNoWork(StreamAt(y, Orders, o)[Offset(y, Orders, o)]);
      } else {
        D.NextIsHandled(y, p, o, g, S.PlacedEvent);
      }
  }

  // ---- Outcomes ----

  ghost predicate OutcomeHolds(y: SystemState, o: OrderId)
    requires o in y.orders.orders
  {
    var status := y.orders.orders[o].status;
    && (status == Completed ==> InPhase(y.fulfillment.reservations, o, Some(Consumed)) && o in y.fulfillment.despatches
                                && IsPaid(y, o) && ExposureAt(y, o) == 0)
    && (status == Cancelled ==> o !in y.billing.state.invoices && forall ref :: !PaidBy(y.billing.state, o, ref))
    && status != CreditApproved
  }

  /** After any run: a completed order shipped, is paid and exposes nothing; a cancelled one was never invoiced or
      paid; and no saved order is ever `credit_approved`. */
  lemma Outcomes(y0: SystemState, steps: seq<SystemStep>, o: OrderId)
    requires Initial(y0) && o in RunSystem(y0, steps).orders.orders
    ensures OutcomeHolds(RunSystem(y0, steps), o)
  {
    var y := RunSystem(y0, steps);
    var h := ReachedOrder(y0, steps, o);
    ExposureByPhase(y, o, Now(h));
    OutcomePhases(Now(h));
  }

  lemma OutcomePhases(g: S.SagaState)
    requires I.SagaInv(g)
    ensures g.status == Completed ==> g.stock == S.StockShipped && g.credit == S.CreditSettled
    ensures g.status == Cancelled ==> !IsInvoiced(g.credit)
    ensures g.status != CreditApproved
  {
  }

  // ---- Cancel against despatch ----

  /** The missing guard, in terms of the tables: a direct cancellation of the order whose re-read finds it confirmed
      while its reservations are not released. */
  ghost predicate UnguardedCancel(y: SystemState, step: SystemStep, o: OrderId) {
    && CommitsDirectly(y, step, o) && o in y.orders.orders
    && y.orders.orders[o].status == Confirmed && !InPhase(y.fulfillment.reservations, o, Some(Released))
  }

  ghost predicate GuardedRun(y0: SystemState, steps: seq<SystemStep>, o: OrderId) {
    forall i :: 0 <= i < |steps| ==> !UnguardedCancel(RunSystem(y0, steps[..i]), steps[i], o)
  }

  ghost predicate Clean(h: History) {
    !T.SomeStaleDirectCancel(S.Begun(h.reference, h.positive), h.moves)
  }

  lemma CleanGrows(h: History, m: S.SagaMove)
    requires Clean(h) && !T.StaleDirectCancel(Now(h), m)
    ensures Clean(Longer(h, Some(m)))
  {
    var s, longer := S.Begun(h.reference, h.positive), h.moves + [m];
    forall i | 0 <= i < |longer| ensures !T.StaleDirectCancel(S.Run(s, longer[..i]), longer[i]) {
      if i < |h.moves| {
        assert longer[..i] == h.moves[..i] && longer[i] == h.moves[i];
      } else {
        assert longer[..i] == h.moves;
      }
    }
  }

  lemma GuardedMove(y: SystemState, step: SystemStep, o: OrderId, g: S.SagaState, m: S.SagaMove)
    requires TableOk(y.fulfillment) && StandsFor(y, o, g) && !UnguardedCancel(y, step, o)
    requires m == S.CancelDirect ==> CommitsDirectly(y, step, o)
    ensures !T.StaleDirectCancel(g, m)
  {
    PhaseIs(y, o, g, Some(Released));
  }

  ghost predicate CleanHistory(hs: map<OrderId, History>, o: OrderId) {
    o in hs ==> Clean(hs[o])
  }

  lemma CleanMove(y: SystemState, step: SystemStep, h: History, o: OrderId, m: Option<S.SagaMove>)
    requires TablesOk(y) && StandsFor(y, o, Now(h)) && !UnguardedCancel(y, step, o) && Clean(h)
    requires m.Some? ==> StandsForMove(y, step, o, m.value)
    ensures Clean(Longer(h, m))
  {
    if m.Some? {
      GuardedMove(y, step, o, Now(h), m.value);
      CleanGrows(h, m.value);
    }
  }

  lemma CleanStep(y: SystemState, step: SystemStep, hs: map<OrderId, History>, hs': map<OrderId, History>, o: OrderId)
    requires TablesOk(y) && ExplainedAt(y, hs, o) && HistoryGrows(y, step, hs, hs', o)
    requires !UnguardedCancel(y, step, o) && CleanHistory(hs, o)
    ensures CleanHistory(hs', o)
  {
    if o in hs {
      var m: Option<S.SagaMove> :| hs'[o] == Longer(hs[o], m) && (m.Some? ==> StandsForMove(y, step, o, m.value));
      CleanMove(y, step, hs[o], o, m);
    }
  }

  lemma {:induction false} GuardedRunsAreClean(y0: SystemState, steps: seq<SystemStep>, o: OrderId)
    returns (hs: map<OrderId, History>)
    requires Initial(y0) && GuardedRun(y0, steps, o)
    ensures SystemOk(RunSystem(y0, steps), hs) && CleanHistory(hs, o)
  {
    if steps == [] {
      hs := map[];
      InitialIsOk(y0);
    } else {
      var init, last := steps[..|steps| - 1], steps[|steps| - 1];
      forall i | 0 <= i < |init| ensures !UnguardedCancel(RunSystem(y0, init[..i]), init[i], o) {
        assert init[..i] == steps[..i] && init[i] == steps[i];
      }
      var before := GuardedRunsAreClean(y0, init, o);
      hs := SystemStepExplained(RunSystem(y0, init), before, last);
      assert !UnguardedCancel(RunSystem(y0, steps[..|steps| - 1]), steps[|steps| - 1], o);
      assert ExplainedAt(RunSystem(y0, init), before, o) && HistoryGrows(RunSystem(y0, init), last, before, hs, o);
      CleanStep(RunSystem(y0, init), last, before, hs, o);
    }
  }

  /** With that guard on its own cancellations, a cancelled order has no consumed reservation and no despatch, whatever
      else happens, to it or to any other order. */
  lemma CancelExcludesDespatch(y0: SystemState, steps: seq<SystemStep>, o: OrderId)
    requires Initial(y0) && GuardedRun(y0, steps, o)
    ensures var y := RunSystem(y0, steps);
            o in y.orders.orders && y.orders.orders[o].status == Cancelled ==>
              !InPhase(y.fulfillment.reservations, o, Some(Consumed)) && o !in y.fulfillment.despatches
  {
    var y := RunSystem(y0, steps);
    var hs := GuardedRunsAreClean(y0, steps, o);
    assert ExplainedAt(y, hs, o);
    if o in y.orders.orders && y.orders.orders[o].status == Cancelled {
      CleanIsUnshipped(hs[o]);
      UnshippedTables(y, o, Now(hs[o]));
    }
  }

  lemma CleanIsUnshipped(h: History)
    requires Clean(h)
    ensures !T.CancelledYetShipped(Now(h))
  {
    T.BeginningKeeps(h.reference, h.positive);
    T.ExclusionOverRuns(S.Begun(h.reference, h.positive), h.moves);
  }

  lemma UnshippedTables(y: SystemState, o: OrderId, g: S.SagaState)
    requires TableOk(y.fulfillment) && StandsFor(y, o, g) && g.stock != S.StockShipped
    ensures !InPhase(y.fulfillment.reservations, o, Some(Consumed)) && o !in y.fulfillment.despatches
  {
    PhaseIs(y, o, g, Some(Consumed));
  }

  // ---- At rest ----

  /** Every owed command has been answered and every fact delivered. */
  predicate AtRest(y: SystemState, o: OrderId) {
    && (forall kind: CommandKind :: (o, kind) in y.orders.commands ==> (o, kind) in y.answered)
    && Offset(y, Orders, o) > 0
    && Offset(y, Fulfillment, o) == |StreamAt(y, Fulfillment, o)| && Offset(y, Billing, o) == |StreamAt(y, Billing, o)|
  }

  lemma RestIsQuiescent(y: SystemState, o: OrderId, g: S.SagaState)
    requires StandsFor(y, o, g) && AtRest(y, o)
    ensures P.Quiescent(g)
  {
    forall kind: CommandKind ensures StateOf(kind, g) != S.Pending {
      assert RowIs(RowFor(y.orders.commands, o, kind), (o, kind) in y.answered,
                   PayloadOf(kind, y.orders.orders[o], g.byOperator), StateOf(kind, g));
    }
    assert StateOf(ReserveStock, g) != S.Pending && StateOf(ReleaseStock, g) != S.Pending
           && StateOf(CreateDespatch, g) != S.Pending;
    assert StateOf(HoldCredit, g) != S.Pending && StateOf(IssueInvoice, g) != S.Pending
           && StateOf(ReleaseCredit, g) != S.Pending;
  }

  /** Where an order at rest that was not cancelled stands, by what can be known when it is placed: whether any of its
      products is stocked, whether its credit line can be used, and whether its total is above zero. */
  ghost predicate StandsAtRest(y: SystemState, o: OrderId)
    requires o in y.orders.orders
  {
    var order := y.orders.orders[o];
    if !ReferenceOf(y, order).stocked then
      order.status == Placed && InPhase(y.fulfillment.reservations, o, None)
    else if !ReferenceOf(y, order).creditable then
      order.status == StockReserved && InPhase(y.fulfillment.reservations, o, Some(Reserved)) && ExposureAt(y, o) == 0
    else if NetOf(order.lines) > 0 then
      && order.status in {Invoiced, Completed} && InPhase(y.fulfillment.reservations, o, Some(Consumed))
      && (order.status == Completed <==> IsPaid(y, o))
    else if InPhase(y.fulfillment.reservations, o, Some(Consumed)) then order.status == Despatched
    else order.status == Confirmed && InPhase(y.fulfillment.reservations, o, Some(Released))
  }

  /** Progress, exactly: an order at rest and not cancelled waits for a payment or is over if and only if its reference
      data is there and its total is above zero. Every other one has stopped: at `placed` without a stocked product, at
      `stock_reserved` without a usable credit line, and with a total of zero at `despatched` when its stock is consumed
      or at `confirmed` when an operator's cancellation has released it. */
  lemma ProgressAtRest(y0: SystemState, steps: seq<SystemStep>, o: OrderId)
    requires Initial(y0) && o in RunSystem(y0, steps).orders.orders
    requires AtRest(RunSystem(y0, steps), o) && RunSystem(y0, steps).orders.orders[o].status != Cancelled
    ensures StandsAtRest(RunSystem(y0, steps), o)
  {
    var y := RunSystem(y0, steps);
    var h := ReachedOrder(y0, steps, o);
    RestIsQuiescent(y, o, Now(h));
    P.Progress(Now(h));
    V.ReservationsAreWhole(y0, steps, o);
    TablesShow(y, o, Now(h));
    RestingTables(y, o, Now(h));
  }

  /** What the tables show of a saga that is not cancelled. */
  ghost predicate Shows(y: SystemState, o: OrderId, g: S.SagaState)
    requires o in y.orders.orders
  {
    var order := y.orders.orders[o];
    && order.status == g.status && ReferenceOf(y, order) == g.reference && (NetOf(order.lines) > 0 <==> g.positive)
    && (forall phase: Option<ReservationStatus> ::
          InPhase(y.fulfillment.reservations, o, phase) <==> phase == StatusOf(g.stock))
    && (g.credit.CreditUntouched? ==> ExposureAt(y, o) == 0) && (IsPaid(y, o) <==> IsSettled(g.credit))
    && (g.stock != S.StockUntouched ==> g.reference.stocked)
    && (g.credit != S.CreditUntouched ==> g.reference.creditable)
  }

  lemma TablesShow(y: SystemState, o: OrderId, g: S.SagaState)
    requires TablesOk(y) && StandsFor(y, o, g) && g.status != Cancelled && V.WhollyReserved(y, o)
    ensures Shows(y, o, g)
  {
    ExposureByPhase(y, o, g);
    ReservedIsStocked(y, o, g);
    HeldIsUsable(y, o, g);
    forall phase: Option<ReservationStatus>
      ensures InPhase(y.fulfillment.reservations, o, phase) <==> phase == StatusOf(g.stock)
    {
      PhaseIs(y, o, g, phase);
    }
  }

  lemma RestingTables(y: SystemState, o: OrderId, g: S.SagaState)
    requires o in y.orders.orders && Shows(y, o, g) && P.Resting(g) && g.status != Cancelled
    ensures StandsAtRest(y, o)
  {
  }

  lemma ReservedIsStocked(y: SystemState, o: OrderId, g: S.SagaState)
    requires StandsFor(y, o, g) && V.WhollyReserved(y, o)
    ensures g.stock != S.StockUntouched ==> g.reference.stocked
  {
    if g.stock != S.StockUntouched {
      V.NoItems(y.fulfillment, o);
      var lines := y.orders.orders[o].lines;
      assert ReserveLinesOf(lines)[0].product in V.ProductsOfOrder(y, o);
      assert lines[0].product in y.fulfillment.stock;
    }
  }

  lemma HeldIsUsable(y: SystemState, o: OrderId, g: S.SagaState)
    requires StandsFor(y, o, g)
    ensures g.credit != S.CreditUntouched ==> g.reference.creditable
  {
  }
}
