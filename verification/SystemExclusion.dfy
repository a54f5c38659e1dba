/** Exactly when the composed system can ship a cancelled order, and what a cancelled order at rest has given back. */
module SystemExclusion {
  import opened Kernel
  import opened OrderAggregate
  import opened Stock
  import opened FulfillmentPhases
  import opened BillingTables
  import opened BillingInvariants
  import opened Abstraction
  import BS = BillingSimulation
  import S = Saga
  import I = SagaInvariant
  import T = SagaSafety
  import P = SagaProgress
  import opened System
  import opened SystemRefinement
  import X = SystemExecution
  import M = SystemMoves
  import opened SystemRuns
  import opened SystemTheorems

  ghost predicate CancelledYetConsumed(y: SystemState, o: OrderId) {
    o in y.orders.orders && y.orders.orders[o].status == Cancelled
      && InPhase(y.fulfillment.reservations, o, Some(Consumed))
  }

  /** Some continuation consumes the reservations of the cancelled order. */
  ghost predicate ExclusionCanFail(y: SystemState, o: OrderId) {
    exists steps: seq<SystemStep> :: CancelledYetConsumed(RunSystem(y, steps), o)
  }

  /** A cancelled order with nothing left to despatch. */
  ghost predicate OutOfReach(hs: map<OrderId, History>, o: OrderId) {
    o in hs && Now(hs[o]).status == Cancelled && T.NoDespatchLeft(Now(hs[o])) && I.SagaInv(Now(hs[o]))
  }

  lemma OutOfReachStep(y: SystemState, step: SystemStep, hs: map<OrderId, History>, hs': map<OrderId, History>,
                       o: OrderId)
    requires OutOfReach(hs, o) && HistoryGrows(y, step, hs, hs', o)
    ensures OutOfReach(hs', o)
  {
    var m: Option<S.SagaMove> :| hs'[o] == Longer(hs[o], m) && (m.Some? ==> StandsForMove(y, step, o, m.value));
    LongerMoves(hs[o], m);
    HistoriesKeepTheInvariant(hs'[o]);
    if m.Some? {
      T.NoDespatchLeftStep(Now(hs[o]), m.value);
      T.CancelledForGood(Now(hs[o]), m.value);
    }
  }

  lemma {:induction false} OutOfReachForGood(y: SystemState, hs: map<OrderId, History>, o: OrderId,
                                             steps: seq<SystemStep>)
    returns (hs': map<OrderId, History>)
    requires SystemOk(y, hs) && OutOfReach(hs, o)
    ensures SystemOk(RunSystem(y, steps), hs') && OutOfReach(hs', o)
  {
    if steps == [] {
      hs' := hs;
    } else {
      var before := OutOfReachForGood(y, hs, o, steps[..|steps| - 1]);
      var z := RunSystem(y, steps[..|steps| - 1]);
      hs' := SystemStepExplained(z, before, steps[|steps| - 1]);
      assert HistoryGrows(z, steps[|steps| - 1], before, hs', o);
      OutOfReachStep(z, steps[|steps| - 1], before, hs', o);
    }
  }

  lemma OutOfReachIsUnconsumed(y: SystemState, hs: map<OrderId, History>, o: OrderId)
    requires SystemOk(y, hs) && OutOfReach(hs, o)
    ensures !CancelledYetConsumed(y, o)
  {
    assert ExplainedAt(y, hs, o);
    PhaseIs(y, o, Now(hs[o]), Some(Consumed));
  }

  // ---- The two directions ----

  lemma ShippedFails(y: SystemState, o: OrderId, g: S.SagaState)
    requires StandsFor(y, o, g) && g.status == Cancelled && g.stock == S.StockShipped
    ensures CancelledYetConsumed(y, o)
  {
  }

  /** The pending despatch takes the reservations of the order that was cancelled around it. */
  lemma PendingDespatchConsumes(y: SystemState, o: OrderId, g: S.SagaState)
    requires TablesOk(y) && StandsFor(y, o, g) && g.status == Cancelled && g.despatchRow != S.NoRow
             && g.stock == S.StockHeld
    ensures CancelledYetConsumed(Executing(y, o, CreateDespatch, Approve), o)
  {
    X.RowPayload(y, o, g, CreateDespatch);
    X.DespatchExecution(y, o, g, Approve);
    X.DespatchStepIs(g);
    ShippedFails(Executing(y, o, CreateDespatch, Approve), o, S.DespatchExecuted(g));
  }

  lemma FailsNow(y: SystemState, o: OrderId)
    requires CancelledYetConsumed(y, o)
    ensures ExclusionCanFail(y, o)
  {
    assert RunSystem(y, []) == y;
  }

  lemma FailsNext(y: SystemState, step: SystemStep, o: OrderId)
    requires CancelledYetConsumed(SystemNext(y, step), o)
    ensures ExclusionCanFail(y, o)
  {
    OneStepRun(y, step);
  }

  lemma ExclusionFails(y: SystemState, o: OrderId, g: S.SagaState)
    requires TablesOk(y) && StandsFor(y, o, g) && g.status == Cancelled && g.despatchRow != S.NoRow
    requires g.stock == S.StockHeld || g.stock == S.StockShipped
    ensures ExclusionCanFail(y, o)
  {
    if g.stock == S.StockShipped {
      ShippedFails(y, o, g);
      FailsNow(y, o);
    } else {
      PendingDespatchConsumes(y, o, g);
      FailsNext(y, Execute(o, CreateDespatch, Approve), o);
    }
  }

  lemma OneStepRun(y: SystemState, step: SystemStep)
    ensures RunSystem(y, [step]) == SystemNext(y, step)
  {
    assert [step][..0] == [];
    assert RunSystem(y, []) == y;
  }

  lemma DirectCancelLeaves(g: S.SagaState)
    requires I.SagaInv(g) && StatusRank(g.status) <= StatusRank(Confirmed)
    ensures var t := S.CancelledDirect(g);
            && t.status == Cancelled && I.SagaInv(t)
            && (if g.status == Confirmed && g.stock != S.StockFreed
                then t.despatchRow != S.NoRow && (t.stock == S.StockHeld || t.stock == S.StockShipped)
                else T.NoDespatchLeft(t))
  {
    I.DirectCancelKept(g);
  }

  /** The exact condition, on the tables of a reachable state: after a direct cancellation takes effect, the cancelled
      order can still ship if and only if the re-read found it confirmed and its reservations not released. */
  lemma ExclusionFailsExactly(y0: SystemState, steps: seq<SystemStep>, cancel: SystemStep, o: OrderId)
    requires Initial(y0) && CommitsDirectly(RunSystem(y0, steps), cancel, o) && o in RunSystem(y0, steps).orders.orders
    requires StatusRank(RunSystem(y0, steps).orders.orders[o].status) <= StatusRank(Confirmed)
    ensures var y := RunSystem(y0, steps);
            ExclusionCanFail(SystemNext(y, cancel), o) <==>
            y.orders.orders[o].status == Confirmed && !InPhase(y.fulfillment.reservations, o, Some(Released))
  {
    var hs := SystemRefinesSagas(y0, steps);
    assert ExplainedAt(RunSystem(y0, steps), hs, o);
    DirectCancelDecides(RunSystem(y0, steps), cancel, hs, o);
  }

  /** The same on the saga: `g` is what the cancellation found, `t` what it left. */
  lemma DirectCancelDecidesSaga(z: SystemState, hs: map<OrderId, History>, o: OrderId, g: S.SagaState, t: S.SagaState)
    requires SystemOk(z, hs) && o in hs && StandsFor(z, o, t) && Now(hs[o]) == t == S.CancelledDirect(g)
    requires I.SagaInv(g) && StatusRank(g.status) <= StatusRank(Confirmed)
    ensures ExclusionCanFail(z, o) <==> g.status == Confirmed && g.stock != S.StockFreed
  {
    DirectCancelLeaves(g);
    if g.status == Confirmed && g.stock != S.StockFreed {
      ExclusionFails(z, o, t);
    } else {
      CannotFailFrom(z, hs, o);
    }
  }

  lemma DirectCancelVerdict(z: SystemState, hs: map<OrderId, History>, o: OrderId, g: S.SagaState, t: S.SagaState)
    requires SystemOk(z, hs) && o in hs && Now(hs[o]) == t && t == S.CancelledDirect(g)
    requires I.SagaInv(g) && StatusRank(g.status) <= StatusRank(Confirmed)
    ensures ExclusionCanFail(z, o) <==> g.status == Confirmed && g.stock != S.StockFreed
  {
    assert ExplainedAt(z, hs, o);
    DirectCancelDecidesSaga(z, hs, o, g, t);
  }

  lemma DirectCancelDecides(y: SystemState, cancel: SystemStep, hs: map<OrderId, History>, o: OrderId)
    requires SystemOk(y, hs) && o in hs && StandsFor(y, o, Now(hs[o])) && CommitsDirectly(y, cancel, o)
    requires StatusRank(y.orders.orders[o].status) <= StatusRank(Confirmed)
    ensures ExclusionCanFail(SystemNext(y, cancel), o) <==>
            y.orders.orders[o].status == Confirmed && !InPhase(y.fulfillment.reservations, o, Some(Released))
  {
    HistoriesKeepTheInvariant(hs[o]);
    var hs' := DirectCancelExplained(y, cancel, hs, o);
    DirectCancelVerdict(SystemNext(y, cancel), hs', o, Now(hs[o]), Now(hs'[o]));
    PhaseIs(y, o, Now(hs[o]), Some(Released));
  }

  lemma DirectCancelLands(y: SystemState, cancel: SystemStep, o: OrderId, g: S.SagaState)
    requires StandsFor(y, o, g) && CommitsDirectly(y, cancel, o)
    ensures OnlyMoves(y, SystemNext(y, cancel), o) && StandsFor(SystemNext(y, cancel), o, S.CancelledDirect(g))
    ensures S.CancelledDirect(g) == S.Step(g, S.CancelDirect)
  {
    M.DirectCancelMoves(y, o, g);
    M.PlansAreCompensations(cancel.observed);
    M.CancelStepsAre(g);
    assert g.sawOther;
  }

  lemma DirectCancelExplained(y: SystemState, cancel: SystemStep, hs: map<OrderId, History>, o: OrderId)
    returns (hs': map<OrderId, History>)
    requires SystemOk(y, hs) && o in hs && StandsFor(y, o, Now(hs[o])) && CommitsDirectly(y, cancel, o)
    ensures SystemOk(SystemNext(y, cancel), hs') && o in hs' && Now(hs'[o]) == S.CancelledDirect(Now(hs[o]))
  {
    var m := Some(S.CancelDirect);
    DirectCancelLands(y, cancel, o, Now(hs[o]));
    LongerMoves(hs[o], m);
    OneOrderStepped(y, SystemNext(y, cancel), hs, o, m);
    StepKeepsTables(y, hs, cancel);
    hs' := hs[o := Longer(hs[o], m)];
  }

  lemma CannotFailFrom(y: SystemState, hs: map<OrderId, History>, o: OrderId)
    requires SystemOk(y, hs) && OutOfReach(hs, o)
    ensures !ExclusionCanFail(y, o)
  {
    forall steps: seq<SystemStep> ensures !CancelledYetConsumed(RunSystem(y, steps), o) {
      var hs' := OutOfReachForGood(y, hs, o, steps);
      OutOfReachIsUnconsumed(RunSystem(y, steps), hs', o);
    }
  }

  // ---- Compensation completeness ----

  /** A direct cancellation of the order whose re-read finds that it has left `placed`. */
  predicate LateCancel(y: SystemState, step: SystemStep, o: OrderId) {
    CommitsDirectly(y, step, o) && o in y.orders.orders && S.Compensates(y.orders.orders[o].status)
  }

  predicate TimelyRun(y0: SystemState, steps: seq<SystemStep>, o: OrderId) {
    forall i :: 0 <= i < |steps| ==> !LateCancel(RunSystem(y0, steps[..i]), steps[i], o)
  }

  ghost predicate Timely(h: History) {
    !P.SomeLateDirectCancel(S.Begun(h.reference, h.positive), h.moves)
  }

  lemma TimelyGrows(h: History, m: S.SagaMove)
    requires Timely(h) && !P.LateDirectCancel(Now(h), m)
    ensures Timely(Longer(h, Some(m)))
  {
    var s, longer := S.Begun(h.reference, h.positive), h.moves + [m];
    forall i | 0 <= i < |longer| ensures !P.LateDirectCancel(S.Run(s, longer[..i]), longer[i]) {
      if i < |h.moves| {
        assert longer[..i] == h.moves[..i] && longer[i] == h.moves[i];
      } else {
        assert longer[..i] == h.moves;
      }
    }
  }

  ghost predicate TimelyHistory(hs: map<OrderId, History>, o: OrderId) {
    o in hs ==> Timely(hs[o])
  }

  lemma TimelyMove(y: SystemState, step: SystemStep, h: History, o: OrderId, m: Option<S.SagaMove>)
    requires StandsFor(y, o, Now(h)) && !LateCancel(y, step, o) && Timely(h)
    requires m.Some? ==> StandsForMove(y, step, o, m.value)
    ensures Timely(Longer(h, m))
  {
    if m.Some? {
      TimelyGrows(h, m.value);
    }
  }

  lemma TimelyStep(y: SystemState, step: SystemStep, hs: map<OrderId, History>, hs': map<OrderId, History>, o: OrderId)
    requires ExplainedAt(y, hs, o) && HistoryGrows(y, step, hs, hs', o) && !LateCancel(y, step, o)
             && TimelyHistory(hs, o)
    ensures TimelyHistory(hs', o)
  {
    if o in hs {
      var m: Option<S.SagaMove> :| hs'[o] == Longer(hs[o], m) && (m.Some? ==> StandsForMove(y, step, o, m.value));
      TimelyMove(y, step, hs[o], o, m);
    }
  }

  lemma {:induction false} TimelyRunsAreTimely(y0: SystemState, steps: seq<SystemStep>, o: OrderId)
    returns (hs: map<OrderId, History>)
    requires Initial(y0) && TimelyRun(y0, steps, o)
    ensures SystemOk(RunSystem(y0, steps), hs) && TimelyHistory(hs, o)
  {
    if steps == [] {
      hs := map[];
      InitialIsOk(y0);
    } else {
      var init, last := steps[..|steps| - 1], steps[|steps| - 1];
      forall i | 0 <= i < |init| ensures !LateCancel(RunSystem(y0, init[..i]), init[i], o) {
        assert init[..i] == steps[..i] && init[i] == steps[i];
      }
      var before := TimelyRunsAreTimely(y0, init, o);
      hs := SystemStepExplained(RunSystem(y0, init), before, last);
      assert !LateCancel(RunSystem(y0, steps[..|steps| - 1]), steps[|steps| - 1], o);
      assert ExplainedAt(RunSystem(y0, init), before, o) && HistoryGrows(RunSystem(y0, init), last, before, hs, o);
      TimelyStep(RunSystem(y0, init), last, before, hs, o);
    }
  }

  /** Billing decided the hold once: its stream of the order has no approval after a refusal. */
  predicate HeldOnce(y: SystemState, o: OrderId) {
    forall i, j :: 0 <= i < |StreamAt(y, Billing, o)| && 0 <= j < |StreamAt(y, Billing, o)| ==>
                     !(StreamAt(y, Billing, o)[i].CreditRejectedFact? && StreamAt(y, Billing, o)[j].CreditApprovedFact?)
  }

  lemma HeldOnceIsOneDecision(y: SystemState, o: OrderId, g: S.SagaState)
    requires o in y.orders.orders && BS.BillingIs(y.billing.state, o, y.orders.orders[o], g) && HeldOnce(y, o)
    ensures P.OneHoldDecision(g)
  {
    WhereDecisionsAre(StreamAt(y, Billing, o), g.refusals.credit, g.credit, NetOf(y.orders.orders[o].lines));
  }

  lemma WhereDecisionsAre(facts: seq<Fact>, refusals: nat, phase: S.CreditPhase, net: int)
    requires CreditStreamIs(facts, refusals, phase, net)
    ensures refusals > 0 ==> |facts| > 0 && facts[0].CreditRejectedFact?
    ensures phase != S.CreditUntouched ==> refusals < |facts| && facts[refusals].CreditApprovedFact?
  {
    if refusals > 0 {
      assert IsEvent(facts[0], S.CreditEvent(refusals, phase, 0));
    }
    if phase != S.CreditUntouched {
      assert IsEvent(facts[refusals], S.CreditEvent(refusals, phase, refusals));
    }
  }

  /** What compensation has achieved for a cancelled order: its stock is released, and exposure is left exactly when the
      order was cancelled because its hold was refused, although a repeat of the hold was approved. */
  ghost predicate Compensated(y: SystemState, o: OrderId)
    requires o in y.orders.orders
  {
    var order := y.orders.orders[o];
    && InPhase(y.fulfillment.reservations, o, Some(Released))
    && (ExposureAt(y, o) != 0 <==>
        && NetOf(order.lines) > 0 && order.cancellationReason == Some(CreditRejection)
        && OrderEntries(y.billing.state, order.credit, o) != [])
    && (HeldOnce(y, o) ==> ExposureAt(y, o) == 0)
  }

  /** Compensation completeness: an order that was cancelled after it had left `placed` (its hold was asked for) is at
      rest only when compensated, whatever its total, and also when the approval came late. */
  lemma CompensationCompletes(y0: SystemState, steps: seq<SystemStep>, o: OrderId)
    requires Initial(y0) && TimelyRun(y0, steps, o)
    requires var y := RunSystem(y0, steps);
             && o in y.orders.orders && y.orders.orders[o].status == Cancelled && (o, HoldCredit) in y.orders.commands
             && AtRest(y, o)
    ensures Compensated(RunSystem(y0, steps), o)
  {
    var y := RunSystem(y0, steps);
    var hs := TimelyRunsAreTimely(y0, steps, o);
    assert ExplainedAt(y, hs, o);
    CompensatedAtRest(y, o, hs[o]);
  }

  lemma CompensatedAtRest(y: SystemState, o: OrderId, h: History)
    requires TablesOk(y) && StandsFor(y, o, Now(h)) && Timely(h)
    requires y.orders.orders[o].status == Cancelled && (o, HoldCredit) in y.orders.commands && AtRest(y, o)
    ensures Compensated(y, o)
  {
    var g := Now(h);
    X.RowPayload(y, o, g, HoldCredit);
    RestIsQuiescent(y, o, g);
    if HeldOnce(y, o) {
      HeldOnceIsOneDecision(y, o, g);
    }
    ExposureByPhase(y, o, g);
    Unwound(h);
  }

  lemma Unwound(h: History)
    requires Timely(h) && P.Quiescent(Now(h)) && Now(h).status == Cancelled && Now(h).holdRow != S.NoRow
    ensures Now(h).stock == S.StockFreed && Now(h).credit != S.CreditInvoiced && Now(h).credit != S.CreditSettled
    ensures Now(h).positive ==>
              (Now(h).credit == S.CreditHeld <==>
               Now(h).reason == Some(CreditRejection) && Now(h).credit != S.CreditUntouched)
    ensures Now(h).reason == Some(CreditRejection) && Now(h).credit != S.CreditUntouched ==> !P.OneHoldDecision(Now(h))
  {
    T.BeginningKeeps(h.reference, h.positive);
    P.UnwindingOverRuns(S.Begun(h.reference, h.positive), h.moves);
    P.UnwoundAtRest(Now(h));
  }

  // ---- What nobody asked for back ----

  /** What a cancelled order at rest still has, in terms of what has been asked for. */
  ghost predicate KeepsOnlyUnasked(y: SystemState, o: OrderId)
    requires o in y.orders.orders
  {
    && (InPhase(y.fulfillment.reservations, o, Some(Reserved)) <==>
        && !InPhase(y.fulfillment.reservations, o, None)
        && (o, ReleaseStock) !in y.orders.commands && (o, CreateDespatch) !in y.orders.commands)
    && (ExposureAt(y, o) != 0 <==>
        && NetOf(y.orders.orders[o].lines) > 0 && OrderEntries(y.billing.state, y.orders.orders[o].credit, o) != []
        && (o, ReleaseCredit) !in y.orders.commands)
  }

  /** At rest, in any run: a cancelled order still has reserved units exactly when neither their release nor a despatch
      was ever owed, and still has exposure exactly when its release was never owed. */
  lemma StrandedExactly(y0: SystemState, steps: seq<SystemStep>, o: OrderId)
    requires Initial(y0)
    requires var y := RunSystem(y0, steps);
             o in y.orders.orders && y.orders.orders[o].status == Cancelled && AtRest(y, o)
    ensures KeepsOnlyUnasked(RunSystem(y0, steps), o)
  {
    var h := ReachedOrder(y0, steps, o);
    StrandedOrder(RunSystem(y0, steps), o, Now(h));
  }

  lemma StrandedOrder(y: SystemState, o: OrderId, g: S.SagaState)
    requires TablesOk(y) && StandsFor(y, o, g) && I.SagaInv(g)
    requires y.orders.orders[o].status == Cancelled && AtRest(y, o)
    ensures KeepsOnlyUnasked(y, o)
  {
    RestIsQuiescent(y, o, g);
    P.StrandedExactly(g);
    StrandedTables(y, o, g);
  }

  lemma StrandedTables(y: SystemState, o: OrderId, g: S.SagaState)
    requires TablesOk(y) && StandsFor(y, o, g) && !IsInvoiced(g.credit)
    requires g.stock == S.StockHeld <==>
             g.stock != S.StockUntouched && g.releaseRow == S.NoRow && g.despatchRow == S.NoRow
    requires g.positive ==> (g.credit == S.CreditHeld <==> g.credit != S.CreditUntouched && g.refundRow == S.NoRow)
    ensures KeepsOnlyUnasked(y, o)
  {
    X.RowPayload(y, o, g, ReleaseStock);
    X.RowPayload(y, o, g, CreateDespatch);
    X.RowPayload(y, o, g, ReleaseCredit);
    ExposureByPhase(y, o, g);
    PhaseIs(y, o, g, Some(Reserved));
    PhaseIs(y, o, g, None);
  }
}
