/** Exactly which direct cancellations can leave stock reserved, or credit held, for good: read off at the cancellation.
    */
module SystemStranding {
  import opened Kernel
  import opened OrderAggregate
  import opened SagaSteps
  import opened Stock
  import opened OrderStock
  import opened FulfillmentTables
  import opened FulfillmentInvariants
  import opened FulfillmentPhases
  import opened BillingTables
  import opened Abstraction
  import S = Saga
  import G = SagaStranding
  import I = SagaInvariant
  import opened System
  import opened SystemRefinement
  import X = SystemExecution
  import opened SystemRuns
  import opened SystemClimb
  import opened SystemTheorems
  import E = SystemExclusion
  import opened SystemRest
  import opened SystemReservations

  /** Cancelled, at rest, and its reservations still held. */
  ghost predicate StockStranded(y: SystemState, o: OrderId) {
    && o in y.orders.orders && y.orders.orders[o].status == Cancelled && AtRest(y, o)
    && InPhase(y.fulfillment.reservations, o, Some(Reserved))
  }

  /** Cancelled, at rest, and its exposure not zero. */
  predicate CreditStranded(y: SystemState, o: OrderId) {
    o in y.orders.orders && y.orders.orders[o].status == Cancelled && AtRest(y, o) && ExposureAt(y, o) != 0
  }

  ghost predicate StockCanStrand(y: SystemState, o: OrderId) {
    exists steps: seq<SystemStep> :: StockStranded(RunSystem(y, steps), o)
  }

  ghost predicate CreditCanStrand(y: SystemState, o: OrderId) {
    exists steps: seq<SystemStep> :: CreditStranded(RunSystem(y, steps), o)
  }

  /** The transaction of the cancellation could see it coming: a reserve is owed that can be accepted, or stock is
      reserved that nothing has asked back. */
  predicate StockForgotten(y: SystemState, o: OrderId)
    requires o in y.orders.orders
  {
    match y.orders.orders[o].status
    case Placed => (o, ReserveStock) in y.orders.commands && ProductsOfOrder(y, o) <= y.fulfillment.stock.Keys
    case StockReserved => (o, ReleaseStock) !in y.orders.commands
    case _ => false
  }

  /** The order is confirmed, so its credit is held, and nothing has asked it back. */
  predicate CreditForgotten(y: SystemState, o: OrderId)
    requires o in y.orders.orders
  {
    y.orders.orders[o].status == Confirmed && (o, ReleaseCredit) !in y.orders.commands
      && NetOf(y.orders.orders[o].lines) > 0
  }

  // ---- From a cancelled order on ----

  lemma {:induction false} DutiesLeaveHeld(g: S.SagaState, moves: seq<S.SagaMove>)
    requires AllDuties(moves)
    ensures G.LeftHeld(g, S.Run(g, moves))
  {
    if moves != [] {
      var init := moves[..|moves| - 1];
      DutiesLeaveHeld(g, init);
      assert IsDuty(moves[|moves| - 1]);
      G.DutyLeavesHeld(S.Run(g, init), moves[|moves| - 1]);
    }
  }

  lemma StockLeftStrands(y: SystemState, hs: map<OrderId, History>, o: OrderId, g: S.SagaState)
    requires SystemOk(y, hs) && StandsFor(y, o, g) && I.SagaInv(g) && G.StockLeftHeld(g)
    ensures StockCanStrand(y, o)
  {
    var steps, z, moves, t := ComesToRest(y, hs, o, g);
    DutiesLeaveHeld(g, moves);
    assert StockStranded(z, o);
  }

  lemma CreditLeftStrands(y: SystemState, hs: map<OrderId, History>, o: OrderId, g: S.SagaState)
    requires SystemOk(y, hs) && StandsFor(y, o, g) && I.SagaInv(g) && G.CreditLeftHeld(g)
    ensures CreditCanStrand(y, o)
  {
    var steps, z, moves, t := ComesToRest(y, hs, o, g);
    DutiesLeaveHeld(g, moves);
    HeldIsExposed(z, o, t);
  }

  lemma HeldIsExposed(y: SystemState, o: OrderId, g: S.SagaState)
    requires TablesOk(y) && StandsFor(y, o, g) && AtRest(y, o) && G.CreditLeftHeld(g)
    ensures CreditStranded(y, o)
  {
    ExposureByPhase(y, o, g);
  }

  // ---- What any continuation comes after ----

  lemma {:induction false} RunFollows(y: SystemState, hs: map<OrderId, History>, o: OrderId, g: S.SagaState,
                                      steps: seq<SystemStep>)
    returns (hs': map<OrderId, History>)
    requires SystemOk(y, hs) && o in hs && Now(hs[o]) == g && G.Follows(g, g)
    ensures SystemOk(RunSystem(y, steps), hs') && o in hs' && G.Follows(g, Now(hs'[o]))
  {
    if steps == [] {
      hs' := hs;
    } else {
      var z := RunSystem(y, steps[..|steps| - 1]);
      var before := RunFollows(y, hs, o, g, steps[..|steps| - 1]);
      hs' := SystemStepExplained(z, before, steps[|steps| - 1]);
      assert HistoryGrows(z, steps[|steps| - 1], before, hs', o);
      StepFollows(z, steps[|steps| - 1], before, hs', o, g);
    }
  }

  lemma StepFollows(y: SystemState, step: SystemStep, hs: map<OrderId, History>, hs': map<OrderId, History>, o: OrderId,
                    g: S.SagaState)
    requires o in hs && HistoryGrows(y, step, hs, hs', o) && G.Follows(g, Now(hs[o]))
    ensures o in hs' && G.Follows(g, Now(hs'[o]))
  {
    var m: Option<S.SagaMove> :| hs'[o] == Longer(hs[o], m) && (m.Some? ==> StandsForMove(y, step, o, m.value));
    LongerMoves(hs[o], m);
    HistoriesKeepTheInvariant(hs[o]);
    if m.Some? {
      G.StepFollows(g, Now(hs[o]), m.value);
    }
  }

  // ---- A reserve that is still owed ----

  /** With the lines brought in first, a request for stocked products is accepted. */
  lemma BroughtInIsAccepted(f: FulfillmentState, o: OrderId, lines: seq<ReserveLine>)
    requires ValidTables(f) && lines != [] && InPhase(f.reservations, o, None) && ProductsOf(lines) <= f.stock.Keys
    ensures ReplenishTx(f, lines).1.Ok?
    ensures var reply := ReserveTx(ReplenishTx(f, lines).0, o, lines).1;
            reply.Ok? && reply.value.Accepted?
  {
    var t := ReplenishTx(f, lines).0;
    var ps := KnownProducts(t, lines);
    var available := AvailabilityOf(t, ps);
    forall k | 0 <= k < |lines|
      ensures lines[k].product in available && RequestedOf(lines, lines[k].product) <= available[lines[k].product]
    {
      assert lines[k].product in ProductsOf(lines) * t.stock.Keys;
      assert lines[k].product in ps;
    }
    AcceptedIffEveryProductFits(available, lines);
    assert !HasReservationsOn(t, o, ps) by {
      assert forall i :: 0 <= i < |ps| ==> (o, ps[i]) !in t.reservations;
    }
  }

  /** What the cancelled order looks like with its late reservation made. */
  ghost predicate LateReserved(z: SystemState, o: OrderId) {
    && o in z.orders.orders && z.orders.orders[o].status == Cancelled
       && InPhase(z.fulfillment.reservations, o, Some(Reserved))
    && (o, ReleaseStock) !in z.orders.commands && (o, CreateDespatch) !in z.orders.commands
  }

  lemma LateReservedIsLeft(y: SystemState, o: OrderId, g: S.SagaState)
    requires TablesOk(y) && StandsFor(y, o, g) && LateReserved(y, o)
    ensures G.StockLeftHeld(g)
  {
    X.RowPayload(y, o, g, ReleaseStock);
    X.RowPayload(y, o, g, CreateDespatch);
    PhaseIsUnique(y.fulfillment, o, Some(Reserved), StatusOf(g.stock));
  }

  lemma LateReservedStrands(y: SystemState, hs: map<OrderId, History>, o: OrderId)
    requires SystemOk(y, hs) && LateReserved(y, o)
    ensures StockCanStrand(y, o)
  {
    assert ExplainedAt(y, hs, o);
    HistoriesKeepTheInvariant(hs[o]);
    LateReservedIsLeft(y, o, Now(hs[o]));
    StockLeftStrands(y, hs, o, Now(hs[o]));
  }

  lemma RunOnwards(y: SystemState, step: SystemStep, z: SystemState, steps: seq<SystemStep>, end: SystemState,
                   o: OrderId)
    requires z == SystemNext(y, step) && RunSystem(z, steps) == end && StockStranded(end, o)
    ensures StockCanStrand(y, o)
  {
    StepThenRun(y, step, z, steps);
  }

  lemma StrandsLater(y: SystemState, step: SystemStep, z: SystemState, o: OrderId)
    requires z == SystemNext(y, step) && StockCanStrand(z, o)
    ensures StockCanStrand(y, o)
  {
    var steps: seq<SystemStep> :| StockStranded(RunSystem(z, steps), o);
    RunOnwards(y, step, z, steps, RunSystem(z, steps), o);
  }

  lemma ReplenishedState(y: SystemState, lines: seq<ReserveLine>)
    ensures SystemNext(y, Replenish(lines)) == y.(fulfillment := ReplenishTx(y.fulfillment, lines).0)
  {
  }

  lemma ReservedState(y: SystemState, o: OrderId, lines: seq<ReserveLine>)
    requires (o, ReserveStock) in y.orders.commands
             && y.orders.commands[(o, ReserveStock)].payload == ReserveStockPayload(lines) && lines != []
    ensures var z := SystemNext(y, Execute(o, ReserveStock, Approve));
            z.orders == y.orders && z.fulfillment == ReserveTx(y.fulfillment, o, lines).0
  {
  }

  lemma LateReserve(f: FulfillmentState, o: OrderId, lines: seq<ReserveLine>)
    requires ValidTables(f) && lines != [] && InPhase(f.reservations, o, None) && ProductsOf(lines) <= f.stock.Keys
    ensures InPhase(ReserveTx(ReplenishTx(f, lines).0, o, lines).0.reservations, o, Some(Reserved))
  {
    TransactionKeepsTables(f, ReplenishOp(lines));
    BroughtInIsAccepted(f, o, lines);
    ReserveFirst(ReplenishTx(f, lines).0, o, lines);
  }

  /** A reserve still owed to a cancelled order: bring the goods in, let it be accepted, and wait for rest. */
  lemma OwedReserveStrands(y: SystemState, hs: map<OrderId, History>, o: OrderId)
    requires SystemOk(y, hs) && o in y.orders.orders && y.orders.orders[o].status == Cancelled
    requires InPhase(y.fulfillment.reservations, o, None) && ProductsOfOrder(y, o) <= y.fulfillment.stock.Keys
    requires (o, ReserveStock) in y.orders.commands
    requires (o, ReleaseStock) !in y.orders.commands && (o, CreateDespatch) !in y.orders.commands
    ensures StockCanStrand(y, o)
  {
    assert ExplainedAt(y, hs, o);
    X.RowPayload(y, o, Now(hs[o]), ReserveStock);
    var lines := ReserveLinesOf(y.orders.orders[o].lines);
    var bring, reserve := Replenish(lines), Execute(o, ReserveStock, Approve);
    var y1 := SystemNext(y, bring);
    var hs1 := SystemStepExplained(y, hs, bring);
    ReplenishedState(y, lines);
    var y2 := SystemNext(y1, reserve);
    var hs2 := SystemStepExplained(y1, hs1, reserve);
    ReservedState(y1, o, lines);
    LateReserve(y.fulfillment, o, lines);
    LateReservedStrands(y2, hs2, o);
    StrandsLater(y1, reserve, y2, o);
    StrandsLater(y, bring, y1, o);
  }

  // ---- The cancellation itself ----

  lemma CancelChanges(y: SystemState, cancel: SystemStep, o: OrderId)
    requires CommitsDirectly(y, cancel, o) && o in y.orders.orders
    ensures var z := SystemNext(y, cancel);
            && z.fulfillment == y.fulfillment && z.orders.commands == y.orders.commands && o in z.orders.orders
            && z.orders.orders[o].lines == y.orders.orders[o].lines
  {
  }

  /** The rows and phases right after the cancellation, read off the tables before it. */
  lemma CancelledRows(y: SystemState, o: OrderId, g: S.SagaState)
    requires StandsFor(y, o, g)
    ensures (o, ReserveStock) in y.orders.commands <==> g.reserveRow != S.NoRow
    ensures (o, ReleaseStock) in y.orders.commands <==> g.releaseRow != S.NoRow
    ensures (o, CreateDespatch) in y.orders.commands <==> g.despatchRow != S.NoRow
    ensures (o, ReleaseCredit) in y.orders.commands <==> g.refundRow != S.NoRow
    ensures g.status == y.orders.orders[o].status && g.positive == (NetOf(y.orders.orders[o].lines) > 0)
  {
    X.RowPayload(y, o, g, ReserveStock);
    X.RowPayload(y, o, g, ReleaseStock);
    X.RowPayload(y, o, g, CreateDespatch);
    X.RowPayload(y, o, g, ReleaseCredit);
  }

  lemma PlacedStrands(z: SystemState, hs: map<OrderId, History>, o: OrderId, t: S.SagaState)
    requires SystemOk(z, hs) && StandsFor(z, o, t) && I.SagaInv(t) && t.status == Cancelled
    requires t.releaseRow == S.NoRow && t.despatchRow == S.NoRow
             && (t.stock == S.StockUntouched || t.stock == S.StockHeld)
    requires (o, ReserveStock) in z.orders.commands && ProductsOfOrder(z, o) <= z.fulfillment.stock.Keys
    ensures StockCanStrand(z, o)
  {
    CancelledRows(z, o, t);
    if t.stock == S.StockHeld {
      StockLeftStrands(z, hs, o, t);
    } else {
      OwedReserveStrands(z, hs, o);
    }
  }

  lemma ForgottenStockStrands(y: SystemState, hs: map<OrderId, History>, cancel: SystemStep, o: OrderId)
    requires SystemOk(y, hs) && o in hs && StandsFor(y, o, Now(hs[o])) && CommitsDirectly(y, cancel, o)
    requires StatusRank(y.orders.orders[o].status) <= StatusRank(Confirmed) && StockForgotten(y, o)
    ensures StockCanStrand(SystemNext(y, cancel), o)
  {
    var g := Now(hs[o]);
    HistoriesKeepTheInvariant(hs[o]);
    G.WhenCancelled(g);
    CancelledRows(y, o, g);
    CancelChanges(y, cancel, o);
    var z := SystemNext(y, cancel);
    var hs' := E.DirectCancelExplained(y, cancel, hs, o);
    assert ExplainedAt(z, hs', o);
    if g.status == Placed {
      PlacedStrands(z, hs', o, S.CancelledDirect(g));
    } else {
      StockLeftStrands(z, hs', o, S.CancelledDirect(g));
    }
  }

  lemma ForgottenCreditStrands(y: SystemState, hs: map<OrderId, History>, cancel: SystemStep, o: OrderId)
    requires SystemOk(y, hs) && o in hs && StandsFor(y, o, Now(hs[o])) && CommitsDirectly(y, cancel, o)
    requires CreditForgotten(y, o)
    ensures CreditCanStrand(SystemNext(y, cancel), o)
  {
    var g := Now(hs[o]);
    HistoriesKeepTheInvariant(hs[o]);
    G.WhenCancelled(g);
    CancelledRows(y, o, g);
    var z := SystemNext(y, cancel);
    var hs' := E.DirectCancelExplained(y, cancel, hs, o);
    assert ExplainedAt(z, hs', o);
    CreditLeftStrands(z, hs', o, S.CancelledDirect(g));
  }

  // ---- And back from what is stranded ----

  /** What a stranded order at the end says of the cancelled one. */
  lemma StrandedSays(z: SystemState, o: OrderId, g: S.SagaState, t: S.SagaState)
    requires TablesOk(z) && StandsFor(z, o, t) && I.SagaInv(t) && G.Follows(g, t) && AtRest(z, o)
    ensures InPhase(z.fulfillment.reservations, o, Some(Reserved)) ==>
              g.reserveRow != S.NoRow && (o, ReleaseStock) !in z.orders.commands
                && (o, CreateDespatch) !in z.orders.commands
    ensures ExposureAt(z, o) != 0 ==>
              g.holdRow != S.NoRow && !G.ApprovalsUnwound(g) && (o, ReleaseCredit) !in z.orders.commands && t.positive
  {
    RestIsQuiescent(z, o, t);
    G.AtRestAfterwards(g, t);
    CancelledRows(z, o, t);
    ExposureByPhase(z, o, t);
    PhaseIs(z, o, t, Some(Reserved));
  }

  /** The stranded order, seen from right after the cancellation. */
  lemma StrandedFollows(y: SystemState, hs: map<OrderId, History>, o: OrderId, g: S.SagaState, more: seq<SystemStep>)
    requires SystemOk(y, hs) && o in hs && Now(hs[o]) == g && G.Follows(g, g) && AtRest(RunSystem(y, more), o)
    ensures var z := RunSystem(y, more);
            && o in z.orders.orders && o in y.orders.orders
            && (InPhase(z.fulfillment.reservations, o, Some(Reserved)) ==>
                  g.reserveRow != S.NoRow && (o, ReleaseStock) !in y.orders.commands
                    && (o, CreateDespatch) !in y.orders.commands)
            && (ExposureAt(z, o) != 0 ==>
                  g.holdRow != S.NoRow && !G.ApprovalsUnwound(g) && (o, ReleaseCredit) !in y.orders.commands
                  && NetOf(y.orders.orders[o].lines) > 0)
  {
    var z := RunSystem(y, more);
    var hs' := RunFollows(y, hs, o, g, more);
    assert ExplainedAt(y, hs, o) && ExplainedAt(z, hs', o);
    HistoriesKeepTheInvariant(hs'[o]);
    StrandedSays(z, o, g, Now(hs'[o]));
    RunKeepsRowsAndTerms(y, more, o);
  }

  lemma ReservedWasKnown(y0: SystemState, steps: seq<SystemStep>, cancel: SystemStep, more: seq<SystemStep>, o: OrderId)
    requires Initial(y0) && CommitsDirectly(RunSystem(y0, steps), cancel, o) && o in RunSystem(y0, steps).orders.orders
    requires InPhase(RunSystem(SystemNext(RunSystem(y0, steps), cancel), more).fulfillment.reservations, o,
                     Some(Reserved))
    ensures ProductsOfOrder(RunSystem(y0, steps), o) <= RunSystem(y0, steps).fulfillment.stock.Keys
  {
    var y := RunSystem(y0, steps);
    var later := [cancel] + more;
    var z := RunSystem(y, later);
    StepThenRun(y, cancel, SystemNext(y, cancel), more);
    RunSystemConcat(y0, steps, later);
    ReservationsAreWhole(y0, steps + later, o);
    ReservationsStay(y0, steps, later, o);
    RunKeepsRowsAndTerms(y, later, o);
    NoItems(z.fulfillment, o);
    assert ItemsOf(z, o) != {};
    assert ProductsOfOrder(z, o) == ProductsOfOrder(y, o);
  }

  lemma StrandedStockWasForgotten(y0: SystemState, steps: seq<SystemStep>, cancel: SystemStep, o: OrderId,
                                  more: seq<SystemStep>)
    requires Initial(y0) && CommitsDirectly(RunSystem(y0, steps), cancel, o) && o in RunSystem(y0, steps).orders.orders
    requires StatusRank(RunSystem(y0, steps).orders.orders[o].status) <= StatusRank(Confirmed)
    requires StockStranded(RunSystem(SystemNext(RunSystem(y0, steps), cancel), more), o)
    ensures StockForgotten(RunSystem(y0, steps), o)
  {
    var y := RunSystem(y0, steps);
    ReservedWasKnown(y0, steps, cancel, more, o);
    var g, z, hs := RightAfter(y0, steps, cancel, o);
    StrandedFollows(z, hs, o, S.CancelledDirect(g), more);
  }

  lemma StrandedCreditWasForgotten(y0: SystemState, steps: seq<SystemStep>, cancel: SystemStep, o: OrderId,
                                   more: seq<SystemStep>)
    requires Initial(y0) && CommitsDirectly(RunSystem(y0, steps), cancel, o) && o in RunSystem(y0, steps).orders.orders
    requires StatusRank(RunSystem(y0, steps).orders.orders[o].status) <= StatusRank(Confirmed)
    requires CreditStranded(RunSystem(SystemNext(RunSystem(y0, steps), cancel), more), o)
    ensures CreditForgotten(RunSystem(y0, steps), o)
  {
    var g, z, hs := RightAfter(y0, steps, cancel, o);
    StrandedFollows(z, hs, o, S.CancelledDirect(g), more);
  }

  /** The state right after the cancellation, explained. */
  lemma RightAfter(y0: SystemState, steps: seq<SystemStep>, cancel: SystemStep, o: OrderId)
    returns (g: S.SagaState, z: SystemState, hs: map<OrderId, History>)
    requires Initial(y0) && CommitsDirectly(RunSystem(y0, steps), cancel, o) && o in RunSystem(y0, steps).orders.orders
    requires StatusRank(RunSystem(y0, steps).orders.orders[o].status) <= StatusRank(Confirmed)
    ensures var y := RunSystem(y0, steps);
            && z == SystemNext(y, cancel) && SystemOk(z, hs) && o in hs && Now(hs[o]) == S.CancelledDirect(g)
            && z.orders.commands == y.orders.commands && o in z.orders.orders
               && z.orders.orders[o].lines == y.orders.orders[o].lines
            && y.orders.orders[o].status == g.status && G.Follows(Now(hs[o]), Now(hs[o]))
            && ((o, ReserveStock) in y.orders.commands <==> Now(hs[o]).reserveRow != S.NoRow)
            && (g.status == Placed ==> Now(hs[o]).holdRow == S.NoRow)
            && (g.status == StockReserved ==> G.ApprovalsUnwound(Now(hs[o])))
            && (g.status == Confirmed ==> (o, CreateDespatch) in y.orders.commands)
            && g.status in {Placed, StockReserved, Confirmed}
  {
    var y := RunSystem(y0, steps);
    var before := SystemRefinesSagas(y0, steps);
    assert ExplainedAt(y, before, o);
    g := Now(before[o]);
    HistoriesKeepTheInvariant(before[o]);
    G.WhenCancelled(g);
    CancelledRows(y, o, g);
    CancelChanges(y, cancel, o);
    hs := E.DirectCancelExplained(y, cancel, before, o);
    z := SystemNext(y, cancel);
  }

  // ---- The exact conditions ----

  /** A direct cancellation leaves open a continuation at whose end, with nothing owed and nothing undelivered, stock is
      still reserved for the cancelled order, if and only if what it re-reads says so: the order is `placed`, its
      reserve is owed and all its products are stocked, or it is `stock_reserved` and no release is owed. */
  lemma StockStrandsExactly(y0: SystemState, steps: seq<SystemStep>, cancel: SystemStep, o: OrderId)
    requires Initial(y0) && CommitsDirectly(RunSystem(y0, steps), cancel, o) && o in RunSystem(y0, steps).orders.orders
    requires StatusRank(RunSystem(y0, steps).orders.orders[o].status) <= StatusRank(Confirmed)
    ensures StockCanStrand(SystemNext(RunSystem(y0, steps), cancel), o) <==> StockForgotten(RunSystem(y0, steps), o)
  {
    var y := RunSystem(y0, steps);
    if StockForgotten(y, o) {
      var hs := SystemRefinesSagas(y0, steps);
      assert ExplainedAt(y, hs, o);
      ForgottenStockStrands(y, hs, cancel, o);
    }
    if StockCanStrand(SystemNext(y, cancel), o) {
      var more: seq<SystemStep> :| StockStranded(RunSystem(SystemNext(y, cancel), more), o);
      StrandedStockWasForgotten(y0, steps, cancel, o, more);
    }
  }

  /** And credit is still held at the end of some continuation if and only if the order is `confirmed`, its total is
      above zero and no release of its credit is owed. */
  lemma CreditStrandsExactly(y0: SystemState, steps: seq<SystemStep>, cancel: SystemStep, o: OrderId)
    requires Initial(y0) && CommitsDirectly(RunSystem(y0, steps), cancel, o) && o in RunSystem(y0, steps).orders.orders
    requires StatusRank(RunSystem(y0, steps).orders.orders[o].status) <= StatusRank(Confirmed)
    ensures CreditCanStrand(SystemNext(RunSystem(y0, steps), cancel), o) <==> CreditForgotten(RunSystem(y0, steps), o)
  {
    var y := RunSystem(y0, steps);
    if CreditForgotten(y, o) {
      var hs := SystemRefinesSagas(y0, steps);
      assert ExplainedAt(y, hs, o);
      ForgottenCreditStrands(y, hs, cancel, o);
    }
    if CreditCanStrand(SystemNext(y, cancel), o) {
      var more: seq<SystemStep> :| CreditStranded(RunSystem(SystemNext(y, cancel), more), o);
      StrandedCreditWasForgotten(y0, steps, cancel, o, more);
    }
  }
}
