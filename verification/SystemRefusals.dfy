/** A refused hold that is repeated: the repeat can be approved, and then nothing ever asks its exposure back. */
module SystemRefusals {
  import opened Kernel
  import opened FulfillmentTables
  import opened FulfillmentInvariants
  import opened BillingTables
  import S = Saga
  import I = SagaInvariant
  import T = SagaSafety
  import opened System
  import X = SystemExecution
  import opened SystemRest
  import opened SystemExample
  import W = SystemStranding

  // ---- The saga, step by step ----

  /** Reserved and delivered; the hold is owed, or has been refused once. */
  predicate AwaitsCredit(g: S.SagaState, refused: bool) {
    && g.status == StockReserved && g.positive && !g.byOperator && g.stock == S.StockHeld && g.stockSeen == 1
    && g.credit == S.CreditUntouched && g.creditSeen == 0 && g.refusals.stock == 0
    && g.holdRow != S.NoRow && g.releaseRow == S.NoRow && g.despatchRow == S.NoRow
    && g.refundRow == S.NoRow && g.invoiceRow == S.NoRow
    && g.refusals.credit == if refused then 1 else 0
  }

  /** The refusal has been delivered, so the stock's release is owed. */
  predicate Rejected(g: S.SagaState, stock: S.StockPhase) {
    && g.status == StockReserved && g.positive && !g.byOperator && g.stock == stock && g.stockSeen == 1
    && g.credit == S.CreditUntouched && g.creditSeen == 1 && g.refusals == S.Refusals(0, 1)
    && g.holdRow != S.NoRow && g.releaseRow != S.NoRow && g.refundRow == S.NoRow && g.invoiceRow == S.NoRow
  }

  /** Cancelled because of the refusal, and the credit is in the given phase. */
  predicate CancelledBecauseRefused(g: S.SagaState, credit: S.CreditPhase, seen: nat) {
    && g.status == Cancelled && g.reason == Some(CreditRejection) && g.positive
    && g.credit == credit && g.creditSeen == seen && g.refusals.credit == 1
    && g.holdRow != S.NoRow && g.refundRow == S.NoRow && g.invoiceRow == S.NoRow
  }

  lemma ReservedMove(g: S.SagaState)
    requires JustReserved(g, true) && I.SagaInv(g)
    ensures S.StockPending(g) && AwaitsCredit(S.Step(g, S.DeliverStock), false)
  {
    var _ := T.StepReserved(g);
  }

  lemma RefusedMove(g: S.SagaState)
    requires AwaitsCredit(g, false)
    ensures AwaitsCredit(S.HoldExecuted(g, S.Decline), true)
  {
  }

  lemma RefusedKeeps(g: S.SagaState)
    requires g.holdRow != S.NoRow && I.SagaInv(g)
    ensures I.SagaInv(S.HoldExecuted(g, S.Decline))
  {
    X.HoldStepIs(g, S.Decline);
    I.StepKeeps(g, S.ExecHold(S.Decline));
  }

  lemma RejectedMove(g: S.SagaState)
    requires AwaitsCredit(g, true)
    ensures S.CreditPending(g) && Rejected(S.Step(g, S.DeliverCredit), S.StockHeld)
  {
    assert S.CreditEventAt(g, 0) == S.CreditRejectedEvent;
    assert S.Step(g, S.DeliverCredit) == S.CreditAcknowledged(g, S.OnCreditRejected(g));
  }

  lemma FreedMove(g: S.SagaState)
    requires Rejected(g, S.StockHeld)
    ensures Rejected(S.Step(g, S.ExecRelease), S.StockFreed)
  {
    X.ReleaseStepIs(g);
  }

  lemma CancelledMove(g: S.SagaState)
    requires Rejected(g, S.StockFreed)
    ensures S.StockPending(g) && CancelledBecauseRefused(S.Step(g, S.DeliverStock), S.CreditUntouched, 1)
  {
    assert S.StockEventAt(g, 1) == S.StockReleasedEvent;
    assert S.Step(g, S.DeliverStock) == S.StockAcknowledged(g, S.OnStockReleased(g));
  }

  lemma ApprovedMove(g: S.SagaState)
    requires CancelledBecauseRefused(g, S.CreditUntouched, 1)
    ensures CancelledBecauseRefused(S.Step(g, S.ExecHold(S.Accept)), S.CreditHeld, 1)
    ensures S.CreditPending(S.Step(g, S.ExecHold(S.Accept)))
  {
    X.HoldStepIs(g, S.Accept);
  }

  lemma IgnoredMove(g: S.SagaState)
    requires CancelledBecauseRefused(g, S.CreditHeld, 1) && S.CreditPending(g)
    ensures CancelledBecauseRefused(S.Step(g, S.DeliverCredit), S.CreditHeld, 2)
  {
    assert S.CreditEventAt(g, 1) == S.CreditApprovedEvent;
    assert S.Step(g, S.DeliverCredit) == S.CreditAcknowledged(g, S.OnCreditApproved(g));
  }

  lemma {:induction false} ReasonStays(g: S.SagaState, moves: seq<S.SagaMove>)
    requires g.status == Cancelled
    ensures S.Run(g, moves).status == Cancelled && S.Run(g, moves).reason == g.reason
  {
    if moves != [] {
      ReasonStays(g, moves[..|moves| - 1]);
      T.CancelledForGood(S.Run(g, moves[..|moves| - 1]), moves[|moves| - 1]);
    }
  }

  // ---- The run ----

  lemma RefusalStep(y: SystemState, g: S.SagaState, decision: CreditDecision)
    returns (z: SystemState, t: S.SagaState)
    requires decision != Approve
    requires Reachable(y) && At(y, g) && I.SagaInv(g) && AwaitsCredit(g, false) && SmallBilling(y.billing.state)
    ensures Reachable(z) && At(z, t) && I.SagaInv(t) && AwaitsCredit(t, true) && SmallBilling(z.billing.state)
  {
    z, t := Executing(y, 0, HoldCredit, decision), S.HoldExecuted(g, S.Decline);
    RefusedMove(g);
    RefusedKeeps(g);
    HeldNext(y, g, decision);
    ReachExecution(y, HoldCredit, decision);
  }

  lemma ReleasedState(y: SystemState)
    requires (0, ReleaseStock) in y.orders.commands && y.orders.commands[(0, ReleaseStock)].payload.ReleaseStockPayload?
    ensures var z := Executing(y, 0, ReleaseStock, Approve);
            && z.orders == y.orders && z.billing == y.billing && z.statusReads == y.statusReads
            && z.fulfillment
               == ReleaseTx(y.fulfillment, 0, y.orders.commands[(0, ReleaseStock)].payload.reason).0
  {
  }

  lemma ReleasedNext(y: SystemState, g: S.SagaState)
    requires At(y, g) && g.releaseRow != S.NoRow
    ensures var z := Executing(y, 0, ReleaseStock, Approve);
            At(z, S.Step(g, S.ExecRelease)) && z.billing == y.billing
  {
    X.RowPayload(y, 0, g, ReleaseStock);
    X.ReleaseExecution(y, 0, g, Approve);
    ReleasedState(y);
    ReleaseKeepsTables(y.fulfillment, 0, y.orders.commands[(0, ReleaseStock)].payload.reason);
  }

  lemma ReleaseStep(y: SystemState, g: S.SagaState) returns (z: SystemState)
    requires Reachable(y) && At(y, g) && I.SagaInv(g) && g.releaseRow != S.NoRow
    ensures Reachable(z) && At(z, S.Step(g, S.ExecRelease)) && I.SagaInv(S.Step(g, S.ExecRelease))
    ensures z.billing == y.billing
  {
    z := Executing(y, 0, ReleaseStock, Approve);
    I.StepKeeps(g, S.ExecRelease);
    ReleasedNext(y, g);
    ReachExecution(y, ReleaseStock, Approve);
  }

  lemma UntilRejected(y: SystemState, g: S.SagaState) returns (z: SystemState, t: S.SagaState)
    requires Reachable(y) && At(y, g) && I.SagaInv(g) && JustReserved(g, true) && SmallBilling(y.billing.state)
    ensures Reachable(z) && At(z, t) && I.SagaInv(t) && Rejected(t, S.StockHeld) && SmallBilling(z.billing.state)
  {
    ReservedMove(g);
    z := StockStep(y, g);
    t := S.Step(g, S.DeliverStock);
    z, t := RefusalStep(z, t, Refuse(0));
    RejectedMove(t);
    z := CreditStep(z, t);
    t := S.Step(t, S.DeliverCredit);
  }

  lemma UntilCancelled(y: SystemState, g: S.SagaState) returns (z: SystemState, t: S.SagaState)
    requires Reachable(y) && At(y, g) && I.SagaInv(g) && Rejected(g, S.StockHeld) && SmallBilling(y.billing.state)
    ensures Reachable(z) && At(z, t) && I.SagaInv(t) && CancelledBecauseRefused(t, S.CreditUntouched, 1)
    ensures SmallBilling(z.billing.state)
  {
    FreedMove(g);
    z := ReleaseStep(y, g);
    t := S.Step(g, S.ExecRelease);
    CancelledMove(t);
    z := StockStep(z, t);
    t := S.Step(t, S.DeliverStock);
  }

  lemma UntilLeftHeld(y: SystemState, g: S.SagaState) returns (z: SystemState, t: S.SagaState)
    requires Reachable(y) && At(y, g) && I.SagaInv(g) && CancelledBecauseRefused(g, S.CreditUntouched, 1)
    requires SmallBilling(y.billing.state)
    ensures Reachable(z) && At(z, t) && I.SagaInv(t) && CancelledBecauseRefused(t, S.CreditHeld, 2)
  {
    ApprovedMove(g);
    z := HoldStep(y, g);
    t := S.Step(g, S.ExecHold(S.Accept));
    IgnoredMove(t);
    z := CreditStep(z, t);
    t := S.Step(t, S.DeliverCredit);
  }

  lemma ComesToRestHolding(y: SystemState, g: S.SagaState) returns (z: SystemState)
    requires Reachable(y) && At(y, g) && I.SagaInv(g) && CancelledBecauseRefused(g, S.CreditHeld, 2)
    ensures Reachable(z) && W.CreditStranded(z, 0) && z.orders.orders[0].cancellationReason == Some(CreditRejection)
  {
    var hs := ReachedIsOk(y);
    var steps, moves, t;
    steps, z, moves, t := ComesToRest(y, hs, 0, g);
    W.DutiesLeaveHeld(g, moves);
    ReasonStays(g, moves);
    W.HeldIsExposed(z, 0, t);
    ReachRun(y, steps);
  }

  /** The exposure that `Compensated` speaks of is real, and no operator is needed for it: the hold is refused, the
      refusal releases the stock and cancels the order, and the same command, delivered once more, finds no entry for
      the order and is approved. The approval reaches a cancelled order, which ignores it. */
  lemma RefusedHoldCanStillBeHeld() returns (z: SystemState)
    ensures Reachable(z) && W.CreditStranded(z, 0) && z.orders.orders[0].cancellationReason == Some(CreditRejection)
  {
    var g;
    z, g := PlacedAndRead(1);
    z, g := UntilReserved(z, g, true);
    z, g := UntilRejected(z, g);
    z, g := UntilCancelled(z, g);
    z, g := UntilLeftHeld(z, g);
    z := ComesToRestHolding(z, g);
  }
}
