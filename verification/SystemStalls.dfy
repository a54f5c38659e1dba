/** Orders of total zero: two runs of the composed system that come to rest short of an invoice. */
module SystemStalls {
  import opened Kernel
  import opened OrderAggregate
  import opened OrdersService
  import opened Stock
  import opened FulfillmentPhases
  import opened BillingTables
  import S = Saga
  import I = SagaInvariant
  import P = SagaProgress
  import N = SagaTermination
  import O = SagaOrdinary
  import opened System
  import opened SystemRefinement
  import X = SystemExecution
  import M = SystemMoves
  import opened SystemClimb
  import opened SystemTheorems
  import opened SystemRest
  import opened SystemExample

  // ---- What duties keep, in terms of the saga ----

  /** Reference data and total are what they were, and what has been decided stays decided. */
  predicate SameWorld(g: S.SagaState, t: S.SagaState) {
    && t.reference == g.reference && t.positive == g.positive
    && (g.stock != S.StockUntouched ==> t.stock != S.StockUntouched)
    && (g.credit != S.CreditUntouched ==> t.credit != S.CreditUntouched)
  }

  lemma ReactionKeepsWorld(g: S.SagaState, e: S.SagaEvent)
    ensures SameWorld(g, S.StockAcknowledged(g, S.React(g, e))) && SameWorld(g, S.CreditAcknowledged(g, S.React(g, e)))
  {
    N.ReactionClimbs(g, e);
  }

  lemma StockExecutionKeepsWorld(g: S.SagaState, d: S.Decision)
    ensures SameWorld(g, S.ReserveExecuted(g, d))
    ensures SameWorld(g, S.ReleaseExecuted(g)) && SameWorld(g, S.DespatchExecuted(g))
  {
    X.ReserveAnswers(g, d);
  }

  lemma CreditExecutionKeepsWorld(g: S.SagaState, d: S.Decision)
    ensures SameWorld(g, S.HoldExecuted(g, d))
    ensures SameWorld(g, S.IssueExecuted(g)) && SameWorld(g, S.RefundExecuted(g))
  {
    X.HoldAnswers(g, d);
  }

  lemma DutyKeepsWorld(g: S.SagaState, m: S.SagaMove)
    requires IsDuty(m)
    ensures SameWorld(g, S.Step(g, m))
  {
    if S.Enabled(g, m) {
      match m
      case DeliverPlaced =>
      case DeliverStock => ReactionKeepsWorld(g, S.StockEventAt(g, g.stockSeen));
      case DeliverCredit => ReactionKeepsWorld(g, S.CreditEventAt(g, g.creditSeen));
      case ExecReserve(d) => StockExecutionKeepsWorld(g, d);
      case ExecRelease => StockExecutionKeepsWorld(g, S.NoDecision);
      case ExecDespatch => StockExecutionKeepsWorld(g, S.NoDecision);
      case ExecHold(d) => CreditExecutionKeepsWorld(g, d);
      case ExecIssue => CreditExecutionKeepsWorld(g, S.NoDecision);
      case ExecReleaseCredit => CreditExecutionKeepsWorld(g, S.NoDecision);
    }
  }

  /** Accepted by both services, and nobody cancels. */
  predicate Accepted(g: S.SagaState) {
    I.SagaInv(g) && O.OrdinaryInv(g) && g.stock != S.StockUntouched && g.credit != S.CreditUntouched
  }

  lemma {:induction false} DutiesKeepAccepted(g: S.SagaState, moves: seq<S.SagaMove>)
    requires AllDuties(moves) && Accepted(g)
    ensures Accepted(S.Run(g, moves)) && SameWorld(g, S.Run(g, moves))
  {
    if moves != [] {
      var init, m := moves[..|moves| - 1], moves[|moves| - 1];
      DutiesKeepAccepted(g, init);
      assert IsDuty(m);
      DutyKeepsWorld(S.Run(g, init), m);
      I.StepKeeps(S.Run(g, init), m);
      O.OrdinaryStep(S.Run(g, init), m);
    }
  }

  /** At rest such an order is not cancelled, and its stock was shipped. */
  lemma AcceptedAtRest(g: S.SagaState)
    requires Accepted(g) && P.Quiescent(g) && !g.positive
    ensures g.status == Despatched && g.stock == S.StockShipped
  {
    P.Progress(g);
  }

  /** Confirmed, its stock released for an operator's cancellation, and a hold of zero that no release can find. */
  predicate HalfCancelled(g: S.SagaState) {
    && I.SagaInv(g) && g.status == Confirmed && g.stock == S.StockFreed && !g.positive
    && g.credit == S.CreditHeld && g.creditSeen == g.refusals.credit + 1
  }

  lemma ReleaseLeavesConfirmed(g: S.SagaState)
    requires HalfCancelled(g) && S.StockPending(g)
    ensures var t := S.StockAcknowledged(g, S.React(g, S.StockEventAt(g, g.stockSeen)));
            t == g.(refundRow := S.Owed(g.refundRow), stockSeen := g.stockSeen + 1)
  {
    assert S.StockEventAt(g, g.stockSeen) == S.StockReleasedEvent;
  }

  lemma DecidedExecutions(g: S.SagaState, d: S.Decision)
    requires g.stock != S.StockUntouched && g.credit != S.CreditUntouched
    ensures S.ReserveExecuted(g, d) == g.(reserveRow := S.Answered) && S.HoldExecuted(g, d) == g.(holdRow := S.Answered)
  {
  }

  lemma IdleExecutions(g: S.SagaState)
    requires HalfCancelled(g)
    ensures S.ReleaseExecuted(g) == g.(releaseRow := S.Answered)
            && S.DespatchExecuted(g) == g.(despatchRow := S.Answered)
    ensures S.IssueExecuted(g) == g.(invoiceRow := S.Answered) && S.RefundExecuted(g) == g.(refundRow := S.Answered)
  {
  }

  lemma DutyKeepsHalfCancelled(g: S.SagaState, m: S.SagaMove)
    requires HalfCancelled(g) && IsDuty(m)
    ensures HalfCancelled(S.Step(g, m))
  {
    I.StepKeeps(g, m);
    IdleExecutions(g);
    if S.Enabled(g, m) {
      match m
      case DeliverStock => ReleaseLeavesConfirmed(g);
      case ExecReserve(d) => DecidedExecutions(g, d);
      case ExecHold(d) => DecidedExecutions(g, d);
      case _ =>
    }
  }

  lemma {:induction false} DutiesKeepHalfCancelled(g: S.SagaState, moves: seq<S.SagaMove>)
    requires AllDuties(moves) && HalfCancelled(g)
    ensures HalfCancelled(S.Run(g, moves))
  {
    if moves != [] {
      assert IsDuty(moves[|moves| - 1]);
      DutiesKeepHalfCancelled(g, moves[..|moves| - 1]);
      DutyKeepsHalfCancelled(S.Run(g, moves[..|moves| - 1]), moves[|moves| - 1]);
    }
  }

  // ---- The runs ----

  lemma ZeroStaysZero(y: SystemState, steps: seq<SystemStep>, g: S.SagaState)
    requires At(y, g) && !g.positive
    ensures 0 in RunSystem(y, steps).orders.orders && NetOf(RunSystem(y, steps).orders.orders[0].lines) == 0
  {
    SmallTotals(0);
    SmallTotals(1);
    RunKeepsRowsAndTerms(y, steps, 0);
  }

  /** Reserved, held, shipped, and never invoiced: the hold of zero is no active hold. */
  lemma ZeroTotalStalls() returns (z: SystemState)
    ensures Reachable(z) && 0 in z.orders.orders && NetOf(z.orders.orders[0].lines) == 0
    ensures AtRest(z, 0) && z.orders.orders[0].status == Despatched
    ensures Usable(ReferenceOf(z, z.orders.orders[0]))
  {
    var y, g := ConfirmedWithStockReserved(0);
    var hs := ReachedIsOk(y);
    var steps, moves, t;
    steps, z, moves, t := ComesToRest(y, hs, 0, g);
    DutiesKeepAccepted(g, moves);
    RestIsQuiescent(z, 0, t);
    AcceptedAtRest(t);
    ReachRun(y, steps);
    ZeroStaysZero(y, steps, g);
  }

  lemma ReadThenEnqueued(y: SystemState)
    requires 0 in y.orders.orders && y.orders.orders[0].status == Confirmed
    ensures var y1 := SystemNext(y, ReadStatus(0));
            && SystemNext(y1, CancelAfterRead(0, Confirmed)) == y1.(orders := CancelEnqueued(y1.orders, 0))
            && y1.orders == y.orders && y1.fulfillment == y.fulfillment
  {
  }

  /** The operator's two steps and the execution that follows, in terms of the saga. */
  lemma CancelledByHalf(g: S.SagaState)
    requires I.SagaInv(g) && g.status == Confirmed && g.stock == S.StockHeld && g.credit == S.CreditHeld && !g.positive
    requires g.releaseRow == S.NoRow
    ensures HalfCancelled(S.Step(S.CancelEnqueued(S.StatusRead(g)), S.ExecRelease))
    ensures S.CancelEnqueued(S.StatusRead(g)).releaseRow == S.Pending
  {
    var g1, g2 := S.StatusRead(g), S.CancelEnqueued(S.StatusRead(g));
    M.CancelStepsAre(g);
    I.StepKeeps(g, S.CancelRead);
    M.CancelStepsAre(g1);
    I.StepKeeps(g1, S.CancelEnqueue);
    I.StepKeeps(g2, S.ExecRelease);
    assert S.Step(g2, S.ExecRelease) == S.ReleaseExecuted(g2);
  }

  lemma CancelledTables(y: SystemState, g: S.SagaState) returns (y2: SystemState, g2: S.SagaState)
    requires At(y, g) && g.status == Confirmed && g.stock == S.StockHeld
    ensures y2 == SystemNext(SystemNext(y, ReadStatus(0)), CancelAfterRead(0, Confirmed))
    ensures g2 == S.CancelEnqueued(S.StatusRead(g)) && StandsFor(y2, 0, g2) && y2.fulfillment == y.fulfillment
    ensures (0, ReleaseStock) in y2.orders.commands
  {
    var y1 := SystemNext(y, ReadStatus(0));
    M.ReadMoves(y, 0, g);
    ReadThenEnqueued(y);
    M.EnqueueMoves(y1, 0, S.StatusRead(g));
    y2, g2 := y1.(orders := CancelEnqueued(y1.orders, 0)), S.CancelEnqueued(S.StatusRead(g));
  }

  /** An operator cancels a confirmed order of total zero: read, enqueue, and the release is executed at once. */
  lemma CancelZeroTotal(y: SystemState, g: S.SagaState) returns (z: SystemState, t: S.SagaState)
    requires Reachable(y) && At(y, g) && I.SagaInv(g) && JustConfirmed(g, false)
    ensures Reachable(z) && StandsFor(z, 0, t) && HalfCancelled(t)
    ensures z == RunSystem(y, [ReadStatus(0), CancelAfterRead(0, Confirmed), Execute(0, ReleaseStock, Approve)])
  {
    var y2, g2 := CancelledTables(y, g);
    CancelledByHalf(g);
    X.ReleaseExecution(y2, 0, g2, Approve);
    z, t := Executing(y2, 0, ReleaseStock, Approve), S.Step(g2, S.ExecRelease);
    ThreeSteps(y, ReadStatus(0), CancelAfterRead(0, Confirmed), Execute(0, ReleaseStock, Approve));
    NextIs(y2, 0, Orders, 0, ReleaseStock);
    ReachRun(y, [ReadStatus(0), CancelAfterRead(0, Confirmed), Execute(0, ReleaseStock, Approve)]);
  }

  lemma ThreeSteps(y: SystemState, a: SystemStep, b: SystemStep, c: SystemStep)
    ensures RunSystem(y, [a, b, c]) == SystemNext(SystemNext(SystemNext(y, a), b), c)
  {
    RunSystemSnoc(y, [], a);
    RunSystemSnoc(y, [a], b);
    RunSystemSnoc(y, [a, b], c);
    assert [] + [a] == [a] && [a] + [b] == [a, b] && [a, b] + [c] == [a, b, c];
  }

  /** And it hangs: the release of a hold of zero is no fact, so nothing ever cancels the order. */
  lemma ZeroTotalCancellationHangs() returns (z: SystemState)
    ensures Reachable(z) && 0 in z.orders.orders && NetOf(z.orders.orders[0].lines) == 0
    ensures AtRest(z, 0) && z.orders.orders[0].status == Confirmed
            && InPhase(z.fulfillment.reservations, 0, Some(Released))
  {
    var y, g := ConfirmedWithStockReserved(0);
    var half, t := CancelZeroTotal(y, g);
    var first := [ReadStatus(0), CancelAfterRead(0, Confirmed), Execute(0, ReleaseStock, Approve)];
    var hs := ReachedIsOk(half);
    var steps, moves, t';
    steps, z, moves, t' := ComesToRest(half, hs, 0, t);
    DutiesKeepHalfCancelled(t, moves);
    ReachRun(half, steps);
    RunSystemConcat(y, first, steps);
    ZeroStaysZero(y, first + steps, g);
  }
}
