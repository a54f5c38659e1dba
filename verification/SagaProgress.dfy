/** Where a saga comes to rest, what its compensation has given back by then, and why it does come to rest. */
module SagaProgress {
  import opened Kernel
  import opened Saga
  import opened SagaInvariant
  import opened SagaSafety

  // ---- At rest ----

  /** No command without an answer, and no fact that was not delivered. */
  predicate Quiescent(s: SagaState) {
    && s.placedSeen && !StockPending(s) && !CreditPending(s)
    && s.reserveRow != Pending && s.holdRow != Pending && s.releaseRow != Pending
    && s.despatchRow != Pending && s.invoiceRow != Pending && s.refundRow != Pending
  }

  /** The states in which a saga can come to rest: over, waiting for a payment, or stopped. It stops at `placed` when
      none of its products is stocked, at `stock_reserved` when its credit line is of no use, and, when its total is
      zero, at `despatched` after its stock was shipped or at `confirmed` after an operator's cancellation released it.
      */
  predicate Resting(s: SagaState) {
    match s.status
    case Cancelled => true
    case Completed => s.stock == StockShipped && s.credit == CreditSettled && s.positive
    case Invoiced => s.stock == StockShipped && s.credit == CreditInvoiced && s.positive
    case Despatched => s.stock == StockShipped && s.credit == CreditHeld && !s.positive
    case Confirmed => s.stock == StockFreed && s.credit == CreditHeld && !s.positive
    case StockReserved =>
      s.stock == StockHeld && s.credit == CreditUntouched && s.refusals.credit == 0 && !s.reference.creditable
    case Placed =>
      && s.stock == StockUntouched && s.refusals.stock == 0 && s.credit == CreditUntouched && s.refusals.credit == 0
      && !s.reference.stocked
    case _ => false
  }

  lemma Progress(s: SagaState)
    requires SagaInv(s) && Quiescent(s)
    ensures Resting(s)
  {
  }

  /** Exactly when a cancelled order at rest still holds something: nobody ever asked for it back. */
  lemma StrandedExactly(s: SagaState)
    requires SagaInv(s) && Quiescent(s) && s.status == Cancelled
    ensures s.stock == StockHeld <==> s.stock != StockUntouched && s.releaseRow == NoRow && s.despatchRow == NoRow
    ensures s.positive ==> (s.credit == CreditHeld <==> s.credit != CreditUntouched && s.refundRow == NoRow)
  {
  }

  // ---- Compensation ----

  /** What a cancelled order that had left `placed` has given back or will be asked to. */
  predicate Unwinding(s: SagaState) {
    s.status == Cancelled && s.holdRow != NoRow ==>
      && s.stock == StockFreed
      && (s.reason == Some(OperatorCancelled) && s.creditSeen > s.refusals.credit ==> s.refundRow != NoRow)
  }

  /** A direct cancellation whose re-read finds the order no longer `placed`. */
  predicate LateDirectCancel(s: SagaState, m: SagaMove) {
    m == CancelDirect && s.sawOther && Compensates(s.status)
  }

  lemma UnwindingWhileReserved(s: SagaState)
    requires SagaInv(s) && StockPending(s) && s.status == StockReserved
    ensures Unwinding(StockAcknowledged(s, React(s, StockEventAt(s, s.stockSeen))))
  {
  }

  lemma UnwindingWhileCancelled(s: SagaState)
    requires SagaInv(s) && Unwinding(s) && StockPending(s) && s.status == Cancelled
    ensures Unwinding(StockAcknowledged(s, React(s, StockEventAt(s, s.stockSeen))))
  {
    CancelledReacts(s, StockEventAt(s, s.stockSeen));
  }

  lemma UnwindingElsewhereInStock(s: SagaState)
    requires SagaInv(s) && StockPending(s) && (s.status == Placed || s.status == Confirmed)
    ensures Unwinding(StockAcknowledged(s, React(s, StockEventAt(s, s.stockSeen))))
  {
  }

  lemma UnwindingAfterStock(s: SagaState)
    requires SagaInv(s) && Unwinding(s) && StockPending(s)
    ensures Unwinding(StockAcknowledged(s, React(s, StockEventAt(s, s.stockSeen))))
  {
    StockPendingAt(s);
    if s.status == Cancelled {
      UnwindingWhileCancelled(s);
    } else if s.status == StockReserved {
      UnwindingWhileReserved(s);
    } else {
      UnwindingElsewhereInStock(s);
    }
  }

  lemma UnwindingAfterCredit(s: SagaState)
    requires SagaInv(s) && Unwinding(s) && CreditPending(s)
    ensures Unwinding(CreditAcknowledged(s, React(s, CreditEventAt(s, s.creditSeen))))
  {
    CreditPendingAt(s);
    if s.status == Cancelled {
      CancelledAcknowledgesApproval(s);
    } else if s.status == Confirmed {
      ReleaseUnwinds(s);
    } else {
      OtherStatusesStay(s);
    }
  }

  lemma CancelledAcknowledgesApproval(s: SagaState)
    requires SagaInv(s) && Unwinding(s) && CreditPending(s) && s.status == Cancelled
    ensures Unwinding(CreditAcknowledged(s, React(s, CreditEventAt(s, s.creditSeen))))
  {
    CancelledReacts(s, CreditEventAt(s, s.creditSeen));
    if s.creditSeen == s.refusals.credit && s.reason == Some(OperatorCancelled) {
      assert React(s, CreditEventAt(s, s.creditSeen)) == Acts(s.(refundRow := Owed(s.refundRow)));
    }
  }

  lemma ReleaseUnwinds(s: SagaState)
    requires SagaInv(s) && CreditPending(s) && s.status == Confirmed
    ensures Unwinding(CreditAcknowledged(s, React(s, CreditEventAt(s, s.creditSeen))))
  {
  }

  lemma UnwindingExecuted(s: SagaState, d: Decision)
    requires SagaInv(s) && Unwinding(s)
    ensures s.reserveRow != NoRow ==> Unwinding(ReserveExecuted(s, d))
    ensures Unwinding(ReleaseExecuted(s)) && Unwinding(DespatchExecuted(s))
  {
  }

  lemma UnwindingHeld(s: SagaState, d: Decision)
    requires SagaInv(s) && Unwinding(s) && s.holdRow != NoRow
    ensures Unwinding(HoldExecuted(s, d))
  {
  }

  lemma UnwindingElsewhere(s: SagaState)
    requires SagaInv(s) && Unwinding(s)
    ensures Unwinding(IssueExecuted(s)) && Unwinding(RefundExecuted(s)) && Unwinding(PaymentRegistered(s))
    ensures Unwinding(StatusRead(s)) && Unwinding(CancelEnqueued(s))
    ensures !Compensates(s.status) ==> Unwinding(CancelledDirect(s))
  {
  }

  lemma UnwindingStep(s: SagaState, m: SagaMove)
    requires SagaInv(s) && Unwinding(s) && !LateDirectCancel(s, m)
    ensures Unwinding(Step(s, m))
  {
    if Enabled(s, m) {
      match m
      case DeliverPlaced =>
      case DeliverStock => UnwindingAfterStock(s);
      case DeliverCredit => UnwindingAfterCredit(s);
      case ExecReserve(d) => UnwindingExecuted(s, d);
      case ExecRelease => UnwindingExecuted(s, Accept);
      case ExecDespatch => UnwindingExecuted(s, Accept);
      case ExecHold(d) => UnwindingHeld(s, d);
      case _ => UnwindingElsewhere(s);
    }
  }

  predicate SomeLateDirectCancel(s: SagaState, moves: seq<SagaMove>) {
    exists i :: 0 <= i < |moves| && LateDirectCancel(Run(s, moves[..i]), moves[i])
  }

  lemma {:induction false} UnwindingOverRuns(s: SagaState, moves: seq<SagaMove>)
    requires SagaInv(s) && Unwinding(s) && !SomeLateDirectCancel(s, moves)
    ensures SagaInv(Run(s, moves)) && Unwinding(Run(s, moves))
  {
    InvariantOverRuns(s, moves);
    if moves != [] {
      var init := moves[..|moves| - 1];
      forall i | 0 <= i < |init| ensures !LateDirectCancel(Run(s, init[..i]), init[i]) {
        assert init[..i] == moves[..i] && init[i] == moves[i];
      }
      UnwindingOverRuns(s, init);
      assert !LateDirectCancel(Run(s, moves[..|moves| - 1]), moves[|moves| - 1]);
      UnwindingStep(Run(s, init), moves[|moves| - 1]);
    }
  }

  /** The hold was decided once: refused or approved, not both. */
  predicate OneHoldDecision(s: SagaState) {
    s.refusals.credit == 0 || s.credit == CreditUntouched
  }

  lemma UnwoundAtRest(s: SagaState)
    requires SagaInv(s) && Unwinding(s) && Quiescent(s) && s.status == Cancelled && s.holdRow != NoRow
    ensures s.stock == StockFreed && s.credit != CreditInvoiced && s.credit != CreditSettled
    ensures s.positive ==>
            (s.credit == CreditHeld <==> s.reason == Some(CreditRejection) && s.credit != CreditUntouched)
    ensures s.reason == Some(CreditRejection) && s.credit != CreditUntouched ==> !OneHoldDecision(s)
  {
    match s.reason.value
    case StockRejection =>
    case CreditRejection =>
    case OperatorCancelled =>
  }
}
