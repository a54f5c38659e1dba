/** The inductive invariant of one saga, over every interleaving. */
module SagaInvariant {
  import opened Kernel
  import opened Saga

  /** Which services have been asked what, and what that says about their phases. */
  predicate OwedInv(s: SagaState) {
    && s.stockSeen <= StockLength(s) && s.creditSeen <= CreditLength(s)
    && (s.reserveRow != NoRow ==> s.placedSeen)
    && (s.refusals.stock > 0 || s.stock != StockUntouched ==> s.reserveRow != NoRow)
    && (s.holdRow != NoRow ==> s.refusals.stock == 0 && s.stock != StockUntouched && s.stockSeen >= 1)
    && (s.refusals.credit > 0 || s.credit != CreditUntouched ==> s.holdRow != NoRow)
    && (s.releaseRow != NoRow ==> s.holdRow != NoRow)
    && (s.releaseRow != NoRow && !s.byOperator ==> s.refusals.credit > 0)
    && (s.byOperator ==> s.releaseRow != NoRow)
    && (s.stock == StockFreed ==> s.releaseRow != NoRow)
    && (s.despatchRow != NoRow ==> s.credit != CreditUntouched && s.creditSeen > s.refusals.credit)
    && (s.stock == StockShipped ==> s.despatchRow != NoRow)
    && (s.refundRow != NoRow ==> s.credit != CreditUntouched && s.creditSeen > s.refusals.credit)
    && (s.refundRow != NoRow && s.despatchRow != NoRow ==> s.stock == StockFreed)
    && (s.credit == CreditFreed ==> s.refundRow != NoRow && s.positive)
    && (s.invoiceRow != NoRow ==> s.stock == StockShipped && s.stockSeen == 2 && s.despatchRow != NoRow
                                   && StatusRank(Despatched) <= StatusRank(s.status) <= StatusRank(Completed))
    && ((s.credit == CreditInvoiced || s.credit == CreditSettled) ==> s.invoiceRow != NoRow && s.positive)
    && s.credit != CreditFreedAfterInvoice && s.credit != CreditSettledAfterFree
    && (s.sawCompensating ==> s.holdRow != NoRow)
  }

  /** What each status of the order says about the facts delivered so far. */
  predicate StatusInv(s: SagaState) {
    && (s.status == Cancelled <==> s.reason.Some?)
    && (s.status == Placed ==>
          && s.stockSeen == 0 && s.creditSeen == 0 && (s.placedSeen ==> s.reserveRow != NoRow)
          && s.holdRow == NoRow && s.releaseRow == NoRow && s.despatchRow == NoRow && s.invoiceRow == NoRow
             && s.refundRow == NoRow)
    && (s.status == StockReserved ==>
          && s.holdRow != NoRow && s.stockSeen == 1 && s.despatchRow == NoRow
          && (s.creditSeen > 0 ==> s.releaseRow != NoRow)
          && (s.creditSeen > s.refusals.credit ==> s.refundRow != NoRow)
          && (s.refundRow != NoRow ==> s.byOperator))
    && s.status != CreditApproved
    && (s.status == Confirmed ==>
          && s.despatchRow != NoRow && s.holdRow != NoRow && s.creditSeen == s.refusals.credit + 1
          && (s.stockSeen == 1 || (s.stockSeen == 2 && s.stock == StockFreed && s.refundRow != NoRow)))
    && (s.status == Despatched ==> s.invoiceRow != NoRow && s.creditSeen == s.refusals.credit + 1)
    && (s.status == Invoiced ==>
          s.invoiceRow != NoRow && s.creditSeen == s.refusals.credit + 2
            && (s.credit == CreditInvoiced || s.credit == CreditSettled))
    && (s.status == Paid ==>
        s.invoiceRow != NoRow && s.creditSeen == s.refusals.credit + 3 && s.credit == CreditSettled)
    && (s.status == Completed ==>
        s.invoiceRow != NoRow && s.creditSeen == s.refusals.credit + 4 && s.credit == CreditSettled)
    && (s.reason == Some(CreditRejection) ==> s.refusals.credit > 0 && s.refundRow == NoRow)
    && (s.reason == Some(StockRejection) ==> s.holdRow == NoRow)
  }

  /** A command that has been answered has had its effect. */
  predicate AnsweredInv(s: SagaState) {
    && (s.reserveRow == Answered && s.reference.stocked ==> s.refusals.stock > 0 || s.stock != StockUntouched)
    && (s.holdRow == Answered && s.reference.creditable ==> s.refusals.credit > 0 || s.credit != CreditUntouched)
    && (s.releaseRow == Answered || s.despatchRow == Answered ==> (s.stock == StockFreed || s.stock == StockShipped))
    && (s.invoiceRow == Answered && s.positive ==> (s.credit == CreditInvoiced || s.credit == CreditSettled))
    && (s.refundRow == Answered && s.positive ==> s.credit == CreditFreed)
  }

  predicate SagaInv(s: SagaState) {
    OwedInv(s) && StatusInv(s) && AnsweredInv(s)
  }

  // ---- Deliveries, status by status ----

  lemma PlacedDelivered(s: SagaState)
    requires SagaInv(s) && !s.placedSeen
    ensures SagaInv(PlacedDelivery(s)) && !OnPlaced(s).Throws?
  {
  }

  /** Where an undelivered Fulfillment fact can still find the order. */
  lemma StockPendingAt(s: SagaState)
    requires SagaInv(s) && StockPending(s)
    ensures s.status == Placed || s.status == StockReserved || s.status == Confirmed || s.status == Cancelled
  {
  }

  lemma StockWhilePlaced(s: SagaState)
    requires SagaInv(s) && StockPending(s) && s.status == Placed
    ensures SagaInv(StockAcknowledged(s, React(s, StockEventAt(s, s.stockSeen))))
            && !React(s, StockEventAt(s, s.stockSeen)).Throws?
  {
  }

  lemma StockWhileReserved(s: SagaState)
    requires SagaInv(s) && StockPending(s) && s.status == StockReserved
    ensures SagaInv(StockAcknowledged(s, React(s, StockEventAt(s, s.stockSeen))))
            && !React(s, StockEventAt(s, s.stockSeen)).Throws?
  {
  }

  lemma ReleaseWhileConfirmed(s: SagaState)
    requires SagaInv(s) && StockPending(s) && s.status == Confirmed && s.stock == StockFreed
    ensures SagaInv(StockAcknowledged(s, React(s, StockEventAt(s, s.stockSeen))))
            && !React(s, StockEventAt(s, s.stockSeen)).Throws?
  {
  }

  lemma DespatchWhileConfirmed(s: SagaState)
    requires SagaInv(s) && StockPending(s) && s.status == Confirmed && s.stock == StockShipped
    ensures SagaInv(StockAcknowledged(s, React(s, StockEventAt(s, s.stockSeen))))
            && !React(s, StockEventAt(s, s.stockSeen)).Throws?
  {
  }

  lemma StockWhileCancelled(s: SagaState)
    requires SagaInv(s) && StockPending(s) && s.status == Cancelled
    ensures SagaInv(StockAcknowledged(s, React(s, StockEventAt(s, s.stockSeen))))
            && !React(s, StockEventAt(s, s.stockSeen)).Throws?
  {
  }

  lemma StockDelivered(s: SagaState)
    requires SagaInv(s) && StockPending(s)
    ensures SagaInv(StockAcknowledged(s, React(s, StockEventAt(s, s.stockSeen))))
            && !React(s, StockEventAt(s, s.stockSeen)).Throws?
  {
    StockPendingAt(s);
    if s.status == Placed {
      StockWhilePlaced(s);
    } else if s.status == StockReserved {
      StockWhileReserved(s);
    } else if s.status == Cancelled {
      StockWhileCancelled(s);
    } else if s.stock == StockFreed {
      ReleaseWhileConfirmed(s);
    } else {
      DespatchWhileConfirmed(s);
    }
  }

  /** Where an undelivered Billing fact can still find the order. */
  lemma CreditPendingAt(s: SagaState)
    requires SagaInv(s) && CreditPending(s)
    ensures s.status != Placed && s.status != CreditApproved && s.status != Completed
  {
  }

  lemma RejectionWhileReserved(s: SagaState)
    requires SagaInv(s) && CreditPending(s) && s.status == StockReserved && s.creditSeen < s.refusals.credit
    ensures SagaInv(CreditAcknowledged(s, React(s, CreditEventAt(s, s.creditSeen))))
            && !React(s, CreditEventAt(s, s.creditSeen)).Throws?
  {
  }

  lemma ApprovalWhileReserved(s: SagaState)
    requires SagaInv(s) && CreditPending(s) && s.status == StockReserved && s.creditSeen == s.refusals.credit
    ensures SagaInv(CreditAcknowledged(s, React(s, CreditEventAt(s, s.creditSeen))))
            && !React(s, CreditEventAt(s, s.creditSeen)).Throws?
  {
  }

  lemma LaterWhileReserved(s: SagaState)
    requires SagaInv(s) && CreditPending(s) && s.status == StockReserved && s.creditSeen > s.refusals.credit
    ensures SagaInv(CreditAcknowledged(s, React(s, CreditEventAt(s, s.creditSeen))))
            && !React(s, CreditEventAt(s, s.creditSeen)).Throws?
  {
  }

  lemma CreditWhileConfirmed(s: SagaState)
    requires SagaInv(s) && CreditPending(s) && s.status == Confirmed
    ensures SagaInv(CreditAcknowledged(s, React(s, CreditEventAt(s, s.creditSeen))))
            && !React(s, CreditEventAt(s, s.creditSeen)).Throws?
  {
  }

  lemma CreditWhileDespatched(s: SagaState)
    requires SagaInv(s) && CreditPending(s) && s.status == Despatched
    ensures SagaInv(CreditAcknowledged(s, React(s, CreditEventAt(s, s.creditSeen))))
            && !React(s, CreditEventAt(s, s.creditSeen)).Throws?
  {
  }

  lemma CreditWhileInvoiced(s: SagaState)
    requires SagaInv(s) && CreditPending(s) && s.status == Invoiced
    ensures SagaInv(CreditAcknowledged(s, React(s, CreditEventAt(s, s.creditSeen))))
            && !React(s, CreditEventAt(s, s.creditSeen)).Throws?
  {
  }

  lemma CreditWhilePaid(s: SagaState)
    requires SagaInv(s) && CreditPending(s) && s.status == Paid
    ensures SagaInv(CreditAcknowledged(s, React(s, CreditEventAt(s, s.creditSeen))))
            && !React(s, CreditEventAt(s, s.creditSeen)).Throws?
  {
  }

  lemma LateApproval(s: SagaState)
    requires SagaInv(s) && CreditPending(s) && s.status == Cancelled && s.reason == Some(OperatorCancelled)
             && s.creditSeen == s.refusals.credit
    ensures SagaInv(CreditAcknowledged(s, React(s, CreditEventAt(s, s.creditSeen))))
            && !React(s, CreditEventAt(s, s.creditSeen)).Throws?
  {
  }

  lemma StaleApproval(s: SagaState)
    requires SagaInv(s) && CreditPending(s) && s.status == Cancelled && s.reason != Some(OperatorCancelled)
             && s.creditSeen == s.refusals.credit
    ensures SagaInv(CreditAcknowledged(s, React(s, CreditEventAt(s, s.creditSeen))))
            && !React(s, CreditEventAt(s, s.creditSeen)).Throws?
  {
  }

  lemma CreditWhileCancelled(s: SagaState)
    requires SagaInv(s) && CreditPending(s) && s.status == Cancelled && s.creditSeen != s.refusals.credit
    ensures SagaInv(CreditAcknowledged(s, React(s, CreditEventAt(s, s.creditSeen))))
            && !React(s, CreditEventAt(s, s.creditSeen)).Throws?
  {
  }

  lemma CreditDelivered(s: SagaState)
    requires SagaInv(s) && CreditPending(s)
    ensures SagaInv(CreditAcknowledged(s, React(s, CreditEventAt(s, s.creditSeen))))
            && !React(s, CreditEventAt(s, s.creditSeen)).Throws?
  {
    CreditPendingAt(s);
    if s.status == StockReserved {
      if s.creditSeen < s.refusals.credit {
        RejectionWhileReserved(s);
      } else if s.creditSeen == s.refusals.credit {
        ApprovalWhileReserved(s);
      } else {
        LaterWhileReserved(s);
      }
    } else if s.status == Confirmed {
      CreditWhileConfirmed(s);
    } else if s.status == Despatched {
      CreditWhileDespatched(s);
    } else if s.status == Invoiced {
      CreditWhileInvoiced(s);
    } else if s.status == Paid {
      CreditWhilePaid(s);
    } else if s.creditSeen == s.refusals.credit {
      if s.reason == Some(OperatorCancelled) {
        LateApproval(s);
      } else {
        StaleApproval(s);
      }
    } else {
      CreditWhileCancelled(s);
    }
  }

  // ---- Executions, payments and cancellations ----

  lemma ReserveAccepted(s: SagaState)
    requires SagaInv(s) && s.reserveRow != NoRow && s.stock == StockUntouched
    ensures SagaInv(ReserveExecuted(s, Accept))
  {
  }

  lemma ReserveDeclined(s: SagaState)
    requires SagaInv(s) && s.reserveRow != NoRow && s.stock == StockUntouched
    ensures SagaInv(ReserveExecuted(s, Decline))
  {
  }

  lemma ReserveUndecided(s: SagaState)
    requires SagaInv(s) && s.reserveRow != NoRow && !s.reference.stocked
    ensures SagaInv(ReserveExecuted(s, NoDecision))
  {
  }

  lemma ReserveRepeated(s: SagaState, d: Decision)
    requires SagaInv(s) && s.reserveRow != NoRow && s.stock != StockUntouched
    ensures SagaInv(ReserveExecuted(s, d))
  {
  }

  lemma ReserveKept(s: SagaState, d: Decision)
    requires SagaInv(s) && s.reserveRow != NoRow && (d == NoDecision ==> !s.reference.stocked)
    ensures SagaInv(ReserveExecuted(s, d))
  {
    if s.stock != StockUntouched {
      ReserveRepeated(s, d);
    } else {
      match d
      case Accept => ReserveAccepted(s);
      case Decline => ReserveDeclined(s);
      case NoDecision => ReserveUndecided(s);
    }
  }

  lemma ReleaseKept(s: SagaState)
    requires SagaInv(s) && s.releaseRow != NoRow
    ensures SagaInv(ReleaseExecuted(s))
  {
  }

  lemma DespatchKept(s: SagaState)
    requires SagaInv(s) && s.despatchRow != NoRow
    ensures SagaInv(DespatchExecuted(s))
  {
  }

  lemma HoldAccepted(s: SagaState)
    requires SagaInv(s) && s.holdRow != NoRow && s.credit == CreditUntouched
    ensures SagaInv(HoldExecuted(s, Accept))
  {
  }

  lemma HoldDeclined(s: SagaState)
    requires SagaInv(s) && s.holdRow != NoRow && s.credit == CreditUntouched
    ensures SagaInv(HoldExecuted(s, Decline))
  {
  }

  lemma HoldUndecided(s: SagaState)
    requires SagaInv(s) && s.holdRow != NoRow && !s.reference.creditable
    ensures SagaInv(HoldExecuted(s, NoDecision))
  {
  }

  lemma HoldRepeated(s: SagaState, d: Decision)
    requires SagaInv(s) && s.holdRow != NoRow && s.credit != CreditUntouched
    ensures SagaInv(HoldExecuted(s, d))
  {
  }

  lemma HoldKept(s: SagaState, d: Decision)
    requires SagaInv(s) && s.holdRow != NoRow && (d == NoDecision ==> !s.reference.creditable)
    ensures SagaInv(HoldExecuted(s, d))
  {
    if s.credit != CreditUntouched {
      HoldRepeated(s, d);
    } else {
      match d
      case Accept => HoldAccepted(s);
      case Decline => HoldDeclined(s);
      case NoDecision => HoldUndecided(s);
    }
  }

  lemma IssueKept(s: SagaState)
    requires SagaInv(s) && s.invoiceRow != NoRow
    ensures SagaInv(IssueExecuted(s))
  {
  }

  lemma RefundKept(s: SagaState)
    requires SagaInv(s) && s.refundRow != NoRow
    ensures SagaInv(RefundExecuted(s))
  {
  }

  lemma PaymentKept(s: SagaState)
    requires SagaInv(s)
    ensures SagaInv(PaymentRegistered(s))
  {
  }

  lemma ReadKept(s: SagaState)
    requires SagaInv(s)
    ensures SagaInv(StatusRead(s))
  {
  }

  lemma EnqueueKept(s: SagaState)
    requires SagaInv(s) && s.sawCompensating
    ensures SagaInv(CancelEnqueued(s))
  {
  }

  lemma DirectCancelKept(s: SagaState)
    requires SagaInv(s)
    ensures SagaInv(CancelledDirect(s))
  {
  }

  /** Every step keeps the invariant, and no handling of a delivered fact throws. */
  lemma StepKeeps(s: SagaState, m: SagaMove)
    requires SagaInv(s)
    ensures SagaInv(Step(s, m))
  {
    if Enabled(s, m) {
      match m
      case DeliverPlaced => PlacedDelivered(s);
      case DeliverStock => StockDelivered(s);
      case DeliverCredit => CreditDelivered(s);
      case ExecReserve(d) => ReserveKept(s, d);
      case ExecRelease => ReleaseKept(s);
      case ExecDespatch => DespatchKept(s);
      case ExecHold(d) => HoldKept(s, d);
      case ExecIssue => IssueKept(s);
      case ExecReleaseCredit => RefundKept(s);
      case CancelRead => ReadKept(s);
      case CancelEnqueue => EnqueueKept(s);
      case CancelDirect => DirectCancelKept(s);
      case Pay => PaymentKept(s);
    }
  }
}
