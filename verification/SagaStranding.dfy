/** What a direct cancellation settles for good, and what it leaves to chance, for the saga of one order. */
module SagaStranding {
  import opened Kernel
  import opened Saga
  import opened SagaInvariant
  import opened SagaSafety
  import opened SagaProgress

  /** An approval that has been delivered is owed its release. */
  predicate ApprovalsUnwound(s: SagaState) {
    s.creditSeen > s.refusals.credit ==> s.refundRow != NoRow
  }

  /** `t` comes after the direct cancellation that made `s`: it stands, and what had not been asked for is not asked
      for. */
  predicate Follows(s: SagaState, t: SagaState) {
    && t.status == Cancelled && t.reason == Some(OperatorCancelled)
    && (s.reserveRow == NoRow ==> t.reserveRow == NoRow)
    && (s.holdRow == NoRow ==> t.holdRow == NoRow)
    && (ApprovalsUnwound(s) ==> ApprovalsUnwound(t))
  }

  /** Only an approval still does anything to a cancelled order. */
  lemma CancelledIgnores(s: SagaState, e: SagaEvent)
    requires s.status == Cancelled && e != CreditApprovedEvent
    ensures React(s, e) == Ignores
  {
    match e
    case PlacedEvent =>
    case _ =>
  }

  lemma StockEventsAreIgnored(s: SagaState)
    requires s.status == Cancelled && StockPending(s)
    ensures StockAcknowledged(s, React(s, StockEventAt(s, s.stockSeen))) == s.(stockSeen := s.stockSeen + 1)
  {
    CancelledIgnores(s, StockEventAt(s, s.stockSeen));
  }

  lemma StockDeliveryFollows(s: SagaState, t: SagaState)
    requires Follows(s, t) && StockPending(t)
    ensures Follows(s, StockAcknowledged(t, React(t, StockEventAt(t, t.stockSeen))))
  {
    StockEventsAreIgnored(t);
  }

  lemma ApprovalIsUnwound(t: SagaState)
    requires t.status == Cancelled && t.reason == Some(OperatorCancelled) && CreditPending(t)
             && t.creditSeen == t.refusals.credit
    ensures CreditAcknowledged(t, React(t, CreditEventAt(t, t.creditSeen)))
            == t.(refundRow := Owed(t.refundRow), creditSeen := t.creditSeen + 1)
  {
    assert React(t, CreditEventAt(t, t.creditSeen)) == Acts(t.(refundRow := Owed(t.refundRow)));
  }

  lemma OtherCreditEventsAreIgnored(s: SagaState)
    requires s.status == Cancelled && CreditPending(s) && s.creditSeen != s.refusals.credit
    ensures CreditAcknowledged(s, React(s, CreditEventAt(s, s.creditSeen))) == s.(creditSeen := s.creditSeen + 1)
  {
    CancelledIgnores(s, CreditEventAt(s, s.creditSeen));
  }

  lemma CreditDeliveryFollows(s: SagaState, t: SagaState)
    requires Follows(s, t) && CreditPending(t)
    ensures Follows(s, CreditAcknowledged(t, React(t, CreditEventAt(t, t.creditSeen))))
  {
    if t.creditSeen == t.refusals.credit {
      ApprovalIsUnwound(t);
    } else {
      OtherCreditEventsAreIgnored(t);
    }
  }

  lemma ReserveExecutionFollows(s: SagaState, t: SagaState, d: Decision)
    requires Follows(s, t) && t.reserveRow != NoRow
    ensures Follows(s, ReserveExecuted(t, d))
  {
    if t.stock == StockUntouched {
      match d
      case Accept =>
      case Decline =>
      case NoDecision =>
    }
  }

  lemma StockExecutionFollows(s: SagaState, t: SagaState)
    requires Follows(s, t)
    ensures Follows(s, ReleaseExecuted(t)) && Follows(s, DespatchExecuted(t))
  {
  }

  lemma HoldExecutionFollows(s: SagaState, t: SagaState, d: Decision)
    requires SagaInv(t) && Follows(s, t) && t.holdRow != NoRow
    ensures Follows(s, HoldExecuted(t, d))
  {
  }

  lemma CreditExecutionFollows(s: SagaState, t: SagaState)
    requires Follows(s, t)
    ensures Follows(s, IssueExecuted(t)) && Follows(s, RefundExecuted(t)) && Follows(s, PaymentRegistered(t))
  {
  }

  lemma OperatorFollows(s: SagaState, t: SagaState)
    requires Follows(s, t)
    ensures Follows(s, StatusRead(t)) && Follows(s, CancelEnqueued(t))
  {
  }

  lemma NothingFollows(s: SagaState, t: SagaState)
    requires Follows(s, t)
    ensures Follows(s, CancelledDirect(t)) && Follows(s, PlacedDelivery(t))
  {
  }

  lemma StepFollows(s: SagaState, t: SagaState, m: SagaMove)
    requires SagaInv(t) && Follows(s, t)
    ensures Follows(s, Step(t, m))
  {
    OperatorFollows(s, t);
    NothingFollows(s, t);
    if Enabled(t, m) {
      match m
      case DeliverPlaced =>
      case DeliverStock => StockDeliveryFollows(s, t);
      case DeliverCredit => CreditDeliveryFollows(s, t);
      case ExecReserve(d) => ReserveExecutionFollows(s, t, d);
      case ExecRelease => StockExecutionFollows(s, t);
      case ExecDespatch => StockExecutionFollows(s, t);
      case ExecHold(d) => HoldExecutionFollows(s, t, d);
      case ExecIssue => CreditExecutionFollows(s, t);
      case ExecReleaseCredit => CreditExecutionFollows(s, t);
      case Pay => CreditExecutionFollows(s, t);
      case _ =>
    }
  }

  /** Nothing asks for the reserved stock of the cancelled order, or its credit. */
  predicate StockLeftHeld(s: SagaState) {
    s.status == Cancelled && s.stock == StockHeld && s.releaseRow == NoRow && s.despatchRow == NoRow
  }

  predicate CreditLeftHeld(s: SagaState) {
    && s.status == Cancelled && s.positive
    && s.credit == CreditHeld && s.refundRow == NoRow && s.invoiceRow == NoRow && s.creditSeen > s.refusals.credit
  }

  /** Both stay so while only duties are carried out. */
  predicate LeftHeld(s: SagaState, t: SagaState) {
    (StockLeftHeld(s) ==> StockLeftHeld(t)) && (CreditLeftHeld(s) ==> CreditLeftHeld(t))
  }

  lemma StockDeliveryLeavesHeld(s: SagaState)
    requires StockPending(s)
    ensures LeftHeld(s, StockAcknowledged(s, React(s, StockEventAt(s, s.stockSeen))))
  {
    if s.status == Cancelled {
      StockEventsAreIgnored(s);
    }
  }

  lemma CreditDeliveryLeavesHeld(s: SagaState)
    requires CreditPending(s)
    ensures LeftHeld(s, CreditAcknowledged(s, React(s, CreditEventAt(s, s.creditSeen))))
  {
    if s.status == Cancelled {
      if s.creditSeen == s.refusals.credit {
        CancelledReacts(s, CreditEventAt(s, s.creditSeen));
      } else {
        OtherCreditEventsAreIgnored(s);
      }
    }
  }

  lemma ReserveExecutionLeavesHeld(s: SagaState, d: Decision)
    ensures LeftHeld(s, ReserveExecuted(s, d))
  {
    if s.stock == StockUntouched {
      match d
      case Accept =>
      case Decline =>
      case NoDecision =>
    }
  }

  lemma StockExecutionsLeaveHeld(s: SagaState)
    ensures s.releaseRow != NoRow ==> LeftHeld(s, ReleaseExecuted(s))
    ensures s.despatchRow != NoRow ==> LeftHeld(s, DespatchExecuted(s))
  {
  }

  lemma HoldExecutionLeavesHeld(s: SagaState, d: Decision)
    ensures LeftHeld(s, HoldExecuted(s, d))
  {
    if s.credit == CreditUntouched {
      match d
      case Accept =>
      case Decline =>
      case NoDecision =>
    }
  }

  lemma CreditExecutionsLeaveHeld(s: SagaState)
    ensures s.invoiceRow != NoRow ==> LeftHeld(s, IssueExecuted(s))
    ensures s.refundRow != NoRow ==> LeftHeld(s, RefundExecuted(s))
  {
  }

  lemma DutyLeavesHeld(s: SagaState, m: SagaMove)
    requires !m.CancelRead? && !m.CancelEnqueue? && !m.CancelDirect? && !m.Pay?
    ensures LeftHeld(s, Step(s, m))
  {
    if Enabled(s, m) {
      match m
      case DeliverPlaced =>
      case DeliverStock => StockDeliveryLeavesHeld(s);
      case DeliverCredit => CreditDeliveryLeavesHeld(s);
      case ExecReserve(d) => ReserveExecutionLeavesHeld(s, d);
      case ExecRelease => StockExecutionsLeaveHeld(s);
      case ExecDespatch => StockExecutionsLeaveHeld(s);
      case ExecHold(d) => HoldExecutionLeavesHeld(s, d);
      case ExecIssue => CreditExecutionsLeaveHeld(s);
      case ExecReleaseCredit => CreditExecutionsLeaveHeld(s);
    }
  }

  // ---- At the cancellation ----

  /** What the status that the transaction re-reads says of the services. */
  lemma WhenCancelled(s: SagaState)
    requires SagaInv(s) && StatusRank(s.status) <= StatusRank(Confirmed)
    ensures var t := CancelledDirect(s);
            && SagaInv(t) && Follows(t, t)
            && (s.status == Placed ==>
                  && t.holdRow == NoRow && t.releaseRow == NoRow && t.despatchRow == NoRow
                  && (t.stock == StockUntouched || t.stock == StockHeld))
            && (s.status == StockReserved ==> ApprovalsUnwound(t) && (t.releaseRow == NoRow ==> StockLeftHeld(t)))
            && (s.status == Confirmed ==>
                t.despatchRow != NoRow && (t.positive && t.refundRow == NoRow ==> CreditLeftHeld(t)))
    ensures s.status in {Placed, StockReserved, Confirmed}
  {
  }

  // ---- At rest ----

  lemma AtRestAfterwards(s: SagaState, t: SagaState)
    requires SagaInv(t) && Follows(s, t) && Quiescent(t)
    ensures s.reserveRow == NoRow ==> t.stock != StockHeld
    ensures t.releaseRow != NoRow || t.despatchRow != NoRow ==> t.stock != StockHeld
    ensures s.holdRow == NoRow || t.refundRow != NoRow || ApprovalsUnwound(s) ==> t.credit != CreditHeld || !t.positive
  {
  }
}
