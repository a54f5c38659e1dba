/** A measure that every effective step raises, so every run comes to rest. */
module SagaTermination {
  import opened Kernel
  import opened Saga
  import opened SagaInvariant

  function RowWeight(row: Row): nat {
    match row
    case NoRow => 0
    case Pending => 1
    case Answered => 2
  }

  function RowsWeight(s: SagaState): nat {
    RowWeight(s.reserveRow) + RowWeight(s.holdRow) + RowWeight(s.releaseRow)
    + RowWeight(s.despatchRow) + RowWeight(s.invoiceRow) + RowWeight(s.refundRow)
  }

  function Flag(b: bool): nat { if b then 1 else 0 }

  function Weight(s: SagaState): nat {
    StatusRank(s.status) + RowsWeight(s)
    + StockLength(s) + s.stockSeen + CreditLength(s) + s.creditSeen
    + Flag(s.placedSeen) + Flag(s.sawCompensating) + Flag(s.sawOther)
  }

  /** Acting on a fact never lowers the rank of the order, never takes a command row back, and touches nothing else. */
  predicate Climbs(s: SagaState, t: SagaState) {
    && StatusRank(s.status) <= StatusRank(t.status)
    && t == s.(status := t.status, reason := t.reason, reserveRow := t.reserveRow, holdRow := t.holdRow,
               releaseRow := t.releaseRow,
               despatchRow := t.despatchRow, invoiceRow := t.invoiceRow, refundRow := t.refundRow)
    && Kept(s.reserveRow, t.reserveRow) && Kept(s.holdRow, t.holdRow) && Kept(s.releaseRow, t.releaseRow)
    && Kept(s.despatchRow, t.despatchRow) && Kept(s.invoiceRow, t.invoiceRow) && Kept(s.refundRow, t.refundRow)
  }

  predicate Kept(before: Row, after: Row) {
    after == before || before == NoRow
  }

  lemma StockReactionClimbs(s: SagaState)
    ensures OnStockRejected(s).Acts? ==> Climbs(s, OnStockRejected(s).next)
    ensures OnStockReserved(s).Acts? ==> Climbs(s, OnStockReserved(s).next)
    ensures OnStockReleased(s).Acts? ==> Climbs(s, OnStockReleased(s).next)
    ensures OnDespatched(s).Acts? ==> Climbs(s, OnDespatched(s).next)
  {
  }

  lemma CreditDecisionClimbs(s: SagaState)
    ensures OnCreditRejected(s).Acts? ==> Climbs(s, OnCreditRejected(s).next)
    ensures OnCreditApproved(s).Acts? ==> Climbs(s, OnCreditApproved(s).next)
    ensures OnCancelRelease(s).Acts? ==> Climbs(s, OnCancelRelease(s).next)
  {
  }

  lemma SettlementClimbs(s: SagaState)
    ensures OnPlaced(s).Acts? ==> Climbs(s, OnPlaced(s).next)
    ensures OnInvoiced(s).Acts? ==> Climbs(s, OnInvoiced(s).next)
    ensures OnPaid(s).Acts? ==> Climbs(s, OnPaid(s).next)
    ensures OnPaymentRelease(s).Acts? ==> Climbs(s, OnPaymentRelease(s).next)
  {
  }

  lemma ReactionClimbs(s: SagaState, e: SagaEvent)
    ensures React(s, e).Acts? ==> Climbs(s, React(s, e).next)
  {
    StockReactionClimbs(s);
    CreditDecisionClimbs(s);
    SettlementClimbs(s);
  }

  lemma AcknowledgedClimbs(s: SagaState, r: Reaction)
    requires r.Acts? ==> Climbs(s, r.next)
    ensures r == Throws || (Weight(s) < Weight(StockAcknowledged(s, r)) && Weight(s) < Weight(CreditAcknowledged(s, r)))
    ensures r == Throws ==> StockAcknowledged(s, r) == s == CreditAcknowledged(s, r)
    ensures StatusRank(s.status) <= StatusRank(StockAcknowledged(s, r).status)
    ensures StatusRank(s.status) <= StatusRank(CreditAcknowledged(s, r).status)
  {
  }

  /** `t` is a real step up from `s`, or no step at all; the order's rank never falls. */
  predicate Rises(s: SagaState, t: SagaState) {
    StatusRank(s.status) <= StatusRank(t.status) && (t == s || Weight(s) < Weight(t))
  }

  lemma PlacedRises(s: SagaState)
    requires !s.placedSeen
    ensures Rises(s, PlacedDelivery(s))
  {
  }

  lemma ReserveAcceptedRises(s: SagaState)
    requires s.reserveRow != NoRow && s.stock == StockUntouched
    ensures Rises(s, ReserveExecuted(s, Accept))
  {
  }

  lemma ReserveDeclinedRises(s: SagaState)
    requires s.reserveRow != NoRow && s.stock == StockUntouched
    ensures Rises(s, ReserveExecuted(s, Decline))
  {
  }

  lemma ReserveRepeatedRises(s: SagaState, d: Decision)
    requires s.reserveRow != NoRow && (s.stock != StockUntouched || d == NoDecision)
    ensures Rises(s, ReserveExecuted(s, d))
  {
  }

  lemma ReserveRises(s: SagaState, d: Decision)
    requires s.reserveRow != NoRow
    ensures Rises(s, ReserveExecuted(s, d))
  {
    if s.stock != StockUntouched || d == NoDecision {
      ReserveRepeatedRises(s, d);
    } else if d == Accept {
      ReserveAcceptedRises(s);
    } else {
      ReserveDeclinedRises(s);
    }
  }

  lemma HoldAcceptedRises(s: SagaState)
    requires s.holdRow != NoRow && s.credit == CreditUntouched
    ensures Rises(s, HoldExecuted(s, Accept))
  {
  }

  lemma HoldDeclinedRises(s: SagaState)
    requires s.holdRow != NoRow && s.credit == CreditUntouched
    ensures Rises(s, HoldExecuted(s, Decline))
  {
  }

  lemma HoldRepeatedRises(s: SagaState, d: Decision)
    requires s.holdRow != NoRow && (s.credit != CreditUntouched || d == NoDecision)
    ensures Rises(s, HoldExecuted(s, d))
  {
  }

  lemma HoldRises(s: SagaState, d: Decision)
    requires s.holdRow != NoRow
    ensures Rises(s, HoldExecuted(s, d))
  {
    if s.credit != CreditUntouched || d == NoDecision {
      HoldRepeatedRises(s, d);
    } else if d == Accept {
      HoldAcceptedRises(s);
    } else {
      HoldDeclinedRises(s);
    }
  }

  lemma ReleaseRises(s: SagaState)
    ensures Rises(s, ReleaseExecuted(s))
  {
  }

  lemma DespatchRises(s: SagaState)
    ensures Rises(s, DespatchExecuted(s))
  {
  }

  lemma IssueRises(s: SagaState)
    ensures Rises(s, IssueExecuted(s))
  {
  }

  lemma RefundRises(s: SagaState)
    ensures Rises(s, RefundExecuted(s))
  {
  }

  lemma PaymentRises(s: SagaState)
    ensures Rises(s, PaymentRegistered(s))
  {
  }

  lemma ReadRises(s: SagaState)
    ensures Rises(s, StatusRead(s))
  {
  }

  lemma EnqueueRises(s: SagaState)
    ensures Rises(s, CancelEnqueued(s))
  {
  }

  lemma DirectCancelRises(s: SagaState)
    ensures Rises(s, CancelledDirect(s))
  {
  }

  lemma StepRises(s: SagaState, m: SagaMove)
    ensures Rises(s, Step(s, m))
  {
    if Enabled(s, m) {
      match m
      case DeliverPlaced => PlacedRises(s);
      case DeliverStock =>
        ReactionClimbs(s, StockEventAt(s, s.stockSeen));
        AcknowledgedClimbs(s, React(s, StockEventAt(s, s.stockSeen)));
      case DeliverCredit =>
        ReactionClimbs(s, CreditEventAt(s, s.creditSeen));
        AcknowledgedClimbs(s, React(s, CreditEventAt(s, s.creditSeen)));
      case ExecReserve(d) => ReserveRises(s, d);
      case ExecRelease => ReleaseRises(s);
      case ExecDespatch => DespatchRises(s);
      case ExecHold(d) => HoldRises(s, d);
      case ExecIssue => IssueRises(s);
      case ExecReleaseCredit => RefundRises(s);
      case Pay => PaymentRises(s);
      case CancelRead => ReadRises(s);
      case CancelEnqueue => EnqueueRises(s);
      case CancelDirect => DirectCancelRises(s);
    }
  }

  lemma WeightBound(s: SagaState)
    requires SagaInv(s)
    ensures Weight(s) <= 36 + 2 * s.refusals.stock + 2 * s.refusals.credit
  {
  }

  lemma BeginningWeighs(s: SagaState)
    requires s.status == Placed
    ensures Weight(s) >= 1
  {
  }
}
