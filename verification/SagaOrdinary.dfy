/** Runs without an operator cancellation in which each reserve and each hold is decided once. */
module SagaOrdinary {
  import opened Kernel
  import opened Saga
  import opened SagaInvariant

  /** No operator cancels the order, however often one reads it, and a request that was refused is not decided again. */
  predicate OrdinaryMove(s: SagaState, m: SagaMove) {
    && !m.CancelEnqueue? && !m.CancelDirect?
    && (m.ExecReserve? && m.decision != NoDecision && s.stock == StockUntouched ==> s.refusals.stock == 0)
    && (m.ExecHold? && m.decision != NoDecision && s.credit == CreditUntouched ==> s.refusals.credit == 0)
  }

  predicate OrdinaryInv(s: SagaState) {
    && !s.byOperator
    && s.refusals.stock <= 1 && (s.stock != StockUntouched ==> s.refusals.stock == 0)
    && s.refusals.credit <= 1 && (s.credit != CreditUntouched ==> s.refusals.credit == 0)
    && (s.releaseRow != NoRow ==> s.creditSeen >= 1)
    && (s.status == Cancelled ==>
          || (s.refusals.stock == 1 && s.stockSeen == 1)
          || (s.stock == StockFreed && s.stockSeen == 2 && s.refusals.credit == 1 && s.creditSeen == 1))
  }

  lemma OrdinaryStock(s: SagaState)
    requires SagaInv(s) && OrdinaryInv(s) && StockPending(s)
    ensures React(s, StockEventAt(s, s.stockSeen)).Acts?
    ensures OrdinaryInv(StockAcknowledged(s, React(s, StockEventAt(s, s.stockSeen))))
  {
    StockPendingAt(s);
    if s.status == Placed {
      OrdinaryWhilePlaced(s);
    } else if s.status == StockReserved {
      OrdinaryWhileReserved(s);
    } else {
      OrdinaryWhileConfirmed(s);
    }
  }

  lemma OrdinaryWhilePlaced(s: SagaState)
    requires SagaInv(s) && OrdinaryInv(s) && StockPending(s) && s.status == Placed
    ensures React(s, StockEventAt(s, s.stockSeen)).Acts?
    ensures OrdinaryInv(StockAcknowledged(s, React(s, StockEventAt(s, s.stockSeen))))
  {
  }

  lemma OrdinaryWhileReserved(s: SagaState)
    requires SagaInv(s) && OrdinaryInv(s) && StockPending(s) && s.status == StockReserved
    ensures React(s, StockEventAt(s, s.stockSeen)).Acts?
    ensures OrdinaryInv(StockAcknowledged(s, React(s, StockEventAt(s, s.stockSeen))))
  {
  }

  lemma OrdinaryWhileConfirmed(s: SagaState)
    requires SagaInv(s) && OrdinaryInv(s) && StockPending(s) && s.status == Confirmed
    ensures React(s, StockEventAt(s, s.stockSeen)).Acts?
    ensures OrdinaryInv(StockAcknowledged(s, React(s, StockEventAt(s, s.stockSeen))))
  {
  }

  lemma OrdinaryCreditPendingAt(s: SagaState)
    requires SagaInv(s) && OrdinaryInv(s) && CreditPending(s)
    ensures s.status == StockReserved || s.status == Despatched || s.status == Invoiced || s.status == Paid
    ensures s.status == StockReserved ==> s.creditSeen == 0
  {
  }

  lemma OrdinaryApproval(s: SagaState)
    requires SagaInv(s) && OrdinaryInv(s) && CreditPending(s) && s.status == StockReserved && s.creditSeen == 0
    ensures React(s, CreditEventAt(s, s.creditSeen)).Acts?
    ensures OrdinaryInv(CreditAcknowledged(s, React(s, CreditEventAt(s, s.creditSeen))))
  {
  }

  lemma OrdinarySettlement(s: SagaState)
    requires SagaInv(s) && OrdinaryInv(s) && CreditPending(s)
             && (s.status == Despatched || s.status == Invoiced || s.status == Paid)
    ensures React(s, CreditEventAt(s, s.creditSeen)).Acts?
    ensures OrdinaryInv(CreditAcknowledged(s, React(s, CreditEventAt(s, s.creditSeen))))
  {
  }

  lemma OrdinaryCredit(s: SagaState)
    requires SagaInv(s) && OrdinaryInv(s) && CreditPending(s)
    ensures React(s, CreditEventAt(s, s.creditSeen)).Acts?
    ensures OrdinaryInv(CreditAcknowledged(s, React(s, CreditEventAt(s, s.creditSeen))))
  {
    OrdinaryCreditPendingAt(s);
    if s.status == StockReserved {
      OrdinaryApproval(s);
    } else {
      OrdinarySettlement(s);
    }
  }

  lemma OrdinaryPlaced(s: SagaState)
    requires SagaInv(s) && OrdinaryInv(s) && !s.placedSeen
    ensures OnPlaced(s).Acts? && OrdinaryInv(PlacedDelivery(s))
  {
  }

  lemma OrdinaryReserve(s: SagaState, d: Decision)
    requires SagaInv(s) && OrdinaryInv(s) && OrdinaryMove(s, ExecReserve(d)) && s.reserveRow != NoRow
    ensures OrdinaryInv(ReserveExecuted(s, d))
  {
  }

  lemma OrdinaryHold(s: SagaState, d: Decision)
    requires SagaInv(s) && OrdinaryInv(s) && OrdinaryMove(s, ExecHold(d)) && s.holdRow != NoRow
    ensures OrdinaryInv(HoldExecuted(s, d))
  {
  }

  lemma OrdinaryElsewhere(s: SagaState)
    requires SagaInv(s) && OrdinaryInv(s)
    ensures s.releaseRow != NoRow ==> OrdinaryInv(ReleaseExecuted(s))
    ensures OrdinaryInv(DespatchExecuted(s))
    ensures OrdinaryInv(IssueExecuted(s)) && OrdinaryInv(RefundExecuted(s)) && OrdinaryInv(PaymentRegistered(s))
    ensures OrdinaryInv(StatusRead(s))
  {
  }

  lemma OrdinaryStep(s: SagaState, m: SagaMove)
    requires SagaInv(s) && OrdinaryInv(s) && OrdinaryMove(s, m)
    ensures OrdinaryInv(Step(s, m))
  {
    if Enabled(s, m) {
      match m
      case DeliverPlaced => OrdinaryPlaced(s);
      case DeliverStock => OrdinaryStock(s);
      case DeliverCredit => OrdinaryCredit(s);
      case ExecReserve(d) => OrdinaryReserve(s, d);
      case ExecHold(d) => OrdinaryHold(s, d);
      case _ => OrdinaryElsewhere(s);
    }
  }

  /** Every undelivered fact will be acted on: at its first delivery none is ignored, and none throws. */
  predicate EveryFactActs(s: SagaState) {
    && (!s.placedSeen ==> OnPlaced(s).Acts?)
    && (StockPending(s) ==> React(s, StockEventAt(s, s.stockSeen)).Acts?)
    && (CreditPending(s) ==> React(s, CreditEventAt(s, s.creditSeen)).Acts?)
  }

  /** No request meets a phase that refuses it: `stock.release` never finds consumed reservations, `despatch.create`
      never finds released ones, and `invoice.issue` always finds an active hold or its own invoice. */
  predicate NoRequestIsRefused(s: SagaState) {
    && (s.releaseRow != NoRow ==> s.stock == StockHeld || s.stock == StockFreed)
    && (s.despatchRow != NoRow ==> s.stock == StockHeld || s.stock == StockShipped)
    && (s.invoiceRow != NoRow ==> s.credit == CreditHeld || s.credit == CreditInvoiced || s.credit == CreditSettled)
  }

  lemma NothingIsRefused(s: SagaState)
    requires SagaInv(s) && OrdinaryInv(s)
    ensures NoRequestIsRefused(s)
  {
  }

  lemma OrdinaryFactsAct(s: SagaState)
    requires SagaInv(s) && OrdinaryInv(s)
    ensures EveryFactActs(s)
  {
    if !s.placedSeen {
      OrdinaryPlaced(s);
    }
    if StockPending(s) {
      OrdinaryStock(s);
    }
    if CreditPending(s) {
      OrdinaryCredit(s);
    }
  }

  lemma BeginningIsOrdinary(reference: ReferenceData, positive: bool)
    ensures OrdinaryInv(Begun(reference, positive))
  {
  }
}
