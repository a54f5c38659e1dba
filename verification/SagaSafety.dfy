/** What holds in every reachable state of one saga, and the one step that lets a cancelled order be shipped. */
module SagaSafety {
  import opened Kernel
  import opened Saga
  import opened SagaInvariant

  /** Nothing asked, nothing answered, nothing delivered. */
  predicate Untouched(s: SagaState) {
    && s.status == Placed && s.reason.None? && !s.placedSeen && !s.byOperator && !s.sawCompensating
    && s.reserveRow == NoRow && s.holdRow == NoRow && s.releaseRow == NoRow
    && s.despatchRow == NoRow && s.invoiceRow == NoRow && s.refundRow == NoRow
    && s.refusals.stock <= 0 && s.stock == StockUntouched && s.stockSeen <= 0
    && s.refusals.credit <= 0 && s.credit == CreditUntouched && s.creditSeen <= 0
  }

  lemma UntouchedKeeps(s: SagaState)
    requires Untouched(s)
    ensures SagaInv(s)
  {
  }

  lemma BeginningKeeps(reference: ReferenceData, positive: bool)
    ensures SagaInv(Begun(reference, positive)) && Begun(reference, positive).status == Placed
  {
    UntouchedKeeps(Begun(reference, positive));
  }

  lemma {:induction false} InvariantOverRuns(s: SagaState, moves: seq<SagaMove>)
    requires SagaInv(s)
    ensures SagaInv(Run(s, moves))
  {
    if moves != [] {
      InvariantOverRuns(s, moves[..|moves| - 1]);
      StepKeeps(Run(s, moves[..|moves| - 1]), moves[|moves| - 1]);
    }
  }

  // ---- Cancel against despatch ----

  /** What cancel and despatch should exclude, and do not. */
  predicate CancelledYetShipped(s: SagaState) {
    s.status == Cancelled && s.stock == StockShipped
  }

  /** The guard that the direct cancellation lacks: its re-read finds a confirmed order whose stock is not free. */
  predicate StaleDirectCancel(s: SagaState, m: SagaMove) {
    m == CancelDirect && s.sawOther && s.status == Confirmed && s.stock != StockFreed
  }

  predicate NoDespatchLeft(s: SagaState) {
    s.status == Cancelled ==> s.despatchRow == NoRow || s.stock == StockFreed
  }

  lemma NoDespatchLeftAfterStock(s: SagaState)
    requires SagaInv(s) && NoDespatchLeft(s) && StockPending(s)
    ensures NoDespatchLeft(StockAcknowledged(s, React(s, StockEventAt(s, s.stockSeen))))
  {
    StockPendingAt(s);
  }

  lemma NoDespatchLeftAfterCredit(s: SagaState)
    requires SagaInv(s) && NoDespatchLeft(s) && CreditPending(s)
    ensures NoDespatchLeft(CreditAcknowledged(s, React(s, CreditEventAt(s, s.creditSeen))))
  {
    CreditPendingAt(s);
    if s.status == Cancelled {
      CancelledAcknowledges(s);
    } else if s.status == Confirmed {
      OnlyReleasesCancel(s);
    } else {
      OtherStatusesStay(s);
    }
  }

  lemma OnlyReleasesCancel(s: SagaState)
    requires SagaInv(s) && CreditPending(s) && s.status == Confirmed
    ensures NoDespatchLeft(CreditAcknowledged(s, React(s, CreditEventAt(s, s.creditSeen))))
  {
  }

  lemma OtherStatusesStay(s: SagaState)
    requires SagaInv(s) && CreditPending(s) && s.status != Confirmed && s.status != Cancelled
    ensures CreditAcknowledged(s, React(s, CreditEventAt(s, s.creditSeen))).status != Cancelled
  {
    CreditPendingAt(s);
  }

  /** `cancelled` is terminal: a delivery is ignored, or owes the release of a late approval. */
  lemma CancelledReacts(s: SagaState, e: SagaEvent)
    requires s.status == Cancelled
    ensures React(s, e) == Ignores || React(s, e) == Acts(s.(refundRow := Owed(s.refundRow)))
  {
    match e
    case CreditApprovedEvent =>
    case _ =>
  }

  lemma LeftAsItIs(s: SagaState, r: Reaction)
    requires r == Ignores || r == Acts(s.(refundRow := Owed(s.refundRow)))
    ensures LeftAlone(s, CreditAcknowledged(s, r)) && LeftAlone(s, StockAcknowledged(s, r))
  {
  }

  lemma CancelledAcknowledges(s: SagaState)
    requires s.status == Cancelled
    ensures CreditPending(s) ==> LeftAlone(s, CreditAcknowledged(s, React(s, CreditEventAt(s, s.creditSeen))))
    ensures StockPending(s) ==> LeftAlone(s, StockAcknowledged(s, React(s, StockEventAt(s, s.stockSeen))))
  {
    if CreditPending(s) {
      CancelledReacts(s, CreditEventAt(s, s.creditSeen));
      LeftAsItIs(s, React(s, CreditEventAt(s, s.creditSeen)));
    }
    if StockPending(s) {
      CancelledReacts(s, StockEventAt(s, s.stockSeen));
      LeftAsItIs(s, React(s, StockEventAt(s, s.stockSeen)));
    }
  }

  /** The order and the phases are as before. */
  predicate LeftAlone(s: SagaState, t: SagaState) {
    SameOrder(s, t) && t.stock == s.stock && t.despatchRow == s.despatchRow && t.credit == s.credit
  }

  lemma NoDespatchLeftExecuted(s: SagaState, d: Decision)
    requires SagaInv(s) && NoDespatchLeft(s)
    ensures s.reserveRow != NoRow ==> NoDespatchLeft(ReserveExecuted(s, d))
    ensures NoDespatchLeft(ReleaseExecuted(s))
    ensures s.despatchRow != NoRow ==> NoDespatchLeft(DespatchExecuted(s))
  {
  }

  lemma NoDespatchLeftElsewhere(s: SagaState, d: Decision)
    requires NoDespatchLeft(s)
    ensures NoDespatchLeft(HoldExecuted(s, d)) && NoDespatchLeft(IssueExecuted(s)) && NoDespatchLeft(RefundExecuted(s))
    ensures NoDespatchLeft(PaymentRegistered(s)) && NoDespatchLeft(StatusRead(s)) && NoDespatchLeft(CancelEnqueued(s))
  {
  }

  lemma NoDespatchLeftCancelled(s: SagaState)
    requires SagaInv(s) && NoDespatchLeft(s) && (s.status == Confirmed ==> s.stock == StockFreed)
    ensures NoDespatchLeft(CancelledDirect(s))
  {
  }

  lemma NoDespatchLeftStep(s: SagaState, m: SagaMove)
    requires SagaInv(s) && NoDespatchLeft(s) && !StaleDirectCancel(s, m)
    ensures NoDespatchLeft(Step(s, m))
  {
    if Enabled(s, m) {
      match m
      case DeliverPlaced =>
      case DeliverStock => NoDespatchLeftAfterStock(s);
      case DeliverCredit => NoDespatchLeftAfterCredit(s);
      case ExecReserve(d) => NoDespatchLeftExecuted(s, d);
      case ExecRelease => NoDespatchLeftExecuted(s, Accept);
      case ExecDespatch => NoDespatchLeftExecuted(s, Accept);
      case ExecHold(d) => NoDespatchLeftElsewhere(s, d);
      case CancelDirect => NoDespatchLeftCancelled(s);
      case _ => NoDespatchLeftElsewhere(s, Accept);
    }
  }

  predicate SomeStaleDirectCancel(s: SagaState, moves: seq<SagaMove>) {
    exists i :: 0 <= i < |moves| && StaleDirectCancel(Run(s, moves[..i]), moves[i])
  }

  /** Only such a step opens the door: a run without one never ships a cancelled order. */
  lemma {:induction false} ExclusionOverRuns(s: SagaState, moves: seq<SagaMove>)
    requires SagaInv(s) && NoDespatchLeft(s) && !SomeStaleDirectCancel(s, moves)
    ensures NoDespatchLeft(Run(s, moves)) && !CancelledYetShipped(Run(s, moves))
  {
    InvariantOverRuns(s, moves);
    if moves != [] {
      var init := moves[..|moves| - 1];
      forall i | 0 <= i < |init| ensures !StaleDirectCancel(Run(s, init[..i]), init[i]) {
        assert init[..i] == moves[..i] && init[i] == moves[i];
      }
      ExclusionOverRuns(s, init);
      InvariantOverRuns(s, init);
      assert !StaleDirectCancel(Run(s, moves[..|moves| - 1]), moves[|moves| - 1]);
      NoDespatchLeftStep(Run(s, init), moves[|moves| - 1]);
    }
  }

  /** `cancelled` is terminal. */
  lemma CancelledForGood(s: SagaState, m: SagaMove)
    requires s.status == Cancelled
    ensures Step(s, m).status == Cancelled && Step(s, m).reason == s.reason
  {
    CancelledAcknowledges(s);
    if Enabled(s, m) {
      match m
      case DeliverStock =>
      case DeliverCredit =>
      case _ =>
    }
  }

  // ---- The first steps of an accepted order, computed ----

  lemma StepPlaced(s: SagaState) returns (t: SagaState)
    requires s.status == Placed && !s.placedSeen && s.reserveRow == NoRow
    ensures t == Step(s, DeliverPlaced) == s.(placedSeen := true, reserveRow := Pending)
  {
    t := PlacedDelivery(s);
  }

  lemma StepReserve(s: SagaState) returns (t: SagaState)
    requires s.reserveRow == Pending && s.stock == StockUntouched
    ensures t == Step(s, ExecReserve(Accept)) == s.(reserveRow := Answered, stock := StockHeld)
  {
    t := ReserveExecuted(s, Accept);
  }

  lemma StepReserved(s: SagaState) returns (t: SagaState)
    requires s.status == Placed && s.stock == StockHeld && s.refusals.stock == 0 && s.stockSeen == 0
             && s.holdRow == NoRow
    ensures t == Step(s, DeliverStock) == s.(status := StockReserved, holdRow := Pending, stockSeen := 1)
  {
    t := StockAcknowledged(s, OnStockReserved(s));
  }

  lemma StepHold(s: SagaState) returns (t: SagaState)
    requires s.holdRow == Pending && s.credit == CreditUntouched
    ensures t == Step(s, ExecHold(Accept)) == s.(holdRow := Answered, credit := CreditHeld)
  {
    t := HoldExecuted(s, Accept);
  }

  lemma StepApproved(s: SagaState) returns (t: SagaState)
    requires s.status == StockReserved && s.credit == CreditHeld && s.refusals.credit == 0 && s.creditSeen == 0
    requires !s.byOperator && s.despatchRow == NoRow
    ensures t == Step(s, DeliverCredit) == s.(status := Confirmed, despatchRow := Pending, creditSeen := 1)
  {
    t := CreditAcknowledged(s, OnCreditApproved(s));
  }
}
