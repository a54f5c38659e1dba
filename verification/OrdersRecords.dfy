/** What a delivery leaves behind in Orders: the cancellation that it records, the command that it owes, and the row of
    an ignored fact. */
module OrdersRecords {
  import opened Kernel
  import opened OrderAggregate
  import opened SagaSteps
  import opened OrdersService

  // ---- Cancellations ----

  /** The reason and the compensation steps that a cancelling fact stands for. */
  predicate RecordedFor(e: Envelope, reason: CancellationReason, steps: seq<CompensationStep>) {
    match e.fact
    case StockRejectedFact(_, _) => reason == StockRejection && steps == []
    case StockReleasedFact(_, AfterCreditRejection) =>
      reason == CreditRejection && steps == [StockReleasedStep(Some(e.eventId))]
    case StockReleasedFact(_, AfterOrderCancelled) =>
      reason == OperatorCancelled && steps == [StockReleasedStep(Some(e.eventId))]
    case CreditReleasedFact(_, _, ForOrderCancelled, _) =>
      reason == OperatorCancelled && steps == [StockReleasedStep(None), CreditReleasedStep(Some(e.eventId))]
    case _ => false
  }

  /** The order was cancelled while `e` was handled, and the one fact that records it is the cause's. */
  ghost predicate CancelledWith(s: OrdersState, t: OrdersState, e: Envelope) {
    var o := e.correlationId;
    && o in s.orders && o in t.orders && s.orders[o].status != Cancelled && t.orders[o].status == Cancelled
    && exists reason, steps :: && RecordedFor(e, reason, steps) && t.orders[o].cancellationReason == Some(reason)
                               && StreamOf(t.outbox, o) == StreamOf(s.outbox, o) + [OrderCancelledFact(reason, steps)]
  }

  predicate NoCancellation(facts: seq<Fact>) {
    forall i :: 0 <= i < |facts| ==> !facts[i].OrderCancelledFact?
  }

  /** The order was not cancelled, and nothing says that it was. */
  ghost predicate NotCancelledBy(s: OrdersState, t: OrdersState, o: OrderId) {
    && o in s.orders && o in t.orders && (t.orders[o].status == Cancelled <==> s.orders[o].status == Cancelled)
    && t.orders[o].cancellationReason == s.orders[o].cancellationReason
    && exists facts :: NoCancellation(facts) && StreamOf(t.outbox, o) == StreamOf(s.outbox, o) + facts
  }

  /** A delivery cancels its order for the reason of its fact and records every release that has happened, stock first,
      the last one under the event that was delivered; a delivery that does not cancel records no cancellation. */
  lemma CancellationRecordsItsCause(s: OrdersState, e: Envelope)
    requires e.correlationId in s.orders
    ensures CancelledWith(s, HandleFact(s, e).0, e) || NotCancelledBy(s, HandleFact(s, e).0, e.correlationId)
  {
    var t, o := HandleFact(s, e).0, e.correlationId;
    if t.outbox == s.outbox && t.orders == s.orders {
      NothingRecorded(s, t, o);
    } else {
      StepForStatusIsActionOn(e.fact, s.orders[o].status);
      var step := ActionOn(e.fact, s.orders[o].status).value;
      if step.AdvanceStep? {
        AdvanceRecords(s, e, step);
      } else {
        CancelRecords(s, e, step.rule);
      }
    }
  }

  lemma NothingRecorded(s: OrdersState, t: OrdersState, o: OrderId)
    requires o in s.orders && t.orders == s.orders && t.outbox == s.outbox
    ensures NotCancelledBy(s, t, o)
  {
    assert NoCancellation([]) && StreamOf(t.outbox, o) == StreamOf(s.outbox, o) + [];
  }

  lemma AdvanceIsNoCancellation(advance: Advance, order: OrderSnapshot)
    requires Advanced(advance, order).Ok?
    ensures var change := Advanced(advance, order).value;
            && NoCancellation(change.facts) && change.order.cancellationReason == order.cancellationReason
            && (change.order.status == Cancelled <==> order.status == Cancelled)
  {
  }

  lemma AdvanceRecords(s: OrdersState, e: Envelope, step: SagaStep)
    requires e.correlationId in s.orders && step.AdvanceStep? && HandleFact(s, e).0 != s
    requires HandleFact(s, e).0.orders != s.orders || HandleFact(s, e).0.outbox != s.outbox
    requires StepForStatus(e.fact, s.orders[e.correlationId].status) == Some(step)
    ensures NotCancelledBy(s, HandleFact(s, e).0, e.correlationId)
  {
    var t, o := HandleFact(s, e).0, e.correlationId;
    var change := Advanced(step.advance, s.orders[o]).value;
    AdvanceIsNoCancellation(step.advance, s.orders[o]);
    RecordedGrows(s.outbox, o, change.facts);
    assert t.outbox == Recorded(s.outbox, o, change.facts);
  }

  lemma CancelRecords(s: OrdersState, e: Envelope, rule: CancelRule)
    requires e.correlationId in s.orders && !NeedsNoWork(e.fact) && e.eventId !in s.processed && Work(s, e).Ok?
    requires ActionOn(e.fact, s.orders[e.correlationId].status)
             == Some(CancelStep(s.orders[e.correlationId].status, rule))
    ensures CancelledWith(s, HandleFact(s, e).0, e)
  {
    var o := e.correlationId;
    StepForStatusIsActionOn(e.fact, s.orders[o].status);
    var reason := ReasonOf(rule, e).value;
    assert RecordedFor(e, reason, CompensationOf(rule, e));
  }

  /** A reason is good for an order in some status exactly when a row of the step table cancels from that status with
      that reason, or when it is the operator's and the status is not past the confirmation. */
  lemma ReasonsMatchTheTable(order: OrderSnapshot, reason: CancellationReason, steps: seq<CompensationStep>)
    ensures CancelledBy(order, reason, steps).Ok? <==>
            || (exists e: Envelope, rule ::
                  ActionOn(e.fact, order.status) == Some(CancelStep(order.status, rule))
                  && ReasonOf(rule, e) == Ok(reason))
            || (reason == OperatorCancelled && StatusRank(order.status) < StatusRank(Despatched))
  {
    if reason == StockRejection && order.status == Placed {
      var e := Envelope(EventId(Fulfillment, 0, 0), 0, StockRejectedFact([], UnknownProduct));
      assert ActionOn(e.fact, order.status) == Some(CancelStep(order.status, BecauseStockRejected))
             && ReasonOf(BecauseStockRejected, e) == Ok(reason);
    }
    if reason == CreditRejection && order.status == StockReserved {
      var e := Envelope(EventId(Fulfillment, 0, 0), 0, StockReleasedFact([], AfterCreditRejection));
      assert ActionOn(e.fact, order.status) == Some(CancelStep(order.status, FromStockRelease))
             && ReasonOf(FromStockRelease, e) == Ok(reason);
    }
  }

  /** What an operator is promised is what the cancellation will record: the releases of the plan, in its order, are the
      steps of the row that cancels from the status that was read; where no row does, the cancellation is direct. */
  lemma PlansAreWhatIsRecorded(status: OrderStatus, e: Envelope, rule: CancelRule)
    requires ActionOn(e.fact, status) == Some(CancelStep(status, rule)) && ReasonOf(rule, e) == Ok(OperatorCancelled)
    ensures PlanFor(status).Some?
    ensures var planned, recorded := PlanFor(status).value, CompensationOf(rule, e);
            && |planned| == |recorded|
            && forall i :: 0 <= i < |planned| ==>
                             (planned[i] == PlannedStockRelease <==> recorded[i].StockReleasedStep?)
                             && (planned[i] == PlannedCreditRelease <==> recorded[i].CreditReleasedStep?)
  {
  }

  lemma PlansAreForTheTable(status: OrderStatus)
    ensures PlanFor(status).Some? <==>
            exists e: Envelope, rule :: ActionOn(e.fact, status) == Some(CancelStep(status, rule))
                                        && ReasonOf(rule, e) == Ok(OperatorCancelled)
  {
    var id := EventId(Fulfillment, 0, 0);
    if status == StockReserved {
      var e := Envelope(id, 0, StockReleasedFact([], AfterOrderCancelled));
      assert ActionOn(e.fact, status) == Some(CancelStep(status, FromStockRelease))
             && ReasonOf(FromStockRelease, e) == Ok(OperatorCancelled);
    }
    if status == CreditApproved || status == Confirmed {
      var e := Envelope(id, 0, CreditReleasedFact(0, 0, ForOrderCancelled, ByRequest));
      assert ActionOn(e.fact, status) == Some(CancelStep(status, FromStockThenCreditRelease))
             && ReasonOf(FromStockThenCreditRelease, e) == Ok(OperatorCancelled);
    }
  }

  /** The answer to a direct cancellation tells what became of the order. */
  lemma DirectAnswersAreTrue(s: OrdersState, o: OrderId)
    ensures var (t, answer) := CancelledDirectly(s, o);
            match answer
            case NotFound => o !in s.orders && t == s
            case NotCancellable(status) =>
              && t == s && o in s.orders && s.orders[o].status == status
              && status in {Despatched, Invoiced, Paid, Completed, Cancelled}
            case CancelledNow(reason) =>
              && o in s.orders && o in t.orders && s.orders[o].status != Cancelled && t.orders[o].status == Cancelled
              && reason == OperatorCancelled && t.orders[o].cancellationReason == Some(reason)
              && StreamOf(t.outbox, o) == StreamOf(s.outbox, o) + [OrderCancelledFact(reason, [])]
            case CompensationPending(_, _) => false
  {
  }

  // ---- Commands and ignored facts ----

  /** The answer to a delivery names the command that is owed from now on, and no other row is new; a new row is
      triggered by the delivered fact. An ignored fact leaves one row, with the status in which the table has nothing
      for it; everything else leaves that table alone. */
  lemma OutcomesAreTrue(s: OrdersState, e: Envelope)
    ensures var (t, outcome) := HandleFact(s, e);
            && (forall key :: key in s.commands ==> key in t.commands && t.commands[key] == s.commands[key])
            && (forall key :: key in t.commands && key !in s.commands ==>
                                && outcome == Processed(Some(key.1)) && key.0 == e.correlationId
                                && t.commands[key].trigger == FactEnvelope(e))
            && (outcome.Processed? && outcome.enqueued.Some? ==>
                (e.correlationId, outcome.enqueued.value) in t.commands)
            && (outcome == Ignored <==> t.ignored != s.ignored)
            && (outcome == Ignored ==>
                  exists observed :: && t == s.(ignored := s.ignored + [IgnoredFact(e.eventId, observed)],
                                                processed := s.processed + {e.eventId})
                                     && IgnoredIn(s, e, observed))
  {
    if e.correlationId in s.orders {
      StepForStatusIsActionOn(e.fact, s.orders[e.correlationId].status);
    }
    if HandleFact(s, e).1 == Ignored {
      var observed := if e.correlationId in s.orders then Some(s.orders[e.correlationId].status) else None;
      assert IgnoredIn(s, e, observed);
    }
  }

  predicate IgnoredIn(s: OrdersState, e: Envelope, observed: Option<OrderStatus>) {
    match observed
    case None => e.correlationId !in s.orders
    case Some(status) =>
      && e.correlationId in s.orders && s.orders[e.correlationId].status == status && ActionOn(e.fact, status).None?
  }
}
