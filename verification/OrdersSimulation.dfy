/** The fact handler does to its tables what the saga machine says, fact by fact. */
module OrdersSimulation {
  import opened Kernel
  import opened OrderAggregate
  import opened SagaSteps
  import opened OrdersService
  import opened Abstraction
  import S = Saga

  type Answers = set<(OrderId, CommandKind)>

  /** What a first delivery leaves behind: the order and its rows as the reaction says, its processed mark, no effect
      on any other order, and on its own stream exactly the fact that Table T-1 emits for the new status. */
  ghost predicate Simulates(s: OrdersState, t: OrdersState, answered: Answers, o: OrderId, e: Envelope,
                            g: S.SagaState) {
    && o in s.orders && t.orders.Keys == s.orders.Keys
    && OrderIs(t.orders[o], g) && RowsAre(t.commands, answered, o, t.orders[o], g)
    && t.orders[o] == s.orders[o].(status := t.orders[o].status, cancellationReason := t.orders[o].cancellationReason)
    && t.processed == s.processed + {e.eventId}
    && OnlyOrder(s, t, o)
    && exists facts ::
         && StreamOf(t.outbox, o) == StreamOf(s.outbox, o) + facts
         && Announces(facts, s.orders[o].status, t.orders[o].status)
  }

  ghost predicate OnlyOrder(s: OrdersState, t: OrdersState, o: OrderId) {
    && t.orders.Keys == s.orders.Keys
    && (forall other :: other in s.orders && other != o ==> t.orders[other] == s.orders[other])
    && (forall other: OrderId, kind: CommandKind :: other != o ==>
        RowFor(t.commands, other, kind) == RowFor(s.commands, other, kind))
    && (forall other :: other != o ==> StreamOf(t.outbox, other) == StreamOf(s.outbox, other))
  }

  ghost predicate Ready(s: OrdersState, answered: Answers, o: OrderId, e: Envelope, g: S.SagaState) {
    && o in s.orders && e.correlationId == o && e.eventId !in s.processed && !NeedsNoWork(e.fact)
    && OrderIs(s.orders[o], g) && RowsAre(s.commands, answered, o, s.orders[o], g)
  }

  // ---- The three ways a delivery ends ----

  lemma IgnoredDelivery(s: OrdersState, answered: Answers, o: OrderId, e: Envelope, g: S.SagaState)
    requires Ready(s, answered, o, e, g)
    requires !(e.fact.CreditApprovedFact? && LateForAcceptedCancel(s, o)) && ActionOn(e.fact, g.status).None?
    ensures HandleFact(s, e).1 == Ignored && Simulates(s, HandleFact(s, e).0, answered, o, e, g)
  {
    StepForStatusIsActionOn(e.fact, g.status);
    var t := HandleFact(s, e).0;
    assert StreamOf(t.outbox, o) == StreamOf(s.outbox, o) + [];
  }

  /** One row more, or the row that is there already. */
  lemma RowsAfterEnqueue(commands: CommandTable, answered: Answers, o: OrderId, order: OrderSnapshot, g: S.SagaState,
                         kind: CommandKind, row: CommandRow, g': S.SagaState)
    requires RowsAre(commands, answered, o, order, g)
    requires RowFor(commands, o, kind).None? ==> row.payload == PayloadOf(kind, order, g.byOperator)
    requires !row.trigger.OperatorCancelRequested?
    requires g'.byOperator == g.byOperator && StateOf(kind, g') == S.Owed(StateOf(kind, g))
    requires forall other :: other != kind ==> StateOf(other, g') == StateOf(other, g)
    requires kind == ReleaseStock ==> RowFor(commands, o, kind).Some? || !g.byOperator
    ensures RowsAre(Enqueued(commands, o, kind, row), answered, o, order, g')
    ensures forall other: OrderId, k: CommandKind :: other != o ==>
            RowFor(Enqueued(commands, o, kind, row), other, k) == RowFor(commands, other, k)
  {
    var after := Enqueued(commands, o, kind, row);
    assert RowIs(RowFor(commands, o, kind), (o, kind) in answered, PayloadOf(kind, order, g.byOperator),
                 StateOf(kind, g));
    forall k: CommandKind ensures RowIs(RowFor(after, o, k), (o, k) in answered, PayloadOf(k, order, g'.byOperator),
                                        StateOf(k, g')) {
      assert RowIs(RowFor(commands, o, k), (o, k) in answered, PayloadOf(k, order, g.byOperator), StateOf(k, g));
    }
  }

  lemma RowsIgnoreStatus(commands: CommandTable, answered: Answers, o: OrderId, order: OrderSnapshot, g: S.SagaState,
                         order': OrderSnapshot, g': S.SagaState)
    requires RowsAre(commands, answered, o, order, g)
    requires order' == order.(status := order'.status, cancellationReason := order'.cancellationReason)
    requires g'.byOperator == g.byOperator && forall k :: StateOf(k, g') == StateOf(k, g)
    ensures RowsAre(commands, answered, o, order', g')
  {
    forall k: CommandKind ensures RowIs(RowFor(commands, o, k), (o, k) in answered, PayloadOf(k, order', g'.byOperator),
                                        StateOf(k, g')) {
      assert RowIs(RowFor(commands, o, k), (o, k) in answered, PayloadOf(k, order, g.byOperator), StateOf(k, g));
      assert PayloadOf(k, order', g'.byOperator) == PayloadOf(k, order, g.byOperator);
    }
  }

  /** A row of the step table applied: the order saved, its facts recorded, and the command it owes enqueued. */
  lemma ActedDelivery(s: OrdersState, answered: Answers, o: OrderId, e: Envelope, g: S.SagaState, step: SagaStep,
                      change: Change, g': S.SagaState)
    requires Ready(s, answered, o, e, g)
    requires !(e.fact.CreditApprovedFact? && LateForAcceptedCancel(s, o)) && ActionOn(e.fact, g.status) == Some(step)
             && !step.Skip?
    requires StepChange(step, s.orders[o], e) == Ok(change) && OrderIs(change.order, g')
    requires change.order
             == s.orders[o].(status := change.order.status, cancellationReason := change.order.cancellationReason)
    requires Announces(change.facts, s.orders[o].status, change.order.status)
    requires g'.byOperator == g.byOperator
    requires if step.AdvanceStep? && step.commandAfter.Some? then Owes(s, o, e, g, step.commandAfter.value, change, g')
             else forall k :: StateOf(k, g') == StateOf(k, g)
    ensures HandleFact(s, e).1.Processed? && Simulates(s, HandleFact(s, e).0, answered, o, e, g')
  {
    StepForStatusIsActionOn(e.fact, g.status);
    var (t, outcome) := HandleFact(s, e);
    RecordedGrows(s.outbox, o, change.facts);
    if step.AdvanceStep? && step.commandAfter.Some? {
      var kind := step.commandAfter.value;
      var payload := BuildSagaCommandPayload(kind, change.order, e.fact).value;
      OwedRows(s.commands, answered, o, s.orders[o], g, kind, CommandRow(payload, FactEnvelope(e)), change.order, g');
    } else {
      RowsIgnoreStatus(s.commands, answered, o, s.orders[o], g, change.order, g');
    }
  }

  predicate Owes(s: OrdersState, o: OrderId, e: Envelope, g: S.SagaState, kind: CommandKind, change: Change,
                 g': S.SagaState) {
    var payload := BuildSagaCommandPayload(kind, change.order, e.fact);
    && payload.Ok?
    && (RowFor(s.commands, o, kind).None? ==> payload.value == PayloadOf(kind, change.order, g.byOperator))
    && StateOf(kind, g') == S.Owed(StateOf(kind, g))
    && (forall other: CommandKind | other != kind :: StateOf(other, g') == StateOf(other, g))
    && (kind == ReleaseStock ==> RowFor(s.commands, o, kind).Some? || !g.byOperator)
  }

  lemma OwedRows(commands: CommandTable, answered: Answers, o: OrderId, order: OrderSnapshot, g: S.SagaState,
                 kind: CommandKind, row: CommandRow, order': OrderSnapshot, g': S.SagaState)
    requires RowsAre(commands, answered, o, order, g)
    requires order' == order.(status := order'.status, cancellationReason := order'.cancellationReason)
    requires RowFor(commands, o, kind).None? ==> row.payload == PayloadOf(kind, order', g.byOperator)
    requires !row.trigger.OperatorCancelRequested?
    requires g'.byOperator == g.byOperator && StateOf(kind, g') == S.Owed(StateOf(kind, g))
    requires forall other :: other != kind ==> StateOf(other, g') == StateOf(other, g)
    requires kind == ReleaseStock ==> RowFor(commands, o, kind).Some? || !g.byOperator
    ensures RowsAre(Enqueued(commands, o, kind, row), answered, o, order', g')
    ensures forall other: OrderId, k: CommandKind :: other != o ==>
            RowFor(Enqueued(commands, o, kind, row), other, k) == RowFor(commands, other, k)
  {
    RowsIgnoreStatus(commands, answered, o, order, g, order', g);
    RowsAfterEnqueue(commands, answered, o, order', g, kind, row, g');
  }

  /** An approval after an accepted operator cancellation: the release is owed and the order is left alone. */
  lemma LateDelivery(s: OrdersState, answered: Answers, o: OrderId, e: Envelope, g: S.SagaState, g': S.SagaState)
    requires Ready(s, answered, o, e, g) && e.fact.CreditApprovedFact? && LateForAcceptedCancel(s, o)
    requires g' == g.(refundRow := S.Owed(g.refundRow))
    ensures HandleFact(s, e).1 == Processed(Some(ReleaseCredit)) && Simulates(s, HandleFact(s, e).0, answered, o, e, g')
  {
    var row := CommandRow(ReleaseCreditPayload(s.orders[o].credit), FactEnvelope(e));
    OwedRows(s.commands, answered, o, s.orders[o], g, ReleaseCredit, row, s.orders[o], g');
    assert StreamOf(s.outbox, o) + [] == StreamOf(s.outbox, o);
  }

  /** The evidence that the handler looks for is the saga's. */
  lemma LateIsAccepted(s: OrdersState, answered: Answers, o: OrderId, g: S.SagaState)
    requires o in s.orders && OrderIs(s.orders[o], g) && RowsAre(s.commands, answered, o, s.orders[o], g)
    ensures LateForAcceptedCancel(s, o) <==>
            (g.status == Cancelled && g.reason == Some(OperatorCancelled))
              || (g.status == StockReserved && S.AcceptedCancel(g))
    ensures g.byOperator ==> RowFor(s.commands, o, ReleaseStock).Some? && g.releaseRow != S.NoRow
  {
    assert RowIs(RowFor(s.commands, o, ReleaseStock), (o, ReleaseStock) in answered,
                 PayloadOf(ReleaseStock, s.orders[o], g.byOperator), StateOf(ReleaseStock, g));
  }

  // ---- Event by event ----

  /** The state after a reaction that does not throw, before the fact is counted as seen. */
  function After(g: S.SagaState, r: S.Reaction): S.SagaState {
    if r.Acts? then r.next else g
  }

  ghost predicate Handled(s: OrdersState, answered: Answers, o: OrderId, e: Envelope, g: S.SagaState, r: S.Reaction) {
    var (t, outcome) := HandleFact(s, e);
    && !outcome.Failed? && outcome != Duplicate && (outcome == Ignored <==> r.Ignores?)
    && Simulates(s, t, answered, o, e, After(g, r))
  }

  lemma PlacedHandled(s: OrdersState, answered: Answers, o: OrderId, e: Envelope, g: S.SagaState)
    requires Ready(s, answered, o, e, g) && e.fact.OrderPlacedFact?
    ensures Handled(s, answered, o, e, g, S.OnPlaced(g))
  {
    if g.status == Placed {
      ActedDelivery(s, answered, o, e, g, AdvanceStep(Placed, LeaveStatus, Some(ReserveStock)), Change(s.orders[o], []),
                    S.OnPlaced(g).next);
    } else {
      IgnoredDelivery(s, answered, o, e, g);
    }
  }

  lemma StockRejectedHandled(s: OrdersState, answered: Answers, o: OrderId, e: Envelope, g: S.SagaState)
    requires Ready(s, answered, o, e, g) && e.fact.StockRejectedFact?
    ensures Handled(s, answered, o, e, g, S.OnStockRejected(g))
  {
    if g.status == Placed {
      var change := CancelledBy(s.orders[o], StockRejection, []).value;
      ActedDelivery(s, answered, o, e, g, CancelStep(Placed, BecauseStockRejected), change, S.OnStockRejected(g).next);
    } else {
      IgnoredDelivery(s, answered, o, e, g);
    }
  }

  lemma StockReservedHandled(s: OrdersState, answered: Answers, o: OrderId, e: Envelope, g: S.SagaState)
    requires Ready(s, answered, o, e, g) && e.fact.StockReservedFact?
    ensures Handled(s, answered, o, e, g, S.OnStockReserved(g))
  {
    if g.status == Placed {
      var change := Change(s.orders[o].(status := StockReserved), []);
      ActedDelivery(s, answered, o, e, g, AdvanceStep(Placed, ReserveOrder, Some(HoldCredit)), change,
                    S.OnStockReserved(g).next);
    } else {
      IgnoredDelivery(s, answered, o, e, g);
    }
  }

  /** Released stock of an order whose credit is held: the credit's release is owed. */
  lemma RefundOwed(s: OrdersState, answered: Answers, o: OrderId, e: Envelope, g: S.SagaState)
    requires Ready(s, answered, o, e, g) && e.fact.StockReleasedFact?
    requires g.status == CreditApproved || g.status == Confirmed
    ensures Handled(s, answered, o, e, g, S.OnStockReleased(g))
  {
    ActedDelivery(s, answered, o, e, g, AdvanceStep(g.status, LeaveStatus, Some(ReleaseCredit)),
                  Change(s.orders[o], []), S.OnStockReleased(g).next);
  }

  lemma StockReleasedHandled(s: OrdersState, answered: Answers, o: OrderId, e: Envelope, g: S.SagaState)
    requires Ready(s, answered, o, e, g) && e.fact.StockReleasedFact?
    requires e.fact.releaseReason == ReleaseReasonOf(g.byOperator)
    ensures Handled(s, answered, o, e, g, S.OnStockReleased(g))
  {
    if g.status == StockReserved {
      var change :=
        CancelledBy(s.orders[o], MapReason(e.fact.releaseReason), [StockReleasedStep(Some(e.eventId))]).value;
      ActedDelivery(s, answered, o, e, g, CancelStep(StockReserved, FromStockRelease), change,
                    S.OnStockReleased(g).next);
    } else if g.status == CreditApproved || g.status == Confirmed {
      RefundOwed(s, answered, o, e, g);
    } else {
      IgnoredDelivery(s, answered, o, e, g);
    }
  }

  lemma DespatchedHandled(s: OrdersState, answered: Answers, o: OrderId, e: Envelope, g: S.SagaState)
    requires Ready(s, answered, o, e, g) && e.fact.OrderDespatchedFact?
    ensures Handled(s, answered, o, e, g, S.OnDespatched(g))
  {
    if g.status == Confirmed {
      var change := Change(s.orders[o].(status := Despatched), []);
      ActedDelivery(s, answered, o, e, g, AdvanceStep(Confirmed, DespatchOrder, Some(IssueInvoice)), change,
                    S.OnDespatched(g).next);
    } else {
      IgnoredDelivery(s, answered, o, e, g);
    }
  }

  lemma CreditRejectedHandled(s: OrdersState, answered: Answers, o: OrderId, e: Envelope, g: S.SagaState)
    requires Ready(s, answered, o, e, g) && e.fact.CreditRejectedFact?
    ensures Handled(s, answered, o, e, g, S.OnCreditRejected(g))
  {
    LateIsAccepted(s, answered, o, g);
    if g.status == StockReserved {
      ActedDelivery(s, answered, o, e, g, AdvanceStep(StockReserved, LeaveStatus, Some(ReleaseStock)),
                    Change(s.orders[o], []),
                    S.OnCreditRejected(g).next);
    } else {
      IgnoredDelivery(s, answered, o, e, g);
    }
  }

  lemma ConfirmedHandled(s: OrdersState, answered: Answers, o: OrderId, e: Envelope, g: S.SagaState)
    requires Ready(s, answered, o, e, g) && e.fact.CreditApprovedFact? && g.status == StockReserved
             && !LateForAcceptedCancel(s, o)
    requires !S.AcceptedCancel(g)
    ensures Handled(s, answered, o, e, g, S.OnCreditApproved(g))
  {
    var change := Change(s.orders[o].(status := Confirmed), [OrderConfirmedFact]);
    assert [] + [OrderConfirmedFact] == [OrderConfirmedFact];
    ActedDelivery(s, answered, o, e, g, AdvanceStep(StockReserved, ApproveAndConfirm, Some(CreateDespatch)), change,
                  S.OnCreditApproved(g).next);
  }

  lemma CreditApprovedHandled(s: OrdersState, answered: Answers, o: OrderId, e: Envelope, g: S.SagaState)
    requires Ready(s, answered, o, e, g) && e.fact.CreditApprovedFact?
    ensures Handled(s, answered, o, e, g, S.OnCreditApproved(g))
  {
    LateIsAccepted(s, answered, o, g);
    if LateForAcceptedCancel(s, o) {
      LateDelivery(s, answered, o, e, g, S.OnCreditApproved(g).next);
    } else if g.status == StockReserved {
      ConfirmedHandled(s, answered, o, e, g);
    } else {
      IgnoredDelivery(s, answered, o, e, g);
    }
  }

  lemma InvoicedHandled(s: OrdersState, answered: Answers, o: OrderId, e: Envelope, g: S.SagaState)
    requires Ready(s, answered, o, e, g) && e.fact.InvoiceIssuedFact?
    ensures Handled(s, answered, o, e, g, S.OnInvoiced(g))
  {
    if g.status == Despatched {
      var change := Change(s.orders[o].(status := Invoiced), []);
      ActedDelivery(s, answered, o, e, g, AdvanceStep(Despatched, InvoiceOrder, None), change, S.OnInvoiced(g).next);
    } else {
      IgnoredDelivery(s, answered, o, e, g);
    }
  }

  lemma PaidHandled(s: OrdersState, answered: Answers, o: OrderId, e: Envelope, g: S.SagaState)
    requires Ready(s, answered, o, e, g) && e.fact.PaymentReceivedFact?
    ensures Handled(s, answered, o, e, g, S.OnPaid(g))
  {
    if g.status == Invoiced {
      var change := Change(s.orders[o].(status := Paid), []);
      ActedDelivery(s, answered, o, e, g, AdvanceStep(Invoiced, PayOrder, None), change, S.OnPaid(g).next);
    } else {
      IgnoredDelivery(s, answered, o, e, g);
    }
  }

  lemma PaymentReleaseHandled(s: OrdersState, answered: Answers, o: OrderId, e: Envelope, g: S.SagaState)
    requires Ready(s, answered, o, e, g) && e.fact.CreditReleasedFact? && e.fact.creditReason == ForInvoicePaid
    requires !S.OnPaymentRelease(g).Throws?
    ensures Handled(s, answered, o, e, g, S.OnPaymentRelease(g))
  {
    if g.status == Paid {
      var change := Change(s.orders[o].(status := Completed), [OrderCompletedFact]);
      ActedDelivery(s, answered, o, e, g, AdvanceStep(Paid, CompleteOrder, None), change, S.OnPaymentRelease(g).next);
    } else {
      IgnoredDelivery(s, answered, o, e, g);
    }
  }

  /** What an unwinding after the credit's approval does to the order and to the saga. */
  lemma UnwoundMoves(order: OrderSnapshot, g: S.SagaState, steps: seq<CompensationStep>, change: Change,
                     t: S.SagaState)
    requires OrderIs(order, g) && (g.status == CreditApproved || g.status == Confirmed)
    requires CancelledBy(order, OperatorCancelled, steps) == Ok(change) && S.OnCancelRelease(g) == S.Acts(t)
    ensures OrderIs(change.order, t) && change.order == order.(status := Cancelled,
                                                               cancellationReason := change.order.cancellationReason)
    ensures change.facts == [OrderCancelledFact(OperatorCancelled, steps)]
    ensures t.byOperator == g.byOperator && forall k :: StateOf(k, t) == StateOf(k, g)
  {
  }

  lemma UnwoundHandled(s: OrdersState, answered: Answers, o: OrderId, e: Envelope, g: S.SagaState)
    requires Ready(s, answered, o, e, g) && e.fact.CreditReleasedFact? && e.fact.creditReason == ForOrderCancelled
    requires g.status == CreditApproved || g.status == Confirmed
    ensures Handled(s, answered, o, e, g, S.OnCancelRelease(g))
  {
    var steps := [StockReleasedStep(None), CreditReleasedStep(Some(e.eventId))];
    var change := CancelledBy(s.orders[o], OperatorCancelled, steps).value;
    var t := S.OnCancelRelease(g).next;
    UnwoundMoves(s.orders[o], g, steps, change, t);
    ActedDelivery(s, answered, o, e, g, CancelStep(g.status, FromStockThenCreditRelease), change, t);
  }

  lemma CancelReleaseHandled(s: OrdersState, answered: Answers, o: OrderId, e: Envelope, g: S.SagaState)
    requires Ready(s, answered, o, e, g) && e.fact.CreditReleasedFact? && e.fact.creditReason == ForOrderCancelled
    ensures Handled(s, answered, o, e, g, S.OnCancelRelease(g))
  {
    if g.status == Paid {
      var change := Change(s.orders[o].(status := Completed), [OrderCompletedFact]);
      ActedDelivery(s, answered, o, e, g, AdvanceStep(Paid, CompleteOrder, None), change, S.OnCancelRelease(g).next);
    } else if g.status == CreditApproved || g.status == Confirmed {
      UnwoundHandled(s, answered, o, e, g);
    } else {
      IgnoredDelivery(s, answered, o, e, g);
    }
  }

  /** Where the machine throws, the handler fails and changes nothing at all. */
  lemma ThrowingHandled(s: OrdersState, answered: Answers, o: OrderId, e: Envelope, g: S.SagaState, event: S.SagaEvent)
    requires Ready(s, answered, o, e, g) && IsEvent(e.fact, event) && S.React(g, event).Throws?
    ensures HandleFact(s, e).0 == s && HandleFact(s, e).1.Failed?
  {
    assert event == S.PaymentReleaseEvent;
    StepForStatusIsActionOn(e.fact, g.status);
  }

  /** The fact handler refines the saga's reaction, for every fact, every status and every command table: it fails
      without a change where the machine throws, ignores what the machine ignores, and acts as the machine acts. */
  lemma HandlingRefines(s: OrdersState, answered: Answers, o: OrderId, e: Envelope, g: S.SagaState, event: S.SagaEvent)
    requires Ready(s, answered, o, e, g) && IsEvent(e.fact, event)
    requires e.fact.StockReleasedFact? ==> e.fact.releaseReason == ReleaseReasonOf(g.byOperator)
    ensures if S.React(g, event).Throws? then HandleFact(s, e).0 == s && HandleFact(s, e).1.Failed?
            else Handled(s, answered, o, e, g, S.React(g, event))
  {
    if S.React(g, event).Throws? {
      ThrowingHandled(s, answered, o, e, g, event);
    } else {
      ReactionHandled(s, answered, o, e, g, event);
    }
  }

  /** Where the machine does not throw, event by event. */
  lemma ReactionHandled(s: OrdersState, answered: Answers, o: OrderId, e: Envelope, g: S.SagaState, event: S.SagaEvent)
    requires Ready(s, answered, o, e, g) && IsEvent(e.fact, event)
    requires !S.React(g, event).Throws?
    requires e.fact.StockReleasedFact? ==> e.fact.releaseReason == ReleaseReasonOf(g.byOperator)
    ensures Handled(s, answered, o, e, g, S.React(g, event))
  {
    match event
    case PlacedEvent => PlacedHandled(s, answered, o, e, g);
    case StockRejectedEvent => StockRejectedHandled(s, answered, o, e, g);
    case StockReservedEvent => StockReservedHandled(s, answered, o, e, g);
    case StockReleasedEvent => StockReleasedHandled(s, answered, o, e, g);
    case DespatchedEvent => DespatchedHandled(s, answered, o, e, g);
    case CreditRejectedEvent => CreditRejectedHandled(s, answered, o, e, g);
    case CreditApprovedEvent => CreditApprovedHandled(s, answered, o, e, g);
    case CancelReleaseEvent => CancelReleaseHandled(s, answered, o, e, g);
    case InvoicedEvent => InvoicedHandled(s, answered, o, e, g);
    case PaidEvent => PaidHandled(s, answered, o, e, g);
    case PaymentReleaseEvent => PaymentReleaseHandled(s, answered, o, e, g);
  }

  // ---- The operator's cancellation ----

  lemma EnqueueRefines(s: OrdersState, answered: Answers, o: OrderId, g: S.SagaState)
    requires o in s.orders && OrderIs(s.orders[o], g) && RowsAre(s.commands, answered, o, s.orders[o], g)
    ensures var t := CancelEnqueued(s, o);
            && OrderIs(t.orders[o], S.CancelEnqueued(g))
               && RowsAre(t.commands, answered, o, t.orders[o], S.CancelEnqueued(g))
            && OnlyOrder(s, t, o)
  {
    LateIsAccepted(s, answered, o, g);
    var t, g' := CancelEnqueued(s, o), S.CancelEnqueued(g);
    var order := s.orders[o];
    assert RowIs(RowFor(s.commands, o, ReleaseStock), (o, ReleaseStock) in answered,
                 PayloadOf(ReleaseStock, order, g.byOperator), StateOf(ReleaseStock, g));
    forall k: CommandKind ensures RowIs(RowFor(t.commands, o, k), (o, k) in answered,
                                        PayloadOf(k, order, g'.byOperator), StateOf(k, g')) {
      assert RowIs(RowFor(s.commands, o, k), (o, k) in answered, PayloadOf(k, order, g.byOperator), StateOf(k, g));
    }
  }

  /** The aggregate's own rules, seen from the saga. */
  lemma DirectCancelMoves(order: OrderSnapshot, g: S.SagaState)
    requires OrderIs(order, g)
    ensures var t, r := S.CancelledDirect(g), CancelledBy(order, OperatorCancelled, []);
            && (r.Ok? <==> FindTransition(order.status, Cancelled).Some?)
            && (r.Ok? ==> OrderIs(r.value.order, t) && |r.value.facts| == 1 && r.value.facts[0].OrderCancelledFact?)
            && (r.Err? ==> t == g)
            && t.byOperator == g.byOperator && forall k :: StateOf(k, t) == StateOf(k, g)
  {
  }

  lemma DirectCancelRefines(s: OrdersState, answered: Answers, o: OrderId, g: S.SagaState)
    requires o in s.orders && OrderIs(s.orders[o], g) && RowsAre(s.commands, answered, o, s.orders[o], g)
    ensures var t := CancelledDirectly(s, o).0;
            && t.orders.Keys == s.orders.Keys && OrderIs(t.orders[o], S.CancelledDirect(g))
            && t.orders[o]
               == s.orders[o].(status := t.orders[o].status, cancellationReason := t.orders[o].cancellationReason)
            && RowsAre(t.commands, answered, o, t.orders[o], S.CancelledDirect(g))
            && OnlyOrder(s, t, o) && t.processed == s.processed
            && exists facts ::
                 && StreamOf(t.outbox, o) == StreamOf(s.outbox, o) + facts
                 && Announces(facts, s.orders[o].status, t.orders[o].status)
  {
    var t := CancelledDirectly(s, o).0;
    DirectCancelMoves(s.orders[o], g);
    if FindTransition(s.orders[o].status, Cancelled).Some? {
      var change := CancelledBy(s.orders[o], OperatorCancelled, []).value;
      RecordedGrows(s.outbox, o, change.facts);
      RowsIgnoreStatus(s.commands, answered, o, s.orders[o], g, change.order, S.CancelledDirect(g));
    } else {
      assert StreamOf(t.outbox, o) == StreamOf(s.outbox, o) + [];
    }
  }
}
