/** The orchestrator: the fact handler and the operator's cancellation, over the orders store. */
module OrdersService {
  import opened Kernel
  import opened OrderAggregate
  import opened SagaSteps

  /** The envelope a command row keeps: a real fact, or the synthetic one of an operator cancellation. */
  datatype TriggeringEnvelope = OperatorCancelRequested(requestedFor: OrderId) | FactEnvelope(envelope: Envelope)

  function IsOperatorCancelEnvelope(t: Option<TriggeringEnvelope>): bool {
    t.Some? && t.value.OperatorCancelRequested?
  }

  datatype CommandRow = CommandRow(payload: CommandPayload, trigger: TriggeringEnvelope)

  type CommandTable = map<(OrderId, CommandKind), CommandRow>

  datatype IgnoredFact = IgnoredFact(eventId: EventId, observed: Option<OrderStatus>)

  datatype OrdersState = OrdersState(
    orders: map<OrderId, OrderSnapshot>,
    commands: CommandTable,
    processed: set<EventId>,
    ignored: seq<IgnoredFact>,
    outbox: Outbox)

  datatype HandleOutcome =
    | Processed(enqueued: Option<CommandKind>)
    | Duplicate
    | Ignored
    | Failed(error: StepError)

  ghost predicate ValidStore(s: OrdersState) {
    forall o :: o in s.orders ==> ValidSnapshot(s.orders[o])
  }

  /** Idempotent on `(order, command)`: an existing row is left exactly as it is. */
  function Enqueued(commands: CommandTable, o: OrderId, kind: CommandKind, row: CommandRow): CommandTable {
    if (o, kind) in commands then commands else commands[(o, kind) := row]
  }

  function RowAt(commands: CommandTable, o: OrderId, kind: CommandKind): Option<TriggeringEnvelope> {
    if (o, kind) in commands then Some(commands[(o, kind)].trigger) else None
  }

  function HasAcceptedOperatorCancel(commands: CommandTable, o: OrderId): bool {
    IsOperatorCancelEnvelope(RowAt(commands, o, ReleaseStock))
      || IsOperatorCancelEnvelope(RowAt(commands, o, ReleaseCredit))
  }

  /** An approval that arrives after an operator cancellation was accepted. */
  function LateForAcceptedCancel(s: OrdersState, o: OrderId): bool
    requires o in s.orders
  {
    if s.orders[o].status == Cancelled then s.orders[o].cancellationReason == Some(OperatorCancelled)
    else s.orders[o].status == StockReserved && HasAcceptedOperatorCancel(s.commands, o)
  }

  /** The order after a step, or the error that makes the whole delivery roll back. */
  function StepChange(step: SagaStep, order: OrderSnapshot, e: Envelope): Result<Change, StepError>
    requires !step.Skip?
  {
    match step
    case AdvanceStep(_, advance, _) => Advanced(advance, order)
    case CancelStep(_, rule) =>
      match ReasonOf(rule, e)
      case Err(error) => Err(error)
      case Ok(reason) => Lifted(CancelledBy(order, reason, CompensationOf(rule, e)))
  }

  function Lifted(r: Result<Change, OrderError>): Result<Change, StepError> {
    match r
    case Ok(c) => Ok(c)
    case Err(error) => Err(OrderRefused(error))
  }

  function Advanced(advance: Advance, order: OrderSnapshot): Result<Change, StepError> {
    match advance
    case LeaveStatus => Ok(Change(order, []))
    case ReserveOrder => Lifted(Transitioned(order, StockReserved))
    case ApproveAndConfirm =>
      (match Transitioned(order, CreditApproved)
       case Err(error) => Err(OrderRefused(error))
       case Ok(approved) =>
         match Transitioned(approved.order, Confirmed)
         case Err(error) => Err(OrderRefused(error))
         case Ok(confirmed) => Ok(Change(confirmed.order, approved.facts + confirmed.facts)))
    case DespatchOrder => Lifted(Transitioned(order, Despatched))
    case InvoiceOrder => Lifted(Transitioned(order, Invoiced))
    case PayOrder => Lifted(Transitioned(order, Paid))
    case CompleteOrder => Lifted(Transitioned(order, Completed))
  }

  /** The effect of a first delivery, before the dedup row is added. */
  function Work(s: OrdersState, e: Envelope): Result<(OrdersState, HandleOutcome), StepError> {
    var o := e.correlationId;
    if o !in s.orders then
      Ok((s.(ignored := s.ignored + [IgnoredFact(e.eventId, None)]), Ignored))
    else if e.fact.CreditApprovedFact? && LateForAcceptedCancel(s, o) then
      Ok((s.(commands := Enqueued(s.commands, o, ReleaseCredit,
                                  CommandRow(ReleaseCreditPayload(s.orders[o].credit), FactEnvelope(e)))),
          Processed(Some(ReleaseCredit))))
    else match StepForStatus(e.fact, s.orders[o].status)
      case None => Ok((s.(ignored := s.ignored + [IgnoredFact(e.eventId, Some(s.orders[o].status))]), Ignored))
      case Some(step) =>
        match StepChange(step, s.orders[o], e)
        case Err(error) => Err(error)
        case Ok(change) =>
          var saved := s.(orders := s.orders[o := change.order], outbox := Recorded(s.outbox, o, change.facts));
          if step.AdvanceStep? && step.commandAfter.Some? then
            match BuildSagaCommandPayload(step.commandAfter.value, change.order, e.fact)
            case Err(error) => Err(error)
            case Ok(payload) =>
              Ok((saved.(commands :=
                         Enqueued(s.commands, o, step.commandAfter.value, CommandRow(payload, FactEnvelope(e)))),
                  Processed(step.commandAfter)))
          else Ok((saved, Processed(None)))
  }

  /** One delivery: skip, drop as a duplicate, or do the work and the dedup row in one transaction. */
  function HandleFact(s: OrdersState, e: Envelope): (OrdersState, HandleOutcome) {
    if NeedsNoWork(e.fact) then (s, Processed(None))
    else if e.eventId in s.processed then (s, Duplicate)
    else match Work(s, e)
      case Err(error) => (s, Failed(error))
      case Ok((s', outcome)) => (s'.(processed := s.processed + {e.eventId}), outcome)
  }

  // ---- The operator's cancellation ----

  datatype PlannedRelease = PlannedStockRelease | PlannedCreditRelease

  datatype CancelResult =
    | NotFound
    | NotCancellable(status: OrderStatus)
    | CompensationPending(status: OrderStatus, planned: seq<PlannedRelease>)
    | CancelledNow(reason: CancellationReason)

  /** What the unlocked read decides: `None` goes on to the direct cancellation. */
  function PlanFor(status: OrderStatus): Option<seq<PlannedRelease>> {
    if status == CreditApproved || status == Confirmed then Some([PlannedStockRelease, PlannedCreditRelease])
    else if status == StockReserved then Some([PlannedStockRelease])
    else None
  }

  function CancelEnqueued(s: OrdersState, o: OrderId): OrdersState {
    s.(commands := Enqueued(s.commands, o, ReleaseStock,
                            CommandRow(ReleaseStockPayload(AfterOrderCancelled), OperatorCancelRequested(o))))
  }

  /** The direct cancellation: a second read inside the transaction, and `Order.cancel` as the only guard. */
  function CancelledDirectly(s: OrdersState, o: OrderId): (OrdersState, CancelResult) {
    if o !in s.orders then (s, NotFound)
    else match CancelledBy(s.orders[o], OperatorCancelled, [])
      case Ok(change) => (s.(orders := s.orders[o := change.order], outbox := Recorded(s.outbox, o, change.facts)),
                          CancelledNow(OperatorCancelled))
      case Err(_) => (s, NotCancellable(s.orders[o].status))
  }

  class OrdersStore {
    var state: OrdersState

    constructor (state: OrdersState)
      ensures this.state == state
    {
      this.state := state;
    }
  }

  class SagaFactHandler {
    const store: OrdersStore

    constructor (store: OrdersStore)
      ensures this.store == store
    {
      this.store := store;
    }

    /** `apply` of an advance row: the aggregate's own command methods on the loaded order. */
    method Apply(advance: Advance, order: Order) returns (r: Result<(), StepError>)
      requires order.Valid()
      modifies order
      ensures order.Valid()
      ensures match Advanced(advance, old(order.Snapshot()))
              case Ok(c) => r.Ok? && order.Snapshot() == c.order && order.events == old(order.events) + c.facts
              case Err(error) => r == Err(error)
    {
      var outcome: Result<(), OrderError> := Ok(());
      match advance {
        case LeaveStatus =>
        case ReserveOrder => outcome := order.TransitionTo(StockReserved);
        case ApproveAndConfirm =>
          outcome := order.TransitionTo(CreditApproved);
          if outcome.Ok? {
            outcome := order.TransitionTo(Confirmed);
          }
        case DespatchOrder => outcome := order.TransitionTo(Despatched);
        case InvoiceOrder => outcome := order.TransitionTo(Invoiced);
        case PayOrder => outcome := order.TransitionTo(Paid);
        case CompleteOrder => outcome := order.TransitionTo(Completed);
      }
      return if outcome.Ok? then Ok(()) else Err(OrderRefused(outcome.error));
    }

    method Handle(e: Envelope) returns (outcome: HandleOutcome)
      requires ValidStore(store.state)
      modifies store
      ensures (store.state, outcome) == HandleFact(old(store.state), e)
      ensures ValidStore(store.state)
    {
      if NeedsNoWork(e.fact) {
        return Processed(None);
      }
      // The dedup row is inserted first; any error below leaves `store` untouched, which is the rollback.
      if e.eventId in store.state.processed {
        return Duplicate;
      }
      var s := store.state;
      var processed := s.processed + {e.eventId};
      var o := e.correlationId;
      if o !in s.orders {
        store.state := s.(ignored := s.ignored + [IgnoredFact(e.eventId, None)], processed := processed);
        return Ignored;
      }
      var loaded := Order.Reconstitute(o, s.orders[o]);
      var order := loaded.value;

      if e.fact.CreditApprovedFact? {
        var late := if order.status == Cancelled then order.cancellationReason == Some(OperatorCancelled)
                    else order.status == StockReserved && HasAcceptedOperatorCancel(s.commands, o);
        if late {
          var row := CommandRow(ReleaseCreditPayload(order.credit), FactEnvelope(e));
          store.state := s.(commands := Enqueued(s.commands, o, ReleaseCredit, row), processed := processed);
          return Processed(Some(ReleaseCredit));
        }
      }

      var selected := StepForStatus(e.fact, order.status);
      if selected.None? {
        store.state := s.(ignored := s.ignored + [IgnoredFact(e.eventId, Some(order.status))], processed := processed);
        return Ignored;
      }
      var step := selected.value;
      var commands, enqueued := s.commands, None;
      if step.AdvanceStep? {
        var applied := Apply(step.advance, order);
        if applied.Err? {
          return Failed(applied.error);
        }
        if step.commandAfter.Some? {
          var payload := BuildSagaCommandPayload(step.commandAfter.value, order.Snapshot(), e.fact);
          if payload.Err? {
            return Failed(payload.error);
          }
          commands := Enqueued(commands, o, step.commandAfter.value, CommandRow(payload.value, FactEnvelope(e)));
          enqueued := step.commandAfter;
        }
      } else {
        var reason := ReasonOf(step.rule, e);
        if reason.Err? {
          return Failed(reason.error);
        }
        var cancelled := order.Cancel(reason.value, CompensationOf(step.rule, e));
        if cancelled.Err? {
          return Failed(OrderRefused(cancelled.error));
        }
      }
      assert forall facts: seq<Fact> :: [] + facts == facts;
      store.state := s.(orders := s.orders[o := order.Snapshot()], outbox := Recorded(s.outbox, o, order.events),
                        commands := commands, processed := processed);
      return Processed(enqueued);
    }
  }

  class CancelOrderHandler {
    const store: OrdersStore

    constructor (store: OrdersStore)
      ensures this.store == store
    {
      this.store := store;
    }

    /** Everything after the unlocked read, which may be stale by the time this runs. */
    method ExecuteAfterRead(o: OrderId, observed: OrderStatus) returns (r: CancelResult)
      requires ValidStore(store.state)
      modifies store
      ensures match PlanFor(observed)
              case Some(planned) =>
                store.state == CancelEnqueued(old(store.state), o) && r == CompensationPending(observed, planned)
              case None => (store.state, r) == CancelledDirectly(old(store.state), o)
      ensures ValidStore(store.state)
    {
      if observed == CreditApproved || observed == Confirmed {
        BeginStockReleaseCompensation(o);
        return CompensationPending(observed, [PlannedStockRelease, PlannedCreditRelease]);
      }
      if observed == StockReserved {
        BeginStockReleaseCompensation(o);
        return CompensationPending(observed, [PlannedStockRelease]);
      }
      var s := store.state;
      if o !in s.orders {
        return NotFound;
      }
      var loaded := Order.Reconstitute(o, s.orders[o]);
      var order := loaded.value;
      var cancelled := order.Cancel(OperatorCancelled, []);
      if cancelled.Err? {
        return NotCancellable(order.status);
      }
      assert forall facts: seq<Fact> :: [] + facts == facts;
      store.state := s.(orders := s.orders[o := order.Snapshot()], outbox := Recorded(s.outbox, o, order.events));
      return CancelledNow(OperatorCancelled);
    }

    /** The release is owed from now on: by the row that was there, as it was, or by a new one. No other row, order or
        fact changes, and asking again would change nothing. */
    method BeginStockReleaseCompensation(o: OrderId)
      modifies store
      ensures store.state == CancelEnqueued(old(store.state), o) == CancelEnqueued(store.state, o)
      ensures (o, ReleaseStock) in store.state.commands
      ensures forall key :: key in old(store.state).commands ==>
                              key in store.state.commands && store.state.commands[key] == old(store.state).commands[key]
      ensures forall key :: key in store.state.commands && key !in old(store.state).commands ==>
                              key == (o, ReleaseStock) && HasAcceptedOperatorCancel(store.state.commands, o)
      ensures store.state.(commands := old(store.state).commands) == old(store.state)
    {
      var row := CommandRow(ReleaseStockPayload(AfterOrderCancelled), OperatorCancelRequested(o));
      store.state := store.state.(commands := Enqueued(store.state.commands, o, ReleaseStock, row));
    }
  }

  lemma StepKeepsTheLines(step: SagaStep, order: OrderSnapshot, e: Envelope)
    requires !step.Skip? && StepChange(step, order, e).Ok?
    ensures var changed := StepChange(step, order, e).value.order;
            changed == order.(status := changed.status, cancellationReason := changed.cancellationReason)
  {
  }

  /** A delivery never touches the lines, the currency or the credit line of any order. */
  lemma HandlingKeepsTheLines(s: OrdersState, e: Envelope, o: OrderId)
    requires o in s.orders
    ensures var t := HandleFact(s, e).0;
            && o in t.orders
               && t.orders[o]
                  == s.orders[o].(status := t.orders[o].status, cancellationReason := t.orders[o].cancellationReason)
  {
    if e.correlationId in s.orders {
      var step := StepForStatus(e.fact, s.orders[e.correlationId].status);
      if step.Some? && !step.value.Skip? && StepChange(step.value, s.orders[e.correlationId], e).Ok? {
        StepKeepsTheLines(step.value, s.orders[e.correlationId], e);
      }
    }
  }

  // ---- Redelivery ----

  /** After an acted-on fact, the same fact either finds no row for the new status or repeats a row that leaves the
      status. */
  lemma RepeatFindsNothingToDo(step: SagaStep, order: OrderSnapshot, e: Envelope)
    requires StepForStatus(e.fact, order.status) == Some(step) && StepChange(step, order, e).Ok?
    ensures var after := StepChange(step, order, e).value.order;
            StepForStatus(e.fact, after.status).None?
              || (after == order && step.AdvanceStep? && step.advance == LeaveStatus)
  {
    StepForStatusIsActionOn(e.fact, order.status);
    StepForStatusIsActionOn(e.fact, StepChange(step, order, e).value.order.status);
  }

  /** A fact handled again under a fresh event id, immediately afterwards, changes neither an order,
      nor a command row, nor the outbox. */
  lemma FreshRepeatChangesNothing(s: OrdersState, e: Envelope, again: EventId)
    requires e.eventId !in s.processed
    ensures var first := HandleFact(s, e).0;
            var second := HandleFact(first, e.(eventId := again)).0;
            second.orders == first.orders && second.commands == first.commands && second.outbox == first.outbox
  {
    var first := HandleFact(s, e).0;
    var o := e.correlationId;
    if !NeedsNoWork(e.fact) && o in s.orders && Work(s, e).Ok? {
      var late := e.fact.CreditApprovedFact? && LateForAcceptedCancel(s, o);
      var selected := StepForStatus(e.fact, s.orders[o].status);
      if !late && selected.Some? {
        RepeatFindsNothingToDo(selected.value, s.orders[o], e);
        RepeatKeepsTables(s, e, again, selected.value);
      }
    }
  }

  lemma RepeatKeepsTables(s: OrdersState, e: Envelope, again: EventId, step: SagaStep)
    requires e.correlationId in s.orders && !NeedsNoWork(e.fact) && e.eventId !in s.processed && Work(s, e).Ok?
    requires !(e.fact.CreditApprovedFact? && LateForAcceptedCancel(s, e.correlationId))
    requires StepForStatus(e.fact, s.orders[e.correlationId].status) == Some(step)
    requires var after := StepChange(step, s.orders[e.correlationId], e);
             after.Ok? && (StepForStatus(e.fact, after.value.order.status).None?
                           || (after.value.order == s.orders[e.correlationId] && step.AdvanceStep?
                               && step.advance == LeaveStatus))
    ensures var first := HandleFact(s, e).0;
            var second := HandleFact(first, e.(eventId := again)).0;
            second.orders == first.orders && second.commands == first.commands && second.outbox == first.outbox
  {
    var first := HandleFact(s, e).0;
    var o := e.correlationId;
    var change := StepChange(step, s.orders[o], e).value;
    assert first.orders[o] == change.order;
    if e.fact.CreditApprovedFact? {
      StepForStatusIsActionOn(e.fact, s.orders[o].status);
      assert change.order.status == Confirmed;
    }
    if change.order == s.orders[o] && step.AdvanceStep? && step.advance == LeaveStatus {
      assert change.facts == [];
      assert first.orders == s.orders[o := change.order];
      assert first.orders[o := change.order] == first.orders;
    }
  }
}
