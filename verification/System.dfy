/** The three services together: many orders over shared stock and credit lines, in any interleaving. */
module System {
  import opened Kernel
  import opened OrderAggregate
  import opened OrdersService
  import opened FulfillmentTables
  import opened InvoiceAggregate
  import opened BillingTables
  import R = BillingRuns

  /** `delivered` counts the facts of each stream that Orders has acknowledged; `answered` holds the command rows
      whose responder has replied; `statusReads` what the unlocked reads of cancellations have returned. */
  datatype SystemState = SystemState(
    orders: OrdersState,
    fulfillment: FulfillmentState,
    billing: R.BillingRun,
    delivered: map<(Producer, OrderId), nat>,
    answered: set<(OrderId, CommandKind)>,
    statusReads: set<(OrderId, OrderStatus)>)

  datatype SystemStep =
    | PlaceOrder(order: OrderId, lines: seq<OrderLine>, currency: CurrencyCode, credit: CreditId)
    | Deliver(producer: Producer, order: OrderId, position: nat)
    | Execute(order: OrderId, kind: CommandKind, decision: CreditDecision)
    | ReadStatus(order: OrderId)
    | CancelAfterRead(order: OrderId, observed: OrderStatus)
    | ReadPayment(ref: PaymentReference, order: OrderId)
    | CommitPayment(ref: PaymentReference, seen: InvoiceSnapshot, paid: Money)
    | Replenish(stockLines: seq<ReserveLine>)

  function Offset(y: SystemState, p: Producer, o: OrderId): nat {
    if (p, o) in y.delivered then y.delivered[(p, o)] else 0
  }

  function StreamAt(y: SystemState, p: Producer, o: OrderId): seq<Fact> {
    match p
    case Orders => StreamOf(y.orders.outbox, o)
    case Fulfillment => StreamOf(y.fulfillment.outbox, o)
    case Billing => StreamOf(y.billing.state.outbox, o)
  }

  /** A new order commits with its `order.placed` fact; an invalid one, or a repeated id, is refused. */
  function Placing(y: SystemState, o: OrderId, lines: seq<OrderLine>, currency: CurrencyCode,
                   credit: CreditId): SystemState {
    if o in y.orders.orders || lines == [] || !LineCurrenciesAgree(lines, currency) || NetOf(lines) < 0 then y
    else
      y.(orders := y.orders.(orders := y.orders.orders[o := OrderSnapshot(lines, currency, credit, Placed, None)],
                             outbox := Recorded(y.orders.outbox, o,
                                                [OrderPlacedFact(HeaderFor(lines, currency, credit))])))
  }

  /** FIFO per order and producer: a delivery is the next fact of its stream or one delivered before.
      A handling that throws leaves the offset, so the fact comes again. */
  function Delivering(y: SystemState, p: Producer, o: OrderId, k: nat): SystemState {
    if k > Offset(y, p, o) || k >= |StreamAt(y, p, o)| then y
    else
      var (t, outcome) := HandleFact(y.orders, Envelope(EventId(p, o, k), o, StreamAt(y, p, o)[k]));
      y.(orders := t, delivered := if k == Offset(y, p, o) && !outcome.Failed? then y.delivered[(p, o) := k + 1]
         else y.delivered)
  }

  /** A responder works on the payload of an owed row, as often as it is asked to. */
  function Executing(y: SystemState, o: OrderId, kind: CommandKind, decision: CreditDecision): SystemState {
    if (o, kind) !in y.orders.commands then y
    else
      var z := y.(answered := y.answered + {(o, kind)});
      match y.orders.commands[(o, kind)].payload
      case ReserveStockPayload(lines) => if lines == [] then y
        else z.(fulfillment := ReserveTx(y.fulfillment, o, lines).0)
      case ReleaseStockPayload(reason) => z.(fulfillment := ReleaseTx(y.fulfillment, o, reason).0)
      case CreateDespatchPayload => z.(fulfillment := DespatchTx(y.fulfillment, o).0)
      case HoldCreditPayload(c, amount) => z.(billing := R.BillingStep(y.billing, R.HoldOp(c, o, amount, decision)))
      case IssueInvoicePayload(c, currency, lines, discount) =>
        z.(billing := R.BillingStep(y.billing, R.IssueOp(c, o, currency, lines, discount)))
      case ReleaseCreditPayload(c) => z.(billing := R.BillingStep(y.billing, R.ReleaseCreditOp(c, o)))
  }

  /** The second half of an operator's cancellation, at any time after an unlocked read returned `observed`. */
  function Cancelling(y: SystemState, o: OrderId, observed: OrderStatus): SystemState {
    if (o, observed) !in y.statusReads then y
    else match PlanFor(observed)
      case Some(_) => y.(orders := CancelEnqueued(y.orders, o))
      case None => y.(orders := CancelledDirectly(y.orders, o).0)
  }

  function SystemNext(y: SystemState, step: SystemStep): SystemState {
    match step
    case PlaceOrder(o, lines, currency, credit) => Placing(y, o, lines, currency, credit)
    case Deliver(p, o, k) => Delivering(y, p, o, k)
    case Execute(o, kind, decision) => Executing(y, o, kind, decision)
    case ReadStatus(o) => if o in y.orders.orders then
      y.(statusReads := y.statusReads + {(o, y.orders.orders[o].status)}) else y
    case CancelAfterRead(o, observed) => Cancelling(y, o, observed)
    case ReadPayment(ref, o) => y.(billing := R.BillingStep(y.billing, R.PayReadOp(ref, o)))
    case CommitPayment(ref, seen, paid) => y.(billing := R.BillingStep(y.billing, R.PayCommitOp(ref, seen, paid)))
    case Replenish(lines) => y.(fulfillment := ReplenishTx(y.fulfillment, lines).0)
  }

  function RunSystem(y: SystemState, steps: seq<SystemStep>): SystemState {
    if steps == [] then y else SystemNext(RunSystem(y, steps[..|steps| - 1]), steps[|steps| - 1])
  }

  lemma RunSystemSnoc(y: SystemState, steps: seq<SystemStep>, step: SystemStep)
    ensures RunSystem(y, steps + [step]) == SystemNext(RunSystem(y, steps), step)
  {
    assert (steps + [step])[..|steps|] == steps;
  }

  lemma {:induction false} RunSystemConcat(y: SystemState, steps: seq<SystemStep>, more: seq<SystemStep>)
    ensures RunSystem(y, steps + more) == RunSystem(RunSystem(y, steps), more)
  {
    if more == [] {
      assert steps + more == steps;
    } else {
      RunSystemConcat(y, steps, more[..|more| - 1]);
      assert steps + more == (steps + more[..|more| - 1]) + [more[|more| - 1]];
      RunSystemSnoc(y, steps + more[..|more| - 1], more[|more| - 1]);
    }
  }

  /** Any stock and any credit lines, and nothing else yet. */
  ghost predicate Initial(y: SystemState) {
    && y.orders == OrdersState(map[], map[], {}, [], map[])
    && y.fulfillment == FulfillmentState(y.fulfillment.stock, map[], map[], y.fulfillment.nextDespatch, map[])
    && (forall p :: p in y.fulfillment.stock ==>
        y.fulfillment.stock[p].reservedUnits == 0 <= y.fulfillment.stock[p].units)
    && y.billing
       == R.BillingRun(BillingState(y.billing.state.credits, map[], map[], map[], y.billing.state.nextInvoice, map[]),
                       {})
    && (forall c :: c in y.billing.state.credits ==> 0 <= y.billing.state.credits[c].limit)
    && y.delivered == map[] && y.answered == {} && y.statusReads == {}
  }
}
