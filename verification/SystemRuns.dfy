/** The refinement over whole runs: any number of orders, any interleaving of all the steps. */
module SystemRuns {
  import opened Kernel
  import opened OrderAggregate
  import opened OrdersService
  import opened FulfillmentInvariants
  import opened InvoiceAggregate
  import opened Stock
  import opened BillingTables
  import opened BillingInvariants
  import R = BillingRuns
  import opened Abstraction
  import S = Saga
  import I = SagaInvariant
  import T = SagaSafety
  import opened System
  import opened SystemRefinement
  import D = SystemDelivery
  import X = SystemExecution
  import M = SystemMoves

  /** A run of the saga machine, as the explanation of what the tables show for one order. */
  datatype History = History(reference: S.ReferenceData, positive: bool, moves: seq<S.SagaMove>)

  function Now(h: History): S.SagaState {
    S.Run(S.Begun(h.reference, h.positive), h.moves)
  }

  function Longer(h: History, m: Option<S.SagaMove>): History {
    if m.None? then h else h.(moves := h.moves + [m.value])
  }

  lemma LongerMoves(h: History, m: Option<S.SagaMove>)
    ensures Now(Longer(h, m)) == D.Moved(Now(h), m)
  {
    if m.Some? {
      S.RunSnoc(S.Begun(h.reference, h.positive), h.moves, m.value);
    }
  }

  lemma HistoriesKeepTheInvariant(h: History)
    ensures I.SagaInv(Now(h))
  {
    T.BeginningKeeps(h.reference, h.positive);
    T.InvariantOverRuns(S.Begun(h.reference, h.positive), h.moves);
  }

  ghost predicate TablesOk(y: SystemState) {
    ValidTables(y.fulfillment) && R.ValidRun(y.billing) && R.HoldsNonNegative(y.billing.state)
  }

  /** A placed order stands for the end of a saga run, and nothing speaks of any other. */
  ghost predicate ExplainedAt(y: SystemState, hs: map<OrderId, History>, o: OrderId) {
    if o in hs then StandsFor(y, o, Now(hs[o])) else NeverPlaced(y, o)
  }

  ghost predicate Explained(y: SystemState, hs: map<OrderId, History>) {
    forall o: OrderId :: ExplainedAt(y, hs, o)
  }

  ghost predicate SystemOk(y: SystemState, hs: map<OrderId, History>) {
    TablesOk(y) && Explained(y, hs)
  }

  // ---- One step ----

  lemma OtherExplained(y: SystemState, z: SystemState, hs: map<OrderId, History>, o: OrderId, other: OrderId,
                       hs': map<OrderId, History>)
    requires ExplainedAt(y, hs, other) && OnlyMoves(y, z, o) && other != o
    requires other in hs <==> other in hs'
    requires other in hs ==> hs'[other] == hs[other]
    ensures ExplainedAt(z, hs', other)
  {
    if other in hs {
      OtherStands(y, z, o, other, Now(hs[other]));
    } else {
      OtherNeverPlaced(y, z, o, other);
    }
  }

  lemma OneOrderMoved(y: SystemState, z: SystemState, hs: map<OrderId, History>, o: OrderId, h: History)
    requires Explained(y, hs) && OnlyMoves(y, z, o) && StandsFor(z, o, Now(h))
    ensures Explained(z, hs[o := h])
  {
    var hs' := hs[o := h];
    forall other: OrderId ensures ExplainedAt(z, hs', other) {
      assert ExplainedAt(y, hs, other);
      if other != o {
        OtherExplained(y, z, hs, o, other, hs');
      }
    }
  }

  lemma NoOrderMoved(y: SystemState, z: SystemState, hs: map<OrderId, History>)
    requires Explained(y, hs) && forall o: OrderId :: OnlyMoves(y, z, o)
    ensures Explained(z, hs)
  {
    forall o: OrderId ensures ExplainedAt(z, hs, o) {
      assert ExplainedAt(y, hs, o) && OnlyMoves(y, z, o + 1);
      OtherExplained(y, z, hs, o + 1, o, hs);
    }
  }

  /** One order moved by one step of the saga machine, or by none. */
  lemma OneOrderStepped(y: SystemState, z: SystemState, hs: map<OrderId, History>, o: OrderId, m: Option<S.SagaMove>)
    requires Explained(y, hs) && o in hs && OnlyMoves(y, z, o) && StandsFor(z, o, D.Moved(Now(hs[o]), m))
    ensures Explained(z, hs[o := Longer(hs[o], m)])
  {
    LongerMoves(hs[o], m);
    OneOrderMoved(y, z, hs, o, Longer(hs[o], m));
  }

  lemma NothingMoves(y: SystemState, o: OrderId)
    ensures OnlyMoves(y, y, o)
  {
  }

  lemma DeliveryExplained(y: SystemState, hs: map<OrderId, History>, p: Producer, o: OrderId, k: nat)
    returns (m: Option<S.SagaMove>)
    requires Explained(y, hs) && o in hs
    ensures Explained(Delivering(y, p, o, k), hs[o := Longer(hs[o], m)])
    ensures m.None? || m.value.DeliverPlaced? || m.value.DeliverStock? || m.value.DeliverCredit?
  {
    HistoriesKeepTheInvariant(hs[o]);
    assert ExplainedAt(y, hs, o);
    m := D.DeliveryRefines(y, o, Now(hs[o]), p, k);
    OneOrderStepped(y, Delivering(y, p, o, k), hs, o, m);
  }

  /** The saga move of an execution. */
  predicate ExecutesAs(kind: CommandKind, m: S.SagaMove) {
    match kind
    case ReserveStock => m.ExecReserve?
    case HoldCredit => m.ExecHold?
    case ReleaseStock => m.ExecRelease?
    case CreateDespatch => m.ExecDespatch?
    case IssueInvoice => m.ExecIssue?
    case ReleaseCredit => m.ExecReleaseCredit?
  }

  lemma ExecutionRefines(y: SystemState, o: OrderId, g: S.SagaState, kind: CommandKind, decision: CreditDecision)
    returns (m: S.SagaMove)
    requires TablesOk(y) && StandsFor(y, o, g) && (o, kind) in y.orders.commands
    ensures var z := Executing(y, o, kind, decision);
            OnlyMoves(y, z, o) && StandsFor(z, o, S.Step(g, m))
    ensures ExecutesAs(kind, m)
  {
    match kind {
      case ReserveStock => m := X.ReserveExecution(y, o, g, decision);
      case HoldCredit => m := X.HoldExecution(y, o, g, decision);
      case ReleaseStock => m := S.ExecRelease; X.ReleaseExecution(y, o, g, decision);
      case CreateDespatch => m := S.ExecDespatch; X.DespatchExecution(y, o, g, decision);
      case IssueInvoice => m := S.ExecIssue; X.IssueExecution(y, o, g, decision);
      case ReleaseCredit => m := S.ExecReleaseCredit; X.RefundExecution(y, o, g, decision);
    }
  }

  lemma ExecutionExplained(y: SystemState, hs: map<OrderId, History>, o: OrderId, kind: CommandKind,
                           decision: CreditDecision)
    returns (m: Option<S.SagaMove>)
    requires TablesOk(y) && Explained(y, hs) && o in hs
    ensures Explained(Executing(y, o, kind, decision), hs[o := Longer(hs[o], m)])
    ensures m.Some? ==> ExecutesAs(kind, m.value)
  {
    m := None;
    assert ExplainedAt(y, hs, o);
    var z := Executing(y, o, kind, decision);
    if (o, kind) in y.orders.commands {
      var move := ExecutionRefines(y, o, Now(hs[o]), kind, decision);
      m := Some(move);
    } else {
      NothingMoves(y, o);
    }
    OneOrderStepped(y, z, hs, o, m);
  }

  lemma FreedNeedsARow(h: History)
    ensures Now(h).releaseRow == S.NoRow ==> Now(h).stock != S.StockFreed
    ensures Now(h).credit != S.CreditFreedAfterInvoice
  {
    HistoriesKeepTheInvariant(h);
  }

  lemma CancelExplained(y: SystemState, hs: map<OrderId, History>, o: OrderId, observed: OrderStatus)
    returns (m: Option<S.SagaMove>)
    requires Explained(y, hs) && o in hs
    ensures Explained(Cancelling(y, o, observed), hs[o := Longer(hs[o], m)])
    ensures m == Some(S.CancelDirect) ==> PlanFor(observed).None? && (o, observed) in y.statusReads
    ensures m.None? || m.value.CancelDirect? || m.value.CancelEnqueue?
  {
    FreedNeedsARow(hs[o]);
    assert ExplainedAt(y, hs, o);
    m := M.CancelMoves(y, o, Now(hs[o]), observed);
    OneOrderStepped(y, Cancelling(y, o, observed), hs, o, m);
  }

  lemma ReadExplained(y: SystemState, hs: map<OrderId, History>, o: OrderId) returns (m: Option<S.SagaMove>)
    requires Explained(y, hs) && o in hs
    ensures Explained(SystemNext(y, ReadStatus(o)), hs[o := Longer(hs[o], m)])
    ensures m == Some(S.CancelRead)
  {
    m := Some(S.CancelRead);
    assert ExplainedAt(y, hs, o);
    M.ReadMoves(y, o, Now(hs[o]));
    M.CancelStepsAre(Now(hs[o]));
    OneOrderStepped(y, SystemNext(y, ReadStatus(o)), hs, o, m);
  }

  lemma PlacingExplained(y: SystemState, hs: map<OrderId, History>, o: OrderId, lines: seq<OrderLine>,
                         currency: CurrencyCode, credit: CreditId)
    returns (h: History)
    requires Explained(y, hs) && o !in hs && lines != [] && LineCurrenciesAgree(lines, currency) && NetOf(lines) >= 0
    ensures Explained(Placing(y, o, lines, currency, credit), hs[o := h]) && h.moves == []
  {
    assert ExplainedAt(y, hs, o);
    var z := Placing(y, o, lines, currency, credit);
    h := History(ReferenceOf(z, z.orders.orders[o]), NetOf(lines) > 0, []);
    assert Now(h) == S.Begun(h.reference, h.positive);
    M.PlacingMoves(y, o, lines, currency, credit);
    OneOrderMoved(y, z, hs, o, h);
  }

  lemma InvoicedOrdersArePlaced(y: SystemState, hs: map<OrderId, History>, o: OrderId)
    requires ExplainedAt(y, hs, o) && o in y.billing.state.invoices
    ensures o in hs && StandsFor(y, o, Now(hs[o]))
  {
  }

  lemma PaymentExplained(y: SystemState, hs: map<OrderId, History>, ref: PaymentReference, seen: InvoiceSnapshot,
                         paid: Money)
    returns (m: Option<S.SagaMove>)
    requires LinesOk(y.billing.state) && StillNames(y.billing.state, seen) && Explained(y, hs)
    ensures seen.order in hs
    ensures Explained(y.(billing := y.billing.(state := PayTx(y.billing.state, seen, ref, paid).0)),
                      hs[seen.order := Longer(hs[seen.order], m)])
    ensures m.None? || m == Some(S.Pay)
  {
    var o := seen.order;
    assert ExplainedAt(y, hs, o);
    InvoicedOrdersArePlaced(y, hs, o);
    FreedNeedsARow(hs[o]);
    m := M.PaymentMoves(y, Now(hs[o]), seen, ref, paid);
    OneOrderStepped(y, y.(billing := y.billing.(state := PayTx(y.billing.state, seen, ref, paid).0)), hs, o, m);
  }

  // ---- The tables of all orders together ----

  /** Whatever the payload, an execution keeps the tables, provided it does not hold a negative amount. */
  lemma ExecutionKeepsTables(y: SystemState, o: OrderId, kind: CommandKind, decision: CreditDecision)
    requires TablesOk(y) && (o, kind) in y.orders.commands
    requires var payload := y.orders.commands[(o, kind)].payload;
             payload.HoldCreditPayload? ==> payload.amount.amount >= 0
    ensures TablesOk(Executing(y, o, kind, decision))
  {
    match y.orders.commands[(o, kind)].payload
    case ReserveStockPayload(lines) => TransactionKeepsTables(y.fulfillment, ReserveOp(o, lines));
    case ReleaseStockPayload(reason) => TransactionKeepsTables(y.fulfillment, ReleaseOp(o, reason));
    case CreateDespatchPayload => TransactionKeepsTables(y.fulfillment, DespatchOp(o));
    case HoldCreditPayload(c, amount) => BillingKept(y.billing, R.HoldOp(c, o, amount, decision));
    case IssueInvoicePayload(c, currency, lines, discount) =>
      BillingKept(y.billing, R.IssueOp(c, o, currency, lines, discount));
    case ReleaseCreditPayload(c) => BillingKept(y.billing, R.ReleaseCreditOp(c, o));
  }

  lemma HeldAmountsAreTotals(y: SystemState, hs: map<OrderId, History>, o: OrderId, kind: CommandKind)
    requires ExplainedAt(y, hs, o) && (o, kind) in y.orders.commands
    ensures var payload := y.orders.commands[(o, kind)].payload;
            payload.HoldCreditPayload? ==> payload.amount.amount >= 0
  {
    RowsNeedOrders(y, hs, o, kind);
    X.RowPayload(y, o, Now(hs[o]), kind);
  }

  lemma RowsNeedOrders(y: SystemState, hs: map<OrderId, History>, o: OrderId, kind: CommandKind)
    requires ExplainedAt(y, hs, o)
    ensures (o, kind) in y.orders.commands ==> o in hs
  {
    if o !in hs {
      assert RowFor(y.orders.commands, o, kind).None?;
    }
  }

  lemma BillingKept(r: R.BillingRun, op: R.BillingOp)
    requires R.ValidRun(r) && R.HoldsNonNegative(r.state) && R.NonNegativeOp(op)
    ensures R.ValidRun(R.BillingStep(r, op)) && R.HoldsNonNegative(R.BillingStep(r, op).state)
  {
    R.StepKeepsRun(r, op);
    R.StepKeepsNonNegative(r, op);
  }

  lemma StepKeepsTables(y: SystemState, hs: map<OrderId, History>, step: SystemStep)
    requires SystemOk(y, hs)
    ensures TablesOk(SystemNext(y, step))
  {
    match step
    case Execute(o, kind, decision) =>
      assert ExplainedAt(y, hs, o);
      if (o, kind) in y.orders.commands {
        HeldAmountsAreTotals(y, hs, o, kind);
        ExecutionKeepsTables(y, o, kind, decision);
      }
    case ReadPayment(ref, o) => BillingKept(y.billing, R.PayReadOp(ref, o));
    case CommitPayment(ref, seen, paid) => BillingKept(y.billing, R.PayCommitOp(ref, seen, paid));
    case Replenish(lines) => TransactionKeepsTables(y.fulfillment, ReplenishOp(lines));
    case _ =>
  }

  // ---- Any step, any run ----

  /** The transaction of a cancellation whose unlocked read planned no compensation. */
  predicate CommitsDirectly(y: SystemState, step: SystemStep, o: OrderId) {
    step.CancelAfterRead? && step.order == o && (o, step.observed) in y.statusReads && PlanFor(step.observed).None?
  }

  /** The steps of the system that a move of order `o` can stand for. */
  predicate StandsForMove(y: SystemState, step: SystemStep, o: OrderId, m: S.SagaMove) {
    match m
    case CancelDirect => CommitsDirectly(y, step, o)
    case CancelEnqueue => step.CancelAfterRead? && step.order == o
    case CancelRead => step == ReadStatus(o)
    case ExecReserve(_) => step.Execute? && step.order == o && step.kind == ReserveStock
    case ExecHold(_) => step.Execute? && step.order == o && step.kind == HoldCredit
    case _ => true
  }

  /** How one system step changes the explanation of one order. */
  ghost predicate HistoryGrows(y: SystemState, step: SystemStep, hs: map<OrderId, History>, hs': map<OrderId, History>,
                               o: OrderId) {
    if o !in hs' then o !in hs
    else if o !in hs then hs'[o].moves == []
    else exists m: Option<S.SagaMove> :: hs'[o] == Longer(hs[o], m) && (m.Some? ==> StandsForMove(y, step, o, m.value))
  }

  lemma OneHistoryGrows(y: SystemState, step: SystemStep, hs: map<OrderId, History>, hs': map<OrderId, History>,
                        o: OrderId, m: Option<S.SagaMove>)
    requires o in hs && (m.Some? ==> StandsForMove(y, step, o, m.value)) && hs' == hs[o := Longer(hs[o], m)]
    ensures forall other: OrderId :: HistoryGrows(y, step, hs, hs', other)
  {
    forall other: OrderId ensures HistoryGrows(y, step, hs, hs', other) {
      if other in hs && other != o {
        assert hs'[other] == Longer(hs[other], None);
      }
    }
  }

  lemma NoHistoryGrows(y: SystemState, step: SystemStep, hs: map<OrderId, History>)
    ensures forall other: OrderId :: HistoryGrows(y, step, hs, hs, other)
  {
    forall other: OrderId ensures HistoryGrows(y, step, hs, hs, other) {
      if other in hs {
        assert hs[other] == Longer(hs[other], None);
      }
    }
  }

  lemma UnplacedStepsDoNothing(y: SystemState, hs: map<OrderId, History>, step: SystemStep)
    requires Explained(y, hs)
    ensures step.Deliver? && step.order !in hs ==> SystemNext(y, step) == y
    ensures step.Execute? && step.order !in hs ==> SystemNext(y, step) == y
    ensures step.ReadStatus? && step.order !in hs ==> SystemNext(y, step) == y
    ensures step.CancelAfterRead? && step.order !in hs ==> SystemNext(y, step) == y
  {
    if (step.Deliver? || step.Execute? || step.ReadStatus? || step.CancelAfterRead?) && step.order !in hs {
      assert ExplainedAt(y, hs, step.order);
      if step.Deliver? {
        assert StreamAt(y, step.producer, step.order) == [];
      } else if step.Execute? {
        assert RowFor(y.orders.commands, step.order, step.kind).None?;
      }
    }
  }

  lemma OrderStep(y: SystemState, hs: map<OrderId, History>, step: SystemStep, o: OrderId)
    returns (hs': map<OrderId, History>)
    requires SystemOk(y, hs) && o in hs
    requires match step
             case Deliver(_, other, _) => other == o
             case Execute(other, _, _) => other == o
             case ReadStatus(other) => other == o
             case CancelAfterRead(other, _) => other == o
             case _ => false
    ensures Explained(SystemNext(y, step), hs') && forall other: OrderId :: HistoryGrows(y, step, hs, hs', other)
  {
    var m: Option<S.SagaMove>;
    match step {
      case Deliver(p, _, k) => m := DeliveryExplained(y, hs, p, o, k);
      case Execute(_, kind, decision) => m := ExecutionExplained(y, hs, o, kind, decision);
      case ReadStatus(_) => m := ReadExplained(y, hs, o);
      case CancelAfterRead(_, observed) => m := CancelExplained(y, hs, o, observed);
    }
    hs' := hs[o := Longer(hs[o], m)];
    OneHistoryGrows(y, step, hs, hs', o, m);
  }

  lemma PlaceStep(y: SystemState, hs: map<OrderId, History>, step: SystemStep) returns (hs': map<OrderId, History>)
    requires SystemOk(y, hs) && step.PlaceOrder?
    ensures Explained(SystemNext(y, step), hs') && forall other: OrderId :: HistoryGrows(y, step, hs, hs', other)
  {
    hs' := hs;
    NoHistoryGrows(y, step, hs);
    assert ExplainedAt(y, hs, step.order);
    if step.order !in hs && step.lines != [] && LineCurrenciesAgree(step.lines, step.currency)
      && NetOf(step.lines) >= 0 {
      var h := PlacingExplained(y, hs, step.order, step.lines, step.currency, step.credit);
      hs' := hs[step.order := h];
      forall other: OrderId ensures HistoryGrows(y, step, hs, hs', other) {
        assert HistoryGrows(y, step, hs, hs, other);
      }
    }
  }

  lemma QuietStep(y: SystemState, hs: map<OrderId, History>, step: SystemStep)
    requires Explained(y, hs) && (step.ReadPayment? || step.Replenish?)
    ensures Explained(SystemNext(y, step), hs)
  {
    forall o: OrderId ensures OnlyMoves(y, SystemNext(y, step), o) {
      if step.Replenish? {
        M.ReplenishMoves(y, step.stockLines, o);
      } else {
        PreReadMoves(y, step.ref, step.order, o);
      }
    }
    NoOrderMoved(y, SystemNext(y, step), hs);
  }

  lemma PreReadMoves(y: SystemState, ref: PaymentReference, read: OrderId, o: OrderId)
    ensures OnlyMoves(y, SystemNext(y, ReadPayment(ref, read)), o)
  {
  }

  lemma PaymentStep(y: SystemState, hs: map<OrderId, History>, step: SystemStep) returns (hs': map<OrderId, History>)
    requires SystemOk(y, hs) && step.CommitPayment?
    ensures Explained(SystemNext(y, step), hs') && forall other: OrderId :: HistoryGrows(y, step, hs, hs', other)
  {
    hs' := hs;
    NoHistoryGrows(y, step, hs);
    if (step.ref, step.seen) in y.billing.preReads {
      assert StillNames(y.billing.state, (step.ref, step.seen).1);
      var m := PaymentExplained(y, hs, step.ref, step.seen, step.paid);
      hs' := hs[step.seen.order := Longer(hs[step.seen.order], m)];
      OneHistoryGrows(y, step, hs, hs', step.seen.order, m);
    }
  }

  /** One step of the composed system is at most one step of the saga machine, for one order. */
  lemma SystemStepExplained(y: SystemState, hs: map<OrderId, History>, step: SystemStep)
    returns (hs': map<OrderId, History>)
    requires SystemOk(y, hs)
    ensures SystemOk(SystemNext(y, step), hs')
    ensures forall o: OrderId :: HistoryGrows(y, step, hs, hs', o)
  {
    StepKeepsTables(y, hs, step);
    UnplacedStepsDoNothing(y, hs, step);
    if step.PlaceOrder? {
      hs' := PlaceStep(y, hs, step);
    } else if step.CommitPayment? {
      hs' := PaymentStep(y, hs, step);
    } else if step.ReadPayment? || step.Replenish? {
      hs' := hs;
      QuietStep(y, hs, step);
      NoHistoryGrows(y, step, hs);
    } else if step.order in hs {
      hs' := OrderStep(y, hs, step, step.order);
    } else {
      hs' := hs;
      NoHistoryGrows(y, step, hs);
    }
  }

  lemma InitialIsOk(y: SystemState)
    requires Initial(y)
    ensures SystemOk(y, map[])
  {
    forall p | p in y.fulfillment.stock ensures TotalWith(y.fulfillment.reservations, p, Reserved) == 0 {
      NoTermsNoTotal(y.fulfillment.reservations, p, Reserved);
    }
    assert forall c :: LedgerOf(y.billing.state, c) == [];
    assert forall c: CreditId, o: OrderId :: OrderEntries(y.billing.state, c, o) == [];
    forall o: OrderId ensures ExplainedAt(y, map[], o) {
      assert forall p: Producer :: StreamAt(y, p, o) == [];
    }
  }

  /** Refinement: after any steps, from any stock and credit lines, every order's part of all the tables is what some
      run of the saga machine says, and the tables of all orders together are in order. */
  lemma {:induction false} SystemRefinesSagas(y: SystemState, steps: seq<SystemStep>)
    returns (hs: map<OrderId, History>)
    requires Initial(y)
    ensures SystemOk(RunSystem(y, steps), hs)
  {
    if steps == [] {
      hs := map[];
      InitialIsOk(y);
    } else {
      var before := SystemRefinesSagas(y, steps[..|steps| - 1]);
      hs := SystemStepExplained(RunSystem(y, steps[..|steps| - 1]), before, steps[|steps| - 1]);
    }
  }
}
