/** An execution, a payment, a cancellation or a new order moves exactly one order, and as the saga machine says. */
module SystemExecution {
  import opened Kernel
  import opened SagaSteps
  import opened FulfillmentTables
  import opened FulfillmentInvariants
  import opened FulfillmentPhases
  import opened BillingTables
  import opened BillingInvariants
  import opened Abstraction
  import FS = FulfillmentSimulation
  import BS = BillingSimulation
  import S = Saga
  import opened System
  import opened SystemRefinement

  // ---- Putting the parts together again ----

  /** One row answered, everything else of the Orders view as before. */
  predicate AnswersOnly(g: S.SagaState, t: S.SagaState, kind: CommandKind) {
    && S.SameOrder(g, t) && t.positive == g.positive && t.byOperator == g.byOperator && t.reference == g.reference
    && t.sawCompensating == g.sawCompensating && t.sawOther == g.sawOther && t.placedSeen == g.placedSeen
    && t.stockSeen == g.stockSeen && t.creditSeen == g.creditSeen
    && StateOf(kind, t) == S.Answered && forall other: CommandKind :: other != kind ==>
       StateOf(other, t) == StateOf(other, g)
  }

  lemma AnsweredPart(y: SystemState, z: SystemState, o: OrderId, g: S.SagaState, t: S.SagaState, kind: CommandKind)
    requires OrdersPart(y, o, g) && StateOf(kind, g) != S.NoRow && AnswersOnly(g, t, kind)
    requires z.orders == y.orders && z.answered == y.answered + {(o, kind)} && z.statusReads == y.statusReads
    ensures OrdersPart(z, o, t)
  {
    forall k: CommandKind
      ensures RowIs(RowFor(z.orders.commands, o, k), (o, k) in z.answered,
                    PayloadOf(k, z.orders.orders[o], t.byOperator), StateOf(k, t))
    {
      assert RowIs(RowFor(y.orders.commands, o, k), (o, k) in y.answered,
                   PayloadOf(k, y.orders.orders[o], g.byOperator), StateOf(k, g));
    }
  }

  lemma AfterFulfillment(y: SystemState, z: SystemState, o: OrderId, g: S.SagaState, t: S.SagaState, kind: CommandKind)
    requires StandsFor(y, o, g) && StateOf(kind, g) != S.NoRow && AnswersOnly(g, t, kind)
    requires t.credit == g.credit && t.refusals.credit == g.refusals.credit
    requires z == y.(answered := y.answered + {(o, kind)}, fulfillment := z.fulfillment)
    requires FS.FulfillmentIs(z.fulfillment, o, y.orders.orders[o].lines, t)
             && OthersUntouched(y.fulfillment, z.fulfillment, o)
    requires z.fulfillment.stock.Keys == y.fulfillment.stock.Keys
    ensures OnlyMoves(y, z, o) && StandsFor(z, o, t)
  {
    AnsweredPart(y, z, o, g, t, kind);
    SameReference(y, z, y.orders.orders[o]);
  }

  lemma AfterBilling(y: SystemState, z: SystemState, o: OrderId, g: S.SagaState, t: S.SagaState, kind: CommandKind)
    requires StandsFor(y, o, g) && StateOf(kind, g) != S.NoRow && AnswersOnly(g, t, kind)
    requires t.stock == g.stock && t.refusals.stock == g.refusals.stock
    requires z == y.(answered := y.answered + {(o, kind)}, billing := z.billing)
    requires BS.BillingIs(z.billing.state, o, y.orders.orders[o], t)
             && BS.OnlyOrder(y.billing.state, z.billing.state, o)
    ensures OnlyMoves(y, z, o) && StandsFor(z, o, t)
  {
    AnsweredPart(y, z, o, g, t, kind);
    SameReference(y, z, y.orders.orders[o]);
  }

  // ---- Executions ----

  lemma RowPayload(y: SystemState, o: OrderId, g: S.SagaState, kind: CommandKind)
    requires OrdersPart(y, o, g)
    ensures (o, kind) in y.orders.commands <==> StateOf(kind, g) != S.NoRow
    ensures (o, kind) in y.orders.commands ==>
            y.orders.commands[(o, kind)].payload == PayloadOf(kind, y.orders.orders[o], g.byOperator)
  {
    assert RowIs(RowFor(y.orders.commands, o, kind), (o, kind) in y.answered,
                 PayloadOf(kind, y.orders.orders[o], g.byOperator), StateOf(kind, g));
  }

  lemma ReserveExecution(y: SystemState, o: OrderId, g: S.SagaState, decision: CreditDecision) returns (m: S.SagaMove)
    requires StandsFor(y, o, g) && ValidTables(y.fulfillment) && (o, ReserveStock) in y.orders.commands
    ensures m.ExecReserve? && var z := Executing(y, o, ReserveStock, decision);
            OnlyMoves(y, z, o) && StandsFor(z, o, S.Step(g, m))
  {
    RowPayload(y, o, g, ReserveStock);
    var lines := y.orders.orders[o].lines;
    FS.ReserveRefines(y.fulfillment, o, lines, g);
    TransactionKeepsTables(y.fulfillment, ReserveOp(o, ReserveLinesOf(lines)));
    var d := if g.stock == S.StockUntouched then FS.DecisionIn(ReserveTx(y.fulfillment, o, ReserveLinesOf(lines)).1)
      else S.Accept;
    m := S.ExecReserve(d);
    ReserveStepIs(g, d);
    ReserveAnswers(g, d);
    if g.stock != S.StockUntouched {
      ReserveDecidedBefore(g, d, FS.DecisionIn(ReserveTx(y.fulfillment, o, ReserveLinesOf(lines)).1));
    }
    AfterFulfillment(y, Executing(y, o, ReserveStock, decision), o, g, S.ReserveExecuted(g, d), ReserveStock);
  }

  lemma ReserveStepIs(g: S.SagaState, d: S.Decision)
    requires g.reserveRow != S.NoRow && (d == S.NoDecision ==> !g.reference.stocked)
    ensures S.Step(g, S.ExecReserve(d)) == S.ReserveExecuted(g, d)
  {
  }

  lemma ReserveAnswers(g: S.SagaState, d: S.Decision)
    ensures AnswersOnly(g, S.ReserveExecuted(g, d), ReserveStock)
  {
    if g.stock == S.StockUntouched {
      match d
      case Accept =>
      case Decline =>
      case NoDecision =>
    }
  }

  lemma ReserveDecidedBefore(g: S.SagaState, d: S.Decision, other: S.Decision)
    requires g.stock != S.StockUntouched
    ensures S.ReserveExecuted(g, d) == S.ReserveExecuted(g, other)
  {
  }

  lemma ReleaseExecution(y: SystemState, o: OrderId, g: S.SagaState, decision: CreditDecision)
    requires StandsFor(y, o, g) && ValidTables(y.fulfillment) && (o, ReleaseStock) in y.orders.commands
    ensures var z := Executing(y, o, ReleaseStock, decision);
            OnlyMoves(y, z, o) && StandsFor(z, o, S.Step(g, S.ExecRelease))
  {
    RowPayload(y, o, g, ReleaseStock);
    FS.ReleaseRefines(y.fulfillment, o, y.orders.orders[o].lines, g);
    TransactionKeepsTables(y.fulfillment, ReleaseOp(o, ReleaseReasonOf(g.byOperator)));
    ReleaseStepIs(g);
    AfterFulfillment(y, Executing(y, o, ReleaseStock, decision), o, g, S.ReleaseExecuted(g), ReleaseStock);
  }

  lemma ReleaseStepIs(g: S.SagaState)
    requires g.releaseRow != S.NoRow
    ensures S.Step(g, S.ExecRelease) == S.ReleaseExecuted(g) && AnswersOnly(g, S.ReleaseExecuted(g), ReleaseStock)
  {
  }

  lemma DespatchExecution(y: SystemState, o: OrderId, g: S.SagaState, decision: CreditDecision)
    requires StandsFor(y, o, g) && ValidTables(y.fulfillment) && (o, CreateDespatch) in y.orders.commands
    ensures var z := Executing(y, o, CreateDespatch, decision);
            OnlyMoves(y, z, o) && StandsFor(z, o, S.Step(g, S.ExecDespatch))
  {
    RowPayload(y, o, g, CreateDespatch);
    FS.DespatchRefines(y.fulfillment, o, y.orders.orders[o].lines, g);
    TransactionKeepsTables(y.fulfillment, DespatchOp(o));
    DespatchStepIs(g);
    AfterFulfillment(y, Executing(y, o, CreateDespatch, decision), o, g, S.DespatchExecuted(g), CreateDespatch);
  }

  lemma DespatchStepIs(g: S.SagaState)
    requires g.despatchRow != S.NoRow
    ensures S.Step(g, S.ExecDespatch) == S.DespatchExecuted(g) && AnswersOnly(g, S.DespatchExecuted(g), CreateDespatch)
  {
  }

  lemma HoldExecution(y: SystemState, o: OrderId, g: S.SagaState, decision: CreditDecision) returns (m: S.SagaMove)
    requires StandsFor(y, o, g) && LinesOk(y.billing.state) && (o, HoldCredit) in y.orders.commands
    ensures m.ExecHold? && var z := Executing(y, o, HoldCredit, decision);
            OnlyMoves(y, z, o) && StandsFor(z, o, S.Step(g, m))
  {
    RowPayload(y, o, g, HoldCredit);
    var d := HoldDecision(y, o, g, decision);
    m := S.ExecHold(d);
    HoldStepIs(g, d);
    HoldAnswers(g, d);
    AfterBilling(y, Executing(y, o, HoldCredit, decision), o, g, S.HoldExecuted(g, d), HoldCredit);
  }

  /** The decision that a hold request comes to, as far as the saga can tell. */
  lemma HoldDecision(y: SystemState, o: OrderId, g: S.SagaState, decision: CreditDecision) returns (d: S.Decision)
    requires StandsFor(y, o, g) && LinesOk(y.billing.state)
    ensures d == S.NoDecision ==> !g.reference.creditable
    ensures var order := y.orders.orders[o];
            var t := HoldTx(y.billing.state, order.credit, o, BS.AmountOf(order), decision).0;
            BS.BillingIs(t, o, order, S.HoldExecuted(g, d)) && BS.OnlyOrder(y.billing.state, t, o)
  {
    var order := y.orders.orders[o];
    BS.HoldRefines(y.billing.state, o, order, g, decision);
    d := BS.DecisionIn(HoldTx(y.billing.state, order.credit, o, BS.AmountOf(order), decision).1);
    if g.credit != S.CreditUntouched {
      HoldDecidedBefore(g, d, S.Accept);
      d := S.Accept;
    }
  }

  lemma HoldStepIs(g: S.SagaState, d: S.Decision)
    requires g.holdRow != S.NoRow && (d == S.NoDecision ==> !g.reference.creditable)
    ensures S.Step(g, S.ExecHold(d)) == S.HoldExecuted(g, d)
  {
  }

  lemma HoldAnswers(g: S.SagaState, d: S.Decision)
    ensures AnswersOnly(g, S.HoldExecuted(g, d), HoldCredit)
  {
    if g.credit == S.CreditUntouched {
      match d
      case Accept =>
      case Decline =>
      case NoDecision =>
    }
  }

  lemma HoldDecidedBefore(g: S.SagaState, d: S.Decision, other: S.Decision)
    requires g.credit != S.CreditUntouched
    ensures S.HoldExecuted(g, d) == S.HoldExecuted(g, other)
  {
  }

  lemma IssueExecution(y: SystemState, o: OrderId, g: S.SagaState, decision: CreditDecision)
    requires StandsFor(y, o, g) && LinesOk(y.billing.state) && (o, IssueInvoice) in y.orders.commands
    ensures var z := Executing(y, o, IssueInvoice, decision);
            OnlyMoves(y, z, o) && StandsFor(z, o, S.Step(g, S.ExecIssue))
  {
    RowPayload(y, o, g, IssueInvoice);
    BS.IssueRefines(y.billing.state, o, y.orders.orders[o], g);
    IssueStepIs(g);
    AfterBilling(y, Executing(y, o, IssueInvoice, decision), o, g, S.IssueExecuted(g), IssueInvoice);
  }

  lemma IssueStepIs(g: S.SagaState)
    requires g.invoiceRow != S.NoRow
    ensures S.Step(g, S.ExecIssue) == S.IssueExecuted(g) && AnswersOnly(g, S.IssueExecuted(g), IssueInvoice)
  {
  }

  lemma RefundExecution(y: SystemState, o: OrderId, g: S.SagaState, decision: CreditDecision)
    requires StandsFor(y, o, g) && LinesOk(y.billing.state) && (o, ReleaseCredit) in y.orders.commands
    ensures var z := Executing(y, o, ReleaseCredit, decision);
            OnlyMoves(y, z, o) && StandsFor(z, o, S.Step(g, S.ExecReleaseCredit))
  {
    RowPayload(y, o, g, ReleaseCredit);
    BS.RefundRefines(y.billing.state, o, y.orders.orders[o], g);
    RefundStepIs(g);
    AfterBilling(y, Executing(y, o, ReleaseCredit, decision), o, g, S.RefundExecuted(g), ReleaseCredit);
  }

  lemma RefundStepIs(g: S.SagaState)
    requires g.refundRow != S.NoRow
    ensures S.Step(g, S.ExecReleaseCredit) == S.RefundExecuted(g) && AnswersOnly(g, S.RefundExecuted(g), ReleaseCredit)
  {
  }
}
