/** Concrete runs of the composed system: a cancelled order that is shipped, a cancelled order whose stock stays
    reserved, and orders of total zero that stop short. */
module SystemExample {
  import opened Kernel
  import opened OrderAggregate
  import opened SagaSteps
  import opened OrdersService
  import opened Stock
  import opened OrderStock
  import opened FulfillmentTables
  import opened FulfillmentInvariants
  import opened FulfillmentPhases
  import opened BuyerCreditAggregate
  import opened BillingTables
  import opened BillingInvariants
  import R = BillingRuns
  import opened Abstraction
  import FS = FulfillmentSimulation
  import BS = BillingSimulation
  import S = Saga
  import I = SagaInvariant
  import T = SagaSafety
  import opened System
  import opened SystemRefinement
  import D = SystemDelivery
  import X = SystemExecution
  import M = SystemMoves
  import opened SystemRuns
  import opened SystemTheorems
  import E = SystemExclusion
  import W = SystemStranding

  /** One unit of one product, at a price of zero or one minor unit. */
  function OneLine(price: nat): seq<OrderLine> {
    [OrderLine(0, 1, Money(price, 0), Money(0, 0))]
  }

  /** One unit in stock, and a credit line of one minor unit. */
  const SMALL_WORLD := SystemState(
    OrdersState(map[], map[], {}, [], map[]),
    FulfillmentState(map[0 := StockRow(1, 0)], map[], map[], 0, map[]),
    R.BillingRun(BillingState(map[0 := CreditRow(1, 0)], map[], map[], map[], 0, map[]), {}),
    map[], {}, {})

  lemma SmallTotals(price: nat)
    ensures NetOf(OneLine(price)) == price && LineCurrenciesAgree(OneLine(price), 0)
    ensures ReserveLinesOf(OneLine(price)) == [ReserveLine(0, 1)] && RequestedOf([ReserveLine(0, 1)], 0) == 1
  {
    var lines := OneLine(price);
    assert lines[..|lines| - 1] == [];
    assert lines[0].unitPrice.amount * lines[0].quantity == price;
    assert GrossOf(lines) == GrossOf([]) + lines[0].unitPrice.amount * lines[0].quantity;
    assert DiscountOf(lines) == DiscountOf([]) + lines[0].lineDiscount.amount;
    var reserve := [ReserveLine(0, 1)];
    assert reserve[..|reserve| - 1] == [];
    assert RequestedOf(reserve, 0) == RequestedOf([], 0) + 1;
  }

  /** The order as it is after a step, with the tables that the example reads. */
  ghost predicate At(y: SystemState, g: S.SagaState) {
    && StandsFor(y, 0, g) && ValidTables(y.fulfillment) && LinesOk(y.billing.state)
    && IsOneLine(y.orders.orders[0]) && (0, Placed) in y.statusReads
  }

  predicate IsOneLine(order: OrderSnapshot) {
    (order.lines == OneLine(0) || order.lines == OneLine(1)) && order.currency == 0 && order.credit == 0
  }

  lemma SmallWorldIsInitial()
    ensures Initial(SMALL_WORLD) && TablesOk(SMALL_WORLD) && NeverPlaced(SMALL_WORLD, 0)
  {
    InitialIsOk(SMALL_WORLD);
    assert ExplainedAt(SMALL_WORLD, map[], 0);
  }

  /** The reference data of an order that both services can serve. */
  predicate Usable(r: S.ReferenceData) {
    r.stocked && r.creditable
  }

  lemma Begins(price: nat) returns (y: SystemState, r: S.ReferenceData)
    requires price <= 1
    ensures Reachable(y)
    ensures Usable(r) && StandsFor(y, 0, S.Begun(r, price > 0)) && IsOneLine(y.orders.orders[0])
    ensures TablesOk(y) && y.fulfillment.stock == map[0 := StockRow(1, 0)] && SmallBilling(y.billing.state)
  {
    SmallWorldIsInitial();
    y, r := BeginsFrom(SMALL_WORLD, price);
    SameTables(SMALL_WORLD, y);
    ReachFirst(y, price);
  }

  lemma SameTables(y: SystemState, z: SystemState)
    requires TablesOk(y) && y.fulfillment == z.fulfillment && y.billing == z.billing
    requires y.fulfillment.stock == map[0 := StockRow(1, 0)] && y.billing.state.credits == map[0 := CreditRow(1, 0)]
             && y.billing.state.ledgers == map[]
    ensures TablesOk(z) && z.fulfillment.stock == map[0 := StockRow(1, 0)] && SmallBilling(z.billing.state)
  {
  }

  lemma BeginsFrom(y: SystemState, price: nat) returns (z: SystemState, r: S.ReferenceData)
    requires price <= 1 && NeverPlaced(y, 0) && 0 in y.fulfillment.stock && 0 in y.billing.state.credits
             && y.billing.state.credits[0].currency == 0
    ensures z == SystemNext(y, PlaceOrder(0, OneLine(price), 0, 0)) && z.fulfillment == y.fulfillment
            && z.billing == y.billing
    ensures Usable(r) && StandsFor(z, 0, S.Begun(r, price > 0)) && IsOneLine(z.orders.orders[0])
  {
    SmallTotals(price);
    z := Placing(y, 0, OneLine(price), 0, 0);
    M.PlacingMoves(y, 0, OneLine(price), 0, 0);
    assert OneLine(price)[0].product in z.fulfillment.stock;
    r := ReferenceOf(z, z.orders.orders[0]);
  }

  lemma IsRead(y: SystemState, r: S.ReferenceData, positive: bool) returns (z: SystemState, g: S.SagaState)
    requires Usable(r) && StandsFor(y, 0, S.Begun(r, positive)) && IsOneLine(y.orders.orders[0]) && TablesOk(y)
    ensures Reachable(y) ==> Reachable(z)
    ensures At(z, g) && I.SagaInv(g) && Opened(g, positive)
    ensures z.fulfillment == y.fulfillment && z.billing == y.billing
  {
    z := y.(statusReads := y.statusReads + {(0, Placed)});
    g := OpenedSaga(r, positive);
    M.ReadRecorded(y, z, 0, S.Begun(r, positive));
    ReadIs(y, z);
  }

  /** Placed, read once by an operator while `placed`, and nothing more done yet. */
  predicate Opened(g: S.SagaState, positive: bool) {
    && g.status == Placed && g.positive == positive && Usable(g.reference) && !g.placedSeen && !g.byOperator
    && g.reserveRow == S.NoRow && g.holdRow == S.NoRow && g.releaseRow == S.NoRow && g.despatchRow == S.NoRow
    && g.refusals == S.Refusals(0, 0) && g.stock == S.StockUntouched && g.credit == S.CreditUntouched
    && g.stockSeen == 0 && g.creditSeen == 0
  }

  lemma ReadKeeps(g: S.SagaState) returns (t: S.SagaState)
    requires I.SagaInv(g) && g.status == Placed
    ensures t == S.StatusRead(g) == g.(sawOther := true) && I.SagaInv(t)
  {
    t := S.StatusRead(g);
    I.StepKeeps(g, S.CancelRead);
  }

  lemma OpenedSaga(r: S.ReferenceData, positive: bool) returns (g: S.SagaState)
    requires Usable(r)
    ensures g == S.Begun(r, positive).(sawOther := true) && I.SagaInv(g) && Opened(g, positive)
  {
    g := S.Begun(r, positive);
    T.BeginningKeeps(r, positive);
    g := ReadKeeps(g);
  }

  lemma ReadIs(y: SystemState, z: SystemState)
    requires 0 in y.orders.orders && y.orders.orders[0].status == Placed
             && z == y.(statusReads := y.statusReads + {(0, Placed)})
    ensures Reachable(y) ==> Reachable(z)
  {
    if Reachable(y) {
      ReachNext(y, ReadStatus(0), z);
    }
  }

  /** The next delivery of a stream keeps what the example reads. */
  lemma DeliveringKeeps(y: SystemState, p: Producer)
    requires 0 in y.orders.orders
    ensures var z := Delivering(y, p, 0, Offset(y, p, 0));
            && z.fulfillment == y.fulfillment && z.billing == y.billing && z.statusReads == y.statusReads
            && 0 in z.orders.orders && (IsOneLine(y.orders.orders[0]) ==> IsOneLine(z.orders.orders[0]))
  {
    if Offset(y, p, 0) < |StreamAt(y, p, 0)| {
      HandlingKeepsTheLines(y.orders, D.NextEnvelope(y, p, 0), 0);
    }
  }

  lemma StaysAt(y: SystemState, g: S.SagaState, z: SystemState, t: S.SagaState)
    requires At(y, g) && StandsFor(z, 0, t) && IsOneLine(z.orders.orders[0])
    requires z.fulfillment == y.fulfillment && z.billing == y.billing && z.statusReads == y.statusReads
    ensures At(z, t)
  {
  }

  lemma PlacedNext(y: SystemState, g: S.SagaState)
    requires At(y, g) && I.SagaInv(g) && !g.placedSeen
    ensures At(Delivering(y, Orders, 0, 0), S.Step(g, S.DeliverPlaced))
  {
    assert Offset(y, Orders, 0) == 0;
    DeliveringKeeps(y, Orders);
    D.PlacedDelivery(y, 0, g);
    StaysAt(y, g, Delivering(y, Orders, 0, 0), S.Step(g, S.DeliverPlaced));
  }

  lemma StockNext(y: SystemState, g: S.SagaState)
    requires At(y, g) && I.SagaInv(g) && S.StockPending(g)
    ensures At(Delivering(y, Fulfillment, 0, g.stockSeen), S.Step(g, S.DeliverStock))
  {
    DeliveringKeeps(y, Fulfillment);
    D.StockDelivery(y, 0, g);
    StaysAt(y, g, Delivering(y, Fulfillment, 0, g.stockSeen), S.Step(g, S.DeliverStock));
  }

  lemma CreditNext(y: SystemState, g: S.SagaState)
    requires At(y, g) && I.SagaInv(g) && S.CreditPending(g)
    ensures At(Delivering(y, Billing, 0, g.creditSeen), S.Step(g, S.DeliverCredit))
  {
    DeliveringKeeps(y, Billing);
    D.CreditDelivery(y, 0, g);
    StaysAt(y, g, Delivering(y, Billing, 0, g.creditSeen), S.Step(g, S.DeliverCredit));
  }

  lemma FirstReserveAccepts(f: FulfillmentState, order: OrderSnapshot)
    requires InPhase(f.reservations, 0, None) && f.stock == map[0 := StockRow(1, 0)] && IsOneLine(order)
    ensures FS.DecisionIn(ReserveTx(f, 0, ReserveLinesOf(order.lines)).1) == S.Accept
  {
    SmallTotals(0);
    SmallTotals(1);
    var lines := ReserveLinesOf(order.lines);
    var ps := KnownProducts(f, lines);
    assert lines[0].product in ProductsOf(lines) * f.stock.Keys;
    assert 0 in ps;
    assert !HasReservationsOn(f, 0, ps);
    AcceptedIffEveryProductFits(AvailabilityOf(f, ps), lines);
  }

  lemma ReservedNext(y: SystemState, g: S.SagaState)
    requires At(y, g) && g.reserveRow != S.NoRow && g.stock == S.StockUntouched
             && y.fulfillment.stock == map[0 := StockRow(1, 0)]
    ensures At(Executing(y, 0, ReserveStock, Approve), S.Step(g, S.ExecReserve(S.Accept)))
    ensures Executing(y, 0, ReserveStock, Approve).billing == y.billing
  {
    X.RowPayload(y, 0, g, ReserveStock);
    FirstReserveAccepts(y.fulfillment, y.orders.orders[0]);
    FS.ReserveRefines(y.fulfillment, 0, y.orders.orders[0].lines, g);
    TransactionKeepsTables(y.fulfillment, ReserveOp(0, ReserveLinesOf(y.orders.orders[0].lines)));
    X.ReserveStepIs(g, S.Accept);
    X.ReserveAnswers(g, S.Accept);
    X.AfterFulfillment(y, Executing(y, 0, ReserveStock, Approve), 0, g, S.ReserveExecuted(g, S.Accept), ReserveStock);
  }

  /** What becomes of a first hold on the small credit line: it fits, so the provider decides. */
  function FirstDecision(decision: CreditDecision): S.Decision {
    if decision == Approve then S.Accept else S.Decline
  }

  lemma FirstHoldFits(b: BillingState, order: OrderSnapshot)
    requires b.credits == map[0 := CreditRow(1, 0)] && LedgerOf(b, 0) == [] && IsOneLine(order)
    ensures Evaluate(LoadedLine(b, 0, 0), 0, BS.AmountOf(order)) == Fits
  {
    SmallTotals(0);
    SmallTotals(1);
  }

  lemma FittingHold(b: BillingState, c: CreditId, o: OrderId, amount: Money, decision: CreditDecision)
    requires c in b.credits && Evaluate(LoadedLine(b, c, o), o, amount) == Fits
    ensures var (t, reply) := HoldTx(b, c, o, amount, decision);
            && BS.DecisionIn(reply) == FirstDecision(decision) && t.credits == b.credits
            && (decision != Approve ==> LedgerOf(t, c) == LedgerOf(b, c))
  {
  }

  /** What the hold does to Billing. */
  lemma HoldDecided(b: BillingState, order: OrderSnapshot, g: S.SagaState, decision: CreditDecision)
    requires SmallBilling(b) && IsOneLine(order) && BS.BillingIs(b, 0, order, g)
    ensures var t := HoldTx(b, order.credit, 0, BS.AmountOf(order), decision).0;
            && ValidBilling(t) && (decision != Approve ==> SmallBilling(t))
            && BS.BillingIs(t, 0, order, S.HoldExecuted(g, FirstDecision(decision))) && BS.OnlyOrder(b, t, 0)
  {
    FirstHoldFits(b, order);
    FittingHold(b, 0, 0, BS.AmountOf(order), decision);
    BS.HoldRefines(b, 0, order, g, decision);
    HoldKeepsBilling(b, 0, 0, BS.AmountOf(order), decision);
  }

  lemma HeldNext(y: SystemState, g: S.SagaState, decision: CreditDecision)
    requires At(y, g) && g.holdRow != S.NoRow && SmallBilling(y.billing.state)
    ensures At(Executing(y, 0, HoldCredit, decision), S.HoldExecuted(g, FirstDecision(decision)))
    ensures decision != Approve ==> SmallBilling(Executing(y, 0, HoldCredit, decision).billing.state)
  {
    X.RowPayload(y, 0, g, HoldCredit);
    HoldDecided(y.billing.state, y.orders.orders[0], g, decision);
    HeldStands(y, g, decision);
    HeldState(y, decision);
  }

  lemma HeldState(y: SystemState, decision: CreditDecision)
    requires (0, HoldCredit) in y.orders.commands && 0 in y.orders.orders
    requires y.orders.commands[(0, HoldCredit)].payload == PayloadOf(HoldCredit, y.orders.orders[0], false)
    ensures var z := Executing(y, 0, HoldCredit, decision);
            && z.orders == y.orders && z.fulfillment == y.fulfillment && z.statusReads == y.statusReads
            && z.billing.state
               == HoldTx(y.billing.state, y.orders.orders[0].credit, 0, BS.AmountOf(y.orders.orders[0]), decision).0
  {
  }

  lemma HeldStands(y: SystemState, g: S.SagaState, decision: CreditDecision)
    requires StandsFor(y, 0, g) && g.holdRow != S.NoRow && (0, HoldCredit) in y.orders.commands
    requires y.orders.commands[(0, HoldCredit)].payload == PayloadOf(HoldCredit, y.orders.orders[0], g.byOperator)
    requires var order := y.orders.orders[0];
             var b := HoldTx(y.billing.state, order.credit, 0, BS.AmountOf(order), decision).0;
             && BS.BillingIs(b, 0, order, S.HoldExecuted(g, FirstDecision(decision)))
             && BS.OnlyOrder(y.billing.state, b, 0)
    ensures StandsFor(Executing(y, 0, HoldCredit, decision), 0, S.HoldExecuted(g, FirstDecision(decision)))
  {
    var t := S.HoldExecuted(g, FirstDecision(decision));
    X.HoldAnswers(g, FirstDecision(decision));
    X.AfterBilling(y, Executing(y, 0, HoldCredit, decision), 0, g, t, HoldCredit);
  }

  /** The steps lead from the small world to `y`. The start is bound, so a proof unfolds a run only by naming it. */
  ghost predicate LeadsTo(steps: seq<SystemStep>, y: SystemState) {
    forall start :: start == SMALL_WORLD ==> RunSystem(start, steps) == y
  }

  ghost predicate Reachable(y: SystemState) {
    exists steps: seq<SystemStep> :: LeadsTo(steps, y)
  }

  lemma RunTo(y: SystemState) returns (steps: seq<SystemStep>)
    requires Reachable(y)
    ensures RunSystem(SMALL_WORLD, steps) == y
  {
    steps :| LeadsTo(steps, y);
  }

  lemma ReachedIsOk(y: SystemState) returns (hs: map<OrderId, History>)
    requires Reachable(y)
    ensures SystemOk(y, hs)
  {
    var steps := RunTo(y);
    SmallWorldIsInitial();
    hs := SystemRefinesSagas(SMALL_WORLD, steps);
  }

  lemma ReachNext(y: SystemState, step: SystemStep, z: SystemState)
    requires Reachable(y) && SystemNext(y, step) == z
    ensures Reachable(z)
  {
    var steps := RunTo(y);
    RunSystemSnoc(SMALL_WORLD, steps, step);
    assert LeadsTo(steps + [step], z);
  }

  lemma ReachDelivery(y: SystemState, p: Producer, k: nat)
    requires Reachable(y)
    ensures Reachable(Delivering(y, p, 0, k))
  {
    ReachNext(y, Deliver(p, 0, k), Delivering(y, p, 0, k));
  }

  lemma ReachExecution(y: SystemState, kind: CommandKind, decision: CreditDecision)
    requires Reachable(y)
    ensures Reachable(Executing(y, 0, kind, decision))
  {
    ReachNext(y, Execute(0, kind, decision), Executing(y, 0, kind, decision));
  }

  lemma ReachFirst(y: SystemState, price: nat)
    requires y == SystemNext(SMALL_WORLD, PlaceOrder(0, OneLine(price), 0, 0))
    ensures Reachable(y)
  {
    assert LeadsTo([], SMALL_WORLD);
    ReachNext(SMALL_WORLD, PlaceOrder(0, OneLine(price), 0, 0), y);
  }

  // ---- The run, step by step ----

  ghost predicate SmallBilling(b: BillingState) {
    ValidBilling(b) && b.credits == map[0 := CreditRow(1, 0)] && LedgerOf(b, 0) == []
  }

  lemma PlacedAndRead(price: nat) returns (y: SystemState, g: S.SagaState)
    requires price <= 1
    ensures Reachable(y) && At(y, g) && I.SagaInv(g) && Opened(g, price > 0)
    ensures y.fulfillment.stock == map[0 := StockRow(1, 0)] && SmallBilling(y.billing.state)
  {
    var r;
    y, r := Begins(price);
    y, g := IsRead(y, r, price > 0);
  }

  lemma PlacedStep(y: SystemState, g: S.SagaState) returns (z: SystemState)
    requires Reachable(y) && At(y, g) && I.SagaInv(g) && !g.placedSeen
    ensures Reachable(z) && At(z, S.Step(g, S.DeliverPlaced)) && I.SagaInv(S.Step(g, S.DeliverPlaced))
    ensures z.fulfillment == y.fulfillment && z.billing == y.billing
  {
    z := Delivering(y, Orders, 0, 0);
    I.StepKeeps(g, S.DeliverPlaced);
    PlacedNext(y, g);
    DeliveringKeeps(y, Orders);
    ReachDelivery(y, Orders, 0);
  }

  lemma ReserveStep(y: SystemState, g: S.SagaState) returns (z: SystemState)
    requires Reachable(y) && At(y, g) && I.SagaInv(g) && g.reserveRow != S.NoRow && g.stock == S.StockUntouched
    requires y.fulfillment.stock == map[0 := StockRow(1, 0)]
    ensures Reachable(z) && At(z, S.Step(g, S.ExecReserve(S.Accept))) && z.billing == y.billing
    ensures I.SagaInv(S.Step(g, S.ExecReserve(S.Accept)))
  {
    z := Executing(y, 0, ReserveStock, Approve);
    I.StepKeeps(g, S.ExecReserve(S.Accept));
    ReservedNext(y, g);
    ReachExecution(y, ReserveStock, Approve);
  }

  lemma StockStep(y: SystemState, g: S.SagaState) returns (z: SystemState)
    requires Reachable(y) && At(y, g) && I.SagaInv(g) && S.StockPending(g)
    ensures Reachable(z) && At(z, S.Step(g, S.DeliverStock)) && z.billing == y.billing
    ensures I.SagaInv(S.Step(g, S.DeliverStock))
  {
    z := Delivering(y, Fulfillment, 0, g.stockSeen);
    I.StepKeeps(g, S.DeliverStock);
    StockNext(y, g);
    DeliveringKeeps(y, Fulfillment);
    ReachDelivery(y, Fulfillment, g.stockSeen);
  }

  lemma HoldStep(y: SystemState, g: S.SagaState) returns (z: SystemState)
    requires Reachable(y) && At(y, g) && I.SagaInv(g) && g.holdRow != S.NoRow && SmallBilling(y.billing.state)
    ensures Reachable(z) && At(z, S.Step(g, S.ExecHold(S.Accept))) && I.SagaInv(S.Step(g, S.ExecHold(S.Accept)))
  {
    z := Executing(y, 0, HoldCredit, Approve);
    I.StepKeeps(g, S.ExecHold(S.Accept));
    HeldNext(y, g, Approve);
    X.HoldStepIs(g, S.Accept);
    ReachExecution(y, HoldCredit, Approve);
  }

  lemma CreditStep(y: SystemState, g: S.SagaState) returns (z: SystemState)
    requires Reachable(y) && At(y, g) && I.SagaInv(g) && S.CreditPending(g)
    ensures Reachable(z) && At(z, S.Step(g, S.DeliverCredit)) && z.billing == y.billing
    ensures I.SagaInv(S.Step(g, S.DeliverCredit))
  {
    z := Delivering(y, Billing, 0, g.creditSeen);
    I.StepKeeps(g, S.DeliverCredit);
    CreditNext(y, g);
    DeliveringKeeps(y, Billing);
    ReachDelivery(y, Billing, g.creditSeen);
  }

  /** Reserved, and the reservation not yet delivered. */
  predicate JustReserved(g: S.SagaState, positive: bool) {
    && g.status == Placed && g.positive == positive && Usable(g.reference) && !g.byOperator
    && g.holdRow == S.NoRow && g.releaseRow == S.NoRow && g.despatchRow == S.NoRow
    && g.refusals == S.Refusals(0, 0) && g.stock == S.StockHeld && g.credit == S.CreditUntouched
    && g.stockSeen == 0 && g.creditSeen == 0
  }

  /** Approved without any refusal, and nothing more done yet. */
  predicate JustConfirmed(g: S.SagaState, positive: bool) {
    && g.status == Confirmed && g.stock == S.StockHeld && g.credit == S.CreditHeld && g.positive == positive
       && Usable(g.reference)
    && g.refusals.stock == 0 && g.refusals.credit == 0 && g.creditSeen == 1 && !g.byOperator && g.releaseRow == S.NoRow
  }

  lemma UntilReserved(y: SystemState, g: S.SagaState, positive: bool) returns (z: SystemState, t: S.SagaState)
    requires Reachable(y) && At(y, g) && I.SagaInv(g) && Opened(g, positive)
    requires y.fulfillment.stock == map[0 := StockRow(1, 0)]
    ensures Reachable(z) && At(z, t) && I.SagaInv(t) && JustReserved(t, positive) && z.billing == y.billing
  {
    t := T.StepPlaced(g);
    z := PlacedStep(y, g);
    z := ReserveStep(z, t);
    t := T.StepReserve(t);
  }

  lemma UntilConfirmed(y: SystemState, g: S.SagaState, positive: bool) returns (z: SystemState, t: S.SagaState)
    requires Reachable(y) && At(y, g) && I.SagaInv(g) && JustReserved(g, positive) && SmallBilling(y.billing.state)
    ensures Reachable(z) && At(z, t) && I.SagaInv(t) && JustConfirmed(t, positive)
  {
    t := T.StepReserved(g);
    z := StockStep(y, g);
    z := HoldStep(z, t);
    t := T.StepHold(t);
    z := CreditStep(z, t);
    t := T.StepApproved(t);
  }

  lemma ConfirmedWithStockReserved(price: nat) returns (y: SystemState, g: S.SagaState)
    requires price <= 1
    ensures Reachable(y) && At(y, g) && JustConfirmed(g, price > 0) && I.SagaInv(g)
  {
    y, g := PlacedAndRead(price);
    y, g := UntilReserved(y, g, price > 0);
    y, g := UntilConfirmed(y, g, price > 0);
  }

  lemma ReachRun(y: SystemState, more: seq<SystemStep>)
    requires Reachable(y)
    ensures Reachable(RunSystem(y, more))
  {
    var steps := RunTo(y);
    RunSystemConcat(SMALL_WORLD, steps, more);
    assert LeadsTo(steps + more, RunSystem(y, more));
  }

  // ---- A cancelled order that is shipped ----

  /** The exclusion of cancel and despatch does fail: in this run the operator's read said `placed`, the order is
      confirmed by now, its stock is still reserved, and the direct cancellation is the next step. */
  lemma UnguardedCancelIsReachable() returns (y: SystemState)
    ensures Initial(SMALL_WORLD) && Reachable(y) && UnguardedCancel(y, CancelAfterRead(0, Placed), 0)
  {
    SmallWorldIsInitial();
    var g;
    y, g := ConfirmedWithStockReserved(1);
    StillReserved(y, g);
  }

  lemma StillReserved(y: SystemState, g: S.SagaState)
    requires At(y, g) && g.status == Confirmed && g.stock == S.StockHeld
    ensures UnguardedCancel(y, CancelAfterRead(0, Placed), 0)
  {
    PhaseIs(y, 0, g, Some(Released));
  }

  /** And so a cancelled order with consumed reservations is reachable. */
  lemma ShippedAfterCancelIsReachable() returns (z: SystemState)
    ensures Reachable(z) && E.CancelledYetConsumed(z, 0)
  {
    var y := UnguardedCancelIsReachable();
    var steps := RunTo(y);
    var cancel := CancelAfterRead(0, Placed);
    E.ExclusionFailsExactly(SMALL_WORLD, steps, cancel, 0);
    var more: seq<SystemStep> :| E.CancelledYetConsumed(RunSystem(SystemNext(y, cancel), more), 0);
    ReachNext(y, cancel, SystemNext(y, cancel));
    ReachRun(SystemNext(y, cancel), more);
    z := RunSystem(SystemNext(y, cancel), more);
  }

  // ---- A cancelled order whose stock stays reserved ----

  /** An order that was read while `placed`, and whose reserve is owed by now. */
  lemma ForgettableCancelIsReachable() returns (y: SystemState)
    ensures Reachable(y) && CommitsDirectly(y, CancelAfterRead(0, Placed), 0) && 0 in y.orders.orders
    ensures y.orders.orders[0].status == Placed && W.StockForgotten(y, 0)
  {
    var g;
    y, g := PlacedAndRead(1);
    var owed := T.StepPlaced(g);
    y := PlacedStep(y, g);
    OwedIsForgettable(y, owed);
  }

  lemma OwedIsForgettable(y: SystemState, g: S.SagaState)
    requires At(y, g) && g.status == Placed && g.reserveRow == S.Pending
             && y.fulfillment.stock == map[0 := StockRow(1, 0)]
    ensures CommitsDirectly(y, CancelAfterRead(0, Placed), 0) && W.StockForgotten(y, 0)
  {
    X.RowPayload(y, 0, g, ReserveStock);
    SmallTotals(0);
    SmallTotals(1);
  }

  /** The design asks for a stock release when a reservation arrives after the order was cancelled while `placed`; the
      handler ignores that fact, and the order comes to rest with its unit still reserved. */
  lemma StrandedStockIsReachable() returns (z: SystemState)
    ensures Reachable(z) && W.StockStranded(z, 0)
  {
    SmallWorldIsInitial();
    var y := ForgettableCancelIsReachable();
    var steps := RunTo(y);
    var cancel := CancelAfterRead(0, Placed);
    W.StockStrandsExactly(SMALL_WORLD, steps, cancel, 0);
    var more: seq<SystemStep> :| W.StockStranded(RunSystem(SystemNext(y, cancel), more), 0);
    ReachNext(y, cancel, SystemNext(y, cancel));
    ReachRun(SystemNext(y, cancel), more);
    z := RunSystem(SystemNext(y, cancel), more);
  }
}
