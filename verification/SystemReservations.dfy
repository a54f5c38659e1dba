/** What an order has reserved, over whole runs: every product of its lines or none, and never a different set later. */
module SystemReservations {
  import opened Kernel
  import opened SagaSteps
  import opened Stock
  import opened FulfillmentTables
  import opened FulfillmentInvariants
  import opened FulfillmentPhases
  import opened BillingTables
  import opened Abstraction
  import S = Saga
  import opened System
  import opened SystemRefinement
  import X = SystemExecution
  import opened SystemRuns
  import opened SystemClimb

  /** The products that the order has reservations of, in whatever status. */
  function ItemsOf(y: SystemState, o: OrderId): set<ProductCode> {
    ReservedProducts(y.fulfillment.reservations, o)
  }

  /** What the lines of the order ask for. */
  function ProductsOfOrder(y: SystemState, o: OrderId): set<ProductCode> {
    if o in y.orders.orders then ProductsOf(ReserveLinesOf(y.orders.orders[o].lines)) else {}
  }

  /** The products reserved for the order stay the same, or become all of its lines' when there were none. */
  predicate ItemsMove(f: FulfillmentState, t: FulfillmentState, o: OrderId, products: set<ProductCode>) {
    || ReservedProducts(t.reservations, o) == ReservedProducts(f.reservations, o)
    || (ReservedProducts(f.reservations, o) == {} && ReservedProducts(t.reservations, o) == products <= f.stock.Keys)
  }

  lemma SameItemsMove(f: FulfillmentState, t: FulfillmentState, o: OrderId, products: set<ProductCode>)
    requires SameItemsFor(f.reservations, t.reservations, o)
    ensures ItemsMove(f, t, o, products)
  {
    var a, b := ReservedProducts(f.reservations, o), ReservedProducts(t.reservations, o);
    forall p: ProductCode ensures p in a <==> p in b {
      assert p in a <==> (o, p) in f.reservations;
      assert p in b <==> (o, p) in t.reservations;
    }
    assert a == b;
  }

  lemma NoItems(f: FulfillmentState, o: OrderId)
    ensures InPhase(f.reservations, o, None) <==> ReservedProducts(f.reservations, o) == {}
  {
    assert forall key :: key in f.reservations && key.0 == o ==> key.1 in ReservedProducts(f.reservations, o);
  }

  lemma ReserveItemsMove(f: FulfillmentState, o: OrderId, lines: seq<ReserveLine>, phase: Option<ReservationStatus>)
    requires TableOk(f) && lines != [] && InPhase(f.reservations, o, phase) && OnLines(f.reservations, o, lines)
    ensures ItemsMove(f, ReserveTx(f, o, lines).0, o, ProductsOf(lines))
  {
    var (t, reply) := ReserveTx(f, o, lines);
    match phase
    case Some(status) => ReserveOnceReserved(f, o, lines, status);
    case None =>
      ReserveFirst(f, o, lines);
      NoItems(f, o);
      if reply.Ok? && reply.value.Accepted? {
        AcceptedItems(f, o, lines);
      }
  }

  lemma ReleaseItemsMove(f: FulfillmentState, o: OrderId, reason: StockReleaseReason, phase: Option<ReservationStatus>,
                         products: set<ProductCode>)
    requires TableOk(f) && InPhase(f.reservations, o, phase)
    ensures ItemsMove(f, ReleaseTx(f, o, reason).0, o, products)
  {
    ReleaseByPhase(f, o, reason, phase);
    SameItemsMove(f, ReleaseTx(f, o, reason).0, o, products);
  }

  lemma DespatchItemsMove(f: FulfillmentState, o: OrderId, phase: Option<ReservationStatus>, products: set<ProductCode>)
    requires TableOk(f) && InPhase(f.reservations, o, phase) && (o in f.despatches <==> phase == Some(Consumed))
    ensures ItemsMove(f, DespatchTx(f, o).0, o, products)
  {
    DespatchByPhase(f, o, phase);
    SameItemsMove(f, DespatchTx(f, o).0, o, products);
  }

  lemma PayloadNamesTheLines(y: SystemState, o: OrderId, g: S.SagaState, kind: CommandKind)
    requires StandsFor(y, o, g) && (o, kind) in y.orders.commands
    ensures var payload := y.orders.commands[(o, kind)].payload;
            payload.ReserveStockPayload? ==>
              && OnLines(y.fulfillment.reservations, o, payload.reserveLines)
              && ProductsOfOrder(y, o) == ProductsOf(payload.reserveLines)
  {
    X.RowPayload(y, o, g, kind);
  }

  lemma ExecutionItemsMove(y: SystemState, o: OrderId, g: S.SagaState, kind: CommandKind, decision: CreditDecision)
    requires TablesOk(y) && StandsFor(y, o, g) && (o, kind) in y.orders.commands
    ensures ItemsMove(y.fulfillment, Executing(y, o, kind, decision).fulfillment, o, ProductsOfOrder(y, o))
  {
    PayloadNamesTheLines(y, o, g, kind);
    ExecutedFulfillment(y, o, kind, decision);
    PayloadItemsMove(y.fulfillment, o, y.orders.commands[(o, kind)].payload, StatusOf(g.stock), ProductsOfOrder(y, o));
  }

  /** What an execution does to Fulfillment, as a function of the payload alone. */
  function AfterPayload(f: FulfillmentState, o: OrderId, payload: CommandPayload): FulfillmentState {
    match payload
    case ReserveStockPayload(lines) => if lines == [] then f else ReserveTx(f, o, lines).0
    case ReleaseStockPayload(reason) => ReleaseTx(f, o, reason).0
    case CreateDespatchPayload => DespatchTx(f, o).0
    case _ => f
  }

  lemma ExecutedFulfillment(y: SystemState, o: OrderId, kind: CommandKind, decision: CreditDecision)
    ensures (o, kind) in y.orders.commands ==>
              Executing(y, o, kind, decision).fulfillment
                == AfterPayload(y.fulfillment, o, y.orders.commands[(o, kind)].payload)
    ensures (o, kind) !in y.orders.commands ==> Executing(y, o, kind, decision) == y
  {
  }

  lemma PayloadItemsMove(f: FulfillmentState, o: OrderId, payload: CommandPayload, phase: Option<ReservationStatus>,
                         products: set<ProductCode>)
    requires TableOk(f) && InPhase(f.reservations, o, phase)
    requires payload.ReserveStockPayload? ==>
             OnLines(f.reservations, o, payload.reserveLines) && products == ProductsOf(payload.reserveLines)
    requires o in f.despatches <==> phase == Some(Consumed)
    ensures ItemsMove(f, AfterPayload(f, o, payload), o, products)
  {
    match payload
    case ReserveStockPayload(lines) =>
      if lines != [] {
        ReserveItemsMove(f, o, lines, phase);
      }
    case ReleaseStockPayload(reason) => ReleaseItemsMove(f, o, reason, phase, products);
    case CreateDespatchPayload => DespatchItemsMove(f, o, phase, products);
    case _ =>
  }

  lemma OthersKeepItems(y: SystemState, z: SystemState, other: OrderId, o: OrderId)
    requires OnlyMoves(y, z, other) && other != o
    ensures ItemsMove(y.fulfillment, z.fulfillment, o, ProductsOfOrder(y, o))
  {
    SameItemsMove(y.fulfillment, z.fulfillment, o, ProductsOfOrder(y, o));
  }

  lemma ExecutionOfAnother(y: SystemState, hs: map<OrderId, History>, other: OrderId, kind: CommandKind,
                           decision: CreditDecision)
    requires SystemOk(y, hs) && (other, kind) in y.orders.commands
    ensures OnlyMoves(y, Executing(y, other, kind, decision), other)
  {
    assert ExplainedAt(y, hs, other);
    RowsNeedOrders(y, hs, other, kind);
    var m := ExecutionRefines(y, other, Now(hs[other]), kind, decision);
  }

  lemma EveryExecutionItemsMove(y: SystemState, hs: map<OrderId, History>, other: OrderId, kind: CommandKind,
                                decision: CreditDecision, o: OrderId)
    requires SystemOk(y, hs) && (other, kind) in y.orders.commands
    ensures ItemsMove(y.fulfillment, Executing(y, other, kind, decision).fulfillment, o, ProductsOfOrder(y, o))
  {
    if other != o {
      ExecutionOfAnother(y, hs, other, kind, decision);
      OthersKeepItems(y, Executing(y, other, kind, decision), other, o);
    } else {
      assert ExplainedAt(y, hs, o);
      RowsNeedOrders(y, hs, o, kind);
      ExecutionItemsMove(y, o, Now(hs[o]), kind, decision);
    }
  }

  lemma StepItemsMove(y: SystemState, hs: map<OrderId, History>, step: SystemStep, o: OrderId)
    requires SystemOk(y, hs)
    ensures ItemsMove(y.fulfillment, SystemNext(y, step).fulfillment, o, ProductsOfOrder(y, o))
  {
    if step.Execute? && (step.order, step.kind) in y.orders.commands {
      EveryExecutionItemsMove(y, hs, step.order, step.kind, step.decision, o);
    } else {
      OtherStepsKeepReservations(y, step);
    }
  }

  lemma OtherStepsKeepReservations(y: SystemState, step: SystemStep)
    requires step.Execute? ==> (step.order, step.kind) !in y.orders.commands
    ensures SystemNext(y, step).fulfillment.reservations == y.fulfillment.reservations
  {
  }

  lemma PayloadKeepsCatalogue(f: FulfillmentState, o: OrderId, payload: CommandPayload)
    requires ValidTables(f)
    ensures AfterPayload(f, o, payload).stock.Keys == f.stock.Keys
  {
    match payload
    case ReserveStockPayload(lines) => TransactionKeepsTables(f, ReserveOp(o, lines));
    case ReleaseStockPayload(reason) => TransactionKeepsTables(f, ReleaseOp(o, reason));
    case CreateDespatchPayload => TransactionKeepsTables(f, DespatchOp(o));
    case _ =>
  }

  lemma StepKeepsCatalogue(y: SystemState, step: SystemStep)
    requires ValidTables(y.fulfillment)
    ensures SystemNext(y, step).fulfillment.stock.Keys == y.fulfillment.stock.Keys
  {
    if step.Execute? {
      ExecutedFulfillment(y, step.order, step.kind, step.decision);
      if (step.order, step.kind) in y.orders.commands {
        PayloadKeepsCatalogue(y.fulfillment, step.order, y.orders.commands[(step.order, step.kind)].payload);
      }
    } else if step.Replenish? {
      TransactionKeepsTables(y.fulfillment, ReplenishOp(step.stockLines));
    }
  }

  // ---- Over whole runs ----

  /** All or nothing, at the level of the order. */
  predicate WhollyReserved(y: SystemState, o: OrderId) {
    ItemsOf(y, o) == {} || ItemsOf(y, o) == ProductsOfOrder(y, o) <= y.fulfillment.stock.Keys
  }

  lemma StepKeepsProducts(y: SystemState, step: SystemStep, o: OrderId)
    requires o in y.orders.orders
    ensures ProductsOfOrder(SystemNext(y, step), o) == ProductsOfOrder(y, o)
  {
    StepKeepsTerms(y, step, o);
  }

  lemma StepWhollyReserved(y: SystemState, hs: map<OrderId, History>, step: SystemStep, o: OrderId)
    requires SystemOk(y, hs) && WhollyReserved(y, o)
    ensures WhollyReserved(SystemNext(y, step), o)
  {
    StepItemsMove(y, hs, step, o);
    StepKeepsCatalogue(y, step);
    if o in y.orders.orders {
      StepKeepsProducts(y, step, o);
    }
  }

  /** After any run an order has reservations of every product of its lines, all of them stocked, or of none. */
  lemma {:induction false} ReservationsAreWhole(y0: SystemState, steps: seq<SystemStep>, o: OrderId)
    requires Initial(y0)
    ensures WhollyReserved(RunSystem(y0, steps), o)
  {
    if steps == [] {
      NoItems(y0.fulfillment, o);
    } else {
      var init := steps[..|steps| - 1];
      ReservationsAreWhole(y0, init, o);
      var hs := SystemRefinesSagas(y0, init);
      StepWhollyReserved(RunSystem(y0, init), hs, steps[|steps| - 1], o);
    }
  }

  /** Once it has any, they stay on the same products, and the catalogue never changes. */
  lemma {:induction false} ReservationsStay(y0: SystemState, steps: seq<SystemStep>, more: seq<SystemStep>, o: OrderId)
    requires Initial(y0)
    ensures var y, z := RunSystem(y0, steps), RunSystem(RunSystem(y0, steps), more);
            && z.fulfillment.stock.Keys == y.fulfillment.stock.Keys
            && (ItemsOf(y, o) != {} ==> ItemsOf(z, o) == ItemsOf(y, o))
  {
    if more != [] {
      var init, last := more[..|more| - 1], more[|more| - 1];
      ReservationsStay(y0, steps, init, o);
      RunSystemConcat(y0, steps, init);
      var z := RunSystem(y0, steps + init);
      var hs := SystemRefinesSagas(y0, steps + init);
      StepItemsMove(z, hs, last, o);
      StepKeepsCatalogue(z, last);
    }
  }

  // ---- The unlocked reads of a release and of a despatch ----

  /** With the order's own stock rows named, the despatch transaction is the whole handler, whatever was despatched
      since. */
  lemma DespatchAfterOwnRead(f: FulfillmentState, o: OrderId, phase: Option<ReservationStatus>)
    requires TableOk(f) && InPhase(f.reservations, o, phase) && (o in f.despatches <==> phase == Some(Consumed))
    requires ReservedProducts(f.reservations, o) != {}
    ensures DespatchAfterRead(f, o, ReservedProducts(f.reservations, o)) == DespatchTx(f, o)
    ensures DespatchTx(f, o).1 != Err(ConcurrentReservationChange)
  {
    if phase == Some(Consumed) {
      LoadedInPhase(f, o, Consumed, Consumed);
      LoadedInPhase(f, o, Consumed, Reserved);
    }
    DespatchByPhase(f, o, phase);
  }

  /** However stale the read that found the order's stock rows: the release transaction does at its commit what the
      whole handler would have done there, and a read that found none answers what the handler would have answered then.
      */
  lemma StaleReleaseReads(y0: SystemState, steps: seq<SystemStep>, more: seq<SystemStep>, o: OrderId,
                          reason: StockReleaseReason)
    requires Initial(y0)
    ensures var y, z := RunSystem(y0, steps), RunSystem(RunSystem(y0, steps), more);
            && (ItemsOf(y, o) == {} ==> ReleaseTx(y.fulfillment, o, reason) == (y.fulfillment, Ok(AlreadyReleased)))
            && (ItemsOf(y, o) != {} ==>
                  && ReleaseAfterRead(z.fulfillment, o, ItemsOf(y, o), reason) == ReleaseTx(z.fulfillment, o, reason)
                  && ReleaseTx(z.fulfillment, o, reason).1 != Err(ConcurrentReservationChange))
  {
    var z := RunSystem(RunSystem(y0, steps), more);
    ReservationsStay(y0, steps, more, o);
    RunSystemConcat(y0, steps, more);
    var phase := PhaseAfter(y0, steps + more, o);
    ReleaseByPhase(z.fulfillment, o, reason, phase);
  }

  lemma PhaseAfter(y0: SystemState, steps: seq<SystemStep>, o: OrderId) returns (phase: Option<ReservationStatus>)
    requires Initial(y0)
    ensures var f := RunSystem(y0, steps).fulfillment;
            TableOk(f) && InPhase(f.reservations, o, phase) && (o in f.despatches <==> phase == Some(Consumed))
  {
    var hs := SystemRefinesSagas(y0, steps);
    assert ExplainedAt(RunSystem(y0, steps), hs, o);
    phase := if o in hs then StatusOf(Now(hs[o]).stock) else None;
  }

  /** The same for a despatch, which answers with the one that was made in the meantime. */
  lemma StaleDespatchReads(y0: SystemState, steps: seq<SystemStep>, more: seq<SystemStep>, o: OrderId)
    requires Initial(y0)
    ensures var y, z := RunSystem(y0, steps), RunSystem(RunSystem(y0, steps), more);
            ItemsOf(y, o) != {} ==>
              && DespatchAfterRead(z.fulfillment, o, ItemsOf(y, o)) == DespatchTx(z.fulfillment, o)
              && DespatchTx(z.fulfillment, o).1 != Err(ConcurrentReservationChange)
  {
    var y, z := RunSystem(y0, steps), RunSystem(RunSystem(y0, steps), more);
    if ItemsOf(y, o) != {} {
      ReservationsStay(y0, steps, more, o);
      RunSystemConcat(y0, steps, more);
      var phase := PhaseAfter(y0, steps + more, o);
      DespatchAfterOwnRead(z.fulfillment, o, phase);
    }
  }
}
