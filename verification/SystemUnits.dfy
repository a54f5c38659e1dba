/** The units of an order, from its own lines to the despatch: what is reserved, released and despatched on every
    product is what the lines order, and the facts of Fulfillment say so. */
module SystemUnits {
  import opened Kernel
  import opened SagaSteps
  import opened OrdersService
  import opened Stock
  import opened OrderStock
  import opened FulfillmentTables
  import opened FulfillmentInvariants
  import opened FulfillmentPhases
  import opened FulfillmentFacts
  import opened BillingTables
  import opened Abstraction
  import S = Saga
  import opened System
  import opened SystemRefinement
  import X = SystemExecution
  import opened SystemRuns
  import opened SystemClimb
  import V = SystemReservations

  // ---- What an order asks for, read off its own lines ----

  /** The units of a product over all lines of an order. */
  function OrderedUnits(lines: seq<OrderLine>, p: ProductCode): nat {
    if lines == [] then 0
    else (if lines[0].product == p then lines[0].quantity else 0) + OrderedUnits(lines[1..], p)
  }

  lemma {:induction false} OrderedUnitsSnoc(lines: seq<OrderLine>, last: OrderLine, p: ProductCode)
    ensures OrderedUnits(lines + [last], p) == OrderedUnits(lines, p) + if last.product == p then last.quantity else 0
  {
    if lines == [] {
      assert OrderedUnits([last][1..], p) == 0;
    } else {
      OrderedUnitsSnoc(lines[1..], last, p);
      assert (lines + [last])[1..] == lines[1..] + [last];
    }
  }

  /** The request that goes to Fulfillment asks for the units of the order, product by product. */
  lemma {:induction false} RequestedIsOrdered(lines: seq<OrderLine>, p: ProductCode)
    ensures RequestedOf(ReserveLinesOf(lines), p) == OrderedUnits(lines, p)
  {
    if lines != [] {
      var init := lines[..|lines| - 1];
      RequestedIsOrdered(init, p);
      OrderedUnitsSnoc(init, lines[|lines| - 1], p);
      assert init + [lines[|lines| - 1]] == lines;
      assert ReserveLinesOf(lines)[..|lines| - 1] == ReserveLinesOf(init);
    }
  }

  ghost predicate AsOrdered(refs: seq<ReservationRef>, lines: seq<OrderLine>) {
    forall p :: RefUnits(refs, p) == OrderedUnits(lines, p)
  }

  predicate LineByLine(refs: seq<ReservationRef>, lines: seq<OrderLine>) {
    |refs| == |lines| && forall i :: 0 <= i < |lines| ==>
      refs[i].product == lines[i].product && refs[i].units == lines[i].quantity
  }

  predicate NamesALine(x: Shortage, lines: seq<OrderLine>) {
    exists i :: 0 <= i < |lines| && x.product == lines[i].product && x.requested == lines[i].quantity
  }

  predicate AllStocked(f: FulfillmentState, lines: seq<OrderLine>) {
    forall i :: 0 <= i < |lines| ==> lines[i].product in f.stock
  }

  /** What a fact of the order's stream says, measured by the order's lines. */
  ghost predicate StockFactIsTrue(f: FulfillmentState, o: OrderId, lines: seq<OrderLine>, fact: Fact) {
    match fact
    case StockReservedFact(refs) => LineByLine(refs, lines)
    case StockReleasedFact(refs, _) => AsOrdered(refs, lines)
    case OrderDespatchedFact(reference, refs) =>
      o in f.despatches && f.despatches[o] == DespatchAdvice(o, reference, refs) && AsOrdered(refs, lines)
    case StockRejectedFact(shortages, refusal) =>
      && (refusal == InsufficientStock <==> AllStocked(f, lines)) && shortages != []
      && forall x :: x in shortages ==> NamesALine(x, lines)
    case _ => true
  }

  ghost predicate ReservedAsOrdered(f: FulfillmentState, o: OrderId, lines: seq<OrderLine>) {
    InPhase(f.reservations, o, None) || forall p :: UnitsAt(f.reservations, o, p) == OrderedUnits(lines, p)
  }

  ghost predicate StockTells(f: FulfillmentState, o: OrderId, lines: seq<OrderLine>) {
    && ReservedAsOrdered(f, o, lines)
    && (forall i :: 0 <= i < |StreamOf(f.outbox, o)| ==> StockFactIsTrue(f, o, lines, StreamOf(f.outbox, o)[i]))
    && (o in f.despatches ==> DespatchFact(f.despatches[o]) in StreamOf(f.outbox, o))
  }

  // ---- Every transaction of the order ----

  lemma FactStaysTrue(f: FulfillmentState, t: FulfillmentState, o: OrderId, lines: seq<OrderLine>, fact: Fact)
    requires StockFactIsTrue(f, o, lines, fact) && t.stock.Keys == f.stock.Keys
    requires o in f.despatches ==> o in t.despatches && t.despatches[o] == f.despatches[o]
    ensures StockFactIsTrue(t, o, lines, fact)
  {
    assert AllStocked(f, lines) <==> AllStocked(t, lines);
  }

  /** One more true fact, the units as ordered, and the despatch announced if it is new. */
  lemma StillTells(f: FulfillmentState, t: FulfillmentState, o: OrderId, lines: seq<OrderLine>, fact: Fact)
    requires StockTells(f, o, lines) && t.stock.Keys == f.stock.Keys
    requires o in f.despatches ==> o in t.despatches && t.despatches[o] == f.despatches[o]
    requires StreamOf(t.outbox, o) == StreamOf(f.outbox, o) + [fact] && StockFactIsTrue(t, o, lines, fact)
    requires ReservedAsOrdered(t, o, lines)
    requires o in t.despatches && o !in f.despatches ==> fact == DespatchFact(t.despatches[o])
    ensures StockTells(t, o, lines)
  {
    forall i | 0 <= i < |StreamOf(t.outbox, o)| ensures StockFactIsTrue(t, o, lines, StreamOf(t.outbox, o)[i]) {
      if i < |StreamOf(f.outbox, o)| {
        FactStaysTrue(f, t, o, lines, StreamOf(f.outbox, o)[i]);
      }
    }
  }

  lemma AllStockedIff(f: FulfillmentState, lines: seq<OrderLine>)
    ensures AllStocked(f, lines) <==> ProductsOf(ReserveLinesOf(lines)) <= f.stock.Keys
  {
    var asked := ReserveLinesOf(lines);
    assert forall i :: 0 <= i < |lines| ==>
           asked[i].product == lines[i].product && asked[i].product in ProductsOf(asked);
    if AllStocked(f, lines) {
      forall p | p in ProductsOf(asked) ensures p in f.stock {
        var i :| 0 <= i < |asked| && asked[i].product == p;
      }
    }
  }

  lemma ShortagesNameLines(lines: seq<OrderLine>, shortages: seq<Shortage>)
    requires forall x :: x in shortages ==> exists k :: && 0 <= k < |ReserveLinesOf(lines)|
                                                        && x.product == ReserveLinesOf(lines)[k].product
                                                        && x.requested == ReserveLinesOf(lines)[k].units
    ensures forall x :: x in shortages ==> NamesALine(x, lines)
  {
    forall x | x in shortages ensures NamesALine(x, lines) {
      var k :| && 0 <= k < |ReserveLinesOf(lines)| && x.product == ReserveLinesOf(lines)[k].product
               && x.requested == ReserveLinesOf(lines)[k].units;
      assert x.product == lines[k].product && x.requested == lines[k].quantity;
    }
  }

  lemma FirstReserveTells(f: FulfillmentState, o: OrderId, lines: seq<OrderLine>)
    requires TableOk(f) && lines != [] && InPhase(f.reservations, o, None) && o !in f.despatches
    requires StockTells(f, o, lines) && ReserveTx(f, o, ReserveLinesOf(lines)).0.stock.Keys == f.stock.Keys
    ensures StockTells(ReserveTx(f, o, ReserveLinesOf(lines)).0, o, lines)
  {
    var asked := ReserveLinesOf(lines);
    var (t, reply) := ReserveTx(f, o, asked);
    ReserveFirst(f, o, asked);
    match reply
    case Err(_) =>
    case Ok(ShortOf(shortages)) => RefusalTells(f, t, o, lines, shortages);
    case Ok(Accepted(refs)) =>
      ReservedUnits(f, o, asked);
      AcceptanceTells(f, t, o, lines, refs);
  }

  lemma AcceptanceTells(f: FulfillmentState, t: FulfillmentState, o: OrderId, lines: seq<OrderLine>,
                        refs: seq<ReservationRef>)
    requires StockTells(f, o, lines) && t.stock.Keys == f.stock.Keys && o !in f.despatches
    requires DecidedFirst(f, t, o, ReserveLinesOf(lines), Ok(Accepted(refs)))
    requires forall p :: UnitsAt(t.reservations, o, p) == RequestedOf(ReserveLinesOf(lines), p)
    ensures StockTells(t, o, lines)
  {
    forall p ensures UnitsAt(t.reservations, o, p) == OrderedUnits(lines, p) {
      RequestedIsOrdered(lines, p);
    }
    assert StockFactIsTrue(t, o, lines, StockReservedFact(refs));
    StillTells(f, t, o, lines, StockReservedFact(refs));
  }

  lemma RefusalTells(f: FulfillmentState, t: FulfillmentState, o: OrderId, lines: seq<OrderLine>,
                     shortages: seq<Shortage>)
    requires lines != [] && StockTells(f, o, lines) && t.stock.Keys == f.stock.Keys && o !in f.despatches
    requires DecidedFirst(f, t, o, ReserveLinesOf(lines), Ok(ShortOf(shortages)))
    ensures StockTells(t, o, lines)
  {
    var refusal := if ProductsOf(ReserveLinesOf(lines)) <= f.stock.Keys then InsufficientStock else UnknownProduct;
    AllStockedIff(f, lines);
    AllStockedIff(t, lines);
    ShortagesNameLines(lines, shortages);
    assert ReservedAsOrdered(f, o, lines) ==> ReservedAsOrdered(t, o, lines);
    StillTells(f, t, o, lines, StockRejectedFact(shortages, refusal));
  }

  lemma ReserveTells(f: FulfillmentState, o: OrderId, lines: seq<OrderLine>, phase: S.StockPhase)
    requires TableOk(f) && lines != [] && StockIs(f, o, lines, phase)
    requires StockTells(f, o, lines) && ReserveTx(f, o, ReserveLinesOf(lines)).0.stock.Keys == f.stock.Keys
    ensures StockTells(ReserveTx(f, o, ReserveLinesOf(lines)).0, o, lines)
  {
    if phase == S.StockUntouched {
      FirstReserveTells(f, o, lines);
    } else {
      ReserveOnceReserved(f, o, ReserveLinesOf(lines), StatusOf(phase).value);
    }
  }

  lemma ReleaseTells(f: FulfillmentState, o: OrderId, lines: seq<OrderLine>, phase: S.StockPhase,
                     reason: StockReleaseReason)
    requires TableOk(f) && StockIs(f, o, lines, phase)
    requires StockTells(f, o, lines) && ReleaseTx(f, o, reason).0.stock.Keys == f.stock.Keys
    ensures StockTells(ReleaseTx(f, o, reason).0, o, lines)
  {
    var (t, reply) := ReleaseTx(f, o, reason);
    ReleaseByPhase(f, o, reason, StatusOf(phase));
    if phase == S.StockHeld {
      ReleasedUnits(f, o, reason);
      assert StockFactIsTrue(t, o, lines, StockReleasedFact(reply.value.released, reason));
      StillTells(f, t, o, lines, StockReleasedFact(reply.value.released, reason));
    }
  }

  lemma DespatchTells(f: FulfillmentState, o: OrderId, lines: seq<OrderLine>, phase: S.StockPhase)
    requires TableOk(f) && StockIs(f, o, lines, phase)
    requires StockTells(f, o, lines) && DespatchTx(f, o).0.stock.Keys == f.stock.Keys
    ensures StockTells(DespatchTx(f, o).0, o, lines)
  {
    var t := DespatchTx(f, o).0;
    DespatchByPhase(f, o, StatusOf(phase));
    if phase == S.StockHeld {
      DespatchedUnits(f, o);
      assert StockFactIsTrue(t, o, lines, DespatchFact(t.despatches[o]));
      StillTells(f, t, o, lines, DespatchFact(t.despatches[o]));
    }
  }

  lemma PayloadTells(f: FulfillmentState, o: OrderId, lines: seq<OrderLine>, phase: S.StockPhase,
                     payload: CommandPayload)
    requires ValidTables(f) && lines != [] && StockIs(f, o, lines, phase) && StockTells(f, o, lines)
    requires payload.ReserveStockPayload? ==> payload.reserveLines == ReserveLinesOf(lines)
    ensures StockTells(V.AfterPayload(f, o, payload), o, lines)
  {
    V.PayloadKeepsCatalogue(f, o, payload);
    match payload
    case ReserveStockPayload(_) => ReserveTells(f, o, lines, phase);
    case ReleaseStockPayload(reason) => ReleaseTells(f, o, lines, phase, reason);
    case CreateDespatchPayload => DespatchTells(f, o, lines, phase);
    case _ =>
  }

  // ---- Over whole runs ----

  ghost predicate TellsAt(y: SystemState, o: OrderId) {
    o in y.orders.orders ==> StockTells(y.fulfillment, o, y.orders.orders[o].lines)
  }

  lemma OwnExecutionTells(y: SystemState, o: OrderId, g: S.SagaState, kind: CommandKind, decision: CreditDecision)
    requires ValidTables(y.fulfillment) && StandsFor(y, o, g) && (o, kind) in y.orders.commands && TellsAt(y, o)
    ensures StockTells(Executing(y, o, kind, decision).fulfillment, o, y.orders.orders[o].lines)
  {
    X.RowPayload(y, o, g, kind);
    V.ExecutedFulfillment(y, o, kind, decision);
    PayloadTells(y.fulfillment, o, y.orders.orders[o].lines, g.stock, y.orders.commands[(o, kind)].payload);
  }

  /** Whatever leaves the order's rows, its stream and its despatch alone. */
  lemma UntouchedTells(f: FulfillmentState, t: FulfillmentState, o: OrderId, lines: seq<OrderLine>)
    requires StockTells(f, o, lines) && t.stock.Keys == f.stock.Keys && StreamOf(t.outbox, o) == StreamOf(f.outbox, o)
    requires forall key: (OrderId, ProductCode) :: key.0 == o ==>
               (key in t.reservations <==> key in f.reservations)
               && (key in f.reservations ==> t.reservations[key] == f.reservations[key])
    requires (o in t.despatches <==> o in f.despatches) && (o in f.despatches ==> t.despatches[o] == f.despatches[o])
    ensures StockTells(t, o, lines)
  {
    assert forall p :: RowsAt(t.reservations, o, p) == RowsAt(f.reservations, o, p);
    assert InPhase(f.reservations, o, None) ==> InPhase(t.reservations, o, None);
    forall i | 0 <= i < |StreamOf(t.outbox, o)| ensures StockFactIsTrue(t, o, lines, StreamOf(t.outbox, o)[i]) {
      FactStaysTrue(f, t, o, lines, StreamOf(f.outbox, o)[i]);
    }
  }

  lemma OtherExecutionTells(y: SystemState, hs: map<OrderId, History>, other: OrderId, kind: CommandKind,
                            decision: CreditDecision, o: OrderId)
    requires SystemOk(y, hs) && (other, kind) in y.orders.commands && other != o && o in y.orders.orders
             && TellsAt(y, o)
    ensures StockTells(Executing(y, other, kind, decision).fulfillment, o, y.orders.orders[o].lines)
  {
    V.ExecutionOfAnother(y, hs, other, kind, decision);
    UntouchedTells(y.fulfillment, Executing(y, other, kind, decision).fulfillment, o, y.orders.orders[o].lines);
  }

  lemma OtherStepsTellNothing(y: SystemState, step: SystemStep, o: OrderId)
    requires step.Execute? ==> (step.order, step.kind) !in y.orders.commands
    ensures var f, t := y.fulfillment, SystemNext(y, step).fulfillment;
            && t.reservations == f.reservations && t.despatches == f.despatches && t.outbox == f.outbox
            && t.stock.Keys == f.stock.Keys
  {
  }

  lemma StepTells(y: SystemState, hs: map<OrderId, History>, step: SystemStep, o: OrderId)
    requires SystemOk(y, hs) && o in y.orders.orders && TellsAt(y, o)
    ensures StockTells(SystemNext(y, step).fulfillment, o, y.orders.orders[o].lines)
  {
    if step.Execute? && (step.order, step.kind) in y.orders.commands {
      if step.order == o {
        assert ExplainedAt(y, hs, o);
        OwnExecutionTells(y, o, Now(hs[o]), step.kind, step.decision);
      } else {
        OtherExecutionTells(y, hs, step.order, step.kind, step.decision, o);
      }
    } else {
      OtherStepsTellNothing(y, step, o);
      UntouchedTells(y.fulfillment, SystemNext(y, step).fulfillment, o, y.orders.orders[o].lines);
    }
  }

  lemma NewOrderTells(y: SystemState, step: SystemStep, o: OrderId)
    requires NeverPlaced(y, o) && o in SystemNext(y, step).orders.orders
    ensures TellsAt(SystemNext(y, step), o)
  {
    assert step.PlaceOrder? ==> SystemNext(y, step).fulfillment == y.fulfillment;
    NotPlacedByOthers(y, step, o);
    assert StreamAt(y, Fulfillment, o) == [];
  }

  /** After any run: an order that has reservations has the units of its own lines reserved, released or consumed on
      every product, and all facts that Fulfillment has published of it count these units. */
  lemma {:induction false} UnitsAreOrdered(y0: SystemState, steps: seq<SystemStep>, o: OrderId)
    requires Initial(y0)
    ensures TellsAt(RunSystem(y0, steps), o)
  {
    if steps != [] {
      var init, last := steps[..|steps| - 1], steps[|steps| - 1];
      var y := RunSystem(y0, init);
      UnitsAreOrdered(y0, init, o);
      var hs := SystemRefinesSagas(y0, init);
      if o in y.orders.orders {
        StepTells(y, hs, last, o);
        StepKeepsTerms(y, last, o);
      } else if o in SystemNext(y, last).orders.orders {
        assert ExplainedAt(y, hs, o);
        NewOrderTells(y, last, o);
      }
    }
  }

  /** In particular, what is despatched is what was ordered. */
  lemma DespatchedAsOrdered(y0: SystemState, steps: seq<SystemStep>, o: OrderId)
    requires Initial(y0) && o in RunSystem(y0, steps).fulfillment.despatches
    ensures var y := RunSystem(y0, steps);
            && o in y.orders.orders && AsOrdered(y.fulfillment.despatches[o].lines, y.orders.orders[o].lines)
            && forall p :: UnitsAt(y.fulfillment.reservations, o, p) == OrderedUnits(y.orders.orders[o].lines, p)
  {
    var y := RunSystem(y0, steps);
    var hs := SystemRefinesSagas(y0, steps);
    assert ExplainedAt(y, hs, o);
    UnitsAreOrdered(y0, steps, o);
    DespatchTold(y.fulfillment, o, y.orders.orders[o].lines, Now(hs[o]).stock);
  }

  lemma DespatchTold(f: FulfillmentState, o: OrderId, lines: seq<OrderLine>, phase: S.StockPhase)
    requires StockTells(f, o, lines) && StockIs(f, o, lines, phase) && o in f.despatches
    ensures AsOrdered(f.despatches[o].lines, lines)
    ensures forall p :: UnitsAt(f.reservations, o, p) == OrderedUnits(lines, p)
  {
    var stream := StreamOf(f.outbox, o);
    var i :| 0 <= i < |stream| && stream[i] == DespatchFact(f.despatches[o]);
    assert StockFactIsTrue(f, o, lines, stream[i]);
  }
}
