/** The Fulfillment transactions do to one order's reservations what the saga machine says. */
module FulfillmentSimulation {
  import opened Kernel
  import opened SagaSteps
  import opened Stock
  import opened OrderStock
  import opened FulfillmentTables
  import opened FulfillmentInvariants
  import opened FulfillmentPhases
  import opened Abstraction
  import S = Saga

  ghost predicate FulfillmentIs(f: FulfillmentState, o: OrderId, lines: seq<OrderLine>, g: S.SagaState) {
    && StockIs(f, o, lines, g.stock)
    && StockStreamIs(StreamOf(f.outbox, o), g.refusals.stock, g.stock, g.byOperator)
  }

  /** Some product of the order is in the stock table. */
  predicate AnyProductKnown(f: FulfillmentState, lines: seq<OrderLine>) {
    exists k :: 0 <= k < |lines| && lines[k].product in f.stock
  }

  lemma StreamGrows(was: seq<Fact>, refusals: nat, phase: S.StockPhase, byOperator: bool, fact: Fact, refusals': nat,
                    phase': S.StockPhase)
    requires StockStreamIs(was, refusals, phase, byOperator)
    requires refusals' + S.StockFacts(phase') == |was| + 1
    requires forall i: nat :: i < |was| ==> S.StockEvent(refusals', phase', i) == S.StockEvent(refusals, phase, i)
    requires IsEvent(fact, S.StockEvent(refusals', phase', |was|))
    requires fact.StockReleasedFact? ==> fact.releaseReason == ReleaseReasonOf(byOperator)
    ensures StockStreamIs(was + [fact], refusals', phase', byOperator)
  {
  }

  /** One fact more, and the reservations in the phase it announces. */
  lemma PhaseMoves(f: FulfillmentState, t: FulfillmentState, o: OrderId, lines: seq<OrderLine>, g: S.SagaState,
                   fact: Fact, g': S.SagaState)
    requires FulfillmentIs(f, o, lines, g) && g'.byOperator == g.byOperator
    requires StockIs(t, o, lines, g'.stock) && StreamOf(t.outbox, o) == StreamOf(f.outbox, o) + [fact]
    requires g'.refusals.stock + S.StockFacts(g'.stock) == S.StockLength(g) + 1
    requires forall i: nat :: i < S.StockLength(g) ==>
        S.StockEvent(g'.refusals.stock, g'.stock, i) == S.StockEvent(g.refusals.stock, g.stock, i)
    requires IsEvent(fact, S.StockEventAt(g', S.StockLength(g)))
    requires fact.StockReleasedFact? ==> fact.releaseReason == ReleaseReasonOf(g.byOperator)
    ensures FulfillmentIs(t, o, lines, g')
  {
    StreamGrows(StreamOf(f.outbox, o), g.refusals.stock, g.stock, g.byOperator, fact, g'.refusals.stock, g'.stock);
  }

  /** What the reply to a first `stock.reserve` says about the decision. */
  function DecisionIn(reply: Result<StockReply, StockError>): S.Decision {
    match reply
    case Ok(Accepted(_)) => S.Accept
    case Ok(ShortOf(_)) => S.Decline
    case _ => S.NoDecision
  }

  lemma FirstAcceptance(f: FulfillmentState, t: FulfillmentState, o: OrderId, lines: seq<OrderLine>, g: S.SagaState,
                        refs: seq<ReservationRef>)
    requires FulfillmentIs(f, o, lines, g) && g.stock == S.StockUntouched
    requires DecidedFirst(f, t, o, ReserveLinesOf(lines), Ok(Accepted(refs)))
    ensures FulfillmentIs(t, o, lines, S.ReserveExecuted(g, S.Accept))
  {
    PhaseMoves(f, t, o, lines, g, StockReservedFact(refs), S.ReserveExecuted(g, S.Accept));
  }

  lemma FirstRefusal(f: FulfillmentState, t: FulfillmentState, o: OrderId, lines: seq<OrderLine>, g: S.SagaState,
                     shortages: seq<Shortage>)
    requires FulfillmentIs(f, o, lines, g) && g.stock == S.StockUntouched
    requires DecidedFirst(f, t, o, ReserveLinesOf(lines), Ok(ShortOf(shortages)))
    ensures FulfillmentIs(t, o, lines, S.ReserveExecuted(g, S.Decline))
  {
    var reason :| StreamOf(t.outbox, o) == StreamOf(f.outbox, o) + [StockRejectedFact(shortages, reason)];
    PhaseMoves(f, t, o, lines, g, StockRejectedFact(shortages, reason), S.ReserveExecuted(g, S.Decline));
  }

  lemma FirstDecision(f: FulfillmentState, t: FulfillmentState, o: OrderId, lines: seq<OrderLine>, g: S.SagaState,
                      reply: Result<StockReply, StockError>)
    requires FulfillmentIs(f, o, lines, g) && g.stock == S.StockUntouched
    requires DecidedFirst(f, t, o, ReserveLinesOf(lines), reply)
    ensures FulfillmentIs(t, o, lines, S.ReserveExecuted(g, DecisionIn(reply)))
  {
    match reply
    case Err(_) =>
    case Ok(Accepted(refs)) => FirstAcceptance(f, t, o, lines, g, refs);
    case Ok(ShortOf(shortages)) => FirstRefusal(f, t, o, lines, g, shortages);
  }

  /** `stock.reserve`: the first decision moves the order, and whatever comes later finds it decided or open again. */
  lemma ReserveRefines(f: FulfillmentState, o: OrderId, lines: seq<OrderLine>, g: S.SagaState)
    requires TableOk(f) && lines != [] && FulfillmentIs(f, o, lines, g)
    ensures var (t, reply) := ReserveTx(f, o, ReserveLinesOf(lines));
            && FulfillmentIs(t, o, lines, S.ReserveExecuted(g, DecisionIn(reply))) && OthersUntouched(f, t, o)
            && (DecisionIn(reply) == S.NoDecision ==> g.stock != S.StockUntouched || !AnyProductKnown(f, lines))
  {
    if g.stock != S.StockUntouched {
      ReserveOnceReserved(f, o, ReserveLinesOf(lines), StatusOf(g.stock).value);
    } else {
      ReserveFirst(f, o, ReserveLinesOf(lines));
      FirstDecision(f, ReserveTx(f, o, ReserveLinesOf(lines)).0, o, lines, g, ReserveTx(f, o, ReserveLinesOf(lines)).1);
      if ReserveTx(f, o, ReserveLinesOf(lines)).1.Err? {
        RefusedOnlyWithoutProducts(f, o, lines);
      }
    }
  }

  lemma RefusedOnlyWithoutProducts(f: FulfillmentState, o: OrderId, lines: seq<OrderLine>)
    requires lines != [] && InPhase(f.reservations, o, None) && ReserveTx(f, o, ReserveLinesOf(lines)).1.Err?
    ensures !AnyProductKnown(f, lines)
  {
    var wanted := ReserveLinesOf(lines);
    var ps := KnownProducts(f, wanted);
    assert !HasReservationsOn(f, o, ps);
    AcceptedIffEveryProductFits(AvailabilityOf(f, ps), wanted);
    forall k | 0 <= k < |lines| ensures lines[k].product !in f.stock {
      assert wanted[k].product == lines[k].product && wanted[k].product !in AvailabilityOf(f, ps);
      assert wanted[k].product !in ps;
    }
  }

  lemma ReleaseRefines(f: FulfillmentState, o: OrderId, lines: seq<OrderLine>, g: S.SagaState)
    requires TableOk(f) && FulfillmentIs(f, o, lines, g)
    ensures var t := ReleaseTx(f, o, ReleaseReasonOf(g.byOperator)).0;
            FulfillmentIs(t, o, lines, S.ReleaseExecuted(g)) && OthersUntouched(f, t, o)
  {
    if g.stock == S.StockHeld {
      ReleaseByPhase(f, o, ReleaseReasonOf(g.byOperator), Some(Reserved));
      ReleaseMoves(f, ReleaseTx(f, o, ReleaseReasonOf(g.byOperator)).0, o, lines, g,
                   ReleaseTx(f, o, ReleaseReasonOf(g.byOperator)).1.value.released);
    } else {
      ReleaseByPhase(f, o, ReleaseReasonOf(g.byOperator), StatusOf(g.stock));
    }
  }

  lemma ReleaseMoves(f: FulfillmentState, t: FulfillmentState, o: OrderId, lines: seq<OrderLine>, g: S.SagaState,
                     refs: seq<ReservationRef>)
    requires FulfillmentIs(f, o, lines, g) && g.stock == S.StockHeld
    requires InPhase(t.reservations, o, Some(Released)) && SameItemsFor(f.reservations, t.reservations, o)
             && t.despatches == f.despatches
    requires StreamOf(t.outbox, o) == StreamOf(f.outbox, o) + [StockReleasedFact(refs, ReleaseReasonOf(g.byOperator))]
    ensures FulfillmentIs(t, o, lines, S.ReleaseExecuted(g))
  {
    LinesStay(f, t, o, lines);
    PhaseMoves(f, t, o, lines, g, StockReleasedFact(refs, ReleaseReasonOf(g.byOperator)), S.ReleaseExecuted(g));
  }

  lemma DespatchIdle(f: FulfillmentState, o: OrderId, phase: S.StockPhase)
    requires TableOk(f) && phase != S.StockHeld && InPhase(f.reservations, o, StatusOf(phase))
             && (o in f.despatches <==> phase == S.StockShipped)
    ensures DespatchTx(f, o).0 == f
  {
    DespatchByPhase(f, o, StatusOf(phase));
  }

  lemma DespatchRefines(f: FulfillmentState, o: OrderId, lines: seq<OrderLine>, g: S.SagaState)
    requires TableOk(f) && FulfillmentIs(f, o, lines, g)
    ensures var t := DespatchTx(f, o).0;
            FulfillmentIs(t, o, lines, S.DespatchExecuted(g)) && OthersUntouched(f, t, o)
  {
    if g.stock == S.StockHeld {
      DespatchByPhase(f, o, Some(Reserved));
      DespatchMoves(f, DespatchTx(f, o).0, o, lines, g);
    } else {
      DespatchIdle(f, o, g.stock);
    }
  }

  lemma DespatchMoves(f: FulfillmentState, t: FulfillmentState, o: OrderId, lines: seq<OrderLine>, g: S.SagaState)
    requires FulfillmentIs(f, o, lines, g) && g.stock == S.StockHeld
    requires InPhase(t.reservations, o, Some(Consumed)) && SameItemsFor(f.reservations, t.reservations, o)
             && o in t.despatches
    requires StreamOf(t.outbox, o) == StreamOf(f.outbox, o) + [DespatchFact(t.despatches[o])]
    ensures FulfillmentIs(t, o, lines, S.DespatchExecuted(g))
  {
    LinesStay(f, t, o, lines);
    PhaseMoves(f, t, o, lines, g, DespatchFact(t.despatches[o]), S.DespatchExecuted(g));
  }

  lemma LinesStay(f: FulfillmentState, t: FulfillmentState, o: OrderId, lines: seq<OrderLine>)
    requires OnLines(f.reservations, o, ReserveLinesOf(lines)) && SameItemsFor(f.reservations, t.reservations, o)
    ensures OnLines(t.reservations, o, ReserveLinesOf(lines))
  {
    forall key | key in t.reservations && key.0 == o ensures key.1 in ProductsOf(ReserveLinesOf(lines)) {
      assert key in f.reservations;
    }
  }

  /** Another order's part of the tables stands for the same saga state as before. */
  lemma OtherOrderStays(f: FulfillmentState, t: FulfillmentState, o: OrderId, other: OrderId, lines: seq<OrderLine>,
                        g: S.SagaState)
    requires OthersUntouched(f, t, o) && other != o && FulfillmentIs(f, other, lines, g)
    ensures FulfillmentIs(t, other, lines, g)
  {
    PhaseOfAnotherOrder(f, t, o, other, StatusOf(g.stock));
    forall key | key in t.reservations && key.0 == other ensures key.1 in ProductsOf(ReserveLinesOf(lines)) {
      assert key in f.reservations;
    }
  }
}
