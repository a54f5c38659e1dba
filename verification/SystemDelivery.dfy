/** A delivery moves exactly one order, and moves it as the saga machine says. */
module SystemDelivery {
  import opened Kernel
  import opened SagaSteps
  import opened OrdersService
  import opened Abstraction
  import OS = OrdersSimulation
  import FS = FulfillmentSimulation
  import BS = BillingSimulation
  import S = Saga
  import I = SagaInvariant
  import N = SagaTermination
  import opened System
  import opened SystemRefinement

  lemma EventsNeedWork(f: Fact, e: S.SagaEvent)
    requires IsEvent(f, e)
    ensures !NeedsNoWork(f)
  {
    assert |StepVariantsFor(f)| >= 1 && !StepVariantsFor(f)[0].Skip?;
  }

  /** `g` and `t` agree on everything that the Orders tables show. */
  predicate SameOrdersView(g: S.SagaState, t: S.SagaState) {
    && t.status == g.status && t.reason == g.reason && t.positive == g.positive && t.byOperator == g.byOperator
    && t.sawCompensating == g.sawCompensating && t.sawOther == g.sawOther
    && forall kind: CommandKind :: StateOf(kind, t) == StateOf(kind, g)
  }

  lemma SameViewSamePart(y: SystemState, o: OrderId, g: S.SagaState, t: S.SagaState)
    requires OrdersPart(y, o, g) && SameOrdersView(g, t)
    ensures OrdersPart(y, o, t)
  {
    forall kind: CommandKind
      ensures RowIs(RowFor(y.orders.commands, o, kind), (o, kind) in y.answered,
                    PayloadOf(kind, y.orders.orders[o], t.byOperator), StateOf(kind, t))
    {
      assert RowIs(RowFor(y.orders.commands, o, kind), (o, kind) in y.answered,
                   PayloadOf(kind, y.orders.orders[o], g.byOperator), StateOf(kind, g));
    }
  }

  /** A handled fact: the Orders tables after it, the offset advanced. */
  function Acknowledged(y: SystemState, p: Producer, o: OrderId, k: nat, t: OrdersState): SystemState {
    y.(orders := t, delivered := y.delivered[(p, o) := k + 1])
  }

  lemma HandledOnlyMoves(y: SystemState, p: Producer, o: OrderId, k: nat, t: OrdersState, e: Envelope, g1: S.SagaState)
    requires OS.Simulates(y.orders, t, y.answered, o, e, g1) && e.eventId == EventId(p, o, k)
    ensures OnlyMoves(y, Acknowledged(y, p, o, k, t), o)
  {
    var z := Acknowledged(y, p, o, k, t);
    forall other | other != o
      ensures (other in z.orders.orders <==> other in y.orders.orders)
              && (other in y.orders.orders ==> z.orders.orders[other] == y.orders.orders[other])
    {
      assert other in t.orders.Keys <==> other in y.orders.orders.Keys;
    }
  }

  lemma HandledOrdersPart(y: SystemState, p: Producer, o: OrderId, k: nat, t: OrdersState, e: Envelope, g: S.SagaState,
                          g1: S.SagaState)
    requires OrdersPart(y, o, g) && OS.Simulates(y.orders, t, y.answered, o, e, g1)
    requires g1.sawCompensating == g.sawCompensating && g1.sawOther == g.sawOther
    ensures OrdersPart(Acknowledged(y, p, o, k, t), o, g1)
  {
    var facts :| StreamOf(t.outbox, o) == StreamOf(y.orders.outbox, o) + facts
                 && Announces(facts, y.orders.orders[o].status, t.orders[o].status);
    StreamStaysOrders(StreamOf(y.orders.outbox, o), facts, g.status, g1.status);
  }

  lemma StreamStaysOrders(was: seq<Fact>, facts: seq<Fact>, before: OrderStatus, after: OrderStatus)
    requires OrdersStreamIs(was, before) && Announces(facts, before, after)
    ensures OrdersStreamIs(was + facts, after)
  {
    var now := was + facts;
    assert forall i :: 0 <= i < |was| ==> now[i] == was[i];
    if facts == [] {
      assert now == was;
    } else {
      assert now[|was|] == facts[0];
    }
  }

  /** What a reaction can change: the order and its rows. */
  lemma ReactionKeepsTheRest(g: S.SagaState, r: S.Reaction)
    requires r.Acts? ==> N.Climbs(g, r.next)
    ensures var g1 := OS.After(g, r);
            && g1.stock == g.stock && g1.refusals.stock == g.refusals.stock && g1.stockSeen == g.stockSeen
            && g1.credit == g.credit && g1.refusals.credit == g.refusals.credit && g1.creditSeen == g.creditSeen
            && g1.placedSeen == g.placedSeen && g1.byOperator == g.byOperator && g1.reference == g.reference
               && g1.positive == g.positive
            && g1.sawCompensating == g.sawCompensating && g1.sawOther == g.sawOther
  {
  }

  /** The parts put together again. */
  lemma Reassembled(y: SystemState, z: SystemState, o: OrderId, g: S.SagaState, g1: S.SagaState, g2: S.SagaState)
    requires StandsFor(y, o, g) && OrdersPart(z, o, g1) && SameOrdersView(g1, g2) && DeliveryPart(z, o, g2)
    requires z.fulfillment == y.fulfillment && z.billing == y.billing
    requires z.orders.orders[o]
             == y.orders.orders[o].(status := z.orders.orders[o].status,
                                    cancellationReason := z.orders.orders[o].cancellationReason)
    requires g2.stock == g.stock && g2.refusals.stock == g.refusals.stock && g2.credit == g.credit
             && g2.refusals.credit == g.refusals.credit
    requires g2.reference == g.reference && (g2.byOperator == g.byOperator || g.stock != S.StockFreed)
    ensures StandsFor(z, o, g2)
  {
    SameViewSamePart(z, o, g1, g2);
    SameElsewhere(y, z, o, g, g2);
  }

  lemma SameElsewhere(y: SystemState, z: SystemState, o: OrderId, g: S.SagaState, g2: S.SagaState)
    requires StandsFor(y, o, g) && z.fulfillment == y.fulfillment && z.billing == y.billing && o in z.orders.orders
    requires z.orders.orders[o].lines == y.orders.orders[o].lines
    requires z.orders.orders[o].credit == y.orders.orders[o].credit
             && z.orders.orders[o].currency == y.orders.orders[o].currency
    requires g2.stock == g.stock && g2.refusals.stock == g.refusals.stock && g2.credit == g.credit
             && g2.refusals.credit == g.refusals.credit
    requires g2.byOperator == g.byOperator || g.stock != S.StockFreed
    ensures FS.FulfillmentIs(z.fulfillment, o, z.orders.orders[o].lines, g2)
    ensures BS.BillingIs(z.billing.state, o, z.orders.orders[o], g2)
    ensures ReferenceOf(z, z.orders.orders[o]) == ReferenceOf(y, y.orders.orders[o])
  {
    if g.stock != S.StockFreed {
      NoReleaseYet(StreamOf(y.fulfillment.outbox, o), g.refusals.stock, g.stock, g.byOperator, g2.byOperator);
    }
  }

  lemma NoReleaseYet(facts: seq<Fact>, refusals: nat, phase: S.StockPhase, was: bool, now: bool)
    requires StockStreamIs(facts, refusals, phase, was) && phase != S.StockFreed
    ensures StockStreamIs(facts, refusals, phase, now)
  {
    forall i | 0 <= i < |facts| ensures !facts[i].StockReleasedFact? {
      assert IsEvent(facts[i], S.StockEvent(refusals, phase, i));
    }
  }

  lemma HandledDeliveryPart(y: SystemState, p: Producer, o: OrderId, k: nat, t: OrdersState, e: Envelope,
                            g: S.SagaState, g2: S.SagaState)
    requires DeliveryPart(y, o, g) && t.processed == y.orders.processed + {e.eventId} && e.eventId == EventId(p, o, k)
             && k == Offset(y, p, o)
    requires match p
             case Orders =>
               && !g.placedSeen && g2.placedSeen && g2.stockSeen == g.stockSeen
               && g2.creditSeen == g.creditSeen
             case Fulfillment =>
               && g2.stockSeen == g.stockSeen + 1 && g2.placedSeen == g.placedSeen
               && g2.creditSeen == g.creditSeen
             case Billing =>
               && g2.creditSeen == g.creditSeen + 1 && g2.placedSeen == g.placedSeen
               && g2.stockSeen == g.stockSeen
    ensures DeliveryPart(Acknowledged(y, p, o, k, t), o, g2)
  {
  }

  // ---- First deliveries ----

  /** A reaction counted as seen in its stream. */
  function Counted(g: S.SagaState, g1: S.SagaState, p: Producer): S.SagaState {
    match p
    case Orders => g1.(placedSeen := true)
    case Fulfillment => g1.(stockSeen := g.stockSeen + 1)
    case Billing => g1.(creditSeen := g.creditSeen + 1)
  }

  lemma FirstDelivery(y: SystemState, p: Producer, o: OrderId, k: nat, e: Envelope, g: S.SagaState, r: S.Reaction)
    requires StandsFor(y, o, g) && k == Offset(y, p, o) && (p == Orders ==> !g.placedSeen)
             && e.eventId == EventId(p, o, k)
    requires OS.Simulates(y.orders, HandleFact(y.orders, e).0, y.answered, o, e, OS.After(g, r))
             && (r.Acts? ==> N.Climbs(g, r.next))
    ensures var z := Acknowledged(y, p, o, k, HandleFact(y.orders, e).0);
            OnlyMoves(y, z, o) && StandsFor(z, o, Counted(g, OS.After(g, r), p))
  {
    FirstDeliveryTo(y, p, o, k, HandleFact(y.orders, e).0, e, g, r);
  }

  lemma FirstDeliveryTo(y: SystemState, p: Producer, o: OrderId, k: nat, t: OrdersState, e: Envelope, g: S.SagaState,
                        r: S.Reaction)
    requires StandsFor(y, o, g) && k == Offset(y, p, o) && (p == Orders ==> !g.placedSeen)
             && e.eventId == EventId(p, o, k)
    requires OS.Simulates(y.orders, t, y.answered, o, e, OS.After(g, r)) && (r.Acts? ==> N.Climbs(g, r.next))
    ensures var z := Acknowledged(y, p, o, k, t);
            OnlyMoves(y, z, o) && StandsFor(z, o, Counted(g, OS.After(g, r), p))
  {
    var g1, z := OS.After(g, r), Acknowledged(y, p, o, k, t);
    ReactionKeepsTheRest(g, r);
    HandledOnlyMoves(y, p, o, k, t, e, g1);
    HandledOrdersPart(y, p, o, k, t, e, g, g1);
    CountedParts(g, g1, p);
    HandledDeliveryPart(y, p, o, k, t, e, g, Counted(g, g1, p));
    Reassembled(y, z, o, g, g1, Counted(g, g1, p));
  }

  lemma CountedParts(g: S.SagaState, g1: S.SagaState, p: Producer)
    requires g1.stockSeen == g.stockSeen && g1.creditSeen == g.creditSeen && g1.placedSeen == g.placedSeen
    ensures var g2 := Counted(g, g1, p);
            && SameOrdersView(g1, g2) && g2.stock == g1.stock && g2.refusals.stock == g1.refusals.stock
               && g2.credit == g1.credit
            && g2.refusals.credit == g1.refusals.credit && g2.reference == g1.reference
               && g2.byOperator == g1.byOperator
            && (match p
                case Orders => g2.placedSeen && g2.stockSeen == g.stockSeen && g2.creditSeen == g.creditSeen
                case Fulfillment =>
                  && g2.stockSeen == g.stockSeen + 1 && g2.placedSeen == g.placedSeen
                  && g2.creditSeen == g.creditSeen
                case Billing =>
                  && g2.creditSeen == g.creditSeen + 1 && g2.placedSeen == g.placedSeen
                  && g2.stockSeen == g.stockSeen)
  {
  }

  lemma NotApprovedStatus(g: S.SagaState)
    requires I.SagaInv(g)
    ensures g.status != CreditApproved
  {
  }

  function NextEnvelope(y: SystemState, p: Producer, o: OrderId): Envelope
    requires Offset(y, p, o) < |StreamAt(y, p, o)|
  {
    Envelope(EventId(p, o, Offset(y, p, o)), o, StreamAt(y, p, o)[Offset(y, p, o)])
  }

  /** The handler's side of a first delivery. */
  lemma NextIsHandled(y: SystemState, p: Producer, o: OrderId, g: S.SagaState, event: S.SagaEvent)
    requires OrdersPart(y, o, g) && DeliveryPart(y, o, g) && Offset(y, p, o) < |StreamAt(y, p, o)|
    requires p == Orders ==> !g.placedSeen
    requires IsEvent(NextEnvelope(y, p, o).fact, event) && g.status != CreditApproved && !S.React(g, event).Throws?
    requires NextEnvelope(y, p, o).fact.StockReleasedFact? ==>
             NextEnvelope(y, p, o).fact.releaseReason == ReleaseReasonOf(g.byOperator)
    ensures OS.Handled(y.orders, y.answered, o, NextEnvelope(y, p, o), g, S.React(g, event))
  {
    var e := NextEnvelope(y, p, o);
    EventsNeedWork(e.fact, event);
    assert e.eventId !in y.orders.processed;
    OS.HandlingRefines(y.orders, y.answered, o, e, g, event);
  }

  /** And the whole system's. */
  lemma NextIsDelivered(y: SystemState, p: Producer, o: OrderId, g: S.SagaState, event: S.SagaEvent)
    requires StandsFor(y, o, g) && Offset(y, p, o) < |StreamAt(y, p, o)|
    requires p == Orders ==> !g.placedSeen
    requires OS.Handled(y.orders, y.answered, o, NextEnvelope(y, p, o), g, S.React(g, event))
    ensures var z := Delivering(y, p, o, Offset(y, p, o));
            OnlyMoves(y, z, o) && StandsFor(z, o, Counted(g, OS.After(g, S.React(g, event)), p))
  {
    N.ReactionClimbs(g, event);
    FirstDelivery(y, p, o, Offset(y, p, o), NextEnvelope(y, p, o), g, S.React(g, event));
    assert Delivering(y, p, o, Offset(y, p, o))
           == Acknowledged(y, p, o, Offset(y, p, o), HandleFact(y.orders, NextEnvelope(y, p, o)).0);
  }

  lemma StockStepIs(g: S.SagaState)
    requires S.StockPending(g) && !S.React(g, S.StockEventAt(g, g.stockSeen)).Throws?
    ensures S.Step(g, S.DeliverStock)
            == Counted(g, OS.After(g, S.React(g, S.StockEventAt(g, g.stockSeen))), Fulfillment)
  {
    N.ReactionClimbs(g, S.StockEventAt(g, g.stockSeen));
  }

  lemma CreditStepIs(g: S.SagaState)
    requires S.CreditPending(g) && !S.React(g, S.CreditEventAt(g, g.creditSeen)).Throws?
    ensures S.Step(g, S.DeliverCredit) == Counted(g, OS.After(g, S.React(g, S.CreditEventAt(g, g.creditSeen))), Billing)
  {
    N.ReactionClimbs(g, S.CreditEventAt(g, g.creditSeen));
  }

  lemma PlacedStepIs(g: S.SagaState)
    requires !g.placedSeen
    ensures S.Step(g, S.DeliverPlaced) == Counted(g, OS.After(g, S.React(g, S.PlacedEvent)), Orders)
  {
  }

  lemma StockDeliveryAt(y: SystemState, o: OrderId, g: S.SagaState)
    requires StandsFor(y, o, g) && S.StockPending(g) && g.status != CreditApproved
             && !S.React(g, S.StockEventAt(g, g.stockSeen)).Throws?
    ensures var z := Delivering(y, Fulfillment, o, g.stockSeen);
            OnlyMoves(y, z, o)
              && StandsFor(z, o, Counted(g, OS.After(g, S.React(g, S.StockEventAt(g, g.stockSeen))), Fulfillment))
  {
    NextIsHandled(y, Fulfillment, o, g, S.StockEventAt(g, g.stockSeen));
    NextIsDelivered(y, Fulfillment, o, g, S.StockEventAt(g, g.stockSeen));
  }

  lemma StockDelivery(y: SystemState, o: OrderId, g: S.SagaState)
    requires StandsFor(y, o, g) && I.SagaInv(g) && S.StockPending(g)
    ensures var z := Delivering(y, Fulfillment, o, g.stockSeen);
            OnlyMoves(y, z, o) && StandsFor(z, o, S.Step(g, S.DeliverStock))
  {
    I.StockDelivered(g);
    NotApprovedStatus(g);
    StockStepIs(g);
    StockDeliveryAt(y, o, g);
  }

  lemma CreditDeliveryAt(y: SystemState, o: OrderId, g: S.SagaState)
    requires StandsFor(y, o, g) && S.CreditPending(g) && g.status != CreditApproved
             && !S.React(g, S.CreditEventAt(g, g.creditSeen)).Throws?
    ensures var z := Delivering(y, Billing, o, g.creditSeen);
            OnlyMoves(y, z, o)
              && StandsFor(z, o, Counted(g, OS.After(g, S.React(g, S.CreditEventAt(g, g.creditSeen))), Billing))
  {
    NextIsHandled(y, Billing, o, g, S.CreditEventAt(g, g.creditSeen));
    NextIsDelivered(y, Billing, o, g, S.CreditEventAt(g, g.creditSeen));
  }

  lemma CreditDelivery(y: SystemState, o: OrderId, g: S.SagaState)
    requires StandsFor(y, o, g) && I.SagaInv(g) && S.CreditPending(g)
    ensures var z := Delivering(y, Billing, o, g.creditSeen);
            OnlyMoves(y, z, o) && StandsFor(z, o, S.Step(g, S.DeliverCredit))
  {
    I.CreditDelivered(g);
    NotApprovedStatus(g);
    CreditStepIs(g);
    CreditDeliveryAt(y, o, g);
  }

  lemma PlacedDelivery(y: SystemState, o: OrderId, g: S.SagaState)
    requires StandsFor(y, o, g) && I.SagaInv(g) && !g.placedSeen
    ensures var z := Delivering(y, Orders, o, 0);
            OnlyMoves(y, z, o) && StandsFor(z, o, S.Step(g, S.DeliverPlaced))
  {
    NotApprovedStatus(g);
    PlacedStepIs(g);
    NextIsHandled(y, Orders, o, g, S.PlacedEvent);
    NextIsDelivered(y, Orders, o, g, S.PlacedEvent);
  }

  // ---- Every delivery ----

  /** The saga's step, if there is one. */
  function Moved(g: S.SagaState, m: Option<S.SagaMove>): S.SagaState {
    if m.None? then g else S.Step(g, m.value)
  }

  lemma RedeliveryIsNothing(y: SystemState, o: OrderId, g: S.SagaState, p: Producer, k: nat)
    requires StandsFor(y, o, g) && k < Offset(y, p, o) && k < |StreamAt(y, p, o)|
    ensures Delivering(y, p, o, k) == y
  {
    var fact := StreamAt(y, p, o)[k];
    if p == Orders && k > 0 {
      assert NeedsNoWork(fact);
    } else {
      assert EventId(p, o, k) in y.orders.processed;
    }
  }

  lemma OwnFactNeedsNoWork(y: SystemState, o: OrderId, g: S.SagaState, k: nat)
    requires StandsFor(y, o, g) && 0 < k == Offset(y, Orders, o) && k < |StreamAt(y, Orders, o)|
    ensures OnlyMoves(y, Delivering(y, Orders, o, k), o) && StandsFor(Delivering(y, Orders, o, k), o, g)
  {
    assert NeedsNoWork(StreamAt(y, Orders, o)[k]);
  }

  /** The move that delivers the next fact of a stream; the order's own later facts need none. */
  function MoveFor(p: Producer, k: nat): Option<S.SagaMove> {
    match p
    case Fulfillment => Some(S.DeliverStock)
    case Billing => Some(S.DeliverCredit)
    case Orders => if k == 0 then Some(S.DeliverPlaced) else None
  }

  lemma DueDelivery(y: SystemState, o: OrderId, g: S.SagaState, p: Producer, k: nat) returns (m: Option<S.SagaMove>)
    requires StandsFor(y, o, g) && I.SagaInv(g) && k == Offset(y, p, o) && k < |StreamAt(y, p, o)|
    ensures m == MoveFor(p, k)
    ensures OnlyMoves(y, Delivering(y, p, o, k), o) && StandsFor(Delivering(y, p, o, k), o, Moved(g, m))
  {
    m := MoveFor(p, k);
    match p
    case Fulfillment => StockDelivery(y, o, g);
    case Billing => CreditDelivery(y, o, g);
    case Orders =>
      if k == 0 {
        PlacedDelivery(y, o, g);
      } else {
        OwnFactNeedsNoWork(y, o, g, k);
      }
  }

  /** A fact that is not published yet, or whose predecessor is not delivered yet, is not there to be delivered. */
  lemma NotDueIsNothing(y: SystemState, o: OrderId, p: Producer, k: nat)
    requires k >= |StreamAt(y, p, o)| || k > Offset(y, p, o)
    ensures Delivering(y, p, o, k) == y
  {
  }

  lemma DeliveryRefines(y: SystemState, o: OrderId, g: S.SagaState, p: Producer, k: nat) returns (m: Option<S.SagaMove>)
    requires StandsFor(y, o, g) && I.SagaInv(g)
    ensures var z := Delivering(y, p, o, k);
            OnlyMoves(y, z, o) && StandsFor(z, o, Moved(g, m))
    ensures m.None? || m.value.DeliverPlaced? || m.value.DeliverStock? || m.value.DeliverCredit?
  {
    m := None;
    if k >= |StreamAt(y, p, o)| || k > Offset(y, p, o) {
      NotDueIsNothing(y, o, p, k);
    } else if k < Offset(y, p, o) {
      RedeliveryIsNothing(y, o, g, p, k);
    } else {
      m := DueDelivery(y, o, g, p, k);
    }
  }
}
