/** Every order of every system run is a run of the saga machine: the composed tables refine it, order by order. */
module SystemRefinement {
  import opened Kernel
  import opened OrderAggregate
  import opened FulfillmentPhases
  import opened BillingInvariants
  import opened Abstraction
  import FS = FulfillmentSimulation
  import BS = BillingSimulation
  import S = Saga
  import opened System

  function ReferenceOf(y: SystemState, order: OrderSnapshot): S.ReferenceData {
    S.ReferenceData(FS.AnyProductKnown(y.fulfillment, order.lines), BS.LineUsable(y.billing.state, order))
  }

  /** What Orders knows about one order. */
  ghost predicate OrdersPart(y: SystemState, o: OrderId, g: S.SagaState) {
    && o in y.orders.orders
    && OrderIs(y.orders.orders[o], g)
    && RowsAre(y.orders.commands, y.answered, o, y.orders.orders[o], g)
    && OrdersStreamIs(StreamOf(y.orders.outbox, o), g.status)
    && ReadsAre(y.statusReads, o, g)
  }

  /** How far each stream has been delivered. */
  ghost predicate DeliveryPart(y: SystemState, o: OrderId, g: S.SagaState) {
    && (g.placedSeen <==> Offset(y, Orders, o) > 0)
    && ProcessedIs(y.orders.processed, Orders, o, if g.placedSeen then 1 else 0)
    && Offset(y, Fulfillment, o) == g.stockSeen && ProcessedIs(y.orders.processed, Fulfillment, o, g.stockSeen)
    && Offset(y, Billing, o) == g.creditSeen && ProcessedIs(y.orders.processed, Billing, o, g.creditSeen)
  }

  ghost predicate StandsFor(y: SystemState, o: OrderId, g: S.SagaState) {
    && OrdersPart(y, o, g) && DeliveryPart(y, o, g)
    && g.reference == ReferenceOf(y, y.orders.orders[o])
    && FS.FulfillmentIs(y.fulfillment, o, y.orders.orders[o].lines, g)
    && BS.BillingIs(y.billing.state, o, y.orders.orders[o], g)
  }

  /** Nothing anywhere speaks of an order that was never placed. */
  ghost predicate NeverPlaced(y: SystemState, o: OrderId) {
    && o !in y.orders.orders
    && (forall kind: CommandKind :: RowFor(y.orders.commands, o, kind).None? && (o, kind) !in y.answered)
    && (forall p: Producer ::
          StreamAt(y, p, o) == [] && Offset(y, p, o) == 0 && ProcessedIs(y.orders.processed, p, o, 0))
    && (forall status: OrderStatus :: (o, status) !in y.statusReads)
    && InPhase(y.fulfillment.reservations, o, None) && o !in y.fulfillment.despatches
    && (forall c: CreditId :: OrderEntries(y.billing.state, c, o) == []) && o !in y.billing.state.invoices
  }

  /** A step of order `o` leaves every other order's part of every table alone. */
  ghost predicate OnlyMoves(y: SystemState, z: SystemState, o: OrderId) {
    && (forall other :: other != o ==> (other in z.orders.orders <==> other in y.orders.orders)
                                       && (other in y.orders.orders ==>
                                           z.orders.orders[other] == y.orders.orders[other]))
    && (forall other: OrderId, kind: CommandKind :: other != o ==>
                                                     && RowFor(z.orders.commands, other, kind)
                                                        == RowFor(y.orders.commands, other, kind)
                                                     && ((other, kind) in z.answered <==> (other, kind) in y.answered))
    && (forall other :: other != o ==> StreamOf(z.orders.outbox, other) == StreamOf(y.orders.outbox, other))
    && (forall p: Producer, other: OrderId, k: nat :: other != o ==>
                                                       (EventId(p, other, k) in z.orders.processed <==>
                                                        EventId(p, other, k) in y.orders.processed))
    && (forall p: Producer, other: OrderId :: other != o ==> Offset(z, p, other) == Offset(y, p, other))
    && (forall other: OrderId, status: OrderStatus :: other != o ==>
        ((other, status) in z.statusReads <==> (other, status) in y.statusReads))
    && OthersUntouched(y.fulfillment, z.fulfillment, o) && z.fulfillment.stock.Keys == y.fulfillment.stock.Keys
    && BS.OnlyOrder(y.billing.state, z.billing.state, o)
  }

  lemma SameReference(y: SystemState, z: SystemState, order: OrderSnapshot)
    requires z.fulfillment.stock.Keys == y.fulfillment.stock.Keys && z.billing.state.credits == y.billing.state.credits
    ensures ReferenceOf(z, order) == ReferenceOf(y, order)
  {
    assert forall p :: p in z.fulfillment.stock <==> p in y.fulfillment.stock;
  }

  lemma OtherOrdersPart(y: SystemState, z: SystemState, o: OrderId, other: OrderId, g: S.SagaState)
    requires OnlyMoves(y, z, o) && other != o && OrdersPart(y, other, g)
    ensures OrdersPart(z, other, g)
  {
    forall kind: CommandKind
      ensures RowIs(RowFor(z.orders.commands, other, kind), (other, kind) in z.answered,
                    PayloadOf(kind, z.orders.orders[other], g.byOperator), StateOf(kind, g))
    {
      assert RowFor(z.orders.commands, other, kind) == RowFor(y.orders.commands, other, kind);
    }
    assert RowFor(z.orders.commands, other, ReleaseStock) == RowFor(y.orders.commands, other, ReleaseStock);
    assert RowFor(z.orders.commands, other, ReleaseCredit) == RowFor(y.orders.commands, other, ReleaseCredit);
  }

  lemma OtherDeliveryPart(y: SystemState, z: SystemState, o: OrderId, other: OrderId, g: S.SagaState)
    requires OnlyMoves(y, z, o) && other != o && DeliveryPart(y, other, g)
    ensures DeliveryPart(z, other, g)
  {
  }

  lemma OtherStands(y: SystemState, z: SystemState, o: OrderId, other: OrderId, g: S.SagaState)
    requires OnlyMoves(y, z, o) && other != o && StandsFor(y, other, g)
    ensures StandsFor(z, other, g)
  {
    OtherOrdersPart(y, z, o, other, g);
    OtherDeliveryPart(y, z, o, other, g);
    SameReference(y, z, y.orders.orders[other]);
    FS.OtherOrderStays(y.fulfillment, z.fulfillment, o, other, y.orders.orders[other].lines, g);
    BS.OtherOrderStays(y.billing.state, z.billing.state, o, other, y.orders.orders[other], g);
  }

  lemma OtherNeverPlaced(y: SystemState, z: SystemState, o: OrderId, other: OrderId)
    requires OnlyMoves(y, z, o) && other != o && NeverPlaced(y, other)
    ensures NeverPlaced(z, other)
  {
    PhaseOfAnotherOrder(y.fulfillment, z.fulfillment, o, other, None);
    forall p: Producer ensures StreamAt(z, p, other) == [] && Offset(z, p, other) == 0
      && ProcessedIs(z.orders.processed, p, other, 0) {
      assert StreamAt(y, p, other) == [] && ProcessedIs(y.orders.processed, p, other, 0);
      match p
      case Orders =>
      case Fulfillment =>
      case Billing =>
    }
  }
}
