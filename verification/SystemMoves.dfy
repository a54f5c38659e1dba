/** Cancellations, reads, payments, new orders and replenishments, and what each does to the order it is about. */
module SystemMoves {
  import opened Kernel
  import opened OrderAggregate
  import opened OrdersService
  import opened InvoiceAggregate
  import opened BillingTables
  import opened BillingInvariants
  import opened Abstraction
  import OS = OrdersSimulation
  import FS = FulfillmentSimulation
  import BS = BillingSimulation
  import S = Saga
  import opened System
  import opened SystemRefinement
  import D = SystemDelivery

  /** A step of Orders alone that processes no fact. */
  lemma OrdersAlone(y: SystemState, z: SystemState, o: OrderId, g: S.SagaState, t: S.SagaState)
    requires StandsFor(y, o, g) && OrdersPart(z, o, t) && OS.OnlyOrder(y.orders, z.orders, o)
    requires z == y.(orders := z.orders) && z.orders.processed == y.orders.processed
    requires z.orders.orders[o]
             == y.orders.orders[o].(status := z.orders.orders[o].status,
                                    cancellationReason := z.orders.orders[o].cancellationReason)
    requires S.SameFulfillment(g, t) && S.SameBilling(g, t) && t.placedSeen == g.placedSeen
             && t.reference == g.reference
    requires t.byOperator == g.byOperator || g.stock != S.StockFreed
    ensures OnlyMoves(y, z, o) && StandsFor(z, o, t)
  {
    forall other | other != o
      ensures (other in z.orders.orders <==> other in y.orders.orders)
              && (other in y.orders.orders ==> z.orders.orders[other] == y.orders.orders[other])
    {
      assert other in z.orders.orders.Keys <==> other in y.orders.orders.Keys;
    }
    D.Reassembled(y, z, o, g, t, t);
  }

  lemma PlansAreCompensations(status: OrderStatus)
    ensures PlanFor(status).Some? <==> S.Compensates(status)
  {
  }

  lemma EnqueueMoves(y: SystemState, o: OrderId, g: S.SagaState)
    requires StandsFor(y, o, g) && (g.releaseRow == S.NoRow ==> g.stock != S.StockFreed)
    ensures var z := y.(orders := CancelEnqueued(y.orders, o));
            OnlyMoves(y, z, o) && StandsFor(z, o, S.CancelEnqueued(g))
  {
    var z := y.(orders := CancelEnqueued(y.orders, o));
    OS.EnqueueRefines(y.orders, y.answered, o, g);
    OrdersAlone(y, z, o, g, S.CancelEnqueued(g));
  }

  lemma DirectCancelMoves(y: SystemState, o: OrderId, g: S.SagaState)
    requires StandsFor(y, o, g)
    ensures var z := y.(orders := CancelledDirectly(y.orders, o).0);
            OnlyMoves(y, z, o) && StandsFor(z, o, S.CancelledDirect(g))
  {
    var t := CancelledDirectly(y.orders, o).0;
    OS.DirectCancelRefines(y.orders, y.answered, o, g);
    var facts :| StreamOf(t.outbox, o) == StreamOf(y.orders.outbox, o) + facts
                 && Announces(facts, y.orders.orders[o].status, t.orders[o].status);
    D.StreamStaysOrders(StreamOf(y.orders.outbox, o), facts, g.status, S.CancelledDirect(g).status);
    OrdersAlone(y, y.(orders := t), o, g, S.CancelledDirect(g));
  }

  /** The second half of an operator's cancellation. */
  lemma CancelMoves(y: SystemState, o: OrderId, g: S.SagaState, observed: OrderStatus) returns (m: Option<S.SagaMove>)
    requires StandsFor(y, o, g) && (g.releaseRow == S.NoRow ==> g.stock != S.StockFreed)
    ensures var z := Cancelling(y, o, observed);
            OnlyMoves(y, z, o) && StandsFor(z, o, D.Moved(g, m))
    ensures m == Some(S.CancelDirect) ==> PlanFor(observed).None? && (o, observed) in y.statusReads
    ensures m.None? || m.value.CancelDirect? || m.value.CancelEnqueue?
  {
    m := None;
    if (o, observed) in y.statusReads {
      PlansAreCompensations(observed);
      if PlanFor(observed).Some? {
        m := Some(S.CancelEnqueue);
        assert g.sawCompensating;
        CancelStepsAre(g);
        EnqueueMoves(y, o, g);
      } else {
        m := Some(S.CancelDirect);
        assert g.sawOther;
        CancelStepsAre(g);
        DirectCancelMoves(y, o, g);
      }
    }
  }

  lemma CancelStepsAre(g: S.SagaState)
    ensures g.sawCompensating ==> S.Step(g, S.CancelEnqueue) == S.CancelEnqueued(g)
    ensures g.sawOther ==> S.Step(g, S.CancelDirect) == S.CancelledDirect(g)
    ensures S.Step(g, S.CancelRead) == S.StatusRead(g)
    ensures S.Step(g, S.Pay) == S.PaymentRegistered(g)
  {
  }

  lemma ReadMoves(y: SystemState, o: OrderId, g: S.SagaState)
    requires StandsFor(y, o, g)
    ensures var z := SystemNext(y, ReadStatus(o));
            OnlyMoves(y, z, o) && StandsFor(z, o, S.StatusRead(g))
  {
    ReadRecorded(y, y.(statusReads := y.statusReads + {(o, g.status)}), o, g);
  }

  lemma ReadRecorded(y: SystemState, z: SystemState, o: OrderId, g: S.SagaState)
    requires StandsFor(y, o, g) && z == y.(statusReads := y.statusReads + {(o, g.status)})
    ensures OnlyMoves(y, z, o) && StandsFor(z, o, S.StatusRead(g))
  {
    ReadRows(y, z, o, g);
    SameReference(y, z, y.orders.orders[o]);
    ReadKeepsTheRest(g);
  }

  lemma ReadKeepsTheRest(g: S.SagaState)
    ensures var t := S.StatusRead(g);
            S.SameFulfillment(g, t) && S.SameBilling(g, t) && t.placedSeen == g.placedSeen
              && t.reference == g.reference && t.byOperator == g.byOperator
  {
  }

  lemma ReadLeavesRows(g: S.SagaState)
    ensures S.StatusRead(g).byOperator == g.byOperator
    ensures forall kind :: StateOf(kind, S.StatusRead(g)) == StateOf(kind, g)
  {
  }

  lemma ReadRows(y: SystemState, z: SystemState, o: OrderId, g: S.SagaState)
    requires OrdersPart(y, o, g) && z == y.(statusReads := y.statusReads + {(o, g.status)})
    ensures OrdersPart(z, o, S.StatusRead(g))
  {
    var t := S.StatusRead(g);
    ReadLeavesRows(g);
    forall kind: CommandKind
      ensures RowIs(RowFor(z.orders.commands, o, kind), (o, kind) in z.answered,
                    PayloadOf(kind, z.orders.orders[o], t.byOperator), StateOf(kind, t))
    {
      assert RowIs(RowFor(y.orders.commands, o, kind), (o, kind) in y.answered,
                   PayloadOf(kind, y.orders.orders[o], g.byOperator), StateOf(kind, g));
    }
  }

  // ---- Payments ----

  lemma PaymentMoves(y: SystemState, g: S.SagaState, seen: InvoiceSnapshot, ref: PaymentReference, paid: Money)
    returns (m: Option<S.SagaMove>)
    requires StandsFor(y, seen.order, g) && LinesOk(y.billing.state) && StillNames(y.billing.state, seen)
             && g.credit != S.CreditFreedAfterInvoice
    ensures var z := y.(billing := y.billing.(state := PayTx(y.billing.state, seen, ref, paid).0));
            OnlyMoves(y, z, seen.order) && StandsFor(z, seen.order, D.Moved(g, m))
    ensures m.None? || m == Some(S.Pay)
  {
    var o := seen.order;
    BS.PayRefines(y.billing.state, y.orders.orders[o], g, seen, ref, paid);
    var (b, reply) := PayTx(y.billing.state, seen, ref, paid);
    m := if reply == Ok(PaymentAccepted) then Some(S.Pay) else None;
    CancelStepsAre(g);
    PaymentStands(y, b, o, g, D.Moved(g, m));
  }

  lemma PaymentStands(y: SystemState, b: BillingState, o: OrderId, g: S.SagaState, t: S.SagaState)
    requires StandsFor(y, o, g) && (t == g || t == S.PaymentRegistered(g))
    requires BS.BillingIs(b, o, y.orders.orders[o], t) && BS.OnlyOrder(y.billing.state, b, o)
    ensures var z := y.(billing := y.billing.(state := b));
            OnlyMoves(y, z, o) && StandsFor(z, o, t)
  {
    var z := y.(billing := y.billing.(state := b));
    SameReference(y, z, y.orders.orders[o]);
    PaymentViews(g);
    D.SameViewSamePart(z, o, g, t);
  }

  lemma PaymentViews(g: S.SagaState)
    ensures D.SameOrdersView(g, S.PaymentRegistered(g)) && S.PaymentRegistered(g).placedSeen == g.placedSeen
    ensures S.PaymentRegistered(g).creditSeen == g.creditSeen && S.PaymentRegistered(g).reference == g.reference
  {
  }

  // ---- New orders and replenishments ----

  lemma PlacingMoves(y: SystemState, o: OrderId, lines: seq<OrderLine>, currency: CurrencyCode, credit: CreditId)
    requires NeverPlaced(y, o) && lines != [] && LineCurrenciesAgree(lines, currency) && NetOf(lines) >= 0
    ensures var z := Placing(y, o, lines, currency, credit);
            && OnlyMoves(y, z, o)
            && StandsFor(z, o, S.Begun(ReferenceOf(z, z.orders.orders[o]), NetOf(lines) > 0))
  {
    var z := Placing(y, o, lines, currency, credit);
    var g := S.Begun(ReferenceOf(z, z.orders.orders[o]), NetOf(lines) > 0);
    assert StreamAt(y, Orders, o) == [] && StreamAt(y, Fulfillment, o) == [] && StreamAt(y, Billing, o) == [];
    PlacedOrdersPart(y, z, o, g);
    PlacedElsewhere(y, z, o, g);
  }

  lemma PlacedOrdersPart(y: SystemState, z: SystemState, o: OrderId, g: S.SagaState)
    requires NeverPlaced(y, o) && o in z.orders.orders && OrderIs(z.orders.orders[o], g)
             && g == S.Begun(g.reference, g.positive)
    requires z.orders.commands == y.orders.commands && z.answered == y.answered && z.statusReads == y.statusReads
    requires OrdersStreamIs(StreamOf(z.orders.outbox, o), g.status)
    ensures OrdersPart(z, o, g)
  {
    forall kind: CommandKind
      ensures RowIs(RowFor(z.orders.commands, o, kind), (o, kind) in z.answered,
                    PayloadOf(kind, z.orders.orders[o], g.byOperator), StateOf(kind, g))
    {
      assert RowFor(y.orders.commands, o, kind).None? && (o, kind) !in y.answered;
    }
    assert RowFor(y.orders.commands, o, ReleaseStock).None? && RowFor(y.orders.commands, o, ReleaseCredit).None?;
  }

  lemma PlacedElsewhere(y: SystemState, z: SystemState, o: OrderId, g: S.SagaState)
    requires NeverPlaced(y, o) && o in z.orders.orders && g == S.Begun(g.reference, g.positive)
    requires z.fulfillment == y.fulfillment && z.billing == y.billing && z.delivered == y.delivered
             && z.orders.processed == y.orders.processed
    ensures DeliveryPart(z, o, g)
    ensures FS.FulfillmentIs(z.fulfillment, o, z.orders.orders[o].lines, g)
    ensures BS.BillingIs(z.billing.state, o, z.orders.orders[o], g)
  {
    assert StreamAt(y, Fulfillment, o) == [] && StreamAt(y, Billing, o) == [];
    assert Offset(y, Orders, o) == 0 && Offset(y, Fulfillment, o) == 0 && Offset(y, Billing, o) == 0;
    assert ProcessedIs(y.orders.processed, Orders, o, 0) && ProcessedIs(y.orders.processed, Fulfillment, o, 0);
    assert ProcessedIs(y.orders.processed, Billing, o, 0);
  }

  lemma ReplenishMoves(y: SystemState, lines: seq<ReserveLine>, o: OrderId)
    ensures OnlyMoves(y, SystemNext(y, Replenish(lines)), o)
  {
    var z := SystemNext(y, Replenish(lines));
    assert z.fulfillment.stock.Keys == y.fulfillment.stock.Keys;
  }
}
