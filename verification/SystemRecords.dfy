/** The cancellation that an order records, over whole runs: its reason is the order's, and an operator's cancellation
    without any compensation step is the direct one. */
module SystemRecords {
  import opened Kernel
  import opened OrderAggregate
  import opened OrdersService
  import opened OrdersRecords
  import opened System
  import opened SystemRefinement
  import opened SystemRuns
  import C = SystemClimb
  import opened SystemTheorems

  /** The step cancels the order directly, in the transaction that re-reads it. */
  predicate DirectStep(y: SystemState, step: SystemStep, o: OrderId) {
    && CommitsDirectly(y, step, o) && o in y.orders.orders
    && y.orders.orders[o].status in {Placed, StockReserved, CreditApproved, Confirmed}
  }

  predicate DirectAt(y0: SystemState, steps: seq<SystemStep>, o: OrderId, j: nat)
    requires j < |steps|
  {
    DirectStep(RunSystem(y0, steps[..j]), steps[j], o)
  }

  ghost predicate DirectlyCancelled(y0: SystemState, steps: seq<SystemStep>, o: OrderId) {
    exists j :: 0 <= j < |steps| && DirectAt(y0, steps, o, j)
  }

  lemma DirectAtPrefix(y0: SystemState, steps: seq<SystemStep>, o: OrderId, j: nat)
    requires j < |steps| - 1
    ensures DirectAt(y0, steps[..|steps| - 1], o, j) == DirectAt(y0, steps, o, j)
  {
    assert steps[..|steps| - 1][..j] == steps[..j];
  }

  lemma DirectlyCancelledGrows(y0: SystemState, steps: seq<SystemStep>, o: OrderId)
    requires steps != []
    ensures DirectlyCancelled(y0, steps, o) <==>
            DirectlyCancelled(y0, steps[..|steps| - 1], o) || DirectAt(y0, steps, o, |steps| - 1)
  {
    var init := steps[..|steps| - 1];
    if DirectlyCancelled(y0, steps, o) {
      var j :| 0 <= j < |steps| && DirectAt(y0, steps, o, j);
      if j < |init| {
        DirectAtPrefix(y0, steps, o, j);
        assert DirectAt(y0, init, o, j);
      }
    }
    if DirectlyCancelled(y0, init, o) {
      var j :| 0 <= j < |init| && DirectAt(y0, init, o, j);
      DirectAtPrefix(y0, steps, o, j);
      assert DirectAt(y0, steps, o, j);
    }
  }

  /** What the order's own stream says of its cancellation. */
  ghost predicate CancellationTold(s: OrdersState, o: OrderId, direct: bool)
    requires o in s.orders
  {
    && (forall i :: 0 <= i < |StreamOf(s.outbox, o)| && StreamOf(s.outbox, o)[i].OrderCancelledFact? ==>
          var f := StreamOf(s.outbox, o)[i];
          && s.orders[o].status == Cancelled && s.orders[o].cancellationReason == Some(f.reason)
          && (f.reason == OperatorCancelled ==> (f.steps == [] <==> direct)))
    && (direct ==> s.orders[o].status == Cancelled && s.orders[o].cancellationReason == Some(OperatorCancelled))
  }

  lemma CausedCancellationTold(s: OrdersState, t: OrdersState, e: Envelope, direct: bool)
    requires CancelledWith(s, t, e) && CancellationTold(s, e.correlationId, direct)
    ensures CancellationTold(t, e.correlationId, direct)
  {
    var o := e.correlationId;
    var reason, steps :| && RecordedFor(e, reason, steps) && t.orders[o].cancellationReason == Some(reason)
                         && StreamOf(t.outbox, o) == StreamOf(s.outbox, o) + [OrderCancelledFact(reason, steps)];
    OneMoreTold(s, t, o, reason, steps, direct);
  }

  lemma OneMoreTold(s: OrdersState, t: OrdersState, o: OrderId, reason: CancellationReason,
                    steps: seq<CompensationStep>,
                    direct: bool)
    requires o in s.orders && o in t.orders && s.orders[o].status != Cancelled && t.orders[o].status == Cancelled
    requires t.orders[o].cancellationReason == Some(reason)
    requires StreamOf(t.outbox, o) == StreamOf(s.outbox, o) + [OrderCancelledFact(reason, steps)]
    requires exists before :: CancellationTold(s, o, before)
    requires direct ==> reason == OperatorCancelled
    requires reason == OperatorCancelled ==> (steps == [] <==> direct)
    ensures CancellationTold(t, o, direct)
  {
    var before :| CancellationTold(s, o, before);
    assert forall i :: 0 <= i < |StreamOf(s.outbox, o)| ==> !StreamOf(s.outbox, o)[i].OrderCancelledFact?;
  }

  lemma NothingMoreTold(s: OrdersState, t: OrdersState, o: OrderId, direct: bool)
    requires NotCancelledBy(s, t, o) && CancellationTold(s, o, direct)
    ensures CancellationTold(t, o, direct)
  {
    var facts :| NoCancellation(facts) && StreamOf(t.outbox, o) == StreamOf(s.outbox, o) + facts;
    assert forall i :: |StreamOf(s.outbox, o)| <= i < |StreamOf(t.outbox, o)| ==>
        StreamOf(t.outbox, o)[i] == facts[i - |StreamOf(s.outbox, o)|];
  }

  lemma DeliveryTold(y: SystemState, p: Producer, o: OrderId, k: nat, direct: bool)
    requires o in y.orders.orders && CancellationTold(y.orders, o, direct)
    ensures var t := Delivering(y, p, o, k).orders;
            o in t.orders && CancellationTold(t, o, direct)
  {
    if k <= Offset(y, p, o) && k < |StreamAt(y, p, o)| {
      var e := Envelope(EventId(p, o, k), o, StreamAt(y, p, o)[k]);
      CancellationRecordsItsCause(y.orders, e);
      if CancelledWith(y.orders, HandleFact(y.orders, e).0, e) {
        CausedCancellationTold(y.orders, HandleFact(y.orders, e).0, e, direct);
      } else {
        NothingMoreTold(y.orders, HandleFact(y.orders, e).0, o, direct);
      }
    }
  }

  lemma CancellingTold(y: SystemState, step: SystemStep, o: OrderId, direct: bool)
    requires o in y.orders.orders && CancellationTold(y.orders, o, direct) && step.CancelAfterRead? && step.order == o
    ensures var t := SystemNext(y, step).orders;
            o in t.orders && CancellationTold(t, o, direct || DirectStep(y, step, o))
  {
    if CommitsDirectly(y, step, o) {
      DirectAnswersAreTrue(y.orders, o);
      if DirectStep(y, step, o) {
        OneMoreTold(y.orders, CancelledDirectly(y.orders, o).0, o, OperatorCancelled, [], true);
      }
    }
  }

  /** The steps that can change the order or its stream. */
  lemma OtherStepsTellNothing(y: SystemState, step: SystemStep, o: OrderId)
    requires o in y.orders.orders && (step.Deliver? || step.CancelAfterRead? ==> step.order != o)
    ensures var t := SystemNext(y, step).orders;
            o in t.orders && t.orders[o] == y.orders.orders[o] && StreamOf(t.outbox, o) == StreamOf(y.orders.outbox, o)
  {
    if step.Deliver? && step.position <= Offset(y, step.producer, step.order)
       && step.position < |StreamAt(y, step.producer, step.order)| {
      HandlingOthers(y.orders, Envelope(EventId(step.producer, step.order, step.position), step.order,
                                        StreamAt(y, step.producer, step.order)[step.position]), o);
    }
  }

  lemma HandlingOthers(s: OrdersState, e: Envelope, o: OrderId)
    requires o != e.correlationId && o in s.orders
    ensures var t := HandleFact(s, e).0;
            o in t.orders && t.orders[o] == s.orders[o] && StreamOf(t.outbox, o) == StreamOf(s.outbox, o)
  {
  }

  lemma StepTold(y: SystemState, step: SystemStep, o: OrderId, direct: bool)
    requires o in y.orders.orders && CancellationTold(y.orders, o, direct)
    ensures var t := SystemNext(y, step).orders;
            o in t.orders && CancellationTold(t, o, direct || DirectStep(y, step, o))
  {
    if step.Deliver? && step.order == o {
      DeliveryTold(y, step.producer, o, step.position, direct);
    } else if step.CancelAfterRead? && step.order == o {
      CancellingTold(y, step, o, direct);
    } else {
      OtherStepsTellNothing(y, step, o);
    }
  }

  lemma NewOrderTold(y: SystemState, step: SystemStep, o: OrderId)
    requires NeverPlaced(y, o) && o in SystemNext(y, step).orders.orders
    ensures CancellationTold(SystemNext(y, step).orders, o, false)
  {
    C.NotPlacedByOthers(y, step, o);
    assert StreamAt(y, Orders, o) == [];
  }

  /** After any run: an order's cancellation is recorded with the reason that the order has, and an operator's
      cancellation records no compensation step if and only if it was committed directly. */
  lemma {:induction false} CancellationsAreTold(y0: SystemState, steps: seq<SystemStep>, o: OrderId)
    requires Initial(y0)
    ensures var y := RunSystem(y0, steps);
            if o in y.orders.orders then CancellationTold(y.orders, o, DirectlyCancelled(y0, steps, o))
            else !DirectlyCancelled(y0, steps, o)
  {
    if steps != [] {
      var init, last := steps[..|steps| - 1], steps[|steps| - 1];
      var y := RunSystem(y0, init);
      CancellationsAreTold(y0, init, o);
      DirectlyCancelledGrows(y0, steps, o);
      if o in y.orders.orders {
        StepTold(y, last, o, DirectlyCancelled(y0, init, o));
      } else if o in SystemNext(y, last).orders.orders {
        var h := ReachedOrder(y0, init, o);
        NewOrderTold(y, last, o);
      }
    }
  }
}
