/** What no step of the composed system ever takes back: the rank of an order, its lines, and the commands it owes. */
module SystemClimb {
  import opened Kernel
  import opened OrdersService
  import S = Saga
  import N = SagaTermination
  import opened System
  import opened SystemRuns

  /** A status is left only for one of higher rank. */
  predicate Climbed(a: OrderStatus, b: OrderStatus) {
    a == b || StatusRank(a) < StatusRank(b)
  }

  ghost predicate OrdersClimb(y: SystemState, z: SystemState) {
    && (forall o :: o in y.orders.orders ==>
                      && o in z.orders.orders
                      && Climbed(y.orders.orders[o].status, z.orders.orders[o].status)
                      && z.orders.orders[o].lines == y.orders.orders[o].lines
                         && z.orders.orders[o].currency == y.orders.orders[o].currency
                      && z.orders.orders[o].credit == y.orders.orders[o].credit)
    && RowsStay(y.orders, z.orders)
  }

  /** A command row is never replaced: its payload is the snapshot of the first enqueue. */
  ghost predicate RowsStay(s: OrdersState, t: OrdersState) {
    forall key :: key in s.commands ==> key in t.commands && t.commands[key] == s.commands[key]
  }

  lemma HandlingKeepsRows(s: OrdersState, e: Envelope)
    ensures RowsStay(s, HandleFact(s, e).0)
  {
  }

  lemma CancellingKeepsRows(s: OrdersState, o: OrderId)
    ensures RowsStay(s, CancelEnqueued(s, o)) && RowsStay(s, CancelledDirectly(s, o).0)
  {
  }

  lemma StepKeepsRows(y: SystemState, step: SystemStep)
    ensures RowsStay(y.orders, SystemNext(y, step).orders)
  {
    match step
    case Deliver(p, o, k) =>
      if k <= Offset(y, p, o) && k < |StreamAt(y, p, o)| {
        HandlingKeepsRows(y.orders, Envelope(EventId(p, o, k), o, StreamAt(y, p, o)[k]));
      }
    case CancelAfterRead(o, _) => CancellingKeepsRows(y.orders, o);
    case _ =>
  }

  predicate SameTerms(s: OrdersState, t: OrdersState, o: OrderId) {
    o in s.orders ==>
      o in t.orders
        && t.orders[o]
           == s.orders[o].(status := t.orders[o].status, cancellationReason := t.orders[o].cancellationReason)
  }

  lemma StepKeepsTerms(y: SystemState, step: SystemStep, o: OrderId)
    ensures SameTerms(y.orders, SystemNext(y, step).orders, o)
  {
    if step.Deliver? && o in y.orders.orders && step.position <= Offset(y, step.producer, step.order)
       && step.position < |StreamAt(y, step.producer, step.order)| {
      var e := Envelope(EventId(step.producer, step.order, step.position), step.order,
                        StreamAt(y, step.producer, step.order)[step.position]);
      HandlingKeepsTheLines(y.orders, e, o);
    }
  }

  /** Only a placing adds an order. */
  lemma NotPlacedByOthers(y: SystemState, step: SystemStep, o: OrderId)
    requires o !in y.orders.orders && o in SystemNext(y, step).orders.orders
    ensures step.PlaceOrder?
  {
    if step.Deliver? && step.position <= Offset(y, step.producer, step.order)
       && step.position < |StreamAt(y, step.producer, step.order)| {
      HandlingPlacesNothing(y.orders, Envelope(EventId(step.producer, step.order, step.position), step.order,
                                               StreamAt(y, step.producer, step.order)[step.position]));
    }
  }

  lemma HandlingPlacesNothing(s: OrdersState, e: Envelope)
    ensures HandleFact(s, e).0.orders.Keys == s.orders.Keys
  {
  }

  /** Over any continuation: rows stay, and so do the lines, the currency and the credit line of every order. */
  lemma {:induction false} RunKeepsRowsAndTerms(y: SystemState, more: seq<SystemStep>, o: OrderId)
    ensures RowsStay(y.orders, RunSystem(y, more).orders) && SameTerms(y.orders, RunSystem(y, more).orders, o)
  {
    if more != [] {
      var z := RunSystem(y, more[..|more| - 1]);
      RunKeepsRowsAndTerms(y, more[..|more| - 1], o);
      StepKeepsRows(z, more[|more| - 1]);
      StepKeepsTerms(z, more[|more| - 1], o);
    }
  }

  lemma RankIsTheStatus(a: OrderStatus, b: OrderStatus)
    requires StatusRank(a) <= StatusRank(b)
    ensures Climbed(a, b)
  {
  }

  lemma OrderClimbs(y: SystemState, step: SystemStep, hs: map<OrderId, History>, hs': map<OrderId, History>, o: OrderId)
    requires ExplainedAt(y, hs, o) && ExplainedAt(SystemNext(y, step), hs', o) && HistoryGrows(y, step, hs, hs', o)
             && o in y.orders.orders
    ensures o in SystemNext(y, step).orders.orders
    ensures Climbed(y.orders.orders[o].status, SystemNext(y, step).orders.orders[o].status)
  {
    var m: Option<S.SagaMove> :| hs'[o] == Longer(hs[o], m) && (m.Some? ==> StandsForMove(y, step, o, m.value));
    LongerMoves(hs[o], m);
    if m.Some? {
      N.StepRises(Now(hs[o]), m.value);
    }
    RankIsTheStatus(Now(hs[o]).status, Now(hs'[o]).status);
  }

  /** Every step, after any run: no order falls back along Table T-1, no order's terms change, no command is enqueued
      twice. */
  lemma EveryStepClimbs(y0: SystemState, steps: seq<SystemStep>, step: SystemStep)
    requires Initial(y0)
    ensures OrdersClimb(RunSystem(y0, steps), SystemNext(RunSystem(y0, steps), step))
  {
    var y := RunSystem(y0, steps);
    var z := SystemNext(y, step);
    var hs := SystemRefinesSagas(y0, steps);
    var hs' := SystemStepExplained(y, hs, step);
    StepKeepsRows(y, step);
    forall o | o in y.orders.orders
      ensures o in z.orders.orders && Climbed(y.orders.orders[o].status, z.orders.orders[o].status)
              && SameTerms(y.orders, z.orders, o)
    {
      assert ExplainedAt(y, hs, o) && ExplainedAt(z, hs', o) && HistoryGrows(y, step, hs, hs', o);
      OrderClimbs(y, step, hs, hs', o);
      StepKeepsTerms(y, step, o);
    }
  }

  function StatusIn(y: SystemState, o: OrderId): Option<OrderStatus> {
    if o in y.orders.orders then Some(y.orders.orders[o].status) else None
  }

  /** How often the stored status of the order changed. */
  function StatusChanges(y0: SystemState, steps: seq<SystemStep>, o: OrderId): nat {
    if steps == [] then 0
    else
      var before := RunSystem(y0, steps[..|steps| - 1]);
      StatusChanges(y0, steps[..|steps| - 1], o)
      + Changes(before, SystemNext(before, steps[|steps| - 1]), o)
  }

  function Changes(y: SystemState, z: SystemState, o: OrderId): nat {
    if o in y.orders.orders && StatusIn(z, o) != StatusIn(y, o) then 1 else 0
  }

  /** The changes that an order's status still allows to have happened. */
  function ChangesUpTo(y: SystemState, o: OrderId): nat {
    if o in y.orders.orders then StatusRank(y.orders.orders[o].status) - 1 else 0
  }

  lemma OneMoreChange(y: SystemState, z: SystemState, o: OrderId)
    requires OrdersClimb(y, z)
    ensures ChangesUpTo(y, o) + Changes(y, z, o) <= ChangesUpTo(z, o) <= 8
  {
  }

  /** Whatever is redelivered, repeated or cancelled, an order changes its status at most eight times. */
  lemma {:induction false} FewStatusChanges(y0: SystemState, steps: seq<SystemStep>, o: OrderId)
    requires Initial(y0)
    ensures StatusChanges(y0, steps, o) <= ChangesUpTo(RunSystem(y0, steps), o) <= 8
  {
    if steps != [] {
      var init, last := steps[..|steps| - 1], steps[|steps| - 1];
      var before := RunSystem(y0, init);
      FewStatusChanges(y0, init, o);
      EveryStepClimbs(y0, init, last);
      OneMoreChange(before, SystemNext(before, last), o);
    }
  }
}
