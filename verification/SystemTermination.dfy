/** How many steps of a run of the composed system can change anything that belongs to one order. */
module SystemTermination {
  import opened Kernel
  import opened OrderAggregate
  import opened SagaSteps
  import opened OrdersService
  import opened OrderStock
  import opened FulfillmentTables
  import opened BillingTables
  import R = BillingRuns
  import opened Abstraction
  import S = Saga
  import N = SagaTermination
  import opened System
  import opened SystemRefinement
  import opened SystemRuns
  import opened SystemClimb
  import V = SystemReservations

  /** The order's row, its command rows and which of them have been answered, everything the three services have
      published about it, and how much of Fulfillment's and Billing's facts has been acknowledged, are what they were.
      */
  ghost predicate SamePart(y: SystemState, z: SystemState, o: OrderId) {
    && SameOrderRow(y, z, o) && SameRows(y, z, o)
    && (forall p: Producer :: StreamAt(z, p, o) == StreamAt(y, p, o))
    && Offset(z, Fulfillment, o) == Offset(y, Fulfillment, o) && Offset(z, Billing, o) == Offset(y, Billing, o)
  }

  predicate SameOrderRow(y: SystemState, z: SystemState, o: OrderId) {
    (o in z.orders.orders <==> o in y.orders.orders)
      && (o in y.orders.orders ==> z.orders.orders[o] == y.orders.orders[o])
  }

  ghost predicate SameRows(y: SystemState, z: SystemState, o: OrderId) {
    forall kind: CommandKind :: RowFor(z.orders.commands, o, kind) == RowFor(y.orders.commands, o, kind)
                                && ((o, kind) in z.answered <==> (o, kind) in y.answered)
  }

  // ---- Streams only grow ----

  predicate Grew(was: seq<Fact>, now: seq<Fact>) {
    |was| <= |now| && now[..|was|] == was
  }

  lemma RecordedGrew(outbox: Outbox, o: OrderId, facts: seq<Fact>, other: OrderId)
    ensures Grew(StreamOf(outbox, other), StreamOf(Recorded(outbox, o, facts), other))
  {
  }

  lemma ReserveGrew(f: FulfillmentState, o: OrderId, lines: seq<ReserveLine>, other: OrderId)
    requires lines != []
    ensures Grew(StreamOf(f.outbox, other), StreamOf(ReserveTx(f, o, lines).0.outbox, other))
  {
    match ReserveTx(f, o, lines).1
    case Ok(ShortOf(shortages)) =>
      var reason :| ReserveTx(f, o, lines).0.outbox == Recorded(f.outbox, o, [StockRejectedFact(shortages, reason)]);
      RecordedGrew(f.outbox, o, [StockRejectedFact(shortages, reason)], other);
    case Ok(Accepted(refs)) => RecordedGrew(f.outbox, o, [StockReservedFact(refs)], other);
    case _ =>
  }

  lemma ReleaseGrew(f: FulfillmentState, o: OrderId, reason: StockReleaseReason, other: OrderId)
    ensures Grew(StreamOf(f.outbox, other), StreamOf(ReleaseTx(f, o, reason).0.outbox, other))
  {
    match ReleaseTx(f, o, reason).1
    case Ok(ReleasedNow(refs)) => RecordedGrew(f.outbox, o, [StockReleasedFact(refs, reason)], other);
    case _ =>
  }

  lemma DespatchGrew(f: FulfillmentState, o: OrderId, other: OrderId)
    ensures Grew(StreamOf(f.outbox, other), StreamOf(DespatchTx(f, o).0.outbox, other))
  {
    match DespatchTx(f, o).1
    case Ok(DespatchOf(advice, true)) => RecordedGrew(f.outbox, o, [DespatchFact(advice)], other);
    case _ =>
  }

  lemma FulfillmentGrew(f: FulfillmentState, o: OrderId, payload: CommandPayload, other: OrderId)
    ensures Grew(StreamOf(f.outbox, other), StreamOf(V.AfterPayload(f, o, payload).outbox, other))
  {
    match payload
    case ReserveStockPayload(lines) => if lines != [] { ReserveGrew(f, o, lines, other); }
    case ReleaseStockPayload(reason) => ReleaseGrew(f, o, reason, other);
    case CreateDespatchPayload => DespatchGrew(f, o, other);
    case _ =>
  }

  lemma BillingGrew(r: R.BillingRun, op: R.BillingOp, other: OrderId)
    ensures Grew(StreamOf(r.state.outbox, other), StreamOf(R.BillingStep(r, op).state.outbox, other))
  {
    var t := R.BillingStep(r, op).state;
    if t.outbox != r.state.outbox {
      var o, facts :| t.outbox == Recorded(r.state.outbox, o, facts);
      RecordedGrew(r.state.outbox, o, facts, other);
    }
  }

  lemma ExecutedStreams(y: SystemState, o: OrderId, kind: CommandKind, decision: CreditDecision, other: OrderId)
    ensures var z := Executing(y, o, kind, decision);
            && Grew(StreamAt(y, Fulfillment, other), StreamAt(z, Fulfillment, other))
            && Grew(StreamAt(y, Billing, other), StreamAt(z, Billing, other))
  {
    V.ExecutedFulfillment(y, o, kind, decision);
    if (o, kind) in y.orders.commands {
      FulfillmentGrew(y.fulfillment, o, y.orders.commands[(o, kind)].payload, other);
      match y.orders.commands[(o, kind)].payload
      case HoldCreditPayload(c, amount) => BillingGrew(y.billing, R.HoldOp(c, o, amount, decision), other);
      case IssueInvoicePayload(c, currency, lines, discount) =>
        BillingGrew(y.billing, R.IssueOp(c, o, currency, lines, discount), other);
      case ReleaseCreditPayload(c) => BillingGrew(y.billing, R.ReleaseCreditOp(c, o), other);
      case _ =>
    }
  }

  lemma StreamsGrew(y: SystemState, step: SystemStep, o: OrderId)
    ensures var z := SystemNext(y, step);
            && Grew(StreamAt(y, Fulfillment, o), StreamAt(z, Fulfillment, o))
            && Grew(StreamAt(y, Billing, o), StreamAt(z, Billing, o))
  {
    match step
    case Execute(other, kind, decision) => ExecutedStreams(y, other, kind, decision, o);
    case ReadPayment(ref, other) => BillingGrew(y.billing, R.PayReadOp(ref, other), o);
    case CommitPayment(ref, seen, paid) => BillingGrew(y.billing, R.PayCommitOp(ref, seen, paid), o);
    case _ =>
  }

  // ---- Own facts come with a change of status ----

  lemma HandlingOwnFacts(s: OrdersState, e: Envelope, o: OrderId)
    requires o in s.orders && HandleFact(s, e).0.orders[o].status == s.orders[o].status
    ensures StreamOf(HandleFact(s, e).0.outbox, o) == StreamOf(s.outbox, o)
  {
    if e.correlationId == o {
      var order := s.orders[o];
      StepForStatusIsActionOn(e.fact, order.status);
      var step := StepForStatus(e.fact, order.status);
      if step.Some? && StepChange(step.value, order, e).Ok? {
        QuietChange(order, e, step.value);
      }
    }
  }

  lemma QuietChange(order: OrderSnapshot, e: Envelope, step: SagaStep)
    requires ActionOn(e.fact, order.status) == Some(step) && !step.Skip? && StepChange(step, order, e).Ok?
    ensures var change := StepChange(step, order, e).value;
            change.order.status == order.status ==> change.facts == []
  {
  }

  lemma StepOwnFacts(y: SystemState, step: SystemStep, o: OrderId)
    requires o in y.orders.orders && o in SystemNext(y, step).orders.orders
    requires SystemNext(y, step).orders.orders[o].status == y.orders.orders[o].status
    ensures StreamAt(SystemNext(y, step), Orders, o) == StreamAt(y, Orders, o)
  {
    if step.Deliver? && step.position <= Offset(y, step.producer, step.order)
       && step.position < |StreamAt(y, step.producer, step.order)| {
      var e := Envelope(EventId(step.producer, step.order, step.position), step.order,
                        StreamAt(y, step.producer, step.order)[step.position]);
      StepKeepsTerms(y, step, o);
      HandlingOwnFacts(y.orders, e, o);
    }
  }

  // ---- The same saga state, the same part ----

  lemma SameSagaRow(y: SystemState, step: SystemStep, o: OrderId, g: S.SagaState)
    requires OrdersPart(y, o, g) && OrdersPart(SystemNext(y, step), o, g)
    ensures SameOrderRow(y, SystemNext(y, step), o)
  {
    StepKeepsTerms(y, step, o);
  }

  lemma SameSagaRows(y: SystemState, step: SystemStep, o: OrderId, g: S.SagaState)
    requires OrdersPart(y, o, g) && OrdersPart(SystemNext(y, step), o, g)
    ensures SameRows(y, SystemNext(y, step), o)
  {
    var z := SystemNext(y, step);
    StepKeepsRows(y, step);
    forall kind: CommandKind
      ensures RowFor(z.orders.commands, o, kind) == RowFor(y.orders.commands, o, kind)
              && ((o, kind) in z.answered <==> (o, kind) in y.answered)
    {
      RowsSay(y, o, g, kind);
      RowsSay(z, o, g, kind);
    }
  }

  lemma RowsSay(y: SystemState, o: OrderId, g: S.SagaState, kind: CommandKind)
    requires OrdersPart(y, o, g)
    ensures (o, kind) in y.orders.commands <==> StateOf(kind, g) != S.NoRow
    ensures (o, kind) in y.answered <==> StateOf(kind, g) == S.Answered
  {
    assert RowIs(RowFor(y.orders.commands, o, kind), (o, kind) in y.answered,
                 PayloadOf(kind, y.orders.orders[o], g.byOperator),
                 StateOf(kind, g));
  }

  lemma StreamLengths(y: SystemState, o: OrderId, g: S.SagaState)
    requires StandsFor(y, o, g)
    ensures |StreamAt(y, Fulfillment, o)| == S.StockLength(g) && |StreamAt(y, Billing, o)| == S.CreditLength(g)
    ensures Offset(y, Fulfillment, o) == g.stockSeen && Offset(y, Billing, o) == g.creditSeen
  {
  }

  lemma SameSagaSamePart(y: SystemState, step: SystemStep, o: OrderId, g: S.SagaState)
    requires StandsFor(y, o, g) && StandsFor(SystemNext(y, step), o, g)
    ensures SamePart(y, SystemNext(y, step), o)
  {
    SameSagaRow(y, step, o, g);
    SameSagaRows(y, step, o, g);
    StepOwnFacts(y, step, o);
    StreamsGrew(y, step, o);
    SameLengths(y, SystemNext(y, step), o, g);
  }

  lemma SameLengths(y: SystemState, z: SystemState, o: OrderId, g: S.SagaState)
    requires StandsFor(y, o, g) && StandsFor(z, o, g)
    requires Grew(StreamAt(y, Fulfillment, o), StreamAt(z, Fulfillment, o))
    requires Grew(StreamAt(y, Billing, o), StreamAt(z, Billing, o))
    ensures StreamAt(z, Fulfillment, o) == StreamAt(y, Fulfillment, o)
    ensures StreamAt(z, Billing, o) == StreamAt(y, Billing, o)
    ensures Offset(z, Fulfillment, o) == Offset(y, Fulfillment, o) && Offset(z, Billing, o) == Offset(y, Billing, o)
  {
    StreamLengths(y, o, g);
    StreamLengths(z, o, g);
  }

  // ---- Counting ----

  /** The steps that change the part of an order that has been placed. */
  ghost function PartChanges(y0: SystemState, steps: seq<SystemStep>, o: OrderId): nat {
    if steps == [] then 0
    else
      var before := RunSystem(y0, steps[..|steps| - 1]);
      PartChanges(y0, steps[..|steps| - 1], o)
      + if o in before.orders.orders && !SamePart(before, SystemNext(before, steps[|steps| - 1]), o) then 1 else 0
  }

  ghost predicate Weighs(hs: map<OrderId, History>, o: OrderId, changes: nat) {
    if o in hs then changes < N.Weight(Now(hs[o])) else changes == 0
  }

  lemma ChangesWeigh(y: SystemState, step: SystemStep, hs: map<OrderId, History>, hs': map<OrderId, History>,
                     o: OrderId, changes: nat)
    requires ExplainedAt(y, hs, o) && ExplainedAt(SystemNext(y, step), hs', o) && HistoryGrows(y, step, hs, hs', o)
    requires Weighs(hs, o, changes)
    ensures Weighs(hs', o, changes + if o in y.orders.orders && !SamePart(y, SystemNext(y, step), o) then 1 else 0)
  {
    if o in hs {
      var m: Option<S.SagaMove> :| hs'[o] == Longer(hs[o], m) && (m.Some? ==> StandsForMove(y, step, o, m.value));
      LongerMoves(hs[o], m);
      if m.Some? {
        N.StepRises(Now(hs[o]), m.value);
      }
      if Now(hs'[o]) == Now(hs[o]) {
        SameSagaSamePart(y, step, o, Now(hs[o]));
      }
    } else if o in hs' {
      N.BeginningWeighs(Now(hs'[o]));
    }
  }

  lemma {:induction false} ChangesWeighOverRuns(y0: SystemState, steps: seq<SystemStep>, o: OrderId)
    returns (hs: map<OrderId, History>)
    requires Initial(y0)
    ensures SystemOk(RunSystem(y0, steps), hs) && Weighs(hs, o, PartChanges(y0, steps, o))
  {
    if steps == [] {
      hs := map[];
      InitialIsOk(y0);
    } else {
      var y := RunSystem(y0, steps[..|steps| - 1]);
      var before := ChangesWeighOverRuns(y0, steps[..|steps| - 1], o);
      hs := SystemStepExplained(y, before, steps[|steps| - 1]);
      assert ExplainedAt(y, before, o) && ExplainedAt(RunSystem(y0, steps), hs, o)
             && HistoryGrows(y, steps[|steps| - 1], before, hs, o);
      ChangesWeigh(y, steps[|steps| - 1], before, hs, o, PartChanges(y0, steps[..|steps| - 1], o));
    }
  }

  /** How often a service has refused. */
  function Refusals(facts: seq<Fact>): nat {
    if facts == [] then 0
    else Refusals(facts[..|facts| - 1]) + if facts[|facts| - 1].StockRejectedFact?
      || facts[|facts| - 1].CreditRejectedFact? then 1 else 0
  }

  lemma {:induction false} StockRefusals(facts: seq<Fact>, refusals: nat, phase: S.StockPhase, n: nat)
    requires n <= |facts| && forall i :: 0 <= i < |facts| ==> IsEvent(facts[i], S.StockEvent(refusals, phase, i))
    ensures Refusals(facts[..n]) == if n <= refusals then n else refusals
  {
    if n > 0 {
      StockRefusals(facts, refusals, phase, n - 1);
      assert facts[..n][..n - 1] == facts[..n - 1] && IsEvent(facts[n - 1], S.StockEvent(refusals, phase, n - 1));
    }
  }

  lemma {:induction false} CreditRefusals(facts: seq<Fact>, refusals: nat, phase: S.CreditPhase, n: nat)
    requires n <= |facts| && forall i :: 0 <= i < |facts| ==> IsEvent(facts[i], S.CreditEvent(refusals, phase, i))
    ensures Refusals(facts[..n]) == if n <= refusals then n else refusals
  {
    if n > 0 {
      CreditRefusals(facts, refusals, phase, n - 1);
      assert facts[..n][..n - 1] == facts[..n - 1] && IsEvent(facts[n - 1], S.CreditEvent(refusals, phase, n - 1));
    }
  }

  lemma RefusalsShown(y: SystemState, o: OrderId, g: S.SagaState)
    requires StandsFor(y, o, g)
    ensures Refusals(StreamAt(y, Fulfillment, o)) == g.refusals.stock
            && Refusals(StreamAt(y, Billing, o)) == g.refusals.credit
  {
    var stock, credit := StreamAt(y, Fulfillment, o), StreamAt(y, Billing, o);
    StockRefusals(stock, g.refusals.stock, g.stock, |stock|);
    CreditRefusals(credit, g.refusals.credit, g.credit, |credit|);
    assert stock[..|stock|] == stock && credit[..|credit|] == credit;
  }

  /** Whatever is redelivered, executed again, read or cancelled: in any run at most 35 steps change anything of an
      order, and two more for every refusal that a service has published. */
  lemma FewStepsChangeAnything(y0: SystemState, steps: seq<SystemStep>, o: OrderId)
    requires Initial(y0)
    ensures var y := RunSystem(y0, steps);
            PartChanges(y0, steps, o) <= 35 + 2 * Refusals(StreamAt(y, Fulfillment, o))
              + 2 * Refusals(StreamAt(y, Billing, o))
  {
    var y := RunSystem(y0, steps);
    var hs := ChangesWeighOverRuns(y0, steps, o);
    assert ExplainedAt(y, hs, o);
    if o in hs {
      HistoriesKeepTheInvariant(hs[o]);
      N.WeightBound(Now(hs[o]));
      RefusalsShown(y, o, Now(hs[o]));
    }
  }
}
