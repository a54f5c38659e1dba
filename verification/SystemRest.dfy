/** Rest can always be reached: from any state, carrying out what is owed and delivering what is published ends. */
module SystemRest {
  import opened Kernel
  import opened BillingTables
  import opened Abstraction
  import S = Saga
  import I = SagaInvariant
  import P = SagaProgress
  import N = SagaTermination
  import opened System
  import opened SystemRefinement
  import D = SystemDelivery
  import X = SystemExecution
  import opened SystemRuns
  import opened SystemTheorems

  /** The moves that nobody has to ask for: deliveries, and executions of owed commands. */
  predicate IsDuty(m: S.SagaMove) {
    !m.CancelRead? && !m.CancelEnqueue? && !m.CancelDirect? && !m.Pay?
  }

  predicate AllDuties(moves: seq<S.SagaMove>) {
    forall i :: 0 <= i < |moves| ==> IsDuty(moves[i])
  }

  /** How many of the two requests that can be refused have no answer yet. */
  function Undecided(g: S.SagaState): nat {
    (if g.reserveRow == S.Answered then 0 else 1) + (if g.holdRow == S.Answered then 0 else 1)
  }

  function Refusals(g: S.SagaState): nat {
    g.refusals.stock + g.refusals.credit
  }

  /** What is left to do, when no request is refused any more. */
  function Left(g: S.SagaState): nat
    requires I.SagaInv(g)
  {
    N.WeightBound(g);
    36 + 2 * Refusals(g) - N.Weight(g)
  }

  lemma DutiesPrepend(m: S.SagaMove, moves: seq<S.SagaMove>)
    requires IsDuty(m) && AllDuties(moves)
    ensures AllDuties([m] + moves)
  {
  }

  // ---- One duty ----

  /** One step nearer to rest. */
  predicate Nearer(g: S.SagaState, t: S.SagaState)
    requires I.SagaInv(g) && I.SagaInv(t)
  {
    Undecided(t) < Undecided(g) || (Undecided(t) == Undecided(g) && Left(t) < Left(g))
  }

  lemma DeliveryIsNearer(g: S.SagaState, m: S.SagaMove)
    requires I.SagaInv(g) && I.SagaInv(S.Step(g, m)) && S.Step(g, m) != g
    requires m.DeliverPlaced? || m.DeliverStock? || m.DeliverCredit?
    ensures Nearer(g, S.Step(g, m))
  {
    N.StepRises(g, m);
    DeliveryDecidesNothing(g, m);
  }

  lemma DeliveryDecidesNothing(g: S.SagaState, m: S.SagaMove)
    requires m.DeliverPlaced? || m.DeliverStock? || m.DeliverCredit?
    ensures Refusals(S.Step(g, m)) == Refusals(g) && Undecided(S.Step(g, m)) <= Undecided(g)
  {
    match m
    case DeliverPlaced =>
    case DeliverStock => if S.StockPending(g) { ReactionDecidesNothing(g, S.StockEventAt(g, g.stockSeen)); }
    case DeliverCredit => if S.CreditPending(g) { ReactionDecidesNothing(g, S.CreditEventAt(g, g.creditSeen)); }
  }

  lemma ReactionDecidesNothing(g: S.SagaState, e: S.SagaEvent)
    ensures var t := S.StockAcknowledged(g, S.React(g, e));
            Refusals(t) == Refusals(g) && Undecided(t) <= Undecided(g)
    ensures var t := S.CreditAcknowledged(g, S.React(g, e));
            Refusals(t) == Refusals(g) && Undecided(t) <= Undecided(g)
  {
    N.ReactionClimbs(g, e);
  }

  lemma ExecutionIsNearer(g: S.SagaState, kind: CommandKind, m: S.SagaMove)
    requires I.SagaInv(g) && I.SagaInv(S.Step(g, m)) && ExecutesAs(kind, m)
    requires StateOf(kind, g) == S.Pending && StateOf(kind, S.Step(g, m)) == S.Answered
    ensures Nearer(g, S.Step(g, m))
  {
    match kind
    case ReserveStock =>
      DecidingStepIs(g, m, S.Step(g, m));
      X.ReserveAnswers(g, m.decision);
      assert StateOf(HoldCredit, S.Step(g, m)) == StateOf(HoldCredit, g);
    case HoldCredit =>
      DecidingStepIs(g, m, S.Step(g, m));
      X.HoldAnswers(g, m.decision);
      assert StateOf(ReserveStock, S.Step(g, m)) == StateOf(ReserveStock, g);
    case _ =>
      N.StepRises(g, m);
      OtherExecutionsDecideNothing(g, m);
  }

  lemma DecidingStepIs(g: S.SagaState, m: S.SagaMove, t: S.SagaState)
    requires t == S.Step(g, m) && (m.ExecReserve? || m.ExecHold?)
    ensures t == g || t == if m.ExecReserve? then S.ReserveExecuted(g, m.decision) else S.HoldExecuted(g, m.decision)
  {
  }

  lemma OtherExecutionsDecideNothing(g: S.SagaState, m: S.SagaMove)
    requires m.ExecRelease? || m.ExecDespatch? || m.ExecIssue? || m.ExecReleaseCredit?
    ensures Refusals(S.Step(g, m)) == Refusals(g) && Undecided(S.Step(g, m)) == Undecided(g)
  {
  }

  /** The next undelivered fact, if there is one. */
  lemma DeliveryDuty(y: SystemState, o: OrderId, g: S.SagaState) returns (p: Producer, k: nat, m: S.SagaMove)
    requires StandsFor(y, o, g) && I.SagaInv(g) && (!g.placedSeen || S.StockPending(g) || S.CreditPending(g))
    ensures StandsFor(Delivering(y, p, o, k), o, S.Step(g, m)) && S.Step(g, m) != g
    ensures m.DeliverPlaced? || m.DeliverStock? || m.DeliverCredit?
  {
    if !g.placedSeen {
      p, k, m := Orders, 0, S.DeliverPlaced;
      D.PlacedDelivery(y, o, g);
    } else if S.StockPending(g) {
      p, k, m := Fulfillment, g.stockSeen, S.DeliverStock;
      D.StockDelivery(y, o, g);
    } else {
      p, k, m := Billing, g.creditSeen, S.DeliverCredit;
      D.CreditDelivery(y, o, g);
    }
    DeliveryIsPossible(g, m);
    DeliveryMoves(g, m);
  }

  lemma DeliveryIsPossible(g: S.SagaState, m: S.SagaMove)
    requires I.SagaInv(g)
    ensures S.StockPending(g) ==> !S.React(g, S.StockEventAt(g, g.stockSeen)).Throws?
    ensures S.CreditPending(g) ==> !S.React(g, S.CreditEventAt(g, g.creditSeen)).Throws?
  {
    if S.StockPending(g) {
      I.StockDelivered(g);
    }
    if S.CreditPending(g) {
      I.CreditDelivered(g);
    }
  }

  lemma DeliveryMoves(g: S.SagaState, m: S.SagaMove)
    requires match m
             case DeliverPlaced => !g.placedSeen
             case DeliverStock => S.StockPending(g) && !S.React(g, S.StockEventAt(g, g.stockSeen)).Throws?
             case DeliverCredit => S.CreditPending(g) && !S.React(g, S.CreditEventAt(g, g.creditSeen)).Throws?
             case _ => false
    ensures S.Step(g, m) != g
  {
    match m
    case DeliverPlaced =>
    case DeliverStock => N.ReactionClimbs(g, S.StockEventAt(g, g.stockSeen));
    case DeliverCredit => N.ReactionClimbs(g, S.CreditEventAt(g, g.creditSeen));
  }

  /** The execution of an unanswered command. */
  lemma ExecutionDuty(y: SystemState, o: OrderId, g: S.SagaState, kind: CommandKind) returns (m: S.SagaMove)
    requires TablesOk(y) && StandsFor(y, o, g) && StateOf(kind, g) == S.Pending
    ensures StandsFor(Executing(y, o, kind, Approve), o, S.Step(g, m)) && ExecutesAs(kind, m)
    ensures StateOf(kind, S.Step(g, m)) == S.Answered
  {
    X.RowPayload(y, o, g, kind);
    m := ExecutionRefines(y, o, g, kind, Approve);
    RowStates(Executing(y, o, kind, Approve), o, S.Step(g, m), kind);
    ExecutionAnswers(y, o, kind);
  }

  lemma ExecutionAnswers(y: SystemState, o: OrderId, kind: CommandKind)
    requires (o, kind) in y.orders.commands
    ensures Executing(y, o, kind, Approve).answered == y.answered + {(o, kind)} || Executing(y, o, kind, Approve) == y
    ensures y.orders.commands[(o, kind)].payload != ReserveStockPayload([]) ==>
            (o, kind) in Executing(y, o, kind, Approve).answered
  {
  }

  lemma RowStates(y: SystemState, o: OrderId, g: S.SagaState, kind: CommandKind)
    requires OrdersPart(y, o, g)
    ensures (o, kind) in y.answered <==> StateOf(kind, g) == S.Answered
  {
    assert RowIs(RowFor(y.orders.commands, o, kind), (o, kind) in y.answered,
                 PayloadOf(kind, y.orders.orders[o], g.byOperator),
                 StateOf(kind, g));
  }

  // ---- All of them ----

  lemma UnrestHasADuty(g: S.SagaState) returns (kind: CommandKind)
    requires !P.Quiescent(g) && g.placedSeen && !S.StockPending(g) && !S.CreditPending(g)
    ensures StateOf(kind, g) == S.Pending
  {
    kind := if g.reserveRow == S.Pending then ReserveStock
    else if g.holdRow == S.Pending then HoldCredit
    else if g.releaseRow == S.Pending then ReleaseStock
    else if g.despatchRow == S.Pending then CreateDespatch
    else if g.invoiceRow == S.Pending then IssueInvoice else ReleaseCredit;
  }

  lemma DeliveredNearer(g: S.SagaState, m: S.SagaMove, t: S.SagaState)
    requires I.SagaInv(g) && t == S.Step(g, m) && t != g && (m.DeliverPlaced? || m.DeliverStock? || m.DeliverCredit?)
    ensures I.SagaInv(t) && Nearer(g, t)
  {
    I.StepKeeps(g, m);
    DeliveryIsNearer(g, m);
  }

  lemma ExecutedNearer(g: S.SagaState, kind: CommandKind, m: S.SagaMove, t: S.SagaState)
    requires I.SagaInv(g) && t == S.Step(g, m) && ExecutesAs(kind, m) && StateOf(kind, g) == S.Pending
             && StateOf(kind, t) == S.Answered
    ensures I.SagaInv(t) && Nearer(g, t)
  {
    I.StepKeeps(g, m);
    ExecutionIsNearer(g, kind, m);
  }

  lemma DutyToDeliver(y: SystemState, o: OrderId, g: S.SagaState)
    returns (step: SystemStep, m: S.SagaMove, t: S.SagaState)
    requires StandsFor(y, o, g) && I.SagaInv(g) && (!g.placedSeen || S.StockPending(g) || S.CreditPending(g))
    ensures StandsFor(SystemNext(y, step), o, t) && t == S.Step(g, m) && IsDuty(m)
    ensures I.SagaInv(t) && Nearer(g, t)
  {
    var p, k;
    p, k, m := DeliveryDuty(y, o, g);
    step, t := Deliver(p, o, k), S.Step(g, m);
    NextIs(y, o, p, k, ReserveStock);
    DeliveredNearer(g, m, t);
  }

  lemma DutyToExecute(y: SystemState, o: OrderId, g: S.SagaState, kind: CommandKind)
    returns (step: SystemStep, m: S.SagaMove, t: S.SagaState)
    requires TablesOk(y) && StandsFor(y, o, g) && I.SagaInv(g) && StateOf(kind, g) == S.Pending
    ensures StandsFor(SystemNext(y, step), o, t) && t == S.Step(g, m) && IsDuty(m)
    ensures I.SagaInv(t) && Nearer(g, t)
  {
    m := ExecutionDuty(y, o, g, kind);
    step, t := Execute(o, kind, Approve), S.Step(g, m);
    NextIs(y, o, Orders, 0, kind);
    ExecutedNearer(g, kind, m, t);
  }

  /** Any state that is not at rest has a duty that brings it nearer. */
  lemma Duty(y: SystemState, o: OrderId, g: S.SagaState) returns (step: SystemStep, m: S.SagaMove, t: S.SagaState)
    requires TablesOk(y) && StandsFor(y, o, g) && I.SagaInv(g) && !P.Quiescent(g)
    ensures StandsFor(SystemNext(y, step), o, t) && t == S.Step(g, m) && IsDuty(m)
    ensures I.SagaInv(t) && Nearer(g, t)
  {
    if !g.placedSeen || S.StockPending(g) || S.CreditPending(g) {
      step, m, t := DutyToDeliver(y, o, g);
    } else {
      var kind := UnrestHasADuty(g);
      step, m, t := DutyToExecute(y, o, g, kind);
    }
  }

  lemma NextIs(y: SystemState, o: OrderId, p: Producer, k: nat, kind: CommandKind)
    ensures SystemNext(y, Deliver(p, o, k)) == Delivering(y, p, o, k)
    ensures SystemNext(y, Execute(o, kind, Approve)) == Executing(y, o, kind, Approve)
  {
  }

  // ---- Down to rest ----

  lemma QuiescentIsRest(y: SystemState, o: OrderId, g: S.SagaState)
    requires StandsFor(y, o, g) && I.SagaInv(g) && P.Quiescent(g)
    ensures AtRest(y, o)
  {
    QuiescentIsDelivered(y, o, g);
    forall kind: CommandKind ensures (o, kind) in y.orders.commands ==> (o, kind) in y.answered {
      QuiescentIsAnswered(y, o, g, kind);
    }
  }

  lemma QuiescentHasSeen(g: S.SagaState)
    requires I.SagaInv(g) && P.Quiescent(g)
    ensures g.placedSeen && g.stockSeen == S.StockLength(g) && g.creditSeen == S.CreditLength(g)
  {
  }

  lemma QuiescentIsDelivered(y: SystemState, o: OrderId, g: S.SagaState)
    requires StandsFor(y, o, g) && I.SagaInv(g) && P.Quiescent(g)
    ensures Offset(y, Orders, o) > 0
    ensures Offset(y, Fulfillment, o) == |StreamAt(y, Fulfillment, o)|
            && Offset(y, Billing, o) == |StreamAt(y, Billing, o)|
  {
    QuiescentHasSeen(g);
  }

  lemma QuiescentIsAnswered(y: SystemState, o: OrderId, g: S.SagaState, kind: CommandKind)
    requires OrdersPart(y, o, g) && P.Quiescent(g)
    ensures (o, kind) in y.orders.commands ==> (o, kind) in y.answered
  {
    X.RowPayload(y, o, g, kind);
    RowStates(y, o, g, kind);
    NoneIsPending(g, kind);
  }

  lemma NoneIsPending(g: S.SagaState, kind: CommandKind)
    requires P.Quiescent(g)
    ensures StateOf(kind, g) != S.Pending
  {
  }

  lemma {:induction false} RunPrepends(g: S.SagaState, m: S.SagaMove, moves: seq<S.SagaMove>)
    ensures S.Run(g, [m] + moves) == S.Run(S.Step(g, m), moves)
  {
    if moves == [] {
      assert [m] + moves == [] + [m];
      S.RunSnoc(g, [], m);
    } else {
      var init, last := moves[..|moves| - 1], moves[|moves| - 1];
      RunPrepends(g, m, init);
      S.RunSnoc(g, [m] + init, last);
      S.RunSnoc(S.Step(g, m), init, last);
      assert [m] + moves == ([m] + init) + [last] && moves == init + [last];
    }
  }

  /** Steps that carry out duties only, and end at rest. */
  lemma ComesToRest(y: SystemState, hs: map<OrderId, History>, o: OrderId, g: S.SagaState)
    returns (steps: seq<SystemStep>, z: SystemState, moves: seq<S.SagaMove>, t: S.SagaState)
    requires SystemOk(y, hs) && StandsFor(y, o, g) && I.SagaInv(g)
    ensures z == RunSystem(y, steps) && t == S.Run(g, moves) && AllDuties(moves)
    ensures TablesOk(z) && AtRest(z, o) && StandsFor(z, o, t) && I.SagaInv(t)
    decreases Undecided(g), Left(g)
  {
    if P.Quiescent(g) {
      steps, z, moves, t := [], y, [], g;
      QuiescentIsRest(y, o, g);
    } else {
      var step, m, g', y', hs' := DutyStep(y, hs, o, g);
      var later, rest;
      later, z, rest, t := ComesToRest(y', hs', o, g');
      steps, moves := [step] + later, [m] + rest;
      StepThenRun(y, step, y', later);
      RunPrepends(g, m, rest);
      DutiesPrepend(m, rest);
    }
  }

  lemma DutyStep(y: SystemState, hs: map<OrderId, History>, o: OrderId, g: S.SagaState)
    returns (step: SystemStep, m: S.SagaMove, t: S.SagaState, z: SystemState, hs': map<OrderId, History>)
    requires SystemOk(y, hs) && StandsFor(y, o, g) && I.SagaInv(g) && !P.Quiescent(g)
    ensures z == SystemNext(y, step) && SystemOk(z, hs') && StandsFor(z, o, t) && t == S.Step(g, m) && IsDuty(m)
    ensures I.SagaInv(t) && Nearer(g, t)
  {
    step, m, t := Duty(y, o, g);
    hs' := SystemStepExplained(y, hs, step);
    z := SystemNext(y, step);
  }

  lemma StepThenRun(y: SystemState, step: SystemStep, z: SystemState, later: seq<SystemStep>)
    requires z == SystemNext(y, step)
    ensures RunSystem(y, [step] + later) == RunSystem(z, later)
  {
    RunSystemConcat(y, [step], later);
    assert [step][..0] == [];
  }

  /** After any run, an order can be brought to rest: no run gets stuck short of it. */
  lemma RestIsReachable(y0: SystemState, steps: seq<SystemStep>, o: OrderId) returns (more: seq<SystemStep>)
    requires Initial(y0) && o in RunSystem(y0, steps).orders.orders
    ensures AtRest(RunSystem(y0, steps + more), o)
  {
    var hs := SystemRefinesSagas(y0, steps);
    assert ExplainedAt(RunSystem(y0, steps), hs, o);
    HistoriesKeepTheInvariant(hs[o]);
    var z, moves, t;
    more, z, moves, t := ComesToRest(RunSystem(y0, steps), hs, o, Now(hs[o]));
    RunSystemConcat(y0, steps, more);
  }
}
