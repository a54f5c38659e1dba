/** Whole runs of Billing: any requests, any number of orders and lines, payments whose unlocked reads may be stale. */
module BillingRuns {
  import opened Kernel
  import SagaSteps
  import opened Ledger
  import opened BuyerCreditAggregate
  import opened InvoiceAggregate
  import opened BillingTables
  import opened BillingInvariants

  datatype BillingOp =
    | HoldOp(credit: CreditId, order: OrderId, amount: Money, decision: CreditDecision)
    | ReleaseCreditOp(credit: CreditId, order: OrderId)
    | IssueOp(credit: CreditId, order: OrderId, currency: CurrencyCode, lines: seq<InvoiceLine>, discount: int)
    | PayReadOp(ref: PaymentReference, order: OrderId)
    | PayCommitOp(ref: PaymentReference, seen: InvoiceSnapshot, paid: Money)

  /** `preReads` holds every answer that an unlocked read has ever given; a transaction may start from any of them. */
  datatype BillingRun = BillingRun(state: BillingState, preReads: set<(PaymentReference, InvoiceSnapshot)>)

  function BillingStep(r: BillingRun, op: BillingOp): BillingRun {
    match op
    case HoldOp(c, o, amount, decision) => r.(state := HoldTx(r.state, c, o, amount, decision).0)
    case ReleaseCreditOp(c, o) => r.(state := ReleaseCreditTx(r.state, c, o).0)
    case IssueOp(c, o, currency, lines, discount) => r.(state := IssueTx(r.state, c, o, currency, lines, discount).0)
    case PayReadOp(ref, o) =>
      (match PayFastPath(r.state, ref, o)
       case Proceed(seen) => r.(preReads := r.preReads + {(ref, seen)})
       case _ => r)
    case PayCommitOp(ref, seen, paid) =>
      if (ref, seen) in r.preReads then r.(state := PayTx(r.state, seen, ref, paid).0) else r
  }

  function RunBilling(r: BillingRun, ops: seq<BillingOp>): BillingRun {
    if ops == [] then r else BillingStep(RunBilling(r, ops[..|ops| - 1]), ops[|ops| - 1])
  }

  ghost predicate ValidRun(r: BillingRun) {
    ValidBilling(r.state) && forall preRead :: preRead in r.preReads ==> StillNames(r.state, preRead.1)
  }

  /** Invoices keep their identity, settled ones stay settled, payments stay. */
  ghost predicate OnlyGrows(s: BillingState, t: BillingState) {
    && (forall o :: o in s.invoices ==> o in t.invoices && s.invoices[o] == t.invoices[o].(state := s.invoices[o].state)
                                        && (s.invoices[o].state.Settled? ==> t.invoices[o].state.Settled?))
    && (forall ref :: ref in s.payments ==> ref in t.payments && t.payments[ref] == s.payments[ref])
    && t.credits == s.credits
  }

  lemma NamesSurvive(s: BillingState, t: BillingState, seen: InvoiceSnapshot)
    requires OnlyGrows(s, t) && StillNames(s, seen)
    ensures StillNames(t, seen)
  {
  }

  lemma HoldOnlyGrows(s: BillingState, c: CreditId, o: OrderId, amount: Money, decision: CreditDecision)
    ensures OnlyGrows(s, HoldTx(s, c, o, amount, decision).0)
  {
  }

  lemma ReleaseOnlyGrows(s: BillingState, c: CreditId, o: OrderId)
    ensures OnlyGrows(s, ReleaseCreditTx(s, c, o).0)
  {
  }

  lemma IssueOnlyGrows(s: BillingState, c: CreditId, o: OrderId, currency: CurrencyCode, lines: seq<InvoiceLine>,
                       discount: int)
    ensures OnlyGrows(s, IssueTx(s, c, o, currency, lines, discount).0)
  {
  }

  lemma PayOnlyGrows(s: BillingState, seen: InvoiceSnapshot, ref: PaymentReference, amount: Money)
    ensures OnlyGrows(s, PayTx(s, seen, ref, amount).0)
  {
  }

  lemma StepKeepsBilling(r: BillingRun, op: BillingOp)
    requires ValidRun(r)
    ensures ValidBilling(BillingStep(r, op).state)
  {
    match op
    case HoldOp(c, o, amount, decision) => HoldKeepsBilling(r.state, c, o, amount, decision);
    case ReleaseCreditOp(c, o) => ReleaseKeepsBilling(r.state, c, o);
    case IssueOp(c, o, currency, lines, discount) => IssueKeepsBilling(r.state, c, o, currency, lines, discount);
    case PayReadOp(ref, o) =>
    case PayCommitOp(ref, seen, paid) =>
      if (ref, seen) in r.preReads {
        assert StillNames(r.state, (ref, seen).1);
        PayKeepsBilling(r.state, seen, ref, paid);
      }
  }

  lemma StepOnlyGrows(r: BillingRun, op: BillingOp)
    ensures OnlyGrows(r.state, BillingStep(r, op).state)
  {
    match op
    case HoldOp(c, o, amount, decision) => HoldOnlyGrows(r.state, c, o, amount, decision);
    case ReleaseCreditOp(c, o) => ReleaseOnlyGrows(r.state, c, o);
    case IssueOp(c, o, currency, lines, discount) => IssueOnlyGrows(r.state, c, o, currency, lines, discount);
    case PayReadOp(ref, o) =>
    case PayCommitOp(ref, seen, paid) => PayOnlyGrows(r.state, seen, ref, paid);
  }

  lemma StepKeepsRun(r: BillingRun, op: BillingOp)
    requires ValidRun(r)
    ensures ValidRun(BillingStep(r, op)) && OnlyGrows(r.state, BillingStep(r, op).state)
  {
    StepKeepsBilling(r, op);
    StepOnlyGrows(r, op);
    forall preRead | preRead in BillingStep(r, op).preReads ensures StillNames(BillingStep(r, op).state, preRead.1) {
      if preRead in r.preReads {
        NamesSurvive(r.state, BillingStep(r, op).state, preRead.1);
      } else {
        assert InvoiceOk(r.state, op.order);
      }
    }
  }

  /** The partial-load and payment invariants over any run: the scalar a transaction loads is the sum over all orders
      and never above the limit, every order's entries have one of the reachable shapes, each invoice is settled by
      exactly one payment and a reference settles one invoice only. */
  lemma {:induction false} BillingOverRuns(r: BillingRun, ops: seq<BillingOp>)
    requires ValidRun(r)
    ensures ValidRun(RunBilling(r, ops)) && OnlyGrows(r.state, RunBilling(r, ops).state)
  {
    if ops != [] {
      BillingOverRuns(r, ops[..|ops| - 1]);
      StepKeepsRun(RunBilling(r, ops[..|ops| - 1]), ops[|ops| - 1]);
    }
  }

  // ---- The lower bound, for holds that are not negative ----

  ghost predicate HoldsNonNegative(s: BillingState) {
    forall c, o :: OrderEntries(s, c, o) != [] ==> OrderEntries(s, c, o)[0].amount.amount >= 0
  }

  lemma {:induction false} SumOfNonNegatives(entries: seq<Entry>, orders: seq<OrderId>)
    requires forall o :: ExposureOf(entries, o) >= 0
    ensures SumExposure(entries, orders) >= 0
  {
    if orders != [] {
      SumOfNonNegatives(entries, orders[..|orders| - 1]);
    }
  }

  /** An order's exposure, on the whole ledger as on its own entries. */
  lemma ExposureByShape(s: BillingState, c: CreditId, o: OrderId)
    requires LinesOk(s) && c in s.credits
    ensures var es := OrderEntries(s, c, o);
            ExposureOf(LedgerOf(s, c), o) == ExposureOf(es, o) == if es == [] || IsReleased(es) then 0
              else es[0].amount.amount
  {
    LoadedLineReconstitutes(s, c, o);
    ShapeDecides(OrderEntries(s, c, o), o);
    OrderEntriesSuffice(LedgerOf(s, c), o);
  }

  /** The exact condition: a release underflows if and only if a negative amount was held for that order. */
  lemma UnderflowIff(s: BillingState, c: CreditId, o: OrderId)
    requires LinesOk(s) && c in s.credits
    ensures ReleaseCreditTx(s, c, o).1.Err? <==>
            OrderEntries(s, c, o) != [] && OrderEntries(s, c, o)[0].amount.amount < 0
  {
    ExposureByShape(s, c, o);
  }

  /** And it does happen: a negative amount always fits, so a hold of it is accepted, and its release underflows. */
  lemma NegativeHoldsUnderflow(s: BillingState, c: CreditId, o: OrderId, amount: Money)
    requires LinesOk(s) && c in s.credits && OrderEntries(s, c, o) == []
    requires amount.amount < 0 && amount.currency == s.credits[c].currency
    ensures var (t, reply) := HoldTx(s, c, o, amount, Approve);
            && reply.Ok? && reply.value.HoldApproved?
            && ReleaseCreditTx(t, c, o) == (t, Err(CreditRefused(ReleaseUnderflow(amount.amount))))
  {
    var e := Entry(o, amount, Hold);
    assert EntriesFor(LedgerOf(s, c), o) == [];
    AppendedEntry(s, c, o, e, [ApprovedFact(LoadedLine(s, c, o), o, amount)]);
    FirstEntrySums([e], o);
  }

  /** `0 <= committedExposure <= creditLimit`, and no release can ever underflow. */
  lemma ExposureWithinBounds(s: BillingState, c: CreditId)
    requires LinesOk(s) && HoldsNonNegative(s) && c in s.credits
    ensures 0 <= CommittedOf(LedgerOf(s, c)) <= s.credits[c].limit
    ensures forall o :: ReleaseCreditTx(s, c, o).1.Ok?
  {
    forall o ensures ExposureOf(LedgerOf(s, c), o) >= 0 && ReleaseCreditTx(s, c, o).1.Ok? {
      ExposureByShape(s, c, o);
      UnderflowIff(s, c, o);
    }
    ExposuresAddUp(LedgerOf(s, c));
    SumOfNonNegatives(LedgerOf(s, c), FirstSeen(LedgerOf(s, c)));
  }

  predicate NonNegativeOp(op: BillingOp) {
    op.HoldOp? ==> op.amount.amount >= 0
  }

  lemma HoldKeepsNonNegative(s: BillingState, c: CreditId, o: OrderId, amount: Money, decision: CreditDecision)
    requires ValidBilling(s) && HoldsNonNegative(s) && amount.amount >= 0
    ensures HoldsNonNegative(HoldTx(s, c, o, amount, decision).0)
  {
    if c in s.credits {
      var line := LoadedLine(s, c, o);
      match Evaluate(line, o, amount)
      case AlreadyHeld(_) =>
      case HoldCurrencyMismatch(_) =>
      case Exceeds(available) => RefusalKeepsNonNegative(s, c, o, amount, available, OverLimit);
      case Fits =>
        match decision
        case Refuse(code) => RefusalKeepsNonNegative(s, c, o, amount, Available(line), PortRefusal(code));
        case Approve => FirstHoldKeepsNonNegative(s, c, o, amount, [ApprovedFact(line, o, amount)]);
    }
  }

  lemma RefusalKeepsNonNegative(s: BillingState, c: CreditId, o: OrderId, amount: Money, available: int,
                                refusal: CreditRefusal)
    requires HoldsNonNegative(s)
    ensures HoldsNonNegative(RefusedHold(s, c, o, amount, available, refusal).0)
  {
    SameLedgersKeepNonNegative(s, RefusedHold(s, c, o, amount, available, refusal).0);
  }

  lemma FirstHoldKeepsNonNegative(s: BillingState, c: CreditId, o: OrderId, amount: Money, facts: seq<Fact>)
    requires ValidBilling(s) && HoldsNonNegative(s) && amount.amount >= 0
    requires c in s.credits && Evaluate(LoadedLine(s, c, o), o, amount) == Fits
    ensures HoldsNonNegative(SavedLine(s, c, o, [Entry(o, amount, Hold)], facts))
  {
    AcceptedHold(s, c, o, amount, facts);
    AppendedEntry(s, c, o, Entry(o, amount, Hold), facts);
  }

  lemma LaterEntryKeepsNonNegative(s: BillingState, t: BillingState, c: CreditId, o: OrderId, e: Entry,
                                   facts: seq<Fact>)
    requires HoldsNonNegative(s) && e.order == o && OrderEntries(s, c, o) != []
    requires t.ledgers == SavedLine(s, c, o, [e], facts).ledgers
    ensures HoldsNonNegative(t)
  {
    AppendedEntry(s, c, o, e, facts);
    assert forall d :: LedgerOf(t, d) == LedgerOf(SavedLine(s, c, o, [e], facts), d);
    forall d, other | OrderEntries(t, d, other) != [] ensures OrderEntries(t, d, other)[0].amount.amount >= 0 {
      assert OrderEntries(t, d, other) == OrderEntries(SavedLine(s, c, o, [e], facts), d, other);
      assert d == c && other == o ==> OrderEntries(s, c, o)[0].amount.amount >= 0;
    }
  }

  lemma SameLedgersKeepNonNegative(s: BillingState, t: BillingState)
    requires HoldsNonNegative(s) && forall d :: LedgerOf(t, d) == LedgerOf(s, d)
    ensures HoldsNonNegative(t)
  {
    assert forall d, other :: OrderEntries(t, d, other) == OrderEntries(s, d, other);
  }

  lemma ReleaseKeepsNonNegative(s: BillingState, c: CreditId, o: OrderId)
    requires ValidBilling(s) && HoldsNonNegative(s)
    ensures HoldsNonNegative(ReleaseCreditTx(s, c, o).0)
  {
    if c in s.credits && ExposureOf(LoadedLine(s, c, o).entries, o) > 0 {
      var line := LoadedLine(s, c, o);
      ReleaseEntryFits(s, c, o);
      LaterEntryKeepsNonNegative(s, ReleaseCreditTx(s, c, o).0, c, o, ReleaseEntry(line, o),
                                 [ReleasedFact(line, o, ForOrderCancelled, ByRequest)]);
    }
  }

  lemma IssueKeepsNonNegative(s: BillingState, c: CreditId, o: OrderId, currency: CurrencyCode, lines: seq<InvoiceLine>,
                              discount: int)
    requires ValidBilling(s) && HoldsNonNegative(s)
    ensures HoldsNonNegative(IssueTx(s, c, o, currency, lines, discount).0)
  {
    var (t, reply) := IssueTx(s, c, o, currency, lines, discount);
    if reply.Ok? && reply.value.InvoiceOf? && reply.value.created {
      LoadedLineReconstitutes(s, c, o);
      ShapeDecides(LoadedLine(s, c, o).entries, o);
      LaterEntryKeepsNonNegative(s, t, c, o, ConsumeEntry(LoadedLine(s, c, o), o),
                                 [InvoiceIssuedFact(t.invoices[o].reference, t.invoices[o].total)]);
    }
  }

  lemma PayKeepsNonNegative(s: BillingState, seen: InvoiceSnapshot, ref: PaymentReference, amount: Money)
    requires ValidBilling(s) && HoldsNonNegative(s) && StillNames(s, seen)
    ensures HoldsNonNegative(PayTx(s, seen, ref, amount).0)
  {
    if PayTx(s, seen, ref, amount).1 == Ok(PaymentAccepted) {
      PaidStateKeepsNonNegative(s, seen.credit, seen.order, ref);
    }
  }

  lemma PaidStateKeepsNonNegative(s: BillingState, c: CreditId, o: OrderId, ref: PaymentReference)
    requires LinesOk(s) && HoldsNonNegative(s) && c in s.credits && o in s.invoices
             && ExposureOf(LoadedLine(s, c, o).entries, o) >= 0
    ensures HoldsNonNegative(PaidState(s, c, o, ref))
  {
    var line := LoadedLine(s, c, o);
    if ExposureOf(line.entries, o) == 0 {
      assert LedgerOf(s, c) + [] == LedgerOf(s, c);
      SameLedgersKeepNonNegative(s, PaidState(s, c, o, ref));
    } else {
      ReleaseEntryFits(s, c, o);
      LaterEntryKeepsNonNegative(s, PaidState(s, c, o, ref), c, o, ReleaseEntry(line, o), PaymentFacts(s, c, o, ref));
    }
  }

  /** Runs without negative holds: both bounds on every line, at every point. */
  lemma {:induction false} BoundsOverRuns(r: BillingRun, ops: seq<BillingOp>)
    requires ValidRun(r) && HoldsNonNegative(r.state) && forall i :: 0 <= i < |ops| ==> NonNegativeOp(ops[i])
    ensures var t := RunBilling(r, ops).state;
            && HoldsNonNegative(t)
            && forall c :: c in t.credits ==> 0 <= CommittedOf(LedgerOf(t, c)) <= t.credits[c].limit
                                              && forall o :: ReleaseCreditTx(t, c, o).1.Ok?
  {
    var t := RunBilling(r, ops).state;
    if ops != [] {
      var before := RunBilling(r, ops[..|ops| - 1]);
      BoundsOverRuns(r, ops[..|ops| - 1]);
      BillingOverRuns(r, ops[..|ops| - 1]);
      StepKeepsNonNegative(before, ops[|ops| - 1]);
    }
    BillingOverRuns(r, ops);
    forall c | c in t.credits
      ensures 0 <= CommittedOf(LedgerOf(t, c)) <= t.credits[c].limit && forall o :: ReleaseCreditTx(t, c, o).1.Ok?
    {
      ExposureWithinBounds(t, c);
    }
  }

  lemma StepKeepsNonNegative(r: BillingRun, op: BillingOp)
    requires ValidRun(r) && HoldsNonNegative(r.state) && NonNegativeOp(op)
    ensures HoldsNonNegative(BillingStep(r, op).state)
  {
    match op
    case HoldOp(c, o, amount, decision) => HoldKeepsNonNegative(r.state, c, o, amount, decision);
    case ReleaseCreditOp(c, o) => ReleaseKeepsNonNegative(r.state, c, o);
    case IssueOp(c, o, currency, lines, discount) => IssueKeepsNonNegative(r.state, c, o, currency, lines, discount);
    case PayReadOp(ref, o) =>
    case PayCommitOp(ref, seen, paid) =>
      if (ref, seen) in r.preReads {
        PayKeepsNonNegative(r.state, seen, ref, paid);
      }
  }

  // ---- What the answers say ----

  /** What a line has left, over all its orders. */
  function LeftOn(s: BillingState, c: CreditId): int
    requires c in s.credits
  {
    s.credits[c].limit - CommittedOf(LedgerOf(s, c))
  }

  /** The answer to an accepted hold, and its fact, say what is left after it. */
  ghost predicate HoldTaken(s: BillingState, t: BillingState, c: CreditId, o: OrderId, amount: Money,
                            reply: Result<BillingReply, BillingError>)
    requires c in s.credits
  {
    && c in t.credits && t.credits[c] == s.credits[c] && OrderEntries(t, c, o) == [Entry(o, amount, Hold)]
    && CommittedOf(LedgerOf(t, c)) == CommittedOf(LedgerOf(s, c)) + amount.amount <= t.credits[c].limit
    && reply == Ok(HoldApproved(amount.amount, LeftOn(t, c)))
    && StreamOf(t.outbox, o) == StreamOf(s.outbox, o) + [CreditApprovedFact(amount.amount, LeftOn(t, c))]
  }

  /** A refusal takes nothing and says what there was. */
  ghost predicate HoldRefused(s: BillingState, t: BillingState, c: CreditId, o: OrderId, amount: Money,
                              reply: Result<BillingReply, BillingError>, refusal: CreditRefusal)
    requires c in s.credits
  {
    && c in t.credits && t.credits[c] == s.credits[c] && LedgerOf(t, c) == LedgerOf(s, c)
    && reply == Ok(HoldRejected(LeftOn(t, c), refusal))
    && StreamOf(t.outbox, o) == StreamOf(s.outbox, o) + [CreditRejectedFact(amount.amount, LeftOn(t, c), refusal)]
  }

  /** A first hold is taken exactly when it leaves the line within its limit, in the line's currency, and the provider
      agrees; the limit is blamed exactly when there is too little left, and the provider is asked only otherwise. */
  lemma HoldAnswersAreTrue(s: BillingState, c: CreditId, o: OrderId, amount: Money, decision: CreditDecision)
    requires LinesOk(s) && c in s.credits && OrderEntries(s, c, o) == []
    ensures var (t, reply) := HoldTx(s, c, o, amount, decision);
            if amount.currency != s.credits[c].currency then
              t == s && reply == Err(CreditCurrencyMismatch(s.credits[c].currency))
            else if amount.amount > LeftOn(s, c) then HoldRefused(s, t, c, o, amount, reply, OverLimit)
            else match decision
              case Approve => HoldTaken(s, t, c, o, amount, reply)
              case Refuse(code) => HoldRefused(s, t, c, o, amount, reply, PortRefusal(code))
  {
    FirstHoldEvaluates(s, c, o, amount);
    match Evaluate(LoadedLine(s, c, o), o, amount)
    case Exceeds(_) => RefusalIsTrue(s, c, o, amount, OverLimit);
    case Fits =>
      if decision == Approve {
        ApprovalIsTrue(s, c, o, amount);
      } else {
        RefusalIsTrue(s, c, o, amount, PortRefusal(decision.code));
      }
    case _ =>
  }

  lemma FirstHoldEvaluates(s: BillingState, c: CreditId, o: OrderId, amount: Money)
    requires c in s.credits && OrderEntries(s, c, o) == []
    ensures Evaluate(LoadedLine(s, c, o), o, amount)
            == if amount.currency != s.credits[c].currency then HoldCurrencyMismatch(s.credits[c].currency)
               else if amount.amount > LeftOn(s, c) then Exceeds(LeftOn(s, c)) else Fits
    ensures Available(LoadedLine(s, c, o)) == LeftOn(s, c)
  {
    assert LoadedLine(s, c, o).entries == OrderEntries(s, c, o);
  }

  lemma ApprovalIsTrue(s: BillingState, c: CreditId, o: OrderId, amount: Money)
    requires c in s.credits && OrderEntries(s, c, o) == [] && amount.amount <= LeftOn(s, c)
    ensures var line := LoadedLine(s, c, o);
            HoldTaken(s, SavedLine(s, c, o, [Entry(o, amount, Hold)], [ApprovedFact(line, o, amount)]), c, o, amount,
                      Ok(HoldApproved(amount.amount, Available(line) - amount.amount)))
  {
    var line := LoadedLine(s, c, o);
    AppendedEntry(s, c, o, Entry(o, amount, Hold), [ApprovedFact(line, o, amount)]);
    RecordedGrows(s.outbox, o, [ApprovedFact(line, o, amount)]);
  }

  lemma RefusalIsTrue(s: BillingState, c: CreditId, o: OrderId, amount: Money, refusal: CreditRefusal)
    requires c in s.credits
    ensures var (t, reply) := RefusedHold(s, c, o, amount, LeftOn(s, c), refusal);
            HoldRefused(s, t, c, o, amount, reply, refusal)
  {
    assert LedgerOf(s, c) + [] == LedgerOf(s, c);
    RecordedGrows(s.outbox, o, [CreditRejectedFact(amount.amount, LeftOn(s, c), refusal)]);
  }

  /** And an order that has a hold is told its amount, whatever was asked for this time. */
  lemma HeldOnceIsAnswered(s: BillingState, c: CreditId, o: OrderId, amount: Money, decision: CreditDecision)
    requires LinesOk(s) && c in s.credits && OrderEntries(s, c, o) != []
    ensures HoldTx(s, c, o, amount, decision) == (s, Ok(HoldAlreadyThere(OrderEntries(s, c, o)[0].amount)))
  {
    LoadedLineReconstitutes(s, c, o);
    ShapeDecides(OrderEntries(s, c, o), o);
  }

  /** A release gives back the whole exposure of the order; the answer and the fact say how much, and what is left. */
  lemma ReleaseAnswersAreTrue(s: BillingState, c: CreditId, o: OrderId)
    requires LinesOk(s) && c in s.credits && ReleaseCreditTx(s, c, o).1.Ok?
    ensures var (t, reply) := ReleaseCreditTx(s, c, o);
            var exposure := ExposureOf(LedgerOf(s, c), o);
            && c in t.credits && ExposureOf(LedgerOf(t, c), o) == 0
            && LeftOn(t, c) == LeftOn(s, c) + exposure
            && (if exposure == 0 then t == s && reply == Ok(NothingReleased)
                else && reply == Ok(CreditReleasedNow(exposure))
                     && StreamOf(t.outbox, o)
                        == StreamOf(s.outbox, o)
                           + [CreditReleasedFact(exposure, LeftOn(t, c), ForOrderCancelled, ByRequest)])
  {
    var line := LoadedLine(s, c, o);
    ExposureByShape(s, c, o);
    assert line.entries == OrderEntries(s, c, o);
    if ExposureOf(line.entries, o) != 0 {
      var facts := [ReleasedFact(line, o, ForOrderCancelled, ByRequest)];
      AppendedEntry(s, c, o, ReleaseEntry(line, o), facts);
      RecordedGrows(s.outbox, o, facts);
      ReleasedExposure(LedgerOf(s, c), o, ReleaseEntry(line, o));
    }
  }

  lemma ReleasedExposure(entries: seq<Entry>, o: OrderId, e: Entry)
    requires e.order == o && e.kind == Release
    ensures ExposureOf(entries + [e], o) == ExposureOf(entries, o) - e.amount.amount
  {
    SumForSnoc(entries, e, o, Hold);
    SumForSnoc(entries, e, o, Release);
  }

  /** An invoice that is already there is answered; a new one is issued exactly for an order whose one entry is a
      positive hold, in the line's currency, with lines, and a discount that they cover. It takes the next number, is
      announced by its reference and total, and consumes the whole hold. */
  lemma IssueAnswersAreTrue(s: BillingState, c: CreditId, o: OrderId, currency: CurrencyCode, lines: seq<InvoiceLine>,
                            discount: int)
    requires LinesOk(s) && c in s.credits
    ensures var (t, reply) := IssueTx(s, c, o, currency, lines, discount);
            var es, gross := OrderEntries(s, c, o), SagaSteps.InvoiceGross(lines);
            if o in s.invoices then t == s && reply == Ok(InvoiceOf(s.invoices[o], false))
            else if currency != s.credits[c].currency then
              t == s && reply == Err(InvoiceCurrencyMismatch(s.credits[c].currency))
            else if !(|es| == 1 && es[0].amount.amount > 0) then t == s && reply == Err(NoActiveCreditHold)
            else if lines == [] then t == s && reply == Err(InvoiceRefused(EmptyInvoiceLines))
            else if gross < discount then t == s && reply == Err(InvoiceRefused(NegativeInvoiceTotal(gross, discount)))
            else Issued(s, t, c, o, currency, lines, discount, reply)
  {
    LoadedLineReconstitutes(s, c, o);
    ShapeDecides(OrderEntries(s, c, o), o);
    assert LoadedLine(s, c, o).entries == OrderEntries(s, c, o);
    if IssueTx(s, c, o, currency, lines, discount).0 != s {
      IssuedIsTrue(s, c, o, currency, lines, discount);
    }
  }

  ghost predicate Issued(s: BillingState, t: BillingState, c: CreditId, o: OrderId, currency: CurrencyCode,
                         lines: seq<InvoiceLine>, discount: int, reply: Result<BillingReply, BillingError>) {
    var gross, es := SagaSteps.InvoiceGross(lines), OrderEntries(s, c, o);
    && o in t.invoices && reply == Ok(InvoiceOf(t.invoices[o], true)) && es != []
    && t.invoices[o] == InvoiceSnapshot(o, c, s.nextInvoice, currency, lines, gross, discount, gross - discount, Open)
    && t.nextInvoice == s.nextInvoice + 1
    && OrderEntries(t, c, o) == es + [Entry(o, es[0].amount, Consume)]
    && StreamOf(t.outbox, o) == StreamOf(s.outbox, o) + [InvoiceIssuedFact(s.nextInvoice, gross - discount)]
  }

  lemma IssuedIsTrue(s: BillingState, c: CreditId, o: OrderId, currency: CurrencyCode, lines: seq<InvoiceLine>,
                     discount: int)
    requires LinesOk(s) && c in s.credits && o !in s.invoices && currency == s.credits[c].currency
    requires |OrderEntries(s, c, o)| == 1 && OrderEntries(s, c, o)[0].amount.amount > 0
    requires IssueRefusal(lines, discount).None?
    ensures Issued(s, IssueTx(s, c, o, currency, lines, discount).0, c, o, currency, lines, discount,
                   IssueTx(s, c, o, currency, lines, discount).1)
  {
    var es, line := OrderEntries(s, c, o), LoadedLine(s, c, o);
    var invoice := IssuedInvoice(o, c, s.nextInvoice, currency, lines, discount);
    var facts := [InvoiceIssuedFact(invoice.reference, invoice.total)];
    LoadedLineReconstitutes(s, c, o);
    ShapeDecides(es, o);
    assert line.entries == es;
    assert ConsumeEntry(line, o) == Entry(o, es[0].amount, Consume);
    AppendedEntry(s, c, o, ConsumeEntry(line, o), facts);
    RecordedGrows(s.outbox, o, facts);
    SameLedgers(SavedLine(s, c, o, [ConsumeEntry(line, o)], facts), InvoicedState(s, c, o, invoice));
  }

  // ---- The payment protocol ----

  /** Once a reference has settled an invoice: the same reference for it, on whichever path, is answered as a
      duplicate; the same reference for another invoice and another reference for this invoice are refused;
      and nothing changes. */
  lemma SettledForGood(s: BillingState, ref: PaymentReference, o: OrderId, seen: InvoiceSnapshot, paid: Money)
    requires ValidBilling(s) && PaidBy(s, o, ref) && StillNames(s, seen)
    ensures PayFastPath(s, ref, o) == AnswerDuplicate
    ensures forall other :: other != o ==> PayFastPath(s, ref, other) == RefuseConflict
    ensures seen.order == o ==> PayTx(s, seen, ref, paid) == (s, Ok(PaymentDuplicate))
    ensures seen.order == o ==> forall other :: other != ref ==>
            PayTx(s, seen, other, paid) == (s, Err(InvoiceRefused(AlreadyPaid)))
    ensures seen.order != o ==> PayTx(s, seen, ref, paid).0 == s && PayTx(s, seen, ref, paid).1.Err?
  {
    assert InvoiceOk(s, seen.order);
    if seen.order == o {
      forall other | other != ref ensures PayTx(s, seen, other, paid) == (s, Err(InvoiceRefused(AlreadyPaid))) {
        assert !PaidBy(s, o, other);
      }
    } else {
      assert !PaidBy(s, seen.order, ref);
    }
  }

  /** So over any continuation of any run, with reads as stale as they like, that payment stays the only one. */
  lemma PaidOnceOverRuns(r: BillingRun, ops: seq<BillingOp>, ref: PaymentReference, o: OrderId)
    requires ValidRun(r) && PaidBy(r.state, o, ref)
    ensures var t := RunBilling(r, ops).state;
            && (o in t.invoices && t.invoices[o].state.Settled?)
            && (forall other :: PaidBy(t, o, other) <==> other == ref)
            && (forall other :: PaidBy(t, other, ref) <==> other == o)
            && ref in t.payments && t.payments[ref] == r.state.payments[ref]
  {
    BillingOverRuns(r, ops);
    assert PaidBy(RunBilling(r, ops).state, o, ref);
  }

  lemma AcceptedPaymentIs(s: BillingState, seen: InvoiceSnapshot, ref: PaymentReference, paid: Money)
    requires StillNames(s, seen) && PayTx(s, seen, ref, paid).1 == Ok(PaymentAccepted)
    ensures var c, o := seen.credit, seen.order;
            && c in s.credits && s.invoices[o].credit == c && s.invoices[o].state.Open? && ref !in s.payments
            && paid == Money(s.invoices[o].total, s.invoices[o].currency)
            && PayTx(s, seen, ref, paid).0 == PaidState(s, c, o, ref)
  {
  }

  /** A payment is accepted exactly when its invoice is open, it is of the invoice's total in the invoice's currency and
      its reference is new; every other payment is answered by the first thing that is wrong with it. */
  lemma PaymentAcceptedIff(s: BillingState, seen: InvoiceSnapshot, ref: PaymentReference, paid: Money)
    requires ValidBilling(s) && StillNames(s, seen)
    ensures var invoice, reply := s.invoices[seen.order], PayTx(s, seen, ref, paid).1;
            var exact := paid == Money(invoice.total, invoice.currency);
            && (reply == Ok(PaymentAccepted) <==> invoice.state.Open? && exact && ref !in s.payments)
            && (reply == Ok(PaymentDuplicate) <==> PaidBy(s, seen.order, ref))
            && (reply == Err(InvoiceRefused(AlreadyPaid)) <==> invoice.state.Settled? && !PaidBy(s, seen.order, ref))
            && (reply == Err(PaymentReferenceConflict) <==> invoice.state.Open? && exact && ref in s.payments)
            && (reply == Err(InvoiceRefused(PaymentCurrencyMismatch(invoice.currency))) <==>
                invoice.state.Open? && paid.currency != invoice.currency)
            && (reply == Err(InvoiceRefused(PaymentAmountMismatch(invoice.total))) <==>
                invoice.state.Open? && paid.currency == invoice.currency && paid.amount != invoice.total)
  {
    var c, o := seen.credit, seen.order;
    assert InvoiceOk(s, o);
    NothingOverpaid(s, c, o);
  }

  lemma NothingOverpaid(s: BillingState, c: CreditId, o: OrderId)
    requires LinesOk(s) && c in s.credits && IsConsumed(OrderEntries(s, c, o))
    ensures ExposureOf(LoadedLine(s, c, o).entries, o) >= 0
  {
    ExposureByShape(s, c, o);
    assert LedgerShape(OrderEntries(s, c, o));
  }

  /** `facts` are a payment, and then at most one release, of the whole hold and caused by that very payment event. */
  predicate PaymentThenItsRelease(facts: seq<Fact>, ref: PaymentReference, total: int, position: nat, es: seq<Entry>,
                                  available: int) {
    if IsReleased(es) then facts == [PaymentReceivedFact(ref, total)]
    else
      && es != []
      && facts == [PaymentReceivedFact(ref, total),
                   CreditReleasedFact(es[0].amount.amount, available + es[0].amount.amount, ForInvoicePaid,
                                      ByPaymentEvent(position))]
  }

  /** An accepted payment is of exactly the invoice's total, and records the payment before the release it causes. */
  lemma PaymentThenRelease(s: BillingState, seen: InvoiceSnapshot, ref: PaymentReference, paid: Money)
    requires ValidBilling(s) && StillNames(s, seen) && PayTx(s, seen, ref, paid).1 == Ok(PaymentAccepted)
    ensures var c, o := seen.credit, seen.order;
            && c in s.credits && paid == Money(s.invoices[o].total, s.invoices[o].currency)
            && exists facts ::
                 && StreamOf(PayTx(s, seen, ref, paid).0.outbox, o) == StreamOf(s.outbox, o) + facts
                 && PaymentThenItsRelease(facts, ref, paid.amount, |StreamOf(s.outbox, o)|, OrderEntries(s, c, o),
                                          Available(LoadedLine(s, c, o)))
  {
    AcceptedPaymentIs(s, seen, ref, paid);
    assert InvoiceOk(s, seen.order);
    AcceptedPaymentFacts(s, seen.credit, seen.order, ref);
  }

  lemma AcceptedPaymentFacts(s: BillingState, c: CreditId, o: OrderId, ref: PaymentReference)
    requires LinesOk(s) && c in s.credits && o in s.invoices && IsConsumed(OrderEntries(s, c, o))
    ensures StreamOf(PaidState(s, c, o, ref).outbox, o) == StreamOf(s.outbox, o) + PaymentFacts(s, c, o, ref)
    ensures PaymentThenItsRelease(PaymentFacts(s, c, o, ref), ref, s.invoices[o].total, |StreamOf(s.outbox, o)|,
                                  OrderEntries(s, c, o),
                                  Available(LoadedLine(s, c, o)))
  {
    ExposureByShape(s, c, o);
    assert LoadedLine(s, c, o).entries == OrderEntries(s, c, o);
    assert LedgerShape(OrderEntries(s, c, o));
  }

  /** After an accepted payment the order's exposure is zero, and the line has exactly the held amount back. */
  lemma PaymentFreesTheHold(s: BillingState, seen: InvoiceSnapshot, ref: PaymentReference, paid: Money)
    requires ValidBilling(s) && StillNames(s, seen) && PayTx(s, seen, ref, paid).1 == Ok(PaymentAccepted)
    ensures var t := PayTx(s, seen, ref, paid).0;
            var c, o := seen.credit, seen.order;
            && ExposureOf(LedgerOf(t, c), o) == 0
            && CommittedOf(LedgerOf(t, c)) == CommittedOf(LedgerOf(s, c)) - ExposureOf(LedgerOf(s, c), o)
  {
    var c, o := seen.credit, seen.order;
    assert InvoiceOk(s, o);
    ExposureByShape(s, c, o);
    AcceptedPaymentEntries(s, c, o, ref);
    ExposureByShape(PaidState(s, c, o, ref), c, o);
    PaidCommitted(s, c, o, ref);
  }

  lemma PaidCommitted(s: BillingState, c: CreditId, o: OrderId, ref: PaymentReference)
    requires c in s.credits && o in s.invoices
    ensures CommittedOf(LedgerOf(PaidState(s, c, o, ref), c))
            == CommittedOf(LedgerOf(s, c)) - ExposureOf(OrderEntries(s, c, o), o)
  {
    var line := LoadedLine(s, c, o);
    if ExposureOf(line.entries, o) == 0 {
      assert LedgerOf(s, c) + [] == LedgerOf(s, c);
    } else {
      AppendedEntry(s, c, o, ReleaseEntry(line, o), PaymentFacts(s, c, o, ref));
      assert LedgerOf(PaidState(s, c, o, ref), c) == LedgerOf(s, c) + [ReleaseEntry(line, o)];
    }
  }
}
