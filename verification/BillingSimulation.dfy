/** The Billing transactions do to one order's hold and invoice what the saga machine says. */
module BillingSimulation {
  import opened Kernel
  import opened OrderAggregate
  import opened SagaSteps
  import L = Ledger
  import opened BuyerCreditAggregate
  import opened InvoiceAggregate
  import opened BillingTables
  import opened BillingInvariants
  import opened BillingRuns
  import opened Abstraction
  import S = Saga

  ghost predicate BillingIs(b: BillingState, o: OrderId, order: OrderSnapshot, g: S.SagaState) {
    && CreditIs(b, o, order, g.credit)
    && CreditStreamIs(StreamOf(b.outbox, o), g.refusals.credit, g.credit, NetOf(order.lines))
  }

  /** A transaction of order `o` changes nothing that belongs to another order, except the line's scalar. */
  ghost predicate OnlyOrder(b: BillingState, t: BillingState, o: OrderId) {
    && t.credits == b.credits
    && (forall c: CreditId, other: OrderId :: other != o ==> OrderEntries(t, c, other) == OrderEntries(b, c, other))
    && (forall other :: other != o ==>
        (other in t.invoices <==> other in b.invoices)
          && (other in b.invoices ==> t.invoices[other] == b.invoices[other]))
    && (forall other :: other != o ==> StreamOf(t.outbox, other) == StreamOf(b.outbox, other))
  }

  lemma OtherOrderStays(b: BillingState, t: BillingState, o: OrderId, other: OrderId, order: OrderSnapshot,
                        g: S.SagaState)
    requires OnlyOrder(b, t, o) && other != o && BillingIs(b, other, order, g)
    ensures BillingIs(t, other, order, g)
  {
  }

  function AmountOf(order: OrderSnapshot): Money {
    Money(NetOf(order.lines), order.currency)
  }

  /** Everything a transaction reads of the order's entries, by phase. */
  lemma EntriesDecide(b: BillingState, o: OrderId, order: OrderSnapshot, phase: S.CreditPhase)
    requires LinesOk(b) && order.credit in b.credits && CreditIs(b, o, order, phase)
    ensures var es := LoadedLine(b, order.credit, o).entries;
            && es == EntriesOf(o, AmountOf(order), phase)
            && L.ExposureOf(es, o) == (if phase.CreditHeld? || phase.CreditInvoiced? then NetOf(order.lines) else 0)
            && L.ActiveHoldOf(es, o) == (if phase.CreditHeld? && NetOf(order.lines) > 0 then NetOf(order.lines) else 0)
            && FirstHold(es, o) == (if phase.CreditUntouched? then None else Some(L.Entry(o, AmountOf(order), L.Hold)))
  {
    LoadedLineReconstitutes(b, order.credit, o);
    ShapeDecides(OrderEntries(b, order.credit, o), o);
  }

  lemma StreamGrows(was: seq<Fact>, refusals: nat, phase: S.CreditPhase, net: int, facts: seq<Fact>, refusals': nat,
                    phase': S.CreditPhase)
    requires CreditStreamIs(was, refusals, phase, net)
    requires refusals' + S.CreditFacts(phase') == |was| + |facts|
    requires forall i: nat :: i < |was| ==> S.CreditEvent(refusals', phase', i) == S.CreditEvent(refusals, phase, i)
    requires forall i: nat :: i < |facts| ==>
             IsEvent(facts[i], S.CreditEvent(refusals', phase', |was| + i)) && SpeaksOf(facts[i], net)
    ensures CreditStreamIs(was + facts, refusals', phase', net)
  {
    forall i | 0 <= i < |was + facts|
      ensures IsEvent((was + facts)[i], S.CreditEvent(refusals', phase', i)) && SpeaksOf((was + facts)[i], net)
    {
      if i >= |was| {
        assert (was + facts)[i] == facts[i - |was|];
        assert |was| + (i - |was|) == i;
      }
    }
  }

  // ---- credit.hold ----

  function DecisionIn(reply: Result<BillingReply, BillingError>): S.Decision {
    match reply
    case Ok(HoldApproved(_, _)) => S.Accept
    case Ok(HoldRejected(_, _)) => S.Decline
    case _ => S.NoDecision
  }

  predicate LineUsable(b: BillingState, order: OrderSnapshot) {
    order.credit in b.credits && b.credits[order.credit].currency == order.currency
  }

  /** One more entry of the order and its facts. */
  lemma EntryAdded(b: BillingState, o: OrderId, order: OrderSnapshot, e: L.Entry, facts: seq<Fact>)
    requires e.order == o
    ensures var t := SavedLine(b, order.credit, o, [e], facts);
            && OrderEntries(t, order.credit, o) == OrderEntries(b, order.credit, o) + [e]
            && (forall c :: c != order.credit ==> OrderEntries(t, c, o) == OrderEntries(b, c, o))
            && OnlyOrder(b, t, o)
            && StreamOf(t.outbox, o) == StreamOf(b.outbox, o) + facts
  {
    AppendedEntry(b, order.credit, o, e, facts);
    if facts == [] {
      assert StreamOf(b.outbox, o) + facts == StreamOf(b.outbox, o);
    }
  }

  lemma HoldAccepted(b: BillingState, o: OrderId, order: OrderSnapshot, g: S.SagaState, fact: Fact)
    requires BillingIs(b, o, order, g) && g.credit == S.CreditUntouched && LineUsable(b, order)
    requires fact.CreditApprovedFact? && fact.heldAmount == NetOf(order.lines)
    ensures var t := SavedLine(b, order.credit, o, [L.Entry(o, AmountOf(order), L.Hold)], [fact]);
            BillingIs(t, o, order, S.HoldExecuted(g, S.Accept)) && OnlyOrder(b, t, o)
  {
    EntryAdded(b, o, order, L.Entry(o, AmountOf(order), L.Hold), [fact]);
    StreamGrows(StreamOf(b.outbox, o), g.refusals.credit, g.credit, NetOf(order.lines), [fact], g.refusals.credit,
                S.CreditHeld);
  }

  /** A refusal leaves every ledger as it is and adds one fact. */
  lemma RefusalRecorded(b: BillingState, t: BillingState, o: OrderId, order: OrderSnapshot, g: S.SagaState, fact: Fact)
    requires BillingIs(b, o, order, g) && g.credit == S.CreditUntouched
    requires fact.CreditRejectedFact? && fact.requestedAmount == NetOf(order.lines)
    requires t.credits == b.credits && t.invoices == b.invoices && forall c :: LedgerOf(t, c) == LedgerOf(b, c)
    requires StreamOf(t.outbox, o) == StreamOf(b.outbox, o) + [fact]
    requires forall other :: other != o ==> StreamOf(t.outbox, other) == StreamOf(b.outbox, other)
    ensures BillingIs(t, o, order, S.HoldExecuted(g, S.Decline)) && OnlyOrder(b, t, o)
  {
    assert forall c: CreditId, other: OrderId :: OrderEntries(t, c, other) == OrderEntries(b, c, other);
    StreamGrows(StreamOf(b.outbox, o), g.refusals.credit, g.credit, NetOf(order.lines), [fact], g.refusals.credit + 1,
                S.CreditUntouched);
  }

  lemma HoldDeclined(b: BillingState, o: OrderId, order: OrderSnapshot, g: S.SagaState, available: int,
                     refusal: CreditRefusal)
    requires BillingIs(b, o, order, g) && g.credit == S.CreditUntouched
    ensures var t := RefusedHold(b, order.credit, o, AmountOf(order), available, refusal).0;
            BillingIs(t, o, order, S.HoldExecuted(g, S.Decline)) && OnlyOrder(b, t, o)
  {
    RefusalRecorded(b, RefusedHold(b, order.credit, o, AmountOf(order), available, refusal).0, o, order, g,
                    CreditRejectedFact(NetOf(order.lines), available, refusal));
  }

  /** Without an earlier hold the evaluation never says so, and a usable line never mismatches. */
  lemma FirstEvaluation(b: BillingState, o: OrderId, order: OrderSnapshot, g: S.SagaState)
    requires LinesOk(b) && CreditIs(b, o, order, g.credit) && order.credit in b.credits
    ensures var e := Evaluate(LoadedLine(b, order.credit, o), o, AmountOf(order));
            && (g.credit != S.CreditUntouched <==> e.AlreadyHeld?)
            && (e.HoldCurrencyMismatch? ==> !LineUsable(b, order))
            && (e.Fits? || e.Exceeds? ==> LineUsable(b, order))
  {
    EntriesDecide(b, o, order, g.credit);
  }

  lemma HoldTxIs(b: BillingState, c: CreditId, o: OrderId, amount: Money, decision: CreditDecision)
    requires c in b.credits
    ensures var line := LoadedLine(b, c, o);
            var (t, reply) := HoldTx(b, c, o, amount, decision);
            match Evaluate(line, o, amount)
            case AlreadyHeld(_) => t == b && DecisionIn(reply) == S.NoDecision
            case HoldCurrencyMismatch(_) => t == b && DecisionIn(reply) == S.NoDecision
            case Exceeds(available) =>
              && t == RefusedHold(b, c, o, amount, available, OverLimit).0
              && DecisionIn(reply) == S.Decline
            case Fits =>
              if decision.Approve? then
                && t == SavedLine(b, c, o, [L.Entry(o, amount, L.Hold)], [ApprovedFact(line, o, amount)])
                && DecisionIn(reply) == S.Accept
              else
                && t == RefusedHold(b, c, o, amount, Available(line), PortRefusal(decision.code)).0
                && DecisionIn(reply) == S.Decline
  {
  }

  lemma HoldRefines(b: BillingState, o: OrderId, order: OrderSnapshot, g: S.SagaState, decision: CreditDecision)
    requires LinesOk(b) && BillingIs(b, o, order, g)
    ensures var (t, reply) := HoldTx(b, order.credit, o, AmountOf(order), decision);
            && BillingIs(t, o, order, S.HoldExecuted(g, DecisionIn(reply))) && OnlyOrder(b, t, o)
            && (DecisionIn(reply) == S.NoDecision ==> g.credit != S.CreditUntouched || !LineUsable(b, order))
  {
    if order.credit in b.credits {
      FirstEvaluation(b, o, order, g);
      HoldTxIs(b, order.credit, o, AmountOf(order), decision);
      HoldOutcome(b, HoldTx(b, order.credit, o, AmountOf(order), decision).0, o, order, g, decision,
                  DecisionIn(HoldTx(b, order.credit, o, AmountOf(order), decision).1));
    }
  }

  lemma HoldOutcome(b: BillingState, t: BillingState, o: OrderId, order: OrderSnapshot, g: S.SagaState,
                    decision: CreditDecision, d: S.Decision)
    requires LinesOk(b) && BillingIs(b, o, order, g) && order.credit in b.credits
    requires var line := LoadedLine(b, order.credit, o);
             match Evaluate(line, o, AmountOf(order))
             case AlreadyHeld(_) => t == b && d == S.NoDecision
             case HoldCurrencyMismatch(_) => t == b && d == S.NoDecision
             case Exceeds(available) =>
               && t == RefusedHold(b, order.credit, o, AmountOf(order), available, OverLimit).0
               && d == S.Decline
             case Fits =>
               if decision.Approve? then
                 && t == SavedLine(b, order.credit, o, [L.Entry(o, AmountOf(order), L.Hold)],
                                   [ApprovedFact(line, o, AmountOf(order))])
                 && d == S.Accept
               else
                 && t == RefusedHold(b, order.credit, o, AmountOf(order), Available(line), PortRefusal(decision.code)).0
                 && d == S.Decline
    ensures BillingIs(t, o, order, S.HoldExecuted(g, d)) && OnlyOrder(b, t, o)
  {
    FirstEvaluation(b, o, order, g);
    var line := LoadedLine(b, order.credit, o);
    match Evaluate(line, o, AmountOf(order))
    case AlreadyHeld(_) =>
    case HoldCurrencyMismatch(_) =>
    case Exceeds(available) => HoldDeclined(b, o, order, g, available, OverLimit);
    case Fits =>
      match decision
      case Refuse(code) => HoldDeclined(b, o, order, g, Available(line), PortRefusal(code));
      case Approve => HoldAccepted(b, o, order, g, ApprovedFact(line, o, AmountOf(order)));
  }

  // ---- credit.release ----

  lemma RefundRefines(b: BillingState, o: OrderId, order: OrderSnapshot, g: S.SagaState)
    requires LinesOk(b) && BillingIs(b, o, order, g) && OrderIs(order, g)
    ensures var t := ReleaseCreditTx(b, order.credit, o).0;
            BillingIs(t, o, order, S.RefundExecuted(g)) && OnlyOrder(b, t, o)
  {
    if order.credit in b.credits {
      EntriesDecide(b, o, order, g.credit);
      if L.ExposureOf(LoadedLine(b, order.credit, o).entries, o) > 0 {
        RefundMoves(b, o, order, g);
      }
    }
  }

  lemma RefundMoves(b: BillingState, o: OrderId, order: OrderSnapshot, g: S.SagaState)
    requires LinesOk(b) && BillingIs(b, o, order, g) && OrderIs(order, g) && order.credit in b.credits
    requires L.ExposureOf(LoadedLine(b, order.credit, o).entries, o) > 0
    ensures var line := LoadedLine(b, order.credit, o);
            var t := SavedLine(b, order.credit, o, [ReleaseEntry(line, o)],
                               [ReleasedFact(line, o, ForOrderCancelled, ByRequest)]);
            BillingIs(t, o, order, S.RefundExecuted(g)) && OnlyOrder(b, t, o)
  {
    EntriesDecide(b, o, order, g.credit);
    var line := LoadedLine(b, order.credit, o);
    var fact := ReleasedFact(line, o, ForOrderCancelled, ByRequest);
    EntryAdded(b, o, order, ReleaseEntry(line, o), [fact]);
    StreamGrows(StreamOf(b.outbox, o), g.refusals.credit, g.credit, NetOf(order.lines), [fact], g.refusals.credit,
                S.RefundExecuted(g).credit);
  }

  // ---- invoice.issue ----

  lemma IssueRefines(b: BillingState, o: OrderId, order: OrderSnapshot, g: S.SagaState)
    requires LinesOk(b) && BillingIs(b, o, order, g) && OrderIs(order, g)
    ensures var t :=
            IssueTx(b, order.credit, o, order.currency, InvoiceLinesOf(order.lines), DiscountOf(order.lines)).0;
            BillingIs(t, o, order, S.IssueExecuted(g)) && OnlyOrder(b, t, o)
  {
    IssueTxIs(b, o, order, g);
    if g.credit == S.CreditHeld && g.positive {
      IssueMoves(b, o, order, g);
    }
  }

  function InvoiceFor(b: BillingState, o: OrderId, order: OrderSnapshot): InvoiceSnapshot {
    IssuedInvoice(o, order.credit, b.nextInvoice, order.currency, InvoiceLinesOf(order.lines), DiscountOf(order.lines))
  }

  /** Only an active hold is invoiced, and everything else leaves the tables alone. */
  lemma IssueTxIs(b: BillingState, o: OrderId, order: OrderSnapshot, g: S.SagaState)
    requires LinesOk(b) && CreditIs(b, o, order, g.credit) && OrderIs(order, g)
    ensures g.credit == S.CreditHeld ==> order.credit in b.credits
    ensures IssueTx(b, order.credit, o, order.currency, InvoiceLinesOf(order.lines), DiscountOf(order.lines)).0
            == if g.credit == S.CreditHeld && g.positive then InvoicedState(b, order.credit, o, InvoiceFor(b, o, order))
              else b
  {
    if order.credit in b.credits {
      EntriesDecide(b, o, order, g.credit);
      InvoiceGrossIsOrderGross(order.lines);
    }
  }

  /** The invoice that Billing computes on its own is of exactly the amount that was held. */
  lemma IssueMoves(b: BillingState, o: OrderId, order: OrderSnapshot, g: S.SagaState)
    requires LinesOk(b) && BillingIs(b, o, order, g) && OrderIs(order, g) && g.credit == S.CreditHeld && g.positive
    ensures var t := InvoicedState(b, order.credit, o, InvoiceFor(b, o, order));
            BillingIs(t, o, order, S.IssueExecuted(g)) && OnlyOrder(b, t, o)
  {
    var invoice := InvoiceFor(b, o, order);
    ConsumedOnLine(b, o, order, g.credit);
    InvoiceGrossIsOrderGross(order.lines);
    InvoiceWritten(b,
                   SavedLine(b, order.credit, o, [L.Entry(o, AmountOf(order), L.Consume)],
                             [InvoiceIssuedFact(invoice.reference, invoice.total)]),
                   InvoicedState(b, order.credit, o, invoice), o, order, g,
                     InvoiceIssuedFact(invoice.reference, invoice.total));
  }

  lemma ConsumedOnLine(b: BillingState, o: OrderId, order: OrderSnapshot, phase: S.CreditPhase)
    requires LinesOk(b) && CreditIs(b, o, order, phase) && phase == S.CreditHeld && NetOf(order.lines) > 0
    ensures order.credit in b.credits && b.credits[order.credit].currency == order.currency
    ensures ConsumeEntry(LoadedLine(b, order.credit, o), o) == L.Entry(o, AmountOf(order), L.Consume)
  {
    EntriesDecide(b, o, order, phase);
  }

  lemma InvoiceWritten(b: BillingState, saved: BillingState, t: BillingState, o: OrderId, order: OrderSnapshot,
                       g: S.SagaState, fact: Fact)
    requires BillingIs(b, o, order, g) && g.credit == S.CreditHeld && g.positive
    requires saved == SavedLine(b, order.credit, o, [L.Entry(o, AmountOf(order), L.Consume)], [fact])
    requires fact.InvoiceIssuedFact? && fact.invoiceTotal == NetOf(order.lines)
    requires t == saved.(invoices := t.invoices, nextInvoice := t.nextInvoice) && o in t.invoices
             && t.invoices == b.invoices[o := t.invoices[o]]
    requires var invoice := t.invoices[o];
             && invoice.order == o && invoice.credit == order.credit && invoice.total == NetOf(order.lines)
             && invoice.currency == order.currency && invoice.state.Open?
    ensures BillingIs(t, o, order, S.IssueExecuted(g)) && OnlyOrder(b, t, o)
  {
    EntryAdded(b, o, order, L.Entry(o, AmountOf(order), L.Consume), [fact]);
    SameLedgers(saved, t);
    StreamGrows(StreamOf(b.outbox, o), g.refusals.credit, g.credit, NetOf(order.lines), [fact], g.refusals.credit,
                S.CreditInvoiced);
  }

  // ---- payment.register ----

  lemma PayRefines(b: BillingState, order: OrderSnapshot, g: S.SagaState, seen: InvoiceSnapshot, ref: PaymentReference,
                   paid: Money)
    requires LinesOk(b) && BillingIs(b, seen.order, order, g) && OrderIs(order, g) && StillNames(b, seen)
    requires g.credit != S.CreditFreedAfterInvoice
    ensures var (t, reply) := PayTx(b, seen, ref, paid);
            && BillingIs(t, seen.order, order, if reply == Ok(PaymentAccepted) then S.PaymentRegistered(g) else g)
            && OnlyOrder(b, t, seen.order)
            && (reply == Ok(PaymentAccepted) ==> g.credit == S.CreditInvoiced && paid == AmountOf(order))
  {
    if PayTx(b, seen, ref, paid).1 == Ok(PaymentAccepted) {
      AcceptedPaymentIs(b, seen, ref, paid);
      PaymentMoves(b, seen.order, order, g, ref);
    }
  }

  lemma PaymentMoves(b: BillingState, o: OrderId, order: OrderSnapshot, g: S.SagaState, ref: PaymentReference)
    requires LinesOk(b) && BillingIs(b, o, order, g) && OrderIs(order, g) && order.credit in b.credits
             && o in b.invoices
    requires g.credit == S.CreditInvoiced
    ensures var t := PaidState(b, order.credit, o, ref);
            BillingIs(t, o, order, S.PaymentRegistered(g)) && OnlyOrder(b, t, o)
  {
    ReleasedOnLine(b, o, order, g.credit, ref);
    var facts := PaymentFacts(b, order.credit, o, ref);
    PaymentWritten(b, SavedLine(b, order.credit, o, [L.Entry(o, AmountOf(order), L.Release)], facts),
                   PaidState(b, order.credit, o, ref), o, order, g, facts);
  }

  lemma ReleasedOnLine(b: BillingState, o: OrderId, order: OrderSnapshot, phase: S.CreditPhase, ref: PaymentReference)
    requires LinesOk(b) && CreditIs(b, o, order, phase) && phase == S.CreditInvoiced && order.credit in b.credits
             && o in b.invoices
    ensures var line := LoadedLine(b, order.credit, o);
            && L.ExposureOf(line.entries, o) == NetOf(order.lines) > 0
            && ReleaseEntry(line, o) == L.Entry(o, AmountOf(order), L.Release)
    ensures var facts := PaymentFacts(b, order.credit, o, ref);
            && |facts| == 2 && facts[0] == PaymentReceivedFact(ref, NetOf(order.lines))
            && facts[1].CreditReleasedFact? && facts[1].releasedAmount == NetOf(order.lines)
               && facts[1].creditReason == ForInvoicePaid
  {
    EntriesDecide(b, o, order, phase);
    assert LedgerShape(OrderEntries(b, order.credit, o));
    assert OrderEntries(b, order.credit, o)[0].amount.amount > 0;
  }

  lemma PaymentWritten(b: BillingState, saved: BillingState, t: BillingState, o: OrderId, order: OrderSnapshot,
                       g: S.SagaState, facts: seq<Fact>)
    requires BillingIs(b, o, order, g) && g.credit == S.CreditInvoiced && o in b.invoices
    requires saved == SavedLine(b, order.credit, o, [L.Entry(o, AmountOf(order), L.Release)], facts)
    requires |facts| == 2 && facts[0].PaymentReceivedFact? && facts[0].paidAmount == NetOf(order.lines)
    requires facts[1].CreditReleasedFact? && facts[1].releasedAmount == NetOf(order.lines)
             && facts[1].creditReason == ForInvoicePaid
    requires t == saved.(invoices := b.invoices[o := b.invoices[o].(state := Settled)], payments := t.payments)
    ensures BillingIs(t, o, order, S.PaymentRegistered(g)) && OnlyOrder(b, t, o)
  {
    SettledCredit(b, saved, t, o, order, facts);
    StreamGrows(StreamOf(b.outbox, o), g.refusals.credit, g.credit, NetOf(order.lines), facts, g.refusals.credit,
                S.CreditSettled);
  }

  lemma SettledCredit(b: BillingState, saved: BillingState, t: BillingState, o: OrderId, order: OrderSnapshot,
                      facts: seq<Fact>)
    requires CreditIs(b, o, order, S.CreditInvoiced) && o in b.invoices
    requires saved == SavedLine(b, order.credit, o, [L.Entry(o, AmountOf(order), L.Release)], facts)
    requires t == saved.(invoices := b.invoices[o := b.invoices[o].(state := Settled)], payments := t.payments)
    ensures CreditIs(t, o, order, S.CreditSettled) && OnlyOrder(b, t, o)
            && StreamOf(t.outbox, o) == StreamOf(b.outbox, o) + facts
  {
    EntryAdded(b, o, order, L.Entry(o, AmountOf(order), L.Release), facts);
    SameLedgers(saved, t);
  }
}
