/** The facts of Billing and its tables say the same: every invoice and every payment is announced once it is stored,
    with what is stored, and no two invoices share a reference. */
module BillingFacts {
  import opened Kernel
  import opened BuyerCreditAggregate
  import opened InvoiceAggregate
  import opened BillingTables
  import opened BillingRuns

  /** Numbers are allocated in sequence and never twice. */
  ghost predicate NumbersOk(s: BillingState) {
    && (forall o :: o in s.invoices ==> s.invoices[o].reference < s.nextInvoice)
    && (forall o, other :: o in s.invoices && other in s.invoices && o != other ==>
          s.invoices[o].reference != s.invoices[other].reference)
  }

  /** What a fact of the order's stream says of the tables. */
  predicate FactIsTrue(s: BillingState, o: OrderId, f: Fact) {
    match f
    case InvoiceIssuedFact(reference, total) =>
      o in s.invoices && s.invoices[o].reference == reference && s.invoices[o].total == total
    case PaymentReceivedFact(ref, paid) => ref in s.payments && s.payments[ref] == PaymentRow(o, paid)
    case _ => true
  }

  ghost predicate FactsAreTrue(s: BillingState) {
    forall o, i :: 0 <= i < |StreamOf(s.outbox, o)| ==> FactIsTrue(s, o, StreamOf(s.outbox, o)[i])
  }

  predicate InvoiceAnnounced(s: BillingState, o: OrderId)
    requires o in s.invoices
  {
    InvoiceIssuedFact(s.invoices[o].reference, s.invoices[o].total) in StreamOf(s.outbox, o)
  }

  predicate PaymentAnnounced(s: BillingState, ref: PaymentReference)
    requires ref in s.payments
  {
    PaymentReceivedFact(ref, s.payments[ref].amount) in StreamOf(s.outbox, s.payments[ref].order)
  }

  ghost predicate TellsAll(s: BillingState) {
    && NumbersOk(s) && FactsAreTrue(s)
    && (forall o :: o in s.invoices ==> InvoiceAnnounced(s, o))
    && (forall ref :: ref in s.payments ==> PaymentAnnounced(s, ref))
  }

  // ---- Every transaction keeps it ----

  /** `t` is `s` with more facts of one order, and what is new in the tables is what they say. */
  ghost predicate Announces(s: BillingState, t: BillingState, o: OrderId, facts: seq<Fact>) {
    && OnlyGrows(s, t) && t.outbox == Recorded(s.outbox, o, facts)
    && (forall i :: 0 <= i < |facts| ==> FactIsTrue(t, o, facts[i]))
    && (forall other :: other in t.invoices && other !in s.invoices ==>
          other == o && InvoiceIssuedFact(t.invoices[o].reference, t.invoices[o].total) in facts)
    && (forall ref :: ref in t.payments && ref !in s.payments ==>
          t.payments[ref].order == o && PaymentReceivedFact(ref, t.payments[ref].amount) in facts)
  }

  lemma StillTrue(s: BillingState, t: BillingState, o: OrderId, f: Fact)
    requires OnlyGrows(s, t) && FactIsTrue(s, o, f)
    ensures FactIsTrue(t, o, f)
  {
  }

  lemma FactsStayTrue(s: BillingState, t: BillingState, o: OrderId, facts: seq<Fact>)
    requires FactsAreTrue(s) && Announces(s, t, o, facts)
    ensures FactsAreTrue(t)
  {
    RecordedGrows(s.outbox, o, facts);
    forall other, i | 0 <= i < |StreamOf(t.outbox, other)| ensures FactIsTrue(t, other, StreamOf(t.outbox, other)[i]) {
      if i < |StreamOf(s.outbox, other)| {
        StillTrue(s, t, other, StreamOf(s.outbox, other)[i]);
      } else {
        assert StreamOf(t.outbox, other)[i] == facts[i - |StreamOf(s.outbox, other)|];
      }
    }
  }

  lemma StreamsKeepFacts(outbox: Outbox, o: OrderId, facts: seq<Fact>)
    ensures forall other, f :: f in StreamOf(outbox, other) ==> f in StreamOf(Recorded(outbox, o, facts), other)
    ensures forall f :: f in facts ==> f in StreamOf(Recorded(outbox, o, facts), o)
  {
    RecordedGrows(outbox, o, facts);
  }

  lemma EverythingStaysAnnounced(s: BillingState, t: BillingState, o: OrderId, facts: seq<Fact>)
    requires Announces(s, t, o, facts)
    requires forall other :: other in s.invoices ==> InvoiceAnnounced(s, other)
    requires forall ref :: ref in s.payments ==> PaymentAnnounced(s, ref)
    ensures forall other :: other in t.invoices ==> InvoiceAnnounced(t, other)
    ensures forall ref :: ref in t.payments ==> PaymentAnnounced(t, ref)
  {
    StreamsKeepFacts(s.outbox, o, facts);
    forall other | other in t.invoices ensures InvoiceAnnounced(t, other) {
      assert other in s.invoices ==> InvoiceAnnounced(s, other);
    }
    forall ref | ref in t.payments ensures PaymentAnnounced(t, ref) {
      assert ref in s.payments ==> PaymentAnnounced(s, ref);
    }
  }

  lemma AnnouncingKeeps(s: BillingState, t: BillingState, o: OrderId, facts: seq<Fact>)
    requires TellsAll(s) && Announces(s, t, o, facts) && NumbersOk(t)
    ensures TellsAll(t)
  {
    FactsStayTrue(s, t, o, facts);
    EverythingStaysAnnounced(s, t, o, facts);
  }

  lemma NothingAnnounced(s: BillingState)
    ensures forall o :: Announces(s, s, o, [])
  {
  }

  lemma HoldAnnounces(s: BillingState, c: CreditId, o: OrderId, amount: Money, decision: CreditDecision)
    ensures exists facts :: Announces(s, HoldTx(s, c, o, amount, decision).0, o, facts)
    ensures NumbersOk(s) ==> NumbersOk(HoldTx(s, c, o, amount, decision).0)
  {
    var t := HoldTx(s, c, o, amount, decision).0;
    HoldOnlyGrows(s, c, o, amount, decision);
    NothingAnnounced(s);
    if t != s {
      var line := LoadedLine(s, c, o);
      if Evaluate(line, o, amount) == Fits && decision == Approve {
        assert Announces(s, t, o, [ApprovedFact(line, o, amount)]);
      } else {
        var refusal := if Evaluate(line, o, amount) == Fits then PortRefusal(decision.code) else OverLimit;
        assert Announces(s, t, o, [CreditRejectedFact(amount.amount, Available(line), refusal)]);
      }
    } else {
      assert Announces(s, t, o, []);
    }
  }

  lemma ReleaseAnnounces(s: BillingState, c: CreditId, o: OrderId)
    ensures exists facts :: Announces(s, ReleaseCreditTx(s, c, o).0, o, facts)
    ensures NumbersOk(s) ==> NumbersOk(ReleaseCreditTx(s, c, o).0)
  {
    var t := ReleaseCreditTx(s, c, o).0;
    ReleaseOnlyGrows(s, c, o);
    NothingAnnounced(s);
    if t != s {
      assert Announces(s, t, o, [ReleasedFact(LoadedLine(s, c, o), o, ForOrderCancelled, ByRequest)]);
    } else {
      assert Announces(s, t, o, []);
    }
  }

  lemma IssueAnnounces(s: BillingState, c: CreditId, o: OrderId, currency: CurrencyCode, lines: seq<InvoiceLine>,
                       discount: int)
    ensures exists facts :: Announces(s, IssueTx(s, c, o, currency, lines, discount).0, o, facts)
    ensures NumbersOk(s) ==> NumbersOk(IssueTx(s, c, o, currency, lines, discount).0)
  {
    var t := IssueTx(s, c, o, currency, lines, discount).0;
    IssueOnlyGrows(s, c, o, currency, lines, discount);
    NothingAnnounced(s);
    if t != s {
      var invoice := IssuedInvoice(o, c, s.nextInvoice, currency, lines, discount);
      assert Announces(s, t, o, [InvoiceIssuedFact(invoice.reference, invoice.total)]);
    } else {
      assert Announces(s, t, o, []);
    }
  }

  lemma AcceptedAnnounces(s: BillingState, t: BillingState, c: CreditId, o: OrderId, ref: PaymentReference)
    requires c in s.credits && o in s.invoices && ref !in s.payments && t == PaidState(s, c, o, ref) && OnlyGrows(s, t)
    ensures Announces(s, t, o, PaymentFacts(s, c, o, ref)) && (NumbersOk(s) ==> NumbersOk(t))
  {
    assert PaymentFacts(s, c, o, ref)[0] == PaymentReceivedFact(ref, s.invoices[o].total);
  }

  lemma PayAnnounces(s: BillingState, seen: InvoiceSnapshot, ref: PaymentReference, paid: Money)
    ensures exists facts :: Announces(s, PayTx(s, seen, ref, paid).0, seen.order, facts)
    ensures NumbersOk(s) ==> NumbersOk(PayTx(s, seen, ref, paid).0)
  {
    var t, o := PayTx(s, seen, ref, paid).0, seen.order;
    PayOnlyGrows(s, seen, ref, paid);
    NothingAnnounced(s);
    if PayTx(s, seen, ref, paid).1 == Ok(PaymentAccepted) {
      AcceptedAnnounces(s, t, seen.credit, o, ref);
    } else {
      assert Announces(s, t, o, []);
    }
  }

  lemma StepTellsAll(r: BillingRun, op: BillingOp)
    requires TellsAll(r.state)
    ensures TellsAll(BillingStep(r, op).state)
  {
    var s, t := r.state, BillingStep(r, op).state;
    match op {
      case HoldOp(c, o, amount, decision) =>
        HoldAnnounces(s, c, o, amount, decision);
        var facts :| Announces(s, t, o, facts);
        AnnouncingKeeps(s, t, o, facts);
      case ReleaseCreditOp(c, o) =>
        ReleaseAnnounces(s, c, o);
        var facts :| Announces(s, t, o, facts);
        AnnouncingKeeps(s, t, o, facts);
      case IssueOp(c, o, currency, lines, discount) =>
        IssueAnnounces(s, c, o, currency, lines, discount);
        var facts :| Announces(s, t, o, facts);
        AnnouncingKeeps(s, t, o, facts);
      case PayReadOp(_, _) =>
      case PayCommitOp(ref, seen, paid) =>
        if (ref, seen) in r.preReads {
          PayAnnounces(s, seen, ref, paid);
          var facts :| Announces(s, t, seen.order, facts);
          AnnouncingKeeps(s, t, seen.order, facts);
        }
    }
  }

  /** Over any run of any requests: what is stored is announced, what is announced is stored, and references are
      unique. */
  lemma {:induction false} FactsTellAllOverRuns(r: BillingRun, ops: seq<BillingOp>)
    requires TellsAll(r.state)
    ensures TellsAll(RunBilling(r, ops).state)
  {
    if ops != [] {
      FactsTellAllOverRuns(r, ops[..|ops| - 1]);
      StepTellsAll(RunBilling(r, ops[..|ops| - 1]), ops[|ops| - 1]);
    }
  }
}
