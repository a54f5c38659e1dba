/** What every run of Billing keeps, for any number of credit lines, orders and interleaved payments. */
module BillingInvariants {
  import opened Kernel
  import opened Ledger
  import opened BuyerCreditAggregate
  import opened InvoiceAggregate
  import opened BillingTables

  // ---- Reachable ledger shapes ----

  /** A prefix of hold, release or of hold, consume, release; one amount throughout; nothing follows a hold of zero. */
  predicate LedgerShape(es: seq<Entry>) {
    && |es| <= 3
    && (|es| >= 1 ==> es[0].kind == Hold)
    && (forall i :: 0 <= i < |es| ==> es[i].amount == es[0].amount)
    && (|es| >= 2 ==> es[0].amount.amount > 0 && es[1].kind != Hold)
    && (|es| == 3 ==> es[1].kind == Consume && es[2].kind == Release)
  }

  predicate IsConsumed(es: seq<Entry>) {
    |es| >= 2 && es[1].kind == Consume
  }

  predicate IsReleased(es: seq<Entry>) {
    |es| >= 2 && es[|es| - 1].kind == Release
  }

  /** The three numbers that decide every operation, read off the shape. */
  lemma ShapeDecides(es: seq<Entry>, o: OrderId)
    requires LedgerShape(es) && forall i :: 0 <= i < |es| ==> es[i].order == o
    ensures ExposureOf(es, o) == if es == [] || IsReleased(es) then 0 else es[0].amount.amount
    ensures ActiveHoldOf(es, o) == if |es| == 1 && es[0].amount.amount > 0 then es[0].amount.amount else 0
    ensures FirstHold(es, o) == if es == [] then None else Some(es[0])
  {
    if |es| >= 1 {
      FirstEntrySums(es[..1], o);
      assert es[..1][0] == es[0];
    }
    if |es| >= 2 {
      assert es[..2][..1] == es[..1];
      assert es[..2][1] == es[1];
    }
    if |es| == 3 {
      assert es[..|es| - 1] == es[..2];
    }
    assert es[..|es|] == es;
  }

  lemma FirstEntrySums(es: seq<Entry>, o: OrderId)
    requires |es| == 1 && es[0].order == o
    ensures forall kind :: SumFor(es, o, kind) == AmountIf(es[0], kind)
    ensures FirstHold(es, o) == if es[0].kind == Hold then Some(es[0]) else None
  {
    assert es[..0] == [];
  }

  // ---- The invariant ----

  function OrderEntries(s: BillingState, c: CreditId, o: OrderId): seq<Entry> {
    EntriesFor(LedgerOf(s, c), o)
  }

  /** B1, B3 and the shape of every order's entries. */
  ghost predicate LinesOk(s: BillingState) {
    && (forall c :: c in s.credits ==> 0 <= s.credits[c].limit && CommittedOf(LedgerOf(s, c)) <= s.credits[c].limit)
    && (forall c, i :: c in s.credits && 0 <= i < |LedgerOf(s, c)| ==>
        LedgerOf(s, c)[i].amount.currency == s.credits[c].currency)
    && (forall c, o :: LedgerShape(OrderEntries(s, c, o)))
  }

  /** An invoice stands for exactly one consumed hold, and a settled one has released it. */
  ghost predicate InvoicesOk(s: BillingState) {
    && (forall o :: o in s.invoices ==> InvoiceOk(s, o))
    && (forall c, o :: IsConsumed(OrderEntries(s, c, o)) ==> o in s.invoices && s.invoices[o].credit == c)
  }

  ghost predicate InvoiceOk(s: BillingState, o: OrderId)
    requires o in s.invoices
  {
    var invoice := s.invoices[o];
    && invoice.order == o && invoice.credit in s.credits && invoice.currency == s.credits[invoice.credit].currency
    && Reconciles(invoice)
    && IsConsumed(OrderEntries(s, invoice.credit, o))
    && (invoice.state.Settled? ==> IsReleased(OrderEntries(s, invoice.credit, o)))
  }

  /** Settled invoices and payments correspond one to one. */
  ghost predicate PaymentsOk(s: BillingState) {
    && (forall ref :: ref in s.payments ==>
                        && s.payments[ref].order in s.invoices
                        && s.invoices[s.payments[ref].order].state.Settled?
                        && s.payments[ref].amount == s.invoices[s.payments[ref].order].total)
    && (forall o :: o in s.invoices && s.invoices[o].state.Settled? ==> exists ref :: PaidBy(s, o, ref))
    && (forall ref, other ::
          ref in s.payments && other in s.payments && s.payments[ref].order == s.payments[other].order ==> ref == other)
  }

  ghost predicate ValidBilling(s: BillingState) {
    LinesOk(s) && InvoicesOk(s) && PaymentsOk(s)
  }

  /** A stored line never fails to load. */
  lemma LoadedLineReconstitutes(s: BillingState, c: CreditId, o: OrderId)
    requires LinesOk(s) && c in s.credits
    ensures var line := LoadedLine(s, c, o);
            && line.limit >= 0 && line.committed <= line.limit
            && (forall i :: 0 <= i < |line.entries| ==>
                line.entries[i].amount.currency == line.currency && line.entries[i].order == o)
            && LedgerShape(line.entries)
  {
    OrderEntriesSuffice(LedgerOf(s, c), o);
    OwnEntriesAreEntries(LedgerOf(s, c), o);
    var line := LoadedLine(s, c, o);
    assert line.entries == OrderEntries(s, c, o);
    forall i | 0 <= i < |line.entries| ensures line.entries[i].amount.currency == line.currency {
      assert line.entries[i] in LedgerOf(s, c);
    }
  }

  lemma {:induction false} OwnEntriesAreEntries(entries: seq<Entry>, o: OrderId)
    ensures forall e :: e in EntriesFor(entries, o) ==> e in entries
  {
    if entries != [] {
      OwnEntriesAreEntries(entries[..|entries| - 1], o);
    }
  }

  // ---- One appended entry ----

  /** The entries of every other order, and of every other line, are as before. */
  ghost predicate OthersSame(s: BillingState, t: BillingState, c: CreditId, o: OrderId) {
    forall d: CreditId, other: OrderId :: d != c || other != o ==>
      OrderEntries(t, d, other) == OrderEntries(s, d, other)
  }

  lemma AppendedEntry(s: BillingState, c: CreditId, o: OrderId, e: Entry, facts: seq<Fact>)
    requires e.order == o
    ensures var t := SavedLine(s, c, o, [e], facts);
            && LedgerOf(t, c) == LedgerOf(s, c) + [e]
            && OrderEntries(t, c, o) == OrderEntries(s, c, o) + [e]
            && CommittedOf(LedgerOf(t, c)) == CommittedOf(LedgerOf(s, c)) + Signed(e)
            && (forall other :: other != c ==> LedgerOf(t, other) == LedgerOf(s, other))
            && OthersSame(s, t, c, o)
  {
    AppendCommutes(LedgerOf(s, c), e);
    var t := SavedLine(s, c, o, [e], facts);
    forall d: CreditId, other: OrderId | d != c
      || other != o ensures OrderEntries(t, d, other) == OrderEntries(s, d, other) {
      if d == c {
        EntriesForSnoc(LedgerOf(s, c), e, other);
      }
    }
  }

  /** One entry keeps every line in order when it fits the limit, has the line's currency and extends the shape. */
  lemma AppendKeepsLines(s: BillingState, c: CreditId, o: OrderId, e: Entry, facts: seq<Fact>)
    requires LinesOk(s) && c in s.credits && e.order == o && e.amount.currency == s.credits[c].currency
    requires CommittedOf(LedgerOf(s, c)) + Signed(e) <= s.credits[c].limit
    requires LedgerShape(OrderEntries(s, c, o) + [e])
    ensures LinesOk(SavedLine(s, c, o, [e], facts))
  {
    AppendedEntry(s, c, o, e, facts);
    var t := SavedLine(s, c, o, [e], facts);
    forall d, i | d in t.credits
      && 0 <= i < |LedgerOf(t, d)| ensures LedgerOf(t, d)[i].amount.currency == t.credits[d].currency {
      if d != c { assert LedgerOf(t, d) == LedgerOf(s, d); }
    }
    forall d | d in t.credits ensures CommittedOf(LedgerOf(t, d)) <= t.credits[d].limit {
      if d != c { assert LedgerOf(t, d) == LedgerOf(s, d); }
    }
  }

  // ---- Each transaction keeps the invariant ----

  lemma HoldKeepsBilling(s: BillingState, c: CreditId, o: OrderId, amount: Money, decision: CreditDecision)
    requires ValidBilling(s)
    ensures ValidBilling(HoldTx(s, c, o, amount, decision).0)
  {
    if c in s.credits {
      match Evaluate(LoadedLine(s, c, o), o, amount)
      case AlreadyHeld(_) =>
      case HoldCurrencyMismatch(_) =>
      case Exceeds(available) => RefusedHoldKeepsBilling(s, c, o, amount, available, OverLimit);
      case Fits =>
        match decision
        case Refuse(code) =>
          RefusedHoldKeepsBilling(s, c, o, amount, Available(LoadedLine(s, c, o)), PortRefusal(code));
        case Approve => AcceptedHold(s, c, o, amount, [ApprovedFact(LoadedLine(s, c, o), o, amount)]);
    }
  }

  lemma RefusedHoldKeepsBilling(s: BillingState, c: CreditId, o: OrderId, amount: Money, available: int,
                                refusal: CreditRefusal)
    requires ValidBilling(s)
    ensures ValidBilling(RefusedHold(s, c, o, amount, available, refusal).0)
  {
    NoNewEntries(s, RefusedHold(s, c, o, amount, available, refusal).0);
  }

  lemma AcceptedHold(s: BillingState, c: CreditId, o: OrderId, amount: Money, facts: seq<Fact>)
    requires ValidBilling(s) && c in s.credits && Evaluate(LoadedLine(s, c, o), o, amount) == Fits
    ensures ValidBilling(SavedLine(s, c, o, [Entry(o, amount, Hold)], facts))
    ensures OrderEntries(s, c, o) == []
  {
    var e := Entry(o, amount, Hold);
    LoadedLineReconstitutes(s, c, o);
    ShapeDecides(LoadedLine(s, c, o).entries, o);
    AppendKeepsLines(s, c, o, e, facts);
    AppendedEntry(s, c, o, e, facts);
    InvoicesFollowEntries(s, SavedLine(s, c, o, [e], facts), c, o);
  }

  /** At most an empty insert into some ledger and a fact: nothing the invariant speaks about. */
  lemma NoNewEntries(s: BillingState, t: BillingState)
    requires ValidBilling(s) && forall d :: LedgerOf(t, d) == LedgerOf(s, d)
    requires t.credits == s.credits && t.invoices == s.invoices && t.payments == s.payments
    ensures ValidBilling(t)
  {
    assert forall d, other :: OrderEntries(t, d, other) == OrderEntries(s, d, other);
    InvoicesFollowEntries(s, t, 0, 0);
  }

  /** Invoices and payments are as before, and so is what they need of the entries. */
  lemma InvoicesFollowEntries(s: BillingState, t: BillingState, c: CreditId, o: OrderId)
    requires InvoicesOk(s) && PaymentsOk(s)
    requires t.invoices == s.invoices && t.payments == s.payments && t.credits == s.credits
    requires OthersSame(s, t, c, o)
    requires IsConsumed(OrderEntries(t, c, o)) <==> IsConsumed(OrderEntries(s, c, o))
    requires IsReleased(OrderEntries(s, c, o)) ==> IsReleased(OrderEntries(t, c, o))
    ensures InvoicesOk(t) && PaymentsOk(t)
  {
    forall other | other in t.invoices ensures InvoiceOk(t, other) {
      assert InvoiceOk(s, other);
    }
    forall other | other in t.invoices && t.invoices[other].state.Settled? ensures exists ref :: PaidBy(t, other, ref) {
      var ref :| PaidBy(s, other, ref);
      assert PaidBy(t, other, ref);
    }
  }

  /** The entry a release appends, when anything is outstanding. */
  lemma ReleaseEntryFits(s: BillingState, c: CreditId, o: OrderId)
    requires LinesOk(s) && c in s.credits && ExposureOf(LoadedLine(s, c, o).entries, o) > 0
    ensures var line := LoadedLine(s, c, o);
            var e := ReleaseEntry(line, o);
            && LedgerShape(line.entries + [e]) && e.amount.currency == s.credits[c].currency
            && CommittedOf(LedgerOf(s, c)) + Signed(e) <= s.credits[c].limit
            && !IsReleased(line.entries) && line.entries != []
            && IsReleased(line.entries + [e]) && (IsConsumed(line.entries + [e]) <==> IsConsumed(line.entries))
  {
    LoadedLineReconstitutes(s, c, o);
    ShapeDecides(LoadedLine(s, c, o).entries, o);
  }

  lemma ReleaseKeepsBilling(s: BillingState, c: CreditId, o: OrderId)
    requires ValidBilling(s)
    ensures ValidBilling(ReleaseCreditTx(s, c, o).0)
  {
    if c in s.credits && ExposureOf(LoadedLine(s, c, o).entries, o) > 0 {
      var line := LoadedLine(s, c, o);
      var e, fact := ReleaseEntry(line, o), ReleasedFact(line, o, ForOrderCancelled, ByRequest);
      ReleaseEntryFits(s, c, o);
      AppendKeepsLines(s, c, o, e, [fact]);
      AppendedEntry(s, c, o, e, [fact]);
      InvoicesFollowEntries(s, ReleaseCreditTx(s, c, o).0, c, o);
    }
  }

  lemma IssueKeepsBilling(s: BillingState, c: CreditId, o: OrderId, currency: CurrencyCode, lines: seq<InvoiceLine>,
                          discount: int)
    requires ValidBilling(s)
    ensures ValidBilling(IssueTx(s, c, o, currency, lines, discount).0)
  {
    var (t, reply) := IssueTx(s, c, o, currency, lines, discount);
    if reply.Ok? && reply.value.InvoiceOf? && reply.value.created {
      var line := LoadedLine(s, c, o);
      var e, facts := ConsumeEntry(line, o), [InvoiceIssuedFact(t.invoices[o].reference, t.invoices[o].total)];
      LoadedLineReconstitutes(s, c, o);
      ShapeDecides(line.entries, o);
      AppendKeepsLines(s, c, o, e, facts);
      AppendedEntry(s, c, o, e, facts);
      SameLedgers(SavedLine(s, c, o, [e], facts), t);
      NewInvoice(s, t, c, o);
    }
  }

  lemma SameLedgers(s: BillingState, t: BillingState)
    requires t.ledgers == s.ledgers && t.credits == s.credits
    ensures forall c :: LedgerOf(t, c) == LedgerOf(s, c)
    ensures forall c, o :: OrderEntries(t, c, o) == OrderEntries(s, c, o)
    ensures LinesOk(s) ==> LinesOk(t)
  {
    assert forall c :: LedgerOf(t, c) == LedgerOf(s, c);
  }

  lemma NewInvoice(s: BillingState, t: BillingState, c: CreditId, o: OrderId)
    requires InvoicesOk(s) && PaymentsOk(s) && o !in s.invoices && o in t.invoices
    requires t.credits == s.credits && t.payments == s.payments && t.invoices == s.invoices[o := t.invoices[o]]
    requires t.invoices[o].order == o && t.invoices[o].credit == c && c in s.credits
             && t.invoices[o].currency == s.credits[c].currency
    requires Reconciles(t.invoices[o]) && t.invoices[o].state.Open?
    requires IsConsumed(OrderEntries(t, c, o))
    requires OthersSame(s, t, c, o)
    ensures InvoicesOk(t) && PaymentsOk(t)
  {
    forall other | other in t.invoices ensures InvoiceOk(t, other) {
      if other != o { assert InvoiceOk(s, other); }
    }
    UnpaidInvoice(s, t, o);
    forall d: CreditId, other: OrderId | IsConsumed(OrderEntries(t, d, other)) ensures other in t.invoices
      && t.invoices[other].credit == d {
      if d != c || other != o { assert IsConsumed(OrderEntries(s, d, other)); }
    }
  }

  lemma UnpaidInvoice(s: BillingState, t: BillingState, o: OrderId)
    requires PaymentsOk(s) && o !in s.invoices && o in t.invoices && t.invoices[o].state.Open?
    requires t.payments == s.payments && t.invoices == s.invoices[o := t.invoices[o]]
    ensures PaymentsOk(t)
  {
    forall other | other in t.invoices && t.invoices[other].state.Settled? ensures exists ref :: PaidBy(t, other, ref) {
      var ref :| PaidBy(s, other, ref);
      assert PaidBy(t, other, ref);
    }
  }

  // ---- Payments ----

  /** What the unlocked reads saw stays true of an invoice: everything but its state. */
  ghost predicate StillNames(s: BillingState, seen: InvoiceSnapshot) {
    seen.order in s.invoices && seen == s.invoices[seen.order].(state := seen.state)
  }

  lemma PayKeepsBilling(s: BillingState, seen: InvoiceSnapshot, ref: PaymentReference, amount: Money)
    requires ValidBilling(s) && StillNames(s, seen)
    ensures ValidBilling(PayTx(s, seen, ref, amount).0)
  {
    if PayTx(s, seen, ref, amount).1 == Ok(PaymentAccepted) {
      AcceptedPayment(s, seen.credit, seen.order, ref);
    }
  }

  lemma AcceptedPayment(s: BillingState, c: CreditId, o: OrderId, ref: PaymentReference)
    requires ValidBilling(s) && o in s.invoices && c == s.invoices[o].credit && c in s.credits
    requires s.invoices[o].state.Open? && ref !in s.payments && ExposureOf(LoadedLine(s, c, o).entries, o) >= 0
    ensures ValidBilling(PaidState(s, c, o, ref))
  {
    assert InvoiceOk(s, o);
    AcceptedPaymentEntries(s, c, o, ref);
    NewPayment(s, PaidState(s, c, o, ref), c, o, ref);
  }

  lemma AcceptedPaymentEntries(s: BillingState, c: CreditId, o: OrderId, ref: PaymentReference)
    requires LinesOk(s) && c in s.credits && o in s.invoices
    requires IsConsumed(OrderEntries(s, c, o)) && ExposureOf(LoadedLine(s, c, o).entries, o) >= 0
    ensures var t := PaidState(s, c, o, ref);
            && LinesOk(t) && OthersSame(s, t, c, o)
            && IsConsumed(OrderEntries(t, c, o)) && IsReleased(OrderEntries(t, c, o))
  {
    var line, facts, t := LoadedLine(s, c, o), PaymentFacts(s, c, o, ref), PaidState(s, c, o, ref);
    LoadedLineReconstitutes(s, c, o);
    ShapeDecides(line.entries, o);
    if ExposureOf(line.entries, o) == 0 {
      assert LedgerOf(s, c) + [] == LedgerOf(s, c);
      SameOrNoEntries(s, t, c);
    } else {
      var e := ReleaseEntry(line, o);
      ReleaseEntryFits(s, c, o);
      AppendKeepsLines(s, c, o, e, facts);
      AppendedEntry(s, c, o, e, facts);
      SameLedgers(SavedLine(s, c, o, [e], facts), t);
    }
  }

  lemma SameOrNoEntries(s: BillingState, t: BillingState, c: CreditId)
    requires LinesOk(s) && t.ledgers == s.ledgers[c := LedgerOf(s, c)] && t.credits == s.credits
    ensures LinesOk(t) && forall d, o :: OrderEntries(t, d, o) == OrderEntries(s, d, o)
  {
    assert forall d :: LedgerOf(t, d) == LedgerOf(s, d);
    assert forall d, o :: OrderEntries(t, d, o) == OrderEntries(s, d, o);
  }

  lemma NewPayment(s: BillingState, t: BillingState, c: CreditId, o: OrderId, ref: PaymentReference)
    requires InvoicesOk(s) && PaymentsOk(s) && o in s.invoices && s.invoices[o].credit == c && s.invoices[o].state.Open?
    requires t.credits == s.credits && ref !in s.payments
    requires t.invoices == s.invoices[o := s.invoices[o].(state := Settled)]
    requires t.payments == s.payments[ref := PaymentRow(o, s.invoices[o].total)]
    requires OthersSame(s, t, c, o)
    requires IsConsumed(OrderEntries(t, c, o)) && IsReleased(OrderEntries(t, c, o))
    ensures InvoicesOk(t) && PaymentsOk(t)
  {
    forall other | other in t.invoices ensures InvoiceOk(t, other) {
      assert InvoiceOk(s, other);
    }
    forall d: CreditId, other: OrderId | IsConsumed(OrderEntries(t, d, other)) ensures other in t.invoices
      && t.invoices[other].credit == d {
      if d != c || other != o { assert IsConsumed(OrderEntries(s, d, other)); }
    }
    NewPaymentRow(s, t, o, ref);
  }

  lemma NewPaymentRow(s: BillingState, t: BillingState, o: OrderId, ref: PaymentReference)
    requires PaymentsOk(s) && o in s.invoices && s.invoices[o].state.Open? && ref !in s.payments
    requires t.invoices == s.invoices[o := s.invoices[o].(state := Settled)]
    requires t.payments == s.payments[ref := PaymentRow(o, s.invoices[o].total)]
    ensures PaymentsOk(t)
  {
    forall other | other in t.invoices && t.invoices[other].state.Settled? ensures exists r :: PaidBy(t, other, r) {
      if other == o {
        assert PaidBy(t, o, ref);
      } else {
        var r :| PaidBy(s, other, r);
        assert PaidBy(t, other, r);
      }
    }
  }
}
