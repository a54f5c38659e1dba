/** The Billing command handlers: each locks the credit line first, runs the aggregates, saves. */
module BillingHandlers {
  import opened Kernel
  import opened Ledger
  import opened BuyerCreditAggregate
  import opened InvoiceAggregate
  import opened BillingTables
  import opened BillingInvariants

  class BillingStore {
    var state: BillingState

    constructor (state: BillingState)
      ensures this.state == state
    {
      this.state := state;
    }

    /** The line's row, the scalar over the whole line, and one order's entries. */
    method LockForOrder(c: CreditId, o: OrderId) returns (line: Option<BuyerCredit>)
      requires LinesOk(state)
      ensures c !in state.credits ==> line.None?
      ensures c in state.credits ==> line.Some? && fresh(line.value) && line.value.Snapshot() == LoadedLine(state, c, o)
                                     && line.value.appended == [] && line.value.events == []
    {
      if c !in state.credits {
        return None;
      }
      LoadedLineReconstitutes(state, c, o);
      var loaded := BuyerCredit.Reconstitute(LoadedLine(state, c, o));
      return Some(loaded.value);
    }

    /** Inserts the appended entries only, and drains the facts. */
    method SaveCredit(c: CreditId, o: OrderId, line: BuyerCredit)
      modifies this
      ensures state == SavedLine(old(state), c, o, line.appended, line.events)
    {
      state := state.(ledgers := state.ledgers[c := LedgerOf(state, c) + line.appended],
                      outbox := Recorded(state.outbox, o, line.events));
    }
  }

  class CreditHoldHandler {
    const store: BillingStore

    constructor (store: BillingStore)
      ensures this.store == store
    {
      this.store := store;
    }

    /** The port answers `decision`, and only a fitting amount asks it. */
    method Hold(c: CreditId, o: OrderId, amount: Money, decision: CreditDecision)
      returns (reply: Result<BillingReply, BillingError>)
      requires ValidBilling(store.state)
      modifies store
      ensures (store.state, reply) == HoldTx(old(store.state), c, o, amount, decision)
      ensures ValidBilling(store.state)
    {
      HoldKeepsBilling(store.state, c, o, amount, decision);
      var line := store.LockForOrder(c, o);
      if line.None? {
        return Err(CreditLineNotFound);
      }
      var credit := line.value;
      var evaluation := credit.EvaluateHold(o, amount);
      if evaluation.AlreadyHeld? {
        return Ok(HoldAlreadyThere(evaluation.heldAmount));
      }
      if evaluation.HoldCurrencyMismatch? {
        return Err(CreditCurrencyMismatch(evaluation.expected));
      }
      if evaluation.Exceeds? {
        reply := Refuse(c, o, credit, amount, OverLimit);
      } else if decision.Refuse? {
        reply := Refuse(c, o, credit, amount, PortRefusal(decision.code));
      } else {
        reply := Grant(c, o, credit, amount);
      }
    }

    method Grant(c: CreditId, o: OrderId, credit: BuyerCredit, amount: Money)
      returns (reply: Result<BillingReply, BillingError>)
      requires credit.appended == [] && credit.events == [] && credit.EvaluateHold(o, amount) == Fits
      modifies store, credit
      ensures var line := old(credit.Snapshot());
              && store.state
                 == SavedLine(old(store.state), c, o, [Entry(o, amount, Ledger.Hold)], [ApprovedFact(line, o, amount)])
              && reply == Ok(HoldApproved(amount.amount, Available(line) - amount.amount))
    {
      ghost var line := credit.Snapshot();
      var approved := credit.ApproveHold(o, amount);
      assert credit.appended == [Entry(o, amount, Ledger.Hold)];
      assert credit.events == [ApprovedFact(line, o, amount)];
      store.SaveCredit(c, o, credit);
      return Ok(HoldApproved(amount.amount, credit.limit - credit.committedExposure));
    }

    method Refuse(c: CreditId, o: OrderId, credit: BuyerCredit, amount: Money, refusal: CreditRefusal)
      returns (reply: Result<BillingReply, BillingError>)
      requires credit.appended == [] && credit.events == []
      requires refusal == OverLimit ==> amount.amount > Available(credit.Snapshot())
      modifies store, credit`events
      ensures (store.state, reply)
              == RefusedHold(old(store.state), c, o, amount, Available(old(credit.Snapshot())), refusal)
    {
      var refused := credit.RefuseHold(amount, refusal);
      assert credit.events == [CreditRejectedFact(amount.amount, Available(old(credit.Snapshot())), refusal)];
      store.SaveCredit(c, o, credit);
      return Ok(HoldRejected(credit.limit - credit.committedExposure, refusal));
    }
  }

  class CreditReleaseHandler {
    const store: BillingStore

    constructor (store: BillingStore)
      ensures this.store == store
    {
      this.store := store;
    }

    /** Nothing outstanding is a success that saves nothing. */
    method Release(c: CreditId, o: OrderId) returns (reply: Result<BillingReply, BillingError>)
      requires ValidBilling(store.state)
      modifies store
      ensures (store.state, reply) == ReleaseCreditTx(old(store.state), c, o)
      ensures ValidBilling(store.state)
    {
      ReleaseKeepsBilling(store.state, c, o);
      ghost var before := store.state;
      var line := store.LockForOrder(c, o);
      if line.None? {
        return Err(CreditLineNotFound);
      }
      var entry := line.value.ReleaseHold(o, ForOrderCancelled, ByRequest);
      if entry.Err? {
        return Err(CreditRefused(entry.error));
      }
      if entry.value.None? {
        return Ok(NothingReleased);
      }
      assert line.value.appended == [ReleaseEntry(LoadedLine(before, c, o), o)];
      assert line.value.events == [ReleasedFact(LoadedLine(before, c, o), o, ForOrderCancelled, ByRequest)];
      store.SaveCredit(c, o, line.value);
      return Ok(CreditReleasedNow(entry.value.value.amount.amount));
    }
  }

  class InvoiceIssueHandler {
    const store: BillingStore

    constructor (store: BillingStore)
      ensures this.store == store
    {
      this.store := store;
    }

    /** The unlocked pre-read: a repeat opens no transaction. */
    method FindExisting(o: OrderId) returns (reply: Option<BillingReply>)
      ensures reply == if o in store.state.invoices then Some(InvoiceOf(store.state.invoices[o], false)) else None
    {
      if o in store.state.invoices {
        return Some(InvoiceOf(store.state.invoices[o], false));
      }
      return None;
    }

    /** A repeat is answered by the pre-read; otherwise the transaction decides, whatever has happened in between. */
    method Issue(c: CreditId, o: OrderId, currency: CurrencyCode, lines: seq<InvoiceLine>, discount: int)
      returns (reply: Result<BillingReply, BillingError>)
      requires ValidBilling(store.state)
      modifies store
      ensures o in old(store.state).invoices ==>
                store.state == old(store.state) && reply == Ok(InvoiceOf(store.state.invoices[o], false))
      ensures o !in old(store.state).invoices ==>
              (store.state, reply) == IssueTx(old(store.state), c, o, currency, lines, discount)
      ensures ValidBilling(store.state)
      ensures reply.Ok? ==> o in store.state.invoices
                            && reply == Ok(InvoiceOf(store.state.invoices[o], o !in old(store.state).invoices))
    {
      var existing := FindExisting(o);
      if existing.Some? {
        return Ok(existing.value);
      }
      reply := IssueInTransaction(c, o, currency, lines, discount);
    }

    method IssueInTransaction(c: CreditId, o: OrderId, currency: CurrencyCode, lines: seq<InvoiceLine>, discount: int)
      returns (reply: Result<BillingReply, BillingError>)
      requires ValidBilling(store.state)
      modifies store
      ensures (store.state, reply) == IssueTx(old(store.state), c, o, currency, lines, discount)
      ensures ValidBilling(store.state)
    {
      IssueKeepsBilling(store.state, c, o, currency, lines, discount);
      ghost var before := store.state;
      var line := store.LockForOrder(c, o);
      if line.None? {
        return Err(CreditLineNotFound);
      }
      var credit := line.value;
      if o in store.state.invoices {
        return Ok(InvoiceOf(store.state.invoices[o], false));
      }
      if currency != credit.currency {
        return Err(InvoiceCurrencyMismatch(credit.currency));
      }
      var row := credit.SummaryRow(o);
      if row.activeHold <= 0 {
        return Err(NoActiveCreditHold);
      }
      reply := IssueAndConsume(c, o, credit, lines, discount);
    }

    method IssueAndConsume(c: CreditId, o: OrderId, credit: BuyerCredit, lines: seq<InvoiceLine>, discount: int)
      returns (reply: Result<BillingReply, BillingError>)
      requires c in store.state.credits && credit.Snapshot() == LoadedLine(store.state, c, o)
      requires credit.appended == [] && credit.events == [] && ActiveHoldOf(credit.Snapshot().entries, o) > 0
      modifies store, credit
      ensures match IssueRefusal(lines, discount)
              case Some(error) => store.state == old(store.state) && reply == Err(InvoiceRefused(error))
              case None =>
                var invoice := IssuedInvoice(o, c, old(store.state).nextInvoice, credit.currency, lines, discount);
                store.state == InvoicedState(old(store.state), c, o, invoice) && reply == Ok(InvoiceOf(invoice, true))
    {
      ghost var before := credit.Snapshot();
      var reference := store.state.nextInvoice;
      var issued :=
        Invoice.Issue(o, c, reference, credit.currency, PricedIn(lines, credit.currency),
                      Money(discount, credit.currency));
      if issued.Err? {
        return Err(InvoiceRefused(issued.error));
      }
      var invoice := issued.value;
      var consumed := credit.ConsumeHold(o);
      assert credit.appended == [ConsumeEntry(before, o)];
      SaveIssued(c, o, credit, invoice);
      return Ok(InvoiceOf(invoice.Snapshot(), true));
    }

    /** The invoice first, then the credit line. */
    method SaveIssued(c: CreditId, o: OrderId, credit: BuyerCredit, invoice: Invoice)
      requires credit.events == []
      modifies store
      ensures store.state == SavedLine(old(store.state), c, o, credit.appended, invoice.events)
                             .(invoices := old(store.state).invoices[o := invoice.Snapshot()],
                               nextInvoice := old(store.state).nextInvoice + 1)
    {
      var s := store.state;
      store.state := s.(invoices := s.invoices[o := invoice.Snapshot()], nextInvoice := s.nextInvoice + 1,
                        outbox := Recorded(s.outbox, o, invoice.events));
      store.SaveCredit(c, o, credit);
    }
  }

  class PaymentRegisterHandler {
    const store: BillingStore

    constructor (store: BillingStore)
      ensures this.store == store
    {
      this.store := store;
    }

    /** Two unlocked reads: a known reference is answered at once, otherwise the invoice is resolved. */
    method ReadUnlocked(ref: PaymentReference, o: OrderId) returns (r: FastPath)
      ensures r == PayFastPath(store.state, ref, o)
      ensures ValidBilling(store.state) ==>
                && (r.AnswerDuplicate? <==> PaidBy(store.state, o, ref))
                && (r.RefuseConflict? <==> exists other :: other != o && PaidBy(store.state, other, ref))
                && (r.Proceed? <==> ref !in store.state.payments && o in store.state.invoices)
                && (r.Proceed? ==> r.seen.order == o && StillNames(store.state, r.seen))
    {
      var s := store.state;
      if ref in s.payments {
        var payment := s.payments[ref];
        if payment.order !in s.invoices {
          return RefuseNotFound;
        }
        return if payment.order == o then AnswerDuplicate else RefuseConflict;
      }
      if o !in s.invoices {
        return RefuseNotFound;
      }
      return Proceed(s.invoices[o]);
    }

    /** Credit line first, invoice second, the authority re-read, then pay, release and save in that order. */
    method RegisterInTransaction(seen: InvoiceSnapshot, ref: PaymentReference, paid: Money)
      returns (reply: Result<BillingReply, BillingError>)
      requires ValidBilling(store.state) && StillNames(store.state, seen)
      modifies store
      ensures (store.state, reply) == PayTx(old(store.state), seen, ref, paid)
      ensures ValidBilling(store.state)
    {
      PayKeepsBilling(store.state, seen, ref, paid);
      var c, o := seen.credit, seen.order;
      var line := store.LockForOrder(c, o);
      if line.None? {
        return Err(CreditLineNotFound);
      }
      assert InvoiceOk(store.state, o);
      var loaded := Invoice.Reconstitute(RowOf(store.state.invoices[o]));
      var invoice := loaded.value;
      if invoice.state.Settled? {
        if ref in store.state.payments && store.state.payments[ref].order == o {
          return Ok(PaymentDuplicate);
        }
      }
      reply := PayAndRelease(c, o, ref, paid, line.value, invoice);
    }

    method PayAndRelease(c: CreditId, o: OrderId, ref: PaymentReference, paid: Money, credit: BuyerCredit,
                         invoice: Invoice)
      returns (reply: Result<BillingReply, BillingError>)
      requires c in store.state.credits && credit.Snapshot() == LoadedLine(store.state, c, o)
      requires credit.appended == [] && credit.events == []
      requires o in store.state.invoices && invoice.Snapshot() == store.state.invoices[o] && invoice.events == []
      modifies store, credit, invoice
      ensures match PaymentRefusal(old(invoice.Snapshot()), paid)
              case Some(error) => store.state == old(store.state) && reply == Err(InvoiceRefused(error))
              case None =>
                var outstanding := ExposureOf(LoadedLine(old(store.state), c, o).entries, o);
                if outstanding < 0 then store.state == old(store.state)
                  && reply == Err(CreditRefused(ReleaseUnderflow(outstanding)))
                else if ref in old(store.state).payments then store.state == old(store.state)
                  && reply == Err(PaymentReferenceConflict)
                else store.state == PaidState(old(store.state), c, o, ref) && reply == Ok(PaymentAccepted)
    {
      ghost var s, line := store.state, credit.Snapshot();
      var marked := invoice.MarkPaid(ref, paid);
      if marked.Err? {
        return Err(InvoiceRefused(marked.error));
      }
      var paymentEvent := |StreamOf(store.state.outbox, o)|;
      var released := credit.ReleaseHold(o, ForInvoicePaid, ByPaymentEvent(paymentEvent));
      if released.Err? {
        return Err(CreditRefused(released.error));
      }
      assert credit.appended == if ExposureOf(line.entries, o) == 0 then [] else [ReleaseEntry(line, o)];
      assert invoice.events + credit.events == PaymentFacts(s, c, o, ref);
      reply := SavePaid(c, o, ref, paid.amount, credit, invoice);
    }

    /** The unique reference is the last guard; a violation rolls everything back. */
    method SavePaid(c: CreditId, o: OrderId, ref: PaymentReference, amount: int, credit: BuyerCredit, invoice: Invoice)
      returns (reply: Result<BillingReply, BillingError>)
      modifies store
      ensures ref in old(store.state).payments ==>
              store.state == old(store.state) && reply == Err(PaymentReferenceConflict)
      ensures ref !in old(store.state).payments ==>
                && reply == Ok(PaymentAccepted)
                && store.state == SavedLine(old(store.state), c, o, credit.appended, invoice.events + credit.events)
                                  .(invoices := old(store.state).invoices[o := invoice.Snapshot()],
                                    payments := old(store.state).payments[ref := PaymentRow(o, amount)])
    {
      var s := store.state;
      if ref in s.payments {
        return Err(PaymentReferenceConflict);
      }
      store.state :=
        s.(invoices := s.invoices[o := invoice.Snapshot()], payments := s.payments[ref := PaymentRow(o, amount)],
                        outbox := Recorded(s.outbox, o, invoice.events));
      RecordedTwice(s.outbox, o, invoice.events, credit.events);
      store.SaveCredit(c, o, credit);
      return Ok(PaymentAccepted);
    }
  }

  /** Two drains in one transaction are one drain of both lists. */
  lemma RecordedTwice(outbox: Outbox, o: OrderId, first: seq<Fact>, second: seq<Fact>)
    ensures Recorded(Recorded(outbox, o, first), o, second) == Recorded(outbox, o, first + second)
  {
    if first == [] {
      assert first + second == second;
    } else if second == [] {
      assert first + second == first;
    } else {
      assert StreamOf(outbox, o) + (first + second) == (StreamOf(outbox, o) + first) + second;
    }
  }
}
