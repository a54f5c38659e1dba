/** What an at-least-once stream of facts does to the orders store. */
module Redelivery {
  import opened Kernel
  import opened OrderAggregate
  import opened SagaSteps
  import opened OrdersService

  function DeliverAll(s: OrdersState, es: seq<Envelope>): OrdersState {
    if es == [] then s else HandleFact(DeliverAll(s, es[..|es| - 1]), es[|es| - 1]).0
  }

  function IdsOf(es: seq<Envelope>): set<EventId> {
    set e | e in es :: e.eventId
  }

  /** The sequence without any envelope whose event id occurred before. */
  function Deduplicated(es: seq<Envelope>): seq<Envelope> {
    if es == [] then []
    else
      var init, last := es[..|es| - 1], es[|es| - 1];
      Deduplicated(init) + if last.eventId in IdsOf(init) then [] else [last]
  }

  /** The guard of the one branch that throws: the release of a payment, first delivered while its order is not yet
      despatched, maps to no reason to cancel. */
  predicate FailsOn(s: OrdersState, e: Envelope) {
    && e.eventId !in s.processed && e.correlationId in s.orders
    && e.fact.CreditReleasedFact? && e.fact.creditReason == ForInvoicePaid
    && s.orders[e.correlationId].status in {CreditApproved, Confirmed}
  }

  /** A row of the step table applied to its own fact: only that release fails, the order stays well formed, and the
      payload of the command it owes can be built. */
  lemma TableRowApplies(order: OrderSnapshot, e: Envelope, step: SagaStep)
    requires ValidSnapshot(order) && ActionOn(e.fact, order.status) == Some(step) && !step.Skip?
    ensures var change := StepChange(step, order, e);
            && (change.Err? <==> e.fact.CreditReleasedFact? && e.fact.creditReason == ForInvoicePaid
                                 && order.status in {CreditApproved, Confirmed})
            && (change.Ok? ==> ValidSnapshot(change.value.order))
            && (change.Ok? && step.AdvanceStep? && step.commandAfter.Some? ==>
                  BuildSagaCommandPayload(step.commandAfter.value, change.value.order, e.fact).Ok?)
  {
  }

  /** No other delivery fails, whatever the fact, the status and the command table. */
  lemma FailsExactlyOn(s: OrdersState, e: Envelope)
    requires ValidStore(s)
    ensures HandleFact(s, e).1.Failed? <==> FailsOn(s, e)
  {
    if e.correlationId in s.orders {
      var order := s.orders[e.correlationId];
      StepForStatusIsActionOn(e.fact, order.status);
      var step := StepForStatus(e.fact, order.status);
      if step.Some? {
        TableRowApplies(order, e, step.value);
      }
      FailingFactsNeedWork(e.fact, order.status);
    }
  }

  lemma FailingFactsNeedWork(fact: Fact, status: OrderStatus)
    ensures fact.CreditReleasedFact? ==> !NeedsNoWork(fact)
    ensures fact.CreditReleasedFact? && status in {CreditApproved, Confirmed} ==> ActionOn(fact, status).Some?
  {
    if fact.CreditReleasedFact? {
      assert !StepVariantsFor(fact)[0].Skip?;
    }
  }

  lemma HandlingKeepsStore(s: OrdersState, e: Envelope)
    requires ValidStore(s)
    ensures ValidStore(HandleFact(s, e).0)
  {
    if e.correlationId in s.orders {
      var order := s.orders[e.correlationId];
      StepForStatusIsActionOn(e.fact, order.status);
      var step := StepForStatus(e.fact, order.status);
      if step.Some? {
        TableRowApplies(order, e, step.value);
      }
    }
  }

  lemma {:induction false} DeliveriesKeepStore(s: OrdersState, es: seq<Envelope>)
    requires ValidStore(s)
    ensures ValidStore(DeliverAll(s, es))
  {
    if es != [] {
      DeliveriesKeepStore(s, es[..|es| - 1]);
      HandlingKeepsStore(DeliverAll(s, es[..|es| - 1]), es[|es| - 1]);
    }
  }

  /** No delivery of the sequence meets that guard. */
  predicate NeverFails(s: OrdersState, es: seq<Envelope>) {
    forall i :: 0 <= i < |es| ==> !FailsOn(DeliverAll(s, es[..i]), es[i])
  }

  lemma NeverFailsBefore(s: OrdersState, es: seq<Envelope>)
    requires es != [] && NeverFails(s, es)
    ensures NeverFails(s, es[..|es| - 1]) && !FailsOn(DeliverAll(s, es[..|es| - 1]), es[|es| - 1])
  {
    var init := es[..|es| - 1];
    forall i | 0 <= i < |init| ensures !FailsOn(DeliverAll(s, init[..i]), init[i]) {
      assert init[..i] == es[..i] && init[i] == es[i];
    }
  }

  lemma {:induction false} HandledFactsAreProcessed(s: OrdersState, es: seq<Envelope>)
    requires ValidStore(s) && NeverFails(s, es)
    ensures forall e :: e in es && !NeedsNoWork(e.fact) ==> e.eventId in DeliverAll(s, es).processed
  {
    if es != [] {
      var init, last := es[..|es| - 1], es[|es| - 1];
      NeverFailsBefore(s, es);
      DeliveriesKeepStore(s, init);
      FailsExactlyOn(DeliverAll(s, init), last);
      HandledFactsAreProcessed(s, init);
      assert es == init + [last];
      ProcessedOnlyGrows(DeliverAll(s, init), last);
    }
  }

  lemma ProcessedOnlyGrows(s: OrdersState, e: Envelope)
    ensures s.processed <= HandleFact(s, e).0.processed
    ensures !HandleFact(s, e).1.Failed? && !NeedsNoWork(e.fact) ==> e.eventId in HandleFact(s, e).0.processed
  {
  }

  /** Delivering a sequence with any repeats ends in exactly the state of the sequence without them, unless some release
      of a payment comes too early. */
  lemma {:induction false} RedeliveryInvariance(s: OrdersState, es: seq<Envelope>)
    requires ValidStore(s) && IdsNameEnvelopes(es) && NeverFails(s, es)
    ensures DeliverAll(s, es) == DeliverAll(s, Deduplicated(es))
  {
    if es != [] {
      var init, last := es[..|es| - 1], es[|es| - 1];
      NeverFailsBefore(s, es);
      RedeliveryInvariance(s, init);
      if last.eventId in IdsOf(init) {
        assert Deduplicated(es) == Deduplicated(init);
        var e :| e in init && e.eventId == last.eventId;
        var i :| 0 <= i < |init| && init[i] == e;
        assert es[i] == es[|es| - 1];
        HandledFactsAreProcessed(s, init);
      } else {
        var kept := Deduplicated(es);
        assert kept == Deduplicated(init) + [last];
        assert kept[..|kept| - 1] == Deduplicated(init);
      }
    }
  }

  lemma DeliverSnoc(s: OrdersState, es: seq<Envelope>, e: Envelope)
    ensures DeliverAll(s, es + [e]) == HandleFact(DeliverAll(s, es), e).0
    ensures e.eventId in IdsOf(es) ==> Deduplicated(es + [e]) == Deduplicated(es)
  {
    assert (es + [e])[..|es|] == es;
  }

  // ---- Exactly when a repeat is dropped ----

  /** What a delivery of `e` promises: no later repeat of it does anything. */
  ghost predicate RepeatsAreDropped(s: OrdersState, e: Envelope) {
    forall rest: seq<Envelope> :: HandleFact(DeliverAll(s, [e] + rest), e).0 == DeliverAll(s, [e] + rest)
  }

  /** It is kept if and only if the delivery does not meet the guard. */
  lemma RepeatsAreDroppedIff(s: OrdersState, e: Envelope)
    requires ValidStore(s)
    ensures RepeatsAreDropped(s, e) <==> !FailsOn(s, e)
  {
    if FailsOn(s, e) {
      FailedRepeatCounts(s, e);
    } else {
      forall rest: seq<Envelope> ensures HandleFact(DeliverAll(s, [e] + rest), e).0 == DeliverAll(s, [e] + rest) {
        FailsExactlyOn(s, e);
        DeliverSnoc(s, [], e);
        assert [] + [e] == [e];
        ProcessedOnlyGrows(s, e);
        ProcessedStays(s, [e], rest);
      }
    }
  }

  lemma {:induction false} ProcessedStays(s: OrdersState, es: seq<Envelope>, rest: seq<Envelope>)
    ensures DeliverAll(s, es).processed <= DeliverAll(s, es + rest).processed
  {
    if rest == [] {
      assert es + rest == es;
    } else {
      ProcessedStays(s, es, rest[..|rest| - 1]);
      assert es + rest == (es + rest[..|rest| - 1]) + [rest[|rest| - 1]];
      DeliverSnoc(s, es + rest[..|rest| - 1], rest[|rest| - 1]);
      ProcessedOnlyGrows(DeliverAll(s, es + rest[..|rest| - 1]), rest[|rest| - 1]);
    }
  }

  /** After the failure the order can be cancelled, and then the repeat is recorded as an ignored fact. */
  lemma FailedRepeatCounts(s: OrdersState, e: Envelope)
    requires ValidStore(s) && FailsOn(s, e)
    ensures !RepeatsAreDropped(s, e)
  {
    var position := FreshPosition(s.processed + {e.eventId});
    var x := Envelope(EventId(Billing, e.correlationId, position), e.correlationId,
                      CreditReleasedFact(1, 1, ForOrderCancelled, ByRequest));
    FailsExactlyOn(s, e);
    DeliverSnoc(s, [], e);
    assert [] + [e] == [e];
    DeliverSnoc(s, [e], x);
    CancelsThenIgnores(s, e, x);
    assert HandleFact(DeliverAll(s, [e] + [x]), e).0 != DeliverAll(s, [e] + [x]);
  }

  lemma CancelsThenIgnores(s: OrdersState, e: Envelope, x: Envelope)
    requires ValidStore(s) && FailsOn(s, e) && x.correlationId == e.correlationId && x.eventId !in s.processed
             && x.eventId != e.eventId
    requires x.fact.CreditReleasedFact? && x.fact.creditReason == ForOrderCancelled
    ensures var t := HandleFact(s, x).0;
            e.eventId !in t.processed && e.eventId in HandleFact(t, e).0.processed
  {
    StepForStatusIsActionOn(x.fact, s.orders[e.correlationId].status);
    assert !StepVariantsFor(x.fact)[0].Skip? && !StepVariantsFor(e.fact)[0].Skip?;
    StepForStatusIsActionOn(e.fact, Cancelled);
  }

  /** A position that no known event has. */
  lemma FreshPosition(ids: set<EventId>) returns (position: nat)
    ensures forall id :: id in ids ==> id.position < position
    decreases ids
  {
    position := 0;
    if ids != {} {
      var id :| id in ids;
      var others := FreshPosition(ids - {id});
      position := if id.position < others then others else id.position + 1;
    }
  }

  // ---- A repeat that completes an order ----

  predicate HappyEdge(fact: Fact, from: OrderStatus, to: OrderStatus) {
    || (fact.OrderDespatchedFact? && from == Confirmed && to == Despatched)
    || (fact.InvoiceIssuedFact? && from == Despatched && to == Invoiced)
    || (fact.PaymentReceivedFact? && from == Invoiced && to == Paid)
    || (fact.CreditReleasedFact? && from == Paid && to == Completed)
  }

  /** A first delivery that the table turns into `to`. */
  lemma AdvanceHandled(s: OrdersState, o: OrderId, e: Envelope, to: OrderStatus)
    requires o in s.orders && ValidSnapshot(s.orders[o]) && e.correlationId == o && e.eventId !in s.processed
    requires HappyEdge(e.fact, s.orders[o].status, to)
    ensures var s' := HandleFact(s, e).0;
            && o in s'.orders && s'.orders[o] == s.orders[o].(status := to)
            && s'.processed == s.processed + {e.eventId}
  {
    StepForStatusIsActionOn(e.fact, s.orders[o].status);
    assert StepVariantsFor(e.fact)[0].AdvanceStep?;
  }

  lemma EarlyPaymentReleaseFails(s: OrdersState, o: OrderId, e: Envelope)
    requires o in s.orders && s.orders[o].status == Confirmed && e.correlationId == o
    requires e.fact.CreditReleasedFact? && e.fact.creditReason == ForInvoicePaid
    ensures HandleFact(s, e).0 == s
  {
    StepForStatusIsActionOn(e.fact, Confirmed);
  }

  /** From any store with a confirmed order, a delivery that throws leaves no dedup row, so its repeat counts: here the
      release of a payment overtakes the facts it follows, throws, and completes the order later. */
  lemma ARepeatAfterAFailureCounts(s: OrdersState, o: OrderId) returns (once: seq<Envelope>, twice: seq<Envelope>)
    requires o in s.orders && s.orders[o].status == Confirmed && ValidSnapshot(s.orders[o])
    ensures once == Deduplicated(twice) && (forall e :: e in once <==> e in twice)
    ensures StatusAfter(s, twice, o) == Some(Completed) && StatusAfter(s, once, o) == Some(Paid)
  {
    var released, despatched, issued, paid := OvertakingFacts(s, o);
    once := [released] + [despatched] + [issued] + [paid];
    twice := once + [released];
    FirstRepeated(released, despatched, issued, paid);
    var s4 := FailThenAdvance(s, o, released, despatched, issued, paid);
    DeliverSnoc(s, once, released);
    var _ := RunOn(s, once, s4, released, o, Completed);
  }

  /** A settlement whose last fact arrives first, under ids that have not been processed. */
  lemma OvertakingFacts(s: OrdersState, o: OrderId)
    returns (released: Envelope, despatched: Envelope, issued: Envelope, paid: Envelope)
    ensures released.fact.CreditReleasedFact? && released.fact.creditReason == ForInvoicePaid
    ensures despatched.fact.OrderDespatchedFact? && issued.fact.InvoiceIssuedFact? && paid.fact.PaymentReceivedFact?
    ensures forall e :: e in {released, despatched, issued, paid} ==> e.correlationId == o && e.eventId !in s.processed
    ensures released.eventId !in {despatched.eventId, issued.eventId, paid.eventId}
    ensures despatched.eventId !in {issued.eventId, paid.eventId} && issued.eventId != paid.eventId
  {
    var k := FreshPosition(s.processed);
    released := Envelope(EventId(Billing, o, k + 2), o, CreditReleasedFact(1, 1, ForInvoicePaid, ByRequest));
    despatched := Envelope(EventId(Fulfillment, o, k), o, OrderDespatchedFact(1, []));
    issued := Envelope(EventId(Billing, o, k), o, InvoiceIssuedFact(1, 1));
    paid := Envelope(EventId(Billing, o, k + 1), o, PaymentReceivedFact(1, 1));
  }

  lemma FirstRepeated(a: Envelope, b: Envelope, c: Envelope, d: Envelope)
    requires a.eventId !in {b.eventId, c.eventId, d.eventId}
    requires b.eventId !in {c.eventId, d.eventId} && c.eventId != d.eventId
    ensures var once := [a] + [b] + [c] + [d];
            Deduplicated(once + [a]) == once && forall e :: e in once <==> e in once + [a]
  {
    var once := [a] + [b] + [c] + [d];
    assert once == [a, b, c, d];
    DistinctIdsStay(once);
    assert a in once;
    assert (once + [a])[..|once|] == once;
  }

  lemma FailThenAdvance(s: OrdersState, o: OrderId, released: Envelope, despatched: Envelope, issued: Envelope,
                        paid: Envelope)
    returns (s4: OrdersState)
    requires o in s.orders && s.orders[o].status == Confirmed && ValidSnapshot(s.orders[o])
    requires released.fact.CreditReleasedFact? && released.fact.creditReason == ForInvoicePaid
    requires despatched.fact.OrderDespatchedFact? && issued.fact.InvoiceIssuedFact? && paid.fact.PaymentReceivedFact?
    requires forall e :: e in {released, despatched, issued, paid} ==> e.correlationId == o
    requires despatched.eventId !in s.processed && issued.eventId !in s.processed && paid.eventId !in s.processed
    requires despatched.eventId != issued.eventId && paid.eventId != issued.eventId
             && despatched.eventId != paid.eventId
    ensures DeliverAll(s, [released] + [despatched] + [issued] + [paid]) == s4
    ensures o in s4.orders && s4.orders[o].status == Paid && ValidSnapshot(s4.orders[o])
    ensures s4.processed == s.processed + {despatched.eventId, issued.eventId, paid.eventId}
    ensures StatusAfter(s, [released] + [despatched] + [issued] + [paid], o) == Some(Paid)
  {
    EarlyPaymentReleaseFails(s, o, released);
    DeliverSnoc(s, [], released);
    assert [] + [released] == [released];
    var s2 := RunOn(s, [released], s, despatched, o, Despatched);
    var s3 := RunOn(s, [released] + [despatched], s2, issued, o, Invoiced);
    s4 := RunOn(s, [released] + [despatched] + [issued], s3, paid, o, Paid);
  }

  function StatusAfter(s: OrdersState, es: seq<Envelope>, o: OrderId): Option<OrderStatus> {
    var t := DeliverAll(s, es);
    if o in t.orders then Some(t.orders[o].status) else None
  }

  lemma RunOn(s: OrdersState, es: seq<Envelope>, t: OrdersState, e: Envelope, o: OrderId, to: OrderStatus)
    returns (t': OrdersState)
    requires DeliverAll(s, es) == t
    requires o in t.orders && ValidSnapshot(t.orders[o]) && e.correlationId == o && e.eventId !in t.processed
    requires HappyEdge(e.fact, t.orders[o].status, to)
    ensures DeliverAll(s, es + [e]) == t' && o in t'.orders && t'.orders[o] == t.orders[o].(status := to)
    ensures t'.processed == t.processed + {e.eventId} && ValidSnapshot(t'.orders[o])
    ensures StatusAfter(s, es + [e], o) == Some(to)
  {
    t' := HandleFact(t, e).0;
    DeliverSnoc(s, es, e);
    AdvanceHandled(t, o, e, to);
  }

  lemma {:induction false} DistinctIdsStay(es: seq<Envelope>)
    requires forall i, j :: 0 <= i < j < |es| ==> es[i].eventId != es[j].eventId
    ensures Deduplicated(es) == es
  {
    if es != [] {
      DistinctIdsStay(es[..|es| - 1]);
    }
  }
}
