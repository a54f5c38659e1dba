/** The notification dispatcher: record first, then send, and take the record back when the send fails. */
module Notifications {
  import opened Kernel

  datatype Outcome = Sent | DuplicateDelivery | SendFailed

  /** What the outside world does to one delivery: whether the send, and the compensating delete, succeed. */
  datatype Attempt = Attempt(event: EventId, sendOk: bool, deleteOk: bool)

  /** The ledger of handled events, and every send that went out. */
  datatype DispatchState = DispatchState(ledger: set<EventId>, sent: seq<EventId>, orphaned: set<EventId>)

  function Dispatched(s: DispatchState, a: Attempt): (DispatchState, Outcome) {
    if a.event in s.ledger then (s, DuplicateDelivery)
    else if a.sendOk then (s.(ledger := s.ledger + {a.event}, sent := s.sent + [a.event]), Sent)
    else if a.deleteOk then (s, SendFailed)
    else (s.(ledger := s.ledger + {a.event}, orphaned := s.orphaned + {a.event}), SendFailed)
  }

  class NotificationDispatchService {
    var ledger: set<EventId>
    var sent: seq<EventId>
    ghost var orphaned: set<EventId>

    ghost function State(): DispatchState reads this {
      DispatchState(ledger, sent, orphaned)
    }

    constructor ()
      ensures ledger == {} && sent == [] && orphaned == {}
    {
      ledger, sent, orphaned := {}, [], {};
    }

    /** The insert commits on its own before the send; a failed send deletes the row again, and the failure of that
        delete never replaces the failure of the send. */
    method Dispatch(a: Attempt) returns (outcome: Outcome)
      modifies this
      ensures (State(), outcome) == Dispatched(old(State()), a)
    {
      if a.event in ledger {
        return DuplicateDelivery;
      }
      ghost var before := ledger;
      ledger := ledger + {a.event};
      if a.sendOk {
        sent := sent + [a.event];
        return Sent;
      }
      if a.deleteOk {
        ledger := ledger - {a.event};
        assert ledger == before;
      } else {
        orphaned := orphaned + {a.event};
      }
      return SendFailed;
    }
  }

  function DispatchAll(s: DispatchState, attempts: seq<Attempt>): DispatchState {
    if attempts == [] then s else Dispatched(DispatchAll(s, attempts[..|attempts| - 1]), attempts[|attempts| - 1]).0
  }

  /** Recorded means sent or orphaned, never both, and nothing was sent twice. */
  ghost predicate SentOnce(s: DispatchState) {
    && (forall e :: e in s.ledger <==> e in s.sent || e in s.orphaned)
    && (forall e :: e in s.sent ==> e !in s.orphaned)
    && (forall i, j :: 0 <= i < j < |s.sent| ==> s.sent[i] != s.sent[j])
  }

  const NOTHING_SENT := DispatchState({}, [], {})

  lemma DispatchKeepsSentOnce(s: DispatchState, a: Attempt)
    requires SentOnce(s)
    ensures SentOnce(Dispatched(s, a).0)
  {
    var t := Dispatched(s, a).0;
    if a.event !in s.ledger && a.sendOk {
      assert t.sent[|s.sent|] == a.event;
      assert forall i :: 0 <= i < |s.sent| ==> t.sent[i] == s.sent[i] && s.sent[i] in s.sent;
    }
  }

  /** Over any deliveries, with any failing sends and failing deletes: at most one successful send per event, and an
      event is in the ledger exactly when it was sent or its compensating delete failed. */
  lemma {:induction false} AtMostOneSend(attempts: seq<Attempt>)
    ensures SentOnce(DispatchAll(NOTHING_SENT, attempts))
  {
    if attempts != [] {
      AtMostOneSend(attempts[..|attempts| - 1]);
      DispatchKeepsSentOnce(DispatchAll(NOTHING_SENT, attempts[..|attempts| - 1]), attempts[|attempts| - 1]);
    }
  }

  predicate Orphans(a: Attempt) {
    !a.sendOk && !a.deleteOk
  }

  /** What decides whether an event has been sent by now: some delivery of it could be sent, and none before it was
      orphaned. */
  ghost predicate Deliverable(attempts: seq<Attempt>, e: EventId) {
    exists i :: 0 <= i < |attempts| && attempts[i].event == e && attempts[i].sendOk
                && forall j :: 0 <= j < i && attempts[j].event == e ==> !Orphans(attempts[j])
  }

  ghost predicate OrphanedFirst(attempts: seq<Attempt>, e: EventId) {
    exists i :: 0 <= i < |attempts| && attempts[i].event == e && Orphans(attempts[i])
                && forall j :: 0 <= j < i && attempts[j].event == e ==> !attempts[j].sendOk
  }

  predicate Decides(a: Attempt, e: EventId) {
    a.event == e && (a.sendOk || Orphans(a))
  }

  /** The first decisive delivery settles it. */
  lemma {:induction false} FirstDecides(attempts: seq<Attempt>, e: EventId, k: nat)
    requires k < |attempts| && Decides(attempts[k], e)
    ensures Deliverable(attempts, e) || OrphanedFirst(attempts, e)
    decreases k
  {
    if j :| 0 <= j < k && Decides(attempts[j], e) {
      FirstDecides(attempts, e, j);
    } else {
      assert attempts[k].event == e;
    }
  }

  lemma NotBoth(attempts: seq<Attempt>, e: EventId)
    ensures !(Deliverable(attempts, e) && OrphanedFirst(attempts, e))
  {
  }

  /** Exactly which events were sent: a redelivery gets through unless an orphaned row swallows it. */
  lemma {:induction false} SentExactly(attempts: seq<Attempt>, e: EventId)
    ensures e in DispatchAll(NOTHING_SENT, attempts).sent <==> Deliverable(attempts, e)
    ensures e in DispatchAll(NOTHING_SENT, attempts).orphaned <==> OrphanedFirst(attempts, e)
  {
    if attempts != [] {
      var init, last := attempts[..|attempts| - 1], attempts[|attempts| - 1];
      SentExactly(init, e);
      AtMostOneSend(init);
      assert attempts == init + [last];
      OneMoreAttempt(DispatchAll(NOTHING_SENT, init), init, last, e);
    }
  }

  lemma OneMoreAttempt(s: DispatchState, init: seq<Attempt>, last: Attempt, e: EventId)
    requires SentOnce(s) && (e in s.sent <==> Deliverable(init, e)) && (e in s.orphaned <==> OrphanedFirst(init, e))
    ensures e in Dispatched(s, last).0.sent <==> Deliverable(init + [last], e)
    ensures e in Dispatched(s, last).0.orphaned <==> OrphanedFirst(init + [last], e)
  {
    DeliverableGrows(init, last, e);
    OrphanedGrows(init, last, e);
    NotBoth(init + [last], e);
    if last.event == e && e !in s.ledger {
      forall k | 0 <= k < |init| ensures !Decides(init[k], e) {
        if Decides(init[k], e) {
          FirstDecides(init, e, k);
        }
      }
    }
  }

  lemma DeliverableGrows(init: seq<Attempt>, last: Attempt, e: EventId)
    ensures Deliverable(init + [last], e) <==>
            Deliverable(init, e)
              || (last.event == e && last.sendOk && forall j :: 0 <= j < |init| && init[j].event == e ==>
                  !Orphans(init[j]))
  {
    var all := init + [last];
    assert all[|init|] == last;
    assert forall j :: 0 <= j < |init| ==> all[j] == init[j];
    if Deliverable(all, e) {
      var i :| 0 <= i < |all| && all[i].event == e && all[i].sendOk && forall j :: 0 <= j < i && all[j].event == e ==>
        !Orphans(all[j]);
      if i < |init| {
        assert init[i].event == e;
      }
    }
    if Deliverable(init, e) {
      var i :| && 0 <= i < |init| && init[i].event == e && init[i].sendOk
               && forall j :: 0 <= j < i && init[j].event == e ==> !Orphans(init[j]);
      assert all[i].event == e;
    }
  }

  lemma OrphanedGrows(init: seq<Attempt>, last: Attempt, e: EventId)
    ensures OrphanedFirst(init + [last], e) <==>
            OrphanedFirst(init, e)
              || (last.event == e && Orphans(last) && forall j :: 0 <= j < |init| && init[j].event == e ==>
                  !init[j].sendOk)
  {
    var all := init + [last];
    assert all[|init|] == last;
    assert forall j :: 0 <= j < |init| ==> all[j] == init[j];
    if OrphanedFirst(all, e) {
      var i :| 0 <= i < |all| && all[i].event == e && Orphans(all[i]) && forall j :: 0 <= j < i && all[j].event == e ==>
        !all[j].sendOk;
      if i < |init| {
        assert init[i].event == e;
      }
    }
    if OrphanedFirst(init, e) {
      var i :| && 0 <= i < |init| && init[i].event == e && Orphans(init[i])
               && forall j :: 0 <= j < i && init[j].event == e ==> !init[j].sendOk;
      assert all[i].event == e;
    }
  }

  // ---- The answers ----

  /** An event is recorded from the first delivery of it that decides. */
  lemma {:induction false} RecordedIff(attempts: seq<Attempt>, e: EventId)
    ensures e in DispatchAll(NOTHING_SENT, attempts).ledger <==>
            exists j :: 0 <= j < |attempts| && Decides(attempts[j], e)
  {
    if attempts != [] {
      var init, last := attempts[..|attempts| - 1], attempts[|attempts| - 1];
      RecordedIff(init, e);
      assert forall j :: 0 <= j < |init| ==> attempts[j] == init[j];
      if j :| 0 <= j < |init| && Decides(init[j], e) {
        assert Decides(attempts[j], e);
      }
    }
  }

  function OutcomeAt(attempts: seq<Attempt>, i: nat): Outcome
    requires i < |attempts|
  {
    Dispatched(DispatchAll(NOTHING_SENT, attempts[..i]), attempts[i]).1
  }

  /** Every delivery is answered by what came before it: a duplicate once the event has been sent or orphaned, and
      otherwise what became of this send; so an event is reported as sent once at most. */
  lemma OutcomesAreExact(attempts: seq<Attempt>, i: nat)
    requires i < |attempts|
    ensures var e := attempts[i].event;
            var decided := exists j :: 0 <= j < i && Decides(attempts[j], e);
            && (OutcomeAt(attempts, i) == DuplicateDelivery <==> decided)
            && (OutcomeAt(attempts, i) == Sent <==> !decided && attempts[i].sendOk)
            && (OutcomeAt(attempts, i) == SendFailed <==> !decided && !attempts[i].sendOk)
  {
    var e, before := attempts[i].event, attempts[..i];
    RecordedIff(before, e);
    assert forall j :: 0 <= j < i ==> before[j] == attempts[j];
    if j :| 0 <= j < i && Decides(attempts[j], e) {
      assert Decides(before[j], e);
    }
  }
}
