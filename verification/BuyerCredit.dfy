/** The `BuyerCredit` aggregate: the scalar of the whole line and the entries of one order. */
module BuyerCreditAggregate {
  import opened Kernel
  import opened Ledger

  datatype CreditError =
    | InvalidCreditSnapshot
    | CreditLimitExceeded(requested: int, available: int)
    | RefusalMismatch
    | ReleaseUnderflow(outstanding: int)
    | NoActiveHold

  datatype HoldEvaluation =
    | AlreadyHeld(heldAmount: Money)
    | HoldCurrencyMismatch(expected: CurrencyCode)
    | Fits
    | Exceeds(availableCredit: int)

  /** A credit line as loaded or saved; `committed` speaks for the whole line, `entries` need not. */
  datatype CreditSnapshot = CreditSnapshot(limit: int, currency: CurrencyCode, committed: int, entries: seq<Entry>)

  function FirstHold(entries: seq<Entry>, o: OrderId): Option<Entry> {
    if entries == [] then None
    else
      var earlier := FirstHold(entries[..|entries| - 1], o);
      if earlier.Some? then earlier
      else if entries[|entries| - 1].order == o && entries[|entries| - 1].kind == Hold then Some(entries[|entries| - 1])
        else None
  }

  function Available(s: CreditSnapshot): int {
    s.limit - s.committed
  }

  // ---- What the operations do, on snapshots ----

  function Evaluate(s: CreditSnapshot, o: OrderId, amount: Money): HoldEvaluation {
    if FirstHold(s.entries, o).Some? then AlreadyHeld(FirstHold(s.entries, o).value.amount)
    else if amount.currency != s.currency then HoldCurrencyMismatch(s.currency)
    else if amount.amount > Available(s) then Exceeds(Available(s))
    else Fits
  }

  function WithHold(s: CreditSnapshot, o: OrderId, amount: Money): CreditSnapshot {
    s.(committed := s.committed + amount.amount, entries := s.entries + [Entry(o, amount, Hold)])
  }

  function ReleaseEntry(s: CreditSnapshot, o: OrderId): Entry {
    Entry(o, Money(ExposureOf(s.entries, o), s.currency), Release)
  }

  function WithRelease(s: CreditSnapshot, o: OrderId): CreditSnapshot {
    s.(committed := s.committed - ExposureOf(s.entries, o), entries := s.entries + [ReleaseEntry(s, o)])
  }

  function ConsumeEntry(s: CreditSnapshot, o: OrderId): Entry {
    Entry(o, Money(ActiveHoldOf(s.entries, o), s.currency), Consume)
  }

  function WithConsume(s: CreditSnapshot, o: OrderId): CreditSnapshot {
    s.(entries := s.entries + [ConsumeEntry(s, o)])
  }

  function ApprovedFact(s: CreditSnapshot, o: OrderId, amount: Money): Fact {
    CreditApprovedFact(amount.amount, Available(WithHold(s, o, amount)))
  }

  function ReleasedFact(s: CreditSnapshot, o: OrderId, reason: CreditReleaseReason, cause: Cause): Fact {
    CreditReleasedFact(ExposureOf(s.entries, o), Available(WithRelease(s, o)), reason, cause)
  }

  class BuyerCredit {
    const limit: int
    const currency: CurrencyCode
    var committedExposure: int
    const loaded: seq<Entry>
    /** Appended during this instance's lifetime: what the repository inserts. */
    var appended: seq<Entry>
    var events: seq<Fact>

    function Snapshot(): CreditSnapshot reads `committedExposure, `appended {
      CreditSnapshot(limit, currency, committedExposure, loaded + appended)
    }

    constructor FromSnapshot(s: CreditSnapshot)
      ensures limit == s.limit && currency == s.currency && committedExposure == s.committed && loaded == s.entries
      ensures appended == [] && events == []
    {
      limit, currency, committedExposure, loaded := s.limit, s.currency, s.committed, s.entries;
      appended, events := [], [];
    }

    /** Refuses a negative limit, a line above its limit (B1) and an entry in a foreign currency (B3). */
    static method Reconstitute(s: CreditSnapshot) returns (r: Result<BuyerCredit, CreditError>)
      ensures r.Ok? <==> && s.limit >= 0 && s.committed <= s.limit
                         && forall i :: 0 <= i < |s.entries| ==> s.entries[i].amount.currency == s.currency
      ensures r.Err? ==> r.error == InvalidCreditSnapshot
      ensures r.Ok? ==> fresh(r.value) && r.value.Snapshot() == s && r.value.appended == [] && r.value.events == []
                        && r.value.loaded == s.entries
    {
      if s.limit < 0 || s.committed > s.limit {
        return Err(InvalidCreditSnapshot);
      }
      for i := 0 to |s.entries|
        invariant forall j :: 0 <= j < i ==> s.entries[j].amount.currency == s.currency
      {
        if s.entries[i].amount.currency != s.currency {
          return Err(InvalidCreditSnapshot);
        }
      }
      var credit := new BuyerCredit.FromSnapshot(s);
      assert s.entries + [] == s.entries;
      return Ok(credit);
    }

    /** The single decision function; it changes nothing. */
    function EvaluateHold(o: OrderId, amount: Money): (e: HoldEvaluation)
      reads `committedExposure, `appended
      ensures e == Evaluate(Snapshot(), o, amount)
    {
      var first := FirstHold(EntriesFor(loaded + appended, o), o);
      FirstHoldOfOwn(loaded + appended, o);
      if first.Some? then AlreadyHeld(first.value.amount)
      else if amount.currency != currency then HoldCurrencyMismatch(currency)
      else if amount.amount > limit - committedExposure then Exceeds(limit - committedExposure)
      else Fits
    }

    method Append(entry: Entry, fact: Option<Fact>, exposure: int)
      modifies this
      ensures appended == old(appended) + [entry] && committedExposure == exposure
      ensures Snapshot() == old(Snapshot()).(committed := exposure, entries := old(loaded + appended) + [entry])
      ensures events == old(events) + if fact.Some? then [fact.value] else []
    {
      committedExposure := exposure;
      appended := appended + [entry];
      if fact.Some? {
        events := events + [fact.value];
      }
      assert loaded + appended == old(loaded + appended) + [entry];
    }

    /** One `hold` entry and one fact; a caller cannot bypass the limit by skipping the evaluation. */
    method ApproveHold(o: OrderId, amount: Money) returns (r: Result<(), CreditError>)
      modifies this
      ensures r.Ok? <==> old(EvaluateHold(o, amount)) == Fits
      ensures r.Ok? ==> && Snapshot() == WithHold(old(Snapshot()), o, amount)
                        && appended == old(appended) + [Entry(o, amount, Hold)]
                        && events == old(events) + [ApprovedFact(old(Snapshot()), o, amount)]
      ensures r.Err? ==> && r.error == CreditLimitExceeded(amount.amount, old(Available(Snapshot())))
                         && Snapshot() == old(Snapshot()) && appended == old(appended) && events == old(events)
    {
      if EvaluateHold(o, amount) != Fits {
        return Err(CreditLimitExceeded(amount.amount, limit - committedExposure));
      }
      var after := committedExposure + amount.amount;
      Append(Entry(o, amount, Hold), Some(CreditApprovedFact(amount.amount, limit - after)), after);
      return Ok(());
    }

    /** No entry and one fact; `OverLimit` may not be said of an amount that fits. */
    method RefuseHold(amount: Money, reason: CreditRefusal) returns (r: Result<(), CreditError>)
      modifies `events
      ensures r.Ok? <==> !(reason == OverLimit && amount.amount <= Available(Snapshot()))
      ensures r.Ok? ==> events == old(events) + [CreditRejectedFact(amount.amount, Available(Snapshot()), reason)]
      ensures r.Err? ==> r.error == RefusalMismatch && events == old(events)
    {
      var available := limit - committedExposure;
      if reason == OverLimit && amount.amount <= available {
        return Err(RefusalMismatch);
      }
      events := events + [CreditRejectedFact(amount.amount, available, reason)];
      return Ok(());
    }

    /** The summary of the one order's entries gives the outstanding exposure. */
    method SummaryRow(o: OrderId) returns (row: OrderExposure)
      ensures row == ExposureRow(Snapshot().entries, o)
    {
      var own := EntriesFor(loaded + appended, o);
      var summary := SummariseLedger(own);
      SummaryOfOwnEntries(loaded + appended, o);
      if |summary.byOrder| > 0 {
        row := summary.byOrder[0];
      } else {
        row := OrderExposure(o, 0, 0, 0, false);
      }
    }

    /** One `release` entry for the whole outstanding exposure and one fact; nothing when there is none. */
    method ReleaseHold(o: OrderId, reason: CreditReleaseReason, cause: Cause)
      returns (r: Result<Option<Entry>, CreditError>)
      modifies this
      ensures var was := old(Snapshot());
              && (r.Err? <==> ExposureOf(was.entries, o) < 0)
              && (r.Err? ==> r.error == ReleaseUnderflow(ExposureOf(was.entries, o)))
              && (r.Ok? ==> r.value == if ExposureOf(was.entries, o) == 0 then None else Some(ReleaseEntry(was, o)))
              && (if r.Ok? && r.value.Some?
                  then Snapshot() == WithRelease(was, o) && appended == old(appended) + [ReleaseEntry(was, o)]
                       && events == old(events) + [ReleasedFact(was, o, reason, cause)]
                  else Snapshot() == was && appended == old(appended) && events == old(events))
    {
      var row := SummaryRow(o);
      var outstanding := row.exposure;
      if outstanding < 0 {
        return Err(ReleaseUnderflow(outstanding));
      }
      if outstanding == 0 {
        return Ok(None);
      }
      var entry := Entry(o, Money(outstanding, currency), Release);
      var after := committedExposure - outstanding;
      Append(entry, Some(CreditReleasedFact(outstanding, limit - after, reason, cause)), after);
      return Ok(Some(entry));
    }

    /** One `consume` entry of the order's active hold; it emits nothing and moves no exposure. */
    method ConsumeHold(o: OrderId) returns (r: Result<Entry, CreditError>)
      modifies this
      ensures var was := old(Snapshot());
              && (r.Ok? <==> ActiveHoldOf(was.entries, o) > 0)
              && (r.Ok? ==>
                  r.value == ConsumeEntry(was, o) && Snapshot() == WithConsume(was, o)
                    && appended == old(appended) + [r.value])
              && (r.Err? ==> r.error == NoActiveHold && Snapshot() == was && appended == old(appended))
      ensures events == old(events)
    {
      var row := SummaryRow(o);
      if row.activeHold <= 0 {
        return Err(NoActiveHold);
      }
      var entry := Entry(o, Money(row.activeHold, currency), Consume);
      Append(entry, None, committedExposure);
      return Ok(entry);
    }
  }

  lemma {:induction false} FirstHoldOfOwn(entries: seq<Entry>, o: OrderId)
    ensures FirstHold(EntriesFor(entries, o), o) == FirstHold(entries, o)
  {
    if entries != [] {
      var init, last := entries[..|entries| - 1], entries[|entries| - 1];
      FirstHoldOfOwn(init, o);
      var mine := EntriesFor(entries, o);
      if last.order == o {
        assert mine[..|mine| - 1] == EntriesFor(init, o);
      } else {
        assert mine == EntriesFor(init, o);
      }
    }
  }

  lemma {:induction false} OnlyOwnOrder(own: seq<Entry>, o: OrderId)
    requires forall i :: 0 <= i < |own| ==> own[i].order == o
    ensures FirstSeen(own) == if own == [] then [] else [o]
  {
    if own != [] {
      OnlyOwnOrder(own[..|own| - 1], o);
    }
  }

  /** The summary of one order's entries has that order's row of the whole ledger, or none if it has no entry. */
  lemma SummaryOfOwnEntries(entries: seq<Entry>, o: OrderId)
    ensures var own := EntriesFor(entries, o);
            RowsOver(own, FirstSeen(own)) == if own == [] then [] else [ExposureRow(entries, o)]
    ensures EntriesFor(entries, o) == [] ==> ExposureRow(entries, o) == OrderExposure(o, 0, 0, 0, false)
  {
    OrderEntriesSuffice(entries, o);
    OnlyOwnOrder(EntriesFor(entries, o), o);
    assert ExposureRow(EntriesFor(entries, o), o) == ExposureRow(entries, o);
  }

  // ---- Partial-load refinement ----

  /** The same credit line with only one order's entries loaded. */
  function Narrowed(s: CreditSnapshot, o: OrderId): CreditSnapshot {
    s.(entries := EntriesFor(s.entries, o))
  }

  /** What every operation reads is the same on one order's entries as on the full ledger. */
  lemma PartialLoadReadsTheSame(full: CreditSnapshot, o: OrderId, amount: Money)
    ensures Evaluate(Narrowed(full, o), o, amount) == Evaluate(full, o, amount)
    ensures ReleaseEntry(Narrowed(full, o), o) == ReleaseEntry(full, o)
    ensures ConsumeEntry(Narrowed(full, o), o) == ConsumeEntry(full, o)
    ensures ExposureOf(Narrowed(full, o).entries, o) == ExposureOf(full.entries, o)
    ensures ActiveHoldOf(Narrowed(full, o).entries, o) == ActiveHoldOf(full.entries, o)
  {
    FirstHoldOfOwn(full.entries, o);
    OrderEntriesSuffice(full.entries, o);
  }

  /** Appending an entry of the order commutes with loading only that order, and moves the sum by the entry's signed
      amount. */
  lemma AppendCommutes(entries: seq<Entry>, e: Entry)
    ensures EntriesFor(entries + [e], e.order) == EntriesFor(entries, e.order) + [e]
    ensures CommittedOf(entries + [e]) == CommittedOf(entries) + Signed(e)
  {
    EntriesForSnoc(entries, e, e.order);
  }

  /** Every operation on (whole-line scalar + one order's entries) decides and writes exactly what it would on the
      full ledger, and keeps the scalar equal to `Σhold − Σrelease` of the full ledger it is saved into. */
  lemma PartialLoadRefines(full: CreditSnapshot, o: OrderId, amount: Money)
    requires full.committed == CommittedOf(full.entries)
    ensures var part := Narrowed(full, o);
            && Evaluate(part, o, amount) == Evaluate(full, o, amount)
            && Narrowed(WithHold(full, o, amount), o) == WithHold(part, o, amount)
            && Narrowed(WithRelease(full, o), o) == WithRelease(part, o)
            && Narrowed(WithConsume(full, o), o) == WithConsume(part, o)
    ensures WithHold(full, o, amount).committed == CommittedOf(WithHold(full, o, amount).entries)
    ensures WithRelease(full, o).committed == CommittedOf(WithRelease(full, o).entries)
    ensures WithConsume(full, o).committed == CommittedOf(WithConsume(full, o).entries)
  {
    PartialLoadReadsTheSame(full, o, amount);
    AppendCommutes(full.entries, Entry(o, amount, Hold));
    AppendCommutes(full.entries, ReleaseEntry(full, o));
    AppendCommutes(full.entries, ConsumeEntry(full, o));
  }
}
