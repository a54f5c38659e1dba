/** The append-only credit ledger and the one place where exposures are computed. */
module Ledger {
  import opened Kernel

  datatype EntryKind = Hold | Consume | Release

  datatype Entry = Entry(order: OrderId, amount: Money, kind: EntryKind)

  datatype OrderExposure = OrderExposure(order: OrderId, exposure: int, openExposure: int, activeHold: int,
                                         hasHoldEntry: bool)

  datatype LedgerSummary = LedgerSummary(byOrder: seq<OrderExposure>, committedExposure: int, activeHolds: int,
                                         openExposure: int)

  // ---- The sums, by definition ----

  function AmountIf(e: Entry, kind: EntryKind): int {
    if e.kind == kind then e.amount.amount else 0
  }

  /** `Σ` of one kind of entry over one order. */
  function SumFor(entries: seq<Entry>, o: OrderId, kind: EntryKind): int {
    if entries == [] then 0
    else
      var last := entries[|entries| - 1];
      SumFor(entries[..|entries| - 1], o, kind) + if last.order == o then AmountIf(last, kind) else 0
  }

  /** `Σ` of one kind of entry over the whole list. */
  function SumAll(entries: seq<Entry>, kind: EntryKind): int {
    if entries == [] then 0 else SumAll(entries[..|entries| - 1], kind) + AmountIf(entries[|entries| - 1], kind)
  }

  predicate HasHold(entries: seq<Entry>, o: OrderId) {
    exists i :: 0 <= i < |entries| && entries[i].order == o && entries[i].kind == Hold
  }

  function Min(a: int, b: int): int {
    if a < b then a else b
  }

  function ExposureOf(entries: seq<Entry>, o: OrderId): int {
    SumFor(entries, o, Hold) - SumFor(entries, o, Release)
  }

  function OpenExposureOf(entries: seq<Entry>, o: OrderId): int {
    Min(SumFor(entries, o, Consume), ExposureOf(entries, o))
  }

  function ActiveHoldOf(entries: seq<Entry>, o: OrderId): int {
    ExposureOf(entries, o) - OpenExposureOf(entries, o)
  }

  /** `Σhold − Σrelease` of the whole line: the BC5 scalar. */
  function CommittedOf(entries: seq<Entry>): int {
    SumAll(entries, Hold) - SumAll(entries, Release)
  }

  /** Orders in the order of their first entry. */
  function FirstSeen(entries: seq<Entry>): seq<OrderId> {
    if entries == [] then []
    else
      var earlier := FirstSeen(entries[..|entries| - 1]);
      if entries[|entries| - 1].order in earlier then earlier else earlier + [entries[|entries| - 1].order]
  }

  function ExposureRow(entries: seq<Entry>, o: OrderId): OrderExposure {
    OrderExposure(o, ExposureOf(entries, o), OpenExposureOf(entries, o), ActiveHoldOf(entries, o), HasHold(entries, o))
  }

  function RowsOver(entries: seq<Entry>, orders: seq<OrderId>): (rows: seq<OrderExposure>)
    ensures |rows| == |orders| && forall i :: 0 <= i < |orders| ==> rows[i] == ExposureRow(entries, orders[i])
  {
    seq(|orders|, i requires 0 <= i < |orders| => ExposureRow(entries, orders[i]))
  }

  function TotalExposure(rows: seq<OrderExposure>): int {
    if rows == [] then 0 else TotalExposure(rows[..|rows| - 1]) + rows[|rows| - 1].exposure
  }

  function TotalActive(rows: seq<OrderExposure>): int {
    if rows == [] then 0 else TotalActive(rows[..|rows| - 1]) + rows[|rows| - 1].activeHold
  }

  function TotalOpen(rows: seq<OrderExposure>): int {
    if rows == [] then 0 else TotalOpen(rows[..|rows| - 1]) + rows[|rows| - 1].openExposure
  }

  // ---- The one-pass fold ----

  datatype Accumulator = Accumulator(hold: int, release: int, consume: int, hasHoldEntry: bool)

  function AccumulatorOf(entries: seq<Entry>, o: OrderId): Accumulator {
    Accumulator(SumFor(entries, o, Hold), SumFor(entries, o, Release), SumFor(entries, o, Consume), HasHold(entries, o))
  }

  /** One more entry adds its amount under its kind, to its own order only. */
  lemma AccumulatorGrows(entries: seq<Entry>, i: nat)
    requires i < |entries|
    ensures forall o ::
        var was, e := AccumulatorOf(entries[..i], o), entries[i];
        AccumulatorOf(entries[..i + 1], o)
        == if o == e.order then
             Accumulator(was.hold + AmountIf(e, Hold), was.release + AmountIf(e, Release),
                         was.consume + AmountIf(e, Consume), was.hasHoldEntry || e.kind == Hold)
           else was
  {
    assert entries[..i + 1][..i] == entries[..i];
    HasHoldGrows(entries, i);
  }

  /** The loop over the entries, with a map of accumulators and the orders as they are first seen. */
  method Accumulate(entries: seq<Entry>) returns (acc: map<OrderId, Accumulator>, orders: seq<OrderId>)
    ensures orders == FirstSeen(entries)
    ensures forall o :: o in acc <==> o in orders
    ensures forall o :: o in acc ==> acc[o] == AccumulatorOf(entries, o)
  {
    acc, orders := map[], [];
    for i := 0 to |entries|
      invariant orders == FirstSeen(entries[..i])
      invariant forall o :: o in acc <==> o in orders
      invariant forall o :: (if o in acc then acc[o] else Accumulator(0, 0, 0, false)) == AccumulatorOf(entries[..i], o)
    {
      assert entries[..i + 1][..i] == entries[..i];
      var e := entries[i];
      AccumulatorGrows(entries, i);
      var was := Accumulator(0, 0, 0, false);
      if e.order in acc {
        was := acc[e.order];
      } else {
        orders := orders + [e.order];
      }
      acc := acc[e.order := match e.kind
                            case Hold => was.(hold := was.hold + e.amount.amount, hasHoldEntry := true)
                            case Release => was.(release := was.release + e.amount.amount)
                            case Consume => was.(consume := was.consume + e.amount.amount)];
    }
    assert entries[..|entries|] == entries;
  }

  /** A row of the summary, against the entries of its order: what was held less what was released, of which what was
      consumed is open and the rest active, and whether a hold was ever entered. */
  ghost predicate RowSays(entries: seq<Entry>, row: OrderExposure) {
    && row.exposure == SumFor(entries, row.order, Hold) - SumFor(entries, row.order, Release)
    && row.openExposure + row.activeHold == row.exposure
    && row.openExposure <= SumFor(entries, row.order, Consume) && row.openExposure <= row.exposure
    && (row.openExposure == SumFor(entries, row.order, Consume) || row.activeHold == 0)
    && (row.hasHoldEntry <==>
        exists i :: 0 <= i < |entries| && entries[i].order == row.order && entries[i].kind == Hold)
  }

  /** The accumulators of one loop, then one pass over the orders seen. Its result is the per-order filtered sums, and
      its totals agree with the sums over the whole list. */
  method SummariseLedger(entries: seq<Entry>) returns (s: LedgerSummary)
    ensures s.byOrder == RowsOver(entries, FirstSeen(entries))
    ensures s.committedExposure == CommittedOf(entries)
    ensures s.activeHolds + s.openExposure == s.committedExposure
    ensures s.activeHolds == TotalActive(s.byOrder) && s.openExposure == TotalOpen(s.byOrder)
    ensures forall row :: row in s.byOrder ==> RowSays(entries, row)
  {
    var acc, orders := Accumulate(entries);
    var byOrder, committed, active, open: int := [], 0, 0, 0;
    for i := 0 to |orders|
      invariant byOrder == RowsOver(entries, orders[..i])
      invariant committed == TotalExposure(byOrder) && active == TotalActive(byOrder) && open == TotalOpen(byOrder)
      invariant active + open == committed
    {
      var a := acc[orders[i]];
      var exposure := a.hold - a.release;
      var openOfOrder := Min(a.consume, exposure);
      var row := OrderExposure(orders[i], exposure, openOfOrder, exposure - openOfOrder, a.hasHoldEntry);
      assert row == ExposureRow(entries, orders[i]);
      assert (byOrder + [row])[..i] == byOrder;
      byOrder := byOrder + [row];
      committed, active, open := committed + exposure, active + row.activeHold, open + openOfOrder;
    }
    assert orders[..|orders|] == orders;
    ExposuresAddUp(entries);
    s := LedgerSummary(byOrder, committed, active, open);
  }

  lemma HasHoldGrows(entries: seq<Entry>, i: nat)
    requires i < |entries|
    ensures forall o :: HasHold(entries[..i + 1], o) <==>
            HasHold(entries[..i], o) || (entries[i].order == o && entries[i].kind == Hold)
  {
    forall o ensures HasHold(entries[..i + 1], o) <==>
      HasHold(entries[..i], o) || (entries[i].order == o && entries[i].kind == Hold) {
      if HasHold(entries[..i], o) {
        var j :| 0 <= j < i && entries[..i][j].order == o && entries[..i][j].kind == Hold;
        assert entries[..i + 1][j] == entries[..i][j];
      }
      if HasHold(entries[..i + 1], o) {
        var j :| 0 <= j < i + 1 && entries[..i + 1][j].order == o && entries[..i + 1][j].kind == Hold;
        if j < i { assert entries[..i][j] == entries[..i + 1][j]; }
      }
      assert entries[..i + 1][i] == entries[i];
    }
  }

  // ---- The exposures of the orders add up to the whole line ----

  lemma {:induction false} FirstSeenIsExact(entries: seq<Entry>)
    ensures forall o :: o in FirstSeen(entries) <==> exists i :: 0 <= i < |entries| && entries[i].order == o
    ensures forall i, j :: 0 <= i < j < |FirstSeen(entries)| ==> FirstSeen(entries)[i] != FirstSeen(entries)[j]
  {
    if entries != [] {
      var init := entries[..|entries| - 1];
      FirstSeenIsExact(init);
      assert forall i :: 0 <= i < |init| ==> entries[i] == init[i];
      var last := entries[|entries| - 1];
      forall o | o in FirstSeen(entries) ensures exists i :: 0 <= i < |entries| && entries[i].order == o {
        if o in FirstSeen(init) {
          var i :| 0 <= i < |init| && init[i].order == o;
          assert entries[i].order == o;
        } else {
          assert entries[|entries| - 1].order == o;
        }
      }
      forall o | exists i :: 0 <= i < |entries| && entries[i].order == o ensures o in FirstSeen(entries) {
        var i :| 0 <= i < |entries| && entries[i].order == o;
        if i < |init| { assert init[i].order == o; }
      }
    }
  }

  function SumExposure(entries: seq<Entry>, orders: seq<OrderId>): int {
    if orders == [] then 0 else SumExposure(entries, orders[..|orders| - 1]) + ExposureOf(entries, orders[|orders| - 1])
  }

  lemma {:induction false} TotalExposureIsSum(entries: seq<Entry>, orders: seq<OrderId>)
    ensures TotalExposure(RowsOver(entries, orders)) == SumExposure(entries, orders)
  {
    if orders != [] {
      var rows := RowsOver(entries, orders);
      assert rows[..|rows| - 1] == RowsOver(entries, orders[..|orders| - 1]);
      TotalExposureIsSum(entries, orders[..|orders| - 1]);
    }
  }

  function Signed(e: Entry): int {
    AmountIf(e, Hold) - AmountIf(e, Release)
  }

  /** One more entry moves the sum by its signed amount, provided its order is among the distinct orders summed. */
  lemma {:induction false} OneMoreEntry(entries: seq<Entry>, e: Entry, orders: seq<OrderId>)
    requires forall i, j :: 0 <= i < j < |orders| ==> orders[i] != orders[j]
    ensures SumExposure(entries + [e], orders) == SumExposure(entries, orders) + if e.order in orders then Signed(e)
            else 0
  {
    if orders != [] {
      var init := orders[..|orders| - 1];
      OneMoreEntry(entries, e, init);
      assert (entries + [e])[..|entries|] == entries;
      assert e.order in orders <==> e.order in init || e.order == orders[|orders| - 1];
    }
  }

  lemma {:induction false} NoEntriesNoSum(entries: seq<Entry>, o: OrderId, kind: EntryKind)
    requires forall i :: 0 <= i < |entries| ==> entries[i].order != o
    ensures SumFor(entries, o, kind) == 0
  {
    if entries != [] {
      NoEntriesNoSum(entries[..|entries| - 1], o, kind);
    }
  }

  /** `Σ_orders exposure = Σhold − Σrelease`, for any list of entries. */
  lemma {:induction false} ExposuresAddUp(entries: seq<Entry>)
    ensures TotalExposure(RowsOver(entries, FirstSeen(entries))) == CommittedOf(entries)
    ensures SumExposure(entries, FirstSeen(entries)) == CommittedOf(entries)
  {
    TotalExposureIsSum(entries, FirstSeen(entries));
    if entries != [] {
      var init, last := entries[..|entries| - 1], entries[|entries| - 1];
      assert entries == init + [last];
      ExposuresAddUp(init);
      FirstSeenIsExact(init);
      OneMoreEntry(init, last, FirstSeen(init));
      if last.order !in FirstSeen(init) {
        var orders := FirstSeen(entries);
        assert orders[..|orders| - 1] == FirstSeen(init);
        NoEntriesNoSum(init, last.order, Hold);
        NoEntriesNoSum(init, last.order, Release);
      }
    }
  }

  /** A `consume` entry never moves the committed exposure, of whatever order and amount (R40). */
  lemma ConsumeIsNeutral(entries: seq<Entry>, e: Entry)
    requires e.kind == Consume
    ensures CommittedOf(entries + [e]) == CommittedOf(entries)
    ensures forall o :: ExposureOf(entries + [e], o) == ExposureOf(entries, o)
  {
    assert (entries + [e])[..|entries|] == entries;
  }

  // ---- One order's entries ----

  function EntriesFor(entries: seq<Entry>, o: OrderId): seq<Entry> {
    if entries == [] then []
    else
      var last := entries[|entries| - 1];
      EntriesFor(entries[..|entries| - 1], o) + if last.order == o then [last] else []
  }

  lemma EntriesForSnoc(entries: seq<Entry>, e: Entry, o: OrderId)
    ensures EntriesFor(entries + [e], o) == EntriesFor(entries, o) + if e.order == o then [e] else []
    ensures SumAll(entries + [e], Hold) == SumAll(entries, Hold) + AmountIf(e, Hold)
    ensures SumAll(entries + [e], Release) == SumAll(entries, Release) + AmountIf(e, Release)
  {
    assert (entries + [e])[..|entries|] == entries;
  }

  lemma {:induction false} OrderEntriesAreOwn(entries: seq<Entry>, o: OrderId)
    ensures EntriesFor(EntriesFor(entries, o), o) == EntriesFor(entries, o)
    ensures forall i :: 0 <= i < |EntriesFor(entries, o)| ==> EntriesFor(entries, o)[i].order == o
  {
    if entries != [] {
      var init, last := entries[..|entries| - 1], entries[|entries| - 1];
      OrderEntriesAreOwn(init, o);
      var mine := EntriesFor(init, o);
      if last.order == o {
        EntriesForSnoc(mine, last, o);
        assert EntriesFor(entries, o) == mine + [last];
      } else {
        assert EntriesFor(entries, o) == mine;
      }
    }
  }

  lemma {:induction false} OrderEntriesHold(entries: seq<Entry>, o: OrderId)
    ensures HasHold(EntriesFor(entries, o), o) <==> HasHold(entries, o)
  {
    if entries != [] {
      var init, last := entries[..|entries| - 1], entries[|entries| - 1];
      OrderEntriesHold(init, o);
      HasHoldGrows(entries, |entries| - 1);
      assert entries[..|entries|] == entries;
      if last.order == o {
        var mine := EntriesFor(entries, o);
        assert mine[..|mine| - 1] == EntriesFor(init, o);
        HasHoldGrows(mine, |mine| - 1);
        assert mine[..|mine|] == mine;
      } else {
        assert EntriesFor(entries, o) == EntriesFor(init, o);
      }
    }
  }

  lemma SumForSnoc(entries: seq<Entry>, e: Entry, o: OrderId, kind: EntryKind)
    ensures SumFor(entries + [e], o, kind) == SumFor(entries, o, kind) + if e.order == o then AmountIf(e, kind) else 0
  {
    assert (entries + [e])[..|entries|] == entries;
  }

  lemma {:induction false} OrderEntriesSum(entries: seq<Entry>, o: OrderId, kind: EntryKind)
    ensures SumFor(EntriesFor(entries, o), o, kind) == SumFor(entries, o, kind)
  {
    if entries != [] {
      var init, last := entries[..|entries| - 1], entries[|entries| - 1];
      OrderEntriesSum(init, o, kind);
      if last.order == o {
        assert EntriesFor(entries, o) == EntriesFor(init, o) + [last];
        SumForSnoc(EntriesFor(init, o), last, o, kind);
      } else {
        assert EntriesFor(entries, o) == EntriesFor(init, o);
      }
    }
  }

  /** Partial load: the order's own entries give the same sums, the same exposures and the same hold as the full ledger.
      */
  lemma OrderEntriesSuffice(entries: seq<Entry>, o: OrderId)
    ensures forall kind :: SumFor(EntriesFor(entries, o), o, kind) == SumFor(entries, o, kind)
    ensures HasHold(EntriesFor(entries, o), o) <==> HasHold(entries, o)
    ensures EntriesFor(EntriesFor(entries, o), o) == EntriesFor(entries, o)
    ensures forall i :: 0 <= i < |EntriesFor(entries, o)| ==> EntriesFor(entries, o)[i].order == o
  {
    OrderEntriesAreOwn(entries, o);
    OrderEntriesHold(entries, o);
    forall kind: EntryKind {
      OrderEntriesSum(entries, o, kind);
    }
  }
}
