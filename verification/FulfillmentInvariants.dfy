/** Partial-load refinement of stock: although a transaction loads one order's reservations only,
    the counters always speak for the reservations of all orders, and units are conserved. */
module FulfillmentInvariants {
  import opened Kernel
  import opened Stock
  import opened OrderStock
  import opened FulfillmentTables

  // ---- Totals over every order ----

  ghost function TermOf(key: (OrderId, ProductCode), rows: seq<ReservationRow>, p: ProductCode,
                        status: ReservationStatus): nat {
    if key.1 == p then UnitsWith(rows, key.0, status) else 0
  }

  /** Units in one status on item `p`, over the reservations of all orders. */
  ghost function TotalWith(table: ReservationTable, p: ProductCode, status: ReservationStatus): nat
    decreases |table|
  {
    if table == map[] then 0
    else
      var key :| key in table;
      TermOf(key, table[key], p, status) + TotalWith(table - {key}, p, status)
  }

  lemma {:induction false} TotalWithout(table: ReservationTable, key: (OrderId, ProductCode), p: ProductCode,
                                        status: ReservationStatus)
    requires key in table
    ensures TotalWith(table, p, status) == TermOf(key, table[key], p, status) + TotalWith(table - {key}, p, status)
    decreases |table|
  {
    var first :| first in table
                 && TotalWith(table, p, status) == TermOf(first, table[first], p, status)
                    + TotalWith(table - {first}, p, status);
    if first != key {
      TotalWithout(table - {first}, key, p, status);
      TotalWithout(table - {key}, first, p, status);
      assert table - {first} - {key} == table - {key} - {first};
    }
  }

  /** Two tables that agree on item `p` have the same totals there. */
  lemma {:induction false} TotalsAgree(a: ReservationTable, b: ReservationTable, p: ProductCode,
                                       status: ReservationStatus)
    requires forall key: (OrderId, ProductCode) :: key.1 == p ==>
             (key in a <==> key in b) && (key in a ==> a[key] == b[key])
    ensures TotalWith(a, p, status) == TotalWith(b, p, status)
    decreases |a|
  {
    if key :| key in a && key.1 == p {
      TotalWithout(a, key, p, status);
      TotalWithout(b, key, p, status);
      TotalsAgree(a - {key}, b - {key}, p, status);
    } else {
      NoTermsNoTotal(a, p, status);
      NoTermsNoTotal(b, p, status);
    }
  }

  lemma {:induction false} NoTermsNoTotal(table: ReservationTable, p: ProductCode, status: ReservationStatus)
    requires forall key :: key in table ==> key.1 != p
    ensures TotalWith(table, p, status) == 0
    decreases |table|
  {
    if key :| key in table {
      TotalWithout(table, key, p, status);
      NoTermsNoTotal(table - {key}, p, status);
    } else {
      assert table == map[];
    }
  }

  /** Changing one order's rows on item `p` changes the total there by that order's difference. */
  lemma TotalAfterChange(a: ReservationTable, b: ReservationTable, o: OrderId, p: ProductCode,
                         status: ReservationStatus)
    requires forall key: (OrderId, ProductCode) :: key.1 == p && key != (o, p) ==>
             (key in a <==> key in b) && (key in a ==> a[key] == b[key])
    ensures TotalWith(b, p, status) - UnitsWith(RowsAt(b, o, p), o, status)
            == TotalWith(a, p, status) - UnitsWith(RowsAt(a, o, p), o, status)
    ensures UnitsWith(RowsAt(a, o, p), o, status) <= TotalWith(a, p, status)
  {
    var k := (o, p);
    TotalsAgree(a - {k}, b - {k}, p, status);
    TotalBesides(a, o, p, status);
    TotalBesides(b, o, p, status);
  }

  /** One order's units on the item, and everybody else's. */
  lemma TotalBesides(table: ReservationTable, o: OrderId, p: ProductCode, status: ReservationStatus)
    ensures TotalWith(table, p, status) == UnitsWith(RowsAt(table, o, p), o, status)
            + TotalWith(table - {(o, p)}, p, status)
  {
    if (o, p) in table {
      TotalWithout(table, (o, p), p, status);
    } else {
      assert table - {(o, p)} == table;
    }
  }

  // ---- Rows ----

  lemma {:induction false} UnitsOfConcat(a: seq<ReservationRow>, b: seq<ReservationRow>, o: OrderId,
                                         status: ReservationStatus)
    ensures UnitsWith(a + b, o, status) == UnitsWith(a, o, status) + UnitsWith(b, o, status)
  {
    if b == [] {
      assert a + b == a;
    } else {
      assert (a + b)[..|a + b| - 1] == a + b[..|b| - 1];
      UnitsOfConcat(a, b[..|b| - 1], o, status);
    }
  }

  /** Settling an order's rows moves all its reserved units to the new status and nothing else. */
  lemma {:induction false} UnitsOfMoved(rows: seq<ReservationRow>, o: OrderId, to: ReservationStatus,
                                        status: ReservationStatus)
    requires to != Reserved
    ensures UnitsWith(Moved(rows, o, to), o, status) ==
            if status == Reserved then 0
            else UnitsWith(rows, o, status) + if status == to then UnitsWith(rows, o, Reserved) else 0
  {
    if rows != [] {
      var init := rows[..|rows| - 1];
      UnitsOfMoved(init, o, to, status);
      assert Moved(rows, o, to)[..|rows| - 1] == Moved(init, o, to);
    }
  }

  // ---- Where a save lands ----

  lemma {:induction false} SavedStockAt(stock: map<ProductCode, StockRow>, snaps: seq<ItemSnapshot>)
    requires DistinctProducts(snaps)
    ensures forall i :: 0 <= i < |snaps| ==>
                          snaps[i].product in SavedStock(stock, snaps)
                          && SavedStock(stock, snaps)[snaps[i].product]
                             == StockRow(snaps[i].units, snaps[i].reservedUnits)
    ensures forall p :: (forall i :: 0 <= i < |snaps| ==> snaps[i].product != p) ==>
                          (p in SavedStock(stock, snaps) <==> p in stock)
                          && (p in stock ==> SavedStock(stock, snaps)[p] == stock[p])
  {
    if snaps != [] {
      var init := snaps[..|snaps| - 1];
      SavedStockAt(stock, init);
      assert forall i :: 0 <= i < |init| ==> init[i] == snaps[i];
    }
  }

  lemma {:induction false} SavedTableAt(table: ReservationTable, o: OrderId, snaps: seq<ItemSnapshot>)
    requires DistinctProducts(snaps)
    ensures forall i :: 0 <= i < |snaps| ==>
                          RowsAt(SavedTable(table, o, snaps), o, snaps[i].product)
                          == if snaps[i].rows == [] then RowsAt(table, o, snaps[i].product) else snaps[i].rows
    ensures forall key: (OrderId, ProductCode) ::
                            key.0 != o || (forall i :: 0 <= i < |snaps| ==> snaps[i].product != key.1) ==>
                            (key in SavedTable(table, o, snaps) <==> key in table)
                            && (key in table ==> SavedTable(table, o, snaps)[key] == table[key])
    ensures forall i :: 0 <= i < |snaps| ==>
                          ((o, snaps[i].product) in SavedTable(table, o, snaps) <==>
                           (o, snaps[i].product) in table || snaps[i].rows != [])
  {
    if snaps != [] {
      var init := snaps[..|snaps| - 1];
      SavedTableAt(table, o, init);
      assert forall i :: 0 <= i < |init| ==> init[i] == snaps[i];
    }
  }

  // ---- Invariants of the tables ----

  /** F1 on every row, and the counter equal to the reserved units of ALL orders. */
  ghost predicate CountersAgree(s: FulfillmentState) {
    forall p :: p in s.stock ==>
                  && 0 <= s.stock[p].reservedUnits <= s.stock[p].units
                  && s.stock[p].reservedUnits == TotalWith(s.reservations, p, Reserved)
  }

  ghost predicate TableOk(s: FulfillmentState) {
    forall key :: key in s.reservations ==>
                    && key.1 in s.stock
                    && s.reservations[key] != []
                    && forall i :: 0 <= i < |s.reservations[key]| ==>
                                     s.reservations[key][i].order == key.0 && s.reservations[key][i].product == key.1
  }

  ghost predicate ValidTables(s: FulfillmentState) {
    CountersAgree(s) && TableOk(s)
  }

  /** Units in the warehouse plus everything ever consumed. */
  ghost function UnitsEver(s: FulfillmentState, p: ProductCode): int
    requires p in s.stock
  {
    s.stock[p].units + TotalWith(s.reservations, p, Consumed)
  }

  ghost predicate UnitsConserved(s: FulfillmentState, t: FulfillmentState) {
    && t.stock.Keys == s.stock.Keys
    && forall p :: p in s.stock ==> UnitsEver(t, p) == UnitsEver(s, p)
  }

  /** `t` is `s` with the items of order `o` on `ps` saved as `snaps`. */
  ghost predicate SavesItems(s: FulfillmentState, o: OrderId, ps: seq<ProductCode>, snaps: seq<ItemSnapshot>) {
    && |snaps| == |ps|
    && (forall i :: 0 <= i < |ps| ==> ps[i] in s.stock && snaps[i].product == ps[i])
    && (forall i, j :: 0 <= i < j < |ps| ==> ps[i] != ps[j])
    && (forall i :: 0 <= i < |ps| ==> snaps[i].rows == [] ==> RowsAt(s.reservations, o, ps[i]) == [])
    && (forall i, j :: 0 <= i < |ps| && 0 <= j < |snaps[i].rows| ==>
        snaps[i].rows[j].order == o && snaps[i].rows[j].product == ps[i])
  }

  /** The operation on one item, seen from the item alone: counters move with this order's rows, within F1. */
  predicate BalancedItem(before: ItemSnapshot, after: ItemSnapshot, o: OrderId) {
    && 0 <= after.reservedUnits <= after.units
    && after.reservedUnits - before.reservedUnits
       == UnitsWith(after.rows, o, Reserved) - UnitsWith(before.rows, o, Reserved)
    && after.units - before.units == UnitsWith(before.rows, o, Consumed) - UnitsWith(after.rows, o, Consumed)
  }

  /** Where each row of the saved state comes from. */
  lemma SavedLookups(s: FulfillmentState, o: OrderId, ps: seq<ProductCode>, snaps: seq<ItemSnapshot>, facts: seq<Fact>)
    requires SavesItems(s, o, ps, snaps)
    ensures var t := Saved(s, o, snaps, facts);
            && t.stock.Keys == s.stock.Keys
            && (forall i :: 0 <= i < |ps| ==> t.stock[ps[i]] == StockRow(snaps[i].units, snaps[i].reservedUnits))
            && (forall i :: 0 <= i < |ps| ==> RowsAt(t.reservations, o, ps[i]) == snaps[i].rows)
            && (forall p :: p in s.stock && p !in ps ==> t.stock[p] == s.stock[p])
    ensures forall key: (OrderId, ProductCode) :: key.0 != o || key.1 !in ps ==>
                                                    (key in Saved(s, o, snaps, facts).reservations <==>
                                                     key in s.reservations)
                                                    && (key in s.reservations ==>
                                                        Saved(s, o, snaps, facts).reservations[key]
                                                          == s.reservations[key])
    ensures forall i :: 0 <= i < |ps| ==>
            ((o, ps[i]) in Saved(s, o, snaps, facts).reservations <==>
             (o, ps[i]) in s.reservations || snaps[i].rows != [])
  {
    assert DistinctProducts(snaps);
    SavedStockAt(s.stock, snaps);
    SavedTableAt(s.reservations, o, snaps);
    var t := Saved(s, o, snaps, facts);
    forall i | 0 <= i < |ps| ensures t.stock[ps[i]] == StockRow(snaps[i].units, snaps[i].reservedUnits)
      && ps[i] in t.stock {
      assert snaps[i].product == ps[i];
    }
    forall i | 0 <= i < |ps|
      ensures RowsAt(t.reservations, o, ps[i]) == snaps[i].rows
      ensures (o, ps[i]) in t.reservations <==> (o, ps[i]) in s.reservations || snaps[i].rows != []
    {
      assert snaps[i].product == ps[i];
    }
    forall p | p !in ps ensures (p in t.stock <==> p in s.stock) && (p in s.stock ==> t.stock[p] == s.stock[p]) {
      assert forall i :: 0 <= i < |snaps| ==> snaps[i].product == ps[i] && ps[i] in ps;
    }
    forall p ensures p in t.stock <==> p in s.stock {
      if p in ps {
        var i :| 0 <= i < |ps| && ps[i] == p;
      }
    }
  }

  /** From one order's items to the whole tables. */
  lemma SaveKeepsTables(s: FulfillmentState, o: OrderId, ps: seq<ProductCode>, snaps: seq<ItemSnapshot>,
                        facts: seq<Fact>)
    requires ValidTables(s) && SavesItems(s, o, ps, snaps)
    requires forall i :: 0 <= i < |ps| ==> BalancedItem(LoadedItem(s, o, ps[i]), snaps[i], o)
    ensures ValidTables(Saved(s, o, snaps, facts)) && UnitsConserved(s, Saved(s, o, snaps, facts))
  {
    SavedLookups(s, o, ps, snaps, facts);
    forall p | p in s.stock ensures ItemStaysRight(s, Saved(s, o, snaps, facts), p) {
      if p in ps {
        var i :| 0 <= i < |ps| && ps[i] == p;
        TouchedItem(s, o, ps, snaps, facts, i);
      } else {
        UntouchedItem(s, o, ps, snaps, facts, p);
      }
    }
    RowsStayRight(s, o, ps, snaps, facts);
  }

  ghost predicate ItemStaysRight(s: FulfillmentState, t: FulfillmentState, p: ProductCode) {
    && p in s.stock && p in t.stock
    && 0 <= t.stock[p].reservedUnits <= t.stock[p].units
    && t.stock[p].reservedUnits == TotalWith(t.reservations, p, Reserved)
    && UnitsEver(t, p) == UnitsEver(s, p)
  }

  lemma TouchedItem(s: FulfillmentState, o: OrderId, ps: seq<ProductCode>, snaps: seq<ItemSnapshot>, facts: seq<Fact>,
                    i: nat)
    requires ValidTables(s) && SavesItems(s, o, ps, snaps) && i < |ps|
    requires BalancedItem(LoadedItem(s, o, ps[i]), snaps[i], o)
    ensures ItemStaysRight(s, Saved(s, o, snaps, facts), ps[i])
  {
    var t := Saved(s, o, snaps, facts);
    SavedLookups(s, o, ps, snaps, facts);
    TotalAfterChange(s.reservations, t.reservations, o, ps[i], Reserved);
    TotalAfterChange(s.reservations, t.reservations, o, ps[i], Consumed);
  }

  lemma UntouchedItem(s: FulfillmentState, o: OrderId, ps: seq<ProductCode>, snaps: seq<ItemSnapshot>, facts: seq<Fact>,
                      p: ProductCode)
    requires ValidTables(s) && SavesItems(s, o, ps, snaps) && p in s.stock && p !in ps
    ensures ItemStaysRight(s, Saved(s, o, snaps, facts), p)
  {
    var t := Saved(s, o, snaps, facts);
    SavedLookups(s, o, ps, snaps, facts);
    TotalsAgree(s.reservations, t.reservations, p, Reserved);
    TotalsAgree(s.reservations, t.reservations, p, Consumed);
  }

  lemma RowsStayRight(s: FulfillmentState, o: OrderId, ps: seq<ProductCode>, snaps: seq<ItemSnapshot>, facts: seq<Fact>)
    requires TableOk(s) && SavesItems(s, o, ps, snaps)
    ensures TableOk(Saved(s, o, snaps, facts))
  {
    var t := Saved(s, o, snaps, facts);
    SavedLookups(s, o, ps, snaps, facts);
    forall key | key in t.reservations
      ensures key.1 in t.stock && t.reservations[key] != []
      ensures forall j :: 0 <= j < |t.reservations[key]| ==>
              t.reservations[key][j].order == key.0 && t.reservations[key][j].product == key.1
    {
      if key.0 == o && key.1 in ps {
        var i :| 0 <= i < |ps| && ps[i] == key.1;
        assert RowsAt(t.reservations, o, ps[i]) == t.reservations[key];
      }
    }
  }

  // ---- Every transaction keeps the tables ----

  lemma LoadedRowsBelong(s: FulfillmentState, o: OrderId, p: ProductCode)
    requires TableOk(s)
    ensures forall j :: 0 <= j < |RowsAt(s.reservations, o, p)| ==>
                          RowsAt(s.reservations, o, p)[j].order == o && RowsAt(s.reservations, o, p)[j].product == p
  {
    if (o, p) in s.reservations {
      assert s.reservations[(o, p)] == RowsAt(s.reservations, o, p);
    }
  }

  lemma UnchangedItemBalances(s: FulfillmentState, o: OrderId, p: ProductCode)
    requires ValidTables(s) && p in s.stock
    ensures BalancedItem(LoadedItem(s, o, p), LoadedItem(s, o, p), o)
  {
  }

  lemma ReservedItemBalances(s: FulfillmentState, o: OrderId, p: ProductCode, lines: seq<ReserveLine>)
    requires ValidTables(s) && p in s.stock
    requires RequestedOf(lines, p) <= s.stock[p].units - s.stock[p].reservedUnits
    ensures BalancedItem(LoadedItem(s, o, p), ReservedItem(LoadedItem(s, o, p), o, lines), o)
  {
    var rows, added := RowsAt(s.reservations, o, p), RowsFor(lines, o, p);
    RowsForHaveRequestedUnits(lines, o, p);
    UnitsOfConcat(rows, added, o, Reserved);
    UnitsOfConcat(rows, added, o, Consumed);
    NoOtherStatus(added, o, Reserved, Consumed);
  }

  lemma {:induction false} NoOtherStatus(rows: seq<ReservationRow>, o: OrderId, status: ReservationStatus,
                                         other: ReservationStatus)
    requires forall i :: 0 <= i < |rows| ==> rows[i].status == status
    requires other != status
    ensures UnitsWith(rows, o, other) == 0
  {
    if rows != [] {
      NoOtherStatus(rows[..|rows| - 1], o, status, other);
    }
  }

  lemma SettledItemBalances(s: FulfillmentState, o: OrderId, p: ProductCode, how: Settlement)
    requires ValidTables(s) && p in s.stock
    ensures BalancedItem(LoadedItem(s, o, p), SettledItem(LoadedItem(s, o, p), o, how), o)
  {
    var rows := RowsAt(s.reservations, o, p);
    TotalAfterChange(s.reservations, s.reservations, o, p, Reserved);
    UnitsOfMoved(rows, o, if how.SettleReleased? then Released else Consumed, Reserved);
    UnitsOfMoved(rows, o, if how.SettleReleased? then Released else Consumed, Consumed);
  }

  lemma OrderItemsAreLoaded(s: FulfillmentState, o: OrderId)
    requires TableOk(s)
    ensures var ps := Ascending(ReservedProducts(s.reservations, o));
            && (forall i :: 0 <= i < |ps| ==> ps[i] in s.stock && (o, ps[i]) in s.reservations)
            && OrderItems(s, o) == Some(LoadedItems(s, o, ps))
  {
    var ps := Ascending(ReservedProducts(s.reservations, o));
    forall i | 0 <= i < |ps| ensures ps[i] in s.stock && (o, ps[i]) in s.reservations {
      assert ps[i] in ps;
    }
  }

  /** Release and consume, as saves over all of the order's items. */
  lemma SettleKeepsTables(s: FulfillmentState, o: OrderId, ids: set<ProductCode>, how: Settlement, facts: seq<Fact>)
    requires ValidTables(s) && ItemsAt(s, o, ids).Some?
    ensures var snaps := ItemsAt(s, o, ids).value;
            var t := Saved(s, o, SettledItems(snaps, o, how, |snaps|), facts);
            ValidTables(t) && UnitsConserved(s, t)
  {
    var ps := Ascending(ids);
    var settled := SettledItems(ItemsAt(s, o, ids).value, o, how, |ps|);
    forall i | 0 <= i < |ps|
      ensures BalancedItem(LoadedItem(s, o, ps[i]), settled[i], o)
      ensures settled[i].product == ps[i] && |settled[i].rows| == |RowsAt(s.reservations, o, ps[i])|
      ensures forall j :: 0 <= j < |settled[i].rows| ==>
              settled[i].rows[j].order == o && settled[i].rows[j].product == ps[i]
    {
      SettledItemBalances(s, o, ps[i], how);
      LoadedRowsBelong(s, o, ps[i]);
      assert settled[i] == SettledItem(LoadedItem(s, o, ps[i]), o, how);
    }
    SaveKeepsTables(s, o, ps, settled, facts);
  }

  lemma AcceptedReserveKeepsTables(s: FulfillmentState, o: OrderId, lines: seq<ReserveLine>, facts: seq<Fact>)
    requires ValidTables(s) && lines != []
    requires Decide(AvailabilityOf(s, KnownProducts(s, lines)), lines).ReservedAll?
    ensures var t := Saved(s, o, ReservedItems(LoadedItems(s, o, KnownProducts(s, lines)), o, lines), facts);
            ValidTables(t) && UnitsConserved(s, t)
  {
    var ps := KnownProducts(s, lines);
    var available := AvailabilityOf(s, ps);
    AcceptedIffEveryProductFits(available, lines);
    var reserved := ReservedItems(LoadedItems(s, o, ps), o, lines);
    forall i | 0 <= i < |ps|
      ensures BalancedItem(LoadedItem(s, o, ps[i]), reserved[i], o) && reserved[i].product == ps[i]
      ensures reserved[i].rows == [] ==> RowsAt(s.reservations, o, ps[i]) == []
      ensures forall j :: 0 <= j < |reserved[i].rows| ==>
              reserved[i].rows[j].order == o && reserved[i].rows[j].product == ps[i]
    {
      assert ps[i] in ps;
      var k :| 0 <= k < |lines| && lines[k].product == ps[i];
      ReservedRowsAreRight(s, o, ps[i], lines);
    }
    SaveKeepsTables(s, o, ps, reserved, facts);
  }

  lemma ReservedRowsAreRight(s: FulfillmentState, o: OrderId, p: ProductCode, lines: seq<ReserveLine>)
    requires ValidTables(s) && p in s.stock && RequestedOf(lines, p) <= s.stock[p].units - s.stock[p].reservedUnits
    ensures var item := ReservedItem(LoadedItem(s, o, p), o, lines);
            && BalancedItem(LoadedItem(s, o, p), item, o)
            && (item.rows == [] ==> RowsAt(s.reservations, o, p) == [])
            && forall j :: 0 <= j < |item.rows| ==> item.rows[j].order == o && item.rows[j].product == p
  {
    ReservedItemBalances(s, o, p, lines);
    LoadedRowsBelong(s, o, p);
    RowsForHaveRequestedUnits(lines, o, p);
  }

  lemma RefusedReserveKeepsTables(s: FulfillmentState, o: OrderId, lines: seq<ReserveLine>, facts: seq<Fact>)
    requires ValidTables(s)
    ensures var t := Saved(s, o, LoadedItems(s, o, KnownProducts(s, lines)), facts);
            ValidTables(t) && UnitsConserved(s, t)
  {
    var ps := KnownProducts(s, lines);
    forall i | 0 <= i < |ps|
      ensures BalancedItem(LoadedItem(s, o, ps[i]), LoadedItem(s, o, ps[i]), o)
      ensures forall j :: 0 <= j < |RowsAt(s.reservations, o, ps[i])| ==>
                            RowsAt(s.reservations, o, ps[i])[j].order == o
                              && RowsAt(s.reservations, o, ps[i])[j].product == ps[i]
    {
      UnchangedItemBalances(s, o, ps[i]);
      LoadedRowsBelong(s, o, ps[i]);
    }
    SaveKeepsTables(s, o, ps, LoadedItems(s, o, ps), facts);
  }

  datatype StockOp =
    | ReserveOp(order: OrderId, lines: seq<ReserveLine>)
    | ReleaseOp(order: OrderId, reason: StockReleaseReason)
    | DespatchOp(order: OrderId)
    | ReplenishOp(lines: seq<ReserveLine>)

  function Applied(s: FulfillmentState, op: StockOp): FulfillmentState {
    match op
    case ReserveOp(o, lines) => if lines == [] then s else ReserveTx(s, o, lines).0
    case ReleaseOp(o, reason) => ReleaseTx(s, o, reason).0
    case DespatchOp(o) => DespatchTx(s, o).0
    case ReplenishOp(lines) => ReplenishTx(s, lines).0
  }

  /** Units that an operation brings in from outside. */
  function BroughtIn(s: FulfillmentState, op: StockOp, p: ProductCode): nat {
    if op.ReplenishOp? && ReplenishTx(s, op.lines).1.Ok? then RequestedOf(op.lines, p) else 0
  }

  lemma TransactionKeepsTables(s: FulfillmentState, op: StockOp)
    requires ValidTables(s)
    ensures ValidTables(Applied(s, op)) && Applied(s, op).stock.Keys == s.stock.Keys
    ensures forall p :: p in s.stock ==> UnitsEver(Applied(s, op), p) == UnitsEver(s, p) + BroughtIn(s, op, p)
  {
    match op
    case ReserveOp(o, lines) => if lines != [] { ReserveKeepsTables(s, o, lines); }
    case ReleaseOp(o, reason) => ReleaseKeepsTables(s, o, reason);
    case DespatchOp(o) => DespatchKeepsTables(s, o);
    case ReplenishOp(lines) =>
  }

  lemma ReserveKeepsTables(s: FulfillmentState, o: OrderId, lines: seq<ReserveLine>)
    requires ValidTables(s) && lines != []
    ensures ValidTables(ReserveTx(s, o, lines).0) && UnitsConserved(s, ReserveTx(s, o, lines).0)
  {
    var outcome := Decide(AvailabilityOf(s, KnownProducts(s, lines)), lines);
    if outcome.ReservedAll? {
      AcceptedReserveKeepsTables(s, o, lines, [StockReservedFact(outcome.reservations)]);
    } else {
      RefusedReserveKeepsTables(s, o, lines, [StockRejectedFact(outcome.shortages, outcome.reason)]);
    }
  }

  lemma ReleaseKeepsTables(s: FulfillmentState, o: OrderId, reason: StockReleaseReason)
    requires ValidTables(s)
    ensures ValidTables(ReleaseTx(s, o, reason).0) && UnitsConserved(s, ReleaseTx(s, o, reason).0)
  {
    ReleaseAfterReadKeepsTables(s, o, ReservedProducts(s.reservations, o), reason);
  }

  /** However old the read is that named the stock rows. */
  lemma ReleaseAfterReadKeepsTables(s: FulfillmentState, o: OrderId, ids: set<ProductCode>, reason: StockReleaseReason)
    requires ValidTables(s)
    ensures var t := ReleaseAfterRead(s, o, ids, reason).0;
            ValidTables(t) && UnitsConserved(s, t)
  {
    if ItemsAt(s, o, ids).Some? {
      SettledStateKeepsTables(s, ReleaseAfterRead(s, o, ids, reason).0, o, ids, SettleReleased,
                              [StockReleasedFact(AllHeldRefs(ItemsAt(s, o, ids).value, o), reason)]);
    }
  }

  /** Either nothing changed, or every reserved row of the order on the items was settled. */
  lemma SettledStateKeepsTables(s: FulfillmentState, t: FulfillmentState, o: OrderId, ids: set<ProductCode>,
                                how: Settlement,
                                facts: seq<Fact>)
    requires ValidTables(s) && ItemsAt(s, o, ids).Some?
    requires var snaps := ItemsAt(s, o, ids).value;
             var saved := Saved(s, o, SettledItems(snaps, o, how, |snaps|), facts);
             t == s || (t.stock == saved.stock && t.reservations == saved.reservations)
    ensures ValidTables(t) && UnitsConserved(s, t)
  {
    if t != s {
      SettleKeepsTables(s, o, ids, how, facts);
      var snaps := ItemsAt(s, o, ids).value;
      OnlyTablesMatter(s, Saved(s, o, SettledItems(snaps, o, how, |snaps|), facts), t);
    }
  }

  lemma DespatchKeepsTables(s: FulfillmentState, o: OrderId)
    requires ValidTables(s)
    ensures ValidTables(DespatchTx(s, o).0) && UnitsConserved(s, DespatchTx(s, o).0)
  {
    DespatchAfterReadKeepsTables(s, o, ReservedProducts(s.reservations, o));
  }

  lemma DespatchAfterReadKeepsTables(s: FulfillmentState, o: OrderId, ids: set<ProductCode>)
    requires ValidTables(s)
    ensures var t := DespatchAfterRead(s, o, ids).0;
            ValidTables(t) && UnitsConserved(s, t)
  {
    if ItemsAt(s, o, ids).Some? {
      SettledStateKeepsTables(s, DespatchAfterRead(s, o, ids).0, o, ids, SettleConsumed,
                              [DespatchFact(AdviceFor(s, o, ItemsAt(s, o, ids).value))]);
    }
  }

  lemma OnlyTablesMatter(s: FulfillmentState, t: FulfillmentState, u: FulfillmentState)
    requires ValidTables(t) && UnitsConserved(s, t) && u.stock == t.stock && u.reservations == t.reservations
    ensures ValidTables(u) && UnitsConserved(s, u)
  {
  }

  // ---- Whole runs ----

  function RunStock(s: FulfillmentState, ops: seq<StockOp>): FulfillmentState {
    if ops == [] then s else Applied(RunStock(s, ops[..|ops| - 1]), ops[|ops| - 1])
  }

  function TotalBroughtIn(s: FulfillmentState, ops: seq<StockOp>, p: ProductCode): nat {
    if ops == [] then 0
    else TotalBroughtIn(s, ops[..|ops| - 1], p) + BroughtIn(RunStock(s, ops[..|ops| - 1]), ops[|ops| - 1], p)
  }

  /** Over any run of any requests, of any number of orders: each counter is the sum of the reserved units of ALL
      orders, `0 <= reservedUnits <= units`, and units in stock plus units consumed are the initial units plus the
      replenished ones. So `reconstitute` never refuses a row that a run has written. */
  lemma {:induction false} StockOverRuns(s: FulfillmentState, ops: seq<StockOp>)
    requires ValidTables(s)
    ensures var t := RunStock(s, ops);
            && ValidTables(t)
            && t.stock.Keys == s.stock.Keys
            && forall p :: p in s.stock ==>
                             && 0 <= t.stock[p].reservedUnits
                                == TotalWith(t.reservations, p, Reserved) <= t.stock[p].units
                             && t.stock[p].units + TotalWith(t.reservations, p, Consumed)
                                == s.stock[p].units + TotalWith(s.reservations, p, Consumed) + TotalBroughtIn(s, ops, p)
  {
    if ops != [] {
      StockOverRuns(s, ops[..|ops| - 1]);
      TransactionKeepsTables(RunStock(s, ops[..|ops| - 1]), ops[|ops| - 1]);
    }
  }
}
