/** The `StockItem` aggregate and its `Reservation` entities. An item is loaded with the
    reservations of ONE order only; its counters cover every order. */
module Stock {
  import opened Kernel

  datatype ReservationStatus = Reserved | Released | Consumed

  datatype ReservationRow = ReservationRow(order: OrderId, product: ProductCode, units: Quantity,
                                           status: ReservationStatus)

  /** A stored item. A `product` code stands for the pair of company and product that keys a stock row. */
  datatype ItemSnapshot = ItemSnapshot(product: ProductCode, units: int, reservedUnits: int, rows: seq<ReservationRow>)

  datatype StockError =
    | InvalidItemSnapshot
    | InsufficientUnits(product: ProductCode, requested: nat, available: int)
    | ReservationTerminal(found: ReservationStatus)
    | FactAggregateMismatch
    | NoKnownStockItem
    | NoReservedStockForDespatch
    | ConcurrentReservationChange
    | DespatchRowMissing

  // ---- Rows ----

  /** Total units of an order's rows in one status. */
  function UnitsWith(rows: seq<ReservationRow>, o: OrderId, status: ReservationStatus): nat {
    if rows == [] then 0
    else
      var last := rows[|rows| - 1];
      UnitsWith(rows[..|rows| - 1], o, status) + if last.order == o && last.status == status then last.units else 0
  }

  predicate HasStatus(rows: seq<ReservationRow>, o: OrderId, status: ReservationStatus) {
    exists i :: 0 <= i < |rows| && rows[i].order == o && rows[i].status == status
  }

  predicate IsHeldFor(row: ReservationRow, o: OrderId) {
    row.order == o && row.status == Reserved
  }

  /** The order's `reserved` rows moved to `to`, every other row as it was. */
  function Moved(rows: seq<ReservationRow>, o: OrderId, to: ReservationStatus): (moved: seq<ReservationRow>)
    ensures |moved| == |rows|
  {
    seq(|rows|, i requires 0 <= i < |rows| => if IsHeldFor(rows[i], o) then rows[i].(status := to) else rows[i])
  }

  function RefOf(row: ReservationRow): ReservationRef {
    ReservationRef(row.product, row.units)
  }

  /** What a release or a despatch reports: one reference per `reserved` row of the order. */
  function HeldRefs(rows: seq<ReservationRow>, o: OrderId): seq<ReservationRef> {
    if rows == [] then []
    else
      var last := rows[|rows| - 1];
      HeldRefs(rows[..|rows| - 1], o) + if IsHeldFor(last, o) then [RefOf(last)] else []
  }

  lemma {:induction false} HeldRefsEmptyIff(rows: seq<ReservationRow>, o: OrderId, to: ReservationStatus)
    ensures HeldRefs(rows, o) == [] <==> !HasStatus(rows, o, Reserved)
    ensures !HasStatus(rows, o, Reserved) ==> UnitsWith(rows, o, Reserved) == 0 && Moved(rows, o, to) == rows
  {
    if rows != [] {
      var init := rows[..|rows| - 1];
      HeldRefsEmptyIff(init, o, to);
      if HasStatus(init, o, Reserved) {
        var i :| 0 <= i < |init| && init[i].order == o && init[i].status == Reserved;
        assert rows[i] == init[i];
      }
      if IsHeldFor(rows[|rows| - 1], o) {
        assert HasStatus(rows, o, Reserved);
      }
      assert forall i :: 0 <= i < |init| ==> rows[i] == init[i];
    }
  }

  // ---- What the item operations do, on snapshots ----

  function ReleasedItem(s: ItemSnapshot, o: OrderId): ItemSnapshot {
    s.(rows := Moved(s.rows, o, Released), reservedUnits := s.reservedUnits - UnitsWith(s.rows, o, Reserved))
  }

  function ConsumedItem(s: ItemSnapshot, o: OrderId): ItemSnapshot {
    s.(rows := Moved(s.rows, o, Consumed),
       units := s.units - UnitsWith(s.rows, o, Reserved),
       reservedUnits := s.reservedUnits - UnitsWith(s.rows, o, Reserved))
  }

  class Reservation {
    const order: OrderId
    const product: ProductCode
    const units: Quantity
    var status: ReservationStatus

    constructor (row: ReservationRow)
      ensures View() == row
    {
      order, product, units, status := row.order, row.product, row.units, row.status;
    }

    function View(): ReservationRow reads this {
      ReservationRow(order, product, units, status)
    }

    method Release() returns (r: Result<(), StockError>)
      modifies this
      ensures old(status) == Reserved ==> r.Ok? && status == Released
      ensures old(status) != Reserved ==> r == Err(ReservationTerminal(old(status))) && status == old(status)
    {
      if status != Reserved {
        return Err(ReservationTerminal(status));
      }
      status := Released;
      return Ok(());
    }

    method Consume() returns (r: Result<(), StockError>)
      modifies this
      ensures old(status) == Reserved ==> r.Ok? && status == Consumed
      ensures old(status) != Reserved ==> r == Err(ReservationTerminal(old(status))) && status == old(status)
    {
      if status != Reserved {
        return Err(ReservationTerminal(status));
      }
      status := Consumed;
      return Ok(());
    }
  }

  function RefsOfObjects(rs: seq<Reservation>): (refs: seq<ReservationRef>)
    ensures |refs| == |rs|
  {
    seq(|rs|, i requires 0 <= i < |rs| => ReservationRef(rs[i].product, rs[i].units))
  }

  /** Calls `Release` on each of `selected`, which are `reserved` members of `all`. */
  method ReleaseEach(selected: seq<Reservation>, all: seq<Reservation>)
    requires forall k :: 0 <= k < |selected| ==> selected[k] in all && selected[k].status == Reserved
    requires forall k, l :: 0 <= k < l < |selected| ==> selected[k] != selected[l]
    modifies all
    ensures forall r :: r in all ==> r.status == if r in selected then Released else old(r.status)
  {
    for k := 0 to |selected|
      invariant forall r :: r in all ==> r.status == if r in selected[..k] then Released else old(r.status)
    {
      assert selected[k] in all && selected[k] !in selected[..k];
      var done := selected[k].Release();
    }
    assert selected[..|selected|] == selected;
  }

  /** Calls `Consume` on each of `selected`, which are `reserved` members of `all`. */
  method ConsumeEach(selected: seq<Reservation>, all: seq<Reservation>)
    requires forall k :: 0 <= k < |selected| ==> selected[k] in all && selected[k].status == Reserved
    requires forall k, l :: 0 <= k < l < |selected| ==> selected[k] != selected[l]
    modifies all
    ensures forall r :: r in all ==> r.status == if r in selected then Consumed else old(r.status)
  {
    for k := 0 to |selected|
      invariant forall r :: r in all ==> r.status == if r in selected[..k] then Consumed else old(r.status)
    {
      assert selected[k] in all && selected[k] !in selected[..k];
      var done := selected[k].Consume();
    }
    assert selected[..|selected|] == selected;
  }

  class StockItem {
    const product: ProductCode
    var units: int
    var reservedUnits: int
    var reservations: seq<Reservation>
    var events: seq<Fact>

    /** What the reservation objects hold, kept in step by every method. */
    ghost var rows: seq<ReservationRow>

    /** The reservations are distinct objects and all of this item, so two items never share one. */
    ghost predicate Valid() reads `reservations, `rows, reservations {
      InStep() && forall i :: 0 <= i < |rows| ==> rows[i].product == product
    }

    /** What `rows` records is what the distinct reservation objects hold. */
    ghost predicate InStep() reads `reservations, `rows, reservations {
      && (forall i, j :: 0 <= i < j < |reservations| ==> reservations[i] != reservations[j])
      && |rows| == |reservations|
      && forall i :: 0 <= i < |rows| ==> rows[i] == reservations[i].View()
    }

    ghost function Snapshot(): ItemSnapshot reads `units, `reservedUnits, `rows {
      ItemSnapshot(product, units, reservedUnits, rows)
    }

    function AvailableUnits(): int reads `units, `reservedUnits {
      units - reservedUnits
    }

    constructor Empty(product: ProductCode, units: int, reservedUnits: int)
      ensures this.product == product && this.units == units && this.reservedUnits == reservedUnits
      ensures reservations == [] && events == [] && rows == []
    {
      this.product, this.units, this.reservedUnits := product, units, reservedUnits;
      reservations, events, rows := [], [], [];
    }

    /** Refuses a snapshot that already breaks F1, and looks at nothing else. */
    static method Reconstitute(s: ItemSnapshot) returns (r: Result<StockItem, StockError>)
      ensures r.Ok? <==> 0 <= s.reservedUnits <= s.units
      ensures r.Err? ==> r.error == InvalidItemSnapshot
      ensures r.Ok? ==> && fresh(r.value) && fresh(r.value.reservations) && r.value.InStep()
                        && r.value.Snapshot() == s && r.value.events == []
                        && ((forall i :: 0 <= i < |s.rows| ==> s.rows[i].product == s.product) ==> r.value.Valid())
    {
      if s.units < 0 || s.reservedUnits < 0 || s.reservedUnits > s.units {
        return Err(InvalidItemSnapshot);
      }
      var item := new StockItem.Empty(s.product, s.units, s.reservedUnits);
      for i := 0 to |s.rows|
        invariant item.InStep() && item.product == s.product && item.units == s.units
                  && item.reservedUnits == s.reservedUnits
        invariant fresh(item) && fresh(item.reservations) && item.events == []
        invariant item.rows == s.rows[..i]
      {
        var reservation := new Reservation(s.rows[i]);
        item.reservations := item.reservations + [reservation];
        item.rows := item.rows + [s.rows[i]];
      }
      assert s.rows[..|s.rows|] == s.rows;
      return Ok(item);
    }

    /** One `reserved` reservation and the counter, or `InsufficientUnits` and no change (F1). */
    method Reserve(o: OrderId, quantity: Quantity) returns (r: Result<Reservation, StockError>)
      requires Valid()
      modifies this
      ensures Valid() && events == old(events) && units == old(units)
      ensures r.Ok? <==> quantity <= old(AvailableUnits())
      ensures r.Ok? ==> && fresh(r.value) && reservations == old(reservations) + [r.value]
                        && r.value.View() == ReservationRow(o, product, quantity, Reserved)
                        && reservedUnits == old(reservedUnits) + quantity
                        && rows == old(rows) + [ReservationRow(o, product, quantity, Reserved)]
      ensures r.Err? ==> && r.error == InsufficientUnits(product, quantity, old(AvailableUnits()))
                         && reservations == old(reservations) && reservedUnits == old(reservedUnits)
                         && rows == old(rows)
    {
      if reservedUnits + quantity > units {
        return Err(InsufficientUnits(product, quantity, AvailableUnits()));
      }
      var reservation := new Reservation(ReservationRow(o, product, quantity, Reserved));
      reservations := reservations + [reservation];
      rows := rows + [reservation.View()];
      reservedUnits := reservedUnits + quantity;
      return Ok(reservation);
    }

    /** The order's `reserved` reservations, in order, and their units. */
    method SelectHeld(o: OrderId) returns (selected: seq<Reservation>, total: nat)
      requires Valid()
      ensures forall k :: 0 <= k < |selected| ==> selected[k] in reservations && selected[k].status == Reserved
      ensures forall i :: 0 <= i < |reservations| ==> (reservations[i] in selected <==> IsHeldFor(rows[i], o))
      ensures forall i, j :: 0 <= i < j < |selected| ==> selected[i] != selected[j]
      ensures RefsOfObjects(selected) == HeldRefs(rows, o) && total == UnitsWith(rows, o, Reserved)
    {
      selected, total := [], 0;
      for i := 0 to |reservations|
        invariant forall k :: 0 <= k < |selected| ==> selected[k] in reservations[..i] && selected[k].status == Reserved
        invariant forall j :: 0 <= j < |reservations| ==>
                  (reservations[j] in selected <==> j < i && IsHeldFor(rows[j], o))
        invariant forall k, l :: 0 <= k < l < |selected| ==> selected[k] != selected[l]
        invariant RefsOfObjects(selected) == HeldRefs(rows[..i], o) && total == UnitsWith(rows[..i], o, Reserved)
      {
        assert rows[..i + 1][..i] == rows[..i];
        if IsHeldFor(reservations[i].View(), o) {
          selected := selected + [reservations[i]];
          total := total + reservations[i].units;
        }
      }
      assert rows[..|reservations|] == rows;
      assert reservations[..|reservations|] == reservations;
    }

    /** Looks for one of the order's reservations in a status. */
    method FindStatus(o: OrderId, status: ReservationStatus) returns (found: bool)
      requires Valid()
      ensures found == HasStatus(rows, o, status)
    {
      for i := 0 to |reservations|
        invariant forall j :: 0 <= j < i ==> !(reservations[j].order == o && reservations[j].status == status)
      {
        if reservations[i].order == o && reservations[i].status == status {
          assert rows[i].order == o && rows[i].status == status;
          return true;
        }
      }
      return false;
    }

    method ReleaseHeld(o: OrderId) returns (moved: seq<Reservation>, total: nat)
      requires Valid()
      modifies `rows, reservations
      ensures Valid() && rows == Moved(old(rows), o, Released)
      ensures RefsOfObjects(moved) == HeldRefs(old(rows), o) && total == UnitsWith(old(rows), o, Reserved)
    {
      moved, total := SelectHeld(o);
      ReleaseEach(moved, reservations);
      rows := Moved(rows, o, Released);
    }

    method ConsumeHeld(o: OrderId) returns (moved: seq<Reservation>, total: nat)
      requires Valid()
      modifies `rows, reservations
      ensures Valid() && rows == Moved(old(rows), o, Consumed)
      ensures RefsOfObjects(moved) == HeldRefs(old(rows), o) && total == UnitsWith(old(rows), o, Reserved)
    {
      moved, total := SelectHeld(o);
      ConsumeEach(moved, reservations);
      rows := Moved(rows, o, Consumed);
    }

    /** Moves the order's `reserved` reservations to `released`; refused without any change when one is `consumed`. */
    method Release(o: OrderId) returns (r: Result<seq<Reservation>, StockError>)
      requires Valid()
      modifies this, reservations
      ensures Valid() && events == old(events) && reservations == old(reservations)
      ensures r.Err? <==> HasStatus(old(rows), o, Consumed)
      ensures r.Err? ==> r.error == ReservationTerminal(Consumed) && Snapshot() == old(Snapshot())
      ensures r.Ok? ==>
              Snapshot() == ReleasedItem(old(Snapshot()), o) && RefsOfObjects(r.value) == HeldRefs(old(rows), o)
    {
      var consumed := FindStatus(o, Consumed);
      if consumed {
        return Err(ReservationTerminal(Consumed));
      }
      var toRelease, releasedUnits := ReleaseHeld(o);
      if |toRelease| == 0 {
        HeldRefsEmptyIff(old(rows), o, Released);
        return Ok([]);
      }
      reservedUnits := reservedUnits - releasedUnits;
      return Ok(toRelease);
    }

    /** Moves the order's `reserved` reservations to `consumed`; refused without any change when one is `released`. */
    method Consume(o: OrderId) returns (r: Result<seq<Reservation>, StockError>)
      requires Valid()
      modifies this, reservations
      ensures Valid() && events == old(events) && reservations == old(reservations)
      ensures r.Err? <==> HasStatus(old(rows), o, Released)
      ensures r.Err? ==> r.error == ReservationTerminal(Released) && Snapshot() == old(Snapshot())
      ensures r.Ok? ==>
              Snapshot() == ConsumedItem(old(Snapshot()), o) && RefsOfObjects(r.value) == HeldRefs(old(rows), o)
    {
      var released := FindStatus(o, Released);
      if released {
        return Err(ReservationTerminal(Released));
      }
      var toConsume, consumedUnits := ConsumeHeld(o);
      if |toConsume| == 0 {
        HeldRefsEmptyIff(old(rows), o, Consumed);
        return Ok([]);
      }
      units := units - consumedUnits;
      reservedUnits := reservedUnits - consumedUnits;
      return Ok(toConsume);
    }

    /** More units to reserve: availability grows by the quantity, nothing reserved is touched, and F1 holds as before.
        */
    method Replenish(quantity: Quantity)
      requires Valid()
      modifies this`units
      ensures Valid() && Snapshot() == old(Snapshot()).(units := old(units) + quantity)
      ensures AvailableUnits() == old(AvailableUnits()) + quantity
      ensures old(0 <= reservedUnits <= units) ==> 0 <= reservedUnits <= units
    {
      units := units + quantity;
    }

    /** Refuses a fact that names another aggregate. */
    method RecordOrderFact(aggregate: ProductCode, fact: Fact) returns (r: Result<(), StockError>)
      modifies this`events
      ensures aggregate == product ==> r.Ok? && events == old(events) + [fact]
      ensures aggregate != product ==> r == Err(FactAggregateMismatch) && events == old(events)
    {
      if aggregate != product {
        return Err(FactAggregateMismatch);
      }
      events := events + [fact];
      return Ok(());
    }
  }
}
