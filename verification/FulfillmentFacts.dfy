/** Units, product by product: what a transaction reserves is what the lines ask for, nothing that follows loses a unit,
    and every fact counts the same units. Despatches are numbered once. */
module FulfillmentFacts {
  import opened Kernel
  import opened Stock
  import opened OrderStock
  import opened FulfillmentTables
  import opened FulfillmentInvariants
  import opened FulfillmentPhases

  // ---- Units ----

  /** The units of some rows, in whatever status. */
  function UnitsOf(rows: seq<ReservationRow>): nat {
    if rows == [] then 0 else UnitsOf(rows[..|rows| - 1]) + rows[|rows| - 1].units
  }

  /** The units that the order has on a product, in whatever status. */
  function UnitsAt(table: ReservationTable, o: OrderId, p: ProductCode): nat {
    UnitsOf(RowsAt(table, o, p))
  }

  /** The units of one product that a list of references names. */
  function RefUnits(refs: seq<ReservationRef>, p: ProductCode): nat {
    if refs == [] then 0
    else RefUnits(refs[..|refs| - 1], p) + if refs[|refs| - 1].product == p then refs[|refs| - 1].units else 0
  }

  lemma {:induction false} RefUnitsAdd(a: seq<ReservationRef>, b: seq<ReservationRef>, p: ProductCode)
    ensures RefUnits(a + b, p) == RefUnits(a, p) + RefUnits(b, p)
  {
    if b == [] {
      assert a + b == a;
    } else {
      RefUnitsAdd(a, b[..|b| - 1], p);
      assert (a + b)[..|a + b| - 1] == a + b[..|b| - 1];
    }
  }

  /** The rows of an accepted request have the units of its lines. */
  lemma {:induction false} RowsForUnits(lines: seq<ReserveLine>, o: OrderId, p: ProductCode)
    ensures UnitsOf(RowsFor(lines, o, p)) == RequestedOf(lines, p)
  {
    if lines != [] {
      var init := lines[..|lines| - 1];
      RowsForUnits(init, o, p);
      var rows := RowsFor(lines, o, p);
      if lines[|lines| - 1].product == p {
        assert rows[..|rows| - 1] == RowsFor(init, o, p);
      } else {
        assert rows == RowsFor(init, o, p);
      }
    }
  }

  lemma {:induction false} MovedUnits(rows: seq<ReservationRow>, o: OrderId, to: ReservationStatus)
    ensures UnitsOf(Moved(rows, o, to)) == UnitsOf(rows)
  {
    if rows != [] {
      MovedUnits(rows[..|rows| - 1], o, to);
      assert Moved(rows, o, to)[..|rows| - 1] == Moved(rows[..|rows| - 1], o, to);
    }
  }

  /** What is reported of reserved rows of one product are their units. */
  lemma {:induction false} HeldRefsUnits(rows: seq<ReservationRow>, o: OrderId, q: ProductCode, p: ProductCode)
    requires forall i :: 0 <= i < |rows| ==> IsHeldFor(rows[i], o) && rows[i].product == q
    ensures RefUnits(HeldRefs(rows, o), p) == if p == q then UnitsOf(rows) else 0
  {
    if rows != [] {
      var init, last := rows[..|rows| - 1], rows[|rows| - 1];
      HeldRefsUnits(init, o, q, p);
      RefUnitsAdd(HeldRefs(init, o), [RefOf(last)], p);
      assert [RefOf(last)][..0] == [];
    }
  }

  /** Over several items, each product once. */
  lemma {:induction false} AllHeldRefsUnits(snaps: seq<ItemSnapshot>, o: OrderId, p: ProductCode)
    requires DistinctProducts(snaps)
    requires forall i, j :: 0 <= i < |snaps| && 0 <= j < |snaps[i].rows| ==>
                              IsHeldFor(snaps[i].rows[j], o) && snaps[i].rows[j].product == snaps[i].product
    ensures forall i :: 0 <= i < |snaps| && snaps[i].product == p ==>
                          RefUnits(AllHeldRefs(snaps, o), p) == UnitsOf(snaps[i].rows)
    ensures (forall i :: 0 <= i < |snaps| ==> snaps[i].product != p) ==> RefUnits(AllHeldRefs(snaps, o), p) == 0
  {
    if snaps != [] {
      var init, last := snaps[..|snaps| - 1], snaps[|snaps| - 1];
      AllHeldRefsUnits(init, o, p);
      HeldRefsUnits(last.rows, o, last.product, p);
      RefUnitsAdd(AllHeldRefs(init, o), HeldRefs(last.rows, o), p);
      assert forall i :: 0 <= i < |init| ==> init[i] == snaps[i];
      if last.product == p {
        assert forall i :: 0 <= i < |init| ==> init[i].product != p;
      }
    }
  }

  // ---- The transactions ----

  /** An accepted first request reserves exactly the units of its lines, on every product. */
  lemma ReservedUnits(s: FulfillmentState, o: OrderId, lines: seq<ReserveLine>)
    requires lines != [] && InPhase(s.reservations, o, None) && ReserveTx(s, o, lines).1.Ok?
    requires ReserveTx(s, o, lines).1.value.Accepted?
    ensures forall p :: UnitsAt(ReserveTx(s, o, lines).0.reservations, o, p) == RequestedOf(lines, p)
  {
    var ps := KnownProducts(s, lines);
    var reserved := ReservedItems(LoadedItems(s, o, ps), o, lines);
    AcceptedRowsShape(s, o, lines);
    AcceptedProductsAreKnown(s, lines);
    SavedUnits(s, o, lines, ps, reserved, [StockReservedFact(LineRefs(lines))]);
  }

  lemma SavedUnits(s: FulfillmentState, o: OrderId, lines: seq<ReserveLine>, ps: seq<ProductCode>,
                   reserved: seq<ItemSnapshot>, facts: seq<Fact>)
    requires SavesItems(s, o, ps, reserved) && InPhase(s.reservations, o, None)
    requires forall p :: p in ProductsOf(lines) <==> p in ps
    requires reserved == ReservedItems(LoadedItems(s, o, ps), o, lines)
    ensures forall p :: UnitsAt(Saved(s, o, reserved, facts).reservations, o, p) == RequestedOf(lines, p)
  {
    var t := Saved(s, o, reserved, facts);
    SavedLookups(s, o, ps, reserved, facts);
    forall p ensures UnitsAt(t.reservations, o, p) == RequestedOf(lines, p) {
      RowsForUnits(lines, o, p);
      if p in ps {
        var i :| 0 <= i < |ps| && ps[i] == p;
        assert RowsAt(t.reservations, o, p) == [] + RowsFor(lines, o, p) == RowsFor(lines, o, p);
      } else {
        RowsForHaveRequestedUnits(lines, o, p);
        assert RowsFor(lines, o, p) == [];
      }
    }
  }

  /** Settling an order's items loses no unit and reports all of them. */
  lemma SettledUnits(s: FulfillmentState, o: OrderId, how: Settlement, facts: seq<Fact>)
    requires TableOk(s) && InPhase(s.reservations, o, Some(Reserved))
    ensures OrderItems(s, o).Some?
    ensures var snaps := OrderItems(s, o).value;
            var t := Saved(s, o, SettledItems(snaps, o, how, |snaps|), facts);
            forall p :: UnitsAt(t.reservations, o, p) == UnitsAt(s.reservations, o, p)
                                                      == RefUnits(AllHeldRefs(snaps, o), p)
  {
    OrderItemsAreLoaded(s, o);
    SettledRowsShape(s, o, how);
    var ps := Ascending(ReservedProducts(s.reservations, o));
    var snaps := OrderItems(s, o).value;
    var settled := SettledItems(snaps, o, how, |snaps|);
    var t := Saved(s, o, settled, facts);
    SavedLookups(s, o, ps, settled, facts);
    forall p ensures UnitsAt(t.reservations, o, p) == UnitsAt(s.reservations, o, p)
      == RefUnits(AllHeldRefs(snaps, o), p) {
      HeldUnitsReported(s, o, p);
      if p in ps {
        var i :| 0 <= i < |ps| && ps[i] == p;
        MovedUnits(snaps[i].rows, o, if how.SettleReleased? then Released else Consumed);
        assert settled[i] == SettledItem(snaps[i], o, how);
      }
    }
  }

  lemma HeldUnitsReported(s: FulfillmentState, o: OrderId, p: ProductCode)
    requires TableOk(s) && InPhase(s.reservations, o, Some(Reserved)) && OrderItems(s, o).Some?
    ensures RefUnits(AllHeldRefs(OrderItems(s, o).value, o), p) == UnitsAt(s.reservations, o, p)
  {
    OrderItemsAreLoaded(s, o);
    var ps := Ascending(ReservedProducts(s.reservations, o));
    var snaps := OrderItems(s, o).value;
    forall i | 0 <= i < |snaps|
      ensures snaps[i].product == ps[i]
      ensures forall j :: 0 <= j < |snaps[i].rows| ==>
                            IsHeldFor(snaps[i].rows[j], o) && snaps[i].rows[j].product == snaps[i].product
    {
      LoadedRowsBelong(s, o, ps[i]);
      assert ps[i] in ps;
      assert s.reservations[(o, ps[i])] == RowsAt(s.reservations, o, ps[i]);
    }
    AllHeldRefsUnits(snaps, o, p);
    if p in ps {
      var i :| 0 <= i < |ps| && ps[i] == p;
      assert snaps[i].product == p;
    } else {
      assert p !in ReservedProducts(s.reservations, o);
      assert forall i :: 0 <= i < |snaps| ==> snaps[i].product in ps;
    }
  }

  lemma ReleasedUnits(s: FulfillmentState, o: OrderId, reason: StockReleaseReason)
    requires TableOk(s) && InPhase(s.reservations, o, Some(Reserved))
    ensures var (t, reply) := ReleaseTx(s, o, reason);
            && reply.Ok? && reply.value.ReleasedNow?
            && forall p :: UnitsAt(t.reservations, o, p) == UnitsAt(s.reservations, o, p)
                                                         == RefUnits(reply.value.released, p)
  {
    ReleaseByPhase(s, o, reason, Some(Reserved));
    SettledUnits(s, o, SettleReleased, [StockReleasedFact(AllHeldRefs(OrderItems(s, o).value, o), reason)]);
  }

  lemma DespatchedUnits(s: FulfillmentState, o: OrderId)
    requires TableOk(s) && InPhase(s.reservations, o, Some(Reserved)) && o !in s.despatches
    ensures var t := DespatchTx(s, o).0;
            && o in t.despatches && t.despatches[o].order == o
            && forall p :: UnitsAt(t.reservations, o, p) == UnitsAt(s.reservations, o, p)
                                                         == RefUnits(t.despatches[o].lines, p)
  {
    DespatchByPhase(s, o, Some(Reserved));
    SettledUnits(s, o, SettleConsumed, [DespatchFact(AdviceFor(s, o, OrderItems(s, o).value))]);
  }

  // ---- Numbers ----

  /** Despatch references are allocated in sequence and never twice. */
  ghost predicate NumbersOk(s: FulfillmentState) {
    && (forall o :: o in s.despatches ==>
        s.despatches[o].order == o && s.despatches[o].despatchReference < s.nextDespatch)
    && (forall o, other :: o in s.despatches && other in s.despatches && o != other ==>
          s.despatches[o].despatchReference != s.despatches[other].despatchReference)
  }

  lemma OthersNumberNothing(s: FulfillmentState, op: StockOp)
    requires !op.DespatchOp?
    ensures Applied(s, op).despatches == s.despatches && Applied(s, op).nextDespatch == s.nextDespatch
  {
  }

  lemma DespatchKeepsNumbers(s: FulfillmentState, o: OrderId)
    requires NumbersOk(s)
    ensures NumbersOk(DespatchTx(s, o).0)
  {
  }

  lemma OperationKeepsNumbers(s: FulfillmentState, op: StockOp)
    requires NumbersOk(s)
    ensures NumbersOk(Applied(s, op))
  {
    if op.DespatchOp? {
      DespatchKeepsNumbers(s, op.order);
    } else {
      OthersNumberNothing(s, op);
    }
  }

  /** Over any run of any requests no two despatches share a reference. */
  lemma {:induction false} NumbersOverRuns(s: FulfillmentState, ops: seq<StockOp>)
    requires NumbersOk(s)
    ensures NumbersOk(RunStock(s, ops))
  {
    if ops != [] {
      NumbersOverRuns(s, ops[..|ops| - 1]);
      OperationKeepsNumbers(RunStock(s, ops[..|ops| - 1]), ops[|ops| - 1]);
    }
  }
}
