/** Order-uniform reservations: one order's reservations, across all items, are always in the same status,
    and `stock.release` and `despatch.create` are arbitrated by who comes first. */
module FulfillmentPhases {
  import opened Kernel
  import opened Stock
  import opened OrderStock
  import opened FulfillmentTables
  import opened FulfillmentInvariants

  /** `None`: no reservation; `Some(st)`: there are some, on every item, and all of them are in `st`. */
  ghost predicate InPhase(table: ReservationTable, o: OrderId, phase: Option<ReservationStatus>) {
    match phase
    case None => forall key :: key in table ==> key.0 != o
    case Some(status) =>
      && (exists key :: key in table && key.0 == o)
      && forall key :: key in table && key.0 == o ==> forall i :: 0 <= i < |table[key]| ==>
         table[key][i].status == status
  }

  /** An order's reservations lie on items that its lines name. */
  ghost predicate OnLines(table: ReservationTable, o: OrderId, lines: seq<ReserveLine>) {
    forall key :: key in table && key.0 == o ==> key.1 in ProductsOf(lines)
  }

  ghost predicate SameItemsFor(a: ReservationTable, b: ReservationTable, o: OrderId) {
    forall key: (OrderId, ProductCode) :: key.0 == o ==> (key in a <==> key in b)
  }

  /** A transaction of order `o` changes nothing that belongs to another order, except shared counters. */
  ghost predicate OthersUntouched(s: FulfillmentState, t: FulfillmentState, o: OrderId) {
    && (forall key: (OrderId, ProductCode) :: key.0 != o ==>
                                                (key in t.reservations <==> key in s.reservations)
                                                && (key in s.reservations ==>
                                                    t.reservations[key] == s.reservations[key]))
    && (forall other :: other != o ==> StreamOf(t.outbox, other) == StreamOf(s.outbox, other))
    && (forall other :: other != o ==> (other in t.despatches <==> other in s.despatches)
                                       && (other in s.despatches ==> t.despatches[other] == s.despatches[other]))
  }

  lemma PhaseOfAnotherOrder(s: FulfillmentState, t: FulfillmentState, o: OrderId, other: OrderId,
                            phase: Option<ReservationStatus>)
    requires OthersUntouched(s, t, o) && other != o && InPhase(s.reservations, other, phase)
    ensures InPhase(t.reservations, other, phase)
  {
    if phase.Some? {
      var key :| key in s.reservations && key.0 == other;
      assert key in t.reservations;
    }
  }

  // ---- From table phases to loaded rows and back ----

  lemma LoadedInPhase(s: FulfillmentState, o: OrderId, status: ReservationStatus, other: ReservationStatus)
    requires TableOk(s) && InPhase(s.reservations, o, Some(status))
    ensures OrderItems(s, o).Some? && ReservedProducts(s.reservations, o) != {}
    ensures AnyWithStatus(OrderItems(s, o).value, o, other) <==> other == status
  {
    OrderItemsAreLoaded(s, o);
    var ps := Ascending(ReservedProducts(s.reservations, o));
    var snaps := OrderItems(s, o).value;
    var key :| key in s.reservations && key.0 == o;
    assert key.1 in ReservedProducts(s.reservations, o);
    assert key.1 in ps;
    var i :| 0 <= i < |ps| && ps[i] == key.1;
    assert snaps[i].rows == s.reservations[key];
    assert snaps[i].rows[0].order == o && snaps[i].rows[0].status == status;
    assert HasStatus(snaps[i].rows, o, status);
    forall j | 0 <= j < |snaps| && HasStatus(snaps[j].rows, o, other) ensures other == status {
      var r :| 0 <= r < |snaps[j].rows| && snaps[j].rows[r].order == o && snaps[j].rows[r].status == other;
      assert (o, ps[j]) in s.reservations && snaps[j].rows == s.reservations[(o, ps[j])];
    }
  }

  /** A save of one order's items leaves every other order alone and appends the facts to this order's stream. */
  lemma SaveTouchesOneOrder(s: FulfillmentState, o: OrderId, ps: seq<ProductCode>, snaps: seq<ItemSnapshot>,
                            facts: seq<Fact>)
    requires SavesItems(s, o, ps, snaps)
    ensures var t := Saved(s, o, snaps, facts);
            OthersUntouched(s, t, o) && StreamOf(t.outbox, o) == StreamOf(s.outbox, o) + facts
  {
    SavedLookups(s, o, ps, snaps, facts);
    if facts == [] {
      assert StreamOf(s.outbox, o) + facts == StreamOf(s.outbox, o);
    }
  }

  /** Settling every item of an order that is all `reserved` moves the whole order at once. */
  lemma SettledPhase(s: FulfillmentState, o: OrderId, how: Settlement, facts: seq<Fact>)
    requires TableOk(s) && InPhase(s.reservations, o, Some(Reserved))
    ensures OrderItems(s, o).Some?
    ensures var snaps := OrderItems(s, o).value;
            var t := Saved(s, o, SettledItems(snaps, o, how, |snaps|), facts);
            && InPhase(t.reservations, o, Some(if how.SettleReleased? then Released else Consumed))
            && SameItemsFor(s.reservations, t.reservations, o)
            && StreamOf(t.outbox, o) == StreamOf(s.outbox, o) + facts
            && OthersUntouched(s, t, o)
  {
    OrderItemsAreLoaded(s, o);
    var ps := Ascending(ReservedProducts(s.reservations, o));
    var snaps := OrderItems(s, o).value;
    var settled := SettledItems(snaps, o, how, |snaps|);
    SettledRowsShape(s, o, how);
    SaveTouchesOneOrder(s, o, ps, settled, facts);
    SettledKeys(s, o, how, ps, settled, facts);
    var some :| some in s.reservations && some.0 == o;
    assert some in Saved(s, o, settled, facts).reservations;
  }

  lemma SettledKeys(s: FulfillmentState, o: OrderId, how: Settlement, ps: seq<ProductCode>, settled: seq<ItemSnapshot>,
                    facts: seq<Fact>)
    requires SavesItems(s, o, ps, settled) && ps == Ascending(ReservedProducts(s.reservations, o))
    requires forall i :: 0 <= i < |ps| ==>
                           (o, ps[i]) in s.reservations
                           && forall j :: 0 <= j < |settled[i].rows| ==>
                                            settled[i].rows[j].status == if how.SettleReleased? then Released
                                              else Consumed
    ensures var t := Saved(s, o, settled, facts);
            && SameItemsFor(s.reservations, t.reservations, o)
            && forall key :: key in t.reservations && key.0 == o ==>
                               forall i :: 0 <= i < |t.reservations[key]| ==>
                                             t.reservations[key][i].status == if how.SettleReleased? then Released
                                               else Consumed
  {
    var t := Saved(s, o, settled, facts);
    SavedLookups(s, o, ps, settled, facts);
    forall key: (OrderId, ProductCode) | key.0 == o ensures key in s.reservations <==> key in t.reservations {
      if key in s.reservations {
        assert key.1 in ReservedProducts(s.reservations, o);
        assert key.1 in ps;
      }
      if key.1 in ps {
        var i :| 0 <= i < |ps| && ps[i] == key.1;
      }
    }
    forall key | key in t.reservations && key.0 == o
      ensures forall i :: 0 <= i < |t.reservations[key]| ==>
                            t.reservations[key][i].status == if how.SettleReleased? then Released else Consumed
    {
      assert key.1 in ReservedProducts(s.reservations, o);
      assert key.1 in ps;
      var j :| 0 <= j < |ps| && ps[j] == key.1;
      assert RowsAt(t.reservations, o, ps[j]) == settled[j].rows;
    }
  }

  lemma SettledRowsShape(s: FulfillmentState, o: OrderId, how: Settlement)
    requires TableOk(s) && InPhase(s.reservations, o, Some(Reserved))
    ensures OrderItems(s, o).Some?
    ensures var ps := Ascending(ReservedProducts(s.reservations, o));
            var settled := SettledItems(OrderItems(s, o).value, o, how, |ps|);
            && |OrderItems(s, o).value| == |ps|
            && SavesItems(s, o, ps, settled)
            && forall i :: 0 <= i < |ps| ==>
                             (o, ps[i]) in s.reservations
                             && forall j :: 0 <= j < |settled[i].rows| ==>
                                              settled[i].rows[j].status == if how.SettleReleased? then Released
                                                else Consumed
  {
    OrderItemsAreLoaded(s, o);
    var ps := Ascending(ReservedProducts(s.reservations, o));
    var settled := SettledItems(OrderItems(s, o).value, o, how, |ps|);
    forall i | 0 <= i < |ps|
      ensures settled[i].product == ps[i] && |settled[i].rows| == |RowsAt(s.reservations, o, ps[i])|
      ensures forall j :: 0 <= j < |settled[i].rows| ==>
                            && settled[i].rows[j].order == o && settled[i].rows[j].product == ps[i]
                            && settled[i].rows[j].status == if how.SettleReleased? then Released else Consumed
    {
      LoadedRowsBelong(s, o, ps[i]);
      assert settled[i] == SettledItem(LoadedItem(s, o, ps[i]), o, how);
      assert s.reservations[(o, ps[i])] == RowsAt(s.reservations, o, ps[i]);
    }
  }

  // ---- Reserve ----

  lemma ReserveOnceReserved(s: FulfillmentState, o: OrderId, lines: seq<ReserveLine>, phase: ReservationStatus)
    requires TableOk(s) && lines != [] && InPhase(s.reservations, o, Some(phase)) && OnLines(s.reservations, o, lines)
    ensures ReserveTx(s, o, lines) == (s, Ok(AlreadyReserved))
  {
    var key :| key in s.reservations && key.0 == o;
    var ps := KnownProducts(s, lines);
    assert key.1 in ps;
    var i :| 0 <= i < |ps| && ps[i] == key.1;
    assert RowsAt(s.reservations, o, ps[i]) == s.reservations[key];
  }

  /** The first decision on an order: refused without any row, or reserved on every line; one fact either way
      unless no product is known. */
  ghost predicate DecidedFirst(s: FulfillmentState, t: FulfillmentState, o: OrderId, lines: seq<ReserveLine>,
                               reply: Result<StockReply, StockError>) {
    && OthersUntouched(s, t, o) && t.despatches == s.despatches
    && (match reply
        case Err(e) => e == NoKnownStockItem && t == s
        case Ok(ShortOf(shortages)) =>
          && t.reservations == s.reservations && shortages != []
          && (forall x :: x in shortages ==>
                exists k :: 0 <= k < |lines| && x.product == lines[k].product && x.requested == lines[k].units)
          && StreamOf(t.outbox, o) == StreamOf(s.outbox, o)
             + [StockRejectedFact(shortages, if ProductsOf(lines) <= s.stock.Keys then InsufficientStock
                                  else UnknownProduct)]
        case Ok(Accepted(refs)) =>
          && InPhase(t.reservations, o, Some(Reserved)) && OnLines(t.reservations, o, lines)
          && StreamOf(t.outbox, o) == StreamOf(s.outbox, o) + [StockReservedFact(refs)] && refs == LineRefs(lines)
        case _ => false)
  }

  lemma ReserveFirst(s: FulfillmentState, o: OrderId, lines: seq<ReserveLine>)
    requires TableOk(s) && lines != [] && InPhase(s.reservations, o, None)
    ensures DecidedFirst(s, ReserveTx(s, o, lines).0, o, lines, ReserveTx(s, o, lines).1)
  {
    var ps := KnownProducts(s, lines);
    assert forall i :: 0 <= i < |ps| ==> RowsAt(s.reservations, o, ps[i]) == [];
    var outcome := Decide(AvailabilityOf(s, ps), lines);
    AcceptedIffEveryProductFits(AvailabilityOf(s, ps), lines);
    if outcome.RejectedReserve? {
      RefusedFirst(s, o, lines);
    } else {
      AcceptedPhase(s, o, lines, [StockReservedFact(outcome.reservations)]);
    }
  }

  lemma AllKnownIff(s: FulfillmentState, lines: seq<ReserveLine>)
    ensures (exists k :: 0 <= k < |lines| && lines[k].product !in AvailabilityOf(s, KnownProducts(s, lines))) <==>
            !(ProductsOf(lines) <= s.stock.Keys)
  {
    var available := AvailabilityOf(s, KnownProducts(s, lines));
    assert forall p :: p in available <==> p in KnownProducts(s, lines);
    assert forall k :: 0 <= k < |lines| ==> lines[k].product in ProductsOf(lines);
    if !(ProductsOf(lines) <= s.stock.Keys) {
      var p :| p in ProductsOf(lines) && p !in s.stock.Keys;
      var k :| 0 <= k < |lines| && lines[k].product == p;
    }
  }

  lemma RefusedFirst(s: FulfillmentState, o: OrderId, lines: seq<ReserveLine>)
    requires lines != [] && InPhase(s.reservations, o, None)
    requires Decide(AvailabilityOf(s, KnownProducts(s, lines)), lines).RejectedReserve?
    ensures DecidedFirst(s, ReserveTx(s, o, lines).0, o, lines, ReserveTx(s, o, lines).1)
  {
    var ps := KnownProducts(s, lines);
    var snaps := LoadedItems(s, o, ps);
    assert forall i :: 0 <= i < |ps| ==> RowsAt(s.reservations, o, ps[i]) == [];
    var outcome := Decide(AvailabilityOf(s, ps), lines);
    AcceptedIffEveryProductFits(AvailabilityOf(s, ps), lines);
    RefusalNamesTheLines(AvailabilityOf(s, ps), lines);
    AllKnownIff(s, lines);
    NothingToSave(s, o, snaps, [StockRejectedFact(outcome.shortages, outcome.reason)]);
  }

  lemma NothingToSave(s: FulfillmentState, o: OrderId, snaps: seq<ItemSnapshot>, facts: seq<Fact>)
    requires facts != [] && forall i :: 0 <= i < |snaps| ==> snaps[i].rows == []
    ensures var t := Saved(s, o, snaps, facts);
            && t.reservations == s.reservations && OthersUntouched(s, t, o)
            && StreamOf(t.outbox, o) == StreamOf(s.outbox, o) + facts
  {
    EmptyRowsSaveNothing(s.reservations, o, snaps);
  }

  lemma {:induction false} EmptyRowsSaveNothing(table: ReservationTable, o: OrderId, snaps: seq<ItemSnapshot>)
    requires forall i :: 0 <= i < |snaps| ==> snaps[i].rows == []
    ensures SavedTable(table, o, snaps) == table
  {
    if snaps != [] {
      EmptyRowsSaveNothing(table, o, snaps[..|snaps| - 1]);
    }
  }

  lemma AcceptedRowsShape(s: FulfillmentState, o: OrderId, lines: seq<ReserveLine>)
    requires InPhase(s.reservations, o, None)
    ensures var ps := KnownProducts(s, lines);
            var reserved := ReservedItems(LoadedItems(s, o, ps), o, lines);
            && SavesItems(s, o, ps, reserved)
            && forall i :: 0 <= i < |ps| ==>
                             reserved[i].rows != [] && forall j :: 0 <= j < |reserved[i].rows| ==>
                               reserved[i].rows[j].status == Reserved
  {
    var ps := KnownProducts(s, lines);
    var reserved := ReservedItems(LoadedItems(s, o, ps), o, lines);
    forall i | 0 <= i < |ps|
      ensures reserved[i].product == ps[i] && reserved[i].rows != []
      ensures forall j :: 0 <= j < |reserved[i].rows| ==>
                            reserved[i].rows[j].order == o && reserved[i].rows[j].product == ps[i]
                              && reserved[i].rows[j].status == Reserved
    {
      assert ps[i] in ps;
      var k :| 0 <= k < |lines| && lines[k].product == ps[i];
      RowsForHaveRequestedUnits(lines, o, ps[i]);
      assert LoadedItem(s, o, ps[i]).rows == [] && [] + RowsFor(lines, o, ps[i]) == RowsFor(lines, o, ps[i]);
    }
  }

  lemma AcceptedPhase(s: FulfillmentState, o: OrderId, lines: seq<ReserveLine>, facts: seq<Fact>)
    requires TableOk(s) && lines != [] && InPhase(s.reservations, o, None)
    requires Decide(AvailabilityOf(s, KnownProducts(s, lines)), lines).ReservedAll?
    ensures var t := Saved(s, o, ReservedItems(LoadedItems(s, o, KnownProducts(s, lines)), o, lines), facts);
            && InPhase(t.reservations, o, Some(Reserved)) && OnLines(t.reservations, o, lines)
            && StreamOf(t.outbox, o) == StreamOf(s.outbox, o) + facts
            && OthersUntouched(s, t, o)
  {
    var ps := KnownProducts(s, lines);
    var reserved := ReservedItems(LoadedItems(s, o, ps), o, lines);
    var t := Saved(s, o, reserved, facts);
    AcceptedRowsShape(s, o, lines);
    SaveTouchesOneOrder(s, o, ps, reserved, facts);
    SavedLookups(s, o, ps, reserved, facts);
    forall key | key in t.reservations && key.0 == o
      ensures key.1 in ps && forall i :: 0 <= i < |t.reservations[key]| ==> t.reservations[key][i].status == Reserved
    {
      assert key.1 in ps;
      var j :| 0 <= j < |ps| && ps[j] == key.1;
      assert RowsAt(t.reservations, o, ps[j]) == reserved[j].rows;
    }
    FirstLineIsReserved(s, o, lines, ps, reserved, facts);
  }

  /** An accepted request leaves no product of its lines out, so every one of them is stocked. */
  lemma AcceptedItems(s: FulfillmentState, o: OrderId, lines: seq<ReserveLine>)
    requires lines != [] && InPhase(s.reservations, o, None) && ReserveTx(s, o, lines).1.Ok?
    requires ReserveTx(s, o, lines).1.value.Accepted?
    ensures ReservedProducts(ReserveTx(s, o, lines).0.reservations, o) == ProductsOf(lines) <= s.stock.Keys
  {
    var ps := KnownProducts(s, lines);
    AcceptedRowsShape(s, o, lines);
    AcceptedProductsAreKnown(s, lines);
    AcceptedKeys(s, o, lines, ps, ReservedItems(LoadedItems(s, o, ps), o, lines), [StockReservedFact(LineRefs(lines))]);
  }

  lemma AcceptedProductsAreKnown(s: FulfillmentState, lines: seq<ReserveLine>)
    requires lines != [] && Decide(AvailabilityOf(s, KnownProducts(s, lines)), lines).ReservedAll?
    ensures forall p :: p in ProductsOf(lines) <==> p in KnownProducts(s, lines)
  {
    AcceptedIffEveryProductFits(AvailabilityOf(s, KnownProducts(s, lines)), lines);
  }

  lemma AcceptedKeys(s: FulfillmentState, o: OrderId, lines: seq<ReserveLine>, ps: seq<ProductCode>,
                     reserved: seq<ItemSnapshot>,
                     facts: seq<Fact>)
    requires SavesItems(s, o, ps, reserved) && InPhase(s.reservations, o, None)
    requires forall p :: p in ProductsOf(lines) <==> p in ps
    requires forall i :: 0 <= i < |ps| ==> reserved[i].rows != []
    ensures ReservedProducts(Saved(s, o, reserved, facts).reservations, o) == ProductsOf(lines) <= s.stock.Keys
  {
    var t := Saved(s, o, reserved, facts);
    SavedLookups(s, o, ps, reserved, facts);
    forall p | p in ProductsOf(lines) ensures p in s.stock && (o, p) in t.reservations {
      var j :| 0 <= j < |ps| && ps[j] == p;
    }
    forall p | (o, p) in t.reservations ensures p in ProductsOf(lines) {
      assert p in ps;
    }
  }

  lemma FirstLineIsReserved(s: FulfillmentState, o: OrderId, lines: seq<ReserveLine>, ps: seq<ProductCode>,
                            reserved: seq<ItemSnapshot>,
                            facts: seq<Fact>)
    requires SavesItems(s, o, ps, reserved) && ps == KnownProducts(s, lines) && lines != []
    requires forall i :: 0 <= i < |ps| ==> reserved[i].rows != []
    requires Decide(AvailabilityOf(s, ps), lines).ReservedAll?
    ensures (o, lines[0].product) in Saved(s, o, reserved, facts).reservations
  {
    AcceptedIffEveryProductFits(AvailabilityOf(s, ps), lines);
    SavedLookups(s, o, ps, reserved, facts);
    assert lines[0].product in AvailabilityOf(s, ps);
    assert lines[0].product in ps;
    var z :| 0 <= z < |ps| && ps[z] == lines[0].product;
  }

  // ---- Release and despatch: the arbitration ----

  /** What `stock.release` does in each phase. */
  lemma ReleaseByPhase(s: FulfillmentState, o: OrderId, reason: StockReleaseReason, phase: Option<ReservationStatus>)
    requires TableOk(s) && InPhase(s.reservations, o, phase)
    ensures var (t, reply) := ReleaseTx(s, o, reason);
            match phase
            case None => t == s && reply == Ok(AlreadyReleased)
            case Some(Released) => t == s && reply == Ok(AlreadyReleased)
            case Some(Consumed) => t == s && reply == Err(ReservationTerminal(Consumed))
            case Some(Reserved) =>
              && reply.Ok? && reply.value.ReleasedNow? && reply.value.released != []
              && InPhase(t.reservations, o, Some(Released))
              && SameItemsFor(s.reservations, t.reservations, o)
              && StreamOf(t.outbox, o) == StreamOf(s.outbox, o) + [StockReleasedFact(reply.value.released, reason)]
              && OthersUntouched(s, t, o) && t.despatches == s.despatches
  {
    if phase.Some? {
      LoadedInPhase(s, o, phase.value, Consumed);
      LoadedInPhase(s, o, phase.value, Reserved);
      var snaps := OrderItems(s, o).value;
      NothingHeldIff(snaps, o);
      if phase.value == Reserved {
        SettledPhase(s, o, SettleReleased, [StockReleasedFact(AllHeldRefs(snaps, o), reason)]);
      }
    } else {
      assert ReservedProducts(s.reservations, o) == {};
    }
  }

  /** What `despatch.create` does in each phase; a despatch row exists exactly in phase `Consumed`. */
  lemma DespatchByPhase(s: FulfillmentState, o: OrderId, phase: Option<ReservationStatus>)
    requires TableOk(s) && InPhase(s.reservations, o, phase) && (o in s.despatches <==> phase == Some(Consumed))
    ensures var (t, reply) := DespatchTx(s, o);
            match phase
            case None => t == s && reply == Err(NoReservedStockForDespatch)
            case Some(Released) => t == s && reply == Err(NoReservedStockForDespatch)
            case Some(Consumed) => t == s && reply == Ok(DespatchOf(s.despatches[o], false))
            case Some(Reserved) =>
              && reply.Ok? && reply.value.DespatchOf? && reply.value.created
              && InPhase(t.reservations, o, Some(Consumed)) && o in t.despatches
              && SameItemsFor(s.reservations, t.reservations, o)
              && StreamOf(t.outbox, o) == StreamOf(s.outbox, o) + [DespatchFact(t.despatches[o])]
              && OthersUntouched(s, t, o)
  {
    if phase.Some? {
      LoadedInPhase(s, o, phase.value, Reserved);
      LoadedInPhase(s, o, phase.value, Consumed);
      LoadedInPhase(s, o, phase.value, Released);
      if phase.value == Reserved {
        DespatchReserved(s, o);
      }
    } else {
      assert ReservedProducts(s.reservations, o) == {};
    }
  }

  lemma DespatchReserved(s: FulfillmentState, o: OrderId)
    requires TableOk(s) && InPhase(s.reservations, o, Some(Reserved)) && o !in s.despatches
    ensures OrderItems(s, o).Some?
    ensures var t := DespatchedState(s, o, OrderItems(s, o).value);
            && InPhase(t.reservations, o, Some(Consumed)) && o in t.despatches
            && SameItemsFor(s.reservations, t.reservations, o)
            && StreamOf(t.outbox, o) == StreamOf(s.outbox, o) + [DespatchFact(t.despatches[o])]
            && OthersUntouched(s, t, o)
  {
    OrderItemsAreLoaded(s, o);
    SettledPhase(s, o, SettleConsumed, [DespatchFact(AdviceFor(s, o, OrderItems(s, o).value))]);
  }

  /** Exactly one of a release and a despatch takes a reservation, whichever transaction comes first;
      the loser is refused or empty, changes nothing and records no fact. */
  lemma OneLockArbitrates(s: FulfillmentState, o: OrderId, reason: StockReleaseReason)
    requires ValidTables(s) && InPhase(s.reservations, o, Some(Reserved)) && o !in s.despatches
    ensures var released := ReleaseTx(s, o, reason).0;
            && InPhase(released.reservations, o, Some(Released))
            && DespatchTx(released, o) == (released, Err(NoReservedStockForDespatch))
    ensures var despatched := DespatchTx(s, o).0;
            && InPhase(despatched.reservations, o, Some(Consumed))
            && ReleaseTx(despatched, o, reason) == (despatched, Err(ReservationTerminal(Consumed)))
  {
    ReleaseKeepsTables(s, o, reason);
    DespatchKeepsTables(s, o);
    ReleaseByPhase(s, o, reason, Some(Reserved));
    DespatchByPhase(ReleaseTx(s, o, reason).0, o, Some(Released));
    DespatchByPhase(s, o, Some(Reserved));
    ReleaseByPhase(DespatchTx(s, o).0, o, reason, Some(Consumed));
  }
}
