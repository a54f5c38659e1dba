/** The Fulfillment command handlers: each locks and loads the items, runs the domain operation, saves. */
module FulfillmentHandlers {
  import opened Kernel
  import opened Stock
  import opened OrderStock
  import opened FulfillmentTables
  import opened FulfillmentInvariants

  class FulfillmentStore {
    var state: FulfillmentState

    constructor (state: FulfillmentState)
      ensures this.state == state
    {
      this.state := state;
    }

    /** Locks the stock rows of `ps`, in that order, and loads each with the reservations of order `o` only. */
    method LockItems(o: OrderId, ps: seq<ProductCode>) returns (items: seq<StockItem>)
      requires ValidTables(state)
      requires forall i :: 0 <= i < |ps| ==> ps[i] in state.stock
      requires forall i, j :: 0 <= i < j < |ps| ==> ps[i] != ps[j]
      ensures Loaded(items, LoadedItems(state, o, ps)) && NothingRecorded(items)
      ensures fresh(items) && fresh(ReservationsOf(items))
    {
      items := [];
      ghost var s, snaps: seq<ItemSnapshot>, made: set<object> := state, [], {};
      for i := 0 to |ps|
        invariant snaps == LoadedItems(s, o, ps[..i])
        invariant Loaded(items, snaps) && NothingRecorded(items)
        invariant MadeOf(items, made) && fresh(made)
      {
        LoadingGrows(s, o, ps, i);
        items, made := LoadNext(items, snaps, made, o, ps[i]);
        snaps := snaps + [LoadedItem(s, o, ps[i])];
      }
      assert ps[..|ps|] == ps;
    }

    method LoadNext(items: seq<StockItem>, ghost snaps: seq<ItemSnapshot>, ghost made: set<object>, o: OrderId,
                    p: ProductCode)
      returns (r: seq<StockItem>, ghost now: set<object>)
      requires ValidTables(state) && p in state.stock
      requires Loaded(items, snaps) && NothingRecorded(items) && forall i :: 0 <= i < |snaps| ==> snaps[i].product != p
      requires MadeOf(items, made)
      ensures Loaded(r, snaps + [LoadedItem(state, o, p)]) && NothingRecorded(r)
      ensures MadeOf(r, now) && made <= now && fresh(now - made)
    {
      var item := LoadItem(o, p);
      r := Extended(items, snaps, item);
      now := made + {item} + set i | 0 <= i < |item.reservations| :: item.reservations[i];
    }

    /** A stored row never fails to load. */
    method LoadItem(o: OrderId, p: ProductCode) returns (item: StockItem)
      requires ValidTables(state) && p in state.stock
      ensures fresh(item) && item.Valid() && item.Snapshot() == LoadedItem(state, o, p) && item.events == []
      ensures fresh(set i | 0 <= i < |item.reservations| :: item.reservations[i])
    {
      LoadedRowsBelong(state, o, p);
      var loaded := StockItem.Reconstitute(LoadedItem(state, o, p));
      return loaded.value;
    }

    /** Upserts the items and their reservations, then drains their facts into the outbox. */
    method SaveAll(o: OrderId, items: seq<StockItem>, ghost snaps: seq<ItemSnapshot>)
      requires Loaded(items, snaps)
      modifies this
      ensures state == Saved(old(state), o, snaps, old(Drained(items)))
    {
      var stock, table, facts := state.stock, state.reservations, [];
      for i := 0 to |items|
        invariant state == old(state)
        invariant stock == SavedStock(state.stock, snaps[..i])
        invariant table == SavedTable(state.reservations, o, snaps[..i])
        invariant facts == old(Drained(items[..i]))
      {
        assert snaps[..i + 1][..i] == snaps[..i] && items[..i + 1][..i] == items[..i];
        var item := items[i];
        assert item.Valid() && item.Snapshot() == snaps[i];
        stock := stock[item.product := StockRow(item.units, item.reservedUnits)];
        var rows := RowsOf(item);
        if |rows| > 0 {
          table := table[(o, item.product) := rows];
        }
        facts := facts + item.events;
      }
      assert snaps[..|items|] == snaps && items[..|items|] == items;
      state := state.(stock := stock, reservations := table, outbox := Recorded(state.outbox, o, facts));
    }
  }

  /** The items and their reservations are all among `made`. */
  ghost predicate MadeOf(items: seq<StockItem>, made: set<object>)
    reads items
  {
    (forall i :: 0 <= i < |items| ==> items[i] in made) && ReservationsOf(items) <= made
  }

  /** `items` with one more, whose objects are all new. */
  method Extended(items: seq<StockItem>, ghost snaps: seq<ItemSnapshot>, item: StockItem) returns (r: seq<StockItem>)
    requires Loaded(items, snaps) && NothingRecorded(items) && item.Valid() && item.events == []
    requires forall i :: 0 <= i < |snaps| ==> snaps[i].product != item.product
    ensures r == items + [item]
    ensures Loaded(r, snaps + [item.Snapshot()]) && NothingRecorded(r)
    ensures ReservationsOf(r) == ReservationsOf(items) + set i | 0 <= i < |item.reservations| :: item.reservations[i]
  {
    r := items + [item];
    assert forall i :: 0 <= i < |items| ==> r[i] == items[i];
    assert r[|items|] == item;
  }

  lemma LoadingGrows(s: FulfillmentState, o: OrderId, ps: seq<ProductCode>, i: nat)
    requires i < |ps| && forall k :: 0 <= k < |ps| ==> ps[k] in s.stock
    requires forall k, l :: 0 <= k < l < |ps| ==> ps[k] != ps[l]
    ensures LoadedItems(s, o, ps[..i + 1]) == LoadedItems(s, o, ps[..i]) + [LoadedItem(s, o, ps[i])]
    ensures forall k :: 0 <= k < i ==> LoadedItems(s, o, ps[..i])[k].product != ps[i]
  {
  }

  method RowsOf(item: StockItem) returns (rows: seq<ReservationRow>)
    requires item.Valid()
    ensures rows == item.rows
  {
    rows := [];
    for i := 0 to |item.reservations|
      invariant rows == item.rows[..i]
    {
      rows := rows + [item.reservations[i].View()];
    }
  }

  class StockReservationHandler {
    const store: FulfillmentStore

    constructor (store: FulfillmentStore)
      ensures this.store == store
    {
      this.store := store;
    }

    /** Any reservation of the order on the locked items short-circuits; otherwise all or nothing, in one transaction.
        */
    method Reserve(o: OrderId, lines: seq<ReserveLine>) returns (reply: Result<StockReply, StockError>)
      requires ValidTables(store.state) && lines != []
      modifies store
      ensures (store.state, reply) == ReserveTx(old(store.state), o, lines)
      ensures ValidTables(store.state)
    {
      ReserveKeepsTables(store.state, o, lines);
      var ps := KnownProducts(store.state, lines);
      ghost var snaps := LoadedItems(store.state, o, ps);
      KnownAreDistinct(store.state, lines);
      LoadedRowsShow(store.state, o, ps);
      var items := store.LockItems(o, ps);
      var anyLoaded := AnyReservation(items, snaps);
      if anyLoaded {
        return Ok(AlreadyReserved);
      }
      reply := ReserveAndSave(o, items, snaps, lines, AvailabilityOf(store.state, ps));
    }

    method ReserveAndSave(o: OrderId, items: seq<StockItem>, ghost snaps: seq<ItemSnapshot>, lines: seq<ReserveLine>,
                          ghost available: Availability)
      returns (reply: Result<StockReply, StockError>)
      requires Loaded(items, snaps) && NothingRecorded(items) && AvailabilityIs(snaps, available) && lines != []
      modifies store, items
      ensures match Decide(available, lines)
              case RejectedReserve(shortages, reason, carrier) =>
                if carrier.None? then
                  store.state == old(store.state) && reply == Err(NoKnownStockItem)
                else
                  && store.state == Saved(old(store.state), o, snaps, [StockRejectedFact(shortages, reason)])
                  && reply == Ok(ShortOf(shortages))
              case ReservedAll(refs, _) =>
                && store.state == Saved(old(store.state), o, ReservedItems(snaps, o, lines), [StockReservedFact(refs)])
                && reply == Ok(Accepted(refs))
    {
      var outcome := ReserveOrderStock(items, snaps, o, lines, available);
      if outcome.RejectedReserve? && outcome.rejectedCarrier.None? {
        return Err(NoKnownStockItem);
      }
      if outcome.ReservedAll? {
        store.SaveAll(o, items, ReservedItems(snaps, o, lines));
        return Ok(Accepted(outcome.reservations));
      } else {
        store.SaveAll(o, items, snaps);
        return Ok(ShortOf(outcome.shortages));
      }
    }

    /** A pre-read finds the stock rows; nothing reserved answers at once, a consumed reservation refuses. */
    method Release(o: OrderId, reason: StockReleaseReason) returns (reply: Result<StockReply, StockError>)
      requires ValidTables(store.state)
      modifies store
      ensures (store.state, reply) == ReleaseTx(old(store.state), o, reason)
      ensures ValidTables(store.state)
    {
      ReleaseKeepsTables(store.state, o, reason);
      var ids := ReservedProducts(store.state.reservations, o);
      if ids == {} {
        return Ok(AlreadyReleased);
      }
      reply := ReleaseInTransaction(o, ids, reason);
    }

    /** Everything after the unlocked read, which may be stale by the time this runs. */
    method ReleaseInTransaction(o: OrderId, ids: set<ProductCode>, reason: StockReleaseReason)
      returns (reply: Result<StockReply, StockError>)
      requires ValidTables(store.state)
      modifies store
      ensures (store.state, reply) == ReleaseAfterRead(old(store.state), o, ids, reason)
      ensures ValidTables(store.state)
    {
      ReleaseAfterReadKeepsTables(store.state, o, ids, reason);
      var ps := Ascending(ids);
      if !(forall i :: 0 <= i < |ps| ==> ps[i] in store.state.stock) {
        return Err(ConcurrentReservationChange);
      }
      ghost var snaps := LoadedItems(store.state, o, ps);
      var items := store.LockItems(o, ps);
      var outcome := ReleaseOrderStock(items, snaps, o, reason);
      if outcome.Err? {
        return Err(outcome.error);
      }
      if |outcome.value| == 0 {
        return Ok(AlreadyReleased);
      }
      store.SaveAll(o, items, SettledItems(snaps, o, SettleReleased, |items|));
      return Ok(ReleasedNow(outcome.value));
    }
  }

  lemma LoadedRowsShow(s: FulfillmentState, o: OrderId, ps: seq<ProductCode>)
    requires forall i :: 0 <= i < |ps| ==> ps[i] in s.stock
    ensures var snaps := LoadedItems(s, o, ps);
            (exists i :: 0 <= i < |snaps| && snaps[i].rows != []) <==> HasReservationsOn(s, o, ps)
  {
    var snaps := LoadedItems(s, o, ps);
    if HasReservationsOn(s, o, ps) {
      var i :| 0 <= i < |ps| && RowsAt(s.reservations, o, ps[i]) != [];
      assert snaps[i].rows != [];
    }
  }

  lemma KnownAreDistinct(s: FulfillmentState, lines: seq<ReserveLine>)
    ensures var ps := KnownProducts(s, lines);
            && (forall i, j :: 0 <= i < j < |ps| ==> ps[i] != ps[j])
            && forall o :: AvailabilityIs(LoadedItems(s, o, ps), AvailabilityOf(s, ps))
  {
    var ps := KnownProducts(s, lines);
    forall o ensures AvailabilityIs(LoadedItems(s, o, ps), AvailabilityOf(s, ps)) {
      var snaps := LoadedItems(s, o, ps);
      forall i | 0 <= i < |snaps| ensures snaps[i].product in AvailabilityOf(s, ps) {
        assert ps[i] in ps;
      }
      forall p | p in AvailabilityOf(s, ps) ensures exists i :: 0 <= i < |snaps| && snaps[i].product == p {
        var i :| 0 <= i < |ps| && ps[i] == p;
        assert snaps[i].product == p;
      }
    }
  }

  method AnyReservation(items: seq<StockItem>, ghost snaps: seq<ItemSnapshot>) returns (any: bool)
    requires Loaded(items, snaps)
    ensures any <==> exists i :: 0 <= i < |snaps| && snaps[i].rows != []
  {
    for i := 0 to |items|
      invariant forall j :: 0 <= j < i ==> snaps[j].rows == []
    {
      assert items[i].Valid() && items[i].Snapshot() == snaps[i];
      if |items[i].reservations| > 0 {
        return true;
      }
    }
    return false;
  }

  method AnyInStatus(items: seq<StockItem>, ghost snaps: seq<ItemSnapshot>, o: OrderId, status: ReservationStatus)
    returns (any: bool)
    requires Loaded(items, snaps) && NothingRecorded(items)
    ensures any == AnyWithStatus(snaps, o, status)
    ensures Loaded(items, snaps) && NothingRecorded(items)
  {
    for i := 0 to |items|
      invariant Loaded(items, snaps) && NothingRecorded(items)
      invariant forall j :: 0 <= j < i ==> !HasStatus(snaps[j].rows, o, status)
    {
      assert items[i].Valid() && items[i].Snapshot() == snaps[i];
      var found := items[i].FindStatus(o, status);
      if found {
        return true;
      }
    }
    return false;
  }

  lemma SavedThenDespatched(s: FulfillmentState, o: OrderId, snaps: seq<ItemSnapshot>)
    ensures var saved := Saved(s, o, SettledItems(snaps, o, SettleConsumed, |snaps|), []);
            saved.(despatches := saved.despatches[o := AdviceFor(s, o, snaps)], nextDespatch := s.nextDespatch + 1,
                   outbox := Recorded(saved.outbox, o, [DespatchFact(AdviceFor(s, o, snaps))]))
            == DespatchedState(s, o, snaps)
  {
  }

  class DespatchCreationHandler {
    const store: FulfillmentStore

    constructor (store: FulfillmentStore)
      ensures this.store == store
    {
      this.store := store;
    }

    /** The despatch that exists already, or a new one that consumes every reserved reservation of the order. */
    method Create(o: OrderId) returns (reply: Result<StockReply, StockError>)
      requires ValidTables(store.state)
      modifies store
      ensures (store.state, reply) == DespatchTx(old(store.state), o)
      ensures ValidTables(store.state)
    {
      DespatchKeepsTables(store.state, o);
      if o in store.state.despatches {
        return Ok(DespatchOf(store.state.despatches[o], false));
      }
      var ids := ReservedProducts(store.state.reservations, o);
      if ids == {} {
        return Err(NoReservedStockForDespatch);
      }
      reply := CreateInTransaction(o, ids);
    }

    /** Everything after the two unlocked reads, which may be stale by the time this runs. */
    method CreateInTransaction(o: OrderId, ids: set<ProductCode>) returns (reply: Result<StockReply, StockError>)
      requires ValidTables(store.state)
      modifies store
      ensures (store.state, reply) == DespatchAfterRead(old(store.state), o, ids)
      ensures ValidTables(store.state)
    {
      DespatchAfterReadKeepsTables(store.state, o, ids);
      var ps := Ascending(ids);
      if !(forall i :: 0 <= i < |ps| ==> ps[i] in store.state.stock) {
        return Err(ConcurrentReservationChange);
      }
      ghost var snaps := LoadedItems(store.state, o, ps);
      var items := store.LockItems(o, ps);
      reply := ConsumeReserved(o, items, snaps);
    }

    /** Reserved stock is consumed; consumed stock answers with the despatch that was made in the meantime. */
    method ConsumeReserved(o: OrderId, items: seq<StockItem>, ghost snaps: seq<ItemSnapshot>)
      returns (reply: Result<StockReply, StockError>)
      requires Loaded(items, snaps) && NothingRecorded(items)
      modifies store, items, ReservationsOf(items)
      ensures !AnyWithStatus(snaps, o, Reserved) ==>
                && store.state == old(store.state)
                && reply == if !AnyWithStatus(snaps, o, Consumed) then Err(NoReservedStockForDespatch)
                            else if o in store.state.despatches then Ok(DespatchOf(store.state.despatches[o], false))
                            else Err(DespatchRowMissing)
      ensures AnyWithStatus(snaps, o, Reserved) && AnyWithStatus(snaps, o, Released) ==>
                store.state == old(store.state) && reply == Err(ReservationTerminal(Released))
      ensures AnyWithStatus(snaps, o, Reserved) && !AnyWithStatus(snaps, o, Released) ==>
                && store.state == DespatchedState(old(store.state), o, snaps)
                && reply == Ok(DespatchOf(AdviceFor(old(store.state), o, snaps), true))
    {
      var anyReserved := AnyInStatus(items, snaps, o, Reserved);
      if anyReserved {
        reply := Consume(o, items, snaps);
      } else {
        var anyConsumed := AnyInStatus(items, snaps, o, Consumed);
        reply := WithoutReserved(o, anyConsumed);
      }
    }

    method WithoutReserved(o: OrderId, anyConsumed: bool) returns (reply: Result<StockReply, StockError>)
      ensures reply == if !anyConsumed then Err(NoReservedStockForDespatch)
                       else if o in store.state.despatches then Ok(DespatchOf(store.state.despatches[o], false))
                       else Err(DespatchRowMissing)
    {
      if !anyConsumed {
        return Err(NoReservedStockForDespatch);
      }
      if o !in store.state.despatches {
        return Err(DespatchRowMissing);
      }
      return Ok(DespatchOf(store.state.despatches[o], false));
    }

    method Consume(o: OrderId, items: seq<StockItem>, ghost snaps: seq<ItemSnapshot>)
      returns (reply: Result<StockReply, StockError>)
      requires Loaded(items, snaps) && NothingRecorded(items) && AnyWithStatus(snaps, o, Reserved)
      modifies store, items, ReservationsOf(items)
      ensures AnyWithStatus(snaps, o, Released) ==>
              store.state == old(store.state) && reply == Err(ReservationTerminal(Released))
      ensures !AnyWithStatus(snaps, o, Released) ==>
                && store.state == DespatchedState(old(store.state), o, snaps)
                && reply == Ok(DespatchOf(AdviceFor(old(store.state), o, snaps), true))
    {
      NothingHeldIff(snaps, o);
      var outcome := CreateDespatchForOrder(items, snaps, o, store.state.nextDespatch);
      if outcome.Err? {
        return Err(outcome.error);
      }
      var despatch := outcome.value.value;
      SaveDespatch(o, items, snaps, despatch);
      return Ok(DespatchOf(despatch, true));
    }

    /** The items, then the despatch row with its fact; the number is spent. */
    method SaveDespatch(o: OrderId, items: seq<StockItem>, ghost snaps: seq<ItemSnapshot>, despatch: DespatchAdvice)
      requires Loaded(items, SettledItems(snaps, o, SettleConsumed, |items|)) && NothingRecorded(items)
      requires |items| == |snaps| && despatch == AdviceFor(store.state, o, snaps)
      modifies store
      ensures store.state == DespatchedState(old(store.state), o, snaps)
    {
      DrainedIsOne(items, None, DespatchFact(despatch));
      SavedThenDespatched(store.state, o, snaps);
      store.SaveAll(o, items, SettledItems(snaps, o, SettleConsumed, |items|));
      var s := store.state;
      store.state := s.(despatches := s.despatches[o := despatch], nextDespatch := despatch.despatchReference + 1,
                        outbox := Recorded(s.outbox, o, [DespatchFact(despatch)]));
    }
  }
}
