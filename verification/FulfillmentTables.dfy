/** The tables of Fulfillment and what one transaction does to them: load the items of one order,
    run the order-scoped operation on them, save them back. */
module FulfillmentTables {
  import opened Kernel
  import opened Stock
  import opened OrderStock

  datatype StockRow = StockRow(units: int, reservedUnits: int)

  /** The reservations of one order on one item are what a load brings along with that item. */
  type ReservationTable = map<(OrderId, ProductCode), seq<ReservationRow>>

  datatype FulfillmentState = FulfillmentState(
    stock: map<ProductCode, StockRow>,
    reservations: ReservationTable,
    despatches: map<OrderId, DespatchAdvice>,
    nextDespatch: nat,
    outbox: Outbox)

  datatype StockReply =
    | Accepted(reservations: seq<ReservationRef>)
    | AlreadyReserved
    | ShortOf(shortages: seq<Shortage>)
    | ReleasedNow(released: seq<ReservationRef>)
    | AlreadyReleased
    | DespatchOf(despatch: DespatchAdvice, created: bool)
    | Replenished

  // ---- Sets of products in lock order ----

  lemma LeastExists(s: set<nat>) returns (m: nat)
    requires s != {}
    ensures m in s && forall x :: x in s ==> m <= x
  {
    var first :| first in s;
    m := first;
    if s - {first} != {} {
      var least := LeastExists(s - {first});
      m := if least < first then least else first;
    }
    forall x | x in s ensures m <= x {
      assert x == first || x in s - {first};
    }
  }

  /** Rows are locked in ascending order of their key. */
  function Ascending(s: set<nat>): (r: seq<nat>)
    ensures forall x :: x in r <==> x in s
    ensures forall i, j :: 0 <= i < j < |r| ==> r[i] != r[j]
  {
    if s == {} then []
    else [LeastOf(s)] + Ascending(s - {LeastOf(s)})
  }

  function LeastOf(s: set<nat>): (m: nat)
    requires s != {}
    ensures m in s && forall x :: x in s ==> m <= x
  {
    assert exists m :: m in s && forall x :: x in s ==> m <= x by {
      var least := LeastExists(s);
    }
    var m :| m in s && forall x :: x in s ==> m <= x;
    m
  }

  function ProductsOf(lines: seq<ReserveLine>): set<ProductCode> {
    set k | 0 <= k < |lines| :: lines[k].product
  }

  /** The stock rows an order has reservations on. */
  function ReservedProducts(table: ReservationTable, o: OrderId): set<ProductCode> {
    set k | k in table && k.0 == o :: k.1
  }

  // ---- Load and save ----

  function RowsAt(table: ReservationTable, o: OrderId, p: ProductCode): seq<ReservationRow> {
    if (o, p) in table then table[(o, p)] else []
  }

  function LoadedItem(s: FulfillmentState, o: OrderId, p: ProductCode): ItemSnapshot
    requires p in s.stock
  {
    ItemSnapshot(p, s.stock[p].units, s.stock[p].reservedUnits, RowsAt(s.reservations, o, p))
  }

  function LoadedItems(s: FulfillmentState, o: OrderId, ps: seq<ProductCode>): (snaps: seq<ItemSnapshot>)
    requires forall i :: 0 <= i < |ps| ==> ps[i] in s.stock
    ensures |snaps| == |ps| && forall i :: 0 <= i < |ps| ==> snaps[i] == LoadedItem(s, o, ps[i])
  {
    seq(|ps|, i requires 0 <= i < |ps| => LoadedItem(s, o, ps[i]))
  }

  function SavedStock(stock: map<ProductCode, StockRow>, snaps: seq<ItemSnapshot>): map<ProductCode, StockRow> {
    if snaps == [] then stock
    else
      var last := snaps[|snaps| - 1];
      SavedStock(stock, snaps[..|snaps| - 1])[last.product := StockRow(last.units, last.reservedUnits)]
  }

  function SavedTable(table: ReservationTable, o: OrderId, snaps: seq<ItemSnapshot>): ReservationTable {
    if snaps == [] then table
    else
      var last := snaps[|snaps| - 1];
      var earlier := SavedTable(table, o, snaps[..|snaps| - 1]);
      if last.rows == [] then earlier else earlier[(o, last.product) := last.rows]
  }

  /** Counters and loaded reservations upserted item by item, then the recorded facts into the outbox. */
  function Saved(s: FulfillmentState, o: OrderId, snaps: seq<ItemSnapshot>, facts: seq<Fact>): FulfillmentState {
    s.(stock := SavedStock(s.stock, snaps), reservations := SavedTable(s.reservations, o, snaps),
       outbox := Recorded(s.outbox, o, facts))
  }

  // ---- The transactions ----

  /** The items a reserve request locks: the known ones among its distinct products. */
  function KnownProducts(s: FulfillmentState, lines: seq<ReserveLine>): (ps: seq<ProductCode>)
    ensures forall i :: 0 <= i < |ps| ==> ps[i] in s.stock
  {
    var ps := Ascending(ProductsOf(lines) * s.stock.Keys);
    assert forall i :: 0 <= i < |ps| ==> ps[i] in ps;
    ps
  }

  function AvailabilityOf(s: FulfillmentState, ps: seq<ProductCode>): Availability
    requires forall i :: 0 <= i < |ps| ==> ps[i] in s.stock
  {
    map p | p in ps :: s.stock[p].units - s.stock[p].reservedUnits
  }

  predicate HasReservationsOn(s: FulfillmentState, o: OrderId, ps: seq<ProductCode>) {
    exists i :: 0 <= i < |ps| && RowsAt(s.reservations, o, ps[i]) != []
  }

  function ReserveTx(s: FulfillmentState, o: OrderId, lines: seq<ReserveLine>): (FulfillmentState, Result<StockReply,
                                                                                 StockError>)
    requires lines != []
  {
    var ps := KnownProducts(s, lines);
    var snaps := LoadedItems(s, o, ps);
    if HasReservationsOn(s, o, ps) then (s, Ok(AlreadyReserved))
    else match Decide(AvailabilityOf(s, ps), lines)
      case RejectedReserve(shortages, reason, carrier) =>
        if carrier.None? then (s, Err(NoKnownStockItem))
        else (Saved(s, o, snaps, [StockRejectedFact(shortages, reason)]), Ok(ShortOf(shortages)))
      case ReservedAll(refs, _) =>
        (Saved(s, o, ReservedItems(snaps, o, lines), [StockReservedFact(refs)]), Ok(Accepted(refs)))
  }

  /** The items of a list of stock rows; `None` when one is missing. */
  function ItemsAt(s: FulfillmentState, o: OrderId, ids: set<ProductCode>): Option<seq<ItemSnapshot>> {
    var ps := Ascending(ids);
    if forall i :: 0 <= i < |ps| ==> ps[i] in s.stock then Some(LoadedItems(s, o, ps)) else None
  }

  /** The items an order's reservations point at. */
  function OrderItems(s: FulfillmentState, o: OrderId): Option<seq<ItemSnapshot>> {
    ItemsAt(s, o, ReservedProducts(s.reservations, o))
  }

  /** The transaction, on the stock rows that an unlocked read has named, at whatever later state it runs. */
  function ReleaseAfterRead(s: FulfillmentState, o: OrderId, ids: set<ProductCode>, reason: StockReleaseReason)
    : (FulfillmentState, Result<StockReply, StockError>)
  {
    match ItemsAt(s, o, ids)
    case None => (s, Err(ConcurrentReservationChange))
    case Some(snaps) =>
      if AnyWithStatus(snaps, o, Consumed) then (s, Err(ReservationTerminal(Consumed)))
      else
        var refs := AllHeldRefs(snaps, o);
        if refs == [] then (s, Ok(AlreadyReleased))
        else (Saved(s, o, SettledItems(snaps, o, SettleReleased, |snaps|), [StockReleasedFact(refs, reason)]),
              Ok(ReleasedNow(refs)))
  }

  /** The unlocked read and the transaction together. */
  function ReleaseTx(s: FulfillmentState, o: OrderId, reason: StockReleaseReason): (FulfillmentState, Result<StockReply,
                                                                                    StockError>) {
    var ids := ReservedProducts(s.reservations, o);
    if ids == {} then (s, Ok(AlreadyReleased)) else ReleaseAfterRead(s, o, ids, reason)
  }

  /** The transaction, on the stock rows that an unlocked read has named; a despatch made since is answered again. */
  function DespatchAfterRead(s: FulfillmentState, o: OrderId, ids: set<ProductCode>): (FulfillmentState,
                                                                                       Result<StockReply, StockError>) {
    match ItemsAt(s, o, ids)
    case None => (s, Err(ConcurrentReservationChange))
    case Some(snaps) =>
      if !AnyWithStatus(snaps, o, Reserved) then
        if !AnyWithStatus(snaps, o, Consumed) then (s, Err(NoReservedStockForDespatch))
        else if o in s.despatches then (s, Ok(DespatchOf(s.despatches[o], false)))
        else (s, Err(DespatchRowMissing))
      else if AnyWithStatus(snaps, o, Released) then (s, Err(ReservationTerminal(Released)))
      else (DespatchedState(s, o, snaps), Ok(DespatchOf(AdviceFor(s, o, snaps), true)))
  }

  function DespatchTx(s: FulfillmentState, o: OrderId): (FulfillmentState, Result<StockReply, StockError>) {
    var ids := ReservedProducts(s.reservations, o);
    if o in s.despatches then (s, Ok(DespatchOf(s.despatches[o], false)))
    else if ids == {} then (s, Err(NoReservedStockForDespatch))
    else DespatchAfterRead(s, o, ids)
  }

  function AdviceFor(s: FulfillmentState, o: OrderId, snaps: seq<ItemSnapshot>): DespatchAdvice {
    DespatchAdvice(o, s.nextDespatch, AllHeldRefs(snaps, o))
  }

  /** Every reserved row consumed, the despatch row, its fact, and the allocated number. */
  function DespatchedState(s: FulfillmentState, o: OrderId, snaps: seq<ItemSnapshot>): FulfillmentState {
    Saved(s, o, SettledItems(snaps, o, SettleConsumed, |snaps|), [DespatchFact(AdviceFor(s, o, snaps))])
      .(despatches := s.despatches[o := AdviceFor(s, o, snaps)], nextDespatch := s.nextDespatch + 1)
  }

  /** All or nothing: an unknown product refuses the whole top-up. */
  function ReplenishTx(s: FulfillmentState, lines: seq<ReserveLine>): (FulfillmentState, Result<StockReply,
                                                                       StockError>) {
    if exists p :: p in ProductsOf(lines) && p !in s.stock then (s, Err(NoKnownStockItem))
    else (s.(stock := map p | p in s.stock :: s.stock[p].(units := s.stock[p].units + RequestedOf(lines, p))),
          Ok(Replenished))
  }
}
