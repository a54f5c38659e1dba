/** The order-scoped stock operations: rules across items, one fact for the whole order. */
module OrderStock {
  import opened Kernel
  import opened Stock

  datatype ReserveOutcome =
    | ReservedAll(reservations: seq<ReservationRef>, carrier: ProductCode)
    | RejectedReserve(shortages: seq<Shortage>, reason: StockRefusal, rejectedCarrier: Option<ProductCode>)

  /** Available units of the items that exist. */
  type Availability = map<ProductCode, int>

  // ---- What a request asks for ----

  function RequestedOf(lines: seq<ReserveLine>, p: ProductCode): nat {
    if lines == [] then 0
    else RequestedOf(lines[..|lines| - 1], p) + if lines[|lines| - 1].product == p then lines[|lines| - 1].units else 0
  }

  predicate IsShort(available: Availability, all: seq<ReserveLine>, line: ReserveLine) {
    line.product !in available || RequestedOf(all, line.product) > available[line.product]
  }

  /** One shortage per short line, in line order. */
  function ShortagesOf(available: Availability, all: seq<ReserveLine>, lines: seq<ReserveLine>): seq<Shortage> {
    if lines == [] then []
    else
      var last := lines[|lines| - 1];
      ShortagesOf(available, all, lines[..|lines| - 1])
      + if IsShort(available, all, last)
      then [Shortage(last.product, last.units, if last.product in available then available[last.product] else 0)]
      else []
  }

  function FirstKnown(available: Availability, lines: seq<ReserveLine>): Option<ProductCode> {
    if lines == [] then None
    else
      var earlier := FirstKnown(available, lines[..|lines| - 1]);
      if earlier.Some? then earlier
      else if lines[|lines| - 1].product in available then Some(lines[|lines| - 1].product) else None
  }

  predicate AnyUnknown(available: Availability, lines: seq<ReserveLine>) {
    exists k :: 0 <= k < |lines| && lines[k].product !in available
  }

  /** The rows that reserving all of `lines` adds at product `p`: one per line, in line order. */
  function RowsFor(lines: seq<ReserveLine>, o: OrderId, p: ProductCode): seq<ReservationRow> {
    if lines == [] then []
    else RowsFor(lines[..|lines| - 1], o, p)
         + if lines[|lines| - 1].product == p then [ReservationRow(o, p, lines[|lines| - 1].units, Reserved)] else []
  }

  function LineRefs(lines: seq<ReserveLine>): (refs: seq<ReservationRef>)
    ensures |refs| == |lines|
  {
    seq(|lines|, i requires 0 <= i < |lines| => ReservationRef(lines[i].product, lines[i].units))
  }

  function ReservedItem(s: ItemSnapshot, o: OrderId, lines: seq<ReserveLine>): ItemSnapshot {
    s.(reservedUnits := s.reservedUnits + RequestedOf(lines, s.product), rows := s.rows + RowsFor(lines, o, s.product))
  }

  /** All or nothing: every line is satisfiable, or the whole request is refused with its shortages. */
  function Decide(available: Availability, lines: seq<ReserveLine>): ReserveOutcome
    requires lines != []
  {
    var shortages := ShortagesOf(available, lines, lines);
    var carrier := FirstKnown(available, lines);
    if shortages != [] || carrier.None? then
      RejectedReserve(shortages, if AnyUnknown(available, lines) then UnknownProduct else InsufficientStock, carrier)
    else ReservedAll(LineRefs(lines), carrier.value)
  }

  function FactOfOutcome(outcome: ReserveOutcome): Fact {
    match outcome
    case ReservedAll(refs, _) => StockReservedFact(refs)
    case RejectedReserve(shortages, reason, _) => StockRejectedFact(shortages, reason)
  }

  // ---- Facts about requests ----

  lemma PrefixGrows(lines: seq<ReserveLine>, k: nat)
    requires k < |lines|
    ensures lines[..k + 1] == lines[..k] + [lines[k]]
    ensures LineRefs(lines[..k + 1]) == LineRefs(lines[..k]) + [ReservationRef(lines[k].product, lines[k].units)]
  {
  }

  lemma {:induction false} RequestedIsMonotone(lines: seq<ReserveLine>, k: nat, p: ProductCode)
    requires k <= |lines|
    ensures RequestedOf(lines[..k], p) <= RequestedOf(lines, p)
    decreases |lines| - k
  {
    if k < |lines| {
      assert lines[..k + 1][..k] == lines[..k];
      RequestedIsMonotone(lines, k + 1, p);
    } else {
      assert lines[..k] == lines;
    }
  }

  lemma {:induction false} NoShortagesIff(available: Availability, all: seq<ReserveLine>, lines: seq<ReserveLine>)
    ensures ShortagesOf(available, all, lines) == [] <==>
            forall k :: 0 <= k < |lines| ==> !IsShort(available, all, lines[k])
  {
    if lines != [] {
      NoShortagesIff(available, all, lines[..|lines| - 1]);
    }
  }

  /** The shortages are exactly the lines whose product is unknown or, over all lines, asked for beyond what is
      available: none missing, none besides. A shortage tells the units of its line, and nothing available for an
      unknown product. */
  lemma {:induction false} ShortagesAreExact(available: Availability, all: seq<ReserveLine>, lines: seq<ReserveLine>,
                                             x: Shortage)
    ensures x in ShortagesOf(available, all, lines) <==>
            exists k :: 0 <= k < |lines| && IsShortageOf(available, all, lines[k], x)
  {
    if lines != [] {
      var init := lines[..|lines| - 1];
      ShortagesAreExact(available, all, init, x);
      assert forall k :: 0 <= k < |init| ==> lines[k] == init[k];
      if exists k :: 0 <= k < |lines| && IsShortageOf(available, all, lines[k], x) {
        var k :| 0 <= k < |lines| && IsShortageOf(available, all, lines[k], x);
        if k < |init| {
          assert IsShortageOf(available, all, init[k], x);
        }
      }
    }
  }

  predicate IsShortageOf(available: Availability, all: seq<ReserveLine>, line: ReserveLine, x: Shortage) {
    && x.product == line.product && x.requested == line.units
    && if line.product in available then x.available == available[line.product] < RequestedOf(all, line.product)
       else x.available == 0
  }

  /** A refusal blames an unknown product exactly when there is one, and names units of its lines. */
  lemma RefusalNamesTheLines(available: Availability, lines: seq<ReserveLine>)
    requires lines != [] && Decide(available, lines).RejectedReserve?
    ensures Decide(available, lines).reason == UnknownProduct <==>
            exists k :: 0 <= k < |lines| && lines[k].product !in available
    ensures forall x :: x in Decide(available, lines).shortages ==>
              exists k :: 0 <= k < |lines| && x.product == lines[k].product && x.requested == lines[k].units
  {
    forall x | x in Decide(available, lines).shortages
      ensures exists k :: 0 <= k < |lines| && x.product == lines[k].product && x.requested == lines[k].units
    {
      ShortagesAreExact(available, lines, lines, x);
    }
  }

  lemma {:induction false} FirstKnownIff(available: Availability, lines: seq<ReserveLine>)
    ensures FirstKnown(available, lines).Some? <==> exists k :: 0 <= k < |lines| && lines[k].product in available
    ensures FirstKnown(available, lines).Some? ==> FirstKnown(available, lines).value in available
    ensures FirstKnown(available, lines).Some? ==>
              exists k :: 0 <= k < |lines| && lines[k].product == FirstKnown(available, lines).value
                          && forall j :: 0 <= j < k ==> lines[j].product !in available
    ensures lines != [] && lines[0].product in available ==> FirstKnown(available, lines).Some?
  {
    if lines != [] {
      var init := lines[..|lines| - 1];
      FirstKnownIff(available, init);
      assert forall k :: 0 <= k < |init| ==> lines[k] == init[k];
    }
  }

  /** All or nothing, with the repeated products of a request summed: it is accepted exactly when every line's
      product is known and its total over all lines is available, and otherwise the shortages are not empty. */
  lemma AcceptedIffEveryProductFits(available: Availability, lines: seq<ReserveLine>)
    requires lines != []
    ensures Decide(available, lines).ReservedAll? <==>
            forall k :: 0 <= k < |lines| ==>
                          lines[k].product in available
                            && RequestedOf(lines, lines[k].product) <= available[lines[k].product]
    ensures Decide(available, lines).RejectedReserve? ==> Decide(available, lines).shortages != []
    ensures Decide(available, lines).RejectedReserve? && Decide(available, lines).rejectedCarrier.None? <==>
            forall k :: 0 <= k < |lines| ==> lines[k].product !in available
  {
    NoShortagesIff(available, lines, lines);
    FirstKnownIff(available, lines);
    if ShortagesOf(available, lines, lines) == [] {
      assert !IsShort(available, lines, lines[0]);
    }
  }

  lemma {:induction false} RowsForHaveRequestedUnits(lines: seq<ReserveLine>, o: OrderId, p: ProductCode)
    ensures UnitsWith(RowsFor(lines, o, p), o, Reserved) == RequestedOf(lines, p)
    ensures forall i :: 0 <= i < |RowsFor(lines, o, p)| ==>
                          RowsFor(lines, o, p)[i].order == o && RowsFor(lines, o, p)[i].product == p
                            && RowsFor(lines, o, p)[i].status == Reserved
    ensures RowsFor(lines, o, p) == [] <==> forall k :: 0 <= k < |lines| ==> lines[k].product != p
  {
    if lines != [] {
      var init := lines[..|lines| - 1];
      RowsForHaveRequestedUnits(init, o, p);
      var rows := RowsFor(lines, o, p);
      if lines[|lines| - 1].product == p {
        assert rows[..|rows| - 1] == RowsFor(init, o, p);
      } else {
        assert rows == RowsFor(init, o, p);
      }
      assert forall k :: 0 <= k < |init| ==> lines[k] == init[k];
    }
  }

  // ---- Loaded items ----

  predicate DistinctProducts(snaps: seq<ItemSnapshot>) {
    forall i, j :: 0 <= i < j < |snaps| ==> snaps[i].product != snaps[j].product
  }

  ghost predicate AvailabilityIs(snaps: seq<ItemSnapshot>, available: Availability) {
    && (forall i :: 0 <= i < |snaps| ==>
                      snaps[i].product in available
                        && available[snaps[i].product] == snaps[i].units - snaps[i].reservedUnits)
    && (forall p :: p in available ==> exists i :: 0 <= i < |snaps| && snaps[i].product == p)
  }

  function ReservedItems(snaps: seq<ItemSnapshot>, o: OrderId, lines: seq<ReserveLine>): (r: seq<ItemSnapshot>)
    ensures |r| == |snaps| && forall i :: 0 <= i < |snaps| ==> r[i] == ReservedItem(snaps[i], o, lines)
  {
    seq(|snaps|, i requires 0 <= i < |snaps| => ReservedItem(snaps[i], o, lines))
  }

  function WithReservation(s: ItemSnapshot, o: OrderId, line: ReserveLine): ItemSnapshot {
    s.(reservedUnits := s.reservedUnits + line.units,
       rows := s.rows + [ReservationRow(o, s.product, line.units, Reserved)])
  }

  /** One more line changes exactly the item of its product. */
  lemma ReservedItemsGrow(snaps: seq<ItemSnapshot>, o: OrderId, lines: seq<ReserveLine>, line: ReserveLine, i: nat)
    requires DistinctProducts(snaps) && i < |snaps| && snaps[i].product == line.product
    ensures ReservedItems(snaps, o, lines + [line])
            == ReservedItems(snaps, o, lines)[i := WithReservation(ReservedItems(snaps, o, lines)[i], o, line)]
  {
    assert (lines + [line])[..|lines|] == lines;
    forall j | 0 <= j < |snaps|
      ensures ReservedItem(snaps[j], o, lines + [line]) == if j == i then
              WithReservation(ReservedItem(snaps[j], o, lines), o, line)
                                                           else ReservedItem(snaps[j], o, lines)
    {
      assert snaps[j].rows + (RowsFor(lines, o, snaps[j].product) + []) == snaps[j].rows
             + RowsFor(lines, o, snaps[j].product);
      if j < i { assert snaps[j].product != snaps[i].product; }
      if i < j { assert snaps[i].product != snaps[j].product; }
    }
  }

  lemma LineStillFits(snaps: seq<ItemSnapshot>, o: OrderId, lines: seq<ReserveLine>, k: nat, available: Availability,
                      i: nat)
    requires k < |lines| && i < |snaps| && snaps[i].product == lines[k].product
    requires AvailabilityIs(snaps, available) && !IsShort(available, lines, lines[k])
    ensures lines[k].units <= ReservedItem(snaps[i], o, lines[..k]).units - ReservedItem(snaps[i], o,
                                                                                         lines[..k]).reservedUnits
  {
    assert lines[..k + 1][..k] == lines[..k];
    RequestedIsMonotone(lines, k + 1, lines[k].product);
  }

  ghost function ReservationsOf(items: seq<StockItem>): set<Reservation> reads items`reservations {
    set i, j | 0 <= i < |items| && 0 <= j < |items[i].reservations| :: items[i].reservations[j]
  }

  /** One object per snapshot, distinct products, and no fact recorded yet. */
  ghost predicate Loaded(items: seq<StockItem>, snaps: seq<ItemSnapshot>)
    reads items`units, items`reservedUnits, items`reservations, items`rows, ReservationsOf(items)
  {
    && |snaps| == |items|
    && DistinctProducts(snaps)
    && (forall i :: 0 <= i < |items| ==> items[i].Valid() && items[i].Snapshot() == snaps[i])
  }

  lemma LoadedAreDistinct(items: seq<StockItem>, snaps: seq<ItemSnapshot>)
    requires Loaded(items, snaps)
    ensures forall i :: 0 <= i < |items| ==> items[i].product == snaps[i].product
    ensures forall i, j :: 0 <= i < j < |items| ==> items[i].product != items[j].product
  {
    assert forall i :: 0 <= i < |items| ==> items[i].Snapshot() == snaps[i];
  }

  ghost predicate NothingRecorded(items: seq<StockItem>) reads items`events {
    forall i :: 0 <= i < |items| ==> items[i].events == []
  }

  type Catalogue = map<ProductCode, StockItem>

  /** `byProduct` of the source: the loaded items by product code. */
  ghost predicate Indexes(byProduct: Catalogue, items: seq<StockItem>) {
    && (forall i :: 0 <= i < |items| ==> items[i].product in byProduct && byProduct[items[i].product] == items[i])
    && (forall p :: p in byProduct ==> byProduct[p] in items && byProduct[p].product == p)
  }

  method IndexByProduct(items: seq<StockItem>, ghost snaps: seq<ItemSnapshot>) returns (byProduct: Catalogue)
    requires Loaded(items, snaps)
    ensures Loaded(items, snaps) && Indexes(byProduct, items)
  {
    LoadedAreDistinct(items, snaps);
    byProduct := map[];
    for i := 0 to |items|
      invariant Indexes(byProduct, items[..i])
    {
      assert forall j :: 0 <= j < i ==> items[..i][j].product != items[i].product;
      byProduct := byProduct[items[i].product := items[i]];
    }
    assert items[..|items|] == items;
  }

  method SumByProduct(lines: seq<ReserveLine>) returns (totals: map<ProductCode, nat>)
    ensures forall p :: (if p in totals then totals[p] else 0) == RequestedOf(lines, p)
    ensures forall k :: 0 <= k < |lines| ==> lines[k].product in totals
  {
    totals := map[];
    for k := 0 to |lines|
      invariant forall p :: (if p in totals then totals[p] else 0) == RequestedOf(lines[..k], p)
      invariant forall j :: 0 <= j < k ==> lines[j].product in totals
    {
      assert lines[..k + 1][..k] == lines[..k];
      var p := lines[k].product;
      totals := totals[p := (if p in totals then totals[p] else 0) + lines[k].units];
    }
    assert lines[..|lines|] == lines;
  }

  /** The catalogue answers for every product what `available` says. */
  ghost predicate Answers(byProduct: Catalogue, available: Availability)
    reads byProduct.Values
  {
    && byProduct.Keys == available.Keys
    && forall p :: p in byProduct ==> byProduct[p].AvailableUnits() == available[p]
  }

  lemma LoadedAnswers(byProduct: Catalogue, items: seq<StockItem>, snaps: seq<ItemSnapshot>, available: Availability)
    requires Loaded(items, snaps) && Indexes(byProduct, items) && AvailabilityIs(snaps, available)
    ensures Answers(byProduct, available)
  {
    forall p | p in available ensures p in byProduct {
      var i :| 0 <= i < |snaps| && snaps[i].product == p;
      assert items[i].Snapshot() == snaps[i];
    }
    forall p | p in byProduct ensures p in available && byProduct[p].AvailableUnits() == available[p] {
      var i :| 0 <= i < |items| && items[i] == byProduct[p];
      assert items[i].Snapshot() == snaps[i];
    }
  }

  /** The availability pass over the lines. */
  method CheckLines(byProduct: Catalogue, lines: seq<ReserveLine>, ghost available: Availability)
    returns (shortages: seq<Shortage>, anyUnknown: bool, firstKnown: Option<ProductCode>)
    requires Answers(byProduct, available)
    ensures shortages == ShortagesOf(available, lines, lines)
    ensures anyUnknown == AnyUnknown(available, lines) && firstKnown == FirstKnown(available, lines)
  {
    var totals := SumByProduct(lines);
    shortages, anyUnknown, firstKnown := [], false, None;
    for k := 0 to |lines|
      invariant shortages == ShortagesOf(available, lines, lines[..k])
      invariant anyUnknown == AnyUnknown(available, lines[..k]) && firstKnown == FirstKnown(available, lines[..k])
    {
      assert lines[..k + 1][..k] == lines[..k];
      var line := lines[k];
      assert lines[..k + 1][k] == line;
      if line.product !in byProduct {
        anyUnknown := true;
        shortages := shortages + [Shortage(line.product, line.units, 0)];
      } else {
        var item := byProduct[line.product];
        if firstKnown.None? {
          firstKnown := Some(line.product);
        }
        if totals[line.product] > item.AvailableUnits() {
          shortages := shortages + [Shortage(line.product, line.units, item.AvailableUnits())];
        }
      }
    }
    assert lines[..|lines|] == lines;
  }

  method FindShortages(byProduct: Catalogue, items: seq<StockItem>, ghost snaps: seq<ItemSnapshot>,
                       lines: seq<ReserveLine>,
                       ghost available: Availability)
    returns (shortages: seq<Shortage>, anyUnknown: bool, firstKnown: Option<ProductCode>)
    requires Loaded(items, snaps) && Indexes(byProduct, items) && AvailabilityIs(snaps, available)
    ensures Loaded(items, snaps) && byProduct.Keys == available.Keys
    ensures shortages == ShortagesOf(available, lines, lines)
    ensures anyUnknown == AnyUnknown(available, lines) && firstKnown == FirstKnown(available, lines)
  {
    LoadedAnswers(byProduct, items, snaps, available);
    shortages, anyUnknown, firstKnown := CheckLines(byProduct, lines, available);
  }

  /** `reserve` for one line that fits: only that line's item changes. */
  method ReserveNext(items: seq<StockItem>, ghost snaps: seq<ItemSnapshot>, item: StockItem, ghost i: nat, o: OrderId,
                     line: ReserveLine)
    returns (reserved: Reservation)
    requires Loaded(items, snaps) && NothingRecorded(items)
    requires i < |items| && items[i] == item && item.product == line.product
    requires line.units <= snaps[i].units - snaps[i].reservedUnits
    modifies item
    ensures Loaded(items, snaps[i := WithReservation(snaps[i], o, line)]) && NothingRecorded(items)
    ensures reserved.product == line.product && reserved.units == line.units
  {
    assert item.Snapshot() == snaps[i];
    var outcome := item.Reserve(o, line.units);
    reserved := outcome.value;
    assert item.Snapshot() == WithReservation(snaps[i], o, line);
    assert forall j :: 0 <= j < |items| && j != i ==> items[j].product == snaps[j].product && items[j] != item;
  }

  /** `reserve` on each line in turn; it never runs into `InsufficientUnits` once the pass found no shortage. */
  method ReserveLines(byProduct: Catalogue, items: seq<StockItem>, ghost snaps: seq<ItemSnapshot>, o: OrderId,
                      lines: seq<ReserveLine>, ghost available: Availability)
    returns (refs: seq<ReservationRef>)
    requires Loaded(items, snaps) && NothingRecorded(items) && Indexes(byProduct, items)
             && AvailabilityIs(snaps, available)
    requires forall k :: 0 <= k < |lines| ==> !IsShort(available, lines, lines[k])
    modifies items
    ensures Loaded(items, ReservedItems(snaps, o, lines)) && NothingRecorded(items) && refs == LineRefs(lines)
  {
    refs := [];
    ReservingNothing(snaps, o, lines);
    for k := 0 to |lines|
      invariant Loaded(items, ReservedItems(snaps, o, lines[..k])) && NothingRecorded(items)
                && refs == LineRefs(lines[..k])
    {
      var line := lines[k];
      PrefixGrows(lines, k);
      assert !IsShort(available, lines, lines[k]);
      ghost var j :| 0 <= j < |snaps| && snaps[j].product == line.product;
      var item := byProduct[line.product];
      assert items[j].Snapshot() == ReservedItem(snaps[j], o, lines[..k]);
      LineStillFits(snaps, o, lines, k, available, j);
      ReservedItemsGrow(snaps, o, lines[..k], line, j);
      var reserved := ReserveNext(items, ReservedItems(snaps, o, lines[..k]), item, j, o, line);
      refs := refs + [ReservationRef(reserved.product, reserved.units)];
    }
    assert lines[..|lines|] == lines;
  }

  lemma ReservingNothing(snaps: seq<ItemSnapshot>, o: OrderId, lines: seq<ReserveLine>)
    ensures ReservedItems(snaps, o, lines[..0]) == snaps
  {
    forall i | 0 <= i < |snaps| ensures ReservedItem(snaps[i], o, []) == snaps[i] {
      assert snaps[i].rows + [] == snaps[i].rows;
    }
  }

  /** Draining every item's pending facts, in item order. */
  function Drained(items: seq<StockItem>): seq<Fact> reads items`events {
    if items == [] then [] else Drained(items[..|items| - 1]) + items[|items| - 1].events
  }

  lemma {:induction false} DrainedIsOne(items: seq<StockItem>, carrier: Option<nat>, fact: Fact)
    requires carrier.Some? ==> carrier.value < |items|
    requires forall i :: 0 <= i < |items| ==> items[i].events == if carrier == Some(i) then [fact] else []
    ensures Drained(items) == if carrier.Some? then [fact] else []
  {
    if items != [] {
      var init := items[..|items| - 1];
      DrainedIsOne(init, if carrier == Some(|items| - 1) then None else carrier, fact);
    }
  }

  method RecordOnCarrier(items: seq<StockItem>, ghost snaps: seq<ItemSnapshot>, carrier: StockItem, fact: Fact)
    requires Loaded(items, snaps) && NothingRecorded(items) && carrier in items
    modifies carrier`events
    ensures Loaded(items, snaps) && Drained(items) == [fact]
  {
    ghost var i :| 0 <= i < |items| && items[i] == carrier;
    LoadedAreDistinct(items, snaps);
    var recorded := carrier.RecordOrderFact(carrier.product, fact);
    DrainedIsOne(items, Some(i), fact);
  }

  /** One fact for everything that was released, on the first item that had some; none if nothing was. */
  method RecordReleased(items: seq<StockItem>, ghost snaps: seq<ItemSnapshot>, carrier: Option<nat>,
                        released: seq<ReservationRef>, reason: StockReleaseReason)
    requires Loaded(items, snaps) && NothingRecorded(items)
    requires (carrier.Some? <==> released != []) && (carrier.Some? ==> carrier.value < |items|)
    modifies items
    ensures Loaded(items, snaps)
    ensures Drained(items) == if released == [] then [] else [StockReleasedFact(released, reason)]
  {
    if carrier.None? {
      DrainedIsOne(items, None, StockReleasedFact(released, reason));
    } else {
      RecordOnCarrier(items, snaps, items[carrier.value], StockReleasedFact(released, reason));
    }
  }

  /** Evaluates every line first and reserves only if all of them fit; records one fact on the first known item. */
  method ReserveOrderStock(items: seq<StockItem>, ghost snaps: seq<ItemSnapshot>, o: OrderId, lines: seq<ReserveLine>,
                           ghost available: Availability)
    returns (outcome: ReserveOutcome)
    requires Loaded(items, snaps) && NothingRecorded(items) && AvailabilityIs(snaps, available) && lines != []
    modifies items
    ensures outcome == Decide(available, lines)
    ensures outcome.ReservedAll? ==> Loaded(items, ReservedItems(snaps, o, lines))
    ensures outcome.RejectedReserve? ==> Loaded(items, snaps)
    ensures Drained(items) == if outcome.RejectedReserve? && outcome.rejectedCarrier.None? then []
            else [FactOfOutcome(outcome)]
  {
    var byProduct := IndexByProduct(items, snaps);
    var shortages, anyUnknown, firstKnown := FindShortages(byProduct, items, snaps, lines, available);
    FirstKnownIff(available, lines);
    NoShortagesIff(available, lines, lines);
    if |shortages| > 0 {
      outcome := RejectedReserve(shortages, if anyUnknown then UnknownProduct else InsufficientStock, firstKnown);
      if firstKnown.None? {
        DrainedIsOne(items, None, FactOfOutcome(outcome));
        return;
      }
      RecordOnCarrier(items, snaps, byProduct[firstKnown.value], FactOfOutcome(outcome));
    } else {
      assert !IsShort(available, lines, lines[0]);
      var refs := ReserveLines(byProduct, items, snaps, o, lines, available);
      outcome := ReservedAll(refs, firstKnown.value);
      RecordOnCarrier(items, ReservedItems(snaps, o, lines), byProduct[firstKnown.value], FactOfOutcome(outcome));
    }
  }

  // ---- Release and despatch of a whole order ----

  datatype Settlement = SettleReleased | SettleConsumed

  function SettledItem(s: ItemSnapshot, o: OrderId, how: Settlement): ItemSnapshot {
    if how.SettleReleased? then ReleasedItem(s, o) else ConsumedItem(s, o)
  }

  /** The first `n` items settled, the others as they were. */
  function SettledItems(snaps: seq<ItemSnapshot>, o: OrderId, how: Settlement, n: nat): (r: seq<ItemSnapshot>)
    ensures |r| == |snaps| && forall i :: 0 <= i < |snaps| ==>
            r[i] == if i < n then SettledItem(snaps[i], o, how) else snaps[i]
  {
    seq(|snaps|, i requires 0 <= i < |snaps| => if i < n then SettledItem(snaps[i], o, how) else snaps[i])
  }

  function AllHeldRefs(snaps: seq<ItemSnapshot>, o: OrderId): seq<ReservationRef> {
    if snaps == [] then [] else AllHeldRefs(snaps[..|snaps| - 1], o) + HeldRefs(snaps[|snaps| - 1].rows, o)
  }

  predicate AnyWithStatus(snaps: seq<ItemSnapshot>, o: OrderId, status: ReservationStatus) {
    exists i :: 0 <= i < |snaps| && HasStatus(snaps[i].rows, o, status)
  }

  /** Nothing is reported exactly when no item holds a `reserved` row of the order. */
  lemma {:induction false} NothingHeldIff(snaps: seq<ItemSnapshot>, o: OrderId)
    ensures AllHeldRefs(snaps, o) == [] <==> !AnyWithStatus(snaps, o, Reserved)
  {
    if snaps != [] {
      var init := snaps[..|snaps| - 1];
      NothingHeldIff(init, o);
      HeldRefsEmptyIff(snaps[|snaps| - 1].rows, o, Released);
      assert forall i :: 0 <= i < |init| ==> init[i] == snaps[i];
    }
  }

  lemma SettlingGrows(snaps: seq<ItemSnapshot>, o: OrderId, how: Settlement, i: nat)
    requires i < |snaps|
    ensures SettledItems(snaps, o, how, 0) == snaps
    ensures SettledItems(snaps, o, how, i)[i] == snaps[i]
    ensures SettledItems(snaps, o, how, i + 1) == SettledItems(snaps, o, how, i)[i := SettledItem(snaps[i], o, how)]
    ensures AllHeldRefs(snaps[..i + 1], o) == AllHeldRefs(snaps[..i], o) + HeldRefs(snaps[i].rows, o)
  {
    assert snaps[..i + 1][..i] == snaps[..i];
  }

  /** Two items never share a reservation object, so what happens to one leaves the others alone. */
  lemma NoSharedReservations(items: seq<StockItem>, snaps: seq<ItemSnapshot>, i: nat)
    requires Loaded(items, snaps) && i < |items|
    ensures items[i].Valid() && items[i].Snapshot() == snaps[i]
    ensures forall j :: 0 <= j < |items| && j != i ==> items[j] != items[i]
    ensures forall j, k :: 0 <= j < |items| && j != i && 0 <= k < |items[j].reservations| ==>
                             items[j].reservations[k] !in items[i].reservations
  {
    LoadedAreDistinct(items, snaps);
    assert items[i].Snapshot() == snaps[i];
    forall j, k | 0 <= j < |items| && j != i && 0 <= k < |items[j].reservations|
      ensures items[j].reservations[k] !in items[i].reservations
    {
      assert items[j].Valid() && items[j].rows[k] == items[j].reservations[k].View();
    }
  }

  method ReleaseNext(items: seq<StockItem>, ghost snaps: seq<ItemSnapshot>, i: nat, o: OrderId)
    returns (r: Result<seq<Reservation>, StockError>)
    requires Loaded(items, snaps) && NothingRecorded(items) && i < |items|
    modifies items[i], items[i].reservations
    ensures r.Ok? ==>
            Loaded(items, snaps[i := ReleasedItem(snaps[i], o)]) && RefsOfObjects(r.value) == HeldRefs(snaps[i].rows, o)
    ensures NothingRecorded(items)
    ensures forall j :: 0 <= j < |items| ==> items[j].reservations == old(items[j].reservations)
    ensures r.Err? ==> r.error == ReservationTerminal(Consumed)
    ensures r.Err? <==> HasStatus(snaps[i].rows, o, Consumed)
  {
    NoSharedReservations(items, snaps, i);
    r := items[i].Release(o);
  }

  method ConsumeNext(items: seq<StockItem>, ghost snaps: seq<ItemSnapshot>, i: nat, o: OrderId)
    returns (r: Result<seq<Reservation>, StockError>)
    requires Loaded(items, snaps) && NothingRecorded(items) && i < |items|
    modifies items[i], items[i].reservations
    ensures r.Ok? ==>
            Loaded(items, snaps[i := ConsumedItem(snaps[i], o)]) && RefsOfObjects(r.value) == HeldRefs(snaps[i].rows, o)
    ensures NothingRecorded(items)
    ensures forall j :: 0 <= j < |items| ==> items[j].reservations == old(items[j].reservations)
    ensures r.Err? ==> r.error == ReservationTerminal(Released)
    ensures r.Err? <==> HasStatus(snaps[i].rows, o, Released)
  {
    NoSharedReservations(items, snaps, i);
    r := items[i].Consume(o);
  }

  /** The loop over the items: what was released, and the first item that had some of it. */
  method ReleaseOnItems(items: seq<StockItem>, ghost snaps: seq<ItemSnapshot>, o: OrderId)
    returns (r: Result<seq<ReservationRef>, StockError>, carrier: Option<nat>)
    requires Loaded(items, snaps) && NothingRecorded(items)
    modifies items, ReservationsOf(items)
    ensures r.Err? <==> AnyWithStatus(snaps, o, Consumed)
    ensures r.Err? ==> r.error == ReservationTerminal(Consumed)
    ensures r.Ok? ==> && Loaded(items, SettledItems(snaps, o, SettleReleased, |items|)) && NothingRecorded(items)
                      && r.value == AllHeldRefs(snaps, o)
                      && (carrier.Some? <==> r.value != []) && (carrier.Some? ==> carrier.value < |items|)
  {
    var released := [];
    carrier := None;
    assert SettledItems(snaps, o, SettleReleased, 0) == snaps;
    for i := 0 to |items|
      invariant Loaded(items, SettledItems(snaps, o, SettleReleased, i)) && NothingRecorded(items)
      invariant forall j :: 0 <= j < |items| ==> items[j].reservations == old(items[j].reservations)
      invariant forall j :: 0 <= j < i ==> !HasStatus(snaps[j].rows, o, Consumed)
      invariant released == AllHeldRefs(snaps[..i], o)
      invariant carrier.Some? <==> released != []
      invariant carrier.Some? ==> carrier.value < |items|
    {
      SettlingGrows(snaps, o, SettleReleased, i);
      var onThisItem := ReleaseNext(items, SettledItems(snaps, o, SettleReleased, i), i, o);
      if onThisItem.Err? {
        return Err(onThisItem.error), None;
      }
      released := released + RefsOfObjects(onThisItem.value);
      if carrier.None? && |onThisItem.value| > 0 {
        carrier := Some(i);
      }
    }
    assert snaps[..|items|] == snaps;
    return Ok(released), carrier;
  }

  /** Releases on every item; one fact for the order, on the item of the first released reservation. On an error
      the items are left part way, and the caller's transaction rolls back. */
  method ReleaseOrderStock(items: seq<StockItem>, ghost snaps: seq<ItemSnapshot>, o: OrderId,
                           reason: StockReleaseReason)
    returns (r: Result<seq<ReservationRef>, StockError>)
    requires Loaded(items, snaps) && NothingRecorded(items)
    modifies items, ReservationsOf(items)
    ensures r.Err? <==> AnyWithStatus(snaps, o, Consumed)
    ensures r.Err? ==> r.error == ReservationTerminal(Consumed)
    ensures r.Ok? ==> && Loaded(items, SettledItems(snaps, o, SettleReleased, |items|))
                      && r.value == AllHeldRefs(snaps, o)
                      && Drained(items) == if r.value == [] then [] else [StockReleasedFact(r.value, reason)]
  {
    var carrier;
    r, carrier := ReleaseOnItems(items, snaps, o);
    if r.Ok? {
      RecordReleased(items, SettledItems(snaps, o, SettleReleased, |items|), carrier, r.value, reason);
    }
  }

  /** The despatch of an order, with the fact it records on creation. */
  datatype DespatchAdvice = DespatchAdvice(order: OrderId, despatchReference: nat, lines: seq<ReservationRef>)

  function DespatchFact(d: DespatchAdvice): Fact {
    OrderDespatchedFact(d.despatchReference, d.lines)
  }

  /** Consumes on every item and builds one despatch line per consumed reservation; `None` when nothing was reserved. */
  method CreateDespatchForOrder(items: seq<StockItem>, ghost snaps: seq<ItemSnapshot>, o: OrderId,
                                despatchReference: nat)
    returns (r: Result<Option<DespatchAdvice>, StockError>)
    requires Loaded(items, snaps) && NothingRecorded(items)
    modifies items, ReservationsOf(items)
    ensures r.Err? <==> AnyWithStatus(snaps, o, Released)
    ensures r.Err? ==> r.error == ReservationTerminal(Released)
    ensures r.Ok? ==> && Loaded(items, SettledItems(snaps, o, SettleConsumed, |items|)) && NothingRecorded(items)
                      && r.value == if AllHeldRefs(snaps, o) == [] then None
                                    else Some(DespatchAdvice(o, despatchReference, AllHeldRefs(snaps, o)))
  {
    var lines := [];
    assert SettledItems(snaps, o, SettleConsumed, 0) == snaps;
    for i := 0 to |items|
      invariant Loaded(items, SettledItems(snaps, o, SettleConsumed, i)) && NothingRecorded(items)
      invariant forall j :: 0 <= j < |items| ==> items[j].reservations == old(items[j].reservations)
      invariant forall j :: 0 <= j < i ==> !HasStatus(snaps[j].rows, o, Released)
      invariant lines == AllHeldRefs(snaps[..i], o)
    {
      SettlingGrows(snaps, o, SettleConsumed, i);
      var consumed := ConsumeNext(items, SettledItems(snaps, o, SettleConsumed, i), i, o);
      if consumed.Err? {
        return Err(consumed.error);
      }
      lines := lines + RefsOfObjects(consumed.value);
    }
    assert snaps[..|items|] == snaps;
    return Ok(if |lines| == 0 then None else Some(DespatchAdvice(o, despatchReference, lines)));
  }
}
