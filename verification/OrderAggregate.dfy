/** The `Order` aggregate: Table T-1, the totals and the command methods. */
module OrderAggregate {
  import opened Kernel

  datatype OrderError =
    | EmptyOrder
    | LineCurrencyMismatch
    | MoneyCurrencyMismatch
    | NegativeOrderTotal(total: int)
    | InvalidSnapshot
    | TransitionNotAllowed(from: OrderStatus, to: OrderStatus)
    | ReasonNotApplicable(status: OrderStatus, given: CancellationReason)

  datatype OrderTotals = OrderTotals(initialAmount: int, initialDiscount: int, totalAmount: int)

  /** A persisted order; totals are not stored, they are derived from the lines. */
  datatype OrderSnapshot = OrderSnapshot(
    lines: seq<OrderLine>, currency: CurrencyCode, credit: CreditId,
    status: OrderStatus, cancellationReason: Option<CancellationReason>)

  // ---- Table T-1 ----

  datatype Emission = NoFact | EmitsPlaced | EmitsConfirmed | EmitsCompleted | EmitsCancelled

  datatype OrderTransition = OrderTransition(from: Option<OrderStatus>, to: OrderStatus, emits: Emission)

  const ORDER_TRANSITIONS: seq<OrderTransition> := [
    OrderTransition(None, Placed, EmitsPlaced),
    OrderTransition(Some(Placed), StockReserved, NoFact),
    OrderTransition(Some(StockReserved), CreditApproved, NoFact),
    OrderTransition(Some(CreditApproved), Confirmed, EmitsConfirmed),
    OrderTransition(Some(Confirmed), Despatched, NoFact),
    OrderTransition(Some(Despatched), Invoiced, NoFact),
    OrderTransition(Some(Invoiced), Paid, NoFact),
    OrderTransition(Some(Paid), Completed, EmitsCompleted),
    OrderTransition(Some(Placed), Cancelled, EmitsCancelled),
    OrderTransition(Some(StockReserved), Cancelled, EmitsCancelled),
    OrderTransition(Some(CreditApproved), Cancelled, EmitsCancelled),
    OrderTransition(Some(Confirmed), Cancelled, EmitsCancelled)
  ]

  type TransitionIndex = map<(Option<OrderStatus>, OrderStatus), OrderTransition>

  /** The lookup the index answers: the successor along the happy path, or a legal cancellation. */
  function FindTransition(from: OrderStatus, to: OrderStatus): Option<OrderTransition> {
    if to == Cancelled then
      if from in {Placed, StockReserved, CreditApproved, Confirmed}
      then Some(OrderTransition(Some(from), to, EmitsCancelled)) else None
    else if from !in {Completed, Cancelled} && StatusRank(to) == StatusRank(from) + 1 then
      Some(OrderTransition(Some(from), to,
                           if to == Confirmed then EmitsConfirmed else if to == Completed then EmitsCompleted
                             else NoFact))
    else None
  }

  /** Built once at module load, row by row. */
  method BuildTransitionIndex() returns (index: TransitionIndex)
    ensures forall from, to ::
              (if (Some(from), to) in index then Some(index[(Some(from), to)]) else None) == FindTransition(from, to)
    ensures (None, Placed) in index && index[(None, Placed)].emits == EmitsPlaced
  {
    index := map[];
    for i := 0 to |ORDER_TRANSITIONS|
      invariant forall k :: k in index <==> exists j :: 0 <= j < i && k == Key(ORDER_TRANSITIONS[j])
      invariant forall j :: 0 <= j < i ==> index[Key(ORDER_TRANSITIONS[j])] == ORDER_TRANSITIONS[j]
    {
      TableKeysDistinct();
      index := index[Key(ORDER_TRANSITIONS[i]) := ORDER_TRANSITIONS[i]];
    }
    TableIsComplete(index);
  }

  function Key(t: OrderTransition): (Option<OrderStatus>, OrderStatus) { (t.from, t.to) }

  lemma TableKeysDistinct()
    ensures forall i, j :: 0 <= i < j < |ORDER_TRANSITIONS| ==> Key(ORDER_TRANSITIONS[i]) != Key(ORDER_TRANSITIONS[j])
  {
  }

  lemma TableIsComplete(index: TransitionIndex)
    requires forall k :: k in index <==> exists j :: 0 <= j < |ORDER_TRANSITIONS| && k == Key(ORDER_TRANSITIONS[j])
    requires forall j :: 0 <= j < |ORDER_TRANSITIONS| ==> index[Key(ORDER_TRANSITIONS[j])] == ORDER_TRANSITIONS[j]
    ensures forall from, to ::
              (if (Some(from), to) in index then Some(index[(Some(from), to)]) else None) == FindTransition(from, to)
    ensures (None, Placed) in index && index[(None, Placed)].emits == EmitsPlaced
  {
    assert Key(ORDER_TRANSITIONS[0]) == (None, Placed);
    forall from: OrderStatus, to: OrderStatus
      ensures (if (Some(from), to) in index then Some(index[(Some(from), to)]) else None) == FindTransition(from, to)
    {
      match FindTransition(from, to)
      case Some(t) =>
        var j := RowOf(from, to);
        assert ORDER_TRANSITIONS[j] == t;
        assert Key(ORDER_TRANSITIONS[j]) == (Some(from), to);
      case None =>
        forall j | 0 <= j < |ORDER_TRANSITIONS| ensures Key(ORDER_TRANSITIONS[j]) != (Some(from), to) {
          if ORDER_TRANSITIONS[j].from.Some? {
            RowIsFound(j);
          }
        }
    }
  }

  lemma RowIsFound(j: nat)
    requires j < |ORDER_TRANSITIONS| && ORDER_TRANSITIONS[j].from.Some?
    ensures FindTransition(ORDER_TRANSITIONS[j].from.value, ORDER_TRANSITIONS[j].to) == Some(ORDER_TRANSITIONS[j])
  {
  }

  function RowOf(from: OrderStatus, to: OrderStatus): (j: nat)
    requires FindTransition(from, to).Some?
    ensures j < |ORDER_TRANSITIONS| && ORDER_TRANSITIONS[j] == FindTransition(from, to).value
  {
    if to == Cancelled then 7 + StatusRank(from) else StatusRank(from)
  }

  /** Every legal edge climbs Table T-1, and nothing leaves a terminal status. */
  lemma TransitionsClimb(from: OrderStatus, to: OrderStatus)
    requires FindTransition(from, to).Some?
    ensures StatusRank(from) < StatusRank(to)
    ensures from != Completed && from != Cancelled
    ensures to == Cancelled ==> StatusRank(from) < StatusRank(Despatched)
  {
  }

  // ---- Totals ----

  function GrossOf(lines: seq<OrderLine>): int {
    if lines == [] then 0
      else GrossOf(lines[..|lines| - 1]) + lines[|lines| - 1].unitPrice.amount * lines[|lines| - 1].quantity
  }

  function DiscountOf(lines: seq<OrderLine>): int {
    if lines == [] then 0 else DiscountOf(lines[..|lines| - 1]) + lines[|lines| - 1].lineDiscount.amount
  }

  function NetOf(lines: seq<OrderLine>): int {
    GrossOf(lines) - DiscountOf(lines)
  }

  function HeaderFor(lines: seq<OrderLine>, currency: CurrencyCode, credit: CreditId): PlacedHeader {
    PlacedHeader(credit, currency, GrossOf(lines), DiscountOf(lines), NetOf(lines), lines)
  }

  /** Adding money of another currency fails before the sign of the total is looked at. */
  function ComputeOrderTotals(currency: CurrencyCode, lines: seq<OrderLine>): Result<OrderTotals, OrderError> {
    if !LineCurrenciesAgree(lines, currency) then Err(MoneyCurrencyMismatch)
    else if NetOf(lines) < 0 then Err(NegativeOrderTotal(NetOf(lines)))
    else Ok(OrderTotals(GrossOf(lines), DiscountOf(lines), NetOf(lines)))
  }

  /** The reductions over the lines, in line order; the order-level discount is the constant zero. */
  method ComputeTotals(currency: CurrencyCode, lines: seq<OrderLine>) returns (r: Result<OrderTotals, OrderError>)
    ensures r == ComputeOrderTotals(currency, lines)
  {
    var gross, discount := 0, 0;
    for i := 0 to |lines|
      invariant LineCurrenciesAgree(lines[..i], currency)
      invariant gross == GrossOf(lines[..i]) && discount == DiscountOf(lines[..i])
    {
      if lines[i].unitPrice.currency != currency || lines[i].lineDiscount.currency != currency {
        return Err(MoneyCurrencyMismatch);
      }
      assert lines[..i + 1][..i] == lines[..i];
      gross := gross + lines[i].unitPrice.amount * lines[i].quantity;
      discount := discount + lines[i].lineDiscount.amount;
    }
    assert lines[..|lines|] == lines;
    if gross - discount < 0 {
      return Err(NegativeOrderTotal(gross - discount));
    }
    return Ok(OrderTotals(gross, discount, gross - discount));
  }

  /** What the lines add up to, line by line: price times quantity, less the line's discount. */
  function LinesWorth(lines: seq<OrderLine>): int {
    if lines == [] then 0
    else lines[0].unitPrice.amount * lines[0].quantity - lines[0].lineDiscount.amount + LinesWorth(lines[1..])
  }

  /** The discounts of the lines alone. */
  function LinesDiscount(lines: seq<OrderLine>): int {
    if lines == [] then 0 else lines[0].lineDiscount.amount + LinesDiscount(lines[1..])
  }

  /** Every line counts, and counts once: the totals of a concatenation are the sums of the parts' totals. */
  lemma {:induction false} TotalsAdd(a: seq<OrderLine>, b: seq<OrderLine>)
    ensures GrossOf(a + b) == GrossOf(a) + GrossOf(b)
    ensures DiscountOf(a + b) == DiscountOf(a) + DiscountOf(b)
  {
    if b == [] {
      assert a + b == a;
    } else {
      TotalsAdd(a, b[..|b| - 1]);
      assert (a + b)[..|a + b| - 1] == a + b[..|b| - 1];
    }
  }

  lemma TotalsOfOneLine(line: OrderLine)
    ensures GrossOf([line]) == line.unitPrice.amount * line.quantity && DiscountOf([line]) == line.lineDiscount.amount
  {
    assert [line][..0] == [];
  }

  /** The totals of an order are the sums over its lines. */
  lemma {:induction false} TotalsAreSums(lines: seq<OrderLine>)
    ensures NetOf(lines) == LinesWorth(lines) && DiscountOf(lines) == LinesDiscount(lines)
    ensures GrossOf(lines) == LinesWorth(lines) + LinesDiscount(lines)
  {
    if lines != [] {
      TotalsAreSums(lines[1..]);
      TotalsAdd([lines[0]], lines[1..]);
      TotalsOfOneLine(lines[0]);
      assert [lines[0]] + lines[1..] == lines;
    }
  }

  predicate LineCurrenciesAgree(lines: seq<OrderLine>, currency: CurrencyCode) {
    forall i :: 0 <= i < |lines| ==>
      lines[i].unitPrice.currency == currency && lines[i].lineDiscount.currency == currency
  }

  /** What a placed or reconstituted order satisfies. */
  predicate ValidSnapshot(s: OrderSnapshot) {
    && s.lines != []
    && LineCurrenciesAgree(s.lines, s.currency)
    && NetOf(s.lines) >= 0
    && (s.status == Cancelled <==> s.cancellationReason.Some?)
  }

  // ---- What the command methods do, on snapshots ----

  /** The new snapshot and the facts recorded. */
  datatype Change = Change(order: OrderSnapshot, facts: seq<Fact>)

  function Transitioned(s: OrderSnapshot, to: OrderStatus): Result<Change, OrderError>
    requires to != Cancelled
  {
    match FindTransition(s.status, to)
    case None => Err(TransitionNotAllowed(s.status, to))
    case Some(t) => Ok(Change(s.(status := to),
                              if t.emits == EmitsConfirmed then [OrderConfirmedFact]
                              else if t.emits == EmitsCompleted then [OrderCompletedFact] else []))
  }

  function CancelledBy(s: OrderSnapshot, reason: CancellationReason,
                       steps: seq<CompensationStep>): Result<Change, OrderError> {
    if FindTransition(s.status, Cancelled).None? then Err(TransitionNotAllowed(s.status, Cancelled))
    else if reason == StockRejection && s.status != Placed then Err(ReasonNotApplicable(s.status, reason))
    else if reason == CreditRejection && s.status != StockReserved then Err(ReasonNotApplicable(s.status, reason))
    else Ok(Change(s.(status := Cancelled, cancellationReason := Some(reason)), [OrderCancelledFact(reason, steps)]))
  }

  class Order {
    const id: OrderId
    const lines: seq<OrderLine>
    const currency: CurrencyCode
    const credit: CreditId
    const totals: OrderTotals
    var status: OrderStatus
    var cancellationReason: Option<CancellationReason>
    var events: seq<Fact>

    ghost predicate Valid() reads this {
      ValidSnapshot(Snapshot()) && totals == OrderTotals(GrossOf(lines), DiscountOf(lines), NetOf(lines))
    }

    function Snapshot(): OrderSnapshot reads this {
      OrderSnapshot(lines, currency, credit, status, cancellationReason)
    }

    constructor FromSnapshot(id: OrderId, s: OrderSnapshot, totals: OrderTotals, events: seq<Fact>)
      ensures this.id == id && Snapshot() == s && this.totals == totals && this.events == events
    {
      this.id := id;
      lines, currency, credit := s.lines, s.currency, s.credit;
      this.totals := totals;
      status, cancellationReason := s.status, s.cancellationReason;
      this.events := events;
    }

    /** A new order: at least one line, one currency, a total that is not negative, and one fact. */
    static method Place(id: OrderId, lines: seq<OrderLine>, currency: CurrencyCode, credit: CreditId)
      returns (r: Result<Order, OrderError>)
      ensures r.Ok? <==> lines != [] && NetOf(lines) >= 0
                         && forall i :: 0 <= i < |lines| ==> lines[i].unitPrice.currency == currency
                                                             && lines[i].lineDiscount.currency == currency
      ensures r.Ok? ==> fresh(r.value) && r.value.Valid() && r.value.id == id
                        && r.value.Snapshot() == OrderSnapshot(lines, currency, credit, Placed, None)
                        && r.value.events == [OrderPlacedFact(HeaderFor(lines, currency, credit))]
      ensures r.Err? ==> r.error == (if lines == [] then EmptyOrder
                                     else if !LineCurrenciesAgree(lines, currency) then LineCurrencyMismatch
                                     else NegativeOrderTotal(NetOf(lines)))
    {
      if lines == [] {
        return Err(EmptyOrder);
      }
      var i := 0;
      while i < |lines|
        invariant 0 <= i <= |lines|
        invariant LineCurrenciesAgree(lines[..i], currency)
      {
        if lines[i].unitPrice.currency != currency || lines[i].lineDiscount.currency != currency {
          return Err(LineCurrencyMismatch);
        }
        i := i + 1;
      }
      assert lines[..i] == lines;
      var totals := ComputeTotals(currency, lines);
      if totals.Err? {
        return Err(totals.error);
      }
      var order := new Order.FromSnapshot(
        id, OrderSnapshot(lines, currency, credit, Placed, None), totals.value,
          [OrderPlacedFact(PlacedHeader(credit, currency, totals.value.initialAmount, totals.value.initialDiscount,
                                        totals.value.totalAmount, lines))]);
      return Ok(order);
    }

    /** Rebuilds a stored order; emits nothing, derives the totals afresh. */
    static method Reconstitute(id: OrderId, s: OrderSnapshot) returns (r: Result<Order, OrderError>)
      ensures r.Ok? <==> && s.lines != [] && NetOf(s.lines) >= 0
                         && (s.status == Cancelled <==> s.cancellationReason.Some?)
                         && forall i :: 0 <= i < |s.lines| ==> s.lines[i].unitPrice.currency == s.currency
                                                               && s.lines[i].lineDiscount.currency == s.currency
      ensures r.Ok? ==>
              fresh(r.value) && r.value.Valid() && r.value.id == id && r.value.Snapshot() == s && r.value.events == []
      ensures r.Err? ==> r.error == if s.lines == [] then EmptyOrder
                                    else if (s.status == Cancelled) != s.cancellationReason.Some? then InvalidSnapshot
                                    else if !LineCurrenciesAgree(s.lines, s.currency) then MoneyCurrencyMismatch
                                    else NegativeOrderTotal(NetOf(s.lines))
    {
      if s.lines == [] {
        return Err(EmptyOrder);
      }
      if (s.status == Cancelled) != s.cancellationReason.Some? {
        return Err(InvalidSnapshot);
      }
      var totals := ComputeTotals(s.currency, s.lines);
      if totals.Err? {
        return Err(totals.error);
      }
      var order := new Order.FromSnapshot(id, s, totals.value, []);
      return Ok(order);
    }

    /** The funnel of every command method: either the whole change, or an error and no change. */
    method TransitionTo(to: OrderStatus) returns (r: Result<(), OrderError>)
      requires to != Cancelled && Valid()
      modifies this
      ensures Valid()
      ensures match Transitioned(old(Snapshot()), to)
              case Ok(c) => r.Ok? && Snapshot() == c.order && events == old(events) + c.facts
              case Err(e) => r == Err(e) && Snapshot() == old(Snapshot()) && events == old(events)
    {
      var transition := FindTransition(status, to);
      if transition.None? {
        return Err(TransitionNotAllowed(status, to));
      }
      status := to;
      if transition.value.emits == EmitsConfirmed {
        events := events + [OrderConfirmedFact];
      } else if transition.value.emits == EmitsCompleted {
        events := events + [OrderCompletedFact];
      }
      return Ok(());
    }

    method Cancel(reason: CancellationReason, steps: seq<CompensationStep>) returns (r: Result<(), OrderError>)
      requires Valid()
      modifies this
      ensures Valid()
      ensures r.Ok? <==> && old(status) in {Placed, StockReserved, CreditApproved, Confirmed}
                         && (reason == StockRejection ==> old(status) == Placed)
                         && (reason == CreditRejection ==> old(status) == StockReserved)
      ensures match CancelledBy(old(Snapshot()), reason, steps)
              case Ok(c) => r.Ok? && Snapshot() == c.order && events == old(events) + c.facts
              case Err(e) => r == Err(e) && Snapshot() == old(Snapshot()) && events == old(events)
    {
      var transition := FindTransition(status, Cancelled);
      if transition.None? {
        return Err(TransitionNotAllowed(status, Cancelled));
      }
      if reason == StockRejection && status != Placed {
        return Err(ReasonNotApplicable(status, reason));
      }
      if reason == CreditRejection && status != StockReserved {
        return Err(ReasonNotApplicable(status, reason));
      }
      status, cancellationReason := Cancelled, Some(reason);
      events := events + [OrderCancelledFact(reason, steps)];
      return Ok(());
    }
  }
}
