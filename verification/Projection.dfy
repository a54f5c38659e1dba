/** The projector: facts to deltas, deltas to one document per order, in whatever order they arrive. */
module Projection {
  import opened Kernel

  /** Written only while the corresponding field is empty. */
  datatype FillIfAbsent = FillIfAbsent(
    despatchReference: Option<nat>, invoiceReference: Option<nat>, paymentReference: Option<PaymentReference>,
    cancellationReason: Option<CancellationReason>)

  const NOTHING_TO_FILL := FillIfAbsent(None, None, None, None)

  /** `header` is present for `order.placed` only, and written unconditionally. */
  datatype Delta = Delta(
    impliedStatus: Option<OrderStatus>, statusRank: nat, fill: FillIfAbsent, header: Option<PlacedHeader>)

  /** The timeline is the set of its entries: the stored array is sorted afresh on every update by a key that ends in
      the event id, so the entries alone determine it. */
  datatype Document = Document(
    processed: set<EventId>, events: set<Envelope>, status: OrderStatus, statusRank: nat, fields: FillIfAbsent,
    header: Option<PlacedHeader>)

  // ---- The rank table ----

  function ImpliedStatusOf(f: Fact): Option<OrderStatus> {
    match f
    case OrderPlacedFact(_) => Some(Placed)
    case StockReservedFact(_) => Some(StockReserved)
    case CreditApprovedFact(_, _) => Some(CreditApproved)
    case OrderConfirmedFact => Some(Confirmed)
    case OrderDespatchedFact(_, _) => Some(Despatched)
    case InvoiceIssuedFact(_, _) => Some(Invoiced)
    case PaymentReceivedFact(_, _) => Some(Paid)
    case OrderCompletedFact => Some(Completed)
    case OrderCancelledFact(_, _) => Some(Cancelled)
    case _ => None
  }

  function RankOf(f: Fact): nat {
    match f
    case OrderPlacedFact(_) => 1
    case StockReservedFact(_) => 2
    case CreditApprovedFact(_, _) => 3
    case OrderConfirmedFact => 4
    case OrderDespatchedFact(_, _) => 5
    case InvoiceIssuedFact(_, _) => 6
    case PaymentReceivedFact(_, _) => 7
    case OrderCompletedFact => 98
    case OrderCancelledFact(_, _) => 99
    case _ => 0
  }

  /** The status that a rank stands for; the placeholder's rank stands for `placed`. */
  function StatusOfRank(rank: nat): OrderStatus {
    if rank <= 1 then Placed
    else if rank == 2 then StockReserved
    else if rank == 3 then CreditApproved
    else if rank == 4 then Confirmed
    else if rank == 5 then Despatched
    else if rank == 6 then Invoiced
    else if rank == 7 then Paid
    else if rank == 98 then Completed
    else Cancelled
  }

  /** Ranks name statuses, and climb along every edge of Table T-1 and from every status to `cancelled`. */
  lemma RanksNameStatuses(f: Fact, g: Fact)
    ensures ImpliedStatusOf(f).Some? <==> RankOf(f) > 0
    ensures ImpliedStatusOf(f).Some? ==> ImpliedStatusOf(f).value == StatusOfRank(RankOf(f))
    ensures ImpliedStatusOf(f).Some? && ImpliedStatusOf(g).Some? ==>
              (RankOf(f) < RankOf(g) <==> StatusRank(ImpliedStatusOf(f).value) < StatusRank(ImpliedStatusOf(g).value))
  {
  }

  function FillOf(f: Fact): FillIfAbsent {
    match f
    case OrderDespatchedFact(reference, _) => NOTHING_TO_FILL.(despatchReference := Some(reference))
    case InvoiceIssuedFact(reference, _) => NOTHING_TO_FILL.(invoiceReference := Some(reference))
    case PaymentReceivedFact(reference, _) => NOTHING_TO_FILL.(paymentReference := Some(reference))
    case OrderCancelledFact(reason, _) => NOTHING_TO_FILL.(cancellationReason := Some(reason))
    case _ => NOTHING_TO_FILL
  }

  function HeaderOf(f: Fact): Option<PlacedHeader> {
    if f.OrderPlacedFact? then Some(f.header) else None
  }

  function ProjectFact(f: Fact): Delta {
    Delta(ImpliedStatusOf(f), RankOf(f), FillOf(f), HeaderOf(f))
  }

  // ---- One apply ----

  function Max(a: nat, b: nat): nat {
    if a < b then b else a
  }

  function IfAbsent<T>(field: Option<T>, value: Option<T>): Option<T> {
    if field.Some? then field else value
  }

  function Filled(fields: FillIfAbsent, fill: FillIfAbsent): FillIfAbsent {
    FillIfAbsent(IfAbsent(fields.despatchReference, fill.despatchReference),
                 IfAbsent(fields.invoiceReference, fill.invoiceReference),
                 IfAbsent(fields.paymentReference, fill.paymentReference),
                 IfAbsent(fields.cancellationReason, fill.cancellationReason))
  }

  /** One atomic update, skipped when the event key is there already; the status rises only on a strictly greater
      rank. */
  function Apply(d: Document, e: Envelope): Document {
    if e.eventId in d.processed then d
    else
      var delta := ProjectFact(e.fact);
      Document(d.processed + {e.eventId},
               d.events + {e},
               if delta.impliedStatus.Some? && delta.statusRank > d.statusRank then delta.impliedStatus.value
                 else d.status,
               Max(d.statusRank, delta.statusRank),
               Filled(d.fields, delta.fill),
               if delta.header.Some? then delta.header else d.header)
  }

  /** What a fact that arrives before all others finds. */
  const PLACEHOLDER := Document({}, {}, Placed, 0, NOTHING_TO_FILL, None)

  function Project(es: seq<Envelope>): Document {
    if es == [] then PLACEHOLDER else Apply(Project(es[..|es| - 1]), es[|es| - 1])
  }

  // ---- What a document says about the facts it has seen ----

  function DespatchOf(e: Envelope): Option<nat> { FillOf(e.fact).despatchReference }

  function InvoiceOf(e: Envelope): Option<nat> { FillOf(e.fact).invoiceReference }

  function PaymentOf(e: Envelope): Option<PaymentReference> { FillOf(e.fact).paymentReference }

  function ReasonOf(e: Envelope): Option<CancellationReason> { FillOf(e.fact).cancellationReason }

  function PlacedOf(e: Envelope): Option<PlacedHeader> { HeaderOf(e.fact) }

  /** An id names one envelope, and each field has one value among the facts. */
  ghost predicate OneSource(es: seq<Envelope>) {
    forall i, j :: 0 <= i < |es| && 0 <= j < |es| ==> Agree(es[i], es[j])
  }

  predicate Agree(a: Envelope, b: Envelope) {
    && (a.eventId == b.eventId ==> a == b)
    && AgreeOn(DespatchOf(a), DespatchOf(b))
    && AgreeOn(InvoiceOf(a), InvoiceOf(b))
    && AgreeOn(PaymentOf(a), PaymentOf(b))
    && AgreeOn(ReasonOf(a), ReasonOf(b))
    && AgreeOn(PlacedOf(a), PlacedOf(b))
  }

  predicate AgreeOn<T(==)>(a: Option<T>, b: Option<T>) {
    a.Some? && b.Some? ==> a == b
  }

  /** `field` is a value that some fact supplies, and empty when none does. */
  ghost predicate Supplied<T(!new)>(field: Option<T>, of: Envelope -> Option<T>, es: seq<Envelope>) {
    && (field.Some? ==> exists i :: 0 <= i < |es| && of(es[i]) == field)
    && (field.None? ==> forall i :: 0 <= i < |es| ==> of(es[i]).None?)
  }

  /** The declarative reading of a document: which events, the greatest rank and its status, and for every field a value
      that some fact supplies. */
  ghost predicate Reads(d: Document, es: seq<Envelope>) {
    && (forall id :: id in d.processed <==> exists i :: 0 <= i < |es| && es[i].eventId == id)
    && (forall x :: x in d.events <==> x in es)
    && (forall i :: 0 <= i < |es| ==> RankOf(es[i].fact) <= d.statusRank)
    && (d.statusRank == 0 || exists i :: 0 <= i < |es| && RankOf(es[i].fact) == d.statusRank)
    && d.status == StatusOfRank(d.statusRank)
    && Supplied(d.fields.despatchReference, DespatchOf, es)
    && Supplied(d.fields.invoiceReference, InvoiceOf, es)
    && Supplied(d.fields.paymentReference, PaymentOf, es)
    && Supplied(d.fields.cancellationReason, ReasonOf, es)
    && Supplied(d.header, PlacedOf, es)
  }

  lemma SuppliedGrows<T(!new)>(field: Option<T>, of: Envelope -> Option<T>, es: seq<Envelope>, e: Envelope,
                               field': Option<T>)
    requires Supplied(field, of, es)
    requires field' == field || (field' == of(e) && field'.Some?)
    requires field'.None? ==> of(e).None?
    ensures Supplied(field', of, es + [e])
  {
    if field'.Some? {
      if field' == field {
        var i :| 0 <= i < |es| && of(es[i]) == field;
        assert of((es + [e])[i]) == field';
      } else {
        assert of((es + [e])[|es|]) == field';
      }
    }
  }

  lemma AppliedReads(d: Document, es: seq<Envelope>, e: Envelope)
    requires Reads(d, es) && e.eventId !in d.processed
    ensures Reads(Apply(d, e), es + [e])
  {
    var d', all := Apply(d, e), es + [e];
    RanksNameStatuses(e.fact, e.fact);
    SuppliedGrows(d.fields.despatchReference, DespatchOf, es, e, d'.fields.despatchReference);
    SuppliedGrows(d.fields.invoiceReference, InvoiceOf, es, e, d'.fields.invoiceReference);
    SuppliedGrows(d.fields.paymentReference, PaymentOf, es, e, d'.fields.paymentReference);
    SuppliedGrows(d.fields.cancellationReason, ReasonOf, es, e, d'.fields.cancellationReason);
    SuppliedGrows(d.header, PlacedOf, es, e, d'.header);
    forall id ensures id in d'.processed <==> exists i :: 0 <= i < |all| && all[i].eventId == id {
      if id in d.processed {
        var i :| 0 <= i < |es| && es[i].eventId == id;
        assert all[i].eventId == id;
      }
      assert all[|es|].eventId == e.eventId;
      assert forall i :: 0 <= i < |es| ==> all[i] == es[i];
    }
    if d'.statusRank > d.statusRank {
      assert RankOf(all[|es|].fact) == d'.statusRank;
    } else if d.statusRank != 0 {
      var i :| 0 <= i < |es| && RankOf(es[i].fact) == d.statusRank;
      assert RankOf(all[i].fact) == d'.statusRank;
    }
  }

  lemma RepeatedReads(d: Document, es: seq<Envelope>, e: Envelope)
    requires Reads(d, es) && e in es
    ensures Apply(d, e) == d && Reads(d, es + [e])
  {
    var all := es + [e];
    var k :| 0 <= k < |es| && es[k] == e;
    assert es[k].eventId == e.eventId;
    assert forall i :: 0 <= i < |all| ==> all[i] in es;
    forall id | id in d.processed ensures exists i :: 0 <= i < |all| && all[i].eventId == id {
      var i :| 0 <= i < |es| && es[i].eventId == id;
      assert all[i].eventId == id;
    }
    if d.statusRank != 0 {
      var i :| 0 <= i < |es| && RankOf(es[i].fact) == d.statusRank;
      assert RankOf(all[i].fact) == d.statusRank;
    }
    FieldsAgain(d, es, e);
  }

  lemma FieldsAgain(d: Document, es: seq<Envelope>, e: Envelope)
    requires Reads(d, es) && e in es
    ensures Supplied(d.fields.despatchReference, DespatchOf, es + [e])
            && Supplied(d.fields.invoiceReference, InvoiceOf, es + [e])
    ensures Supplied(d.fields.paymentReference, PaymentOf, es + [e])
            && Supplied(d.fields.cancellationReason, ReasonOf, es + [e])
    ensures Supplied(d.header, PlacedOf, es + [e])
  {
    SuppliedAgain(d.fields.despatchReference, DespatchOf, es, e);
    SuppliedAgain(d.fields.invoiceReference, InvoiceOf, es, e);
    SuppliedAgain(d.fields.paymentReference, PaymentOf, es, e);
    SuppliedAgain(d.fields.cancellationReason, ReasonOf, es, e);
    SuppliedAgain(d.header, PlacedOf, es, e);
  }

  lemma SuppliedAgain<T(!new)>(field: Option<T>, of: Envelope -> Option<T>, es: seq<Envelope>, e: Envelope)
    requires Supplied(field, of, es) && e in es
    ensures Supplied(field, of, es + [e])
  {
    if field.Some? {
      var i :| 0 <= i < |es| && of(es[i]) == field;
      assert of((es + [e])[i]) == field;
    }
  }

  /** The fold always has its declarative reading, provided an id names one envelope. */
  lemma {:induction false} ProjectReads(es: seq<Envelope>)
    requires IdsNameEnvelopes(es)
    ensures Reads(Project(es), es)
  {
    if es != [] {
      var init, last := es[..|es| - 1], es[|es| - 1];
      ProjectReads(init);
      assert init + [last] == es;
      if last.eventId in Project(init).processed {
        var i :| 0 <= i < |init| && init[i].eventId == last.eventId;
        assert es[i] == es[|es| - 1];
        RepeatedReads(Project(init), init, last);
      } else {
        AppliedReads(Project(init), init, last);
      }
    }
  }

  // ---- What the fields say ----

  predicate NamesDespatch(es: seq<Envelope>, reference: nat) {
    exists e :: e in es && e.fact.OrderDespatchedFact? && e.fact.despatchReference == reference
  }

  predicate NamesInvoice(es: seq<Envelope>, reference: nat) {
    exists e :: e in es && e.fact.InvoiceIssuedFact? && e.fact.invoiceReference == reference
  }

  predicate NamesPayment(es: seq<Envelope>, reference: PaymentReference) {
    exists e :: e in es && e.fact.PaymentReceivedFact? && e.fact.paymentReference == reference
  }

  predicate NamesReason(es: seq<Envelope>, reason: CancellationReason) {
    exists e :: e in es && e.fact.OrderCancelledFact? && e.fact.reason == reason
  }

  predicate NamesHeader(es: seq<Envelope>, header: PlacedHeader) {
    exists e :: e in es && e.fact.OrderPlacedFact? && e.fact.header == header
  }

  /** A supplied field is what one of the facts supplies, and with one source it is what every one of them supplies. */
  lemma FieldSays<T(!new)>(field: Option<T>, of: Envelope -> Option<T>, es: seq<Envelope>, value: T)
    requires Supplied(field, of, es)
    requires forall x, y :: x in es && y in es && of(x).Some? && of(y).Some? ==> of(x) == of(y)
    ensures field == Some(value) <==> exists e :: e in es && of(e) == Some(value)
  {
    if field == Some(value) {
      var i :| 0 <= i < |es| && of(es[i]) == field;
      assert es[i] in es;
    }
    if e :| e in es && of(e) == Some(value) {
      var k :| 0 <= k < |es| && es[k] == e;
      assert of(es[k]).Some?;
      var i :| 0 <= i < |es| && of(es[i]) == field;
      assert es[i] in es;
    }
  }

  lemma SourcesAgree(es: seq<Envelope>, x: Envelope, y: Envelope)
    requires OneSource(es) && x in es && y in es
    ensures Agree(x, y)
  {
    var i :| 0 <= i < |es| && es[i] == x;
    var j :| 0 <= j < |es| && es[j] == y;
    assert Agree(es[i], es[j]);
  }

  lemma OneSourceNames(es: seq<Envelope>)
    requires OneSource(es)
    ensures IdsNameEnvelopes(es)
  {
    forall i, j | 0 <= i < |es| && 0 <= j < |es| && es[i].eventId == es[j].eventId ensures es[i] == es[j] {
      assert Agree(es[i], es[j]);
    }
  }

  /** Each field of the document has the value that the facts of its own kind carry, and none other: the despatch
      reference that of the despatch, the invoice's that of the invoice, the payment's that of the payment, the reason
      that of the cancellation, and the header that of the placing. */
  lemma FieldsSay(es: seq<Envelope>)
    requires OneSource(es)
    ensures var d := Project(es);
            && (forall r: nat :: d.fields.despatchReference == Some(r) <==> NamesDespatch(es, r))
            && (forall r: nat :: d.fields.invoiceReference == Some(r) <==> NamesInvoice(es, r))
            && (forall r: nat :: d.fields.paymentReference == Some(r) <==> NamesPayment(es, r))
            && (forall r :: d.fields.cancellationReason == Some(r) <==> NamesReason(es, r))
            && (forall h :: d.header == Some(h) <==> NamesHeader(es, h))
  {
    var d := Project(es);
    OneSourceNames(es);
    ProjectReads(es);
    forall x, y | x in es && y in es ensures Agree(x, y) {
      SourcesAgree(es, x, y);
    }
    ReferencesSay(d, es);
    ReasonAndHeaderSay(d, es);
  }

  lemma ReferencesSay(d: Document, es: seq<Envelope>)
    requires Reads(d, es) && forall x, y :: x in es && y in es ==> Agree(x, y)
    ensures forall r: nat :: d.fields.despatchReference == Some(r) <==> NamesDespatch(es, r)
    ensures forall r: nat :: d.fields.invoiceReference == Some(r) <==> NamesInvoice(es, r)
    ensures forall r: nat :: d.fields.paymentReference == Some(r) <==> NamesPayment(es, r)
  {
    forall r: nat
      ensures d.fields.despatchReference == Some(r) <==> NamesDespatch(es, r)
      ensures d.fields.invoiceReference == Some(r) <==> NamesInvoice(es, r)
      ensures d.fields.paymentReference == Some(r) <==> NamesPayment(es, r)
    {
      DespatchSays(d, es, r);
      InvoiceSays(d, es, r);
      PaymentSays(d, es, r);
    }
  }

  lemma DespatchSays(d: Document, es: seq<Envelope>, r: nat)
    requires Supplied(d.fields.despatchReference, DespatchOf, es)
    requires forall x, y :: x in es && y in es ==> Agree(x, y)
    ensures d.fields.despatchReference == Some(r) <==> NamesDespatch(es, r)
  {
    FieldSays(d.fields.despatchReference, DespatchOf, es, r);
    if e :| e in es && DespatchOf(e) == Some(r) {
      assert e.fact.OrderDespatchedFact?;
    }
    if e :| e in es && e.fact.OrderDespatchedFact? && e.fact.despatchReference == r {
      assert DespatchOf(e) == Some(r);
    }
  }

  lemma InvoiceSays(d: Document, es: seq<Envelope>, r: nat)
    requires Supplied(d.fields.invoiceReference, InvoiceOf, es)
    requires forall x, y :: x in es && y in es ==> Agree(x, y)
    ensures d.fields.invoiceReference == Some(r) <==> NamesInvoice(es, r)
  {
    FieldSays(d.fields.invoiceReference, InvoiceOf, es, r);
    if e :| e in es && InvoiceOf(e) == Some(r) {
      assert e.fact.InvoiceIssuedFact?;
    }
    if e :| e in es && e.fact.InvoiceIssuedFact? && e.fact.invoiceReference == r {
      assert InvoiceOf(e) == Some(r);
    }
  }

  lemma PaymentSays(d: Document, es: seq<Envelope>, r: nat)
    requires Supplied(d.fields.paymentReference, PaymentOf, es)
    requires forall x, y :: x in es && y in es ==> Agree(x, y)
    ensures d.fields.paymentReference == Some(r) <==> NamesPayment(es, r)
  {
    FieldSays(d.fields.paymentReference, PaymentOf, es, r);
    if e :| e in es && PaymentOf(e) == Some(r) {
      assert e.fact.PaymentReceivedFact?;
    }
    if e :| e in es && e.fact.PaymentReceivedFact? && e.fact.paymentReference == r {
      assert PaymentOf(e) == Some(r);
    }
  }

  lemma ReasonAndHeaderSay(d: Document, es: seq<Envelope>)
    requires Reads(d, es) && forall x, y :: x in es && y in es ==> Agree(x, y)
    ensures forall r :: d.fields.cancellationReason == Some(r) <==> NamesReason(es, r)
    ensures forall h :: d.header == Some(h) <==> NamesHeader(es, h)
  {
    forall r ensures d.fields.cancellationReason == Some(r) <==> NamesReason(es, r) {
      FieldSays(d.fields.cancellationReason, ReasonOf, es, r);
    }
    forall h ensures d.header == Some(h) <==> NamesHeader(es, h) {
      FieldSays(d.header, PlacedOf, es, h);
    }
  }

  // ---- Convergence ----

  ghost predicate SameFacts(es: seq<Envelope>, fs: seq<Envelope>) {
    forall e :: e in es <==> e in fs
  }

  lemma SuppliedIsUnique<T(!new)>(a: Option<T>, b: Option<T>, of: Envelope -> Option<T>, es: seq<Envelope>,
                                  fs: seq<Envelope>)
    requires Supplied(a, of, es) && Supplied(b, of, fs) && SameFacts(es, fs)
    requires forall x, y :: x in es && y in es && of(x).Some? && of(y).Some? ==> of(x) == of(y)
    ensures a == b
  {
    if a.Some? {
      var i :| 0 <= i < |es| && of(es[i]) == a;
      assert es[i] in fs;
    }
    if b.Some? {
      var j :| 0 <= j < |fs| && of(fs[j]) == b;
      assert fs[j] in es;
    }
  }

  lemma SameRank(d: Document, es: seq<Envelope>, d': Document, fs: seq<Envelope>)
    requires Reads(d, es) && Reads(d', fs) && SameFacts(es, fs)
    ensures d.statusRank <= d'.statusRank
  {
    if d.statusRank != 0 {
      var i :| 0 <= i < |es| && RankOf(es[i].fact) == d.statusRank;
      assert es[i] in fs;
      var j :| 0 <= j < |fs| && fs[j] == es[i];
      assert RankOf(fs[j].fact) <= d'.statusRank;
    }
  }

  lemma SameProcessed(d: Document, es: seq<Envelope>, d': Document, fs: seq<Envelope>)
    requires Reads(d, es) && Reads(d', fs) && SameFacts(es, fs)
    ensures d.processed <= d'.processed
  {
    forall id | id in d.processed ensures id in d'.processed {
      var i :| 0 <= i < |es| && es[i].eventId == id;
      assert es[i] in fs;
      var j :| 0 <= j < |fs| && fs[j] == es[i];
      assert fs[j].eventId == id;
    }
  }

  /** The same facts, in any order and with any repeats, give the same document. */
  lemma ProjectionConverges(es: seq<Envelope>, fs: seq<Envelope>)
    requires OneSource(es) && SameFacts(es, fs)
    ensures Project(es) == Project(fs)
  {
    forall i, j | 0 <= i < |fs| && 0 <= j < |fs| ensures Agree(fs[i], fs[j]) {
      assert fs[i] in es && fs[j] in es;
      SourcesAgree(es, fs[i], fs[j]);
    }
    OneSourceNames(es);
    OneSourceNames(fs);
    ProjectReads(es);
    ProjectReads(fs);
    SameDocument(Project(es), es, Project(fs), fs);
  }

  lemma SameDocument(d: Document, es: seq<Envelope>, d': Document, fs: seq<Envelope>)
    requires OneSource(es) && SameFacts(es, fs) && Reads(d, es) && Reads(d', fs)
    ensures d == d'
  {
    SameRank(d, es, d', fs);
    SameRank(d', fs, d, es);
    SameProcessed(d, es, d', fs);
    SameProcessed(d', fs, d, es);
    SameReferences(d, es, d', fs);
    SameReasonAndHeader(d, es, d', fs);
  }

  lemma SameReferences(d: Document, es: seq<Envelope>, d': Document, fs: seq<Envelope>)
    requires OneSource(es) && SameFacts(es, fs) && Reads(d, es) && Reads(d', fs)
    ensures d.fields.despatchReference == d'.fields.despatchReference
            && d.fields.invoiceReference == d'.fields.invoiceReference
    ensures d.fields.paymentReference == d'.fields.paymentReference
  {
    forall x, y | x in es && y in es ensures Agree(x, y) {
      SourcesAgree(es, x, y);
    }
    SuppliedIsUnique(d.fields.despatchReference, d'.fields.despatchReference, DespatchOf, es, fs);
    SuppliedIsUnique(d.fields.invoiceReference, d'.fields.invoiceReference, InvoiceOf, es, fs);
    SuppliedIsUnique(d.fields.paymentReference, d'.fields.paymentReference, PaymentOf, es, fs);
  }

  lemma SameReasonAndHeader(d: Document, es: seq<Envelope>, d': Document, fs: seq<Envelope>)
    requires OneSource(es) && SameFacts(es, fs) && Reads(d, es) && Reads(d', fs)
    ensures d.fields.cancellationReason == d'.fields.cancellationReason && d.header == d'.header
  {
    forall x, y | x in es && y in es ensures Agree(x, y) {
      SourcesAgree(es, x, y);
    }
    SuppliedIsUnique(d.fields.cancellationReason, d'.fields.cancellationReason, ReasonOf, es, fs);
    SuppliedIsUnique(d.header, d'.header, PlacedOf, es, fs);
  }

  // ---- Exactly when it converges ----

  /** However the same facts arrive, the document is the same. */
  ghost predicate Converges(es: seq<Envelope>) {
    forall fs: seq<Envelope> :: SameFacts(es, fs) ==> Project(fs) == Project(es)
  }

  /** The fact that arrives first keeps every reference it supplies. */
  lemma {:induction false} FirstStays(a: Envelope, es: seq<Envelope>)
    ensures var fields := Project([a] + es).fields;
            && (DespatchOf(a).Some? ==> fields.despatchReference == DespatchOf(a))
            && (InvoiceOf(a).Some? ==> fields.invoiceReference == InvoiceOf(a))
            && (PaymentOf(a).Some? ==> fields.paymentReference == PaymentOf(a))
            && (ReasonOf(a).Some? ==> fields.cancellationReason == ReasonOf(a))
  {
    if es == [] {
      assert [a] + es == [a] && [a][..0] == [];
    } else {
      FirstStays(a, es[..|es| - 1]);
      assert ([a] + es)[..|es|] == [a] + es[..|es| - 1];
    }
  }

  lemma FirstIsSame(a: Envelope, es: seq<Envelope>)
    requires a in es
    ensures SameFacts(es, [a] + es)
  {
  }

  function Without(es: seq<Envelope>, a: Envelope): seq<Envelope> {
    if es == [] then []
    else Without(es[..|es| - 1], a) + if es[|es| - 1] == a then [] else [es[|es| - 1]]
  }

  lemma {:induction false} WithoutOne(es: seq<Envelope>, a: Envelope)
    ensures forall e :: e in Without(es, a) <==> e in es && e != a
  {
    if es != [] {
      WithoutOne(es[..|es| - 1], a);
      assert es == es[..|es| - 1] + [es[|es| - 1]];
    }
  }

  /** And the `order.placed` that arrives last, for the first time, keeps the header. */
  lemma LastHeaderStays(es: seq<Envelope>, a: Envelope)
    requires IdsNameEnvelopes(es) && a in es && PlacedOf(a).Some?
    ensures SameFacts(es, Without(es, a) + [a]) && Project(Without(es, a) + [a]).header == PlacedOf(a)
  {
    var others := Without(es, a);
    WithoutOne(es, a);
    forall i, j | 0 <= i < |others| && 0 <= j < |others| && others[i].eventId == others[j].eventId
      ensures others[i] == others[j]
    {
      NamedOnce(es, others[i], others[j]);
    }
    ProjectReads(others);
    if a.eventId in Project(others).processed {
      var i :| 0 <= i < |others| && others[i].eventId == a.eventId;
      NamedOnce(es, others[i], a);
    }
    assert (others + [a])[..|others|] == others;
  }

  lemma NamedOnce(es: seq<Envelope>, x: Envelope, y: Envelope)
    requires IdsNameEnvelopes(es) && x in es && y in es && x.eventId == y.eventId
    ensures x == y
  {
    var i :| 0 <= i < |es| && es[i] == x;
    var j :| 0 <= j < |es| && es[j] == y;
  }

  lemma ConvergingFactsAgree(es: seq<Envelope>, a: Envelope, b: Envelope)
    requires IdsNameEnvelopes(es) && Converges(es) && a in es && b in es
    ensures Agree(a, b)
  {
    FirstStays(a, es);
    FirstStays(b, es);
    FirstIsSame(a, es);
    FirstIsSame(b, es);
    assert Project([a] + es) == Project(es) == Project([b] + es);
    if PlacedOf(a).Some? && PlacedOf(b).Some? {
      LastHeaderStays(es, a);
      LastHeaderStays(es, b);
    }
    if a.eventId == b.eventId {
      NamedOnce(es, a, b);
    }
  }

  /** When ids name envelopes, the document is independent of how the facts arrive if and only if every reference, the
      cancellation reason and the header have one value among them. */
  lemma ConvergesExactly(es: seq<Envelope>)
    requires IdsNameEnvelopes(es)
    ensures Converges(es) <==> OneSource(es)
  {
    if OneSource(es) {
      forall fs: seq<Envelope> | SameFacts(es, fs) ensures Project(fs) == Project(es) {
        ProjectionConverges(es, fs);
      }
    }
    if Converges(es) {
      forall i, j | 0 <= i < |es| && 0 <= j < |es| ensures Agree(es[i], es[j]) {
        ConvergingFactsAgree(es, es[i], es[j]);
      }
    }
  }
}
