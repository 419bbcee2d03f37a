/** Which of the bills a terminal makes have the shape the cloud asks for, in terms of what was entered. */
module EdgeShape {
  import opened Options
  import opened Rounding
  import opened Money
  import opened Billing
  import opened BillNumber
  import opened EdgeModel
  import opened EdgeWorld
  import opened EdgeInvariant
  import opened EdgeSync
  import opened EdgeTheorems
  import opened EdgeProgress
  import opened EdgeAddress
  import opened EdgeOrders
  import opened EdgeBill

  /** A whole number of paise, exactly. */
  ghost predicate Exact(rupees: real) {
    exists paise: int :: IsPaise(rupees, paise)
  }

  predicate IsPaise(rupees: real, paise: int) {
    100.0 * rupees == paise as real
  }

  predicate AtMost(text: Option<string>, length: nat) {
    text.Some? ==> |text.value| <= length
  }

  predicate LineInShape(l: NewLine) {
    l.quantity >= 1 && l.unitPaise >= 0 && 0.0 <= l.taxRate <= 28.0 && AtMost(l.note, 200)
  }

  /**
   What the cloud asks of a bill that the terminal does not see to: short texts, lines with a quantity,
   prices and rates in range, amounts of whole paise, and no coupon of negative value.
   */
  ghost predicate InShape(o: Order) {
    && AtMost(o.customer.name, 80) && AtMost(o.customer.phone, 20) && AtMost(o.customer.address, 300)
    && AtMost(o.couponCode, 40) && AtMost(o.cancelReason, 200)
    && (forall i :: 0 <= i < |o.lines| ==> LineInShape(o.lines[i].what))
    && (o.status == Settled ==> forall i :: 0 <= i < |o.payments| ==> Exact(o.payments[i].rupees))
    && Exact(o.manualRupees) && o.couponPaise >= 0
  }

  lemma ExactMeans(rupees: real)
    ensures ExactPaise(rupees) <==> Exact(rupees)
  {
    if ExactPaise(rupees) {
      assert IsPaise(rupees, ToPaise(rupees));
    }
    if paise: int :| IsPaise(rupees, paise) {
      RoundUnique(rupees * 100.0, paise);
    }
  }

  lemma EntryInShape(e: PayloadLine, l: NewLine)
    requires SameSale(e, l)
    ensures LineAcceptable(e) <==> LineInShape(l)
  {}

  /** Every entry of the bill is some line of the order. */
  lemma LineOfEntry(o: Order, kind: LineKind, k: nat) returns (i: nat)
    requires k < |ListOf(PayloadOf(o), kind)|
    ensures i < |o.lines| && SameSale(ListOf(PayloadOf(o), kind)[k], o.lines[i].what)
  {
    hide CountKind;
    i := PayloadLineIsNamed(o.lines, kind, k);
    UpdateNamesPayloadLine(o.lines, i);
  }

  lemma LinesInShapeIff(o: Order)
    ensures var p := PayloadOf(o);
            (forall i :: 0 <= i < |p.items| ==> LineAcceptable(p.items[i]))
            && (forall i :: 0 <= i < |p.combos| ==> LineAcceptable(p.combos[i]))
            <==> forall i :: 0 <= i < |o.lines| ==> LineInShape(o.lines[i].what)
  {
    hide PayloadOf, SameSale, LineAcceptable, LineInShape, EarlierOfKind;
    var p := PayloadOf(o);
    if (forall i :: 0 <= i < |p.items| ==> LineAcceptable(p.items[i]))
       && (forall i :: 0 <= i < |p.combos| ==> LineAcceptable(p.combos[i])) {
      forall i | 0 <= i < |o.lines|
        ensures LineInShape(o.lines[i].what)
      {
        EntryOfLine(o, i);
        EntryInShape(ListOf(p, o.lines[i].what.kind)[EarlierOfKind(o.lines, i)], o.lines[i].what);
      }
    }
    if forall i :: 0 <= i < |o.lines| ==> LineInShape(o.lines[i].what) {
      forall kind: LineKind, k: nat | k < |ListOf(p, kind)|
        ensures LineAcceptable(ListOf(p, kind)[k])
      {
        var i := LineOfEntry(o, kind, k);
        EntryInShape(ListOf(p, kind)[k], o.lines[i].what);
      }
      assert ListOf(p, ItemLine) == p.items && ListOf(p, ComboLine) == p.combos;
    }
  }

  /** Lines in shape and a discount that is not negative give figures that are not negative. */
  lemma FiguresInShape(lines: seq<Line>, d: int)
    requires (forall i :: 0 <= i < |lines| ==> LineInShape(lines[i].what)) && d >= 0
    ensures var t := TotalsFor(lines, d);
            t.subtotal >= 0 && t.tax >= 0 && t.total >= 0
  {
    hide Subtotal, RawTax, Portion, Nearest, Times, ToPaise;
    var ms := MoneyLines(lines);
    forall i | 0 <= i < |ms|
      ensures ms[i].paise >= 0 && 0.0 <= ms[i].ratePercent <= 28.0
    {
      assert LineInShape(lines[i].what);
    }
    RawTaxBounds(ms, 0.0, 28.0);
    NoPortion(Subtotal(ms));
    OrderIsReckoned(lines, d);
    BlendIsNotNegative(RawTax(ms), Subtotal(ms) - ClampDiscount(d, Subtotal(ms)), Subtotal(ms));
    PaiseRoundTrip(d);
  }

  lemma NoPortion(paise: int)
    ensures Portion(0.0, paise) == 0.0
  {
    assert 0.0 * paise as real == 0.0;
  }

  lemma BlendIsNotNegative(raw: real, base: int, subtotal: int)
    requires raw >= 0.0 && base >= 0
    ensures BlendedTax(raw, base, subtotal) >= 0
  {
    BlendedTaxMonotone(raw, 0, base, subtotal);
    assert raw * 0.0 == 0.0;
    RoundUnique(0.0, 0);
  }

  lemma PaymentsInShapeIff(o: Order)
    requires o.status == Settled ==> forall i :: 0 <= i < |o.payments| ==> TenderOk(o.payments[i])
    ensures (forall i :: 0 <= i < |PayloadOf(o).payments| ==> PaymentAcceptable(PayloadOf(o).payments[i]))
            <==> (o.status == Settled ==> forall i :: 0 <= i < |o.payments| ==> Exact(o.payments[i].rupees))
  {
    hide Exact, LinesOfKind, PaymentAcceptable, TenderOk;
    assert PayloadOf(o).payments == if o.status == Settled then o.payments else [];
    hide PayloadOf;
    if o.status == Settled {
      forall i | 0 <= i < |o.payments|
        ensures PaymentAcceptable(o.payments[i]) <==> Exact(o.payments[i].rupees)
      {
        PaymentInShape(o.payments[i]);
      }
    }
  }

  lemma PaymentInShape(t: Payment)
    requires TenderOk(t)
    ensures PaymentAcceptable(t) <==> Exact(t.rupees)
  {
    hide Exact, ExactPaise, WholePaise;
    ExactMeans(t.rupees);
  }

  lemma NumberInShape(o: Order)
    requires ReceiptOk(o) && (o.billNo.Some? ==> o.billNo.value.seqNo >= 1)
    ensures NumberAcceptable(o.billNo, PrintedNumber(o))
  {
    hide NumberText;
  }

  /** A closed order that the terminal may have has an acceptable bill exactly when it is in shape. */
  lemma ShapeIff(o: Order)
    requires o.lines != [] && o.status != Open && ClosedFigures(o) && ReceiptOk(o)
    requires o.billNo.Some? ==> o.billNo.value.seqNo >= 1
    ensures Acceptable(PayloadOf(o)) <==> InShape(o)
  {
    hide LineAcceptable, LineInShape, PaymentAcceptable, Exact, ExactPaise, NumberAcceptable, TotalsFor, Paid, ToPaise,
      LinesOfKind, TenderOk, PrintedNumber, ReceiptOk;
    LinesInShapeIff(o);
    PaymentsInShapeIff(o);
    NumberInShape(o);
    ExactMeans(o.manualRupees);
    BillCoversLines(o);
    if o.couponPaise >= 0 && forall i :: 0 <= i < |o.lines| ==> LineInShape(o.lines[i].what) {
      ManualIsNotNegative(o.manualRupees);
      FiguresInShape(o.lines, Discount(o.manualRupees, o.couponPaise));
    }
  }

  lemma ManualIsNotNegative(rupees: real)
    requires rupees >= 0.0
    ensures ToPaise(rupees) >= 0
  {
    RoundMonotone(0.0, rupees * 100.0);
    RoundUnique(0.0, 0);
  }

  /** Every order that waits is a bill in shape, and the terminal may push. */
  ghost predicate ReadyToPush(db: Db) {
    db.seriesCode.Some?
    && forall c :: c in db.orders && OrderKey(c) in db.outbox && db.outbox[OrderKey(c)].status == Pending ==>
         InShape(db.orders[c].order)
  }

  lemma WaitingShape(w: World, c: ClientId)
    requires WorldInv(w) && c in w.db.orders && OrderKey(c) in w.db.outbox
    requires w.db.outbox[OrderKey(c)].status == Pending
    ensures Acceptable(PayloadOf(w.db.orders[c].order)) <==> InShape(w.db.orders[c].order)
  {
    hide CloudOk, FilingOk, OwnSeries, AckOk, WireOk, FlightOk, IdsOk, KeysOk, TablesOk, TicketsOk, Acceptable,
      PayloadOf, InShape, TotalsFor, Paid, TenderOk, ReceiptOk, WellFormedSeries;
    assert RowAgrees(w.db, c);
    var o, closed := w.db.orders[c].order, w.hist.closed[c];
    SameShape(o, closed);
    if o.billNo.Some? {
      assert w.hist.issued[closed.billNo.value] == c;
    }
    ShapeIff(o);
  }

  lemma SameShape(o: Order, closed: Order)
    requires SameExceptPrep(o, closed) && ClosedFigures(closed) && ReceiptOk(closed)
    ensures ClosedFigures(o) && ReceiptOk(o) && o.status == closed.status && o.billNo == closed.billNo
  {
    hide TotalsFor, Paid, TenderOk, NumberText;
    EdgeLocal.TotalsCongruent(o.lines, closed.lines, Discount(o.manualRupees, o.couponPaise));
  }

  /**
   After any run, pushes can drain the outbox exactly when nothing is pending, or the terminal is activated
   and every order that waits is in shape: texts, quantities, prices, rates and amounts, as they were entered.
   */
  lemma DrainableIffInShape(run: seq<Action>)
    requires Legal(START, run)
    ensures (exists more :: Drains(run, more)) <==>
              PendingKeys(After(START, run).db.outbox) == {} || ReadyToPush(After(START, run).db)
  {
    hide Drains, PendingKeys, Legal, After, WorldInv, InShape, Acceptable, PayloadOf;
    DrainableIff(run);
    Reached(run);
    var w := After(START, run);
    forall c | c in w.db.orders && OrderKey(c) in w.db.outbox && w.db.outbox[OrderKey(c)].status == Pending
      ensures Acceptable(PayloadOf(w.db.orders[c].order)) <==> InShape(w.db.orders[c].order)
    {
      WaitingShape(w, c);
    }
  }
}
