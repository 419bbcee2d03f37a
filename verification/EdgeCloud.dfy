/** What the cloud does with the bills and kitchen updates it is sent, and how it numbers them. */
module EdgeCloud {
  import opened Options
  import opened Rounding
  import opened Money
  import opened BillNumber
  import opened EdgeModel
  import opened EdgeWorld
  import opened EdgePayload

  // ---------- What is let in ----------

  /**
   A bill that is let in is closed and has a line, none of its amounts is negative, its payments are of known
   modes and come to a paisa each at least, and its number counts from one.
   */
  lemma LetInIsSound(p: Payload)
    requires Acceptable(p)
    ensures p.status in {Settled, Cancelled} && |p.items + p.combos| >= 1
    ensures 0 <= p.subtotal && 0 <= p.tax && 0 <= p.total && 0 <= p.couponPaise && 0 <= ToPaise(p.manualRupees)
    ensures Paid(p.payments) >= |p.payments| && forall t :: t in p.payments ==> t.mode in PAYMENT_MODES
    ensures p.billNo.Some? ==> 1 <= p.billNo.value.seqNo
  {
    ExactIsSigned(p.manualRupees);
    hide LineAcceptable, NumberAcceptable, Paid, ToPaise;
    PaymentsCount(p.payments);
    hide PaymentAcceptable;
    assert p.billNo.Some? ==> NumberAcceptable(p.billNo, p.billNumber);
    NumberCountsFromOne(p.billNo, p.billNumber);
  }

  lemma NumberCountsFromOne(b: Option<BillNo>, text: Option<string>)
    requires NumberAcceptable(b, text)
    ensures b.Some? ==> 1 <= b.value.seqNo
  {}

  lemma ExactIsSigned(rupees: real)
    requires ExactPaise(rupees)
    ensures rupees >= 0.0 ==> ToPaise(rupees) >= 0
    ensures rupees > 0.0 ==> ToPaise(rupees) >= 1
  {
    hide ToPaise;
  }

  lemma {:induction false} PaymentsCount(payments: seq<Payment>)
    requires forall i :: 0 <= i < |payments| ==> PaymentAcceptable(payments[i])
    ensures Paid(payments) >= |payments|
    decreases |payments|
  {
    if payments != [] {
      PaymentsCount(payments[..|payments| - 1]);
      ExactIsSigned(payments[|payments| - 1].rupees);
    }
  }

  // ---------- One operation ----------

  /** A payload line is charged its price times its quantity, and taxed at its own rate on that. */
  lemma EntryIsPriceTimesQuantity(ls: seq<PayloadLine>, l: PayloadLine)
    ensures Subtotal(PayloadMoneys(ls + [l])) == Subtotal(PayloadMoneys(ls)) + l.unitPaise * l.quantity
    ensures 100.0 * (RawTax(PayloadMoneys(ls + [l])) - RawTax(PayloadMoneys(ls)))
            == l.taxRate * (l.unitPaise * l.quantity) as real
  {
    hide Subtotal, RawTax;
    var m := PayloadMoney(l);
    assert PayloadMoneys(ls + [l]) == PayloadMoneys(ls) + [MoneyLine(m.paise, m.ratePercent)];
    OneMoreLine(PayloadMoneys(ls), m.paise, m.ratePercent);
  }

  /** The figures on the bill are those of its own lines and discounts, and its payments come to the total. */
  ghost predicate AddsUp(p: Payload) {
    var lines, d := PayloadMoneys(p.items) + PayloadMoneys(p.combos), ToPaise(p.manualRupees) + p.couponPaise;
    && (exists discount :: Reckoned(lines, d, Totals(p.subtotal, discount, p.tax, p.total)))
    && (p.status == Settled ==> Paid(p.payments) == p.total)
  }

  lemma AddsUpIff(p: Payload)
    ensures FiguresAddUp(p) <==> AddsUp(p)
  {
    hide Reckoned, OrderTotals, Paid, ToPaise;
    var lines, d := PayloadMoneys(p.items) + PayloadMoneys(p.combos), ToPaise(p.manualRupees) + p.couponPaise;
    var t := Recompute(p);
    PaiseRoundTrip(d);
    TotalsAreReckoned(lines, FromPaise(d));
    if discount :| Reckoned(lines, d, Totals(p.subtotal, discount, p.tax, p.total)) {
      ReckonedOnce(lines, d, t, Totals(p.subtotal, discount, p.tax, p.total));
    }
    if FiguresAddUp(p) {
      assert Totals(p.subtotal, t.discount, p.tax, p.total) == t;
    }
  }

  /** The number on a settled bill can be used: of a known series, printed as it is, and not used yet. */
  ghost predicate NumberUsable(cloud: Cloud, p: Payload) {
    && p.status == Settled && p.billNo.Some? && p.billNo.value.series in cloud.series
    && p.billNumber.Some? && p.billNumber == Format(p.billNo.value)
    && p.billNo.value !in cloud.sequences && p.billNumber.value !in cloud.invoices
  }

  /** The cloud takes the bill: it is on record, once more in the log, and filed. */
  ghost predicate TakenInto(cloud: Cloud, n: Cloud, p: Payload) {
    && n.orders == cloud.orders[p.clientId := p] && n.log == cloud.log + [p.clientId] && n.series == cloud.series
    && (if NumberUsable(cloud, p) then
          && n.filed == cloud.filed[p.clientId := DeviceNumber(p.billNumber.value)]
          && n.sequences == cloud.sequences[p.billNo.value := p.clientId]
          && n.invoices == cloud.invoices[p.billNumber.value := p.clientId]
          && n.nextOutletNumber == cloud.nextOutletNumber
        else
          && n.sequences == cloud.sequences && n.invoices == cloud.invoices
          && if p.status == Settled then
               && n.filed == cloud.filed[p.clientId := OutletNumber(cloud.nextOutletNumber)]
               && n.nextOutletNumber == cloud.nextOutletNumber + 1
             else
               n.filed == cloud.filed[p.clientId := Unnumbered] && n.nextOutletNumber == cloud.nextOutletNumber)
  }

  /**
   A bill is a duplicate exactly when the cloud has it, and taken exactly when it has not, nothing fails
   meanwhile, the bill adds up and all it refers to is known; otherwise nothing changes.  A bill taken is
   flagged exactly when it is settled and the number it carries cannot be used, or for a reason beyond it.
   */
  lemma BillIsTakenIff(cloud: Cloud, p: Payload, env: Env)
    ensures var r := Ingest(cloud, OrderOp(p), env);
            && (r.status == Duplicate <==> p.clientId in cloud.orders)
            && (r.status in {Applied, Conflict} <==>
                  p.clientId !in cloud.orders && !env.transient && AddsUp(p) && !env.unknownRefs)
            && (r.status == Retry <==> p.clientId !in cloud.orders && env.transient)
            && (if r.status in {Applied, Conflict} then TakenInto(cloud, r.cloud, p) else r.cloud == cloud)
            && (r.status in {Applied, Conflict} ==>
                  (r.status == Conflict <==>
                     env.flagged || (p.status == Settled && p.billNo.Some? && !NumberUsable(cloud, p))))
  {
    hide FiguresAddUp, AddsUp, Format;
    AddsUpIff(p);
  }

  /** An update is taken exactly when the cloud has its order and nothing fails, and changes that order only. */
  lemma UpdateIsTakenIff(cloud: Cloud, c: ClientId, uuid: string, lines: seq<KotLine>, env: Env)
    ensures var r := Ingest(cloud, KotOp(c, uuid, lines), env);
            && (r.status == Applied <==> c in cloud.orders && !env.transient)
            && (r.status != Applied ==> r.status == Retry)
            && (if r.status == Applied then
                  && r.cloud == cloud.(orders := r.cloud.orders) && r.cloud.orders.Keys == cloud.orders.Keys
                  && forall d :: d in cloud.orders && d != c ==> r.cloud.orders[d] == cloud.orders[d]
                else r.cloud == cloud)
  {
    hide ApplyKot;
  }

  // ---------- The outlet's own numbers ----------

  /**
   Every order is filed: a settled one under the number of the terminal or the next of the outlet, which are
   used without a gap and once each; any other without a number.
   */
  ghost predicate Filed(cloud: Cloud) {
    && cloud.orders.Keys == cloud.filed.Keys && cloud.nextOutletNumber >= 1
    && (forall c :: c in cloud.orders ==> (cloud.filed[c] == Unnumbered <==> cloud.orders[c].status != Settled))
    && (forall c :: c in cloud.filed && cloud.filed[c].OutletNumber? ==>
          1 <= cloud.filed[c].n < cloud.nextOutletNumber)
    && (forall n: nat :: 1 <= n < cloud.nextOutletNumber ==> Drawn(cloud.filed, n))
    && (forall c, d :: c in cloud.filed && d in cloud.filed && cloud.filed[c].OutletNumber?
                       && cloud.filed[c] == cloud.filed[d]
                       ==> c == d)
  }

  /** Some order has the number of the outlet. */
  ghost predicate Drawn(filed: map<ClientId, Filing>, n: nat) {
    exists c :: c in filed && filed[c] == OutletNumber(n)
  }

  lemma TakingFiles(cloud: Cloud, n: Cloud, p: Payload)
    requires Filed(cloud) && p.clientId !in cloud.orders && TakenInto(cloud, n, p)
    ensures Filed(n)
  {
    hide Filed, Format;
    FilingOne(cloud, n, p, n.filed[p.clientId]);
  }

  lemma FilingOne(cloud: Cloud, n: Cloud, p: Payload, f: Filing)
    requires Filed(cloud) && p.clientId !in cloud.orders
    requires n.orders == cloud.orders[p.clientId := p] && n.filed == cloud.filed[p.clientId := f]
    requires f == Unnumbered <==> p.status != Settled
    requires if f.OutletNumber? then f.n == cloud.nextOutletNumber && n.nextOutletNumber == f.n + 1
             else n.nextOutletNumber == cloud.nextOutletNumber
    ensures Filed(n)
  {
    forall k: nat | 1 <= k < n.nextOutletNumber
      ensures Drawn(n.filed, k)
    {
      if k < cloud.nextOutletNumber {
        assert Drawn(cloud.filed, k);
        var d :| d in cloud.filed && cloud.filed[d] == OutletNumber(k);
        assert n.filed[d] == OutletNumber(k);
      } else {
        assert n.filed[p.clientId] == OutletNumber(k);
      }
    }
  }

  lemma UpdatingFiles(cloud: Cloud, c: ClientId, lines: seq<KotLine>)
    requires Filed(cloud) && c in cloud.orders
    ensures Filed(cloud.(orders := cloud.orders[c := ApplyKot(cloud.orders[c], lines)]))
  {
    hide ApplyKot;
    UpdateKeepsStatus(cloud.orders[c], lines);
  }

  lemma UpdateKeepsStatus(p: Payload, lines: seq<KotLine>)
    ensures ApplyKot(p, lines).status == p.status
  {
    hide StripLines;
    KitchenUpdateKeepsBill(p, lines);
    assert Strip(ApplyKot(p, lines)).status == Strip(p).status;
  }

  lemma IngestFiles(cloud: Cloud, op: Op, env: Env)
    requires Filed(cloud)
    ensures Filed(Ingest(cloud, op, env).cloud)
  {
    hide Filed, TakenInto, AddsUp, FiguresAddUp, InsertOrder, ApplyKot, BillConflict;
    match op
    case OrderOp(p) =>
      BillIsTakenIff(cloud, p, env);
      if Ingest(cloud, op, env).status in {Applied, Conflict} {
        TakingFiles(cloud, Ingest(cloud, op, env).cloud, p);
      }
    case KotOp(c, _, lines) =>
      if c in cloud.orders {
        UpdatingFiles(cloud, c, lines);
      }
  }

  lemma StepFiles(w: World, a: Action)
    requires Filed(w.cloud) && Enabled(w, a)
    ensures Filed(Next(w, a).cloud)
  {
    hide Filed, Ingest, ApplyReplies, RejectMissing, RequestAcceptable, Ops, Transact;
    if a.Handle? {
      IngestFiles(w.cloud, a.op, a.env);
    } else if IsLocal(a) {
      SeriesDoNotFile(w.cloud, Next(w, a).cloud.series);
    }
  }

  lemma SeriesDoNotFile(cloud: Cloud, series: set<string>)
    requires Filed(cloud)
    ensures Filed(cloud.(series := series))
  {}

  lemma {:induction false} RunsFile(w: World, run: seq<Action>)
    requires Filed(w.cloud) && Legal(w, run)
    ensures Filed(After(w, run).cloud)
    decreases |run|
  {
    hide Filed, Next, Enabled;
    if run != [] {
      StepFiles(w, run[0]);
      RunsFile(Next(w, run[0]), run[1..]);
    }
  }

  /**
   In every run the outlet's own numbers are exactly 1 to the next one, each on one settled bill; every
   settled bill in the cloud has a number of one kind or the other, and no other order has any.
   */
  lemma OutletNumbersAreGapless(run: seq<Action>)
    requires Legal(START, run)
    ensures Filed(After(START, run).cloud)
  {
    hide Legal, After;
    assert Filed(START.cloud);
    RunsFile(START, run);
  }
}
