/**
 The bill from the till to the cloud: what was entered when an order was opened, extended and closed is
 what the cloud holds of it, line by line, in every run.
 */
module EdgeBill {
  import opened Options
  import opened Money
  import opened BillNumber
  import opened EdgeModel
  import opened EdgeWorld
  import opened EdgeInvariant
  import opened EdgeLocal
  import opened EdgeDevice
  import opened EdgePayload
  import opened EdgeAddress
  import opened EdgeSync
  import opened EdgeLink
  import opened EdgeKitchen
  import opened EdgeTheorems
  import opened EdgeOrders

  // ---------- Line by line ----------

  /** Which of the first lines are of some kind. */
  function OfKind(lines: seq<Line>, n: nat, kind: LineKind): set<nat>
    requires n <= |lines|
  {
    set m: nat | m < n && lines[m].what.kind == kind
  }

  /** How many earlier lines are of the same kind. */
  function EarlierOfKind(lines: seq<Line>, i: nat): nat
    requires i < |lines|
  {
    |OfKind(lines, i, lines[i].what.kind)|
  }

  /** The list of the bill a line belongs to. */
  function ListOf(p: Payload, kind: LineKind): seq<PayloadLine> {
    match kind
    case ItemLine => p.items
    case ComboLine => p.combos
  }

  /** The entry sells what the line sells, as often and at the same price and rate. */
  predicate SameSale(e: PayloadLine, l: NewLine) {
    && e.ref == l.ref && e.note == l.note && e.quantity == l.quantity && e.unitPaise == l.unitPaise
    && e.taxRate == l.taxRate
  }

  /** The bill lists every line once: in the list of its kind, in the order of the lines. */
  ghost predicate Itemised(p: Payload, lines: seq<Line>) {
    && |p.items| + |p.combos| == |lines|
    && forall i :: 0 <= i < |lines| ==>
         var list, k := ListOf(p, lines[i].what.kind), EarlierOfKind(lines, i);
         k < |list| && SameSale(list[k], lines[i].what)
  }

  /** The bill shows the kitchen progress of every line. */
  ghost predicate ShowsProgress(p: Payload, lines: seq<Line>) {
    forall i :: 0 <= i < |lines| ==>
      var list, k := ListOf(p, lines[i].what.kind), EarlierOfKind(lines, i);
      k < |list| && list[k].prep == lines[i].prep
  }

  lemma OfKindGrows(lines: seq<Line>, n: nat, kind: LineKind)
    requires n < |lines|
    ensures |OfKind(lines, n + 1, kind)| == |OfKind(lines, n, kind)| + if lines[n].what.kind == kind then 1 else 0
    ensures OfKind(lines, 0, kind) == {}
  {
    var t := OfKind(lines, n, kind);
    assert OfKind(lines, n + 1, kind) == if lines[n].what.kind == kind then t + {n} else t;
  }

  lemma {:induction false} CountIsCardinality(lines: seq<Line>, n: nat, kind: LineKind)
    requires n <= |lines|
    ensures CountKind(lines[..n], kind) == |OfKind(lines, n, kind)|
  {
    if n == 0 {
      assert OfKind(lines, 0, kind) == {};
    } else {
      hide OfKind;
      CountIsCardinality(lines, n - 1, kind);
      OfKindGrows(lines, n - 1, kind);
      assert lines[..n][..n - 1] == lines[..n - 1];
    }
  }

  /** A kitchen update names each line by its kind and how many of that kind come before it. */
  lemma UpdateNamesLine(lines: seq<Line>, i: nat)
    requires i < |lines|
    ensures var s := KotLines(lines)[i];
            && s.kind == lines[i].what.kind && s.lineIndex == EarlierOfKind(lines, i)
            && s.prep == lines[i].prep && s.preppedAt == lines[i].preppedAt
  {
    CountIsCardinality(lines, i, lines[i].what.kind);
  }

  /** The entry a line has in the bill that is built of its order. */
  lemma EntryOfLine(o: Order, i: nat)
    requires i < |o.lines|
    ensures var list, k := ListOf(PayloadOf(o), o.lines[i].what.kind), EarlierOfKind(o.lines, i);
            && k < |list| && SameSale(list[k], o.lines[i].what)
            && list[k].prep == o.lines[i].prep && list[k].preppedAt == o.lines[i].preppedAt
  {
    hide LinesOfKind, CountKind;
    UpdateNamesPayloadLine(o.lines, i);
    CountIsCardinality(o.lines, i, o.lines[i].what.kind);
  }

  /** The bill built of an order lists its lines with their progress. */
  lemma FreshBillIsItemised(o: Order)
    ensures Itemised(PayloadOf(o), o.lines) && ShowsProgress(PayloadOf(o), o.lines)
  {
    hide PayloadOf, SameSale, EarlierOfKind;
    forall i | 0 <= i < |o.lines|
      ensures var list, k := ListOf(PayloadOf(o), o.lines[i].what.kind), EarlierOfKind(o.lines, i);
              k < |list| && SameSale(list[k], o.lines[i].what) && list[k].prep == o.lines[i].prep
    {
      EntryOfLine(o, i);
    }
    assert |PayloadOf(o).items| + |PayloadOf(o).combos| == |o.lines| by { BillCoversLines(o); }
  }

  lemma BillCoversLines(o: Order)
    ensures |PayloadOf(o).items| + |PayloadOf(o).combos| == |o.lines|
  {
    hide LinesOfKind;
    KindsCoverLines(o.lines);
  }

  lemma StrippedSale(p: Payload, q: Payload, kind: LineKind, k: nat, l: NewLine)
    requires Strip(p) == Strip(q) && k < |ListOf(q, kind)| && SameSale(ListOf(q, kind)[k], l)
    ensures k < |ListOf(p, kind)| && SameSale(ListOf(p, kind)[k], l)
  {
    assert ListOf(Strip(p), kind)[k] == ListOf(Strip(q), kind)[k];
  }

  /** Bills that differ in kitchen progress only list the same sales. */
  lemma ItemisedAlike(p: Payload, q: Payload, lines: seq<Line>)
    requires Strip(p) == Strip(q) && Itemised(q, lines)
    ensures Itemised(p, lines)
  {
    hide SameSale, EarlierOfKind;
    assert |Strip(p).items| == |p.items| && |Strip(q).items| == |q.items|;
    assert |Strip(p).combos| == |p.combos| && |Strip(q).combos| == |q.combos|;
    forall i | 0 <= i < |lines|
      ensures var list, k := ListOf(p, lines[i].what.kind), EarlierOfKind(lines, i);
              k < |list| && SameSale(list[k], lines[i].what)
    {
      StrippedSale(p, q, lines[i].what.kind, EarlierOfKind(lines, i), lines[i].what);
    }
  }

  // ---------- The head of the bill ----------

  /** Everything on the bill that is not a line. */
  ghost predicate SameHead(p: Payload, o: Order) {
    && p.clientId == o.clientId && p.orderType == o.orderType && p.tableId == o.tableId && p.customer == o.customer
    && p.status == o.status && p.manualRupees == o.manualRupees && p.couponCode == o.couponCode
    && p.couponPaise == o.couponPaise && p.payments == (match o.status case Settled => o.payments case _ => [])
    && p.subtotal == o.totals.subtotal && p.tax == o.totals.tax && p.total == o.totals.total
    && p.billNo == o.billNo && p.billNumber == (match o.receipt case Some(Invoice(n)) => Some(n) case _ => None)
    && p.createdAt == o.createdAt && p.createdBy == o.createdBy && p.closedBy == o.closedBy
    && p.cancelReason == o.cancelReason && (o.closedAt.Some? ==> p.closedAt == o.closedAt.value)
  }

  lemma FreshBillHasHead(o: Order)
    ensures SameHead(PayloadOf(o), o)
  {
    hide LinesOfKind;
  }

  lemma HeadAlike(p: Payload, q: Payload, o: Order)
    requires Strip(p) == Strip(q) && SameHead(q, o)
    ensures SameHead(p, o)
  {
    hide StripLines;
    assert p.(items := [], combos := []) == Strip(p).(items := [], combos := []);
    assert q.(items := [], combos := []) == Strip(q).(items := [], combos := []);
    assert p.(items := q.items, combos := q.combos) == q;
  }

  /** The bill lists the lines of the order, under its head. */
  ghost predicate BillShows(p: Payload, o: Order) {
    SameHead(p, o) && Itemised(p, o.lines)
  }

  /**
   In every run, each order in the cloud is the closed order: the same head, and every line at its place in
   the list of its kind, with the same article, note, quantity, price and rate.  So is every bill on its way.
   */
  lemma CloudShowsClosedOrder(run: seq<Action>)
    requires Legal(START, run)
    ensures var w := After(START, run);
            && (forall c :: c in w.cloud.orders ==>
                  c in w.hist.closed && BillShows(w.cloud.orders[c], w.hist.closed[c])
                  && w.hist.closed[c].closedAt == Some(w.cloud.orders[c].closedAt))
            && (forall p :: OrderOp(p) in w.net.wire ==>
                  p.clientId in w.hist.closed && BillShows(p, w.hist.closed[p.clientId]))
  {
    hide WorldInv, BillShows, Legal, After, IsBillOf;
    Reached(run);
    var w := After(START, run);
    forall c | c in w.cloud.orders
      ensures c in w.hist.closed && BillShows(w.cloud.orders[c], w.hist.closed[c])
      ensures w.hist.closed[c].closedAt == Some(w.cloud.orders[c].closedAt)
    {
      CloudIsBillOf(w, c);
      BillOfShows(w.cloud.orders[c], w.hist);
      ClosedSomeTime(w, c);
      TimeShown(w.cloud.orders[c], w.hist.closed[c]);
    }
    forall p | OrderOp(p) in w.net.wire
      ensures p.clientId in w.hist.closed && BillShows(p, w.hist.closed[p.clientId])
    {
      WireIsBillOf(w, p);
      BillOfShows(p, w.hist);
    }
  }

  lemma ClosedSomeTime(w: World, c: ClientId)
    requires WorldInv(w) && c in w.hist.closed
    ensures w.hist.closed[c].closedAt.Some?
  {
    hide CloudOk, FilingOk, OwnSeries, AckOk, WireOk, FlightOk, RowsOk, OutboxOk, IdsOk, KeysOk, ClosedStable, SeriesOk,
      TablesOk, TicketsOk, TotalsFor, Paid;
  }

  lemma TimeShown(p: Payload, o: Order)
    requires BillShows(p, o) && o.closedAt.Some?
    ensures o.closedAt == Some(p.closedAt)
  {
    hide Itemised;
  }

  lemma CloudIsBillOf(w: World, c: ClientId)
    requires WorldInv(w) && c in w.cloud.orders
    ensures w.cloud.orders[c].clientId == c && IsBillOf(w.cloud.orders[c], w.hist)
  {
    hide DeviceInv, FilingOk, OwnSeries, AckOk, WireOk, FlightOk, IsBillOf;
  }

  lemma WireIsBillOf(w: World, p: Payload)
    requires WorldInv(w) && OrderOp(p) in w.net.wire
    ensures IsBillOf(p, w.hist)
  {
    hide DeviceInv, CloudOk, FilingOk, OwnSeries, AckOk, FlightOk, IsBillOf;
    assert OrderOp(p).OrderOp? && OrderOp(p).payload == p;
  }

  lemma BillOfShows(p: Payload, h: History)
    requires IsBillOf(p, h)
    ensures p.clientId in h.closed && BillShows(p, h.closed[p.clientId])
  {
    hide Strip, PayloadOf, Itemised, SameHead;
    var o := h.closed[p.clientId];
    FreshBillIsItemised(o);
    FreshBillHasHead(o);
    ItemisedAlike(p, PayloadOf(o), o.lines);
    HeadAlike(p, PayloadOf(o), o);
  }

  // ---------- Kitchen progress ----------

  /** Agreement is line by line, and a line that shows another status breaks it. */
  lemma AgreesIffShows(p: Payload, lines: seq<Line>)
    requires Itemised(p, lines)
    ensures Agrees(p, lines) ==> ShowsProgress(p, lines)
  {
    hide LinesOfKind, CountKind, SameSale;
    forall i | 0 <= i < |lines| && Agrees(p, lines)
      ensures var list, k := ListOf(p, lines[i].what.kind), EarlierOfKind(lines, i);
              k < |list| && list[k].prep == lines[i].prep
    {
      var kind, k := lines[i].what.kind, EarlierOfKind(lines, i);
      UpdateNamesPayloadLine(lines, i);
      CountIsCardinality(lines, i, kind);
      assert Preps(LinesOfKind(lines, kind))[k] == lines[i].prep;
      assert Preps(ListOf(p, kind))[k] == ListOf(p, kind)[k].prep;
    }
  }

  /**
   In a calm run, the cloud shows of every line of an order both sides hold, and that has no update left to
   send, the status the kitchen gave it.
   */
  lemma DrainedKitchenShowsLines(run: seq<Action>, c: ClientId)
    requires Legal(START, run) && CalmRun(START, run)
    ensures var w := After(START, run);
            c in w.db.orders && c in w.cloud.orders && NoPendingKot(w.db.outbox, c) ==>
              ShowsProgress(w.cloud.orders[c], w.db.orders[c].order.lines)
  {
    hide Legal, After, CalmRun, Agrees, ShowsProgress, Itemised, WorldInv;
    DrainedKitchenAgrees(run, c);
    Reached(run);
    var w := After(START, run);
    if c in w.db.orders && c in w.cloud.orders {
      CloudItemises(w, c);
      AgreesIffShows(w.cloud.orders[c], w.db.orders[c].order.lines);
    }
  }

  lemma CloudItemises(w: World, c: ClientId)
    requires WorldInv(w) && c in w.db.orders && c in w.cloud.orders
    ensures Itemised(w.cloud.orders[c], w.db.orders[c].order.lines)
  {
    hide FilingOk, OwnSeries, AckOk, WireOk, FlightOk, RowsOk, OutboxOk, IdsOk, KeysOk, FiguresOk, SeriesOk, TablesOk,
      TicketsOk, Strip, PayloadOf, Itemised, SameExceptPrep;
    assert IsBillOf(w.cloud.orders[c], w.hist);
    var o := w.db.orders[c].order;
    PayloadIsStable(o, w.hist.closed[c]);
    FreshBillIsItemised(o);
    ItemisedAlike(w.cloud.orders[c], PayloadOf(o), o.lines);
  }

  // ---------- From the till to the cloud ----------

  /** The later order was asked for as the earlier one, and starts with its lines. */
  ghost predicate Continues(o: Order, p: Order) {
    && p.clientId == o.clientId && p.orderType == o.orderType && p.tableId == o.tableId && p.customer == o.customer
    && p.createdAt == o.createdAt && p.createdBy == o.createdBy
    && |o.lines| <= |p.lines| && forall i :: 0 <= i < |o.lines| ==> p.lines[i].what == o.lines[i].what
  }

  /** Where the terminal remembers the order, it continues it. */
  ghost predicate Remembers(w: World, c: ClientId, o: Order) {
    && c in w.hist.used && (c in w.db.orders || c in w.hist.closed)
    && (c in w.db.orders ==> Continues(o, w.db.orders[c].order))
    && (c in w.hist.closed ==> Continues(o, w.hist.closed[c]))
  }

  lemma SettledContinues(o: Order, s: Settlement, q: Quote, bill: Option<BillNo>, receipt: ReceiptRef, at: Time)
    requires q.Quote?
    ensures Continues(o, SettledOrder(o, s, q, bill, receipt, at))
  {}

  lemma ContinuesOn(a: Order, b: Order, c: Order)
    requires Continues(a, b) && Continues(b, c)
    ensures Continues(a, c)
  {}

  /** What a step makes of an order the terminal has. */
  ghost predicate CarriesOn(db: Db, h: History, n: Db, g: History, c: ClientId)
    requires c in db.orders
  {
    && (c in n.orders ==> Continues(db.orders[c].order, n.orders[c].order))
    && (c in g.closed && c !in h.closed ==> Continues(db.orders[c].order, g.closed[c]))
    && (c !in n.orders ==> c in h.closed)
  }

  /** One order was replaced by one that continues it, and perhaps closed with it. */
  lemma ReplacedCarriesOn(db: Db, h: History, n: Db, g: History, d: ClientId, o: Order, c: ClientId)
    requires c in db.orders && d in n.orders && n.orders.Keys == db.orders.Keys + {d} && n.orders[d].order == o
    requires forall e :: e in db.orders && e != d ==> n.orders[e] == db.orders[e]
    requires d in db.orders ==> Continues(db.orders[d].order, o)
    requires g.closed == h.closed || g.closed == h.closed[d := o]
    ensures CarriesOn(db, h, n, g, c)
  {
    hide Continues;
    SameContinues();
  }

  lemma WritingCarriesOn(db: Db, h: History, n: Db, d: ClientId, o: Order, c: ClientId)
    requires Writes(db, n, d, o) && c in db.orders && (d in db.orders ==> Continues(db.orders[d].order, o))
    ensures forall g: History :: g.closed == h.closed ==> CarriesOn(db, h, n, g, c)
  {
    hide Continues, CarriesOn;
    forall g: History | g.closed == h.closed
      ensures CarriesOn(db, h, n, g, c)
    {
      ReplacedCarriesOn(db, h, n, g, d, o, c);
    }
  }

  lemma Wrote(db: Db, n: Db, d: ClientId, o: Order)
    requires Writes(db, n, d, o)
    ensures n.orders.Keys == db.orders.Keys + {d}
  {}

  lemma SettlingCarriesOn(w: World, a: Action)
    requires WorldInv(w) && a.Settle? && Transact(w.db, a).Ok?
    ensures var n := Transact(w.db, a).db;
            && a.c in w.db.orders && a.c in n.orders && n.orders == w.db.orders[a.c := n.orders[a.c]]
            && Continues(w.db.orders[a.c].order, n.orders[a.c].order)
  {
    hide WorldInv, SettleOrder, QuoteFor, Format, SettledOrder, Continues, Closes, NextBillNo, PrintedNumber;
    var db, n := w.db, Transact(w.db, a).db;
    SettleNeedsOpen(db, a);
    OpenInWorld(w, a.c);
    SettleCloses(db, a.c, a.s, a.at, a.trueNow, a.fy);
    var o, q := n.orders[a.c].order, QuoteFor(db, db.orders[a.c].order, a.s, a.trueNow);
    SettledContinues(db.orders[a.c].order, a.s, q, o.billNo, o.receipt.value, a.at);
    ClosedRow(db, n, a.c, o, a.at);
  }

  lemma CancellingCarriesOn(w: World, a: Action)
    requires WorldInv(w) && a.Cancel? && Transact(w.db, a).Ok?
    ensures var n := Transact(w.db, a).db;
            && a.c in w.db.orders && a.c in n.orders && n.orders == w.db.orders[a.c := n.orders[a.c]]
            && Continues(w.db.orders[a.c].order, n.orders[a.c].order)
  {
    hide WorldInv, CancelOrder, Continues, Closes, CancelledOrder;
    var db, n := w.db, Transact(w.db, a).db;
    CancelNeedsOpen(db, a.c, a.staffId, a.reason, a.at);
    OpenInWorld(w, a.c);
    CancelCloses(db, a.c, a.staffId, a.reason, a.at);
    CancelledContinues(db.orders[a.c].order, a.staffId, a.reason, a.at);
    ClosedRow(db, n, a.c, n.orders[a.c].order, a.at);
  }

  lemma ClosingCarriesOn(w: World, a: Action, c: ClientId)
    requires WorldInv(w) && (a.Settle? || a.Cancel?) && Transact(w.db, a).Ok?
    ensures var n := Transact(w.db, a).db;
            && n.orders.Keys == w.db.orders.Keys
            && (c in w.db.orders ==> CarriesOn(w.db, w.hist, n, Remember(w.hist, n, a), c))
  {
    hide WorldInv, Transact, Continues, CarriesOn;
    var n := Transact(w.db, a).db;
    if a.Settle? {
      SettlingCarriesOn(w, a);
    } else {
      CancellingCarriesOn(w, a);
    }
    if c in w.db.orders {
      ReplacedCarriesOn(w.db, w.hist, n, Remember(w.hist, n, a), a.c, n.orders[a.c].order, c);
    }
  }

  lemma ClosedRow(db: Db, n: Db, c: ClientId, o: Order, at: Time)
    requires Closes(db, n, c, o, at)
    ensures c in db.orders && n.orders == db.orders[c := OrderRow(o, Queued)]
  {}

  lemma AcceptedIsClosed(db: Db, h: History, c: ClientId)
    requires RowsOk(db, h) && c in db.orders
    ensures db.orders[c].sync in {Synced, Flagged} ==> c in h.closed
  {}

  lemma OthersCarryOn(w: World, a: Action, c: ClientId)
    requires WorldInv(w) && IsLocal(a) && Enabled(w, a) && !a.Settle? && !a.Cancel? && Transact(w.db, a).Ok?
    ensures var n := Transact(w.db, a).db;
            && n.orders.Keys <= w.db.orders.Keys + (if a.Create? then {a.c} else {})
            && (c in w.db.orders ==> CarriesOn(w.db, w.hist, n, Remember(w.hist, n, a), c))
  {
    hide CloudOk, FilingOk, OwnSeries, AckOk, WireOk, FlightOk, CreateOrder, AddItems, AdvanceTicket, Purge, RowsOk,
      OutboxOk, IdsOk, KeysOk, ClosedStable, FiguresOk, SeriesOk, TablesOk, TicketsOk, FireOrder, FreshOrder, Writes,
      Continues, KotLines, SameExceptPrep;
    var db, h := w.db, w.hist;
    SameContinues();
    match a
    case Create(m, d, at) =>
      Fresh(db, h, d);
      CreateWrites(db, m, d, at);
      Wrote(db, CreateOrder(db, m, d, at).db, d, FireOrder(FreshOrder(m, d, at), m.lines));
      if c in db.orders {
        WritingCarriesOn(db, h, CreateOrder(db, m, d, at).db, d, FireOrder(FreshOrder(m, d, at), m.lines), c);
      }
    case Add(d, lines, at) =>
      AddNeedsOpen(db, d, lines, at);
      OpenRow(db, h, d);
      AddWrites(db, d, lines, at);
      var o := db.orders[d].order;
      AddedContinues(o, lines, at);
      Wrote(db, AddItems(db, d, lines, at).db, d, FireOrder(o, lines).(updatedAt := at));
      if c in db.orders {
        WritingCarriesOn(db, h, AddItems(db, d, lines, at).db, d, FireOrder(o, lines).(updatedAt := at), c);
      }
    case Bump(id, to, at, uuid) =>
      BumpNeedsTicket(db, id, to, at, uuid);
      if id.clientId in db.orders {
        RowNamed(db, h, id.clientId);
        FreshKey(db, h, id.clientId, uuid);
        BumpMarks(db, id, to, at, uuid);
        MarkedContinues(db, id, to, at);
      } else {
        OrphanBump(db, id, to, at, uuid);
      }
    case Retain(at, orderDays, outboxDays) =>
      PurgeDrops(db, at, orderDays, outboxDays);
      if c in db.orders {
        AcceptedIsClosed(db, h, c);
      }
    case Reactivate(_) =>
    case Refeed(_, _) =>
  }

  lemma LocalRemembers(w: World, a: Action, c: ClientId, o: Order)
    requires WorldInv(w) && Remembers(w, c, o) && IsLocal(a) && Enabled(w, a)
    ensures Remembers(LocalNext(w, a), c, o)
  {
    hide WorldInv, Transact, Continues;
    var n := LocalNext(w, a);
    LocalQueueing(w, a, c);
    if Transact(w.db, a).Ok? {
      if a.Settle? || a.Cancel? {
        ClosingCarriesOn(w, a, c);
      } else {
        OthersCarryOn(w, a, c);
      }
      if c in w.db.orders {
        if c in n.db.orders {
          ContinuesOn(o, w.db.orders[c].order, n.db.orders[c].order);
        }
        if c in n.hist.closed && c !in w.hist.closed {
          ContinuesOn(o, w.db.orders[c].order, n.hist.closed[c]);
        }
      }
    }
  }

  lemma SameContinues()
    ensures forall o: Order :: Continues(o, o)
  {}

  lemma AddedContinues(o: Order, lines: seq<NewLine>, at: Time)
    ensures Continues(o, FireOrder(o, lines).(updatedAt := at))
  {
    hide TotalsFor;
  }

  lemma CancelledContinues(o: Order, staffId: Option<string>, reason: Option<string>, at: Time)
    ensures Continues(o, CancelledOrder(o, staffId, reason, at))
  {}

  lemma MarkedContinues(db: Db, id: KotId, to: PrepStatus, at: Time)
    requires id in db.kots && id.clientId in db.orders
    ensures Continues(db.orders[id.clientId].order, MarkedOrder(db, id, to, at))
  {}

  lemma ReplyKeepsOrders(db: Db, e: DueRow, s: OpStatus, now: Time, backoff: nat -> int)
    ensures var n := ApplyReply(db, e, s, now, backoff);
            n.orders.Keys == db.orders.Keys && forall c :: c in db.orders ==> n.orders[c].order == db.orders[c].order
  {
    var c := e.key.clientId;
    ReplyTouchesOneOrder(db, e, s, now, backoff);
    hide ApplyReply;
    assert c in db.orders ==> db.orders[c := OrderRow(db.orders[c].order, FinalSync(s))].Keys == db.orders.Keys;
  }

  lemma ReplyTouchesOneOrder(db: Db, e: DueRow, s: OpStatus, now: Time, backoff: nat -> int)
    ensures var n, c := ApplyReply(db, e, s, now, backoff).orders, e.key.clientId;
            if s != Retry && e.key.OrderKey? && c in db.orders
            then n == db.orders[c := OrderRow(db.orders[c].order, FinalSync(s))] else n == db.orders
  {
    hide FinalStatus, FinalSync;
    if s != Retry {
      var c := e.key.clientId;
      assert c in db.orders ==>
          db.orders[c].(sync := FinalSync(s)) == OrderRow(db.orders[c].order, FinalSync(s));
    }
  }

  lemma {:induction false} RepliesKeepOrders(db: Db, due: seq<DueRow>, rs: seq<Reply>, now: Time, backoff: nat -> int)
    ensures var n := ApplyReplies(db, due, rs, now, backoff);
            n.orders.Keys == db.orders.Keys && forall c :: c in db.orders ==> n.orders[c].order == db.orders[c].order
  {
    hide ApplyReply, FindDue;
    if rs != [] {
      RepliesKeepOrders(db, due, rs[..|rs| - 1], now, backoff);
      var before, e := ApplyReplies(db, due, rs[..|rs| - 1], now, backoff), FindDue(due, rs[|rs| - 1].key);
      if e.Some? {
        ReplyKeepsOrders(before, e.value, rs[|rs| - 1].status, now, backoff);
      }
    }
  }

  lemma LinkRemembers(w: World, a: Action, c: ClientId, o: Order)
    requires WorldInv(w) && Remembers(w, c, o) && !IsLocal(a) && Enabled(w, a)
    ensures Remembers(Next(w, a), c, o)
  {
    hide WorldInv, Ops, ApplyReplies, Ingest, Continues, RejectMissing, RequestAcceptable;
    if a.Send? {
      SendKeepsWorld(w, a.due, a.at);
    } else if a.Receive? {
      var f := w.net.flight.value;
      RepliesKeepOrders(w.db, f.due, Replies(f.ops, a.statuses), a.at, a.backoff);
    }
  }

  lemma StepRemembers(w: World, a: Action, c: ClientId, o: Order)
    requires WorldInv(w) && Remembers(w, c, o) && Enabled(w, a)
    ensures Remembers(Next(w, a), c, o)
  {
    hide WorldInv, LocalNext, SendNext, HandleNext, ReceiveNext;
    if IsLocal(a) {
      LocalRemembers(w, a, c, o);
    } else {
      LinkRemembers(w, a, c, o);
    }
  }

  lemma {:induction false} RunsRemember(w: World, run: seq<Action>, c: ClientId, o: Order)
    requires WorldInv(w) && Remembers(w, c, o) && Legal(w, run)
    ensures Remembers(After(w, run), c, o)
    decreases |run|
  {
    hide WorldInv, Remembers, Next, Enabled;
    if run != [] {
      StepRemembers(w, run[0], c, o);
      StepKeepsWorld(w, run[0]);
      RunsRemember(Next(w, run[0]), run[1..], c, o);
    }
  }

  // ---------- What was ordered ----------

  /** How many of the lines entered before this one are of its kind. */
  function EnteredBefore(lines: seq<NewLine>, i: nat): nat
    requires i < |lines|
  {
    |set m: nat | m < i && lines[m].kind == lines[i].kind|
  }

  /** The bill lists the lines that were entered first, each in the list of its kind and in their order. */
  ghost predicate ListsEntered(p: Payload, lines: seq<NewLine>) {
    forall i :: 0 <= i < |lines| ==>
      var list, k := ListOf(p, lines[i].kind), EnteredBefore(lines, i);
      k < |list| && SameSale(list[k], lines[i])
  }

  /** The bill is for what was asked for when the order was opened. */
  ghost predicate BilledAsAsked(p: Payload, n: NewOrder, c: ClientId, at: Time) {
    && p.clientId == c && p.orderType == n.orderType && p.createdAt == at && p.createdBy == n.staffId
    && p.tableId == (match n.orderType case DineIn => n.tableId case _ => None)
    && p.customer.name == n.customer.name && p.customer.phone == n.customer.phone
    && p.customer.address == (match n.orderType case Delivery => n.customer.address case _ => None)
    && ListsEntered(p, n.lines)
  }

  lemma EnteredIsListed(p: Payload, o: Order, lines: seq<NewLine>)
    requires Itemised(p, o.lines) && StartsWith(o, lines)
    ensures ListsEntered(p, lines)
  {
    hide SameSale;
    forall i | 0 <= i < |lines|
      ensures var list, k := ListOf(p, lines[i].kind), EnteredBefore(lines, i);
              k < |list| && SameSale(list[k], lines[i])
    {
      assert (set m: nat | m < i && lines[m].kind == lines[i].kind)
             == OfKind(o.lines, i, o.lines[i].what.kind);
      assert EnteredBefore(lines, i) == EarlierOfKind(o.lines, i);
    }
  }

  /** An order that continues what was asked for is still for that. */
  lemma StillAsked(o: Order, p: Order, n: NewOrder, c: ClientId, at: Time)
    requires Asked(o, n, c, at) && StartsWith(o, n.lines) && Continues(o, p)
    ensures Asked(p, n, c, at) && StartsWith(p, n.lines)
  {}

  lemma ShownAsAsked(q: Payload, p: Order, n: NewOrder, c: ClientId, at: Time)
    requires BillShows(q, p) && Asked(p, n, c, at) && StartsWith(p, n.lines)
    ensures BilledAsAsked(q, n, c, at)
  {
    hide Itemised, ListsEntered, StartsWith;
    EnteredIsListed(q, p, n.lines);
  }

  lemma OpenedIsRemembered(w: World, n: NewOrder, c: ClientId, at: Time)
    requires WorldInv(w) && Enabled(w, Create(n, c, at)) && CreateOrder(w.db, n, c, at).Ok?
    ensures var m := Next(w, Create(n, c, at));
            c in m.db.orders && Asked(m.db.orders[c].order, n, c, at) && StartsWith(m.db.orders[c].order, n.lines)
            && Remembers(m, c, m.db.orders[c].order)
  {
    hide CloudOk, FilingOk, OwnSeries, AckOk, WireOk, FlightOk, OutboxOk, IdsOk, KeysOk, ClosedStable, FiguresOk,
      SeriesOk, TablesOk, TicketsOk, CreateOrder, Asked, StartsWith, Unsettled, FreshRound, NewTickets, MayOpen,
      Continues;
    OpeningKeepsWhatWasAsked(w.db, n, c, at);
    SameContinues();
  }

  /**
   Whatever happens after an order is opened: while the terminal has it, it is for the table, customer and
   staff that were asked for and starts with the lines entered, and so is the bill the cloud gets.
   */
  lemma WhatWasOrderedReachesCloud(before: seq<Action>, n: NewOrder, c: ClientId, at: Time, after: seq<Action>)
    requires Legal(START, before) && Enabled(After(START, before), Create(n, c, at))
    requires CreateOrder(After(START, before).db, n, c, at).Ok?
    requires Legal(Next(After(START, before), Create(n, c, at)), after)
    ensures var w := After(Next(After(START, before), Create(n, c, at)), after);
            && (c in w.db.orders ==>
                  Asked(w.db.orders[c].order, n, c, at) && StartsWith(w.db.orders[c].order, n.lines))
            && (c in w.cloud.orders ==> BilledAsAsked(w.cloud.orders[c], n, c, at))
  {
    hide WorldInv, Legal, After, Next, Enabled, Asked, StartsWith, BilledAsAsked, CreateOrder, Continues, BillShows,
      IsBillOf;
    Reached(before);
    var v := After(START, before);
    OpenedIsRemembered(v, n, c, at);
    var m := Next(v, Create(n, c, at));
    var o := m.db.orders[c].order;
    StepKeepsWorld(v, Create(n, c, at));
    RunsRemember(m, after, c, o);
    RunsKeepWorld(m, after);
    var w := After(m, after);
    if c in w.db.orders {
      StillAsked(o, w.db.orders[c].order, n, c, at);
    }
    if c in w.cloud.orders {
      CloudIsBillOf(w, c);
      BillOfShows(w.cloud.orders[c], w.hist);
      StillAsked(o, w.hist.closed[c], n, c, at);
      ShownAsAsked(w.cloud.orders[c], w.hist.closed[c], n, c, at);
    }
  }

  /**
   One running order per table, over the table that was asked for: once a dine-in order is opened, and for
   as long as it is open, every other dine-in order for its table is refused and changes nothing.
   */
  lemma TableStaysTaken(
    before: seq<Action>, n: NewOrder, c: ClientId, at: Time, after: seq<Action>, m: NewOrder, d: ClientId, later: Time)
    requires Legal(START, before) && Enabled(After(START, before), Create(n, c, at))
    requires CreateOrder(After(START, before).db, n, c, at).Ok?
    requires Legal(Next(After(START, before), Create(n, c, at)), after)
    requires n.orderType == DineIn && m.orderType == DineIn && m.tableId == n.tableId
    ensures var w := After(Next(After(START, before), Create(n, c, at)), after);
            IsOpen(w.db, c) ==>
              CreateOrder(w.db, m, d, later).Err? && Commit(w.db, CreateOrder(w.db, m, d, later)) == w.db
  {
    hide Legal, After, Next, Enabled, StartsWith, BilledAsAsked, CreateOrder, Commit;
    WhatWasOrderedReachesCloud(before, n, c, at, after);
    var w := After(Next(After(START, before), Create(n, c, at)), after);
    if IsOpen(w.db, c) {
      TableIsTaken(w.db, c, m, d, later);
    }
  }

  // ---------- What was paid ----------

  lemma {:induction false} ClosedForever(w: World, run: seq<Action>, c: ClientId)
    requires WorldInv(w) && Legal(w, run) && c in w.hist.closed
    ensures c in After(w, run).hist.closed && After(w, run).hist.closed[c] == w.hist.closed[c]
    decreases |run|
  {
    hide WorldInv, Next, Enabled;
    if run != [] {
      if IsLocal(run[0]) {
        LocalQueueing(w, run[0], c);
      } else {
        LinkQueueing(w, run[0]);
      }
      StepKeepsWorld(w, run[0]);
      ClosedForever(Next(w, run[0]), run[1..], c);
    }
  }

  /** The bill carries the settlement that was entered, and figures for which it was let through. */
  ghost predicate BilledAsSettled(p: Payload, db: Db, o: Order, s: Settlement, at: Time, now: Time) {
    && p.status == Settled && p.payments == s.tenders && p.manualRupees == s.discountRupees
    && p.couponCode == s.couponCode && p.closedAt == at && p.closedBy == s.staffId
    && exists discount :: MaySettle(db, o, s, now, p.couponPaise, Totals(p.subtotal, discount, p.tax, p.total))
  }

  lemma SettledIsClosed(w: World, a: Action)
    requires WorldInv(w) && a.Settle? && Enabled(w, a) && SettleOrder(w.db, a.c, a.s, a.at, a.trueNow, a.fy).Ok?
    ensures var n := Next(w, a);
            && IsOpen(w.db, a.c) && a.c in n.hist.closed
            && var o, p := w.db.orders[a.c].order, n.hist.closed[a.c];
               SettledWith(o, p, a.s, a.at) && MaySettle(w.db, o, a.s, a.trueNow, p.couponPaise, p.totals)
  {
    hide WorldInv, SettleOrder, MaySettle, SettledWith, WellFormedYear, Next, Enabled, ClosedAndQueued;
    SettledIsOpen(w.db, a.c, a.s, a.at, a.trueNow, a.fy);
    OpenInWorld(w, a.c);
    SettlingKeepsWhatWasEntered(w.db, a.c, a.s, a.at, a.trueNow, a.fy);
    ClosedIsRemembered(w, a);
  }

  lemma ClosedIsRemembered(w: World, a: Action)
    requires a.Settle? && Enabled(w, a) && SettleOrder(w.db, a.c, a.s, a.at, a.trueNow, a.fy).Ok?
    requires ClosedAndQueued(w.db, SettleOrder(w.db, a.c, a.s, a.at, a.trueNow, a.fy).db, a.c, a.at)
    ensures a.c in Next(w, a).hist.closed
    ensures Next(w, a).hist.closed[a.c] == SettleOrder(w.db, a.c, a.s, a.at, a.trueNow, a.fy).db.orders[a.c].order
  {
    hide SettleOrder, WellFormedYear;
  }

  lemma ShownAsSettled(q: Payload, db: Db, o: Order, p: Order, s: Settlement, at: Time, now: Time)
    requires BillShows(q, p) && SettledWith(o, p, s, at) && MaySettle(db, o, s, now, p.couponPaise, p.totals)
    ensures BilledAsSettled(q, db, o, s, at, now)
  {
    hide Itemised, MaySettle;
    assert Totals(q.subtotal, p.totals.discount, q.tax, q.total) == p.totals;
  }

  /**
   Whatever happens after an order is settled, the bill the cloud gets carries the payments, discounts,
   coupon, time and staff that were entered, and figures that are right for its lines and that the payments
   come to.
   */
  lemma WhatWasPaidReachesCloud(before: seq<Action>, a: Action, after: seq<Action>)
    requires Legal(START, before) && a.Settle? && Enabled(After(START, before), a)
    requires SettleOrder(After(START, before).db, a.c, a.s, a.at, a.trueNow, a.fy).Ok?
    requires Legal(Next(After(START, before), a), after)
    ensures var v, w := After(START, before), After(Next(After(START, before), a), after);
            a.c in w.cloud.orders ==>
              IsOpen(v.db, a.c)
              && BilledAsSettled(w.cloud.orders[a.c], v.db, v.db.orders[a.c].order, a.s, a.at, a.trueNow)
  {
    hide WorldInv, Legal, After, Next, Enabled, SettleOrder, BilledAsSettled, BillShows, IsBillOf, MaySettle,
      SettledWith;
    Reached(before);
    var v := After(START, before);
    SettledIsClosed(v, a);
    StepKeepsWorld(v, a);
    ClosedForever(Next(v, a), after, a.c);
    RunsKeepWorld(Next(v, a), after);
    var w := After(Next(v, a), after);
    if a.c in w.cloud.orders {
      CloudIsBillOf(w, a.c);
      BillOfShows(w.cloud.orders[a.c], w.hist);
      ShownAsSettled(w.cloud.orders[a.c], v.db, v.db.orders[a.c].order, w.hist.closed[a.c], a.s, a.at, a.trueNow);
    }
  }

  /** The bill carries the cancellation that was entered, and no payment. */
  ghost predicate BilledAsCancelled(p: Payload, a: Action)
    requires a.Cancel?
  {
    && p.status == Cancelled && p.payments == [] && p.closedAt == a.at && p.closedBy == a.staffId
    && p.cancelReason == a.reason && p.billNo.None? && p.billNumber.None?
  }

  lemma CancelledIsClosed(w: World, a: Action)
    requires WorldInv(w) && a.Cancel? && Enabled(w, a) && IsOpen(w.db, a.c)
    ensures var n := Next(w, a);
            && a.c in n.hist.closed
            && var p := n.hist.closed[a.c];
               p.status == Cancelled && p.closedAt == Some(a.at) && p.closedBy == a.staffId
               && p.cancelReason == a.reason && p.billNo.None? && p.receipt.None?
  {
    hide CloudOk, FilingOk, OwnSeries, AckOk, WireOk, FlightOk, OutboxOk, IdsOk, KeysOk, ClosedStable, FiguresOk,
      SeriesOk, TablesOk, TicketsOk, CancelOrder, RowsOk, TotalsFor;
    OpenRow(w.db, w.hist, a.c);
    CancellingWithdraws(w.db, a.c, a.staffId, a.reason, a.at);
  }

  lemma ShownAsCancelled(q: Payload, p: Order, a: Action)
    requires a.Cancel? && BillShows(q, p) && p.status == Cancelled && p.closedAt == Some(a.at)
    requires p.closedBy == a.staffId && p.cancelReason == a.reason && p.billNo.None? && p.receipt.None?
    ensures BilledAsCancelled(q, a)
  {
    hide Itemised;
  }

  /** Whatever happens after an open order is cancelled, the bill the cloud gets says when, by whom and why. */
  lemma WhatWasCancelledReachesCloud(before: seq<Action>, a: Action, after: seq<Action>)
    requires Legal(START, before) && a.Cancel? && Enabled(After(START, before), a)
    requires IsOpen(After(START, before).db, a.c) && Legal(Next(After(START, before), a), after)
    ensures var w := After(Next(After(START, before), a), after);
            a.c in w.cloud.orders ==> BilledAsCancelled(w.cloud.orders[a.c], a)
  {
    hide WorldInv, Legal, After, Next, Enabled, BilledAsCancelled, BillShows, IsBillOf;
    Reached(before);
    var v := After(START, before);
    CancelledIsClosed(v, a);
    StepKeepsWorld(v, a);
    ClosedForever(Next(v, a), after, a.c);
    RunsKeepWorld(Next(v, a), after);
    var w := After(Next(v, a), after);
    if a.c in w.cloud.orders {
      CloudIsBillOf(w, a.c);
      BillOfShows(w.cloud.orders[a.c], w.hist);
      ShownAsCancelled(w.cloud.orders[a.c], w.hist.closed[a.c], a);
    }
  }
}
