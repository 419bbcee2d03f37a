/** The local transactions, one by one, keep the whole device invariant. */
module EdgeDevice {
  import opened BillNumber
  import opened EdgeModel
  import opened EdgeWorld
  import opened EdgeInvariant
  import opened EdgeLocal
  import opened EdgeTickets

  lemma StartIsGood()
    ensures DeviceInv(START.db, START.hist)
  {}

  lemma CreateKeeps(db: Db, h: History, m: NewOrder, c: ClientId, at: Time)
    requires DeviceInv(db, h) && c !in h.used && CreateOrder(db, m, c, at).Ok?
    ensures DeviceInv(CreateOrder(db, m, c, at).db, h.(used := h.used + {c}))
  {
    hide RowsOk, OutboxOk, IdsOk, KeysOk, ClosedStable, FiguresOk, SeriesOk, TablesOk, TicketsOk, Writes, TotalsFor,
      FireTickets, TableBusy;
    assert c !in db.orders by { Fresh(db, h, c); }
    var o := FreshOrder(m, c, at);
    var o', n, g := FireOrder(o, m.lines), CreateOrder(db, m, c, at).db, h.(used := h.used + {c});
    CreateWrites(db, m, c, at);
    WritesKeepsRows(db, n, h, g, c, o');
    WritesKeepsOutbox(db, n, h, g, c, o');
    WritesKeepsIds(db, n, h, g, c, o');
    WritesKeepsClosed(db, n, h, g, c, o');
    WritesKeepsTables(db, n, c, o');
    WritesKeepsFigures(db, n, h, g, c, o');
    FireKeepsTickets(db, n, h, g, o, o', m.lines, at);
    SameSeries(db, n, h, g);
  }

  lemma Fresh(db: Db, h: History, c: ClientId)
    requires RowsOk(db, h) && c !in h.used
    ensures c !in db.orders
  {}

  lemma SameSeries(db: Db, n: Db, h: History, g: History)
    requires SeriesOk(db, h) && n.billSeries == db.billSeries && n.seriesCode == db.seriesCode
    requires g.closed == h.closed && g.issued == h.issued
    ensures SeriesOk(n, g)
  {
    hide ReceiptOk, WellFormedSeries;
  }

  /** What the facts say about a single open order. */
  lemma OpenRow(db: Db, h: History, c: ClientId)
    requires DeviceInv(db, h) && IsOpen(db, c)
    ensures db.orders[c].order.clientId == c && db.orders[c].sync == Local && c in h.used && c !in h.closed
    ensures OrderKey(c) !in db.outbox
    ensures OpenFigures(db.orders[c].order) && LinesNumbered(db.orders[c].order)
  {
    hide IdsOk, KeysOk, ClosedStable, SeriesOk, TablesOk, TicketMatches, TotalsFor, Covered;
    assert OrderKey(c) in db.outbox ==> RowAgrees(db, c);
  }

  lemma AddKeeps(db: Db, h: History, c: ClientId, lines: seq<NewLine>, at: Time)
    requires DeviceInv(db, h) && AddItems(db, c, lines, at).Ok?
    ensures DeviceInv(AddItems(db, c, lines, at).db, h)
  {
    hide RowsOk, OutboxOk, IdsOk, KeysOk, ClosedStable, FiguresOk, SeriesOk, TablesOk, TicketsOk, Writes, TotalsFor,
      FireTickets;
    OpenRow(db, h, c);
    var o := db.orders[c].order;
    var o', n := FireOrder(o, lines).(updatedAt := at), AddItems(db, c, lines, at).db;
    assert h == h.(used := h.used + {c}) by { assert h.used == h.used + {c}; }
    AddWrites(db, c, lines, at);
    WritesKeepsRows(db, n, h, h, c, o');
    WritesKeepsOutbox(db, n, h, h, c, o');
    WritesKeepsIds(db, n, h, h, c, o');
    WritesKeepsClosed(db, n, h, h, c, o');
    WritesKeepsTables(db, n, c, o');
    WritesKeepsFigures(db, n, h, h, c, o');
    FireKeepsTickets(db, n, h, h, o, o', lines, at);
    SameSeries(db, n, h, h);
  }

  lemma SettleKeeps(db: Db, h: History, a: Action)
    requires DeviceInv(db, h) && a.Settle? && WellFormedYear(a.fy) && Transact(db, a).Ok?
    ensures DeviceInv(Transact(db, a).db, Remember(h, Transact(db, a).db, a))
  {
    hide RowsOk, OutboxOk, IdsOk, KeysOk, ClosedStable, FiguresOk, SeriesOk, TablesOk, TicketsOk, Closes, SettleOrder,
      QuoteFor, ClosedFigures, WellFormedSeries, WellFormedYear, Format, Discount, Paid, PrintedNumber;
    var c, at := a.c, a.at;
    assert IsOpen(db, c) by { SettleNeedsOpen(db, a); }
    OpenRow(db, h, c);
    SettleCloses(db, c, a.s, at, a.trueNow, a.fy);
    var n := SettleOrder(db, c, a.s, at, a.trueNow, a.fy).db;
    var o, g := n.orders[c].order, Remember(h, n, a);
    ClosesKeepsRows(db, n, h, g, c, o, at);
    ClosesKeepsOutbox(db, n, h, g, c, o, at);
    ClosesKeepsIds(db, n, h, g, c, o, at);
    ClosesKeepsClosed(db, n, h, g, c, o, at);
    ClosesKeepsTables(db, n, c, o, at);
    SettlementFigures(db, db.orders[c].order, a.s, a.trueNow, o.billNo, o.receipt.value, at);
    ClosesKeepsFigures(db, n, h, g, c, o, at);
    SettleKeepsTickets(db, n, h, g, c, o, at);
    SettleKeepsSeries(db, h, a);
  }

  lemma SettleKeepsSeries(db: Db, h: History, a: Action)
    requires a.Settle? && WellFormedYear(a.fy) && Transact(db, a).Ok? && SeriesOk(db, h) && a.c !in h.closed
    requires db.orders[a.c].order.clientId == a.c && OrderKey(a.c) !in db.outbox
    ensures SeriesOk(Transact(db, a).db, Remember(h, Transact(db, a).db, a))
  {
    hide SeriesOk, Closes, SettleOrder, QuoteFor, WellFormedSeries, WellFormedYear, Format, SettledOrder;
    var n := Transact(db, a).db;
    SettleCloses(db, a.c, a.s, a.at, a.trueNow, a.fy);
    var o, g := n.orders[a.c].order, Remember(h, n, a);
    SeriesCodeKept(db, n, a.c, o, a.at);
    if db.seriesCode.None? {
      UnnumberedCloseKeepsSeries(db, n, h, g, a.c, o);
    } else {
      SeriesWellFormed(db, h);
      NumberedCloseKeepsSeries(db, n, h, g, a.c, o, NextBillNo(db, db.seriesCode.value, a.fy));
    }
  }

  lemma SettleNeedsOpen(db: Db, a: Action)
    requires a.Settle? && Transact(db, a).Ok?
    ensures IsOpen(db, a.c)
  {
    hide QuoteFor, Format;
  }

  lemma SeriesCodeKept(db: Db, n: Db, c: ClientId, o: Order, at: Time)
    requires Closes(db, n, c, o, at)
    ensures n.seriesCode == db.seriesCode
  {}

  lemma SeriesWellFormed(db: Db, h: History)
    requires SeriesOk(db, h) && db.seriesCode.Some?
    ensures WellFormedSeries(db.seriesCode.value)
  {}

  lemma CancelKeeps(db: Db, h: History, a: Action)
    requires DeviceInv(db, h) && a.Cancel? && Transact(db, a).Ok?
    ensures DeviceInv(Transact(db, a).db, Remember(h, Transact(db, a).db, a))
  {
    hide RowsOk, OutboxOk, IdsOk, KeysOk, ClosedStable, FiguresOk, SeriesOk, TablesOk, TicketsOk, Closes, TotalsFor,
      Withdraw, SaveClosed;
    var c, at := a.c, a.at;
    OpenRow(db, h, c);
    CancelCloses(db, c, a.staffId, a.reason, at);
    var n := CancelOrder(db, c, a.staffId, a.reason, at).db;
    var o, g := n.orders[c].order, Remember(h, n, a);
    ClosesKeepsRows(db, n, h, g, c, o, at);
    ClosesKeepsOutbox(db, n, h, g, c, o, at);
    ClosesKeepsIds(db, n, h, g, c, o, at);
    ClosesKeepsClosed(db, n, h, g, c, o, at);
    ClosesKeepsTables(db, n, c, o, at);
    ClosesKeepsFigures(db, n, h, g, c, o, at);
    CancelKeepsTickets(db, n, h, g, c, o, at);
    SeriesCodeKept(db, n, c, o, at);
    UnnumberedCloseKeepsSeries(db, n, h, g, c, o);
  }

  lemma FreshKey(db: Db, h: History, c: ClientId, uuid: string)
    requires KeysOk(db, h) && uuid !in h.uuids
    ensures KotKey(c, uuid) !in db.outbox
  {}

  lemma RowNamed(db: Db, h: History, c: ClientId)
    requires RowsOk(db, h) && c in db.orders
    ensures db.orders[c].order.clientId == c
  {}

  lemma BumpKeeps(db: Db, h: History, id: KotId, to: PrepStatus, at: Time, uuid: string)
    requires DeviceInv(db, h) && uuid !in h.uuids && AdvanceTicket(db, id, to, at, uuid).Ok? && id.clientId in db.orders
    ensures DeviceInv(AdvanceTicket(db, id, to, at, uuid).db, h.(uuids := h.uuids + {uuid}))
  {
    hide RowsOk, OutboxOk, IdsOk, KeysOk, ClosedStable, FiguresOk, SeriesOk, TablesOk, TicketsOk, AdvanceTicket,
      MarkLines, SameExceptPrep, KotLines;
    var c, n, g := id.clientId, AdvanceTicket(db, id, to, at, uuid).db, h.(uuids := h.uuids + {uuid});
    assert id in db.kots by { BumpNeedsTicket(db, id, to, at, uuid); }
    RowNamed(db, h, c);
    FreshKey(db, h, c, uuid);
    var o := MarkedOrder(db, id, to, at);
    BumpMarks(db, id, to, at, uuid);
    MarksKeepsRows(db, n, h, g, c, o, uuid, at);
    MarksKeepsOutbox(db, n, h, g, c, o, uuid, at);
    MarksKeepsIds(db, n, h, g, c, o, uuid, at);
    MarksKeepsClosed(db, n, h, g, c, o, uuid, at);
    MarksKeepsTables(db, n, c, o, uuid, at);
    MarksKeepsFigures(db, n, h, g, c, o, uuid, at);
    BumpKeepsTickets(db, n, h, g, id, to, uuid, at);
    SameSeries(db, n, h, g);
  }

  lemma BumpNeedsTicket(db: Db, id: KotId, to: PrepStatus, at: Time, uuid: string)
    requires AdvanceTicket(db, id, to, at, uuid).Ok?
    ensures id in db.kots && db.kots[id].status != Withdrawn
  {}

  lemma OrphanBumpKeeps(db: Db, h: History, id: KotId, to: PrepStatus, at: Time, uuid: string)
    requires DeviceInv(db, h) && AdvanceTicket(db, id, to, at, uuid).Ok? && id.clientId !in db.orders
    ensures DeviceInv(AdvanceTicket(db, id, to, at, uuid).db, h.(uuids := h.uuids + {uuid}))
  {
    hide RowsOk, OutboxOk, IdsOk, KeysOk, ClosedStable, FiguresOk, SeriesOk, TablesOk, TicketsOk;
    var n, g := AdvanceTicket(db, id, to, at, uuid).db, h.(uuids := h.uuids + {uuid});
    SameSeries(db, n, h, g);
    SameRows(db, n, h, g);
    SameOrders(db, n, h, g);
    OrphanBumpKeepsTickets(db, n, h, g, id, n.kots[id]);
  }

  lemma RetainKeeps(db: Db, h: History, n: Db)
    requires DeviceInv(db, h) && Drops(db, n)
    ensures DeviceInv(n, h)
  {
    hide RowsOk, OutboxOk, IdsOk, KeysOk, ClosedStable, FiguresOk, SeriesOk, TablesOk, TicketsOk;
    DropsKeepsRows(db, n, h);
    DropsKeepsOutbox(db, n, h);
    DropsKeepsIds(db, n, h);
    DropsKeepsClosed(db, n, h);
    DropsKeepsTables(db, n);
    DropsKeepsFigures(db, n, h);
    DropsKeepsTickets(db, n, h);
    SameSeries(db, n, h, h);
  }

  /** Activation and catalog updates touch none of the tables the invariant speaks of. */
  lemma OutsideKeeps(db: Db, h: History, n: Db)
    requires DeviceInv(db, h)
    requires n.orders == db.orders && n.outbox == db.outbox && n.nextOutboxId == db.nextOutboxId
    requires n.kots == db.kots && n.billSeries == db.billSeries
    requires n.seriesCode.Some? ==> WellFormedSeries(n.seriesCode.value)
    ensures DeviceInv(n, h)
  {
    hide RowsOk, OutboxOk, IdsOk, KeysOk, ClosedStable, FiguresOk, SeriesOk, TablesOk, TicketsOk, WellFormedSeries;
    SameRows(db, n, h, h);
    SameOrders(db, n, h, h);
    SameTickets(db, n, h);
    NewSeries(db, n, h);
  }

  lemma SameRows(db: Db, n: Db, h: History, g: History)
    requires n.orders == db.orders && n.outbox == db.outbox && n.nextOutboxId == db.nextOutboxId
    requires g.used == h.used && g.closed == h.closed && h.uuids <= g.uuids
    requires RowsOk(db, h) && OutboxOk(db) && IdsOk(db) && KeysOk(db, h)
    ensures RowsOk(n, g) && OutboxOk(n) && IdsOk(n) && KeysOk(n, g)
  {
    forall c | OrderKey(c) in n.outbox
      ensures RowAgrees(n, c)
    {
      assert RowAgrees(db, c);
    }
  }

  lemma SameOrders(db: Db, n: Db, h: History, g: History)
    requires n.orders == db.orders && g.closed == h.closed
    requires ClosedStable(db, h) && FiguresOk(db, h) && TablesOk(db)
    ensures ClosedStable(n, g) && FiguresOk(n, g) && TablesOk(n)
  {
    hide SameExceptPrep, OpenFigures, ClosedFigures;
  }

  lemma SameTickets(db: Db, n: Db, h: History)
    requires n.orders == db.orders && n.kots == db.kots && TicketsOk(db, h)
    ensures TicketsOk(n, h)
  {
    hide TicketMatches, LinesNumbered;
  }

  lemma NewSeries(db: Db, n: Db, h: History)
    requires n.billSeries == db.billSeries && SeriesOk(db, h)
    requires n.seriesCode.Some? ==> WellFormedSeries(n.seriesCode.value)
    ensures SeriesOk(n, h)
  {
    hide ReceiptOk, WellFormedSeries;
  }

  /** Every local action, whether it commits or fails, keeps the device invariant. */
  lemma LocalKeeps(w: World, a: Action)
    requires IsLocal(a) && Enabled(w, a) && DeviceInv(w.db, w.hist)
    ensures DeviceInv(LocalNext(w, a).db, LocalNext(w, a).hist)
  {
    hide DeviceInv, CreateOrder, AddItems, SettleOrder, CancelOrder, AdvanceTicket, Purge, Drops, WellFormedSeries;
    if Transact(w.db, a).Ok? {
      match a
      case Create(n, c, at) => CreateKeeps(w.db, w.hist, n, c, at);
      case Add(c, lines, at) => AddKeeps(w.db, w.hist, c, lines, at);
      case Settle(_, _, _, _, _) => SettleKeeps(w.db, w.hist, a);
      case Cancel(_, _, _, _) => CancelKeeps(w.db, w.hist, a);
      case Bump(id, to, at, uuid) =>
        if id.clientId in w.db.orders {
          BumpKeeps(w.db, w.hist, id, to, at, uuid);
        } else {
          OrphanBumpKeeps(w.db, w.hist, id, to, at, uuid);
        }
      case Retain(at, orderDays, outboxDays) =>
        PurgeDrops(w.db, at, orderDays, outboxDays);
        RetainKeeps(w.db, w.hist, Purge(w.db, at, orderDays, outboxDays));
      case Reactivate(code) => OutsideKeeps(w.db, w.hist, Activate(w.db, code));
      case Refeed(tables, coupons) =>
        CurrentSeries(w.db, w.hist);
        OutsideKeeps(w.db, w.hist, Recatalog(w.db, tables, coupons));
    }
  }

  lemma CurrentSeries(db: Db, h: History)
    requires DeviceInv(db, h)
    ensures db.seriesCode.Some? ==> WellFormedSeries(db.seriesCode.value)
  {
    hide RowsOk, OutboxOk, IdsOk, KeysOk, ClosedStable, FiguresOk, TablesOk, TicketsOk;
  }
}
