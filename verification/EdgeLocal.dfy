/**
 Every local transaction keeps the facts about the terminal's tables.  The transactions fall into
 four effects on the tables: an open order is written, an open order is closed and queued, kitchen
 progress is marked on an order, or old rows are dropped.
 */
module EdgeLocal {
  import opened Options
  import opened Rounding
  import opened Money
  import opened BillNumber
  import opened EdgeModel
  import opened EdgeWorld
  import opened EdgeInvariant

  // ---------- The four effects ----------

  /** `Create` and `Add`: an order is written and stays open. */
  ghost predicate Writes(db: Db, n: Db, c: ClientId, o: Order) {
    && o.clientId == c && o.status == Open && o.lines != []
    && (c in db.orders ==> db.orders[c].order.status == Open)
    && n.orders == db.orders[c := OrderRow(o, Local)]
    && n.outbox == db.outbox && n.nextOutboxId == db.nextOutboxId
    && n.billSeries == db.billSeries && n.seriesCode == db.seriesCode
  }

  /** `Settle` and `Cancel`: an open order is closed and queued in the same transaction. */
  ghost predicate Closes(db: Db, n: Db, c: ClientId, o: Order, at: Time) {
    && c in db.orders && db.orders[c].order.status == Open
    && o.clientId == c && o.status != Open
    && o.lines == db.orders[c].order.lines && o.kotCount == db.orders[c].order.kotCount
    && n.orders == db.orders[c := OrderRow(o, Queued)]
    && n.outbox == db.outbox[OrderKey(c) := NewRow(db.nextOutboxId, [], at)]
    && n.nextOutboxId == db.nextOutboxId + 1
    && n.seriesCode == db.seriesCode
  }

  /** `Bump`: kitchen progress is marked, and possibly queued. */
  ghost predicate Marks(db: Db, n: Db, c: ClientId, o: Order, uuid: string, at: Time) {
    && c in db.orders && SameExceptPrep(o, db.orders[c].order)
    && n.orders == db.orders[c := OrderRow(o, db.orders[c].sync)]
    && (|| (n.outbox == db.outbox && n.nextOutboxId == db.nextOutboxId)
        || (&& Acknowledged(db, c)
            && n.outbox == db.outbox[KotKey(c, uuid) := NewRow(db.nextOutboxId, KotLines(o.lines), at)]
            && n.nextOutboxId == db.nextOutboxId + 1))
    && n.billSeries == db.billSeries && n.seriesCode == db.seriesCode
  }

  /** `Retain`: only rows the cloud has acknowledged are dropped. */
  ghost predicate Drops(db: Db, n: Db) {
    && n.orders.Keys <= db.orders.Keys && n.outbox.Keys <= db.outbox.Keys && n.kots.Keys <= db.kots.Keys
    && (forall c :: c in n.orders ==> n.orders[c] == db.orders[c])
    && (forall c :: c in db.orders && c !in n.orders ==> db.orders[c].sync in {Synced, Flagged})
    && (forall k :: k in n.outbox ==> n.outbox[k] == db.outbox[k])
    && (forall k :: k in db.outbox && k !in n.outbox ==> db.outbox[k].status in {Done, Conflicted})
    && (forall id :: id in n.kots ==> n.kots[id] == db.kots[id])
    && (forall id :: id in db.kots && id !in n.kots ==>
          id.clientId in n.orders ==> n.orders[id.clientId].order.status != Open)
    && n.nextOutboxId == db.nextOutboxId && n.billSeries == db.billSeries && n.seriesCode == db.seriesCode
  }

  // ---------- What each transaction does ----------

  lemma CreateWrites(db: Db, n: NewOrder, c: ClientId, at: Time)
    requires c !in db.orders && CreateOrder(db, n, c, at).Ok?
    ensures Writes(db, CreateOrder(db, n, c, at).db, c, FireOrder(FreshOrder(n, c, at), n.lines))
  {
    hide TotalsFor, FireTickets, TableBusy;
  }

  lemma AddWrites(db: Db, c: ClientId, lines: seq<NewLine>, at: Time)
    requires AddItems(db, c, lines, at).Ok? && db.orders[c].order.clientId == c && db.orders[c].sync == Local
    ensures Writes(db, AddItems(db, c, lines, at).db, c, FireOrder(db.orders[c].order, lines).(updatedAt := at))
  {}

  lemma SaveClosedCloses(db: Db, m: Db, o: Order, at: Time)
    requires o.clientId in db.orders && db.orders[o.clientId].order.status == Open && OrderKey(o.clientId) !in db.outbox
    requires o.status != Open && o.lines == db.orders[o.clientId].order.lines
    requires o.kotCount == db.orders[o.clientId].order.kotCount
    requires m.orders == db.orders && m.outbox == db.outbox && m.nextOutboxId == db.nextOutboxId
    requires m.seriesCode == db.seriesCode
    ensures Closes(db, SaveClosed(m, o, at), o.clientId, o, at)
    ensures SaveClosed(m, o, at).kots == m.kots && SaveClosed(m, o, at).billSeries == m.billSeries
  {}

  /** The order a successful settlement leaves, and the counters it moves. */
  lemma SettleCloses(db: Db, c: ClientId, s: Settlement, at: Time, trueNow: Time, fy: string)
    requires SettleOrder(db, c, s, at, trueNow, fy).Ok?
    requires db.orders[c].order.clientId == c && OrderKey(c) !in db.outbox
    ensures var n, q := SettleOrder(db, c, s, at, trueNow, fy).db, QuoteFor(db, db.orders[c].order, s, trueNow);
            && q.Quote? && c in n.orders && Closes(db, n, c, n.orders[c].order, at) && n.kots == db.kots
            && n.orders[c].order.receipt.Some?
            && n.orders[c].order == SettledOrder(db.orders[c].order, s, q, n.orders[c].order.billNo,
                                                 n.orders[c].order.receipt.value, at)
            && (db.seriesCode.None? ==> n.billSeries == db.billSeries && n.orders[c].order.billNo.None?)
            && (db.seriesCode.Some? ==>
                  var bill := NextBillNo(db, db.seriesCode.value, fy);
                  && n.billSeries == db.billSeries[(bill.series, fy) := bill.seqNo]
                  && n.orders[c].order.billNo == Some(bill)
                  && Format(bill) == PrintedNumber(n.orders[c].order) && Format(bill).Some?)
  {
    hide QuoteFor, Format, SaveClosed, Closes;
    var q := QuoteFor(db, db.orders[c].order, s, trueNow);
    if db.seriesCode.None? {
      var closed := SettledOrder(db.orders[c].order, s, q, None, Provisional(db.legacySeq + 1), at);
      SaveClosedCloses(db, db.(legacySeq := db.legacySeq + 1), closed, at);
      ClosesWrites(db, SaveClosed(db.(legacySeq := db.legacySeq + 1), closed, at), c, closed, at);
    } else {
      var bill := NextBillNo(db, db.seriesCode.value, fy);
      var closed := SettledOrder(db.orders[c].order, s, q, Some(bill), Invoice(Format(bill).value), at);
      var m := db.(billSeries := db.billSeries[(bill.series, fy) := bill.seqNo]);
      SaveClosedCloses(db, m, closed, at);
      ClosesWrites(db, SaveClosed(m, closed, at), c, closed, at);
    }
  }

  lemma ClosesWrites(db: Db, n: Db, c: ClientId, o: Order, at: Time)
    requires Closes(db, n, c, o, at)
    ensures c in n.orders && n.orders[c].order == o
  {}

  lemma CancelCloses(db: Db, c: ClientId, staffId: Option<string>, reason: Option<string>, at: Time)
    requires CancelOrder(db, c, staffId, reason, at).Ok?
    requires db.orders[c].order.clientId == c && OrderKey(c) !in db.outbox
    ensures var n := CancelOrder(db, c, staffId, reason, at).db;
            && c in n.orders && n.orders[c].order == CancelledOrder(db.orders[c].order, staffId, reason, at)
            && Closes(db, n, c, n.orders[c].order, at)
            && n.kots == Withdraw(db.kots, c, at) && n.billSeries == db.billSeries
  {
    hide SaveClosed, Closes;
    var closed := CancelledOrder(db.orders[c].order, staffId, reason, at);
    var m := db.(kots := Withdraw(db.kots, c, at));
    SaveClosedCloses(db, m, closed, at);
    ClosesWrites(db, SaveClosed(m, closed, at), c, closed, at);
  }

  function MarkedOrder(db: Db, id: KotId, to: PrepStatus, at: Time): Order
    requires id in db.kots && id.clientId in db.orders
  {
    var o := db.orders[id.clientId].order;
    o.(lines := MarkLines(o.lines, db.kots[id].items, to, at))
  }

  lemma BumpMarks(db: Db, id: KotId, to: PrepStatus, at: Time, uuid: string)
    requires AdvanceTicket(db, id, to, at, uuid).Ok? && id.clientId in db.orders
    requires db.orders[id.clientId].order.clientId == id.clientId && KotKey(id.clientId, uuid) !in db.outbox
    ensures var n := AdvanceTicket(db, id, to, at, uuid).db;
            && Marks(db, n, id.clientId, MarkedOrder(db, id, to, at), uuid, at)
            && (n.outbox != db.outbox <==> Acknowledged(db, id.clientId))
            && n.kots == db.kots[id := db.kots[id].(status := Live(to), updatedAt := at, readyAt := ReadyTime(to, at))]
  {}

  lemma PurgeDrops(db: Db, now: Time, orderDays: nat, outboxDays: nat)
    ensures Drops(db, Purge(db, now, orderDays, outboxDays))
  {}

  // ---------- What each effect keeps ----------

  lemma WritesKeepsRows(db: Db, n: Db, h: History, g: History, c: ClientId, o: Order)
    requires Writes(db, n, c, o) && g == h.(used := h.used + {c}) && (c !in db.orders ==> c !in h.used)
    requires RowsOk(db, h)
    ensures RowsOk(n, g)
  {}

  lemma WritesKeepsOutbox(db: Db, n: Db, h: History, g: History, c: ClientId, o: Order)
    requires Writes(db, n, c, o) && g == h.(used := h.used + {c}) && (c !in db.orders ==> c !in h.used)
    requires RowsOk(db, h) && OutboxOk(db) && KeysOk(db, h)
    ensures OutboxOk(n)
  {}

  lemma WritesKeepsIds(db: Db, n: Db, h: History, g: History, c: ClientId, o: Order)
    requires Writes(db, n, c, o) && g == h.(used := h.used + {c}) && (c !in db.orders ==> c !in h.used)
    requires RowsOk(db, h) && IdsOk(db) && KeysOk(db, h)
    ensures IdsOk(n) && KeysOk(n, g)
  {}

  lemma WritesKeepsClosed(db: Db, n: Db, h: History, g: History, c: ClientId, o: Order)
    requires Writes(db, n, c, o) && g == h.(used := h.used + {c}) && (c !in db.orders ==> c !in h.used)
    requires RowsOk(db, h) && ClosedStable(db, h)
    ensures ClosedStable(n, g)
  {}

  lemma ClosesKeepsRows(db: Db, n: Db, h: History, g: History, c: ClientId, o: Order, at: Time)
    requires Closes(db, n, c, o, at) && g.used == h.used && g.closed == h.closed[c := o] && g.uuids == h.uuids
    requires RowsOk(db, h)
    ensures RowsOk(n, g)
  {}

  lemma ClosesKeepsOutbox(db: Db, n: Db, h: History, g: History, c: ClientId, o: Order, at: Time)
    requires Closes(db, n, c, o, at) && g.used == h.used && g.closed == h.closed[c := o] && g.uuids == h.uuids
    requires RowsOk(db, h) && OutboxOk(db) && KeysOk(db, h)
    ensures OutboxOk(n)
  {
    hide OutboxOk, RowsOk, KeysOk;
    QueuedCoupling(db, n, c);
  }

  /** One order has been queued with its row; the others are as they were. */
  lemma QueuedCoupling(db: Db, n: Db, c: ClientId)
    requires OutboxOk(db) && OrderKey(c) in n.outbox && n.outbox[OrderKey(c)].status == Pending
    requires c in n.orders && n.orders[c].sync == Queued
    requires forall d :: d != c ==> (d in n.orders <==> d in db.orders)
    requires forall d :: d != c && d in db.orders ==> n.orders[d] == db.orders[d]
    requires forall d :: d != c ==> (OrderKey(d) in n.outbox <==> OrderKey(d) in db.outbox)
    requires forall d :: d != c && OrderKey(d) in db.outbox ==> n.outbox[OrderKey(d)] == db.outbox[OrderKey(d)]
    ensures OutboxOk(n)
  {
    forall d | OrderKey(d) in n.outbox
      ensures RowAgrees(n, d)
    {
      assert d != c ==> RowAgrees(db, d);
    }
  }

  lemma ClosesKeepsIds(db: Db, n: Db, h: History, g: History, c: ClientId, o: Order, at: Time)
    requires Closes(db, n, c, o, at) && g.used == h.used && g.closed == h.closed[c := o] && g.uuids == h.uuids
    requires RowsOk(db, h) && IdsOk(db) && KeysOk(db, h)
    ensures IdsOk(n) && KeysOk(n, g)
  {}

  lemma ClosesKeepsClosed(db: Db, n: Db, h: History, g: History, c: ClientId, o: Order, at: Time)
    requires Closes(db, n, c, o, at) && g.used == h.used && g.closed == h.closed[c := o] && g.uuids == h.uuids
    requires RowsOk(db, h) && ClosedStable(db, h)
    ensures ClosedStable(n, g)
  {}

  lemma MarksKeepsRows(db: Db, n: Db, h: History, g: History, c: ClientId, o: Order, uuid: string, at: Time)
    requires Marks(db, n, c, o, uuid, at) && g == h.(uuids := h.uuids + {uuid}) && uuid !in h.uuids
    requires RowsOk(db, h)
    ensures RowsOk(n, g)
  {}

  lemma MarksKeepsOutbox(db: Db, n: Db, h: History, g: History, c: ClientId, o: Order, uuid: string, at: Time)
    requires Marks(db, n, c, o, uuid, at) && g == h.(uuids := h.uuids + {uuid}) && uuid !in h.uuids
    requires RowsOk(db, h) && OutboxOk(db) && KeysOk(db, h)
    ensures OutboxOk(n)
  {
    hide KotLines, SameExceptPrep, OutboxOk, RowsOk, KeysOk;
    SameCoupling(db, n);
  }

  /** Order rows and sync states are as they were. */
  lemma SameCoupling(db: Db, n: Db)
    requires OutboxOk(db) && n.orders.Keys == db.orders.Keys
    requires forall c :: c in db.orders ==> n.orders[c].sync == db.orders[c].sync
    requires forall c :: OrderKey(c) in n.outbox <==> OrderKey(c) in db.outbox
    requires forall c :: OrderKey(c) in db.outbox ==> n.outbox[OrderKey(c)] == db.outbox[OrderKey(c)]
    ensures OutboxOk(n)
  {
    forall c | OrderKey(c) in n.outbox
      ensures RowAgrees(n, c)
    {
      assert RowAgrees(db, c);
    }
  }

  lemma MarksKeepsIds(db: Db, n: Db, h: History, g: History, c: ClientId, o: Order, uuid: string, at: Time)
    requires Marks(db, n, c, o, uuid, at) && g == h.(uuids := h.uuids + {uuid}) && uuid !in h.uuids
    requires RowsOk(db, h) && IdsOk(db) && KeysOk(db, h)
    ensures IdsOk(n) && KeysOk(n, g)
  {}

  lemma MarksKeepsClosed(db: Db, n: Db, h: History, g: History, c: ClientId, o: Order, uuid: string, at: Time)
    requires Marks(db, n, c, o, uuid, at) && g == h.(uuids := h.uuids + {uuid}) && uuid !in h.uuids
    requires RowsOk(db, h) && ClosedStable(db, h)
    ensures ClosedStable(n, g)
  {}

  lemma DropsKeepsRows(db: Db, n: Db, h: History)
    requires Drops(db, n)
    requires RowsOk(db, h)
    ensures RowsOk(n, h)
  {}

  lemma DropsKeepsOutbox(db: Db, n: Db, h: History)
    requires Drops(db, n)
    requires RowsOk(db, h) && OutboxOk(db)
    ensures OutboxOk(n)
  {}

  lemma DropsKeepsIds(db: Db, n: Db, h: History)
    requires Drops(db, n)
    requires IdsOk(db) && KeysOk(db, h)
    ensures IdsOk(n) && KeysOk(n, h)
  {}

  lemma DropsKeepsClosed(db: Db, n: Db, h: History)
    requires Drops(db, n)
    requires ClosedStable(db, h)
    ensures ClosedStable(n, h)
  {}

  // ---------- Tables ----------

  lemma WritesKeepsTables(db: Db, n: Db, c: ClientId, o: Order)
    requires Writes(db, n, c, o) && TablesOk(db)
    requires c in db.orders ==> o.tableId == db.orders[c].order.tableId
    requires c !in db.orders && o.tableId.Some? ==> !TableBusy(db, o.tableId.value)
    ensures TablesOk(n)
  {}

  lemma ClosesKeepsTables(db: Db, n: Db, c: ClientId, o: Order, at: Time)
    requires Closes(db, n, c, o, at) && TablesOk(db)
    ensures TablesOk(n)
  {}

  lemma MarksKeepsTables(db: Db, n: Db, c: ClientId, o: Order, uuid: string, at: Time)
    requires Marks(db, n, c, o, uuid, at) && TablesOk(db)
    ensures TablesOk(n)
  {}

  lemma DropsKeepsTables(db: Db, n: Db)
    requires Drops(db, n) && TablesOk(db)
    ensures TablesOk(n)
  {}

  // ---------- Figures ----------

  lemma TotalsCongruent(a: seq<Line>, b: seq<Line>, discountPaise: int)
    requires |a| == |b| && forall i :: 0 <= i < |a| ==> a[i].what == b[i].what
    ensures TotalsFor(a, discountPaise) == TotalsFor(b, discountPaise)
  {
    hide OrderTotals;
    assert MoneyLines(a) == MoneyLines(b);
  }

  lemma SettlementFigures(
    db: Db, o: Order, s: Settlement, trueNow: Time, bill: Option<BillNo>, receipt: ReceiptRef, at: Time)
    requires QuoteFor(db, o, s, trueNow).Quote?
    ensures ClosedFigures(SettledOrder(o, s, QuoteFor(db, o, s, trueNow), bill, receipt, at))
  {
    hide PreviewCoupon, WholePaise, TenderOk, Subtotal, RawTax, BlendedTax;
    RoundMonotone(0.0, s.discountRupees * 100.0);
    RoundUnique(0.0, 0);
  }

  lemma WritesKeepsFigures(db: Db, n: Db, h: History, g: History, c: ClientId, o: Order)
    requires Writes(db, n, c, o) && g.closed == h.closed && FiguresOk(db, h) && OpenFigures(o)
    ensures FiguresOk(n, g)
  {
    hide TotalsFor;
  }

  lemma ClosesKeepsFigures(db: Db, n: Db, h: History, g: History, c: ClientId, o: Order, at: Time)
    requires Closes(db, n, c, o, at) && g.closed == h.closed[c := o] && FiguresOk(db, h) && ClosedFigures(o)
    ensures FiguresOk(n, g)
  {
    hide TotalsFor;
  }

  lemma MarksKeepsFigures(db: Db, n: Db, h: History, g: History, c: ClientId, o: Order, uuid: string, at: Time)
    requires Marks(db, n, c, o, uuid, at) && g.closed == h.closed && FiguresOk(db, h)
    ensures FiguresOk(n, g)
  {
    hide TotalsFor;
    TotalsCongruent(o.lines, db.orders[c].order.lines, 0);
  }

  lemma DropsKeepsFigures(db: Db, n: Db, h: History)
    requires Drops(db, n) && FiguresOk(db, h)
    ensures FiguresOk(n, h)
  {
    hide TotalsFor;
  }

  // ---------- Invoice series ----------

  /** A settlement that draws the next number keeps every series gapless. */
  lemma NumberedCloseKeepsSeries(db: Db, n: Db, h: History, g: History, c: ClientId, o: Order, bill: BillNo)
    requires SeriesOk(db, h) && c !in h.closed
    requires bill.seqNo == LastSeq(db.billSeries, bill.series, bill.fy) + 1
    requires n.billSeries == db.billSeries[(bill.series, bill.fy) := bill.seqNo] && n.seriesCode == db.seriesCode
    requires o.billNo == Some(bill) && ReceiptOk(o)
    requires g.closed == h.closed[c := o] && g.issued == h.issued[bill := c]
    ensures SeriesOk(n, g)
  {
    hide ReceiptOk, WellFormedSeries;
    assert bill !in h.issued;
    NumbersStayGapless(db, n, h, g, c, bill);
    hide LastSeq;
  }

  lemma NumbersStayGapless(db: Db, n: Db, h: History, g: History, c: ClientId, bill: BillNo)
    requires forall b :: b in h.issued <==> 1 <= b.seqNo <= LastSeq(db.billSeries, b.series, b.fy)
    requires bill.seqNo == LastSeq(db.billSeries, bill.series, bill.fy) + 1
    requires n.billSeries == db.billSeries[(bill.series, bill.fy) := bill.seqNo] && g.issued == h.issued[bill := c]
    ensures forall b :: b in g.issued <==> 1 <= b.seqNo <= LastSeq(n.billSeries, b.series, b.fy)
  {
    forall b: BillNo
      ensures b in g.issued <==> 1 <= b.seqNo <= LastSeq(n.billSeries, b.series, b.fy)
    {
      if b.series == bill.series && b.fy == bill.fy && b != bill {
        assert b.seqNo != bill.seqNo;
      }
    }
  }

  lemma UnnumberedCloseKeepsSeries(db: Db, n: Db, h: History, g: History, c: ClientId, o: Order)
    requires SeriesOk(db, h) && c !in h.closed && o.billNo.None?
    requires n.billSeries == db.billSeries && n.seriesCode == db.seriesCode
    requires g.closed == h.closed[c := o] && g.issued == h.issued
    ensures SeriesOk(n, g)
  {
    hide WellFormedSeries, LastSeq;
  }
}
