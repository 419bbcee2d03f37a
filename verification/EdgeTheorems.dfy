/** What every run of a fresh terminal against the cloud guarantees. */
module EdgeTheorems {
  import opened Numbers
  import opened Options
  import opened Rounding
  import opened Money
  import opened BillNumber
  import opened EdgeModel
  import opened EdgeWorld
  import opened EdgeInvariant
  import opened EdgeLocal
  import opened EdgeDevice
  import opened EdgePayload
  import opened EdgeSync
  import opened EdgeLink

  lemma Reached(run: seq<Action>)
    requires Legal(START, run)
    ensures WorldInv(After(START, run))
  {
    hide WorldInv;
    StartWorld();
    RunsKeepWorld(START, run);
  }

  // ---------- Exactly-once sync ----------

  /**
   The bill the cloud recorded is the bill on the receipt: figures, payments, invoice number and,
   but for kitchen progress, every line.
   */
  predicate SameBill(p: Payload, o: Order) {
    && p.clientId == o.clientId && p.status == o.status && p.billNo == o.billNo
    && p.subtotal == o.totals.subtotal && p.tax == o.totals.tax && p.total == o.totals.total
    && p.manualRupees == o.manualRupees && p.couponPaise == o.couponPaise && p.couponCode == o.couponCode
    && (o.status == Settled ==> p.payments == o.payments)
    && |p.items| + |p.combos| == |o.lines|
    && Strip(p) == Strip(PayloadOf(o))
  }

  lemma {:induction false} KindsCoverLines(lines: seq<Line>)
    ensures |LinesOfKind(lines, ItemLine)| + |LinesOfKind(lines, ComboLine)| == |lines|
  {
    if lines != [] {
      KindsCoverLines(lines[..|lines| - 1]);
    }
  }

  lemma BillIsSame(p: Payload, o: Order)
    requires Strip(p) == Strip(PayloadOf(o))
    ensures SameBill(p, o)
  {
    hide LinesOfKind, PrintedNumber;
    var q := PayloadOf(o);
    KindsCoverLines(o.lines);
    assert |Strip(p).items| == |p.items| && |Strip(q).items| == |q.items|;
    assert |Strip(p).combos| == |p.combos| && |Strip(q).combos| == |q.combos|;
    assert p.(items := Strip(p).items, combos := Strip(p).combos)
           == q.(items := Strip(q).items, combos := Strip(q).combos);
  }

  /** No pending order row: as far as orders go, the outbox has drained. */
  ghost predicate OrdersDrained(db: Db) {
    forall c :: OrderKey(c) in db.outbox ==> db.outbox[OrderKey(c)].status != Pending
  }

  /**
   Each order reaches the cloud at most once and exactly as billed; an order the terminal calls
   synced is there; and an order that was ever closed is in the cloud, or still queued on the
   terminal, or marked refused on the terminal, purged or not.
   */
  lemma ExactlyOnceSync(run: seq<Action>)
    requires Legal(START, run)
    ensures var w := After(START, run);
            && (forall i, j :: 0 <= i < j < |w.cloud.log| ==> w.cloud.log[i] != w.cloud.log[j])
            && (forall c :: c in w.cloud.orders <==> c in w.cloud.log)
            && (forall c :: c in w.cloud.orders ==> c in w.hist.closed && SameBill(w.cloud.orders[c], w.hist.closed[c]))
            && (forall c :: c in w.db.orders && w.db.orders[c].sync in {Synced, Flagged} ==> c in w.cloud.orders)
            && (forall c :: c in w.hist.closed && c !in w.cloud.orders ==>
                  c in w.db.orders && OrderKey(c) in w.db.outbox
                  && ((w.db.orders[c].sync == Queued && w.db.outbox[OrderKey(c)].status == Pending)
                      || w.db.orders[c].sync == Refused))
  {
    hide FilingOk, OwnSeries, WireOk, FlightOk, IdsOk, KeysOk, ClosedStable, FiguresOk, SeriesOk, TablesOk, TicketsOk,
      Strip, PayloadOf, SameBill;
    Reached(run);
    var w := After(START, run);
    forall c | c in w.cloud.orders
      ensures c in w.hist.closed && SameBill(w.cloud.orders[c], w.hist.closed[c])
    {
      assert IsBillOf(w.cloud.orders[c], w.hist);
      BillIsSame(w.cloud.orders[c], w.hist.closed[c]);
    }
  }

  /** Once no order row is pending and none was refused, the cloud's books are the receipts. */
  lemma DrainedBooksAreReceipts(run: seq<Action>)
    requires Legal(START, run) && OrdersDrained(After(START, run).db)
    requires forall c :: c in After(START, run).db.orders ==> After(START, run).db.orders[c].sync != Refused
    ensures var w := After(START, run);
            (map c | c in w.cloud.orders :: w.cloud.orders[c].total)
            == (map c | c in w.hist.closed :: w.hist.closed[c].totals.total)
  {
    hide SameBill;
    ExactlyOnceSync(run);
    var w := After(START, run);
    forall c | c in w.cloud.orders
      ensures w.cloud.orders[c].total == w.hist.closed[c].totals.total
    {
      TotalOfSameBill(w.cloud.orders[c], w.hist.closed[c]);
    }
  }

  lemma TotalOfSameBill(p: Payload, o: Order)
    requires SameBill(p, o)
    ensures p.total == o.totals.total
  {}

  // ---------- Outbox coupling and payload stability ----------

  /** Open means local; queued means one pending row; a pending row never lacks its order. */
  lemma OutboxCoupling(run: seq<Action>)
    requires Legal(START, run)
    ensures var w := After(START, run);
            && (forall c :: c in w.db.orders ==>
                    (w.db.orders[c].order.status == Open <==> w.db.orders[c].sync == Local))
            && (forall c :: (c in w.db.orders && w.db.orders[c].sync == Queued) <==>
                            (OrderKey(c) in w.db.outbox && w.db.outbox[OrderKey(c)].status == Pending))
            && (forall due: seq<Key>, at: Time :: IsBatch(w.db.outbox, at, due) ==>
                  RejectMissing(w.db, due) == w.db && |Ops(w.db, due)| == |due|)
  {
    hide CloudOk, FilingOk, OwnSeries, AckOk, WireOk, FlightOk, IdsOk, KeysOk, ClosedStable, FiguresOk, SeriesOk,
      TablesOk, TicketsOk, RejectMissing, Ops, OpFor;
    Reached(run);
    var w := After(START, run);
    forall c | OrderKey(c) in w.db.outbox && w.db.outbox[OrderKey(c)].status == Pending
      ensures c in w.db.orders && w.db.orders[c].sync == Queued
    {
      assert RowAgrees(w.db, c);
    }
    forall due: seq<Key>, at: Time | IsBatch(w.db.outbox, at, due)
      ensures RejectMissing(w.db, due) == w.db && |Ops(w.db, due)| == |due|
    {
      NothingMissing(w.db, due);
      OpsMatchBatch(w.db, due);
    }
  }

  /** An order row appears in the step that closes the order, and an order is closed only once. */
  lemma QueuedExactlyWhenClosed(run: seq<Action>, a: Action, c: ClientId)
    requires Legal(START, run) && Enabled(After(START, run), a)
    ensures var w := After(START, run);
            var n := Next(w, a);
            && (OrderKey(c) in n.db.outbox && OrderKey(c) !in w.db.outbox ==> c in n.hist.closed && c !in w.hist.closed)
            && (c in w.hist.closed ==> c in n.hist.closed && n.hist.closed[c] == w.hist.closed[c])
            && (c in n.hist.closed && c !in w.hist.closed ==> OrderKey(c) in n.db.outbox && OrderKey(c) !in w.db.outbox)
  {
    hide Next, WorldInv;
    Reached(run);
    var w := After(START, run);
    StepKeepsWorld(w, a);
    if IsLocal(a) {
      LocalQueueing(w, a, c);
    } else {
      LinkQueueing(w, a);
    }
  }

  lemma LocalQueueing(w: World, a: Action, c: ClientId)
    requires WorldInv(w) && IsLocal(a) && Enabled(w, a)
    ensures var n := Next(w, a);
            && (OrderKey(c) in n.db.outbox && OrderKey(c) !in w.db.outbox ==> c in n.hist.closed && c !in w.hist.closed)
            && (c in w.hist.closed ==> c in n.hist.closed && n.hist.closed[c] == w.hist.closed[c])
            && (c in n.hist.closed && c !in w.hist.closed ==> OrderKey(c) in n.db.outbox && OrderKey(c) !in w.db.outbox)
  {
    hide WorldInv, Transact;
    if Transact(w.db, a).Ok? {
      if a.Settle? || a.Cancel? {
        ClosingQueues(w, a);
      } else {
        OthersQueueNoOrder(w, a, c);
      }
    }
  }

  /** Closing an order adds its row and its entry in the history, which had neither. */
  lemma ClosingQueues(w: World, a: Action)
    requires WorldInv(w) && (a.Settle? || a.Cancel?) && Transact(w.db, a).Ok?
    ensures var n := Transact(w.db, a).db;
            && a.c in n.orders && a.c !in w.hist.closed && OrderKey(a.c) !in w.db.outbox
            && n.outbox.Keys == w.db.outbox.Keys + {OrderKey(a.c)}
  {
    hide CloudOk, FilingOk, OwnSeries, AckOk, WireOk, FlightOk, SettleOrder, CancelOrder, RowsOk, OutboxOk, IdsOk,
      KeysOk, ClosedStable, FiguresOk, SeriesOk, TablesOk, TicketsOk, QuoteFor, Format;
    if a.Settle? {
      SettleNeedsOpen(w.db, a);
      OpenRow(w.db, w.hist, a.c);
      SettleCloses(w.db, a.c, a.s, a.at, a.trueNow, a.fy);
    } else {
      CancelNeedsOpen(w.db, a.c, a.staffId, a.reason, a.at);
      OpenRow(w.db, w.hist, a.c);
      CancelCloses(w.db, a.c, a.staffId, a.reason, a.at);
    }
  }

  lemma OthersQueueNoOrder(w: World, a: Action, c: ClientId)
    requires WorldInv(w) && IsLocal(a) && Enabled(w, a) && !a.Settle? && !a.Cancel? && Transact(w.db, a).Ok?
    ensures OrderKey(c) in Transact(w.db, a).db.outbox ==> OrderKey(c) in w.db.outbox
  {
    hide CloudOk, FilingOk, OwnSeries, AckOk, WireOk, FlightOk, CreateOrder, AddItems, AdvanceTicket, Purge, RowsOk,
      OutboxOk, IdsOk, KeysOk, ClosedStable, FiguresOk, SeriesOk, TablesOk, TicketsOk, FireOrder, FreshOrder, KotLines,
      SameExceptPrep, WellFormedSeries;
    var db, h := w.db, w.hist;
    match a
    case Create(m, d, at) =>
      Fresh(db, h, d);
      CreateWrites(db, m, d, at);
    case Add(d, lines, at) =>
      AddNeedsOpen(db, d, lines, at);
      OpenRow(db, h, d);
      AddWrites(db, d, lines, at);
    case Bump(id, to, at, uuid) =>
      BumpNeedsTicket(db, id, to, at, uuid);
      if id.clientId in db.orders {
        RowNamed(db, h, id.clientId);
        FreshKey(db, h, id.clientId, uuid);
        BumpMarks(db, id, to, at, uuid);
      } else {
        OrphanBump(db, id, to, at, uuid);
      }
    case Retain(at, orderDays, outboxDays) => PurgeDrops(db, at, orderDays, outboxDays);
    case Reactivate(code) =>
    case Refeed(tables, coupons) =>
  }

  /** The two outboxes hold the same rows, whatever their states. */
  ghost predicate SameRows(a: map<Key, OutboxRow>, b: map<Key, OutboxRow>) {
    a.Keys == b.Keys && forall k :: k in a ==> a[k].id == b[k].id
  }

  lemma ReplyKeepsRows(db: Db, e: DueRow, s: OpStatus, now: Time, backoff: nat -> int)
    ensures SameRows(ApplyReply(db, e, s, now, backoff).outbox, db.outbox)
  {
    hide FinalStatus, FinalSync;
    var n := ApplyReply(db, e, s, now, backoff).outbox;
    assert n == db.outbox || (e.key in db.outbox && n == db.outbox[e.key := n[e.key]]);
    assert e.key in db.outbox ==> n[e.key].id == db.outbox[e.key].id;
    hide ApplyReply;
  }

  lemma {:induction false} RepliesKeepRows(db: Db, due: seq<DueRow>, rs: seq<Reply>, now: Time, backoff: nat -> int)
    ensures SameRows(ApplyReplies(db, due, rs, now, backoff).outbox, db.outbox)
  {
    hide ApplyReply;
    if rs != [] {
      var before := ApplyReplies(db, due, rs[..|rs| - 1], now, backoff);
      RepliesKeepRows(db, due, rs[..|rs| - 1], now, backoff);
      var e := FindDue(due, rs[|rs| - 1].key);
      if e.Some? {
        ReplyKeepsRows(before, e.value, rs[|rs| - 1].status, now, backoff);
      }
    }
  }

  lemma LinkQueueing(w: World, a: Action)
    requires WorldInv(w) && !IsLocal(a) && Enabled(w, a)
    ensures Next(w, a).db.outbox.Keys == w.db.outbox.Keys && Next(w, a).hist == w.hist
  {
    hide WorldInv, Ops, ApplyReplies, Ingest;
    if a.Send? {
      SendKeepsWorld(w, a.due, a.at);
    } else if a.Receive? {
      var f := w.net.flight.value;
      RepliesKeepRows(w.db, f.due, Replies(f.ops, a.statuses), a.at, a.backoff);
    }
  }

  /** Every payload ever sent for an order, and the next one to be built, is the same bill. */
  lemma PayloadStability(run: seq<Action>, p: Payload)
    requires Legal(START, run) && OrderOp(p) in After(START, run).net.wire
    ensures var w := After(START, run);
            && (forall q :: OrderOp(q) in w.net.wire && q.clientId == p.clientId ==> Strip(q) == Strip(p))
            && (p.clientId in w.db.orders ==> Strip(PayloadOf(w.db.orders[p.clientId].order)) == Strip(p))
  {
    hide CloudOk, FilingOk, OwnSeries, AckOk, FlightOk, OutboxOk, IdsOk, KeysOk, FiguresOk, SeriesOk, TablesOk,
      TicketsOk, Strip, PayloadOf, SameExceptPrep;
    Reached(run);
    var w := After(START, run);
    assert forall q :: OrderOp(q) in w.net.wire ==> IsBillOf(OrderOp(q).payload, w.hist);
    if p.clientId in w.db.orders {
      PayloadIsStable(w.db.orders[p.clientId].order, w.hist.closed[p.clientId]);
    }
  }

  // ---------- Invoices ----------

  /**
   Over any run, re-activations, failed settlements and purges included, the numbers issued for a
   series and year are exactly 1 to the counter, and each belongs to exactly one order.
   */
  lemma GaplessInvoices(run: seq<Action>, series: string, fy: string)
    requires Legal(START, run)
    ensures var w := After(START, run);
            && (forall k: nat :: BillNo(series, fy, k) in w.hist.issued <==>
                    1 <= k <= LastSeq(w.db.billSeries, series, fy))
            && (forall k: nat :: 1 <= k <= LastSeq(w.db.billSeries, series, fy) ==>
                  var b := BillNo(series, fy, k);
                  w.hist.issued[b] in w.hist.closed
                  && forall c :: c in w.hist.closed ==> (w.hist.closed[c].billNo == Some(b) <==> c == w.hist.issued[b]))
  {
    hide CloudOk, FilingOk, OwnSeries, AckOk, WireOk, FlightOk, RowsOk, OutboxOk, IdsOk, KeysOk, FiguresOk,
      ClosedStable, TablesOk, TicketsOk, ReceiptOk, WellFormedSeries;
    Reached(run);
  }

  /** Every numbered bill is filed in the cloud under the number on its receipt, which no other order has. */
  lemma FiledUnderReceiptNumber(run: seq<Action>, c: ClientId, d: ClientId)
    requires Legal(START, run)
    ensures var w := After(START, run);
            (&& c in w.cloud.orders && w.cloud.orders[c].billNo.Some?
             && d in w.cloud.orders && w.cloud.orders[d].billNo.Some?) ==>
              && c in w.hist.closed && PrintedNumber(w.hist.closed[c]).Some? && c in w.cloud.filed && d in w.cloud.filed
              && w.cloud.filed[c] == DeviceNumber(PrintedNumber(w.hist.closed[c]).value)
              && (w.cloud.filed[c] == w.cloud.filed[d] ==> c == d)
  {
    hide WorldInv;
    Reached(run);
    var w := After(START, run);
    if c in w.cloud.orders && w.cloud.orders[c].billNo.Some? && d in w.cloud.orders && w.cloud.orders[d].billNo.Some? {
      FiledPair(w, c, d);
    }
  }

  lemma FiledPair(w: World, c: ClientId, d: ClientId)
    requires WorldInv(w)
    requires c in w.cloud.orders && w.cloud.orders[c].billNo.Some? && d in w.cloud.orders
    requires w.cloud.orders[d].billNo.Some?
    ensures c in w.hist.closed && PrintedNumber(w.hist.closed[c]).Some? && c in w.cloud.filed && d in w.cloud.filed
    ensures w.cloud.filed[c] == DeviceNumber(PrintedNumber(w.hist.closed[c]).value)
    ensures w.cloud.filed[c] == w.cloud.filed[d] ==> c == d
  {
    hide OwnSeries, AckOk, WireOk, FlightOk, RowsOk, OutboxOk, IdsOk, KeysOk, FiguresOk, ClosedStable, TablesOk,
      TicketsOk, Strip, PayloadOf, WellFormedSeries, WellFormedYear, NumberText, PrintedNumber, SameBill;
    assert IsBillOf(w.cloud.orders[c], w.hist) && IsBillOf(w.cloud.orders[d], w.hist);
    SameBillNo(w.cloud.orders[c], w.hist.closed[c]);
    SameBillNo(w.cloud.orders[d], w.hist.closed[d]);
    assert ReceiptOk(w.hist.closed[c]) && ReceiptOk(w.hist.closed[d]);
    if w.cloud.filed[c] == w.cloud.filed[d] {
      NumbersAreInjective(w.hist.closed[c].billNo.value, w.hist.closed[d].billNo.value);
    }
  }

  lemma SameBillNo(p: Payload, o: Order)
    requires Strip(p) == Strip(PayloadOf(o))
    ensures p.billNo == o.billNo
  {
    hide LinesOfKind, StripLines;
    assert Strip(p).billNo == Strip(PayloadOf(o)).billNo;
  }

  /** The cloud refuses a bill only over catalog references; figures and invoice number always pass. */
  lemma RefusedOnlyOverCatalog(run: seq<Action>, p: Payload, env: Env)
    requires Legal(START, run) && OrderOp(p) in After(START, run).net.wire
    ensures var r := Ingest(After(START, run).cloud, OrderOp(p), env);
            && (r.status == Refuse ==> env.unknownRefs)
            && (r.status == Conflict ==> env.flagged)
  {
    hide DeviceInv, CloudOk, FilingOk, OwnSeries, AckOk, FlightOk, IsBillOf, FiguresAddUp, BillConflict;
    Reached(run);
    var w := After(START, run);
    assert IsBillOf(OrderOp(p).payload, w.hist);
    FiguresAlwaysAddUp(w, p);
    if p.clientId !in w.cloud.orders {
      NoBillConflict(w, p);
    }
  }

  // ---------- Kitchen tickets ----------

  /** The tickets of a running order partition its lines, and every live ticket shows its lines' status. */
  lemma TicketsPartitionAndMirror(run: seq<Action>, c: ClientId)
    requires Legal(START, run)
    ensures c in After(START, run).db.orders ==> TicketsOf(After(START, run).db, c)
  {
    hide WorldInv, TicketsOf;
    Reached(run);
    if c in After(START, run).db.orders {
      TicketsAreRight(After(START, run), c);
    }
  }

  /**
   A line is on a ticket exactly when round and station say so; an open order has all those tickets;
   and a live ticket shows the status and ready time of its lines.
   */
  ghost predicate TicketsOf(db: Db, c: ClientId)
    requires c in db.orders
  {
    var o := db.orders[c].order;
    && (forall id, i :: id in db.kots && id.clientId == c && 0 <= i < |o.lines| ==>
          (i in db.kots[id].items <==> id == KotId(c, o.lines[i].kotNo, o.lines[i].what.station)))
    && (o.status == Open ==> forall i :: 0 <= i < |o.lines| ==>
          KotId(c, o.lines[i].kotNo, o.lines[i].what.station) in db.kots)
    && (forall id, i :: id in db.kots && id.clientId == c && i in db.kots[id].items ==>
          i < |o.lines|
          && (db.kots[id].status.Live? ==>
                o.lines[i].prep == db.kots[id].status.prep && o.lines[i].preppedAt == db.kots[id].readyAt))
  }

  lemma TicketsAreRight(w: World, c: ClientId)
    requires WorldInv(w) && c in w.db.orders
    ensures TicketsOf(w.db, c)
  {
    hide CloudOk, FilingOk, OwnSeries, AckOk, WireOk, FlightOk, OutboxOk, IdsOk, KeysOk, FiguresOk, ClosedStable,
      TablesOk, SeriesOk, LineIndices;
    var db := w.db;
    forall id | id in db.kots && id.clientId == c
      ensures forall i :: i in db.kots[id].items <==>
                0 <= i < |db.orders[c].order.lines| && db.orders[c].order.lines[i].kotNo == id.kotNo
                && db.orders[c].order.lines[i].what.station == id.station
    {
      LineIndicesMembers(db.orders[c].order.lines, id.kotNo, id.station);
    }
  }

  // ---------- Orders ----------

  predicate SharesTable(db: Db, c: ClientId, d: ClientId)
    requires c in db.orders && d in db.orders
  {
    db.orders[c].order.tableId.Some? && db.orders[c].order.tableId == db.orders[d].order.tableId
  }

  /**
   At most one running order per table; a settled order's payments are its total, its discount is
   within the subtotal, and the total is subtotal less discount plus tax.  A discount below nothing,
   which only a coupon of negative value can give, counts as nothing.
   */
  lemma OrdersAreSound(run: seq<Action>)
    requires Legal(START, run)
    ensures var w := After(START, run);
            && (forall c, d :: IsOpen(w.db, c) && IsOpen(w.db, d) && SharesTable(w.db, c, d) ==> c == d)
            && (forall c :: c in w.hist.closed && w.hist.closed[c].status == Settled ==> Sound(w.hist.closed[c]))
  {
    hide CloudOk, FilingOk, OwnSeries, AckOk, WireOk, FlightOk, RowsOk, OutboxOk, IdsOk, KeysOk, ClosedStable,
      SeriesOk, TicketsOk, TotalsFor, Paid, Sound;
    Reached(run);
    var w := After(START, run);
    forall c | c in w.hist.closed && w.hist.closed[c].status == Settled
      ensures Sound(w.hist.closed[c])
    {
      SettledIsSound(w.hist.closed[c]);
    }
  }

  ghost predicate Sound(o: Order) {
    var d, t := Discount(o.manualRupees, o.couponPaise), o.totals;
    && Paid(o.payments) == t.total && d <= t.subtotal
    && (d >= 0 ==> t.subtotal >= 0 && t.total == t.subtotal - d + t.tax)
    && (d < 0 ==> t.total == Max(0, t.subtotal) + t.tax)
  }

  lemma SettledIsSound(o: Order)
    requires ClosedFigures(o) && o.status == Settled
    ensures Sound(o)
  {
    hide Subtotal, RawTax, BlendedTax, Discount, Paid;
    PaiseRoundTrip(Discount(o.manualRupees, o.couponPaise));
  }
}
