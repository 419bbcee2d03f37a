/**
 The terminal and the cloud together: what holds in every run, however the link loses, delays or
 repeats messages and whatever commits while a push is in flight.
 */
module EdgeSync {
  import opened Options
  import opened BillNumber
  import opened EdgeModel
  import opened EdgeWorld
  import opened EdgeInvariant
  import opened EdgeLocal
  import opened EdgeDevice
  import opened EdgePayload

  // ---------- The facts ----------

  /** The payload is the bill that was closed. */
  ghost predicate IsBillOf(p: Payload, h: History) {
    p.clientId in h.closed && Strip(p) == Strip(PayloadOf(h.closed[p.clientId]))
  }

  /** The cloud holds bills that were really closed, each inserted once. */
  ghost predicate CloudOk(cloud: Cloud, h: History) {
    && (forall c :: c in cloud.orders ==> cloud.orders[c].clientId == c && IsBillOf(cloud.orders[c], h))
    && (forall c :: c in cloud.orders <==> c in cloud.log)
    && (forall i, j :: 0 <= i < j < |cloud.log| ==> cloud.log[i] != cloud.log[j])
  }

  /** Every numbered bill in the cloud is filed under the number on its receipt. */
  ghost predicate FilingOk(cloud: Cloud, h: History) {
    NumbersFiled(cloud, h) && SequencesFiled(cloud, h) && InvoicesFiled(cloud, h)
  }

  ghost predicate NumbersFiled(cloud: Cloud, h: History) {
    forall c :: c in cloud.orders && c in h.closed && h.closed[c].billNo.Some? ==>
      c in cloud.filed && PrintedNumber(h.closed[c]).Some?
      && cloud.filed[c] == DeviceNumber(PrintedNumber(h.closed[c]).value)
  }

  ghost predicate SequencesFiled(cloud: Cloud, h: History) {
    forall b :: b in cloud.sequences ==>
      cloud.sequences[b] in cloud.orders && cloud.sequences[b] in h.closed
      && h.closed[cloud.sequences[b]].billNo == Some(b)
  }

  ghost predicate InvoicesFiled(cloud: Cloud, h: History) {
    forall n :: n in cloud.invoices ==>
      cloud.invoices[n] in cloud.orders && cloud.invoices[n] in h.closed
      && h.closed[cloud.invoices[n]].billNo.Some? && PrintedNumber(h.closed[cloud.invoices[n]]) == Some(n)
  }

  ghost predicate OwnSeries(db: Db, cloud: Cloud, h: History) {
    && (db.seriesCode.Some? ==> db.seriesCode.value in cloud.series)
    && (forall c :: c in h.closed && h.closed[c].billNo.Some? ==> h.closed[c].billNo.value.series in cloud.series)
  }

  /** The terminal believes the cloud has an order only if it has. */
  ghost predicate AckOk(db: Db, cloud: Cloud, h: History) {
    && (forall c :: c in db.orders && db.orders[c].sync in {Synced, Flagged} ==> c in cloud.orders)
    && (forall c :: c in h.closed && c !in db.orders ==> c in cloud.orders)
    && (forall k :: k in db.outbox && k.OrderKey? && db.outbox[k].status in {Done, Conflicted} ==>
            k.clientId in cloud.orders)
    && (forall k :: k in db.outbox && k.KotKey? ==> k.clientId in cloud.orders)
  }

  ghost predicate WireOk(net: Net, cloud: Cloud, h: History) {
    && net.passed <= net.wire
    && (forall op :: op in net.passed ==> OpAcceptable(op))
    && (forall op, s :: (op, s) in net.replies ==> op in net.passed)
    && (forall op :: op in net.wire && op.OrderOp? ==> IsBillOf(op.payload, h))
    && (forall op :: op in net.wire && op.KotOp? ==> op.clientId in cloud.orders)
    && (forall op, s :: (op, s) in net.replies && op.OrderOp? && s in {Applied, Duplicate, Conflict} ==>
          op.payload.clientId in cloud.orders)
  }

  /** The rows of the flight from index `from` on are still waiting in the outbox. */
  ghost predicate Waits(outbox: map<Key, OutboxRow>, f: Flight, from: nat) {
    && |f.due| == |f.ops| && |f.answers| <= |f.ops|
    && (forall i :: 0 <= i < |f.ops| ==> KeyOf(f.ops[i]) == f.due[i].key)
    && (forall i, j :: 0 <= i < j < |f.due| ==> f.due[i].key != f.due[j].key)
    && (forall i :: from <= i < |f.due| ==>
          f.due[i].key in outbox && outbox[f.due[i].key].id == f.due[i].id && outbox[f.due[i].key].status == Pending)
  }

  ghost predicate FlightOk(db: Db, net: Net) {
    net.flight.Some? ==>
      && db.seriesCode.Some? && Waits(db.outbox, net.flight.value, 0)
      && forall i :: 0 <= i < |net.flight.value.ops| ==> net.flight.value.ops[i] in net.wire
  }

  ghost predicate WorldInv(w: World) {
    && DeviceInv(w.db, w.hist)
    && CloudOk(w.cloud, w.hist) && FilingOk(w.cloud, w.hist) && OwnSeries(w.db, w.cloud, w.hist)
    && AckOk(w.db, w.cloud, w.hist) && WireOk(w.net, w.cloud, w.hist) && FlightOk(w.db, w.net)
  }

  // ---------- Local actions ----------

  /** The history only grows, and never rewrites a closed order. */
  ghost predicate Extends(h: History, g: History) {
    forall c :: c in h.closed ==> c in g.closed && g.closed[c] == h.closed[c]
  }

  lemma CloudSurvives(cloud: Cloud, h: History, g: History)
    requires CloudOk(cloud, h) && FilingOk(cloud, h) && Extends(h, g)
    ensures CloudOk(cloud, g) && FilingOk(cloud, g)
  {
    hide Strip, PayloadOf;
    assert forall c :: c in cloud.orders ==> c in h.closed;
  }

  lemma WireSurvives(net: Net, cloud: Cloud, h: History, g: History)
    requires WireOk(net, cloud, h) && Extends(h, g)
    ensures WireOk(net, cloud, g)
  {
    hide Strip, PayloadOf;
  }

  /** What a local transaction does to sync bookkeeping. */
  ghost predicate SyncEffect(w: World, n: World) {
    && Extends(w.hist, n.hist)
    && (forall c :: c in n.db.orders && n.db.orders[c].sync in {Synced, Flagged} ==>
          c in w.db.orders && w.db.orders[c].sync in {Synced, Flagged})
    && (forall c :: c in n.hist.closed && c !in n.db.orders ==>
          (c in w.hist.closed && c !in w.db.orders) || (c in w.db.orders && w.db.orders[c].sync in {Synced, Flagged}))
    && (forall k :: k in n.db.outbox && k.OrderKey? && n.db.outbox[k].status in {Done, Conflicted} ==>
          k in w.db.outbox && w.db.outbox[k].status in {Done, Conflicted})
    && (forall k :: k in n.db.outbox && k.KotKey? ==>
          k in w.db.outbox || Acknowledged(w.db, k.clientId))
    && (forall k :: k in w.db.outbox && w.db.outbox[k].status == Pending ==>
          k in n.db.outbox && n.db.outbox[k].status == Pending && n.db.outbox[k].id == w.db.outbox[k].id)
    && (forall c :: c in n.hist.closed && n.hist.closed[c].billNo.Some? ==>
          c in w.hist.closed || Some(n.hist.closed[c].billNo.value.series) == w.db.seriesCode)
  }

  lemma WriteSync(w: World, n: World, c: ClientId, o: Order)
    requires DeviceInv(w.db, w.hist) && Writes(w.db, n.db, c, o) && n.hist.closed == w.hist.closed
    ensures SyncEffect(w, n)
  {
    hide IdsOk, KeysOk, ClosedStable, FiguresOk, SeriesOk, TablesOk, TicketsOk;
  }

  lemma CloseSync(w: World, n: World, c: ClientId, o: Order, at: Time)
    requires DeviceInv(w.db, w.hist) && Closes(w.db, n.db, c, o, at) && n.hist.closed == w.hist.closed[c := o]
    requires o.billNo.Some? ==> Some(o.billNo.value.series) == w.db.seriesCode
    ensures SyncEffect(w, n)
  {
    hide DeviceInv, SyncEffect;
    OpenRow(w.db, w.hist, c);
    CloseEffect(w, n, c, o, at);
  }

  lemma CloseEffect(w: World, n: World, c: ClientId, o: Order, at: Time)
    requires Closes(w.db, n.db, c, o, at) && n.hist.closed == w.hist.closed[c := o]
    requires c !in w.hist.closed && OrderKey(c) !in w.db.outbox
    requires o.billNo.Some? ==> Some(o.billNo.value.series) == w.db.seriesCode
    ensures SyncEffect(w, n)
  {}

  lemma MarkSync(w: World, n: World, c: ClientId, o: Order, uuid: string, at: Time)
    requires DeviceInv(w.db, w.hist) && Marks(w.db, n.db, c, o, uuid, at) && n.hist.closed == w.hist.closed
    requires KotKey(c, uuid) !in w.db.outbox
    ensures SyncEffect(w, n)
  {
    hide IdsOk, KeysOk, ClosedStable, FiguresOk, SeriesOk, TablesOk, TicketsOk, SameExceptPrep, KotLines,
      OutboxOk, RowAgrees;
  }

  lemma DropSync(w: World, n: World)
    requires DeviceInv(w.db, w.hist) && Drops(w.db, n.db) && n.hist.closed == w.hist.closed
    ensures SyncEffect(w, n)
  {
    hide IdsOk, KeysOk, ClosedStable, FiguresOk, SeriesOk, TablesOk, TicketsOk;
  }

  lemma SameSync(w: World, n: World)
    requires n.db.orders == w.db.orders && n.db.outbox == w.db.outbox && n.hist.closed == w.hist.closed
    ensures SyncEffect(w, n)
  {}

  lemma LocalSync(w: World, a: Action)
    requires WorldInv(w) && IsLocal(a) && Enabled(w, a)
    ensures SyncEffect(w, LocalNext(w, a))
  {
    hide CloudOk, FilingOk, OwnSeries, AckOk, WireOk, FlightOk, CreateOrder, AddItems, SettleOrder, CancelOrder,
      AdvanceTicket, Purge, Drops, Writes, Closes, Marks, SyncEffect, RowsOk, OutboxOk, IdsOk, KeysOk, ClosedStable,
      FiguresOk, SeriesOk, TablesOk, TicketsOk, QuoteFor, Format, FireOrder, FreshOrder;
    var n, db, h := LocalNext(w, a), w.db, w.hist;
    if Transact(db, a).Err? {
      SameSync(w, n);
    } else {
      match a
      case Create(m, c, at) =>
        Fresh(db, h, c);
        CreateWrites(db, m, c, at);
        WriteSync(w, n, c, FireOrder(FreshOrder(m, c, at), m.lines));
      case Add(c, lines, at) =>
        AddNeedsOpen(db, c, lines, at);
        OpenRow(db, h, c);
        AddWrites(db, c, lines, at);
        WriteSync(w, n, c, FireOrder(db.orders[c].order, lines).(updatedAt := at));
      case Settle(c, s, at, trueNow, fy) =>
        SettleNeedsOpen(db, a);
        OpenRow(db, h, c);
        SettleCloses(db, c, s, at, trueNow, fy);
        CloseSync(w, n, c, n.db.orders[c].order, at);
      case Cancel(c, staffId, reason, at) =>
        CancelNeedsOpen(db, c, staffId, reason, at);
        OpenRow(db, h, c);
        CancelCloses(db, c, staffId, reason, at);
        CloseSync(w, n, c, n.db.orders[c].order, at);
      case Bump(id, to, at, uuid) =>
        BumpNeedsTicket(db, id, to, at, uuid);
        if id.clientId in db.orders {
          RowNamed(db, h, id.clientId);
          FreshKey(db, h, id.clientId, uuid);
          BumpMarks(db, id, to, at, uuid);
          MarkSync(w, n, id.clientId, MarkedOrder(db, id, to, at), uuid, at);
        } else {
          OrphanBump(db, id, to, at, uuid);
          SameSync(w, n);
        }
      case Retain(at, orderDays, outboxDays) =>
        PurgeDrops(db, at, orderDays, outboxDays);
        DropSync(w, n);
      case Reactivate(code) => SameSync(w, n);
      case Refeed(tables, coupons) => SameSync(w, n);
    }
  }

  lemma OpenInWorld(w: World, c: ClientId)
    requires WorldInv(w) && IsOpen(w.db, c)
    ensures w.db.orders[c].order.clientId == c && OrderKey(c) !in w.db.outbox
  {
    hide DeviceInv, CloudOk, FilingOk, OwnSeries, AckOk, WireOk, FlightOk;
    OpenRow(w.db, w.hist, c);
  }

  lemma AddNeedsOpen(db: Db, c: ClientId, lines: seq<NewLine>, at: Time)
    requires AddItems(db, c, lines, at).Ok?
    ensures IsOpen(db, c)
  {
    hide FireOrder, FireTickets;
  }

  lemma CancelNeedsOpen(db: Db, c: ClientId, staffId: Option<string>, reason: Option<string>, at: Time)
    requires CancelOrder(db, c, staffId, reason, at).Ok?
    ensures IsOpen(db, c)
  {}

  lemma OrphanBump(db: Db, id: KotId, to: PrepStatus, at: Time, uuid: string)
    requires AdvanceTicket(db, id, to, at, uuid).Ok? && id.clientId !in db.orders
    ensures AdvanceTicket(db, id, to, at, uuid).db.orders == db.orders
    ensures AdvanceTicket(db, id, to, at, uuid).db.outbox == db.outbox
  {}

  lemma SyncKeepsAck(w: World, n: World)
    requires SyncEffect(w, n) && AckOk(w.db, w.cloud, w.hist) && n.cloud.orders == w.cloud.orders
    ensures AckOk(n.db, n.cloud, n.hist)
  {}

  lemma SyncKeepsFlight(w: World, n: World)
    requires SyncEffect(w, n) && FlightOk(w.db, w.net) && n.net == w.net
    requires w.db.seriesCode.Some? ==> n.db.seriesCode.Some?
    ensures FlightOk(n.db, n.net)
  {}

  lemma LocalSeries(w: World, a: Action)
    requires IsLocal(a) && Enabled(w, a)
    ensures var n := LocalNext(w, a);
            && (n.db.seriesCode == w.db.seriesCode || (a.Reactivate? && n.db.seriesCode == Some(a.code)))
            && w.cloud.series <= n.cloud.series && (a.Reactivate? ==> a.code in n.cloud.series)
            && n.cloud == w.cloud.(series := n.cloud.series) && n.net == w.net
  {
    hide SettleOrder, QuoteFor, Format, FireOrder, FireTickets, CreateError, MarkLines, KotLines, WellFormedSeries,
      WellFormedYear;
    if a.Settle? {
      SettleKeepsSeriesCode(w.db, a.c, a.s, a.at, a.trueNow, a.fy);
    }
  }

  lemma SettleKeepsSeriesCode(db: Db, c: ClientId, s: Settlement, at: Time, trueNow: Time, fy: string)
    ensures Commit(db, SettleOrder(db, c, s, at, trueNow, fy)).seriesCode == db.seriesCode
  {
    hide QuoteFor, Format, SettledOrder, NextBillNo;
  }

  lemma OwnSeriesKept(w: World, n: World)
    requires OwnSeries(w.db, w.cloud, w.hist) && SyncEffect(w, n) && w.cloud.series <= n.cloud.series
    requires n.db.seriesCode == w.db.seriesCode || (n.db.seriesCode.Some? && n.db.seriesCode.value in n.cloud.series)
    ensures OwnSeries(n.db, n.cloud, n.hist)
  {
    forall c | c in n.hist.closed && n.hist.closed[c].billNo.Some?
      ensures n.hist.closed[c].billNo.value.series in n.cloud.series
    {
      assert c in w.hist.closed ==> n.hist.closed[c] == w.hist.closed[c];
    }
  }

  lemma SameCloudFacts(cloud: Cloud, n: Cloud, net: Net, h: History)
    requires n == cloud.(series := n.series) && CloudOk(cloud, h) && FilingOk(cloud, h) && WireOk(net, cloud, h)
    ensures CloudOk(n, h) && FilingOk(n, h) && WireOk(net, n, h)
  {
    hide IsBillOf, PrintedNumber;
  }

  lemma LocalKeepsWorld(w: World, a: Action)
    requires WorldInv(w) && IsLocal(a) && Enabled(w, a)
    ensures WorldInv(LocalNext(w, a))
  {
    hide DeviceInv, CloudOk, FilingOk, OwnSeries, AckOk, WireOk, FlightOk, LocalNext, Enabled;
    var n := LocalNext(w, a);
    LocalKeeps(w, a);
    LocalSync(w, a);
    LocalSeries(w, a);
    CloudSurvives(w.cloud, w.hist, n.hist);
    WireSurvives(w.net, w.cloud, w.hist, n.hist);
    SameCloudFacts(w.cloud, n.cloud, w.net, n.hist);
    OwnSeriesKept(w, n);
    SyncKeepsAck(w, n);
    SyncKeepsFlight(w, n);
  }
}
