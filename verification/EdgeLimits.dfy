/** Offline coupon limits, and the kitchen updates that never reach the cloud. */
module EdgeLimits {
  import opened Numbers
  import opened Options
  import opened Money
  import opened Coupons
  import opened BillNumber
  import opened EdgeModel
  import opened EdgeWorld
  import opened EdgeInvariant
  import opened EdgeLocal
  import opened EdgeDevice
  import opened EdgeSync
  import opened EdgeLink
  import opened EdgeAddress
  import opened EdgeKitchen

  // ---------- Coupon usage limits ----------

  /** Redemptions of a coupon as the terminal counts them. */
  function KnownUses(db: Db, code: string): int
    requires code in db.coupons
  {
    db.coupons[code].usedCount + |Unsynced(db.orders, code)|
  }

  ghost predicate Limited(db: Db, code: string, limit: int) {
    code in db.coupons && db.coupons[code].usageLimit == Some(limit)
  }

  /** A stretch during which the terminal records no response and no catalog change. */
  predicate Offline(a: Action) {
    !a.Receive? && !a.Refeed?
  }

  lemma WritesKeepUses(db: Db, n: Db, c: ClientId, o: Order, code: string)
    requires Writes(db, n, c, o)
    ensures Unsynced(n.orders, code) == Unsynced(db.orders, code)
  {}

  lemma CloseCountsUse(db: Db, n: Db, c: ClientId, o: Order, at: Time, code: string)
    requires Closes(db, n, c, o, at)
    ensures |Unsynced(n.orders, code)|
            == |Unsynced(db.orders, code)| + if o.status == Settled && o.couponCode == Some(code) then 1 else 0
  {
    if o.status == Settled && o.couponCode == Some(code) {
      assert Unsynced(n.orders, code) == Unsynced(db.orders, code) + {c};
    } else {
      assert Unsynced(n.orders, code) == Unsynced(db.orders, code);
    }
  }

  lemma MarksKeepUses(db: Db, n: Db, c: ClientId, o: Order, uuid: string, at: Time, code: string)
    requires Marks(db, n, c, o, uuid, at)
    ensures Unsynced(n.orders, code) == Unsynced(db.orders, code)
  {}

  lemma DropsKeepUses(db: Db, n: Db, code: string)
    requires Drops(db, n)
    ensures Unsynced(n.orders, code) == Unsynced(db.orders, code)
  {}

  /** A limited coupon is redeemed only while the uses the terminal knows of are below its limit. */
  lemma RedeemedOnlyBelowLimit(db: Db, a: Action, code: string, limit: int)
    requires a.Settle? && Transact(db, a).Ok? && a.s.couponCode == Some(code) && Limited(db, code, limit)
    ensures KnownUses(db, code) < limit
  {
    hide Format, WholePaise, TenderOk, TotalsFor, Unsynced, Paid, SaveClosed, DiscountRupees;
  }

  lemma SettleKeepsCoupons(db: Db, c: ClientId, s: Settlement, at: Time, trueNow: Time, fy: string)
    ensures Commit(db, SettleOrder(db, c, s, at, trueNow, fy)).coupons == db.coupons
  {
    hide QuoteFor, Format, SettledOrder, NextBillNo, OrderTotals, WholePaise, TenderOk;
    forall n: Db, o: Order
      ensures SaveClosed(n, o, at).coupons == n.coupons
    {}
    hide SaveClosed;
  }

  lemma BumpKeepsCoupons(db: Db, id: KotId, to: PrepStatus, at: Time, uuid: string)
    ensures Commit(db, AdvanceTicket(db, id, to, at, uuid)).coupons == db.coupons
  {
    hide MarkLines, KotLines;
  }

  lemma CreateKeepsCoupons(db: Db, n: NewOrder, c: ClientId, at: Time)
    ensures Commit(db, CreateOrder(db, n, c, at)).coupons == db.coupons
  {
    hide FireOrder, FireTickets, CreateError, FreshOrder;
  }

  lemma CancelKeepsCoupons(db: Db, c: ClientId, staffId: Option<string>, reason: Option<string>, at: Time)
    ensures Commit(db, CancelOrder(db, c, staffId, reason, at)).coupons == db.coupons
  {
    hide Withdraw, CancelledOrder;
  }

  lemma CouponsOnlyFromFeed(w: World, a: Action)
    requires Enabled(w, a) && Offline(a) && IsLocal(a)
    ensures Next(w, a).db.coupons == w.db.coupons
  {
    hide CreateOrder, SettleOrder, CancelOrder, AdvanceTicket, FireOrder, FireTickets, WellFormedSeries,
      WellFormedYear;
    if a.Create? {
      CreateKeepsCoupons(w.db, a.n, a.c, a.at);
    } else if a.Cancel? {
      CancelKeepsCoupons(w.db, a.c, a.staffId, a.reason, a.at);
    } else if a.Settle? {
      SettleKeepsCoupons(w.db, a.c, a.s, a.at, a.trueNow, a.fy);
    } else if a.Bump? {
      BumpKeepsCoupons(w.db, a.id, a.to, a.at, a.uuid);
    }
  }

  lemma OfflineStepKeepsLimit(w: World, a: Action, code: string, limit: int)
    requires WorldInv(w) && Enabled(w, a) && Offline(a) && Limited(w.db, code, limit)
    ensures Limited(Next(w, a).db, code, limit)
    ensures KnownUses(Next(w, a).db, code) <= Max(limit, KnownUses(w.db, code))
  {
    hide WorldInv, LocalNext, RequestAcceptable, Ops, Ingest, Unsynced;
    if a.Send? {
      SendKeepsWorld(w, a.due, a.at);
    } else if IsLocal(a) {
      LocalStepKeepsLimit(w, a, code, limit);
    }
  }

  lemma LocalStepKeepsLimit(w: World, a: Action, code: string, limit: int)
    requires WorldInv(w) && Enabled(w, a) && Offline(a) && IsLocal(a) && Limited(w.db, code, limit)
    ensures Limited(LocalNext(w, a).db, code, limit)
    ensures KnownUses(LocalNext(w, a).db, code) <= Max(limit, KnownUses(w.db, code))
  {
    hide WorldInv, Transact, Unsynced, Remember;
    CouponsOnlyFromFeed(w, a);
    if Transact(w.db, a).Ok? {
      UsesOnlyBySettling(w, a, code);
      if a.Settle? && a.s.couponCode == Some(code) {
        RedeemedOnlyBelowLimit(w.db, a, code, limit);
      }
    }
  }

  /** Only settling a bill with the coupon adds to the redemptions the terminal counts, and it adds one. */
  lemma UsesOnlyBySettling(w: World, a: Action, code: string)
    requires WorldInv(w) && Enabled(w, a) && Offline(a) && IsLocal(a) && Transact(w.db, a).Ok?
    ensures |Unsynced(Transact(w.db, a).db.orders, code)|
            == |Unsynced(w.db.orders, code)| + if a.Settle? && a.s.couponCode == Some(code) then 1 else 0
  {
    if a.Settle? {
      SettlingCountsUse(w, a, code);
    } else if a.Cancel? {
      CancellingCountsNoUse(w, a, code);
    } else {
      OthersCountNoUse(w, a, code);
    }
  }

  lemma SettlingCountsUse(w: World, a: Action, code: string)
    requires WorldInv(w) && a.Settle? && Transact(w.db, a).Ok?
    ensures |Unsynced(Transact(w.db, a).db.orders, code)|
            == |Unsynced(w.db.orders, code)| + if a.s.couponCode == Some(code) then 1 else 0
  {
    hide WorldInv, SettleOrder, QuoteFor, Format, Closes, Unsynced, SettledOrder, NextBillNo, PrintedNumber;
    var n := Transact(w.db, a).db;
    SettleNeedsOpen(w.db, a);
    OpenInWorld(w, a.c);
    SettleCloses(w.db, a.c, a.s, a.at, a.trueNow, a.fy);
    var o, q := n.orders[a.c].order, QuoteFor(w.db, w.db.orders[a.c].order, a.s, a.trueNow);
    SettledCoupon(w.db.orders[a.c].order, a.s, q, o.billNo, o.receipt.value, a.at);
    CloseCountsUse(w.db, n, a.c, o, a.at, code);
  }

  lemma SettledCoupon(o: Order, s: Settlement, q: Quote, bill: Option<BillNo>, receipt: ReceiptRef, at: Time)
    requires q.Quote?
    ensures SettledOrder(o, s, q, bill, receipt, at).status == Settled
    ensures SettledOrder(o, s, q, bill, receipt, at).couponCode == s.couponCode
  {}

  lemma CancellingCountsNoUse(w: World, a: Action, code: string)
    requires WorldInv(w) && a.Cancel? && Transact(w.db, a).Ok?
    ensures |Unsynced(Transact(w.db, a).db.orders, code)| == |Unsynced(w.db.orders, code)|
  {
    hide CloudOk, FilingOk, OwnSeries, AckOk, WireOk, FlightOk, CancelOrder, RowsOk, OutboxOk, IdsOk, KeysOk,
      ClosedStable, FiguresOk, SeriesOk, TablesOk, TicketsOk, Closes, Unsynced;
    var n := Transact(w.db, a).db;
    CancelNeedsOpen(w.db, a.c, a.staffId, a.reason, a.at);
    OpenRow(w.db, w.hist, a.c);
    CancelCloses(w.db, a.c, a.staffId, a.reason, a.at);
    CloseCountsUse(w.db, n, a.c, n.orders[a.c].order, a.at, code);
  }

  lemma OthersCountNoUse(w: World, a: Action, code: string)
    requires WorldInv(w) && Enabled(w, a) && IsLocal(a) && !a.Settle? && !a.Cancel? && Transact(w.db, a).Ok?
    ensures Unsynced(Transact(w.db, a).db.orders, code) == Unsynced(w.db.orders, code)
  {
    hide CloudOk, FilingOk, OwnSeries, AckOk, WireOk, FlightOk, CreateOrder, AddItems, AdvanceTicket, Purge, RowsOk,
      OutboxOk, IdsOk, KeysOk, ClosedStable, FiguresOk, SeriesOk, TablesOk, TicketsOk, FireOrder, FreshOrder, Writes,
      Marks, Drops, Unsynced;
    var n, db, h := Transact(w.db, a).db, w.db, w.hist;
    match a
    case Create(m, c, at) =>
      Fresh(db, h, c);
      CreateWrites(db, m, c, at);
      WritesKeepUses(db, n, c, FireOrder(FreshOrder(m, c, at), m.lines), code);
    case Add(c, lines, at) =>
      AddNeedsOpen(db, c, lines, at);
      OpenRow(db, h, c);
      AddWrites(db, c, lines, at);
      WritesKeepUses(db, n, c, FireOrder(db.orders[c].order, lines).(updatedAt := at), code);
    case Bump(id, to, at, uuid) =>
      BumpNeedsTicket(db, id, to, at, uuid);
      if id.clientId in db.orders {
        RowNamed(db, h, id.clientId);
        FreshKey(db, h, id.clientId, uuid);
        BumpMarks(db, id, to, at, uuid);
        MarksKeepUses(db, n, id.clientId, MarkedOrder(db, id, to, at), uuid, at, code);
      } else {
        OrphanBump(db, id, to, at, uuid);
      }
    case Retain(at, orderDays, outboxDays) =>
      PurgeDrops(db, at, orderDays, outboxDays);
      DropsKeepUses(db, n, code);
    case Reactivate(_) =>
    case Refeed(_, _) =>
  }

  ghost predicate OfflineRun(run: seq<Action>) {
    forall i :: 0 <= i < |run| ==> Offline(run[i])
  }

  /**
   Through any stretch without a response or a catalog change, the terminal never takes the known
   uses of a coupon past its limit; where they were past it already, it adds none.
   */
  lemma {:induction false} OfflineStretchKeepsLimit(w: World, run: seq<Action>, code: string, limit: int)
    requires WorldInv(w) && Legal(w, run) && OfflineRun(run) && Limited(w.db, code, limit)
    ensures Limited(After(w, run).db, code, limit)
    ensures KnownUses(After(w, run).db, code) <= Max(limit, KnownUses(w.db, code))
    decreases |run|
  {
    hide WorldInv, Next, Enabled, KnownUses;
    if run != [] {
      StepKeepsWorld(w, run[0]);
      OfflineStepKeepsLimit(w, run[0], code, limit);
      assert OfflineRun(run[1..]);
      OfflineStretchKeepsLimit(Next(w, run[0]), run[1..], code, limit);
    }
  }

  /**
   The stretch cannot be longer: an acknowledged redemption leaves the terminal's own count at once,
   and enters the cached count only with the next catalog change.
   */
  lemma AcknowledgedUseIsForgotten(db: Db, e: DueRow, s: OpStatus, now: Time, backoff: nat -> int, code: string)
    requires OutboxOk(db) && s in {Applied, Duplicate, Conflict}
    requires e.key.OrderKey? && e.key.clientId in Unsynced(db.orders, code)
    requires e.key in db.outbox && db.outbox[e.key].id == e.id && db.outbox[e.key].status == Pending
    requires code in db.coupons
    ensures code in ApplyReply(db, e, s, now, backoff).coupons
    ensures KnownUses(ApplyReply(db, e, s, now, backoff), code) == KnownUses(db, code) - 1
  {
    var n, c := ApplyReply(db, e, s, now, backoff), e.key.clientId;
    assert n.coupons == db.coupons && n.orders == db.orders[c := db.orders[c].(sync := FinalSync(s))];
    hide OutboxOk, ApplyReply;
    assert Unsynced(n.orders, code) == Unsynced(db.orders, code) - {c};
  }

  // ---------- Where kitchen agreement fails ----------

  /** The bump changes the status of some line. */
  ghost predicate ChangesALine(db: Db, id: KotId, to: PrepStatus) {
    && id in db.kots && id.clientId in db.orders
    && exists i :: 0 <= i < |db.orders[id.clientId].order.lines| && i in db.kots[id].items
                   && db.orders[id.clientId].order.lines[i].prep != to
  }

  lemma AgreementDeterminesPreps(p: Payload, a: seq<Line>, b: seq<Line>, i: nat)
    requires Agrees(p, a) && Agrees(p, b) && |a| == |b| && i < |a|
    requires forall j :: 0 <= j < |a| ==> a[j].what == b[j].what
    ensures a[i].prep == b[i].prep
  {
    hide LinesOfKind, CountKind;
    UpdateNamesPayloadLine(a, i);
    UpdateNamesPayloadLine(b, i);
    CountCongruent(a[..i], b[..i], a[i].what.kind);
    var kind, k := a[i].what.kind, CountKind(a[..i], a[i].what.kind);
    assert KotLines(a)[i].lineIndex == k && KotLines(b)[i].lineIndex == k;
    assert Preps(LinesOfKind(a, kind))[k] == Preps(LinesOfKind(b, kind))[k];
  }

  lemma {:induction false} CountCongruent(a: seq<Line>, b: seq<Line>, kind: LineKind)
    requires |a| == |b| && forall j :: 0 <= j < |a| ==> a[j].what == b[j].what
    ensures CountKind(a, kind) == CountKind(b, kind)
  {
    if a != [] {
      CountCongruent(a[..|a| - 1], b[..|b| - 1], kind);
    }
  }

  /**
   A bump of an order the cloud already holds reaches the outbox exactly when the outbox still shows
   the order acknowledged.  Otherwise two sides that agreed now differ, nothing is queued, and
   sending the bill again changes nothing, since the cloud answers that it is a duplicate.
   */
  lemma BumpReachesCloudIffAcknowledged(
    w: World, id: KotId, to: PrepStatus, at: Time, uuid: string, p: Payload, env: Env)
    requires WorldInv(w) && Enabled(w, Bump(id, to, at, uuid)) && AdvanceTicket(w.db, id, to, at, uuid).Ok?
    requires ChangesALine(w.db, id, to) && id.clientId in w.cloud.orders && p.clientId == id.clientId
    requires NoPendingKot(w.db.outbox, id.clientId)
    requires Agrees(w.cloud.orders[id.clientId], w.db.orders[id.clientId].order.lines)
    ensures var n := Next(w, Bump(id, to, at, uuid));
            && n.cloud == w.cloud && id.clientId in n.db.orders
            && !Agrees(n.cloud.orders[id.clientId], n.db.orders[id.clientId].order.lines)
            && (PendingKot(n.db.outbox, KotKey(id.clientId, uuid)) <==> Acknowledged(w.db, id.clientId))
            && (!Acknowledged(w.db, id.clientId) ==> NoPendingKot(n.db.outbox, id.clientId))
            && Ingest(n.cloud, OrderOp(p), env) == Ingested(n.cloud, Duplicate)
  {
    hide CloudOk, FilingOk, OwnSeries, AckOk, WireOk, FlightOk, RowsOk, OutboxOk, IdsOk, KeysOk, ClosedStable,
      FiguresOk, SeriesOk, TablesOk, TicketsOk, AdvanceTicket, Agrees, KotLines, FiguresAddUp;
    var c, db := id.clientId, w.db;
    BumpNeedsTicket(db, id, to, at, uuid);
    RowNamed(db, w.hist, c);
    FreshKey(db, w.hist, c, uuid);
    BumpMarks(db, id, to, at, uuid);
    var o, o' := db.orders[c].order, MarkedOrder(db, id, to, at);
    var i :| 0 <= i < |o.lines| && i in db.kots[id].items && o.lines[i].prep != to;
    if Agrees(w.cloud.orders[c], o'.lines) {
      AgreementDeterminesPreps(w.cloud.orders[c], o.lines, o'.lines, i);
    }
  }
}
