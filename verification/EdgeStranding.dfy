/**
 One bill out of shape strands every bill that is closed after it.  Its row is never answered, so it is
 always due; and being older, it is in every batch that holds a later row, which the cloud then turns
 away as a whole.
 */
module EdgeStranding {
  import opened Options
  import opened EdgeModel
  import opened EdgeWorld
  import opened EdgeInvariant
  import opened EdgeLocal
  import opened EdgeDevice
  import opened EdgePayload
  import opened EdgeSync
  import opened EdgeLink
  import opened EdgeTheorems
  import opened EdgeProgress

  // ---------- What a local action does to the rows ----------

  /** Every row is as it was, or new, pending, due at once and younger than all others. */
  ghost predicate RowsGrow(db: Db, n: Db, at: Time) {
    forall k :: k in n.outbox ==>
      if k in db.outbox then n.outbox[k] == db.outbox[k]
      else n.outbox[k].id == db.nextOutboxId && n.outbox[k].status == Pending && n.outbox[k].nextAttemptAt == at
  }

  lemma ClosesGrowsRows(db: Db, n: Db, c: ClientId, o: Order, at: Time)
    requires Closes(db, n, c, o, at) && OrderKey(c) !in db.outbox
    ensures RowsGrow(db, n, at)
  {}

  lemma ClosingGrowsRows(w: World, a: Action)
    requires WorldInv(w) && (a.Settle? || a.Cancel?) && Transact(w.db, a).Ok?
    ensures RowsGrow(w.db, Transact(w.db, a).db, TimeOf(a, w.clock))
  {
    hide CloudOk, FilingOk, OwnSeries, AckOk, WireOk, FlightOk, SettleOrder, CancelOrder, RowsOk, OutboxOk, IdsOk,
      KeysOk, ClosedStable, FiguresOk, SeriesOk, TablesOk, TicketsOk, QuoteFor, Closes, RowsGrow, DeviceInv;
    var n := Transact(w.db, a).db;
    if a.Settle? {
      SettleNeedsOpen(w.db, a);
      OpenRow(w.db, w.hist, a.c);
      SettleCloses(w.db, a.c, a.s, a.at, a.trueNow, a.fy);
    } else {
      CancelNeedsOpen(w.db, a.c, a.staffId, a.reason, a.at);
      OpenRow(w.db, w.hist, a.c);
      CancelCloses(w.db, a.c, a.staffId, a.reason, a.at);
    }
    ClosesGrowsRows(w.db, n, a.c, n.orders[a.c].order, a.at);
  }

  lemma OthersGrowRows(w: World, a: Action)
    requires WorldInv(w) && IsLocal(a) && Enabled(w, a) && !a.Settle? && !a.Cancel? && Transact(w.db, a).Ok?
    ensures RowsGrow(w.db, Transact(w.db, a).db, TimeOf(a, w.clock))
  {
    hide CloudOk, FilingOk, OwnSeries, AckOk, WireOk, FlightOk, CreateOrder, AddItems, AdvanceTicket, Purge, RowsOk,
      OutboxOk, IdsOk, KeysOk, ClosedStable, FiguresOk, SeriesOk, TablesOk, TicketsOk, FireOrder, FreshOrder, KotLines,
      SameExceptPrep;
    var db, h := w.db, w.hist;
    match a
    case Create(m, d, at) =>
      Fresh(db, h, d);
      CreateWrites(db, m, d, at);
    case Add(d, lines, at) =>
      AddNeedsOpen(db, d, lines, at);
      OpenRow(db, h, d);
      AddWrites(db, d, lines, at);
    case Bump(id, to, at, uuid) =>
      BumpNeedsTicket(db, id, to, at, uuid);
      if id.clientId in db.orders {
        RowNamed(db, h, id.clientId);
        FreshKey(db, h, id.clientId, uuid);
        BumpMarks(db, id, to, at, uuid);
      } else {
        OrphanBump(db, id, to, at, uuid);
      }
    case Retain(at, orderDays, outboxDays) => PurgeDrops(db, at, orderDays, outboxDays);
    case Reactivate(code) =>
    case Refeed(tables, coupons) =>
  }

  lemma LocalGrowsRows(w: World, a: Action)
    requires WorldInv(w) && IsLocal(a) && Enabled(w, a)
    ensures RowsGrow(w.db, LocalNext(w, a).db, TimeOf(a, w.clock))
  {
    hide WorldInv, Transact;
    if Transact(w.db, a).Ok? {
      if a.Settle? || a.Cancel? {
        ClosingGrowsRows(w, a);
      } else {
        OthersGrowRows(w, a);
      }
    }
  }

  // ---------- The bill that blocks ----------

  predicate Younger(outbox: map<Key, OutboxRow>, k: Key, c: ClientId)
    requires OrderKey(c) in outbox
  {
    k in outbox && outbox[k].id > outbox[OrderKey(c)].id
  }

  ghost predicate Carries(f: Flight, k: Key) {
    exists i :: 0 <= i < |f.due| && f.due[i].key == k
  }

  /** The younger rows are all pending, and none of their bills was ever let in. */
  ghost predicate YoungerWait(w: World, c: ClientId)
    requires OrderKey(c) in w.db.outbox
  {
    && (forall k :: Younger(w.db.outbox, k, c) ==> w.db.outbox[k].status == Pending)
    && (forall op :: op in w.net.passed && op.OrderOp? ==> !Younger(w.db.outbox, KeyOf(op), c))
    && (forall d :: Younger(w.db.outbox, OrderKey(d), c) ==> d !in w.cloud.orders)
  }

  /** A push that carries a younger row carries the bill that blocks. */
  ghost predicate FlightBlocked(w: World, c: ClientId)
    requires OrderKey(c) in w.db.outbox
  {
    w.net.flight.Some? ==>
      forall k :: Younger(w.db.outbox, k, c) && Carries(w.net.flight.value, k) ==>
        Carries(w.net.flight.value, OrderKey(c))
  }

  /** The orders closed since then have their rows, and the rows queued since then are younger. */
  ghost predicate LaterAreYounger(w: World, c: ClientId, since: World)
    requires OrderKey(c) in w.db.outbox
  {
    && (forall d :: d in w.hist.closed && d !in since.hist.closed ==> Younger(w.db.outbox, OrderKey(d), c))
    && (forall k :: k in w.db.outbox && k !in since.db.outbox ==> Younger(w.db.outbox, k, c))
  }

  ghost predicate Blocks(w: World, c: ClientId, since: World) {
    && Stuck(w, c) && w.db.outbox[OrderKey(c)].nextAttemptAt <= w.clock
    && YoungerWait(w, c) && FlightBlocked(w, c) && LaterAreYounger(w, c, since)
  }

  // ---------- Local actions ----------

  /** What a local action keeps of the row that blocks, and which rows it adds. */
  lemma LocalFacts(w: World, a: Action, c: ClientId)
    requires WorldInv(w) && Stuck(w, c) && IsLocal(a) && Enabled(w, a)
    ensures var n := Next(w, a);
            && n.cloud.orders == w.cloud.orders && n.net == w.net && RowsGrow(w.db, n.db, TimeOf(a, w.clock))
            && OrderKey(c) in n.db.outbox && n.db.outbox[OrderKey(c)] == w.db.outbox[OrderKey(c)]
            && w.db.outbox[OrderKey(c)].id < w.db.nextOutboxId
  {
    hide CloudOk, FilingOk, OwnSeries, AckOk, WireOk, FlightOk, RowsOk, OutboxOk, KeysOk, ClosedStable, FiguresOk,
      SeriesOk, TablesOk, TicketsOk, LocalNext, Acceptable, PayloadOf;
    LocalGrowsRows(w, a);
    LocalSync(w, a);
    LocalSeries(w, a);
  }

  /** A row that a local action adds under an order's key is the row of the order it closes. */
  lemma NewRowIsNewlyClosed(w: World, a: Action, d: ClientId)
    requires WorldInv(w) && IsLocal(a) && Enabled(w, a)
    requires OrderKey(d) in Next(w, a).db.outbox && OrderKey(d) !in w.db.outbox
    ensures d !in w.hist.closed && d !in w.cloud.orders
    ensures forall op :: op in w.net.passed && op.OrderOp? ==> op.payload.clientId != d
  {
    LocalQueueing(w, a, d);
    hide DeviceInv, FilingOk, OwnSeries, AckOk, FlightOk, Next, Strip, PayloadOf, OpAcceptable;
    assert forall op :: op in w.net.passed && op.OrderOp? ==> IsBillOf(op.payload, w.hist);
  }

  lemma LocalKeepsBlock(w: World, a: Action, c: ClientId, since: World)
    requires WorldInv(w) && Blocks(w, c, since) && IsLocal(a) && Enabled(w, a) && TimeOf(a, w.clock) >= w.clock
    ensures Blocks(Next(w, a), c, since)
  {
    hide WorldInv, Stuck, Next, Enabled;
    var n := Next(w, a);
    StuckStays(w, a, c);
    StuckIsStuck(w, c);
    StuckIsStuck(n, c);
    LocalFacts(w, a, c);
    assert n.clock >= w.clock by { ClockMoves(w, a); }
    forall k | Younger(n.db.outbox, k, c)
      ensures n.db.outbox[k].status == Pending
      ensures k in w.db.outbox ==> Younger(w.db.outbox, k, c)
    {}
    forall d | Younger(n.db.outbox, OrderKey(d), c)
      ensures d !in n.cloud.orders
      ensures forall op :: op in n.net.passed && op.OrderOp? ==> KeyOf(op) != OrderKey(d)
    {
      if OrderKey(d) !in w.db.outbox {
        NewRowIsNewlyClosed(w, a, d);
      }
    }
    forall d | d in n.hist.closed && d !in since.hist.closed
      ensures Younger(n.db.outbox, OrderKey(d), c)
    {
      LaterClosed(w, a, d);
    }
    if w.net.flight.Some? {
      forall k | Younger(n.db.outbox, k, c) && Carries(w.net.flight.value, k)
        ensures Carries(w.net.flight.value, OrderKey(c))
      {
        CarriedIsOld(w, k);
      }
    }
  }

  lemma StuckIsStuck(w: World, c: ClientId)
    requires Stuck(w, c)
    ensures OrderKey(c) in w.db.outbox && w.db.outbox[OrderKey(c)].status == Pending
  {}

  lemma ClockMoves(w: World, a: Action)
    requires Enabled(w, a)
    ensures Next(w, a).clock == TimeOf(a, w.clock)
  {
    hide LocalNext, SendNext, HandleNext, ReceiveNext;
  }

  lemma CarriedIsOld(w: World, k: Key)
    requires WorldInv(w) && w.net.flight.Some? && Carries(w.net.flight.value, k)
    ensures k in w.db.outbox
  {
    hide DeviceInv, CloudOk, FilingOk, OwnSeries, AckOk, WireOk;
  }

  /** An order that is closed now was closed before, with its row still there if it is pending, or has a new row. */
  lemma LaterClosed(w: World, a: Action, d: ClientId)
    requires WorldInv(w) && IsLocal(a) && Enabled(w, a) && d in Next(w, a).hist.closed
    ensures var n := Next(w, a);
            if d in w.hist.closed then
              OrderKey(d) in w.db.outbox && w.db.outbox[OrderKey(d)].status == Pending ==>
                OrderKey(d) in n.db.outbox && n.db.outbox[OrderKey(d)].id == w.db.outbox[OrderKey(d)].id
            else OrderKey(d) in n.db.outbox && OrderKey(d) !in w.db.outbox
  {
    hide Next;
    LocalQueueing(w, a, d);
    PendingRowStays(w, a, OrderKey(d));
  }

  lemma PendingRowStays(w: World, a: Action, k: Key)
    requires WorldInv(w) && IsLocal(a) && Enabled(w, a)
    ensures k in w.db.outbox && w.db.outbox[k].status == Pending ==>
              k in Next(w, a).db.outbox && Next(w, a).db.outbox[k].id == w.db.outbox[k].id
  {
    hide WorldInv, LocalNext;
    LocalSync(w, a);
  }

  // ---------- The link ----------

  /** A batch read no earlier than the blocked row is due holds it together with any younger row. */
  lemma BatchHoldsBlocker(w: World, due: seq<Key>, at: Time, c: ClientId, k: Key)
    requires IsBatch(w.db.outbox, at, due) && OrderKey(c) in w.db.outbox && Younger(w.db.outbox, k, c) && k in due
    requires w.db.outbox[OrderKey(c)].status == Pending && w.db.outbox[OrderKey(c)].nextAttemptAt <= at
    ensures OrderKey(c) in due
  {
    assert IsDueRow(w.db.outbox[OrderKey(c)], at);
  }

  lemma OutOfShapeTurnsAway(ops: seq<Op>, i: nat)
    requires i < |ops| && !OpAcceptable(ops[i])
    ensures !RequestAcceptable(ops)
  {}

  lemma BlockerIsOutOfShape(w: World, c: ClientId)
    requires WorldInv(w) && Stuck(w, c)
    ensures OpFor(w.db, OrderKey(c)).Some? && !OpAcceptable(OpFor(w.db, OrderKey(c)).value)
  {
    hide WorldInv, Stuck, Acceptable, PayloadOf;
    StuckIsStuck(w, c);
    OutOfShapeIsStuck(w, c);
    BillKeepsShape(w, c);
  }

  lemma BillKeepsShape(w: World, c: ClientId)
    requires WorldInv(w) && Stuck(w, c) && c in w.db.orders
    ensures !Acceptable(PayloadOf(w.db.orders[c].order))
  {
    hide CloudOk, FilingOk, OwnSeries, AckOk, WireOk, FlightOk, IdsOk, KeysOk, FiguresOk, SeriesOk, TablesOk, TicketsOk,
      RowsOk, OutboxOk, Acceptable, PayloadOf, Strip, SameExceptPrep;
    PayloadIsStable(w.db.orders[c].order, w.hist.closed[c]);
    ShapeOfBill(PayloadOf(w.db.orders[c].order), PayloadOf(w.hist.closed[c]));
  }

  lemma SendKeepsBlock(w: World, due: seq<Key>, at: Time, c: ClientId, since: World)
    requires WorldInv(w) && Blocks(w, c, since) && Enabled(w, Send(due, at)) && at >= w.clock
    ensures Blocks(Next(w, Send(due, at)), c, since)
  {
    hide WorldInv, Ops, RejectMissing, RequestAcceptable, Acceptable, PayloadOf, IsBatch, OpFor,
      OpAcceptable;
    var n := Next(w, Send(due, at));
    SendKeepsWorld(w, due, at);
    BatchIsQueued(w.db.outbox, due, at);
    forall k | Younger(w.db.outbox, k, c) && k in due
      ensures OrderKey(c) in due
    {
      BatchHoldsBlocker(w, due, at, c, k);
    }
    if OrderKey(c) in due {
      var i :| 0 <= i < |due| && due[i] == OrderKey(c);
      BlockerIsOutOfShape(w, c);
      OutOfShapeTurnsAway(Ops(w.db, due), i);
    }
    forall op | op in Ops(w.db, due)
      ensures KeyOf(op) in due
    {
      OpIsOfRow(w, due, at, op);
    }
    if n.net.flight.Some? {
      forall k
        ensures Carries(n.net.flight.value, k) <==> k in due
      {
        FlightCarries(w.db.outbox, due, n.net.flight.value, k);
      }
    }
  }

  lemma BatchIsQueued(outbox: map<Key, OutboxRow>, due: seq<Key>, at: Time)
    requires IsBatch(outbox, at, due)
    ensures forall i :: 0 <= i < |due| ==> due[i] in outbox
  {}

  lemma FlightCarries(outbox: map<Key, OutboxRow>, due: seq<Key>, f: Flight, k: Key)
    requires (forall i :: 0 <= i < |due| ==> due[i] in outbox) && f.due == RowsRead(outbox, due)
    ensures Carries(f, k) <==> k in due
  {
    if k in due {
      var i :| 0 <= i < |due| && due[i] == k;
      assert f.due[i].key == k;
    }
  }

  lemma OpIsOfRow(w: World, due: seq<Key>, at: Time, op: Op)
    requires WorldInv(w) && Enabled(w, Send(due, at)) && op in Ops(w.db, due)
    ensures KeyOf(op) in due
  {
    hide CloudOk, FilingOk, OwnSeries, WireOk, FlightOk, IdsOk, KeysOk, FiguresOk, TablesOk, SeriesOk, TicketsOk,
      RowsOk, OutboxOk, ClosedStable, AckOk, Ops, OpFor, PayloadOf, IsBillOf;
    SendKeepsWorld(w, due, at);
    var i :| 0 <= i < |Ops(w.db, due)| && Ops(w.db, due)[i] == op;
    OpFacts(w.db, w.cloud, w.hist, due[i]);
  }

  lemma HandleKeepsBlock(w: World, op: Op, env: Env, c: ClientId, since: World)
    requires WorldInv(w) && Blocks(w, c, since) && Enabled(w, Handle(op, env))
    ensures Blocks(Next(w, Handle(op, env)), c, since)
  {
    hide WorldInv, Acceptable, PayloadOf, FiguresAddUp, BillConflict, InsertOrder, ApplyKot;
    var n := Next(w, Handle(op, env));
    if op.OrderOp? {
      InsertGrows(w.cloud, op.payload);
    }
    if w.net.flight.Some? {
      assert forall k :: Carries(n.net.flight.value, k) <==> Carries(w.net.flight.value, k);
    }
  }

  /** A response is recorded only for a flight without the blocked bill, and so without a younger row. */
  lemma ReceiveKeepsBlock(w: World, a: Action, c: ClientId, since: World)
    requires WorldInv(w) && Blocks(w, c, since) && a.Receive? && Enabled(w, a) && a.at >= w.clock
    ensures Blocks(Next(w, a), c, since)
  {
    hide WorldInv, Acceptable, PayloadOf, ApplyReplies;
    var n, f := Next(w, a), w.net.flight.value;
    StuckStays(w, a, c);
    StuckIsNotAnswered(w, c, f, a.statuses);
    var rs := Replies(f.ops, a.statuses);
    RepliesKeepRows(w.db, f.due, rs, a.at, a.backoff);
    forall k
      ensures k in n.db.outbox <==> k in w.db.outbox
      ensures Younger(n.db.outbox, k, c) <==> Younger(w.db.outbox, k, c)
      ensures Younger(w.db.outbox, k, c) ==> n.db.outbox[k] == w.db.outbox[k]
    {
      if Younger(w.db.outbox, k, c) {
        assert !Carries(f, k);
        OtherRowsStay(w.db, f.due, rs, a.at, a.backoff, k);
      }
    }
    OtherRowsStay(w.db, f.due, rs, a.at, a.backoff, OrderKey(c));
  }

  lemma LosingKeepsBlock(w: World, c: ClientId, since: World)
    requires Blocks(w, c, since)
    ensures Blocks(Next(w, Lose), c, since)
  {
    hide Acceptable, PayloadOf;
  }

  // ---------- Runs ----------

  lemma StepKeepsBlock(w: World, a: Action, c: ClientId, since: World)
    requires WorldInv(w) && Blocks(w, c, since) && Enabled(w, a) && TimeOf(a, w.clock) >= w.clock
    ensures Blocks(Next(w, a), c, since)
  {
    hide WorldInv, Blocks, SendNext, HandleNext, ReceiveNext, LocalNext;
    if IsLocal(a) {
      LocalKeepsBlock(w, a, c, since);
    } else {
      match a
      case Send(due, at) => SendKeepsBlock(w, due, at, c, since);
      case Handle(op, env) => HandleKeepsBlock(w, op, env, c, since);
      case Receive(statuses, at, backoff) => ReceiveKeepsBlock(w, a, c, since);
      case Lose => LosingKeepsBlock(w, c, since);
    }
  }

  /** The device clock does not go back. */
  ghost predicate Forward(w: World, run: seq<Action>)
    requires Legal(w, run)
    decreases |run|
  {
    run == [] || (TimeOf(run[0], w.clock) >= w.clock && Forward(Next(w, run[0]), run[1..]))
  }

  lemma {:induction false} RunsKeepBlock(w: World, run: seq<Action>, c: ClientId, since: World)
    requires WorldInv(w) && Blocks(w, c, since) && Legal(w, run) && Forward(w, run)
    ensures Blocks(After(w, run), c, since)
    decreases |run|
  {
    hide WorldInv, Blocks, Next, Enabled;
    if run != [] {
      StepKeepsBlock(w, run[0], c, since);
      StepKeepsWorld(w, run[0]);
      RunsKeepBlock(Next(w, run[0]), run[1..], c, since);
    }
  }

  /** The action closes the order, and the bill is out of shape. */
  ghost predicate ClosesOutOfShape(w: World, a: Action, c: ClientId)
    requires Enabled(w, a)
  {
    c in Next(w, a).hist.closed && c !in w.hist.closed && !Acceptable(PayloadOf(Next(w, a).hist.closed[c]))
  }

  lemma ClosingBlocks(w: World, a: Action, c: ClientId)
    requires WorldInv(w) && Enabled(w, a) && ClosesOutOfShape(w, a, c)
    ensures Blocks(Next(w, a), c, Next(w, a))
  {
    hide WorldInv, Acceptable, PayloadOf, LocalNext, SendNext, HandleNext, ReceiveNext;
    var n := Next(w, a);
    assert IsLocal(a) by { OnlyLocalCloses(w, a); }
    LocalQueueing(w, a, c);
    LocalGrowsRows(w, a);
    RowIdsAreOld(w);
    LocalNetIsSame(w, a);
    if w.net.flight.Some? {
      forall k | Carries(w.net.flight.value, k)
        ensures k in w.db.outbox
      {
        CarriedIsOld(w, k);
      }
    }
  }

  lemma OnlyLocalCloses(w: World, a: Action)
    requires Enabled(w, a) && Next(w, a).hist != w.hist
    ensures IsLocal(a)
  {
    hide LocalNext, Ops, Ingest, ApplyReplies, RejectMissing, RequestAcceptable;
  }

  lemma RowIdsAreOld(w: World)
    requires WorldInv(w)
    ensures forall k :: k in w.db.outbox ==> w.db.outbox[k].id < w.db.nextOutboxId
  {
    hide CloudOk, FilingOk, OwnSeries, AckOk, WireOk, FlightOk, RowsOk, OutboxOk, KeysOk, ClosedStable, FiguresOk,
      SeriesOk, TablesOk, TicketsOk;
  }

  lemma LocalNetIsSame(w: World, a: Action)
    requires IsLocal(a) && Enabled(w, a)
    ensures Next(w, a).net == w.net && Next(w, a).cloud.orders == w.cloud.orders
  {
    hide LocalNext;
    LocalSeries(w, a);
  }

  /**
   Once a bill out of shape is closed, every order closed after it waits in the outbox and is not in the
   cloud, and every kitchen update made after it waits too, in every continuation in which the device
   clock does not go back.
   */
  lemma OneBillStrandsTheRest(w: World, a: Action, run: seq<Action>, c: ClientId)
    requires WorldInv(w) && Enabled(w, a) && ClosesOutOfShape(w, a, c)
    requires Legal(Next(w, a), run) && Forward(Next(w, a), run)
    ensures var n := After(Next(w, a), run);
            forall d :: d in n.hist.closed && d !in Next(w, a).hist.closed ==>
              OrderKey(d) in n.db.outbox && n.db.outbox[OrderKey(d)].status == Pending && d !in n.cloud.orders
    ensures var n := After(Next(w, a), run);
            forall k :: k in n.db.outbox && k !in Next(w, a).db.outbox ==> n.db.outbox[k].status == Pending
  {
    hide WorldInv, Next, Enabled, ClosesOutOfShape, Stuck, Legal, After, Forward;
    var m := Next(w, a);
    ClosingBlocks(w, a, c);
    StepKeepsWorld(w, a);
    RunsKeepBlock(m, run, c, m);
    var n := After(m, run);
    forall d | d in n.hist.closed && d !in m.hist.closed
      ensures OrderKey(d) in n.db.outbox && n.db.outbox[OrderKey(d)].status == Pending && d !in n.cloud.orders
    {
      StuckIsStuck(n, c);
      assert Younger(n.db.outbox, OrderKey(d), c);
    }
  }
}
