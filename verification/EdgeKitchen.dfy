/**
 When the outbox drains, the cloud shows the kitchen progress the terminal has.

 This needs more of the environment than the safety of bills does, and `Calm` says what: device
 time does not go back; when the cloud takes a bill, its ticket was not bumped since the bill was
 read; an order the cloud holds is bumped only while the outbox shows it acknowledged; and a kitchen
 update is handled in the push that carries it, in its turn, and not answered `retry`.  Bills may be
 lost, delayed and repeated at will.
 */
module EdgeKitchen {
  import opened Options
  import opened BillNumber
  import opened EdgeModel
  import opened EdgeWorld
  import opened EdgeInvariant
  import opened EdgeLocal
  import opened EdgeDevice
  import opened EdgePayload
  import opened EdgeSync
  import opened EdgeLink
  import opened EdgeAddress

  /** The cloud inserts the bill now. */
  predicate Takes(cloud: Cloud, p: Payload, env: Env) {
    p.clientId !in cloud.orders && Ingest(cloud, OrderOp(p), env).status in {Applied, Conflict}
  }

  /** The operation is the next of the push under way. */
  predicate NextInFlight(net: Net, op: Op) {
    && net.flight.Some? && |net.flight.value.answers| < |net.flight.value.ops|
    && net.flight.value.ops[|net.flight.value.answers|] == op
  }

  ghost predicate Calm(w: World, a: Action) {
    && TimeOf(a, w.clock) >= w.clock
    && match a
       case Bump(id, _, _, _) =>
         id.clientId in w.db.orders && id.clientId in w.cloud.orders ==> Acknowledged(w.db, id.clientId)
       case Handle(OrderOp(p), env) =>
         Takes(w.cloud, p, env) && p.clientId in w.db.orders ==> Agrees(p, w.db.orders[p.clientId].order.lines)
       case Handle(KotOp(c, uuid, lines), env) => NextInFlight(w.net, KotOp(c, uuid, lines)) && !env.transient
       case Receive(statuses, _, _) => w.net.flight.Some? && statuses == w.net.flight.value.answers
       case _ => true
  }

  // ---------- The facts ----------

  predicate PendingKot(outbox: map<Key, OutboxRow>, k: Key) {
    k in outbox && k.KotKey? && outbox[k].status == Pending
  }

  ghost predicate NoPendingKot(outbox: map<Key, OutboxRow>, c: ClientId) {
    forall k :: PendingKot(outbox, k) ==> k.clientId != c
  }

  ghost predicate Newest(outbox: map<Key, OutboxRow>, k: Key) {
    && PendingKot(outbox, k)
    && forall l :: PendingKot(outbox, l) && l.clientId == k.clientId ==> outbox[l].id <= outbox[k].id
  }

  ghost predicate UpdatesOk(db: Db, clock: Time) {
    && (forall k :: PendingKot(db.outbox, k) ==> db.outbox[k].nextAttemptAt <= clock && Addressed(db.outbox[k].lines))
    && (forall k :: Newest(db.outbox, k) && k.clientId in db.orders ==>
          db.outbox[k].lines == KotLines(db.orders[k.clientId].order.lines))
  }

  ghost predicate CloudAgrees(db: Db, cloud: Cloud) {
    forall c :: c in db.orders && c in cloud.orders && NoPendingKot(db.outbox, c) ==>
      Agrees(cloud.orders[c], db.orders[c].order.lines)
  }

  /** The flight carries whole runs of kitchen updates, in creation order. */
  ghost predicate FlightCurrent(db: Db, f: Flight) {
    && |f.due| == |f.ops|
    && (forall i, j :: 0 <= i < j < |f.due| ==> f.due[i].id < f.due[j].id)
    && (forall i :: 0 <= i < |f.ops| && f.ops[i].KotOp? ==>
          f.due[i].key in db.outbox && f.ops[i].lines == db.outbox[f.due[i].key].lines)
    && (forall i, l :: 0 <= i < |f.due| && f.due[i].key.KotKey? && PendingKot(db.outbox, l)
                       && l.clientId == f.due[i].key.clientId && db.outbox[l].id < f.due[i].id ==>
          exists j :: 0 <= j < |f.due| && f.due[j].key == l)
  }

  /** What the answers collected so far say about the cloud. */
  ghost predicate AnswersTrue(cloud: Cloud, f: Flight) {
    && |f.answers| <= |f.ops|
    && (forall i :: 0 <= i < |f.answers| && f.ops[i].KotOp? ==> f.answers[i] == Applied)
    && (forall i :: LastUpdate(f, i) ==>
            f.ops[i].clientId in cloud.orders && Shows(cloud.orders[f.ops[i].clientId], f.ops[i].lines))
  }

  /** Operation `i` is the latest answered kitchen update of its order. */
  ghost predicate LastUpdate(f: Flight, i: int) {
    && 0 <= i < |f.answers| <= |f.ops| && f.ops[i].KotOp?
    && forall j :: i < j < |f.answers| && f.ops[j].KotOp? ==> f.ops[j].clientId != f.ops[i].clientId
  }

  ghost predicate KitchenInv(w: World) {
    && UpdatesOk(w.db, w.clock) && CloudAgrees(w.db, w.cloud)
    && (w.net.flight.Some? ==> FlightCurrent(w.db, w.net.flight.value) && AnswersTrue(w.cloud, w.net.flight.value))
  }

  // ---------- Consequences of the bill invariant ----------

  /** An order the cloud has not got has no kitchen update in the outbox, and is not open once it has. */
  lemma UnknownOrderHasNoUpdates(w: World, c: ClientId)
    requires WorldInv(w)
    ensures c !in w.cloud.orders ==> forall k :: k in w.db.outbox && k.KotKey? ==> k.clientId != c
    ensures IsOpen(w.db, c) ==> c !in w.cloud.orders
  {
    hide FilingOk, OwnSeries, WireOk, FlightOk, OutboxOk, IdsOk, KeysOk, FiguresOk, ClosedStable, TablesOk, SeriesOk,
      TicketsOk, Strip, PayloadOf;
  }

  // ---------- Local actions that leave kitchen progress alone ----------

  /** The transaction changes neither lines nor kitchen updates of any order the cloud knows. */
  ghost predicate KitchenQuiet(w: World, n: World) {
    && n.cloud.orders == w.cloud.orders && n.net == w.net && n.clock >= w.clock
    && (forall c :: c in n.db.orders && c in w.cloud.orders ==>
          c in w.db.orders && n.db.orders[c].order.lines == w.db.orders[c].order.lines)
    && (forall k :: k in n.db.outbox && k.KotKey? ==> k in w.db.outbox && n.db.outbox[k] == w.db.outbox[k])
    && (forall k :: PendingKot(w.db.outbox, k) ==> PendingKot(n.db.outbox, k))
  }

  lemma QuietKeepsUpdates(w: World, n: World)
    requires KitchenQuiet(w, n) && UpdatesOk(w.db, w.clock)
    requires forall k :: k in w.db.outbox && k.KotKey? ==> k.clientId in w.cloud.orders
    ensures UpdatesOk(n.db, n.clock)
  {
    hide KotLines, Addressed;
    forall k | Newest(n.db.outbox, k)
      ensures Newest(w.db.outbox, k)
    {}
  }

  lemma QuietKeepsCloud(w: World, n: World)
    requires KitchenQuiet(w, n) && CloudAgrees(w.db, w.cloud)
    ensures CloudAgrees(n.db, n.cloud)
  {
    hide Agrees;
    forall c | NoPendingKot(n.db.outbox, c)
      ensures NoPendingKot(w.db.outbox, c)
    {}
  }

  lemma QuietKeepsFlight(w: World, n: World)
    requires KitchenQuiet(w, n) && w.net.flight.Some? && FlightCurrent(w.db, w.net.flight.value)
    requires FlightOk(w.db, w.net)
    ensures FlightCurrent(n.db, n.net.flight.value)
  {
    var f := w.net.flight.value;
    forall i | 0 <= i < |f.ops| && f.ops[i].KotOp?
      ensures f.due[i].key in n.db.outbox && f.ops[i].lines == n.db.outbox[f.due[i].key].lines
    {
      assert PendingKot(w.db.outbox, f.due[i].key);
    }
  }

  lemma QuietKeepsKitchen(w: World, n: World)
    requires WorldInv(w) && KitchenInv(w) && KitchenQuiet(w, n)
    ensures KitchenInv(n)
  {
    hide DeviceInv, CloudOk, FilingOk, OwnSeries, WireOk, UpdatesOk, CloudAgrees, FlightCurrent, KitchenQuiet, Shows;
    QuietKeepsUpdates(w, n);
    QuietKeepsCloud(w, n);
    if w.net.flight.Some? {
      QuietKeepsFlight(w, n);
      assert n.net == w.net && n.cloud.orders == w.cloud.orders by { QuietIsQuiet(w, n); }
    } else {
      QuietIsQuiet(w, n);
    }
  }

  lemma QuietIsQuiet(w: World, n: World)
    requires KitchenQuiet(w, n)
    ensures n.net == w.net && n.cloud.orders == w.cloud.orders
  {}

  /** The cloud knows no order that is open or new. */
  lemma OpenIsUnknown(w: World, c: ClientId)
    requires WorldInv(w) && (IsOpen(w.db, c) || (c !in w.db.orders && c !in w.hist.used))
    ensures c !in w.cloud.orders
  {
    hide FilingOk, OwnSeries, AckOk, WireOk, FlightOk, IdsOk, KeysOk, FiguresOk, ClosedStable, TablesOk, SeriesOk,
      TicketsOk, OutboxOk, Strip, PayloadOf;
  }

  lemma WriteIsQuiet(w: World, n: World, c: ClientId, o: Order)
    requires WorldInv(w) && Writes(w.db, n.db, c, o) && (c !in w.db.orders ==> c !in w.hist.used)
    requires n.cloud.orders == w.cloud.orders && n.net == w.net && n.clock >= w.clock
    ensures KitchenQuiet(w, n)
  {
    hide WorldInv;
    OpenIsUnknown(w, c);
  }

  lemma CloseIsQuiet(w: World, n: World, c: ClientId, o: Order, at: Time)
    requires WorldInv(w) && Closes(w.db, n.db, c, o, at)
    requires n.cloud.orders == w.cloud.orders && n.net == w.net && n.clock >= w.clock
    ensures KitchenQuiet(w, n)
  {
    hide WorldInv;
    OpenIsUnknown(w, c);
  }

  lemma DropIsQuiet(w: World, n: World)
    requires Drops(w.db, n.db) && n.cloud.orders == w.cloud.orders && n.net == w.net && n.clock >= w.clock
    ensures KitchenQuiet(w, n)
  {}

  lemma SameIsQuiet(w: World, n: World)
    requires n.db.orders == w.db.orders && n.db.outbox == w.db.outbox
    requires n.cloud.orders == w.cloud.orders && n.net == w.net && n.clock >= w.clock
    ensures KitchenQuiet(w, n)
  {}

  // ---------- Bumping a ticket ----------

  /** A bump of an acknowledged order queues its whole current progress as the newest update. */
  lemma BumpQueues(w: World, n: World, c: ClientId, o: Order, uuid: string, at: Time)
    requires WorldInv(w) && KitchenInv(w) && Marks(w.db, n.db, c, o, uuid, at) && Acknowledged(w.db, c)
    requires n.db.outbox == w.db.outbox[KotKey(c, uuid) := NewRow(w.db.nextOutboxId, KotLines(o.lines), at)]
    requires KotKey(c, uuid) !in w.db.outbox
    requires n.cloud.orders == w.cloud.orders && n.net == w.net && n.clock == at >= w.clock
    ensures UpdatesOk(n.db, n.clock)
  {
    hide CloudOk, FilingOk, OwnSeries, AckOk, WireOk, FlightOk, RowsOk, OutboxOk, KeysOk, FiguresOk, ClosedStable,
      TablesOk, SeriesOk, TicketsOk, SameExceptPrep, KotLines, Addressed, CloudAgrees, FlightCurrent, AnswersTrue;
    KotLinesAreAddressed(o.lines);
    var k := KotKey(c, uuid);
    assert PendingKot(n.db.outbox, k);
    forall l | Newest(n.db.outbox, l)
      ensures l == k || (l.clientId != c && Newest(w.db.outbox, l))
    {
      if l != k {
        forall m | PendingKot(w.db.outbox, m)
          ensures PendingKot(n.db.outbox, m) && n.db.outbox[m] == w.db.outbox[m]
        {}
      }
    }
  }

  lemma BumpKeepsCloudAgrees(w: World, n: World, c: ClientId, o: Order, uuid: string, at: Time)
    requires WorldInv(w) && KitchenInv(w) && Marks(w.db, n.db, c, o, uuid, at) && KotKey(c, uuid) !in w.db.outbox
    requires c in w.cloud.orders ==> PendingKot(n.db.outbox, KotKey(c, uuid))
    requires n.cloud.orders == w.cloud.orders
    ensures CloudAgrees(n.db, n.cloud)
  {
    hide DeviceInv, CloudOk, FilingOk, OwnSeries, AckOk, WireOk, FlightOk, SameExceptPrep, KotLines, Agrees,
      UpdatesOk, FlightCurrent, AnswersTrue;
    forall d | NoPendingKot(n.db.outbox, d)
      ensures NoPendingKot(w.db.outbox, d)
    {
      forall k | PendingKot(w.db.outbox, k)
        ensures PendingKot(n.db.outbox, k)
      {}
    }
  }

  lemma BumpKeepsFlight(w: World, n: World, c: ClientId, o: Order, uuid: string, at: Time)
    requires WorldInv(w) && KitchenInv(w) && Marks(w.db, n.db, c, o, uuid, at) && KotKey(c, uuid) !in w.db.outbox
    requires n.net == w.net && w.net.flight.Some?
    ensures FlightCurrent(n.db, n.net.flight.value)
  {
    hide CloudOk, FilingOk, OwnSeries, AckOk, WireOk, RowsOk, OutboxOk, KeysOk, FiguresOk, ClosedStable, TablesOk,
      SeriesOk, TicketsOk, SameExceptPrep, KotLines, PayloadOf, UpdatesOk, CloudAgrees, AnswersTrue;
    var f := w.net.flight.value;
    forall i | 0 <= i < |f.due|
      ensures f.due[i].id < w.db.nextOutboxId && f.due[i].key in n.db.outbox
      ensures n.db.outbox[f.due[i].key] == w.db.outbox[f.due[i].key]
    {}
    forall i, l | 0 <= i < |f.due| && f.due[i].key.KotKey? && PendingKot(n.db.outbox, l)
                  && l.clientId == f.due[i].key.clientId && n.db.outbox[l].id < f.due[i].id
      ensures exists j :: 0 <= j < |f.due| && f.due[j].key == l
    {
      assert PendingKot(w.db.outbox, l);
    }
  }

  lemma BumpKeepsKitchen(w: World, n: World, c: ClientId, o: Order, uuid: string, at: Time)
    requires WorldInv(w) && KitchenInv(w) && Marks(w.db, n.db, c, o, uuid, at) && KotKey(c, uuid) !in w.db.outbox
    requires n.db.outbox != w.db.outbox <==> Acknowledged(w.db, c)
    requires n.cloud.orders == w.cloud.orders && n.net == w.net && n.clock == at >= w.clock
    requires c in w.cloud.orders ==> Acknowledged(w.db, c)
    ensures KitchenInv(n)
  {
    hide CloudOk, FilingOk, OwnSeries, WireOk, FlightOk, IdsOk, KeysOk, FiguresOk, ClosedStable, TablesOk, SeriesOk,
      TicketsOk, SameExceptPrep, KotLines, UpdatesOk, FlightCurrent, AnswersTrue, Agrees;
    UnknownOrderHasNoUpdates(w, c);
    if Acknowledged(w.db, c) {
      BumpQueues(w, n, c, o, uuid, at);
    } else {
      QuietUpdates(w, n, c);
    }
    BumpKeepsCloudAgrees(w, n, c, o, uuid, at);
    if w.net.flight.Some? {
      BumpKeepsFlight(w, n, c, o, uuid, at);
      SameAnswers(w.cloud, n.cloud, w.net.flight.value);
    }
  }

  lemma QuietUpdates(w: World, n: World, c: ClientId)
    requires UpdatesOk(w.db, w.clock) && n.clock >= w.clock && n.db.outbox == w.db.outbox
    requires n.db.orders.Keys == w.db.orders.Keys
    requires forall d :: d in w.db.orders && d != c ==> n.db.orders[d] == w.db.orders[d]
    requires forall k :: k in w.db.outbox && k.KotKey? ==> k.clientId != c
    ensures UpdatesOk(n.db, n.clock)
  {
    hide KotLines, Addressed;
  }

  lemma SameAnswers(cloud: Cloud, n: Cloud, f: Flight)
    requires AnswersTrue(cloud, f) && n.orders == cloud.orders
    ensures AnswersTrue(n, f)
  {
    hide Shows;
  }

  lemma LocalKeepsKitchen(w: World, a: Action)
    requires WorldInv(w) && KitchenInv(w) && IsLocal(a) && Enabled(w, a) && Calm(w, a)
    ensures KitchenInv(Next(w, a))
  {
    hide CloudOk, FilingOk, OwnSeries, AckOk, WireOk, FlightOk, CreateOrder, AddItems, SettleOrder, CancelOrder,
      AdvanceTicket, Purge, RowsOk, OutboxOk, IdsOk, KeysOk, ClosedStable, FiguresOk, SeriesOk, TablesOk, TicketsOk,
      QuoteFor, Format, FireOrder, FreshOrder, Writes, Closes, Marks, Drops, KitchenInv, KitchenQuiet;
    var n, db, h := Next(w, a), w.db, w.hist;
    if Transact(db, a).Err? {
      SameIsQuiet(w, n);
      QuietKeepsKitchen(w, n);
    } else {
      match a
      case Create(m, c, at) =>
        Fresh(db, h, c);
        CreateWrites(db, m, c, at);
        WriteIsQuiet(w, n, c, FireOrder(FreshOrder(m, c, at), m.lines));
        QuietKeepsKitchen(w, n);
      case Add(c, lines, at) =>
        AddNeedsOpen(db, c, lines, at);
        OpenRow(db, h, c);
        AddWrites(db, c, lines, at);
        WriteIsQuiet(w, n, c, FireOrder(db.orders[c].order, lines).(updatedAt := at));
        QuietKeepsKitchen(w, n);
      case Settle(c, s, at, trueNow, fy) =>
        SettleNeedsOpen(db, a);
        OpenRow(db, h, c);
        SettleCloses(db, c, s, at, trueNow, fy);
        CloseIsQuiet(w, n, c, n.db.orders[c].order, at);
        QuietKeepsKitchen(w, n);
      case Cancel(c, staffId, reason, at) =>
        CancelNeedsOpen(db, c, staffId, reason, at);
        OpenRow(db, h, c);
        CancelCloses(db, c, staffId, reason, at);
        CloseIsQuiet(w, n, c, n.db.orders[c].order, at);
        QuietKeepsKitchen(w, n);
      case Bump(id, to, at, uuid) =>
        BumpNeedsTicket(db, id, to, at, uuid);
        if id.clientId in db.orders {
          RowNamed(db, h, id.clientId);
          FreshKey(db, h, id.clientId, uuid);
          BumpMarks(db, id, to, at, uuid);
          BumpKeepsKitchen(w, n, id.clientId, MarkedOrder(db, id, to, at), uuid, at);
        } else {
          OrphanBump(db, id, to, at, uuid);
          SameIsQuiet(w, n);
          QuietKeepsKitchen(w, n);
        }
      case Retain(at, orderDays, outboxDays) =>
        PurgeDrops(db, at, orderDays, outboxDays);
        DropIsQuiet(w, n);
        QuietKeepsKitchen(w, n);
      case Reactivate(code) =>
        SameIsQuiet(w, n);
        QuietKeepsKitchen(w, n);
      case Refeed(tables, coupons) =>
        SameIsQuiet(w, n);
        QuietKeepsKitchen(w, n);
    }
  }

  // ---------- The link ----------

  /** What the operation of a due row carries. */
  ghost predicate CarriesRow(db: Db, k: Key, op: Op)
    requires k in db.outbox
  {
    KeyOf(op) == k && (op.KotOp? ==> op.lines == db.outbox[k].lines)
  }

  lemma OpsCarryRows(w: World, due: seq<Key>, at: Time)
    requires WorldInv(w) && Enabled(w, Send(due, at))
    ensures SendNext(w, due).db == w.db && |Ops(w.db, due)| == |due|
    ensures forall i :: 0 <= i < |due| ==> CarriesRow(w.db, due[i], Ops(w.db, due)[i])
  {
    hide CloudOk, FilingOk, OwnSeries, WireOk, FlightOk, IdsOk, KeysOk, FiguresOk, TablesOk, SeriesOk, TicketsOk,
      RowsOk, OutboxOk, ClosedStable, AckOk, Ops, OpFor, RejectMissing, PayloadOf, IsBillOf;
    SendKeepsWorld(w, due, at);
    forall i | 0 <= i < |due|
      ensures CarriesRow(w.db, due[i], Ops(w.db, due)[i])
    {
      OpFacts(w.db, w.cloud, w.hist, due[i]);
      OpLines(w.db, due[i]);
    }
  }

  lemma FlightStartsCurrent(w: World, due: seq<Key>, at: Time)
    requires IsBatch(w.db.outbox, at, due) && at >= w.clock && UpdatesOk(w.db, w.clock) && |Ops(w.db, due)| == |due|
    requires forall i :: 0 <= i < |due| ==> CarriesRow(w.db, due[i], Ops(w.db, due)[i])
    ensures FlightCurrent(w.db, Flight(RowsRead(w.db.outbox, due), Ops(w.db, due), []))
  {
    hide Ops, PayloadOf, UpdatesOk;
    BatchIsDownClosed(w, due, at);
  }

  lemma SendKeepsKitchen(w: World, due: seq<Key>, at: Time)
    requires WorldInv(w) && KitchenInv(w) && Enabled(w, Send(due, at)) && at >= w.clock
    ensures KitchenInv(SendNext(w, due).(clock := at))
  {
    hide WorldInv, Ops, RejectMissing, CloudAgrees, FlightCurrent, CarriesRow, Newest, Addressed, KotLines,
      RequestAcceptable;
    OpsCarryRows(w, due, at);
    FlightStartsCurrent(w, due, at);
  }

  lemma OpLines(db: Db, k: Key)
    requires k in db.outbox && OpFor(db, k).Some?
    ensures OpFor(db, k).value.OrderOp? ==> k.clientId in db.orders
    ensures OpFor(db, k).value.KotOp? ==> OpFor(db, k).value.lines == db.outbox[k].lines
  {
    hide PayloadOf;
  }

  /** A batch that holds a kitchen update holds every older pending one. */
  lemma BatchIsDownClosed(w: World, due: seq<Key>, at: Time)
    requires IsBatch(w.db.outbox, at, due) && at >= w.clock && UpdatesOk(w.db, w.clock)
    ensures forall i, l ::
              0 <= i < |due| && PendingKot(w.db.outbox, l) && w.db.outbox[l].id < w.db.outbox[due[i]].id ==>
              exists j :: 0 <= j < |due| && due[j] == l
  {
    hide Addressed, KotLines, Newest;
    forall i, l | 0 <= i < |due| && PendingKot(w.db.outbox, l) && w.db.outbox[l].id < w.db.outbox[due[i]].id
      ensures exists j :: 0 <= j < |due| && due[j] == l
    {
      assert IsDueRow(w.db.outbox[l], at);
      assert l in due;
    }
  }

  /** The cloud takes a bill that shows the progress its order has, or takes none. */
  lemma BillHandled(w: World, p: Payload, env: Env)
    requires KitchenInv(w) && Calm(w, Handle(OrderOp(p), env))
    ensures CloudAgrees(w.db, Ingest(w.cloud, OrderOp(p), env).cloud)
  {
    hide FiguresAddUp, BillConflict, Agrees, UpdatesOk, FlightCurrent, AnswersTrue, InsertOrder;
    InsertGrows(w.cloud, p);
  }

  lemma UpdateHandled(w: World, c: ClientId, uuid: string, lines: seq<KotLine>, env: Env)
    requires WorldInv(w) && KitchenInv(w) && Calm(w, Handle(KotOp(c, uuid, lines), env))
    ensures CloudAgrees(w.db, Ingest(w.cloud, KotOp(c, uuid, lines), env).cloud)
  {
    hide FilingOk, OwnSeries, AckOk, DeviceInv, CloudOk, Agrees, UpdatesOk, AnswersTrue, ApplyKot, FlightCurrent;
    var f, i := w.net.flight.value, |w.net.flight.value.answers|;
    assert f.due[i].key == KeyOf(f.ops[i]) == KotKey(c, uuid);
    assert PendingKot(w.db.outbox, KotKey(c, uuid));
    assert !NoPendingKot(w.db.outbox, c);
  }

  /** The flight once the operation has been answered. */
  function Answered(f: Flight, s: OpStatus): Flight {
    f.(answers := f.answers + [s])
  }

  /** The latest answered update of an order still shows. */
  lemma UpdatesExtend(w: World, op: Op, env: Env, i: nat)
    requires WorldInv(w) && KitchenInv(w) && Enabled(w, Handle(op, env)) && Calm(w, Handle(op, env))
    requires NextInFlight(w.net, op)
    requires LastUpdate(Answered(w.net.flight.value, Ingest(w.cloud, op, env).status), i)
    ensures var u, cloud := w.net.flight.value.ops[i], Ingest(w.cloud, op, env).cloud;
            u.clientId in cloud.orders && Shows(cloud.orders[u.clientId], u.lines)
  {
    hide FilingOk, OwnSeries, AckOk, DeviceInv, CloudOk, UpdatesOk, CloudAgrees, FiguresAddUp, BillConflict, Shows,
      ApplyKot, IsBillOf, InsertOrder, Addressed;
    var f := w.net.flight.value;
    var m := |f.answers|;
    var g := Answered(f, Ingest(w.cloud, op, env).status);
    if i == m {
      assert Addressed(op.lines) by { UpdateIsAddressed(w, m); }
      AppliedUpdateShows(w.cloud.orders[op.clientId], op.lines);
    } else {
      assert LastUpdate(f, i);
      assert op.KotOp? ==> g.ops[m].clientId != g.ops[i].clientId;
      if op.OrderOp? {
        InsertGrows(w.cloud, op.payload);
      }
    }
  }

  /** The answer just given joins the answers of the flight. */
  lemma AnswersExtend(w: World, op: Op, env: Env)
    requires WorldInv(w) && KitchenInv(w) && Enabled(w, Handle(op, env)) && Calm(w, Handle(op, env))
    requires NextInFlight(w.net, op)
    ensures var r := Ingest(w.cloud, op, env);
            AnswersTrue(r.cloud, Answered(w.net.flight.value, r.status))
  {
    hide FilingOk, OwnSeries, AckOk, DeviceInv, CloudOk, UpdatesOk, CloudAgrees, FiguresAddUp, BillConflict, Shows,
      ApplyKot, IsBillOf, InsertOrder, Addressed, FlightCurrent, LastUpdate;
    var r := Ingest(w.cloud, op, env);
    var g := Answered(w.net.flight.value, r.status);
    forall i | LastUpdate(g, i)
      ensures 0 <= i < |g.ops| && g.ops[i].KotOp?
      ensures g.ops[i].clientId in r.cloud.orders && Shows(r.cloud.orders[g.ops[i].clientId], g.ops[i].lines)
    {
      LastUpdateIsUpdate(g, i);
      UpdatesExtend(w, op, env, i);
    }
  }

  /** A bill handled out of turn leaves the answers of the flight true. */
  lemma AnswersOutliveBill(cloud: Cloud, f: Flight, p: Payload, env: Env)
    requires AnswersTrue(cloud, f)
    ensures AnswersTrue(Ingest(cloud, OrderOp(p), env).cloud, f)
  {
    hide FiguresAddUp, BillConflict, Shows, InsertOrder;
    InsertGrows(cloud, p);
  }

  lemma LastUpdateIsUpdate(f: Flight, i: int)
    requires LastUpdate(f, i)
    ensures 0 <= i < |f.ops| && f.ops[i].KotOp?
  {}

  lemma UpdateIsAddressed(w: World, i: nat)
    requires w.net.flight.Some? && FlightOk(w.db, w.net) && UpdatesOk(w.db, w.clock)
    requires FlightCurrent(w.db, w.net.flight.value) && i < |w.net.flight.value.ops| && w.net.flight.value.ops[i].KotOp?
    ensures Addressed(w.net.flight.value.ops[i].lines)
  {
    hide Addressed, KotLines, PayloadOf;
    var f := w.net.flight.value;
    assert f.due[i].key == KeyOf(f.ops[i]);
    assert PendingKot(w.db.outbox, f.due[i].key);
  }

  lemma HandleKeepsKitchen(w: World, op: Op, env: Env)
    requires WorldInv(w) && KitchenInv(w) && Enabled(w, Handle(op, env)) && Calm(w, Handle(op, env))
    ensures KitchenInv(HandleNext(w, op, env).(clock := w.clock))
  {
    hide WorldInv, UpdatesOk, CloudAgrees, Ingest, AnswersTrue, Agrees;
    if NextInFlight(w.net, op) {
      AnswersExtend(w, op, env);
    } else if w.net.flight.Some? && op.OrderOp? {
      AnswersOutliveBill(w.cloud, w.net.flight.value, op.payload, env);
    }
    match op
    case OrderOp(p) => BillHandled(w, p, env);
    case KotOp(c, uuid, lines) => UpdateHandled(w, c, uuid, lines, env);
  }

  /** What recording the first `m` answers of a flight does to the orders. */
  ghost predicate RecordedOrders(db: Db, n: Db, f: Flight, m: nat) {
    && m <= |f.answers| <= |f.due|
    && n.orders.Keys == db.orders.Keys
    && (forall c :: c in n.orders ==> n.orders[c].order == db.orders[c].order)
    && (forall c :: c in n.orders && n.orders[c].sync == Refused && db.orders[c].sync != Refused ==>
          exists i :: 0 <= i < m && f.due[i].key == OrderKey(c) && f.answers[i] == Refuse)
  }

  /** And to the outbox. */
  ghost predicate RecordedOutbox(db: Db, n: Db, f: Flight, m: nat) {
    && m <= |f.answers| <= |f.due|
    && n.outbox.Keys == db.outbox.Keys
    && (forall k :: k in n.outbox ==> n.outbox[k].id == db.outbox[k].id && n.outbox[k].lines == db.outbox[k].lines)
    && (forall i :: 0 <= i < m && f.answers[i] != Retry ==>
            f.due[i].key in n.outbox && n.outbox[f.due[i].key].status != Pending)
    && (forall k :: k in n.outbox && n.outbox[k] != db.outbox[k] ==> exists i :: 0 <= i < m && f.due[i].key == k)
  }

  ghost predicate Recorded(db: Db, n: Db, f: Flight, m: nat) {
    RecordedOrders(db, n, f, m) && RecordedOutbox(db, n, f, m)
  }

  lemma RecordOneOrder(db: Db, before: Db, n: Db, f: Flight, m: nat, k: Key, row: OutboxRow, sync: SyncState)
    requires RecordedOrders(db, before, f, m) && m < |f.answers| && k == f.due[m].key
    requires Answers(before, n, k, row, sync)
    requires sync == FinalSync(f.answers[m])
    ensures RecordedOrders(db, n, f, m + 1)
  {
    forall c | c in n.orders && n.orders[c].sync == Refused && db.orders[c].sync != Refused
      ensures exists i :: 0 <= i < m + 1 && f.due[i].key == OrderKey(c) && f.answers[i] == Refuse
    {
      if before.orders[c].sync != Refused {
        assert f.due[m].key == OrderKey(c) && f.answers[m] == Refuse;
      } else {
        var i :| 0 <= i < m && f.due[i].key == OrderKey(c) && f.answers[i] == Refuse;
      }
    }
  }

  lemma RecordOneRow(db: Db, before: Db, n: Db, f: Flight, m: nat, k: Key, row: OutboxRow)
    requires RecordedOutbox(db, before, f, m) && m < |f.answers| && k == f.due[m].key
    requires forall i :: 0 <= i < m ==> f.due[i].key != k
    requires k in before.outbox && n.outbox == before.outbox[k := row]
    requires row.id == before.outbox[k].id && row.lines == before.outbox[k].lines
    requires f.answers[m] == Retry <==> row.status == Pending
    ensures RecordedOutbox(db, n, f, m + 1)
  {
    forall l | l in n.outbox && n.outbox[l] != db.outbox[l]
      ensures exists i :: 0 <= i < m + 1 && f.due[i].key == l
    {
      if l != k {
        var i :| 0 <= i < m && f.due[i].key == l;
      }
    }
  }

  lemma RecordOne(db: Db, before: Db, n: Db, f: Flight, m: nat, sync: SyncState)
    requires Recorded(db, before, f, m) && m < |f.answers| && Waits(before.outbox, f, m)
    requires f.due[m].key in n.outbox && Answers(before, n, f.due[m].key, n.outbox[f.due[m].key], sync)
    requires n.outbox[f.due[m].key].lines == before.outbox[f.due[m].key].lines
    requires sync == FinalSync(f.answers[m]) && (f.answers[m] == Retry <==> n.outbox[f.due[m].key].status == Pending)
    ensures Recorded(db, n, f, m + 1)
  {
    hide RecordedOrders, RecordedOutbox;
    RecordOneOrder(db, before, n, f, m, f.due[m].key, n.outbox[f.due[m].key], sync);
    RecordOneRow(db, before, n, f, m, f.due[m].key, n.outbox[f.due[m].key]);
  }

  lemma {:induction false} RepliesAreRecorded(w: World, m: nat, now: Time, backoff: nat -> int)
    requires WorldInv(w) && w.net.flight.Some? && m <= |w.net.flight.value.answers|
    requires Enabled(w, Receive(w.net.flight.value.answers, now, backoff))
    ensures var f := w.net.flight.value;
            Recorded(w.db, ApplyReplies(w.db, f.due, Replies(f.ops, f.answers)[..m], now, backoff), f, m)
  {
    hide CloudOk, FilingOk, OwnSeries, AckOk, WireOk, RowsOk, OutboxOk, IdsOk, KeysOk, ClosedStable, FiguresOk,
      SeriesOk, TablesOk, TicketsOk, ApplyReply, Answers, Recorded, Waits;
    var f := w.net.flight.value;
    var rs := Replies(f.ops, f.answers);
    if m == 0 {
      assert FlightOk(w.db, w.net);
      NothingRecorded(w.db, f);
    } else {
      var before := ApplyReplies(w.db, f.due, rs[..m - 1], now, backoff);
      RepliesAreRecorded(w, m - 1, now, backoff);
      RepliesKeep(w, f.answers, m - 1, now, backoff);
      assert rs[..m][..m - 1] == rs[..m - 1];
      DueIsFound(w.db.outbox, f, m - 1);
      StillWaiting(before.outbox, f, m - 1);
      ReplyAnswers(before, f.due[m - 1], f.answers[m - 1], now, backoff);
      RecordOne(w.db, before, ApplyReply(before, f.due[m - 1], f.answers[m - 1], now, backoff), f, m - 1,
                FinalSync(f.answers[m - 1]));
    }
  }

  lemma NothingRecorded(db: Db, f: Flight)
    requires Waits(db.outbox, f, 0)
    ensures Recorded(db, db, f, 0)
  {}

  lemma DueIsFound(outbox: map<Key, OutboxRow>, f: Flight, m: nat)
    requires Waits(outbox, f, 0) && m < |f.ops|
    ensures |f.due| == |f.ops| && FindDue(f.due, KeyOf(f.ops[m])) == Some(f.due[m])
  {
    FindDueAt(f.due, m);
  }

  lemma StillWaiting(outbox: map<Key, OutboxRow>, f: Flight, m: nat)
    requires Waits(outbox, f, m) && m < |f.ops|
    ensures |f.due| == |f.ops| && f.due[m].key in outbox && outbox[f.due[m].key].id == f.due[m].id
    ensures outbox[f.due[m].key].status == Pending
  {}

  /** Updates that are pending after the response were pending before it, and none is newer than the newest left. */
  lemma NewestSurvives(w: World, n: Db, k: Key)
    requires w.net.flight.Some? && FlightOk(w.db, w.net)
    requires FlightCurrent(w.db, w.net.flight.value) && AnswersTrue(w.cloud, w.net.flight.value)
    requires |w.net.flight.value.answers| == |w.net.flight.value.due|
    requires Recorded(w.db, n, w.net.flight.value, |w.net.flight.value.answers|) && Newest(n.outbox, k)
    ensures Newest(w.db.outbox, k) && n.outbox[k] == w.db.outbox[k]
  {
    hide PayloadOf, Shows, LastUpdate;
    var f := w.net.flight.value;
    assert forall i :: 0 <= i < |f.due| ==> f.due[i].key == KeyOf(f.ops[i]);
    assert forall i :: 0 <= i < |f.due| ==> f.due[i].key != k;
    forall l | PendingKot(w.db.outbox, l) && l.clientId == k.clientId
      ensures w.db.outbox[l].id <= w.db.outbox[k].id
    {
      if forall i :: 0 <= i < |f.due| ==> f.due[i].key != l {
        assert n.outbox[l] == w.db.outbox[l];
        assert PendingKot(n.outbox, l);
      }
    }
  }

  lemma ReceiveKeepsUpdates(w: World, n: Db, now: Time)
    requires w.net.flight.Some? && FlightOk(w.db, w.net) && UpdatesOk(w.db, w.clock) && now >= w.clock
    requires FlightCurrent(w.db, w.net.flight.value) && AnswersTrue(w.cloud, w.net.flight.value)
    requires |w.net.flight.value.answers| == |w.net.flight.value.due|
    requires Recorded(w.db, n, w.net.flight.value, |w.net.flight.value.answers|)
    ensures UpdatesOk(n, now)
  {
    hide PayloadOf, Shows, LastUpdate, KotLines, Addressed, FlightCurrent;
    var f := w.net.flight.value;
    assert forall i :: 0 <= i < |f.due| ==> f.due[i].key == KeyOf(f.ops[i]);
    forall k | PendingKot(n.outbox, k)
      ensures PendingKot(w.db.outbox, k) && n.outbox[k] == w.db.outbox[k]
    {
      assert forall i :: 0 <= i < |f.due| ==> f.due[i].key != k;
    }
    forall k | Newest(n.outbox, k) && k.clientId in n.orders
      ensures n.outbox[k].lines == KotLines(n.orders[k.clientId].order.lines)
    {
      NewestSurvives(w, n, k);
    }
  }

  /** The last kitchen update of an order in the flight, if it has one. */
  lemma {:induction false} FindLastUpdate(f: Flight, c: ClientId, m: nat) returns (i: int)
    requires m <= |f.answers| <= |f.ops|
    ensures i == -1 ==> forall j :: 0 <= j < m && f.ops[j].KotOp? ==> f.ops[j].clientId != c
    ensures i != -1 ==> 0 <= i < m && f.ops[i].KotOp? && f.ops[i].clientId == c
                        && forall j :: i < j < m && f.ops[j].KotOp? ==> f.ops[j].clientId != c
  {
    if m == 0 {
      i := -1;
    } else if f.ops[m - 1].KotOp? && f.ops[m - 1].clientId == c {
      i := m - 1;
    } else {
      i := FindLastUpdate(f, c, m - 1);
    }
  }

  /** The last update of a fully answered flight, when nothing of its order stays pending, was the newest. */
  lemma LastUpdateWasNewest(w: World, n: Db, c: ClientId, i: nat)
    requires w.net.flight.Some? && FlightOk(w.db, w.net)
    requires FlightCurrent(w.db, w.net.flight.value)
    requires |w.net.flight.value.answers| == |w.net.flight.value.due|
    requires Recorded(w.db, n, w.net.flight.value, |w.net.flight.value.answers|) && NoPendingKot(n.outbox, c)
    requires LastUpdate(w.net.flight.value, i) && w.net.flight.value.ops[i].clientId == c
    ensures Newest(w.db.outbox, w.net.flight.value.due[i].key)
  {
    hide PayloadOf;
    var f := w.net.flight.value;
    var k := f.due[i].key;
    assert k == KeyOf(f.ops[i]);
    forall l | PendingKot(w.db.outbox, l) && l.clientId == k.clientId
      ensures w.db.outbox[l].id <= w.db.outbox[k].id
    {
      assert !PendingKot(n.outbox, l);
      var j :| 0 <= j < |f.due| && f.due[j].key == l;
      assert l == KeyOf(f.ops[j]);
    }
  }

  lemma ReceiveKeepsAgreement(w: World, n: Db, c: ClientId)
    requires WorldInv(w) && KitchenInv(w) && w.net.flight.Some?
    requires |w.net.flight.value.answers| == |w.net.flight.value.due|
    requires Recorded(w.db, n, w.net.flight.value, |w.net.flight.value.answers|)
    requires c in n.orders && c in w.cloud.orders && NoPendingKot(n.outbox, c)
    ensures Agrees(w.cloud.orders[c], n.orders[c].order.lines)
  {
    hide FilingOk, OwnSeries, AckOk, WireOk, OutboxOk, IdsOk, KeysOk, FiguresOk, SeriesOk, TablesOk, TicketsOk,
      FlightOk, Agrees, Shows, PayloadOf, Strip, SameExceptPrep, KotLines, Addressed, FlightCurrent, Newest,
      PendingKot;
    var f := w.net.flight.value;
    var i := FindLastUpdate(f, c, |f.answers|);
    if i == -1 {
      StaysAbsent(w, n, c);
    } else {
      assert LastUpdate(f, i);
      LastUpdateWasNewest(w, n, c, i);
      assert f.ops[i].lines == KotLines(w.db.orders[c].order.lines) by { FlightLines(w, i); }
      PayloadIsStable(w.db.orders[c].order, w.hist.closed[c]);
      BillHasShape(w.cloud.orders[c], w.db.orders[c].order);
      ShownUpdateAgrees(w.cloud.orders[c], w.db.orders[c].order.lines);
    }
  }

  lemma FlightLines(w: World, i: nat)
    requires w.net.flight.Some? && FlightOk(w.db, w.net) && FlightCurrent(w.db, w.net.flight.value)
    requires UpdatesOk(w.db, w.clock)
    requires i < |w.net.flight.value.ops| && w.net.flight.value.ops[i].KotOp?
    requires Newest(w.db.outbox, w.net.flight.value.due[i].key) && w.net.flight.value.ops[i].clientId in w.db.orders
    ensures w.net.flight.value.ops[i].lines == KotLines(w.db.orders[w.net.flight.value.ops[i].clientId].order.lines)
  {
    hide PayloadOf, KotLines, Addressed, Newest;
    assert w.net.flight.value.due[i].key == KeyOf(w.net.flight.value.ops[i]);
  }

  lemma StaysAbsent(w: World, n: Db, c: ClientId)
    requires w.net.flight.Some? && FlightOk(w.db, w.net)
    requires |w.net.flight.value.answers| == |w.net.flight.value.due|
    requires Recorded(w.db, n, w.net.flight.value, |w.net.flight.value.answers|) && NoPendingKot(n.outbox, c)
    requires forall j :: 0 <= j < |w.net.flight.value.answers| && w.net.flight.value.ops[j].KotOp? ==>
               w.net.flight.value.ops[j].clientId != c
    ensures NoPendingKot(w.db.outbox, c)
  {
    var f := w.net.flight.value;
    assert forall i :: 0 <= i < |f.due| ==> f.due[i].key == KeyOf(f.ops[i]);
    forall k | PendingKot(w.db.outbox, k)
      ensures k.clientId != c
    {
      if forall i :: 0 <= i < |f.due| ==> f.due[i].key != k {
        assert n.outbox[k] == w.db.outbox[k];
        assert PendingKot(n.outbox, k);
      } else {
        var i :| 0 <= i < |f.due| && f.due[i].key == k;
        assert k == KeyOf(f.ops[i]);
      }
    }
  }

  lemma ReceiveKeepsKitchen(w: World, statuses: seq<OpStatus>, at: Time, backoff: nat -> int)
    requires WorldInv(w) && KitchenInv(w)
    requires Enabled(w, Receive(statuses, at, backoff)) && Calm(w, Receive(statuses, at, backoff))
    ensures KitchenInv(ReceiveNext(w, statuses, at, backoff).(clock := at))
  {
    hide DeviceInv, CloudOk, FilingOk, OwnSeries, AckOk, WireOk, ApplyReplies, Recorded, UpdatesOk, Agrees,
      NoPendingKot;
    var f := w.net.flight.value;
    var rs := Replies(f.ops, statuses);
    RepliesAreRecorded(w, |statuses|, at, backoff);
    assert rs[..|statuses|] == rs;
    var n := ApplyReplies(w.db, f.due, rs, at, backoff);
    ReceiveKeepsUpdates(w, n, at);
    forall c | c in n.orders && c in w.cloud.orders && NoPendingKot(n.outbox, c)
      ensures Agrees(w.cloud.orders[c], n.orders[c].order.lines)
    {
      ReceiveKeepsAgreement(w, n, c);
    }
  }

  // ---------- Calm runs ----------

  ghost predicate CalmRun(w: World, run: seq<Action>)
    requires Legal(w, run)
    decreases |run|
  {
    run == [] || (Calm(w, run[0]) && CalmRun(Next(w, run[0]), run[1..]))
  }

  lemma StepKeepsKitchen(w: World, a: Action)
    requires WorldInv(w) && KitchenInv(w) && Enabled(w, a) && Calm(w, a)
    ensures KitchenInv(Next(w, a))
  {
    hide WorldInv, LocalNext, SendNext, HandleNext, ReceiveNext, UpdatesOk, CloudAgrees, FlightCurrent, AnswersTrue;
    if IsLocal(a) {
      LocalKeepsKitchen(w, a);
    } else {
      match a
      case Send(due, at) => SendKeepsKitchen(w, due, at);
      case Handle(op, env) => HandleKeepsKitchen(w, op, env);
      case Receive(statuses, at, backoff) => ReceiveKeepsKitchen(w, statuses, at, backoff);
      case Lose =>
    }
  }

  lemma {:induction false} CalmRunsKeepKitchen(w: World, run: seq<Action>)
    requires WorldInv(w) && KitchenInv(w) && Legal(w, run) && CalmRun(w, run)
    ensures KitchenInv(After(w, run))
    decreases |run|
  {
    hide WorldInv, KitchenInv, Next, Calm, Enabled;
    if run != [] {
      StepKeepsWorld(w, run[0]);
      StepKeepsKitchen(w, run[0]);
      CalmRunsKeepKitchen(Next(w, run[0]), run[1..]);
    }
  }

  /**
   In every calm run, an order that both sides hold and that has no kitchen update left to send shows
   the same progress on both, line by line.
   */
  lemma DrainedKitchenAgrees(run: seq<Action>, c: ClientId)
    requires Legal(START, run) && CalmRun(START, run)
    ensures var w := After(START, run);
            c in w.db.orders && c in w.cloud.orders && NoPendingKot(w.db.outbox, c) ==>
              Agrees(w.cloud.orders[c], w.db.orders[c].order.lines)
  {
    hide WorldInv, Agrees, NoPendingKot, UpdatesOk, FlightCurrent, AnswersTrue, Legal, After, CalmRun;
    StartWorld();
    StartKitchen();
    CalmRunsKeepKitchen(START, run);
  }

  lemma StartKitchen()
    ensures KitchenInv(START)
  {}

  /** A kitchen update in the outbox or on the wire is always for an order the cloud has accepted. */
  lemma UpdatesFollowAcceptance(run: seq<Action>, c: ClientId, uuid: string)
    requires Legal(START, run)
    requires var w := After(START, run);
             KotKey(c, uuid) in w.db.outbox || exists lines :: KotOp(c, uuid, lines) in w.net.wire
    ensures c in After(START, run).cloud.orders
  {
    hide DeviceInv, CloudOk, FilingOk, OwnSeries, FlightOk, IsBillOf;
    StartWorld();
    RunsKeepWorld(START, run);
    var w := After(START, run);
    if KotKey(c, uuid) !in w.db.outbox {
      var lines :| KotOp(c, uuid, lines) in w.net.wire;
      assert KotOp(c, uuid, lines).clientId == c;
    }
  }
}
