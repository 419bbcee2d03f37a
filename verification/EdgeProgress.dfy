/**
 When the outbox can be drained.  The cloud turns a request away unread if one of its operations is
 out of shape, and only an activated terminal pushes.  On an activated terminal whose pending bills
 are all in shape, nothing that happened so far can strand one: a link that works again takes every
 bill to the cloud.  A bill that is out of shape stays in the outbox for ever.
 */
module EdgeProgress {
  import opened Options
  import opened EdgeModel
  import opened EdgeWorld
  import opened EdgeInvariant
  import opened EdgePayload
  import opened EdgeSync
  import opened EdgeLink
  import opened EdgeKitchen
  import opened EdgeTheorems
  import EdgeEngine

  // ---------- Runs in sequence ----------

  lemma {:induction false} RunsCompose(w: World, a: seq<Action>, b: seq<Action>)
    requires Legal(w, a) && Legal(After(w, a), b)
    ensures Legal(w, a + b) && After(w, a + b) == After(After(w, a), b)
    decreases |a|
  {
    hide Next, Enabled;
    if a == [] {
      assert a + b == b;
    } else {
      RunsCompose(Next(w, a[0]), a[1..], b);
      assert (a + b)[1..] == a[1..] + b;
    }
  }

  lemma OneStep(w: World, a: Action)
    requires Enabled(w, a)
    ensures Legal(w, [a]) && After(w, [a]) == Next(w, a)
  {
    hide Next, Enabled;
    assert [a][1..] == [];
    assert Legal(Next(w, a), []);
  }

  /** The terminal does nothing but push. */
  predicate PushesOnly(run: seq<Action>) {
    forall i :: 0 <= i < |run| ==> !IsLocal(run[i])
  }

  lemma PushesCompose(a: seq<Action>, b: seq<Action>)
    requires PushesOnly(a) && PushesOnly(b)
    ensures PushesOnly(a + b)
  {}

  // ---------- A batch ----------

  function PendingKeys(outbox: map<Key, OutboxRow>): set<Key> {
    set k | k in outbox && outbox[k].status == Pending
  }

  /** A time by which every row is due. */
  lemma {:induction false} EventuallyDue(outbox: map<Key, OutboxRow>, keys: set<Key>) returns (at: Time)
    requires keys <= outbox.Keys
    ensures forall k :: k in keys ==> outbox[k].nextAttemptAt <= at
    decreases keys
  {
    at := 0;
    if keys != {} {
      var k :| k in keys;
      var others := keys - {k};
      at := EventuallyDue(outbox, others);
      assert forall m :: m in keys ==> m in others || m == k;
      at := if at < outbox[k].nextAttemptAt then outbox[k].nextAttemptAt else at;
    }
  }

  lemma {:induction false} OldestOf(outbox: map<Key, OutboxRow>, keys: set<Key>) returns (k: Key)
    requires keys != {} && keys <= outbox.Keys
    ensures k in keys && forall l :: l in keys ==> outbox[k].id <= outbox[l].id
    decreases keys
  {
    var some :| some in keys;
    var others := keys - {some};
    k := some;
    if others != {} {
      var l := OldestOf(outbox, others);
      k := if outbox[l].id < outbox[some].id then l else some;
      assert forall m :: m in others ==> outbox[k].id <= outbox[m].id;
    }
    assert forall m :: m in keys ==> m in others || m == some;
  }

  lemma {:induction false} TakeRest(db: Db, at: Time, taken: seq<Key>, left: set<Key>) returns (due: seq<Key>)
    requires IdsOk(db) && EdgeEngine.Taking(db.outbox, at, taken, left) && |taken| <= PUSH_BATCH
    ensures IsBatch(db.outbox, at, due)
    decreases left
  {
    if left == {} || |taken| == PUSH_BATCH {
      due := taken;
      EdgeEngine.TakenIsBatch(db.outbox, at, due, left);
    } else {
      var k := OldestOf(db.outbox, left);
      EdgeEngine.TakingOne(db, at, taken, left, k);
      due := TakeRest(db, at, taken + [k], left - {k});
    }
  }

  /** While something is pending, there is a time at which a batch is not empty. */
  lemma SomeBatch(db: Db) returns (at: Time, due: seq<Key>)
    requires IdsOk(db) && PendingKeys(db.outbox) != {}
    ensures IsBatch(db.outbox, at, due) && due != []
  {
    var pending := PendingKeys(db.outbox);
    at := EventuallyDue(db.outbox, pending);
    assert forall k :: k in pending ==> IsDueRow(db.outbox[k], at);
    due := TakeRest(db, at, [], pending);
    var k :| k in pending;
    assert IsDueRow(db.outbox[k], at);
  }

  // ---------- Bills in shape ----------

  /** Kitchen progress has no part in the shape of a bill. */
  lemma ShapeOfBill(p: Payload, q: Payload)
    requires Strip(p) == Strip(q)
    ensures Acceptable(p) <==> Acceptable(q)
  {
    hide NumberAcceptable, ExactPaise, Fits, PaymentAcceptable;
    SameLineShapes(p.items, q.items);
    SameLineShapes(p.combos, q.combos);
    hide LineAcceptable;
    assert p.(items := Strip(p).items, combos := Strip(p).combos)
           == q.(items := Strip(q).items, combos := Strip(q).combos);
  }

  lemma SameLineShapes(a: seq<PayloadLine>, b: seq<PayloadLine>)
    requires StripLines(a) == StripLines(b)
    ensures |a| == |b| && forall i :: 0 <= i < |a| ==> (LineAcceptable(a[i]) <==> LineAcceptable(b[i]))
  {
    assert |StripLines(a)| == |StripLines(b)|;
    forall i | 0 <= i < |a|
      ensures LineAcceptable(a[i]) <==> LineAcceptable(b[i])
    {
      assert StripLines(a)[i] == StripLines(b)[i];
    }
  }

  /** Every bill still to be sent is in shape. */
  ghost predicate BillsInShape(db: Db) {
    forall c :: c in db.orders && OrderKey(c) in db.outbox && db.outbox[OrderKey(c)].status == Pending ==>
      Acceptable(PayloadOf(db.orders[c].order))
  }

  /** The terminal is activated and every bill still to be sent is in shape. */
  ghost predicate CanPush(db: Db) {
    db.seriesCode.Some? && BillsInShape(db)
  }

  lemma RowIsAcceptable(w: World, k: Key)
    requires WorldInv(w) && BillsInShape(w.db) && k in w.db.outbox && w.db.outbox[k].status == Pending
    ensures OpFor(w.db, k).Some? && OpAcceptable(OpFor(w.db, k).value)
  {
    hide CloudOk, FilingOk, OwnSeries, AckOk, WireOk, FlightOk, RowsOk, IdsOk, ClosedStable, FiguresOk, SeriesOk,
      TablesOk, TicketsOk, PayloadOf, Acceptable;
    if k.OrderKey? {
      assert RowAgrees(w.db, k.clientId);
    }
  }

  // ---------- The cloud answers ----------

  const WORKING := Env(false, false, false)

  /** The cloud has let the push in, and what it has answered so far it accepted. */
  ghost predicate Accepting(w: World) {
    && w.net.flight.Some? && |w.net.flight.value.answers| <= |w.net.flight.value.ops|
    && (forall i :: 0 <= i < |w.net.flight.value.ops| ==> w.net.flight.value.ops[i] in w.net.passed)
    && forall i :: 0 <= i < |w.net.flight.value.answers| ==>
         && w.net.flight.value.answers[i] in {Applied, Duplicate}
         && (w.net.flight.value.ops[i], w.net.flight.value.answers[i]) in w.net.replies
  }

  /** A cloud that works accepts whatever it has let in. */
  lemma LetInIsAccepted(w: World, op: Op)
    requires WorldInv(w) && op in w.net.passed
    ensures Ingest(w.cloud, op, WORKING).status in {Applied, Duplicate}
  {
    hide DeviceInv, CloudOk, FilingOk, OwnSeries, AckOk, FlightOk, IsBillOf, FiguresAddUp, BillConflict, InsertOrder,
      OpAcceptable;
    if op.OrderOp? {
      FiguresAlwaysAddUp(w, op.payload);
      if op.payload.clientId !in w.cloud.orders {
        NoBillConflict(w, op.payload);
      }
    }
  }

  /** Only the flight's answers have moved on. */
  ghost predicate SameFlight(w: World, n: World) {
    && n.db == w.db && n.hist == w.hist && w.net.flight.Some? && n.net.flight.Some?
    && n.net.flight.value == w.net.flight.value.(answers := n.net.flight.value.answers)
  }

  lemma HandleOne(w: World, op: Op)
    requires WorldInv(w) && Accepting(w) && |w.net.flight.value.answers| < |w.net.flight.value.ops|
    requires op == w.net.flight.value.ops[|w.net.flight.value.answers|]
    ensures Enabled(w, Handle(op, WORKING))
    ensures var n := Next(w, Handle(op, WORKING));
            && WorldInv(n) && Accepting(n) && SameFlight(w, n)
            && |n.net.flight.value.answers| == |w.net.flight.value.answers| + 1
  {
    hide DeviceInv, CloudOk, FilingOk, OwnSeries, AckOk, WireOk, Ingest;
    LetInIsAccepted(w, op);
    StepKeepsWorld(w, Handle(op, WORKING));
  }

  lemma {:induction false} AnswerAll(w: World) returns (run: seq<Action>)
    requires WorldInv(w) && Accepting(w)
    ensures Legal(w, run) && PushesOnly(run)
    ensures var n := After(w, run);
            && WorldInv(n) && Accepting(n) && SameFlight(w, n)
            && |n.net.flight.value.answers| == |n.net.flight.value.ops|
    decreases |w.net.flight.value.ops| - |w.net.flight.value.answers|
  {
    hide WorldInv, Next, Enabled;
    var f := w.net.flight.value;
    run := [];
    if |f.answers| < |f.ops| {
      var a := Handle(f.ops[|f.answers|], WORKING);
      HandleOne(w, a.op);
      var rest := AnswerAll(Next(w, a));
      OneStep(w, a);
      RunsCompose(w, [a], rest);
      run := [a] + rest;
    }
  }

  // ---------- One push, and all of them ----------

  /** Pushing loses nothing: same orders up to their sync state, same history, and no order newly refused. */
  ghost predicate NothingLost(w: World, n: World) {
    && n.hist == w.hist && n.db.orders.Keys == w.db.orders.Keys && n.db.seriesCode == w.db.seriesCode
    && (forall c :: c in n.db.orders ==> n.db.orders[c].order == w.db.orders[c].order)
    && (forall c :: c in n.db.orders && n.db.orders[c].sync == Refused ==> w.db.orders[c].sync == Refused)
  }

  lemma StillInShape(w: World, n: World)
    requires CanPush(w.db) && NothingLost(w, n) && PendingKeys(n.db.outbox) <= PendingKeys(w.db.outbox)
    ensures CanPush(n.db)
  {
    hide Acceptable, PayloadOf;
    forall c | c in n.db.orders && OrderKey(c) in n.db.outbox && n.db.outbox[OrderKey(c)].status == Pending
      ensures Acceptable(PayloadOf(n.db.orders[c].order))
    {
      assert OrderKey(c) in PendingKeys(n.db.outbox);
    }
  }

  /** Recording a fully accepted flight leaves none of its rows pending, and makes no other row pending. */
  lemma RecordedIsSettled(w: World, n: Db, f: Flight)
    requires Waits(w.db.outbox, f, 0) && |f.answers| == |f.ops| && f.due != []
    requires forall i :: 0 <= i < |f.answers| ==> f.answers[i] in {Applied, Duplicate}
    requires Recorded(w.db, n, f, |f.answers|)
    ensures PendingKeys(n.outbox) < PendingKeys(w.db.outbox)
    ensures n.orders.Keys == w.db.orders.Keys && forall c :: c in n.orders ==> n.orders[c].order == w.db.orders[c].order
    ensures forall c :: c in n.orders && n.orders[c].sync == Refused ==> w.db.orders[c].sync == Refused
  {
    assert f.due[0].key in PendingKeys(w.db.outbox) && f.due[0].key !in PendingKeys(n.outbox);
    forall k | k in PendingKeys(n.outbox)
      ensures k in PendingKeys(w.db.outbox)
    {
      assert forall i :: 0 <= i < |f.due| ==> f.due[i].key != k;
      assert n.outbox[k] == w.db.outbox[k];
    }
  }

  /** One push over a working link settles at least one pending row. */
  lemma PushOnce(w: World) returns (run: seq<Action>)
    requires WorldInv(w) && CanPush(w.db) && w.net.flight.None? && PendingKeys(w.db.outbox) != {}
    ensures Legal(w, run) && PushesOnly(run)
    ensures var n := After(w, run);
            && WorldInv(n) && CanPush(n.db) && n.net.flight.None? && NothingLost(w, n)
            && PendingKeys(n.db.outbox) < PendingKeys(w.db.outbox)
  {
    hide WorldInv, Next, Enabled, PendingKeys, NothingLost, IsBatch, Legal, After, CanPush;
    var at, due := SendSome(w);
    var sent := Next(w, Send(due, at));
    OneStep(w, Send(due, at));
    var answering := AnswerAll(sent);
    assert PushesOnly([Send(due, at)]);
    PushesCompose([Send(due, at)], answering);
    RunsCompose(w, [Send(due, at)], answering);
    var answered := After(sent, answering);
    var receive := ReceiveAll(answered);
    OneStep(answered, receive);
    assert PushesOnly([receive]);
    PushesCompose([Send(due, at)] + answering, [receive]);
    hide PushesOnly;
    RunsCompose(w, [Send(due, at)] + answering, [receive]);
    run := [Send(due, at)] + answering + [receive];
    var n := Next(answered, receive);
    assert NothingLost(w, n) by { SameOrders(w, answered, n); }
    StillInShape(w, n);
  }

  lemma SameOrders(w: World, m: World, n: World)
    requires m.db == w.db && m.hist == w.hist && NothingLost(m, n)
    ensures NothingLost(w, n)
  {}

  lemma SendSome(w: World) returns (at: Time, due: seq<Key>)
    requires WorldInv(w) && CanPush(w.db) && w.net.flight.None? && PendingKeys(w.db.outbox) != {}
    ensures Enabled(w, Send(due, at))
    ensures var n := Next(w, Send(due, at));
            && WorldInv(n) && Accepting(n) && n.db == w.db && n.hist == w.hist
            && n.net.flight.value.due != []
  {
    hide RowsOk, OutboxOk, KeysOk, ClosedStable, FiguresOk, SeriesOk, TablesOk, TicketsOk, CloudOk, FilingOk,
      OwnSeries, AckOk, WireOk, FlightOk, PendingKeys, Ops, RejectMissing, IdsOk, OpFor, OpAcceptable, BillsInShape;
    at, due := SomeBatch(w.db);
    SendKeepsWorld(w, due, at);
    StepKeepsWorld(w, Send(due, at));
    forall i | 0 <= i < |due|
      ensures OpAcceptable(Ops(w.db, due)[i])
    {
      RowIsAcceptable(w, due[i]);
    }
  }

  lemma ReceiveAll(w: World) returns (a: Action)
    requires WorldInv(w) && Accepting(w) && w.net.flight.value.due != []
    requires |w.net.flight.value.answers| == |w.net.flight.value.ops|
    ensures Enabled(w, a) && !IsLocal(a)
    ensures var n := Next(w, a);
            && WorldInv(n) && n.net.flight.None? && NothingLost(w, n)
            && PendingKeys(n.db.outbox) < PendingKeys(w.db.outbox)
  {
    hide DeviceInv, CloudOk, FilingOk, OwnSeries, AckOk, WireOk, ApplyReplies, PendingKeys, Recorded, Waits;
    var f := w.net.flight.value;
    a := Receive(f.answers, w.clock, _ => 0);
    StepKeepsWorld(w, a);
    RepliesAreRecorded(w, |f.answers|, a.at, a.backoff);
    var rs := Replies(f.ops, f.answers);
    assert rs[..|f.answers|] == rs;
    RepliesKeepSeries(w.db, f.due, rs, a.at, a.backoff);
    RecordedIsSettled(w, Next(w, a).db, f);
  }

  lemma {:induction false} Drain(w: World) returns (run: seq<Action>)
    requires WorldInv(w) && CanPush(w.db) && w.net.flight.None?
    ensures Legal(w, run) && PushesOnly(run)
    ensures var n := After(w, run);
            WorldInv(n) && NothingLost(w, n) && PendingKeys(n.db.outbox) == {}
    decreases PendingKeys(w.db.outbox)
  {
    hide WorldInv, Next, Enabled, PendingKeys, CanPush;
    run := [];
    if PendingKeys(w.db.outbox) != {} {
      var first := PushOnce(w);
      var rest := Drain(After(w, first));
      RunsCompose(w, first, rest);
      run := first + rest;
    }
  }

  /** The continuation consists of pushes and leaves nothing pending. */
  ghost predicate Drains(run: seq<Action>, more: seq<Action>)
    requires Legal(START, run)
  {
    Legal(START, run + more) && PushesOnly(more) && PendingKeys(After(START, run + more).db.outbox) == {}
  }

  /**
   On an activated terminal whose pending bills are in shape, every run can be continued by pushes
   alone until nothing is pending; then every order ever closed that the cloud had not refused is in
   the cloud, exactly as billed.
   */
  lemma EveryBillCanReachTheCloud(run: seq<Action>) returns (more: seq<Action>)
    requires Legal(START, run) && CanPush(After(START, run).db)
    ensures Drains(run, more)
    ensures var w, n := After(START, run), After(START, run + more);
            && n.hist == w.hist
            && forall c :: c in w.hist.closed && !(c in w.db.orders && w.db.orders[c].sync == Refused) ==>
                 c in n.cloud.orders && SameBill(n.cloud.orders[c], w.hist.closed[c])
  {
    hide WorldInv, Next, Enabled, SameBill, CanPush;
    Reached(run);
    var w := After(START, run);
    var lost := LoseFlight(w);
    OneStep(w, Lose);
    var pushes := Drain(lost);
    RunsCompose(w, [Lose], pushes);
    more := [Lose] + pushes;
    RunsCompose(START, run, more);
    var n := After(START, run + more);
    ExactlyOnceSync(run + more);
    forall c | c in w.hist.closed && c !in n.cloud.orders
      ensures c in w.db.orders && w.db.orders[c].sync == Refused
    {
      assert OrderKey(c) !in PendingKeys(n.db.outbox);
    }
  }

  lemma LoseFlight(w: World) returns (n: World)
    requires WorldInv(w)
    ensures Enabled(w, Lose) && n == Next(w, Lose)
    ensures WorldInv(n) && n.net.flight.None? && n.db == w.db && n.hist == w.hist
  {
    hide DeviceInv, CloudOk, FilingOk, OwnSeries, AckOk, WireOk, FlightOk;
    n := Next(w, Lose);
    StepKeepsWorld(w, Lose);
  }

  // ---------- Bills out of shape ----------

  /** A closed bill that is out of shape waits in the outbox. */
  ghost predicate Stuck(w: World, c: ClientId) {
    && OrderKey(c) in w.db.outbox && w.db.outbox[OrderKey(c)].status == Pending
    && c in w.hist.closed && !Acceptable(PayloadOf(w.hist.closed[c]))
  }

  lemma OtherRowStays(db: Db, e: DueRow, s: OpStatus, now: Time, backoff: nat -> int, k: Key)
    requires k in db.outbox && e.key != k
    ensures var n := ApplyReply(db, e, s, now, backoff);
            k in n.outbox && n.outbox[k] == db.outbox[k]
  {
    hide FinalStatus, FinalSync;
    var n := ApplyReply(db, e, s, now, backoff).outbox;
    assert n == db.outbox || (e.key in db.outbox && n == db.outbox[e.key := n[e.key]]);
    hide ApplyReply;
  }

  /** A response touches no row outside its batch. */
  lemma {:induction false} OtherRowsStay(
    db: Db, due: seq<DueRow>, rs: seq<Reply>, now: Time, backoff: nat -> int, k: Key)
    requires k in db.outbox && forall i :: 0 <= i < |due| ==> due[i].key != k
    ensures var n := ApplyReplies(db, due, rs, now, backoff);
            k in n.outbox && n.outbox[k] == db.outbox[k]
  {
    hide ApplyReply, FindDue;
    if rs != [] {
      OtherRowsStay(db, due, rs[..|rs| - 1], now, backoff, k);
      var before, e := ApplyReplies(db, due, rs[..|rs| - 1], now, backoff), FindDue(due, rs[|rs| - 1].key);
      EdgeEngine.FoundIsDue(due, rs[|rs| - 1].key);
      if e.Some? {
        OtherRowStays(before, e.value, rs[|rs| - 1].status, now, backoff, k);
      }
    }
  }

  /** The cloud lets no bill in that is out of shape. */
  lemma LetInIsInShape(w: World, op: Op, c: ClientId)
    requires WorldInv(w) && op in w.net.passed && op.OrderOp? && op.payload.clientId == c
    ensures c in w.hist.closed && Acceptable(PayloadOf(w.hist.closed[c]))
  {
    hide DeviceInv, CloudOk, FilingOk, OwnSeries, AckOk, FlightOk, Acceptable, PayloadOf, Strip;
    assert OpAcceptable(op) && IsBillOf(op.payload, w.hist);
    ShapeOfBill(op.payload, PayloadOf(w.hist.closed[c]));
  }

  lemma AnsweredIsLetIn(net: Net, cloud: Cloud, h: History, op: Op, s: OpStatus)
    requires WireOk(net, cloud, h) && (op, s) in net.replies
    ensures op in net.passed
  {}

  lemma StuckIsNoneOf(w: World, c: ClientId, f: Flight, i: nat, s: OpStatus)
    requires WorldInv(w) && Stuck(w, c) && Waits(w.db.outbox, f, 0) && i < |f.due| && (f.ops[i], s) in w.net.replies
    ensures f.due[i].key != OrderKey(c)
  {
    hide Acceptable, PayloadOf, DeviceInv, CloudOk, FilingOk, OwnSeries, AckOk, WireOk, FlightOk;
    assert KeyOf(f.ops[i]) == f.due[i].key;
    AnsweredIsLetIn(w.net, w.cloud, w.hist, f.ops[i], s);
    if f.ops[i].OrderOp? {
      LetInIsInShape(w, f.ops[i], f.ops[i].payload.clientId);
    }
  }

  lemma FlightWaits(w: World)
    requires WorldInv(w) && w.net.flight.Some?
    ensures Waits(w.db.outbox, w.net.flight.value, 0) && |w.net.flight.value.due| == |w.net.flight.value.ops|
  {
    hide DeviceInv, CloudOk, FilingOk, OwnSeries, AckOk, WireOk;
  }

  /** No response can answer a flight that carries a bill out of shape. */
  lemma StuckIsNotAnswered(w: World, c: ClientId, f: Flight, statuses: seq<OpStatus>)
    requires WorldInv(w) && Stuck(w, c) && w.net.flight == Some(f) && |statuses| == |f.ops|
    requires forall i :: 0 <= i < |statuses| ==> (f.ops[i], statuses[i]) in w.net.replies
    ensures forall i :: 0 <= i < |f.due| ==> f.due[i].key != OrderKey(c)
  {
    hide WorldInv, Stuck, Waits;
    FlightWaits(w);
    forall i | 0 <= i < |f.due|
      ensures f.due[i].key != OrderKey(c)
    {
      StuckIsNoneOf(w, c, f, i, statuses[i]);
    }
  }

  lemma StuckStays(w: World, a: Action, c: ClientId)
    requires WorldInv(w) && Stuck(w, c) && Enabled(w, a)
    ensures Stuck(Next(w, a), c)
  {
    hide DeviceInv, CloudOk, FilingOk, OwnSeries, AckOk, WireOk, FlightOk, Acceptable, PayloadOf, LocalNext, Ops,
      RequestAcceptable, Ingest, ApplyReplies, RejectMissing;
    if IsLocal(a) {
      LocalSync(w, a);
    } else if a.Send? {
      SendKeepsWorld(w, a.due, a.at);
    } else if a.Receive? {
      var f := w.net.flight.value;
      StuckIsNotAnswered(w, c, f, a.statuses);
      OtherRowsStay(w.db, f.due, Replies(f.ops, a.statuses), a.at, a.backoff, OrderKey(c));
    }
  }

  /** Whatever happens next, on the till, in the kitchen or on the link, the bill stays in the outbox. */
  lemma {:induction false} StuckForEver(w: World, run: seq<Action>, c: ClientId)
    requires WorldInv(w) && Stuck(w, c) && Legal(w, run)
    ensures Stuck(After(w, run), c)
    decreases |run|
  {
    hide WorldInv, Stuck, Next, Enabled;
    if run != [] {
      StuckStays(w, run[0], c);
      StepKeepsWorld(w, run[0]);
      StuckForEver(Next(w, run[0]), run[1..], c);
    }
  }

  /** A terminal that was never activated sends nothing. */
  lemma {:induction false} IdleUntilActivated(w: World, run: seq<Action>)
    requires WorldInv(w) && w.db.seriesCode.None? && Legal(w, run) && PushesOnly(run)
    ensures After(w, run).db == w.db
    decreases |run|
  {
    hide DeviceInv, CloudOk, FilingOk, OwnSeries, AckOk, WireOk, Ingest, ApplyReplies, RequestAcceptable;
    if run != [] {
      assert Enabled(w, run[0]) && !IsLocal(run[0]);
      StepKeepsWorld(w, run[0]);
      hide WorldInv;
      IdleUntilActivated(Next(w, run[0]), run[1..]);
    }
  }

  /** A pending bill out of shape is stuck. */
  lemma OutOfShapeIsStuck(w: World, c: ClientId)
    requires WorldInv(w) && OrderKey(c) in w.db.outbox && w.db.outbox[OrderKey(c)].status == Pending
    ensures c in w.db.orders
    ensures !Acceptable(PayloadOf(w.db.orders[c].order)) ==> Stuck(w, c)
  {
    hide CloudOk, FilingOk, OwnSeries, AckOk, WireOk, FlightOk, IdsOk, KeysOk, FiguresOk, SeriesOk, TablesOk,
      TicketsOk, Acceptable, PayloadOf, Strip, SameExceptPrep;
    assert RowAgrees(w.db, c);
    PayloadIsStable(w.db.orders[c].order, w.hist.closed[c]);
    ShapeOfBill(PayloadOf(w.db.orders[c].order), PayloadOf(w.hist.closed[c]));
  }

  lemma SplitLegal(w: World, a: seq<Action>, b: seq<Action>)
    requires Legal(w, a + b)
    ensures Legal(w, a) && Legal(After(w, a), b) && After(w, a + b) == After(After(w, a), b)
    decreases |a|
  {
    hide Next, Enabled;
    if a == [] {
      assert a + b == b;
    } else {
      assert (a + b)[1..] == a[1..] + b;
      SplitLegal(Next(w, a[0]), a[1..], b);
    }
  }

  lemma DrainingNeedsShape(run: seq<Action>, more: seq<Action>)
    requires Legal(START, run) && Drains(run, more)
    ensures PendingKeys(After(START, run).db.outbox) == {} || CanPush(After(START, run).db)
  {
    hide WorldInv, Next, Enabled, Acceptable, PayloadOf, Legal, After;
    Reached(run);
    SplitLegal(START, run, more);
    var w, n := After(START, run), After(START, run + more);
    if w.db.seriesCode.None? {
      IdleUntilActivated(w, more);
    } else {
      forall c | c in w.db.orders && OrderKey(c) in w.db.outbox && w.db.outbox[OrderKey(c)].status == Pending
        ensures Acceptable(PayloadOf(w.db.orders[c].order))
      {
        OutOfShapeIsStuck(w, c);
        if Stuck(w, c) {
          StuckForEver(w, more, c);
          assert OrderKey(c) !in PendingKeys(n.db.outbox);
        }
      }
    }
  }

  /**
   The outbox of a terminal can be drained by pushes exactly when nothing is pending, or the terminal
   is activated and every pending bill is in shape.
   */
  lemma DrainableIff(run: seq<Action>)
    requires Legal(START, run)
    ensures (exists more :: Drains(run, more)) <==>
              PendingKeys(After(START, run).db.outbox) == {} || CanPush(After(START, run).db)
  {
    hide Drains, CanPush, PendingKeys, Legal, After;
    if more :| Drains(run, more) {
      DrainingNeedsShape(run, more);
    }
    if CanPush(After(START, run).db) {
      var more := EveryBillCanReachTheCloud(run);
    } else if PendingKeys(After(START, run).db.outbox) == {} {
      NothingToDrain(run);
    }
  }

  lemma NothingToDrain(run: seq<Action>)
    requires Legal(START, run) && PendingKeys(After(START, run).db.outbox) == {}
    ensures Drains(run, [])
  {
    hide Legal, After;
    assert run + [] == run;
  }
}
