/** The link's own actions: taking a batch, ingesting an operation, recording a response, losing one. */
module EdgeLink {
  import opened Options
  import opened BillNumber
  import opened EdgeModel
  import opened EdgeWorld
  import opened EdgeInvariant
  import opened EdgeDevice
  import opened EdgePayload
  import opened EdgeSync

  // ---------- Taking a batch ----------

  /** A pending order row always has its order, so the "order missing locally" branch never runs. */
  lemma NothingMissing(db: Db, due: seq<Key>)
    requires OutboxOk(db)
    requires forall i :: 0 <= i < |due| ==> due[i] in db.outbox && db.outbox[due[i]].status == Pending
    ensures RejectMissing(db, due) == db
    ensures forall i :: 0 <= i < |due| ==> OpFor(db, due[i]).Some?
  {
    forall k | k in due && k.OrderKey?
      ensures k.clientId in db.orders
    {
      assert RowAgrees(db, k.clientId);
    }
    assert RejectMissing(db, due).outbox == db.outbox;
  }

  lemma {:induction false} OpsMatchBatch(db: Db, due: seq<Key>)
    requires forall i :: 0 <= i < |due| ==> due[i] in db.outbox && OpFor(db, due[i]).Some?
    ensures |Ops(db, due)| == |due|
    ensures forall i :: 0 <= i < |due| ==> Ops(db, due)[i] == OpFor(db, due[i]).value
  {
    hide PayloadOf;
    if due != [] {
      OpsMatchBatch(db, due[..|due| - 1]);
    }
  }

  lemma OpFacts(db: Db, cloud: Cloud, h: History, k: Key)
    requires RowsOk(db, h) && OutboxOk(db) && ClosedStable(db, h) && AckOk(db, cloud, h)
    requires k in db.outbox && db.outbox[k].status == Pending && OpFor(db, k).Some?
    ensures var op := OpFor(db, k).value;
            && KeyOf(op) == k
            && (op.OrderOp? ==> IsBillOf(op.payload, h) && op.payload == PayloadOf(db.orders[k.clientId].order))
            && (op.KotOp? ==> op.clientId in cloud.orders)
  {
    hide Strip, SameExceptPrep, LinesOfKind;
    if k.OrderKey? {
      var c := k.clientId;
      assert RowAgrees(db, c);
      PayloadIsStable(db.orders[c].order, h.closed[c]);
    }
  }

  lemma BatchIsDistinct(outbox: map<Key, OutboxRow>, now: Time, due: seq<Key>)
    requires IsBatch(outbox, now, due)
    ensures forall i, j :: 0 <= i < j < |due| ==> due[i] != due[j]
  {}

  lemma SendKeepsWorld(w: World, due: seq<Key>, at: Time)
    requires WorldInv(w) && Enabled(w, Send(due, at))
    ensures WorldInv(SendNext(w, due))
    ensures SendNext(w, due).db == w.db
    ensures |Ops(w.db, due)| == |due|
    ensures forall i :: 0 <= i < |due| ==> OpFor(w.db, due[i]) == Some(Ops(w.db, due)[i])
  {
    hide CloudOk, FilingOk, OwnSeries, AckOk, IdsOk, KeysOk, FiguresOk, SeriesOk, TablesOk, TicketsOk, RejectMissing,
      OpFor, Ops, IsBillOf, RowsOk, OutboxOk, ClosedStable;
    var n := SendNext(w, due);
    NothingMissing(w.db, due);
    OpsMatchBatch(w.db, due);
    BatchIsDistinct(w.db.outbox, at, due);
    forall i | 0 <= i < |due|
      ensures var op := Ops(w.db, due)[i];
              && KeyOf(op) == due[i] && (op.OrderOp? ==> IsBillOf(op.payload, w.hist))
              && (op.KotOp? ==> op.clientId in w.cloud.orders)
    {
      OpFacts(w.db, w.cloud, w.hist, due[i]);
    }
  }

  /** A push that has nothing to ask sends nothing and leaves nothing under way. */
  lemma PushAsksSomething(w: World, due: seq<Key>, at: Time)
    requires Enabled(w, Send(due, at))
    ensures var n := Next(w, Send(due, at)).net;
            && (n.flight.Some? <==> Ops(w.db, due) != [])
            && (Ops(w.db, due) == [] ==> n == w.net)
  {
    hide Ops, RejectMissing, IsBatch;
  }

  // ---------- Ingesting an operation ----------

  /** The device's invoice number is always usable: its own series, its own text, never taken. */
  lemma NoBillConflict(w: World, p: Payload)
    requires WorldInv(w) && IsBillOf(p, w.hist) && p.clientId !in w.cloud.orders
    ensures !BillConflict(w.cloud, p)
    ensures p.billNo == w.hist.closed[p.clientId].billNo && p.status == w.hist.closed[p.clientId].status
    ensures p.billNumber == PrintedNumber(w.hist.closed[p.clientId])
    ensures p.billNo.Some? ==> p.status == Settled && p.billNumber.Some?
  {
    hide CloudOk, AckOk, WireOk, FlightOk, RowsOk, OutboxOk, IdsOk, KeysOk, TablesOk, TicketsOk, StripLines,
      LinesOfKind, TotalsFor, WellFormedSeries, WellFormedYear, PrintedNumber, NumberText, Paid;
    var c := p.clientId;
    var o, cloud := w.hist.closed[c], w.cloud;
    assert p.billNo == Strip(p).billNo == Strip(PayloadOf(o)).billNo;
    assert p.billNumber == Strip(p).billNumber == Strip(PayloadOf(o)).billNumber;
    assert p.status == Strip(p).status == Strip(PayloadOf(o)).status;
    if o.billNo.Some? {
      var b := o.billNo.value;
      assert ReceiptOk(o);
      assert w.hist.issued[b] == c;
      var number := p.billNumber.value;
      if number in cloud.invoices {
        var d := cloud.invoices[number];
        assert ReceiptOk(w.hist.closed[d]);
        NumbersAreInjective(b, w.hist.closed[d].billNo.value);
      }
    }
  }

  /** The figures of a closed bill never make the cloud refuse it. */
  lemma FiguresAlwaysAddUp(w: World, p: Payload)
    requires WorldInv(w) && IsBillOf(p, w.hist)
    ensures FiguresAddUp(p)
  {
    hide CloudOk, FilingOk, OwnSeries, AckOk, WireOk, FlightOk, RowsOk, OutboxOk, IdsOk, KeysOk, ClosedStable,
      SeriesOk, TablesOk, TicketsOk, FiguresAddUp, ClosedFigures, Strip, PayloadOf;
    ClosedFiguresAddUp(w.hist.closed[p.clientId]);
    StripKeepsFigures(p, PayloadOf(w.hist.closed[p.clientId]));
  }

  lemma InsertKeepsLog(cloud: Cloud, h: History, p: Payload)
    requires CloudOk(cloud, h) && IsBillOf(p, h) && p.clientId !in cloud.orders
    ensures CloudOk(InsertOrder(cloud, p), h)
  {
    hide IsBillOf, BillConflict;
    assert p.clientId !in cloud.log;
  }

  lemma InsertKeepsFiling(w: World, p: Payload)
    requires WorldInv(w) && IsBillOf(p, w.hist) && p.clientId !in w.cloud.orders
    ensures FilingOk(InsertOrder(w.cloud, p), w.hist)
  {
    hide DeviceInv, CloudOk, AckOk, WireOk, FlightOk, OwnSeries, FilingOk, BillConflict;
    NoBillConflict(w, p);
    NewBillIsFiled(w.cloud, w.hist, p);
  }

  lemma NewBillIsFiled(cloud: Cloud, h: History, p: Payload)
    requires FilingOk(cloud, h) && p.clientId in h.closed && p.clientId !in cloud.orders && !BillConflict(cloud, p)
    requires var o := h.closed[p.clientId];
             && p.billNo == o.billNo && p.billNumber == PrintedNumber(o)
             && (p.billNo.Some? ==> p.status == Settled && p.billNumber.Some?)
    ensures FilingOk(InsertOrder(cloud, p), h)
  {
    hide PrintedNumber, BillConflict, FilingOk;
    var n, c := InsertOrder(cloud, p), p.clientId;
    if p.billNo.Some? {
      NumberedIsFiled(cloud, n, h, c, p.billNo.value, p.billNumber.value);
    } else {
      UnnumberedIsFiled(cloud, n, h, c);
    }
  }

  lemma NumberedIsFiled(cloud: Cloud, n: Cloud, h: History, c: ClientId, b: BillNo, number: string)
    requires FilingOk(cloud, h) && c in h.closed && c !in cloud.orders
    requires h.closed[c].billNo == Some(b) && PrintedNumber(h.closed[c]) == Some(number)
    requires n.orders.Keys == cloud.orders.Keys + {c} && n.filed == cloud.filed[c := DeviceNumber(number)]
    requires n.sequences == cloud.sequences[b := c] && n.invoices == cloud.invoices[number := c]
    ensures FilingOk(n, h)
  {
    hide PrintedNumber, NumbersFiled, SequencesFiled, InvoicesFiled;
    NumberIsFiled(cloud, n, h, c, number);
    SequenceIsFiled(cloud, n, h, c, b);
    InvoiceIsFiled(cloud, n, h, c, number);
  }

  lemma NumberIsFiled(cloud: Cloud, n: Cloud, h: History, c: ClientId, number: string)
    requires NumbersFiled(cloud, h) && c in h.closed && PrintedNumber(h.closed[c]) == Some(number)
    requires n.orders.Keys == cloud.orders.Keys + {c} && n.filed == cloud.filed[c := DeviceNumber(number)]
    ensures NumbersFiled(n, h)
  {
    hide PrintedNumber;
  }

  lemma SequenceIsFiled(cloud: Cloud, n: Cloud, h: History, c: ClientId, b: BillNo)
    requires SequencesFiled(cloud, h) && c in h.closed && h.closed[c].billNo == Some(b)
    requires n.orders.Keys == cloud.orders.Keys + {c} && n.sequences == cloud.sequences[b := c]
    ensures SequencesFiled(n, h)
  {}

  lemma InvoiceIsFiled(cloud: Cloud, n: Cloud, h: History, c: ClientId, number: string)
    requires InvoicesFiled(cloud, h) && c in h.closed && h.closed[c].billNo.Some?
    requires PrintedNumber(h.closed[c]) == Some(number)
    requires n.orders.Keys == cloud.orders.Keys + {c} && n.invoices == cloud.invoices[number := c]
    ensures InvoicesFiled(n, h)
  {
    hide PrintedNumber;
  }

  lemma UnnumberedIsFiled(cloud: Cloud, n: Cloud, h: History, c: ClientId)
    requires FilingOk(cloud, h) && c in h.closed && c !in cloud.orders && h.closed[c].billNo.None?
    requires n.orders.Keys == cloud.orders.Keys + {c} && c in n.filed && n.filed == cloud.filed[c := n.filed[c]]
    requires n.sequences == cloud.sequences && n.invoices == cloud.invoices
    ensures FilingOk(n, h)
  {
    hide PrintedNumber;
  }

  lemma KitchenKeepsCloud(cloud: Cloud, h: History, c: ClientId, lines: seq<KotLine>)
    requires CloudOk(cloud, h) && FilingOk(cloud, h) && c in cloud.orders
    ensures CloudOk(cloud.(orders := cloud.orders[c := ApplyKot(cloud.orders[c], lines)]), h)
    ensures FilingOk(cloud.(orders := cloud.orders[c := ApplyKot(cloud.orders[c], lines)]), h)
  {
    hide ApplyKot, Strip, PayloadOf, PrintedNumber;
    KitchenUpdateKeepsBill(cloud.orders[c], lines);
    assert ApplyKot(cloud.orders[c], lines).clientId == c by { KitchenKeepsClient(cloud.orders[c], lines); }
  }

  lemma KitchenKeepsClient(p: Payload, lines: seq<KotLine>)
    ensures ApplyKot(p, lines).clientId == p.clientId
  {
    hide StripLines;
    KitchenUpdateKeepsBill(p, lines);
    assert Strip(ApplyKot(p, lines)).clientId == Strip(p).clientId;
  }

  lemma IngestKeepsCloud(w: World, op: Op, env: Env)
    requires WorldInv(w) && op in w.net.wire
    ensures var r := Ingest(w.cloud, op, env);
            && CloudOk(r.cloud, w.hist) && FilingOk(r.cloud, w.hist) && r.cloud.series == w.cloud.series
            && w.cloud.orders.Keys <= r.cloud.orders.Keys
            && (op.OrderOp? && r.status in {Applied, Duplicate, Conflict} ==> op.payload.clientId in r.cloud.orders)
  {
    hide DeviceInv, CloudOk, FilingOk, OwnSeries, AckOk, FlightOk, IsBillOf, FiguresAddUp, BillConflict, ApplyKot;
    match op
    case OrderOp(p) =>
      if p.clientId !in w.cloud.orders {
        InsertKeepsLog(w.cloud, w.hist, p);
        InsertKeepsFiling(w, p);
        InsertGrows(w.cloud, p);
      }
    case KotOp(c, _, lines) => KitchenKeepsCloud(w.cloud, w.hist, c, lines);
  }

  lemma InsertGrows(cloud: Cloud, p: Payload)
    ensures InsertOrder(cloud, p).orders == cloud.orders[p.clientId := p]
    ensures InsertOrder(cloud, p).series == cloud.series
  {}

  lemma HandleKeepsWorld(w: World, op: Op, env: Env)
    requires WorldInv(w) && op in w.net.passed
    ensures WorldInv(HandleNext(w, op, env))
  {
    hide DeviceInv, CloudOk, FilingOk, Ingest, IsBillOf, OpAcceptable;
    IngestKeepsCloud(w, op, env);
  }

  // ---------- Recording a response ----------

  /** The tables a reply touches: one outbox row, and the sync state of its order. */
  ghost predicate Answers(db: Db, n: Db, k: Key, row: OutboxRow, sync: SyncState) {
    && k in db.outbox && db.outbox[k].status == Pending && row.id == db.outbox[k].id && row.lines == db.outbox[k].lines
    && n.outbox == db.outbox[k := row]
    && n == db.(outbox := n.outbox, orders := n.orders)
    && (if k.OrderKey? && row.status != Pending then
          && k.clientId in db.orders && n.orders == db.orders[k.clientId := db.orders[k.clientId].(sync := sync)]
          && (row.status == Done ==> sync == Synced) && (row.status == Conflicted ==> sync == Flagged)
          && (row.status == Rejected ==> sync == Refused)
        else n.orders == db.orders)
  }

  lemma AnswerKeepsRows(db: Db, n: Db, h: History, k: Key, row: OutboxRow, sync: SyncState)
    requires Answers(db, n, k, row, sync) && RowsOk(db, h) && OutboxOk(db) && IdsOk(db) && KeysOk(db, h)
    ensures RowsOk(n, h) && IdsOk(n) && KeysOk(n, h)
  {
    hide RowsOk, OutboxOk;
    AnswerKeepsOrders(db, n, h, k, row, sync);
  }

  lemma AnswerKeepsOrders(db: Db, n: Db, h: History, k: Key, row: OutboxRow, sync: SyncState)
    requires Answers(db, n, k, row, sync) && RowsOk(db, h) && OutboxOk(db)
    ensures RowsOk(n, h)
  {
    assert k.OrderKey? ==> RowAgrees(db, k.clientId);
  }

  lemma AnswerKeepsOutbox(db: Db, n: Db, h: History, k: Key, row: OutboxRow, sync: SyncState)
    requires Answers(db, n, k, row, sync) && RowsOk(db, h) && OutboxOk(db)
    ensures OutboxOk(n)
  {
    assert k.OrderKey? ==> RowAgrees(db, k.clientId);
    forall c | OrderKey(c) in n.outbox
      ensures RowAgrees(n, c)
    {
      assert RowAgrees(db, c);
    }
  }

  lemma AnswerKeepsRest(db: Db, n: Db, h: History, k: Key, row: OutboxRow, sync: SyncState)
    requires Answers(db, n, k, row, sync)
    requires ClosedStable(db, h) && FiguresOk(db, h) && SeriesOk(db, h) && TablesOk(db) && TicketsOk(db, h)
    ensures ClosedStable(n, h) && FiguresOk(n, h) && SeriesOk(n, h) && TablesOk(n) && TicketsOk(n, h)
  {
    hide SameExceptPrep, OpenFigures, ClosedFigures, ReceiptOk, WellFormedSeries, TicketsOk;
    AnswerKeepsTickets(db, n, h, k, row, sync);
    assert n.orders.Keys == db.orders.Keys;
    assert forall c :: c in n.orders ==> n.orders[c].order == db.orders[c].order;
  }

  lemma AnswerKeepsTickets(db: Db, n: Db, h: History, k: Key, row: OutboxRow, sync: SyncState)
    requires Answers(db, n, k, row, sync) && TicketsOk(db, h)
    ensures TicketsOk(n, h)
  {
    hide TicketMatches, LinesNumbered;
    assert n.orders.Keys == db.orders.Keys;
    assert forall c :: c in n.orders ==> n.orders[c].order == db.orders[c].order;
  }

  lemma AnswerKeepsAck(db: Db, n: Db, cloud: Cloud, h: History, k: Key, row: OutboxRow, sync: SyncState)
    requires Answers(db, n, k, row, sync) && AckOk(db, cloud, h)
    requires k.OrderKey? && row.status in {Done, Conflicted} ==> k.clientId in cloud.orders
    ensures AckOk(n, cloud, h)
  {
    assert n.orders.Keys == db.orders.Keys;
  }

  lemma ReplyAnswers(db: Db, e: DueRow, s: OpStatus, now: Time, backoff: nat -> int)
    requires OutboxOk(db) && e.key in db.outbox && db.outbox[e.key].id == e.id && db.outbox[e.key].status == Pending
    ensures var n := ApplyReply(db, e, s, now, backoff);
            && e.key in n.outbox
            && Answers(db, n, e.key, n.outbox[e.key], FinalSync(s))
            && n.outbox[e.key].lines == db.outbox[e.key].lines
            && (s == Retry <==> n.outbox[e.key].status == Pending)
            && (s == Retry ==> n.outbox[e.key].nextAttemptAt == now + backoff(e.attempts + 1))
            && (s != Retry ==> n.outbox[e.key].status == FinalStatus(s))
  {
    assert e.key.OrderKey? ==> RowAgrees(db, e.key.clientId);
  }

  /** Recording an answer for a row that waits keeps the invariant of the terminal, whatever the answer. */
  lemma ReplyKeepsDevice(db: Db, h: History, e: DueRow, s: OpStatus, now: Time, backoff: nat -> int)
    requires DeviceInv(db, h)
    requires e.key in db.outbox && db.outbox[e.key].id == e.id && db.outbox[e.key].status == Pending
    ensures DeviceInv(ApplyReply(db, e, s, now, backoff), h)
  {
    hide RowsOk, OutboxOk, IdsOk, KeysOk, ClosedStable, FiguresOk, SeriesOk, TablesOk, TicketsOk, ApplyReply, Answers;
    ReplyAnswers(db, e, s, now, backoff);
    var n := ApplyReply(db, e, s, now, backoff);
    var row := n.outbox[e.key];
    AnswerKeepsRows(db, n, h, e.key, row, FinalSync(s));
    AnswerKeepsOutbox(db, n, h, e.key, row, FinalSync(s));
    AnswerKeepsRest(db, n, h, e.key, row, FinalSync(s));
  }

  lemma ReplyKeeps(db: Db, cloud: Cloud, h: History, e: DueRow, s: OpStatus, now: Time, backoff: nat -> int)
    requires DeviceInv(db, h) && AckOk(db, cloud, h)
    requires e.key in db.outbox && db.outbox[e.key].id == e.id && db.outbox[e.key].status == Pending
    requires e.key.OrderKey? && s in {Applied, Duplicate, Conflict} ==> e.key.clientId in cloud.orders
    ensures DeviceInv(ApplyReply(db, e, s, now, backoff), h)
    ensures AckOk(ApplyReply(db, e, s, now, backoff), cloud, h)
  {
    hide RowsOk, OutboxOk, IdsOk, KeysOk, ClosedStable, FiguresOk, SeriesOk, TablesOk, TicketsOk, AckOk, ApplyReply,
      Answers;
    ReplyKeepsDevice(db, h, e, s, now, backoff);
    ReplyAnswers(db, e, s, now, backoff);
    var n := ApplyReply(db, e, s, now, backoff);
    AnswerKeepsAck(db, n, cloud, h, e.key, n.outbox[e.key], FinalSync(s));
  }

  lemma {:induction false} FindDueAt(due: seq<DueRow>, i: nat)
    requires i < |due| && forall p, q :: 0 <= p < q < |due| ==> due[p].key != due[q].key
    ensures FindDue(due, due[i].key) == Some(due[i])
  {
    if i < |due| - 1 {
      FindDueAt(due[..|due| - 1], i);
    }
  }

  /** Recording the first `m` answers of a response keeps everything, and leaves the other rows waiting. */
  lemma {:induction false} RepliesKeep(w: World, statuses: seq<OpStatus>, m: nat, now: Time, backoff: nat -> int)
    requires WorldInv(w) && Enabled(w, Receive(statuses, now, backoff)) && m <= |statuses|
    ensures var f := w.net.flight.value;
            var db := ApplyReplies(w.db, f.due, Replies(f.ops, statuses)[..m], now, backoff);
            DeviceInv(db, w.hist) && AckOk(db, w.cloud, w.hist) && Waits(db.outbox, f, m)
  {
    hide DeviceInv, CloudOk, FilingOk, OwnSeries, AckOk, ApplyReply, Ingest;
    var f := w.net.flight.value;
    var rs := Replies(f.ops, statuses);
    if m > 0 {
      var before := ApplyReplies(w.db, f.due, rs[..m - 1], now, backoff);
      RepliesKeep(w, statuses, m - 1, now, backoff);
      assert rs[..m][..m - 1] == rs[..m - 1];
      var e := f.due[m - 1];
      FindDueAt(f.due, m - 1);
      assert (f.ops[m - 1], statuses[m - 1]) in w.net.replies;
      ReplyKeeps(before, w.cloud, w.hist, e, statuses[m - 1], now, backoff);
      ReplyWaits(before, w.hist, f, m - 1, statuses[m - 1], now, backoff);
    }
  }

  lemma ReplyWaits(db: Db, h: History, f: Flight, m: nat, s: OpStatus, now: Time, backoff: nat -> int)
    requires DeviceInv(db, h) && Waits(db.outbox, f, m) && m < |f.due|
    ensures Waits(ApplyReply(db, f.due[m], s, now, backoff).outbox, f, m + 1)
  {
    hide RowsOk, OutboxOk, IdsOk, KeysOk, ClosedStable, FiguresOk, SeriesOk, TablesOk, TicketsOk, ApplyReply;
    ReplyAnswers(db, f.due[m], s, now, backoff);
  }

  lemma ReceiveKeepsWorld(w: World, statuses: seq<OpStatus>, now: Time, backoff: nat -> int)
    requires WorldInv(w) && Enabled(w, Receive(statuses, now, backoff))
    ensures WorldInv(ReceiveNext(w, statuses, now, backoff))
  {
    hide DeviceInv, CloudOk, FilingOk, AckOk, ApplyReplies, Waits;
    var f := w.net.flight.value;
    var rs := Replies(f.ops, statuses);
    RepliesKeep(w, statuses, |statuses|, now, backoff);
    assert rs[..|statuses|] == rs;
    RepliesKeepSeries(w.db, f.due, rs, now, backoff);
  }

  lemma ReplyKeepsSeries(db: Db, e: DueRow, s: OpStatus, now: Time, backoff: nat -> int)
    ensures ApplyReply(db, e, s, now, backoff).seriesCode == db.seriesCode
  {}

  lemma {:induction false} RepliesKeepSeries(db: Db, due: seq<DueRow>, rs: seq<Reply>, now: Time, backoff: nat -> int)
    ensures ApplyReplies(db, due, rs, now, backoff).seriesCode == db.seriesCode
  {
    hide ApplyReply, FindDue;
    if rs != [] {
      RepliesKeepSeries(db, due, rs[..|rs| - 1], now, backoff);
      var before, e := ApplyReplies(db, due, rs[..|rs| - 1], now, backoff), FindDue(due, rs[|rs| - 1].key);
      if e.Some? {
        ReplyKeepsSeries(before, e.value, rs[|rs| - 1].status, now, backoff);
      }
    }
  }

  // ---------- Every action ----------

  lemma StartWorld()
    ensures WorldInv(START)
  {
    hide DeviceInv;
    StartIsGood();
  }

  lemma ClockIsFree(w: World, t: Time)
    requires WorldInv(w)
    ensures WorldInv(w.(clock := t))
  {
    hide DeviceInv, CloudOk, FilingOk, OwnSeries, AckOk, WireOk, FlightOk;
  }

  lemma StepKeepsWorld(w: World, a: Action)
    requires WorldInv(w) && Enabled(w, a)
    ensures WorldInv(Next(w, a))
  {
    hide LocalNext, SendNext, HandleNext, ReceiveNext, DeviceInv, CloudOk, FilingOk, OwnSeries, AckOk, WireOk;
    if IsLocal(a) {
      LocalKeepsWorld(w, a);
      ClockIsFree(LocalNext(w, a), TimeOf(a, w.clock));
    } else {
      match a
      case Send(due, at) =>
        SendKeepsWorld(w, due, at);
        ClockIsFree(SendNext(w, due), TimeOf(a, w.clock));
      case Handle(op, env) =>
        HandleKeepsWorld(w, op, env);
        ClockIsFree(HandleNext(w, op, env), TimeOf(a, w.clock));
      case Receive(statuses, at, backoff) =>
        ReceiveKeepsWorld(w, statuses, at, backoff);
        ClockIsFree(ReceiveNext(w, statuses, at, backoff), TimeOf(a, w.clock));
      case Lose =>
        LoseKeepsWorld(w);
        ClockIsFree(w.(net := w.net.(flight := None)), TimeOf(a, w.clock));
    }
  }

  lemma LoseKeepsWorld(w: World)
    requires WorldInv(w)
    ensures WorldInv(w.(net := w.net.(flight := None)))
  {
    hide DeviceInv, CloudOk, FilingOk, OwnSeries, AckOk, IsBillOf;
  }

  /** Every run from a fresh terminal keeps the invariant. */
  lemma {:induction false} RunsKeepWorld(w: World, run: seq<Action>)
    requires WorldInv(w) && Legal(w, run)
    ensures WorldInv(After(w, run))
    decreases |run|
  {
    hide WorldInv, Next;
    if run != [] {
      StepKeepsWorld(w, run[0]);
      RunsKeepWorld(Next(w, run[0]), run[1..]);
    }
  }
}
