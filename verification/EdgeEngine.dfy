/**
 The terminal's engine: an object whose methods update the tables of its database.  Every public
 method is one transaction, proved against the transaction function of the same name; a transaction
 that fails leaves every table as it was.  A ghost history remembers what the tables forget, and
 `Valid` says that tables and history satisfy the invariant of the terminal, so that everything the
 invariant implies holds of the object between any two calls.
 */
module EdgeEngine {
  import opened Options
  import opened Rounding
  import opened Coupons
  import opened BillNumber
  import opened EdgeModel
  import opened EdgeWorld
  import opened EdgeInvariant
  import EdgeDevice
  import EdgeLink

  /** The method did what the transaction says, reported its error, and remembered what it did. */
  ghost predicate Realises(db: Db, h: History, a: Action, n: Db, g: History, err: Option<string>)
    requires IsLocal(a)
  {
    Did(db, Transact(db, a), n, err) && g == if err.None? then Remember(h, n, a) else h
  }

  /** The part of it that is about the tables. */
  ghost predicate Did(db: Db, r: Outcome, n: Db, err: Option<string>) {
    n == Commit(db, r) && err == if r.Err? then Some(r.message) else None
  }

  /** What the environment guarantees about a transaction: fresh identifiers, a well-formed year and series. */
  ghost predicate Permitted(h: History, a: Action) {
    match a
    case Create(_, c, _) => c !in h.used
    case Settle(_, _, _, _, fy) => WellFormedYear(fy)
    case Bump(_, _, _, uuid) => uuid !in h.uuids
    case Reactivate(code) => WellFormedSeries(code)
    case _ => true
  }

  /** A transaction keeps the invariant of the terminal. */
  lemma TransactionKeeps(db: Db, h: History, a: Action)
    requires IsLocal(a) && DeviceInv(db, h) && Permitted(h, a)
    ensures var r := Transact(db, a);
            r.Ok? ==> DeviceInv(r.db, Remember(h, r.db, a))
  {
    hide DeviceInv, Transact, WellFormedYear, WellFormedSeries, Remember;
    EdgeDevice.LocalKeeps(World(db, EMPTY_CLOUD, START.net, h, 0), a);
  }

  /** Each line adds its own station to the stations of a round. */
  lemma StationsGrow(lines: seq<NewLine>, i: nat)
    requires i < |lines|
    ensures StationsOf(lines[..i + 1]) == StationsOf(lines[..i]) + {lines[i].station}
  {
    assert lines[..i + 1][i] == lines[i];
    forall st | st in StationsOf(lines[..i]) + {lines[i].station}
      ensures st in StationsOf(lines[..i + 1])
    {
      if st in StationsOf(lines[..i]) {
        var j :| 0 <= j < |lines[..i]| && lines[..i][j].station == st;
        assert lines[..i + 1][j].station == st;
      } else {
        assert lines[..i + 1][i].station == st;
      }
    }
  }

  lemma RoundIndicesGrow(lines: seq<NewLine>, i: nat, base: nat)
    requires i < |lines|
    ensures forall st :: RoundIndices(lines[..i + 1], st, base) ==
              RoundIndices(lines[..i], st, base) + if lines[i].station == st then [base + i] else []
    ensures StationsOf(lines[..i + 1]) == StationsOf(lines[..i]) + {lines[i].station}
  {
    assert lines[..i + 1][..i] == lines[..i];
    StationsGrow(lines, i);
  }

  lemma RoundIndicesOfNone(base: nat)
    ensures forall st :: RoundIndices([], st, base) == []
    ensures StationsOf([]) == {}
  {}

  /** One new ticket for each station in `done`. */
  function StationTickets(
    c: ClientId, kotNo: nat, byStation: map<Option<string>, seq<nat>>, done: set<Option<string>>, at: Time)
    : map<KotId, Ticket>
  {
    map st | st in byStation && st in done :: KotId(c, kotNo, st) := Ticket(byStation[st], Live(Waiting), at, None)
  }

  lemma StationTicketsGrow(
    kots: map<KotId, Ticket>, c: ClientId, kotNo: nat, byStation: map<Option<string>, seq<nat>>,
    done: set<Option<string>>, at: Time)
    ensures kots + StationTickets(c, kotNo, byStation, {}, at) == kots
    ensures forall st :: st in byStation && st !in done ==>
              kots + StationTickets(c, kotNo, byStation, done + {st}, at)
              == (kots + StationTickets(c, kotNo, byStation, done, at))
                   [KotId(c, kotNo, st) := Ticket(byStation[st], Live(Waiting), at, None)]
  {}

  // ---------- Reading a batch ----------

  /** `due` holds the oldest due rows in order, and `left` the due rows not read yet. */
  ghost predicate Taking(outbox: map<Key, OutboxRow>, now: Time, due: seq<Key>, left: set<Key>) {
    && left <= outbox.Keys
    && (forall i :: 0 <= i < |due| ==> due[i] in outbox && IsDueRow(outbox[due[i]], now))
    && (forall k :: k in outbox && IsDueRow(outbox[k], now) ==> k in left || k in due)
    && (forall k :: k in left ==> IsDueRow(outbox[k], now))
    && (forall i, j :: 0 <= i < j < |due| ==> outbox[due[i]].id < outbox[due[j]].id)
    && (forall i, k :: 0 <= i < |due| && k in left ==> outbox[due[i]].id < outbox[k].id)
  }

  lemma TakingOne(db: Db, now: Time, due: seq<Key>, left: set<Key>, k: Key)
    requires IdsOk(db) && Taking(db.outbox, now, due, left)
    requires k in left && forall l :: l in left ==> db.outbox[k].id <= db.outbox[l].id
    ensures Taking(db.outbox, now, due + [k], left - {k})
  {
    hide IsDueRow;
    assert forall l :: l in left && l != k ==> db.outbox[k].id != db.outbox[l].id;
  }

  /** Once nothing is left, or the batch is full, what was taken is the batch. */
  lemma TakenIsBatch(outbox: map<Key, OutboxRow>, now: Time, due: seq<Key>, left: set<Key>)
    requires Taking(outbox, now, due, left) && |due| <= PUSH_BATCH && (left == {} || |due| == PUSH_BATCH)
    ensures IsBatch(outbox, now, due)
  {
    forall k | k in outbox && IsDueRow(outbox[k], now) && k !in due
      ensures |due| == PUSH_BATCH && forall i :: 0 <= i < |due| ==> outbox[due[i]].id < outbox[k].id
    {
      assert k in left;
    }
  }

  lemma NothingTaken(db: Db)
    ensures Ops(db, []) == [] && RejectMissing(db, []) == db
  {
    assert RejectMissing(db, []).outbox == db.outbox;
  }

  lemma OneMoreTaken(db: Db, due: seq<Key>, i: nat)
    requires forall j :: 0 <= j < |due| ==> due[j] in db.outbox
    requires forall j, l :: 0 <= j < l < |due| ==> due[j] != due[l]
    requires i < |due|
    ensures Ops(db, due[..i + 1]) == Ops(db, due[..i]) + match OpFor(db, due[i]) case Some(op) => [op] case None => []
    ensures var k, before := due[i], RejectMissing(db, due[..i]);
            && before.outbox.Keys == db.outbox.Keys && before.outbox[k] == db.outbox[k] && before.orders == db.orders
            && RejectMissing(db, due[..i + 1]) ==
               if k.OrderKey? && k.clientId !in db.orders
               then before.(outbox := before.outbox[k := before.outbox[k].(status := Rejected)]) else before
  {
    hide PayloadOf, OpFor;
    assert due[..i + 1][..i] == due[..i];
    assert due[i] !in due[..i];
    OneMoreMissing(db, due[..i], due[i], due[..i + 1]);
    hide RejectMissing;
  }

  lemma OneMoreMissing(db: Db, due: seq<Key>, k: Key, more: seq<Key>)
    requires forall l :: l in more ==> l in db.outbox
    requires k !in due && more == due + [k]
    ensures var before := RejectMissing(db, due);
            && before.outbox.Keys == db.outbox.Keys && before.outbox[k] == db.outbox[k] && before.orders == db.orders
            && RejectMissing(db, more) ==
               if k.OrderKey? && k.clientId !in db.orders
               then before.(outbox := before.outbox[k := before.outbox[k].(status := Rejected)]) else before
  {
    var before, after := RejectMissing(db, due), RejectMissing(db, more);
    assert forall l :: l in more <==> l in due || l == k;
    assert after.outbox ==
           if k.OrderKey? && k.clientId !in db.orders then before.outbox[k := before.outbox[k].(status := Rejected)]
           else before.outbox;
  }

  lemma MemberLeaves(s: set<ClientId>, left: set<ClientId>, c: ClientId)
    requires c in left
    ensures |s - (left - {c})| == |s - left| + if c in s then 1 else 0
  {
    assert s - (left - {c}) == s - left + if c in s then {c} else {};
  }

  /** Every row of a batch has its order, so that each becomes one operation and none is rejected. */
  lemma EveryRowHasItsOrder(db: Db, h: History, now: Time, due: seq<Key>)
    requires DeviceInv(db, h) && IsBatch(db.outbox, now, due)
    ensures RejectMissing(db, due) == db && |Ops(db, due)| == |due|
    ensures forall i, j :: 0 <= i < j < |due| ==> due[i] != due[j]
  {
    hide RowsOk, IdsOk, KeysOk, ClosedStable, FiguresOk, SeriesOk, TablesOk, TicketsOk, RejectMissing, Ops, OpFor;
    EdgeLink.NothingMissing(db, due);
    EdgeLink.OpsMatchBatch(db, due);
    EdgeLink.BatchIsDistinct(db.outbox, now, due);
  }

  // ---------- Recording a response ----------

  /** The rows that were read are still waiting for their answers. */
  ghost predicate Awaiting(outbox: map<Key, OutboxRow>, due: seq<DueRow>) {
    forall i :: 0 <= i < |due| ==>
      due[i].key in outbox && outbox[due[i].key].id == due[i].id && outbox[due[i].key].status == Pending
  }

  ghost predicate AnsweredOnce(replies: seq<Reply>) {
    forall i, j :: 0 <= i < j < |replies| ==> replies[i].key != replies[j].key
  }

  /** The rows without an answer so far are untouched. */
  ghost predicate Untouched(db: Db, n: Db, replies: seq<Reply>) {
    forall k :: k in db.outbox && (forall i :: 0 <= i < |replies| ==> replies[i].key != k) ==>
      k in n.outbox && n.outbox[k] == db.outbox[k]
  }

  lemma {:induction false} RepliesKeepDevice(
    db: Db, h: History, due: seq<DueRow>, replies: seq<Reply>, now: Time, backoff: nat -> int)
    requires DeviceInv(db, h) && Awaiting(db.outbox, due) && AnsweredOnce(replies)
    ensures var n := ApplyReplies(db, due, replies, now, backoff);
            DeviceInv(n, h) && Untouched(db, n, replies)
  {
    hide DeviceInv, ApplyReply;
    if replies != [] {
      var n := |replies| - 1;
      var before, r := ApplyReplies(db, due, replies[..n], now, backoff), replies[n];
      assert AnsweredOnce(replies[..n]);
      RepliesKeepDevice(db, h, due, replies[..n], now, backoff);
      FoundIsDue(due, r.key);
      var e := FindDue(due, r.key);
      if e.Some? {
        assert forall i :: 0 <= i < n ==> replies[i].key != r.key;
        EdgeLink.ReplyKeepsDevice(before, h, e.value, r.status, now, backoff);
        OneRowTouched(before, e.value, r.status, now, backoff);
      }
    }
  }

  lemma OneRowTouched(db: Db, e: DueRow, s: OpStatus, now: Time, backoff: nat -> int)
    ensures var n := ApplyReply(db, e, s, now, backoff);
            forall k :: k in db.outbox && k != e.key ==> k in n.outbox && n.outbox[k] == db.outbox[k]
  {}

  lemma {:induction false} FoundIsDue(due: seq<DueRow>, k: Key)
    ensures FindDue(due, k).Some? ==> FindDue(due, k).value in due && FindDue(due, k).value.key == k
  {
    if due != [] {
      FoundIsDue(due[..|due| - 1], k);
    }
  }

  /**
   What a caller knows of a valid engine: an order is open exactly while it is local, queued exactly while
   its row is pending; the numbers issued in a series and year are exactly 1 to the counter, each on one
   closed order; and a table has at most one open order.
   */
  lemma ValidMeans(db: Db, h: History)
    requires DeviceInv(db, h)
    ensures forall c :: c in db.orders ==> (db.orders[c].order.status == Open <==> db.orders[c].sync == Local)
    ensures forall c :: (c in db.orders && db.orders[c].sync == Queued) <==>
                        (OrderKey(c) in db.outbox && db.outbox[OrderKey(c)].status == Pending)
    ensures forall b :: b in h.issued <==> 1 <= b.seqNo <= LastSeq(db.billSeries, b.series, b.fy)
    ensures forall b, c :: b in h.issued && c in h.closed ==> (h.closed[c].billNo == Some(b) <==> c == h.issued[b])
    ensures forall c, d ::
              (IsOpen(db, c) && IsOpen(db, d) && db.orders[c].order.tableId.Some?
               && db.orders[c].order.tableId == db.orders[d].order.tableId) ==> c == d
  {
    hide IdsOk, KeysOk, ClosedStable, FiguresOk, TicketsOk, ReceiptOk, WellFormedSeries;
    forall c | OrderKey(c) in db.outbox && db.outbox[OrderKey(c)].status == Pending
      ensures c in db.orders && db.orders[c].sync == Queued
    {
      assert RowAgrees(db, c);
    }
  }

  class Engine {
    var orders: map<ClientId, OrderRow>
    var outbox: map<Key, OutboxRow>
    var nextOutboxId: nat
    var kots: map<KotId, Ticket>
    var billSeries: map<(string, string), nat>
    var legacySeq: nat
    var seriesCode: Option<string>
    var tables: map<string, TableInfo>
    var coupons: map<string, Coupon>
    ghost var hist: History

    ghost function Tables(): Db
      reads this
    {
      Db(orders, outbox, nextOutboxId, kots, billSeries, legacySeq, seriesCode, tables, coupons)
    }

    ghost predicate Valid()
      reads this
    {
      DeviceInv(Tables(), hist)
    }

    constructor ()
      ensures Valid() && Tables() == EMPTY_DB && hist == START.hist
    {
      EdgeDevice.StartIsGood();
      hist := START.hist;
      orders, outbox, nextOutboxId, kots := map[], map[], 1, map[];
      billSeries, legacySeq, seriesCode := map[], 0, None;
      tables, coupons := map[], map[];
    }

    // ---------- Rows ----------

    method SaveOrder(o: Order)
      modifies this`orders
      ensures orders == Save(old(orders), o)
    {
      var sync := if o.clientId in orders then orders[o.clientId].sync else Local;
      orders := orders[o.clientId := OrderRow(o, sync)];
    }

    method EnqueueRow(key: Key, lines: seq<KotLine>, at: Time)
      modifies this`orders, this`outbox, this`nextOutboxId
      ensures Tables() == Enqueue(old(Tables()), key, lines, at)
    {
      if key !in outbox {
        outbox := outbox[key := NewRow(nextOutboxId, lines, at)];
        nextOutboxId := nextOutboxId + 1;
      }
      if key.OrderKey? && key.clientId in orders {
        orders := orders[key.clientId := orders[key.clientId].(sync := Queued)];
      }
    }

    // ---------- Rounds ----------

    /** Collect the lines of a round by station, in one pass. */
    method GroupByStation(lines: seq<NewLine>, base: nat) returns (byStation: map<Option<string>, seq<nat>>)
      ensures byStation.Keys == StationsOf(lines)
      ensures forall st :: st in byStation ==> byStation[st] == RoundIndices(lines, st, base)
    {
      hide RoundIndices, StationsOf;
      RoundIndicesOfNone(base);
      byStation := map[];
      var i := 0;
      assert lines[..i] == [];
      while i < |lines|
        invariant 0 <= i <= |lines|
        invariant byStation.Keys == StationsOf(lines[..i])
        invariant forall st :: RoundIndices(lines[..i], st, base) == if st in byStation then byStation[st] else []
      {
        var st := lines[i].station;
        RoundIndicesGrow(lines, i, base);
        byStation := byStation[st := (if st in byStation then byStation[st] else []) + [base + i]];
        i := i + 1;
      }
      assert lines[..i] == lines;
    }

    method InsertTickets(c: ClientId, kotNo: nat, byStation: map<Option<string>, seq<nat>>, at: Time)
      modifies this`kots
      ensures kots == old(kots) + StationTickets(c, kotNo, byStation, byStation.Keys, at)
    {
      hide StationTickets;
      StationTicketsGrow(kots, c, kotNo, byStation, {}, at);
      var left := byStation.Keys;
      assert byStation.Keys - left == {};
      while left != {}
        invariant left <= byStation.Keys
        invariant kots == old(kots) + StationTickets(c, kotNo, byStation, byStation.Keys - left, at)
        decreases left
      {
        var st :| st in left;
        kots := kots[KotId(c, kotNo, st) := Ticket(byStation[st], Live(Waiting), at, None)];
        StationTicketsGrow(old(kots), c, kotNo, byStation, byStation.Keys - left, at);
        assert byStation.Keys - (left - {st}) == byStation.Keys - left + {st};
        left := left - {st};
      }
      assert byStation.Keys - left == byStation.Keys;
    }

    /** Append a round to the order and insert one ticket per station. */
    method Fire(o: Order, lines: seq<NewLine>, at: Time) returns (fired: Order)
      modifies this`kots
      ensures fired == FireOrder(o, lines)
      ensures kots == old(kots) + FireTickets(o, lines, at)
    {
      hide TotalsFor, RoundIndices;
      var kotNo, base := o.kotCount + 1, |o.lines|;
      var stamped: seq<Line> := [];
      var i := 0;
      while i < |lines|
        invariant 0 <= i <= |lines| && stamped == Stamp(lines, kotNo)[..i]
      {
        stamped := stamped + [Line(lines[i], kotNo, Waiting, None)];
        i := i + 1;
      }
      assert stamped == Stamp(lines, kotNo);
      fired := o.(kotCount := kotNo, lines := o.lines + stamped);
      fired := fired.(totals := TotalsFor(fired.lines, 0), manualRupees := 0.0, couponPaise := 0);
      var byStation := GroupByStation(lines, base);
      InsertTickets(o.clientId, kotNo, byStation, at);
      assert StationTickets(o.clientId, kotNo, byStation, byStation.Keys, at) == FireTickets(o, lines, at);
    }

    /** The checks before an order is created, in order. */
    method CheckNewOrder(n: NewOrder) returns (err: Option<string>)
      ensures err == CreateError(Tables(), n)
    {
      hide TableBusy;
      if n.lines == [] {
        return Some("An order needs at least one item or combo");
      }
      if n.orderType == DineIn {
        if n.tableId.None? {
          return Some("Dine-in orders need a table");
        }
        if n.tableId.value !in tables {
          return Some("Unknown table");
        }
        if !n.allowCloudOccupied && tables[n.tableId.value].busyElsewhere {
          return Some("The table has a running order on another terminal");
        }
      }
      if n.orderType == Delivery && (n.customer.phone.None? || n.customer.address.None?) {
        return Some("Delivery orders need a phone number and address");
      }
      if n.orderType == DineIn {
        var busy := HasRunningOrder(n.tableId.value);
        if busy {
          return Some("The table already has a running order");
        }
      }
      return None;
    }

    method CreateOrder(n: NewOrder, c: ClientId, at: Time) returns (err: Option<string>)
      requires Valid() && c !in hist.used
      modifies this
      ensures Valid() && Realises(old(Tables()), old(hist), Create(n, c, at), Tables(), hist, err)
    {
      hide FireOrder, FireTickets, FreshOrder, CreateError, DeviceInv, Remember;
      TransactionKeeps(Tables(), hist, Create(n, c, at));
      err := CheckNewOrder(n);
      if err.Some? {
        return;
      }
      var o := Fire(FreshOrder(n, c, at), n.lines, at);
      SaveOrder(o);
      hist := Remember(hist, Tables(), Create(n, c, at));
    }

    method HasRunningOrder(tableId: string) returns (busy: bool)
      ensures busy == TableBusy(Tables(), tableId)
    {
      busy := exists c :: c in orders && orders[c].order.status == Open && orders[c].order.tableId == Some(tableId);
    }

    method AddItems(c: ClientId, lines: seq<NewLine>, at: Time) returns (err: Option<string>)
      requires Valid()
      modifies this
      ensures Valid() && Realises(old(Tables()), old(hist), Add(c, lines, at), Tables(), hist, err)
    {
      hide DeviceInv, Remember, EdgeModel.AddItems;
      TransactionKeeps(Tables(), hist, Add(c, lines, at));
      err := AddRows(c, lines, at);
      if err.None? {
        hist := Remember(hist, Tables(), Add(c, lines, at));
      }
    }

    method AddRows(c: ClientId, lines: seq<NewLine>, at: Time) returns (err: Option<string>)
      modifies this`kots, this`orders
      ensures Did(old(Tables()), EdgeModel.AddItems(old(Tables()), c, lines, at), Tables(), err)
    {
      hide FireOrder, FireTickets;
      if lines == [] {
        return Some("Add at least one item or combo");
      }
      if c !in orders {
        return Some("Order not found");
      }
      if orders[c].order.status != Open {
        return Some("Order is not open");
      }
      var o := Fire(orders[c].order, lines, at);
      SaveOrder(o.(updatedAt := at));
      return None;
    }

    // ---------- Settling ----------

    /** Unsynced redemptions, counted row by row. */
    method CountUnsynced(code: string) returns (n: nat)
      ensures n == |Unsynced(orders, code)|
    {
      n := 0;
      ghost var unsynced := Unsynced(orders, code);
      var left: set<ClientId> := orders.Keys;
      while left != {}
        invariant left <= orders.Keys && n == |unsynced - left|
        decreases left
      {
        var c :| c in left;
        var row := orders[c];
        if row.order.status == Settled && row.sync in {Local, Queued} && row.order.couponCode == Some(code) {
          n := n + 1;
        }
        MemberLeaves(unsynced, left, c);
        left := left - {c};
      }
      assert unsynced - left == unsynced;
    }

    method Preview(code: string, subtotalPaise: int, trueNow: Time) returns (e: Evaluation)
      ensures e == PreviewCoupon(Tables(), code, subtotalPaise, trueNow)
    {
      if code !in coupons {
        return Evaluate(None, FromPaise(subtotalPaise), trueNow);
      }
      var c := coupons[code];
      var used := c.usedCount;
      if c.usageLimit.Some? {
        var unsynced := CountUnsynced(code);
        used := used + unsynced;
      }
      e := Evaluate(Some(c.(usedCount := used)), FromPaise(subtotalPaise), trueNow);
    }

    /** Check every payment and add them up. */
    method CheckTenders(tenders: seq<Payment>) returns (ok: bool, paid: int)
      ensures ok <==> forall i :: 0 <= i < |tenders| ==> TenderOk(tenders[i])
      ensures paid == Paid(tenders)
    {
      ok, paid := true, 0;
      var i := 0;
      while i < |tenders|
        invariant 0 <= i <= |tenders|
        invariant ok <==> forall j :: 0 <= j < i ==> TenderOk(tenders[j])
        invariant paid == Paid(tenders[..i])
      {
        if !TenderOk(tenders[i]) {
          ok := false;
        }
        assert tenders[..i + 1][..i] == tenders[..i];
        paid := paid + ToPaise(tenders[i].rupees);
        i := i + 1;
      }
      assert tenders[..i] == tenders;
    }

    method QuoteOrder(o: Order, s: Settlement, trueNow: Time) returns (q: Quote)
      ensures q == QuoteFor(Tables(), o, s, trueNow)
    {
      hide TotalsFor, PreviewCoupon, TenderOk, WholePaise, Paid;
      var subtotal := TotalsFor(o.lines, 0).subtotal;
      if s.discountRupees < 0.0 || !WholePaise(s.discountRupees) {
        return NoQuote("Invalid discount");
      }
      var couponPaise := 0;
      if s.couponCode.Some? {
        var e := Preview(s.couponCode.value, subtotal, trueNow);
        if e.Invalid? {
          return NoQuote(e.message);
        }
        couponPaise := e.discountPaise;
      }
      var discount := Discount(s.discountRupees, couponPaise);
      if discount > subtotal {
        return NoQuote("Discount exceeds the bill");
      }
      var t := TotalsFor(o.lines, discount);
      if s.tenders == [] {
        return NoQuote("Add at least one payment");
      }
      var ok, paid := CheckTenders(s.tenders);
      if !ok {
        return NoQuote("Invalid payment");
      }
      if paid != t.total {
        return NoQuote("Payments must equal the total");
      }
      return Quote(couponPaise, t);
    }

    /**
     Draw the next number of the device's series, or the next provisional reference before activation.
     The counter moves before the text of the number is known to fit.
     */
    method DrawNumber(fy: string) returns (bill: Option<BillNo>, receipt: Option<ReceiptRef>)
      modifies this`billSeries, this`legacySeq
      ensures seriesCode.None? ==> bill == None && receipt == Some(Provisional(legacySeq))
      ensures seriesCode.None? ==> billSeries == old(billSeries) && legacySeq == old(legacySeq) + 1
      ensures seriesCode.Some? ==>
                var b := NextBillNo(old(Tables()), seriesCode.value, fy);
                && bill == Some(b) && legacySeq == old(legacySeq)
                && billSeries == old(billSeries)[(b.series, fy) := b.seqNo]
                && receipt == match Format(b) case Some(number) => Some(Invoice(number)) case None => None
    {
      hide Format;
      if seriesCode.None? {
        legacySeq := legacySeq + 1;
        return None, Some(Provisional(legacySeq));
      }
      var code := seriesCode.value;
      var seqNo := (if (code, fy) in billSeries then billSeries[(code, fy)] else 0) + 1;
      billSeries := billSeries[(code, fy) := seqNo];
      bill := Some(BillNo(code, fy, seqNo));
      var number := Format(bill.value);
      receipt := if number.Some? then Some(Invoice(number.value)) else None;
    }

    /** A failed settlement burns no number: tables and counters are as they were. */
    method SettleOrder(c: ClientId, s: Settlement, at: Time, trueNow: Time, fy: string) returns (err: Option<string>)
      requires Valid() && WellFormedYear(fy)
      modifies this
      ensures Valid() && Realises(old(Tables()), old(hist), Settle(c, s, at, trueNow, fy), Tables(), hist, err)
      ensures err.Some? ==> Tables() == old(Tables()) && hist == old(hist)
    {
      hide DeviceInv, Remember, EdgeModel.SettleOrder;
      TransactionKeeps(Tables(), hist, Settle(c, s, at, trueNow, fy));
      err := SettleRows(c, s, at, trueNow, fy);
      if err.None? {
        hist := Remember(hist, Tables(), Settle(c, s, at, trueNow, fy));
      }
    }

    /** A number whose text does not fit is given back. */
    method SettleRows(c: ClientId, s: Settlement, at: Time, trueNow: Time, fy: string) returns (err: Option<string>)
      modifies this`billSeries, this`legacySeq, this`orders, this`outbox, this`nextOutboxId
      ensures Did(old(Tables()), EdgeModel.SettleOrder(old(Tables()), c, s, at, trueNow, fy), Tables(), err)
    {
      hide QuoteFor, Format, SettledOrder, Enqueue, NextBillNo;
      if c !in orders {
        return Some("Order not found");
      }
      if orders[c].order.status != Open {
        return Some("Order is not open");
      }
      var o := orders[c].order;
      var q := QuoteOrder(o, s, trueNow);
      if q.NoQuote? {
        return Some(q.message);
      }
      var before := billSeries;
      var bill, receipt := DrawNumber(fy);
      if receipt.None? {
        billSeries := before;
        return Some("Bill number exceeds 16 characters");
      }
      var closed := SettledOrder(o, s, q, bill, receipt.value, at);
      SaveOrder(closed);
      EnqueueRow(OrderKey(closed.clientId), [], at);
      return None;
    }

    method CancelOrder(c: ClientId, staffId: Option<string>, reason: Option<string>, at: Time)
      returns (err: Option<string>)
      requires Valid()
      modifies this
      ensures Valid() && Realises(old(Tables()), old(hist), Cancel(c, staffId, reason, at), Tables(), hist, err)
    {
      hide DeviceInv, Remember, EdgeModel.CancelOrder;
      TransactionKeeps(Tables(), hist, Cancel(c, staffId, reason, at));
      err := CancelRows(c, staffId, reason, at);
      if err.None? {
        hist := Remember(hist, Tables(), Cancel(c, staffId, reason, at));
      }
    }

    method CancelRows(c: ClientId, staffId: Option<string>, reason: Option<string>, at: Time)
      returns (err: Option<string>)
      modifies this`kots, this`orders, this`outbox, this`nextOutboxId
      ensures Did(old(Tables()), EdgeModel.CancelOrder(old(Tables()), c, staffId, reason, at), Tables(), err)
    {
      hide Enqueue;
      if c !in orders {
        return Some("Order not found");
      }
      if orders[c].order.status != Open {
        return Some("Order is not open");
      }
      var closed := CancelledOrder(orders[c].order, staffId, reason, at);
      SaveOrder(closed);
      kots := Withdraw(kots, c, at);
      EnqueueRow(OrderKey(closed.clientId), [], at);
      return None;
    }

    // ---------- Kitchen display ----------

    method MarkItems(lines: seq<Line>, items: seq<nat>, to: PrepStatus, at: Time) returns (marked: seq<Line>)
      ensures marked == MarkLines(lines, items, to, at)
    {
      marked := lines;
      var j := 0;
      while j < |items|
        invariant 0 <= j <= |items|
        invariant marked == MarkLines(lines, items[..j], to, at)
      {
        var x := items[j];
        assert forall i: nat :: i in items[..j + 1] <==> i in items[..j] || i == x;
        if x < |marked| {
          marked := marked[x := marked[x].(prep := to, preppedAt := ReadyTime(to, at))];
        }
        j := j + 1;
      }
      assert items[..j] == items;
    }

    /** Address each line by its position among the lines of its kind, with one counter per kind. */
    method AddressLines(lines: seq<Line>) returns (r: seq<KotLine>)
      ensures r == KotLines(lines)
    {
      r := [];
      var items, combos, i := 0, 0, 0;
      while i < |lines|
        invariant 0 <= i <= |lines|
        invariant items == CountKind(lines[..i], ItemLine) && combos == CountKind(lines[..i], ComboLine)
        invariant r == KotLines(lines)[..i]
      {
        assert lines[..i + 1][..i] == lines[..i];
        if lines[i].what.kind == ComboLine {
          r := r + [KotLine(ComboLine, combos, lines[i].prep, lines[i].preppedAt)];
          combos := combos + 1;
        } else {
          r := r + [KotLine(ItemLine, items, lines[i].prep, lines[i].preppedAt)];
          items := items + 1;
        }
        i := i + 1;
      }
    }

    method AdvanceTicket(id: KotId, to: PrepStatus, at: Time, uuid: string) returns (err: Option<string>)
      requires Valid() && uuid !in hist.uuids
      modifies this
      ensures Valid() && Realises(old(Tables()), old(hist), Bump(id, to, at, uuid), Tables(), hist, err)
    {
      hide DeviceInv, Remember, EdgeModel.AdvanceTicket;
      TransactionKeeps(Tables(), hist, Bump(id, to, at, uuid));
      err := BumpRows(id, to, at, uuid);
      if err.None? {
        hist := Remember(hist, Tables(), Bump(id, to, at, uuid));
      }
    }

    method BumpRows(id: KotId, to: PrepStatus, at: Time, uuid: string) returns (err: Option<string>)
      modifies this`kots, this`orders, this`outbox, this`nextOutboxId
      ensures Did(old(Tables()), EdgeModel.AdvanceTicket(old(Tables()), id, to, at, uuid), Tables(), err)
    {
      hide Enqueue, MarkLines, KotLines;
      if id !in kots || kots[id].status == Withdrawn {
        return Some("Ticket not found");
      }
      var items := kots[id].items;
      kots := kots[id := kots[id].(status := Live(to), updatedAt := at, readyAt := ReadyTime(to, at))];
      var c := id.clientId;
      if c !in orders {
        return None;
      }
      var o := orders[c].order;
      var marked := MarkItems(o.lines, items, to, at);
      SaveOrder(o.(lines := marked));
      if OrderKey(c) in outbox && outbox[OrderKey(c)].status in {Done, Conflicted} {
        var lines := AddressLines(marked);
        EnqueueRow(KotKey(c, uuid), lines, at);
      }
      return None;
    }

    // ---------- Pushing ----------

    /** Of some rows, the one created first. */
    method Oldest(keys: set<Key>) returns (k: Key)
      requires keys != {} && keys <= outbox.Keys
      ensures k in keys && forall l :: l in keys ==> outbox[k].id <= outbox[l].id
    {
      k :| k in keys;
      var left := keys - {k};
      while left != {}
        invariant left <= keys && k in keys
        invariant forall l :: l in keys - left ==> outbox[k].id <= outbox[l].id
        decreases left
      {
        var l :| l in left;
        if outbox[l].id < outbox[k].id {
          k := l;
        }
        left := left - {l};
      }
    }

    /** Read the next batch: due rows in creation order, at most fifty. */
    method TakeBatch(now: Time) returns (due: seq<Key>)
      requires Valid()
      ensures IsBatch(outbox, now, due)
    {
      due := [];
      var left := set k | k in outbox && IsDueRow(outbox[k], now);
      while left != {} && |due| < PUSH_BATCH
        invariant |due| <= PUSH_BATCH && Taking(outbox, now, due, left)
        decreases left
      {
        var k := Oldest(left);
        TakingOne(Tables(), now, due, left, k);
        due, left := due + [k], left - {k};
      }
      TakenIsBatch(outbox, now, due, left);
    }

    /** Build the request; a row whose order is missing would be rejected instead, but a valid engine has none. */
    method BuildOps(now: Time, due: seq<Key>) returns (ops: seq<Op>)
      requires Valid() && IsBatch(outbox, now, due)
      modifies this`outbox
      ensures Valid() && Tables() == old(Tables())
      ensures ops == Ops(Tables(), due) && |ops| == |due|
    {
      hide PayloadOf, RejectMissing, Ops, DeviceInv;
      EveryRowHasItsOrder(Tables(), hist, now, due);
      ops := [];
      var i := 0;
      ghost var start := Tables();
      NothingTaken(start);
      assert due[..i] == [];
      while i < |due|
        invariant 0 <= i <= |due|
        invariant ops == Ops(start, due[..i])
        invariant Tables() == RejectMissing(start, due[..i])
      {
        var k := due[i];
        OneMoreTaken(start, due, i);
        if k.OrderKey? {
          if k.clientId in orders {
            ops := ops + [OrderOp(PayloadOf(orders[k.clientId].order))];
          } else {
            outbox := outbox[k := outbox[k].(status := Rejected)];
          }
        } else {
          ops := ops + [KotOp(k.clientId, k.uuid, outbox[k].lines)];
        }
        i := i + 1;
      }
      assert due[..i] == due;
    }

    method RecordReply(e: DueRow, s: OpStatus, now: Time, backoff: nat -> int)
      modifies this`outbox, this`orders
      ensures Tables() == ApplyReply(old(Tables()), e, s, now, backoff)
    {
      if s == Retry {
        if e.key in outbox && outbox[e.key].id == e.id {
          var later := now + backoff(e.attempts + 1);
          outbox := outbox[e.key := outbox[e.key].(attempts := e.attempts + 1, nextAttemptAt := later)];
        }
        return;
      }
      if e.key in outbox && outbox[e.key].id == e.id {
        var row := outbox[e.key];
        outbox := outbox[e.key := row.(status := FinalStatus(s), attempts := row.attempts + 1, doneAt := Some(now))];
      }
      if e.key.OrderKey? && e.key.clientId in orders {
        orders := orders[e.key.clientId := orders[e.key.clientId].(sync := FinalSync(s))];
      }
    }

    /**
     Record a response: one transaction over all its answers.  The rows of the batch are still waiting,
     and the response has one answer per row.
     */
    method RecordReplies(due: seq<DueRow>, replies: seq<Reply>, now: Time, backoff: nat -> int)
      requires Valid() && Awaiting(outbox, due) && AnsweredOnce(replies)
      modifies this`outbox, this`orders
      ensures Valid() && Tables() == ApplyReplies(old(Tables()), due, replies, now, backoff)
    {
      hide ApplyReply, DeviceInv, Awaiting, AnsweredOnce;
      RepliesKeepDevice(Tables(), hist, due, replies, now, backoff);
      var byKey: map<Key, DueRow> := map[];
      var j := 0;
      while j < |due|
        invariant 0 <= j <= |due|
        invariant forall k :: FindDue(due[..j], k) == if k in byKey then Some(byKey[k]) else None
      {
        assert due[..j + 1][..j] == due[..j];
        byKey := byKey[due[j].key := due[j]];
        j := j + 1;
      }
      assert due[..j] == due;
      var i := 0;
      while i < |replies|
        invariant 0 <= i <= |replies|
        invariant Tables() == ApplyReplies(old(Tables()), due, replies[..i], now, backoff)
      {
        assert replies[..i + 1][..i] == replies[..i];
        var k := replies[i].key;
        assert FindDue(due, k) == if k in byKey then Some(byKey[k]) else None;
        if k in byKey {
          RecordReply(byKey[k], replies[i].status, now, backoff);
        }
        i := i + 1;
      }
      assert replies[..i] == replies;
    }

    // ---------- Retention and activation ----------

    method Purge(now: Time, orderDays: nat, outboxDays: nat)
      requires Valid()
      modifies this
      ensures Valid() && Realises(old(Tables()), old(hist), Retain(now, orderDays, outboxDays), Tables(), hist, None)
    {
      hide DeviceInv, EdgeModel.Purge;
      TransactionKeeps(Tables(), hist, Retain(now, orderDays, outboxDays));
      PurgeRows(now, orderDays, outboxDays);
    }

    method PurgeRows(now: Time, orderDays: nat, outboxDays: nat)
      modifies this`orders, this`outbox, this`kots
      ensures Tables() == EdgeModel.Purge(old(Tables()), now, orderDays, outboxDays)
    {
      orders := map c | c in orders && !PurgeableOrder(orders[c], now - orderDays * DAY_MS) :: orders[c];
      outbox := map k | k in outbox && !PurgeableRow(outbox[k], now - outboxDays * DAY_MS) :: outbox[k];
      kots := map id | id in kots &&
                       (kots[id].updatedAt >= now - 2 * DAY_MS ||
                        (id.clientId in orders && orders[id.clientId].order.status == Open)) :: kots[id];
    }

    /** A new activation: the counters of earlier series stay as they are. */
    method Activate(code: string)
      requires Valid() && WellFormedSeries(code)
      modifies this`seriesCode
      ensures Valid() && Realises(old(Tables()), old(hist), Reactivate(code), Tables(), hist, None)
    {
      hide DeviceInv;
      TransactionKeeps(Tables(), hist, Reactivate(code));
      seriesCode := Some(code);
    }

    method TakeCatalog(newTables: map<string, TableInfo>, newCoupons: map<string, Coupon>)
      requires Valid()
      modifies this`tables, this`coupons
      ensures Valid() && Realises(old(Tables()), old(hist), Refeed(newTables, newCoupons), Tables(), hist, None)
    {
      hide DeviceInv;
      TransactionKeeps(Tables(), hist, Refeed(newTables, newCoupons));
      tables, coupons := newTables, newCoupons;
    }
  }
}
