/**
 Short runs from an empty terminal in which a promise of the offline design fails.  One cup of tea for
 one rupee is all they need.
 */
module EdgeStories {
  import opened Options
  import opened Rounding
  import opened Money
  import opened Coupons
  import opened BillNumber
  import opened EdgeModel
  import opened EdgeWorld
  import opened EdgeInvariant
  import opened EdgeLocal
  import opened EdgeSync
  import opened EdgeLink
  import opened EdgeAddress
  import opened EdgeKitchen
  import opened EdgeLimits
  import opened EdgeTheorems
  import opened EdgeProgress

  const TEA := NewLine(ItemLine, "tea", None, 1, 100, 0.0, None)
  const NOBODY := Customer(None, None, None)
  const ONE_TEA := NewOrder(Takeaway, None, NOBODY, [TEA], None, false)
  const TICKET := KotId("c", 1, None)

  function TeaLine(prep: PrepStatus, ready: Option<Time>): Line {
    Line(TEA, 1, prep, ready)
  }

  const OPEN_TEA := Order(
    "c", Takeaway, None, NOBODY, [TeaLine(Waiting, None)], [], 0.0, None, 0, Totals(100, 0, 0, 100),
    Open, None, None, 1, 0, None, 0, None, None, None)

  // ---------- Running a story ----------

  /** From one world, a legal and calm run leads to the other. */
  ghost predicate Leads(from: World, run: seq<Action>, w: World) {
    Legal(from, run) && CalmRun(from, run) && After(from, run) == w
  }

  lemma Begin(w: World)
    ensures Leads(w, [], w)
  {}

  lemma {:induction false} Then(from: World, run: seq<Action>, w: World, a: Action)
    requires Leads(from, run, w) && Enabled(w, a) && Calm(w, a)
    ensures Leads(from, run + [a], Next(w, a))
    decreases |run|
  {
    hide Next, Enabled, Calm;
    if run == [] {
      OneStep(w, a);
      assert run + [a] == [a] && [a][1..] == [];
      assert CalmRun(Next(w, a), []);
    } else {
      Then(Next(from, run[0]), run[1..], w, a);
      assert (run + [a])[1..] == run[1..] + [a];
    }
  }

  /** A run from an empty terminal in which every step is calm but one. */
  ghost predicate Slips(before: seq<Action>, slip: Action, after: seq<Action>) {
    && Legal(START, before) && CalmRun(START, before)
    && var w := After(START, before);
       && Enabled(w, slip) && !Calm(w, slip)
       && Legal(Next(w, slip), after) && CalmRun(Next(w, slip), after)
  }

  ghost function EndOf(before: seq<Action>, slip: Action, after: seq<Action>): World
    requires Slips(before, slip, after)
  {
    After(Next(After(START, before), slip), after)
  }

  /** Such a story is one run. */
  lemma StoryIsRun(before: seq<Action>, slip: Action, after: seq<Action>)
    requires Slips(before, slip, after)
    ensures Legal(START, before + [slip] + after)
    ensures After(START, before + [slip] + after) == EndOf(before, slip, after)
  {
    hide Legal, After, Next, Enabled, Calm, CalmRun;
    OneStep(After(START, before), slip);
    RunsCompose(START, before, [slip]);
    RunsCompose(START, before + [slip], after);
  }

  lemma Told(before: seq<Action>, v: World, slip: Action, after: seq<Action>, w: World)
    requires Leads(START, before, v) && Enabled(v, slip) && !Calm(v, slip) && Leads(Next(v, slip), after, w)
    ensures Slips(before, slip, after) && EndOf(before, slip, after) == w && After(START, before) == v
  {
    hide Legal, After, Next, Enabled, Calm, CalmRun;
  }

  // ---------- One tea ----------

  lemma TeaTotals(lines: seq<Line>, discount: int)
    requires |lines| == 1 && lines[0].what == TEA && 0 <= discount <= 100
    ensures TotalsFor(lines, discount) == Totals(100, discount, 0, 100 - discount)
  {
    var ls := MoneyLines(lines);
    assert ls == [MoneyLine(100, 0.0)];
    assert ls[..0] == [];
    assert LineTax(ls[0]) == 0.0;
    assert Subtotal(ls) == Subtotal(ls[..0]) + 100 && RawTax(ls) == RawTax(ls[..0]) + LineTax(ls[0]);
    PaiseRoundTrip(discount);
    NoTax(100 - discount);
  }

  lemma NoTax(base: int)
    ensures BlendedTax(0.0, base, 100) == 0
  {
    assert 0.0 * base as real == 0.0;
    RoundUnique(0.0, 0);
  }

  lemma TeaTickets(o: Order)
    requires o.clientId == "c" && o.lines == [] && o.kotCount == 0
    ensures FireTickets(o, [TEA], 0) == map[TICKET := Ticket([0], Live(Waiting), 0, None)]
  {
    assert [TEA][..0] == [];
    assert RoundIndices([TEA], None, 0) == [0];
    assert StationsOf([TEA]) == {None} by {
      assert [TEA][0].station == None;
    }
  }

  function OpenTea(c: ClientId): Order {
    OPEN_TEA.(clientId := c)
  }

  lemma FiredFor(c: ClientId)
    ensures FireOrder(FreshOrder(ONE_TEA, c, 0), [TEA]) == OpenTea(c)
  {
    hide TotalsFor;
    var all := [] + Stamp([TEA], 1);
    assert all == [TeaLine(Waiting, None)];
    TeaTotals(all, 0);
  }

  /** The database after the tea was ordered. */
  function Ordered(): Db {
    EMPTY_DB.(orders := map["c" := OrderRow(OPEN_TEA, Local)],
              kots := map[TICKET := Ticket([0], Live(Waiting), 0, None)])
  }

  lemma TeaIsOrdered()
    ensures CreateOrder(EMPTY_DB, ONE_TEA, "c", 0) == Ok(Ordered())
  {
    hide FireOrder, FireTickets, TotalsFor;
    TeaTickets(FreshOrder(ONE_TEA, "c", 0));
    FiredFor("c");
  }

  lemma SeriesIsWellFormed()
    ensures WellFormedSeries("E01") && WellFormedYear("2627")
  {}

  // ---------- A long reason ----------

  const LONG_REASON: string := seq(201, _ => 'x')
  const CANCEL_TEA := Cancel("c", None, Some(LONG_REASON), 0)
  const LONG := [Create(ONE_TEA, "c", 0), CANCEL_TEA, Reactivate("E01")]

  lemma LongRun() returns (w: World)
    ensures Leads(START, LONG, w) && w.db.seriesCode.Some? && Stuck(w, "c")
  {
    hide Legal, After, CalmRun, Next, Enabled, Leads, Acceptable, PayloadOf;
    Begin(START);
    var w1 := OrderStep(START, "c");
    Then(START, [], START, LONG[0]);
    var w2 := CancelTea(w1);
    Then(START, [] + [LONG[0]], w1, LONG[1]);
    w := ActivateStep(w2);
    Then(START, [] + [LONG[0]] + [LONG[1]], w2, LONG[2]);
    assert [] + [LONG[0]] + [LONG[1]] + [LONG[2]] == LONG;
  }

  lemma CancelTea(w: World) returns (n: World)
    requires "c" in w.db.orders && w.db.orders["c"] == OrderRow(OpenTea("c"), Local)
    requires OrderKey("c") !in w.db.outbox && w.cloud == EMPTY_CLOUD
    ensures Enabled(w, CANCEL_TEA) && n == Next(w, CANCEL_TEA)
    ensures n.cloud == EMPTY_CLOUD && n.clock == 0 && Stuck(n, "c")
  {
    hide PayloadOf, Withdraw;
    n := Next(w, CANCEL_TEA);
    assert n.hist.closed["c"].cancelReason == Some(LONG_REASON);
    TooLong(n.hist.closed["c"]);
  }

  lemma TooLong(o: Order)
    requires o.cancelReason == Some(LONG_REASON)
    ensures !Acceptable(PayloadOf(o))
  {
    assert |LONG_REASON| == 201;
  }

  /**
   A reason of 201 characters strands the bill: however the run goes on, the bill stays pending, and
   no sequence of pushes drains the outbox.
   */
  lemma LongReasonStrandsBill(more: seq<Action>)
    requires Legal(START, LONG + more)
    ensures OrderKey("c") in PendingKeys(After(START, LONG + more).db.outbox)
    ensures Legal(START, LONG) && !Drains(LONG, more)
  {
    hide Legal, After;
    var w := LongRun();
    SplitLegal(START, LONG, more);
    Reached(LONG);
    StuckForEver(w, more, "c");
  }

  // ---------- One row over the link ----------

  function Flying(net: Net, e: DueRow, op: Op): Net {
    Net(net.wire + {op}, net.passed + {op}, net.replies, Some(Flight([e], [op], [])))
  }

  function Landed(net: Net, op: Op, s: OpStatus): Net {
    Net(net.wire + {op}, net.passed + {op}, net.replies + {(op, s)}, None)
  }

  /** The only row that is due. */
  ghost predicate AloneDue(db: Db, k: Key, at: Time) {
    && k in db.outbox && IsDueRow(db.outbox[k], at)
    && forall l :: l in db.outbox && IsDueRow(db.outbox[l], at) ==> l == k
  }

  lemma SendOne(w: World, k: Key, at: Time, op: Op)
    requires w.db.seriesCode.Some? && w.net.flight.None? && AloneDue(w.db, k, at)
    requires OpFor(w.db, k) == Some(op) && OpAcceptable(op)
    ensures Enabled(w, Send([k], at))
    ensures var e := DueRow(k, w.db.outbox[k].id, w.db.outbox[k].attempts);
            Next(w, Send([k], at)) == w.(net := Flying(w.net, e, op), clock := at)
  {
    hide OpAcceptable, PayloadOf;
    assert [k][..0] == [];
    assert Ops(w.db, [k]) == [op];
    assert RejectMissing(w.db, [k]).outbox == w.db.outbox;
    assert (set o | o in [op]) == {op} && RequestAcceptable([op]);
    assert RowsRead(w.db.outbox, [k]) == [DueRow(k, w.db.outbox[k].id, w.db.outbox[k].attempts)];
  }

  lemma AnswerOne(w: World, e: DueRow, op: Op, env: Env)
    requires op in w.net.passed && w.net.flight == Some(Flight([e], [op], []))
    ensures Enabled(w, Handle(op, env))
    ensures var r := Ingest(w.cloud, op, env);
            var flight := Flight([e], [op], [r.status]);
            Next(w, Handle(op, env)) ==
            w.(cloud := r.cloud, net := w.net.(replies := w.net.replies + {(op, r.status)}, flight := Some(flight)))
  {
    hide Ingest;
    var s := Ingest(w.cloud, op, env).status;
    assert [] + [s] == [s];
  }

  lemma RecordOne(w: World, e: DueRow, op: Op, s: OpStatus, at: Time, backoff: nat -> int)
    requires (op, s) in w.net.replies && w.net.flight == Some(Flight([e], [op], [s])) && KeyOf(op) == e.key
    ensures Enabled(w, Receive([s], at, backoff))
    ensures Next(w, Receive([s], at, backoff)) ==
              w.(db := ApplyReply(w.db, e, s, at, backoff), net := w.net.(flight := None), clock := at)
  {
    hide ApplyReply;
    var rs := Replies([op], [s]);
    assert rs == [Reply(e.key, s)] && rs[..0] == [];
    assert FindDue([e], e.key) == Some(e);
    assert ApplyReplies(w.db, [e], rs, at, backoff)
           == ApplyReply(ApplyReplies(w.db, [e], rs[..0], at, backoff), e, s, at, backoff);
  }

  /** The cloud sees the bill as the terminal has it, and a kitchen update without a failure of its own. */
  predicate Calmly(db: Db, op: Op, env: Env) {
    match op
    case OrderOp(p) => p.clientId in db.orders ==> Agrees(p, db.orders[p.clientId].order.lines)
    case KotOp(_, _, _) => !env.transient
  }

  function Push(k: Key, at: Time, op: Op, env: Env, s: OpStatus, backoff: nat -> int): seq<Action> {
    [Send([k], at), Handle(op, env), Receive([s], at, backoff)]
  }

  /** One row is sent, answered and recorded with nothing in between. */
  lemma PushRow(from: World, run: seq<Action>, w: World, k: Key, at: Time, op: Op, env: Env, backoff: nat -> int)
    returns (more: seq<Action>, n: World)
    requires Leads(from, run, w) && w.db.seriesCode.Some? && w.net.flight.None? && AloneDue(w.db, k, at)
    requires OpFor(w.db, k) == Some(op) && OpAcceptable(op) && KeyOf(op) == k
    requires at >= w.clock && Calmly(w.db, op, env)
    ensures Leads(from, more, n)
    ensures more == run + Push(k, at, op, env, Ingest(w.cloud, op, env).status, backoff)
    ensures var r, e := Ingest(w.cloud, op, env), DueRow(k, w.db.outbox[k].id, w.db.outbox[k].attempts);
            n == World(ApplyReply(w.db, e, r.status, at, backoff), r.cloud, Landed(w.net, op, r.status), w.hist, at)
  {
    hide Leads, Next, Enabled, Ingest, ApplyReply, OpFor, OpAcceptable, Agrees, Takes;
    var e := DueRow(k, w.db.outbox[k].id, w.db.outbox[k].attempts);
    var r := Ingest(w.cloud, op, env);
    SendOne(w, k, at, op);
    Then(from, run, w, Send([k], at));
    var sent := Next(w, Send([k], at));
    AnswerOne(sent, e, op, env);
    Then(from, run + [Send([k], at)], sent, Handle(op, env));
    var answered := Next(sent, Handle(op, env));
    RecordOne(answered, e, op, r.status, at, backoff);
    Then(from, run + [Send([k], at)] + [Handle(op, env)], answered, Receive([r.status], at, backoff));
    more := run + [Send([k], at)] + [Handle(op, env)] + [Receive([r.status], at, backoff)];
    n := Next(answered, Receive([r.status], at, backoff));
  }

  // ---------- A tea that is paid and not acknowledged yet ----------

  const ONE_RUPEE := Settlement([Payment("CASH", 1.0)], 0.0, None, None)

  function PaidTea(prep: PrepStatus, ready: Option<Time>): Order {
    OPEN_TEA.(lines := [TeaLine(prep, ready)], payments := [Payment("CASH", 1.0)], status := Settled,
              receipt := Some(Provisional(1)), closedAt := Some(0))
  }

  lemma OneRupeeIsHundredPaise()
    ensures ToPaise(1.0) == 100 && ToPaise(0.0) == 0 && WholePaise(0.0) && TenderOk(Payment("CASH", 1.0))
    ensures Paid([Payment("CASH", 1.0)]) == 100
  {
    RoundUnique(100.0, 100);
    RoundUnique(0.0, 0);
    assert [Payment("CASH", 1.0)][..0] == [];
  }

  function PaidDb(): Db {
    Ordered().(orders := map["c" := OrderRow(PaidTea(Waiting, None), Queued)],
               outbox := map[OrderKey("c") := NewRow(1, [], 0)], nextOutboxId := 2, legacySeq := 1)
  }

  lemma TeaIsQuoted(db: Db)
    ensures QuoteFor(db, OPEN_TEA, ONE_RUPEE, 0) == Quote(0, Totals(100, 0, 0, 100))
  {
    hide TotalsFor, WholePaise, TenderOk, ToPaise, Paid;
    OneRupeeIsHundredPaise();
    TeaTotals(OPEN_TEA.lines, 0);
  }

  lemma TeaIsPaid()
    ensures SettleOrder(Ordered(), "c", ONE_RUPEE, 0, 0, "2627") == Ok(PaidDb())
  {
    hide QuoteFor;
    TeaIsQuoted(Ordered());
  }

  const PAY_TEA := Settle("c", ONE_RUPEE, 0, 0, "2627")

  const BILL := PayloadOf(PaidTea(Waiting, None))

  /** Ordered, paid, and the terminal activated. */
  function Billed(): World {
    World(PaidDb().(seriesCode := Some("E01")), EMPTY_CLOUD.(series := {"E01"}), START.net,
          History({"c"}, map["c" := PaidTea(Waiting, None)], map[], {}), 0)
  }

  lemma BilledRun() returns (run: seq<Action>)
    ensures Leads(START, run, Billed())
  {
    hide Legal, After, CalmRun, CreateOrder, SettleOrder, TotalsFor, WellFormedSeries, WellFormedYear;
    Begin(START);
    TeaIsOrdered();
    Then(START, [], START, Create(ONE_TEA, "c", 0));
    run := [] + [Create(ONE_TEA, "c", 0)];
    var w1 := Next(START, Create(ONE_TEA, "c", 0));
    TeaIsPaid();
    SeriesIsWellFormed();
    Then(START, run, w1, PAY_TEA);
    run := run + [PAY_TEA];
    var w2 := Next(w1, PAY_TEA);
    Then(START, run, w2, Reactivate("E01"));
    run := run + [Reactivate("E01")];
    assert Next(w2, Reactivate("E01")) == Billed();
  }

  lemma BillIsInShape()
    ensures Acceptable(BILL) && BILL.clientId == "c"
    ensures BILL.items == [PayloadLine("tea", None, 1, 100, 0.0, Waiting, None)] && BILL.combos == []
  {
    OneRupeeIsHundredPaise();
    assert PaidTea(Waiting, None).lines[..0] == [];
    assert LinesOfKind(PaidTea(Waiting, None).lines, ItemLine)
           == [PayloadLine("tea", None, 1, 100, 0.0, Waiting, None)];
    assert LinesOfKind(PaidTea(Waiting, None).lines, ComboLine) == [];
  }

  /** The cloud takes the bill the first time it sees it. */
  lemma BillIsTaken(w: World)
    requires WorldInv(w) && OrderOp(BILL) in w.net.passed && "c" !in w.cloud.orders
    ensures var r := Ingest(w.cloud, OrderOp(BILL), WORKING);
            r.status == Applied && r.cloud.orders == w.cloud.orders["c" := BILL]
  {
    hide WorldInv, FiguresAddUp, BillConflict;
    LetInIsAccepted(w, OrderOp(BILL));
    InsertGrows(w.cloud, BILL);
    hide InsertOrder;
  }

  // ---------- Bumping the tea ----------

  function TeaUpdate(to: PrepStatus, at: Time): seq<KotLine> {
    [KotLine(ItemLine, 0, to, ReadyTime(to, at))]
  }

  /** The database holds the paid tea and its ticket. */
  ghost predicate HoldsTea(db: Db) {
    && "c" in db.orders && |db.orders["c"].order.lines| == 1
    && (var line := db.orders["c"].order.lines[0]; db.orders["c"].order == PaidTea(line.prep, line.preppedAt))
    && TICKET in db.kots && db.kots[TICKET].items == [0] && db.kots[TICKET].status.Live?
  }

  lemma TeaIsBumped(db: Db, to: PrepStatus, at: Time, uuid: string) returns (n: Db)
    requires HoldsTea(db) && KotKey("c", uuid) !in db.outbox
    ensures AdvanceTicket(db, TICKET, to, at, uuid) == Ok(n) && HoldsTea(n) && n.kots[TICKET].updatedAt == at
    ensures n.orders == db.orders["c" := OrderRow(PaidTea(to, ReadyTime(to, at)), db.orders["c"].sync)]
    ensures n.seriesCode == db.seriesCode
    ensures var row := NewRow(db.nextOutboxId, TeaUpdate(to, at), at);
            n.outbox == if Acknowledged(db, "c") then db.outbox[KotKey("c", uuid) := row] else db.outbox
    ensures n.nextOutboxId == db.nextOutboxId + if Acknowledged(db, "c") then 1 else 0
  {
    var lines := db.orders["c"].order.lines;
    assert MarkLines(lines, [0], to, at) == [TeaLine(to, ReadyTime(to, at))];
    assert [TeaLine(to, ReadyTime(to, at))][..0] == [];
    assert KotLines([TeaLine(to, ReadyTime(to, at))]) == TeaUpdate(to, at);
    n := AdvanceTicket(db, TICKET, to, at, uuid).db;
  }

  lemma TeaDisagrees(p: Payload, to: PrepStatus, ready: Option<Time>)
    requires |p.items| == 1 && p.items[0].prep != to
    ensures !Agrees(p, PaidTea(to, ready).lines)
  {
    var lines := PaidTea(to, ready).lines;
    assert lines[..0] == [];
    assert LinesOfKind(lines, ItemLine) == [PayloadLineOf(lines[0])];
    assert Preps(LinesOfKind(lines, ItemLine))[0] == to;
  }

  /** Nothing is left to send, and yet the cloud and the terminal differ on the tea. */
  ghost predicate EndsApart(w: World) {
    && w.net.flight.None? && PendingKeys(w.db.outbox) == {}
    && "c" in w.db.orders && w.db.orders["c"].sync == Synced && "c" in w.cloud.orders
    && !Agrees(w.cloud.orders["c"], w.db.orders["c"].order.lines)
  }

  /** A bump as a step of the run. */
  lemma BumpStep(w: World, to: PrepStatus, at: Time, uuid: string) returns (n: World)
    requires HoldsTea(w.db) && KotKey("c", uuid) !in w.db.outbox && uuid !in w.hist.uuids
    ensures Enabled(w, Bump(TICKET, to, at, uuid)) && n == Next(w, Bump(TICKET, to, at, uuid))
    ensures n == w.(db := n.db, hist := w.hist.(uuids := w.hist.uuids + {uuid}), clock := at)
    ensures HoldsTea(n.db) && n.db.kots[TICKET].updatedAt == at
    ensures n.db.orders == w.db.orders["c" := OrderRow(PaidTea(to, ReadyTime(to, at)), w.db.orders["c"].sync)]
    ensures n.db.seriesCode == w.db.seriesCode
    ensures var row := NewRow(w.db.nextOutboxId, TeaUpdate(to, at), at);
            n.db.outbox == if Acknowledged(w.db, "c") then w.db.outbox[KotKey("c", uuid) := row] else w.db.outbox
    ensures n.db.nextOutboxId == w.db.nextOutboxId + if Acknowledged(w.db, "c") then 1 else 0
  {
    hide AdvanceTicket;
    var db := TeaIsBumped(w.db, to, at, uuid);
    n := Next(w, Bump(TICKET, to, at, uuid));
  }

  // ---------- A bill under way ----------

  const SEND_BILL := Send([OrderKey("c")], 0)
  const TAKE_BILL := Handle(OrderOp(BILL), WORKING)
  const BILL_ROW := DueRow(OrderKey("c"), 1, 0)

  /** The bill is read and on its way. */
  lemma SentRun() returns (run: seq<Action>, w: World)
    ensures Leads(START, run, w) && OrderOp(BILL) in w.net.passed
    ensures w.net.flight == Some(Flight([BILL_ROW], [OrderOp(BILL)], []))
    ensures HoldsTea(w.db) && w.db.orders["c"] == OrderRow(PaidTea(Waiting, None), Queued)
    ensures w.db.outbox == map[OrderKey("c") := NewRow(1, [], 0)] && w.db.nextOutboxId == 2 && w.db.seriesCode.Some?
    ensures w.hist.uuids == {} && w.cloud.orders == map[] && w.clock == 0
  {
    hide Legal, After, CalmRun, Next, Enabled, PayloadOf, Acceptable, Leads;
    var billed := BilledRun();
    BillIsInShape();
    SendOne(Billed(), OrderKey("c"), 0, OrderOp(BILL));
    Then(START, billed, Billed(), SEND_BILL);
    run := billed + [SEND_BILL];
    w := Next(Billed(), SEND_BILL);
  }

  /** The cloud takes the bill now, as it was read. */
  lemma TakeStep(w: World) returns (n: World)
    requires WorldInv(w) && OrderOp(BILL) in w.net.passed && "c" !in w.cloud.orders
    requires w.net.flight == Some(Flight([BILL_ROW], [OrderOp(BILL)], []))
    ensures Enabled(w, TAKE_BILL) && n == Next(w, TAKE_BILL)
    ensures n.db == w.db && n.hist == w.hist && n.clock == w.clock && n.cloud.orders == w.cloud.orders["c" := BILL]
    ensures (OrderOp(BILL), Applied) in n.net.replies
    ensures n.net.flight == Some(Flight([BILL_ROW], [OrderOp(BILL)], [Applied]))
    ensures Takes(w.cloud, BILL, WORKING)
  {
    hide WorldInv, Ingest, Enabled, Next, PayloadOf;
    BillIsInShape();
    BillIsTaken(w);
    AnswerOne(w, BILL_ROW, OrderOp(BILL), WORKING);
    n := Next(w, TAKE_BILL);
  }

  const RECORD_BILL := Receive([Applied], 0, _ => 0)

  /** The answer is recorded. */
  lemma RecordStep(w: World) returns (n: World)
    requires w.db.outbox == map[OrderKey("c") := NewRow(1, [], 0)] && "c" in w.db.orders && w.clock == 0
    requires (OrderOp(BILL), Applied) in w.net.replies
    requires w.net.flight == Some(Flight([BILL_ROW], [OrderOp(BILL)], [Applied]))
    ensures Enabled(w, RECORD_BILL) && Calm(w, RECORD_BILL) && n == Next(w, RECORD_BILL)
    ensures n.cloud == w.cloud && n.net.flight.None? && n.hist == w.hist && n.clock == 0
    ensures n.db == w.db.(orders := w.db.orders["c" := w.db.orders["c"].(sync := Synced)], outbox := n.db.outbox)
    ensures n.db.outbox == map[OrderKey("c") := NewRow(1, [], 0).(status := Done, attempts := 1, doneAt := Some(0))]
  {
    hide PayloadOf, Enabled, Next;
    BillIsInShape();
    RecordOne(w, BILL_ROW, OrderOp(BILL), Applied, 0, _ => 0);
    n := Next(w, RECORD_BILL);
  }

  /** The terminal has the tea ready and nothing to send, and the cloud has the bill as it was read. */
  lemma BillIsBehind(w: World)
    requires w.net.flight.None? && w.db.outbox.Keys == {OrderKey("c")} && w.db.outbox[OrderKey("c")].status == Done
    requires "c" in w.db.orders && w.db.orders["c"] == OrderRow(PaidTea(Ready, Some(0)), Synced)
    requires "c" in w.cloud.orders && w.cloud.orders["c"] == BILL
    ensures EndsApart(w)
  {
    hide PaidTea, PayloadOf;
    BillIsInShape();
    TeaDisagrees(BILL, Ready, Some(0));
  }

  /** The tea is ready after its bill reached the cloud and before the terminal knows: the cloud never learns. */
  lemma BumpInDoubtIsLost() returns (before: seq<Action>, after: seq<Action>)
    ensures Slips(before, Bump(TICKET, Ready, 0, "u"), after)
    ensures EndsApart(EndOf(before, Bump(TICKET, Ready, 0, "u"), after))
    ensures var w := After(START, before);
            && "c" in w.cloud.orders && w.clock == 0
            && OrderKey("c") in w.db.outbox && w.db.outbox[OrderKey("c")].status == Pending
  {
    hide Legal, After, CalmRun, Next, Enabled, PayloadOf, Ingest, Agrees, WorldInv, Leads, Slips, EndOf, PaidTea,
      Takes, EndsApart;
    var sent;
    before, sent := SentRun();
    LeadsToInv(before, sent);
    BillIsInShape();
    var taken := TakeStep(sent);
    FreshPayloadAgrees(PaidTea(Waiting, None));
    Then(START, before, sent, TAKE_BILL);
    before := before + [TAKE_BILL];
    var bumped := BumpStep(taken, Ready, 0, "u");
    var w := RecordStep(bumped);
    Begin(bumped);
    Then(bumped, [], bumped, RECORD_BILL);
    after := [] + [RECORD_BILL];
    Told(before, taken, Bump(TICKET, Ready, 0, "u"), after, w);
    BillIsBehind(w);
  }

  /** The bill is on its way, and the tea was bumped since it was read. */
  lemma BumpedUnderWay() returns (run: seq<Action>, w: World)
    ensures Leads(START, run, w) && WorldInv(w) && Bump(TICKET, Ready, 0, "u") in run
    ensures "c" in w.db.orders && w.db.orders["c"] == OrderRow(PaidTea(Ready, Some(0)), Queued)
    ensures w.db.outbox == map[OrderKey("c") := NewRow(1, [], 0)] && OrderOp(BILL) in w.net.passed
    ensures w.net.flight == Some(Flight([BILL_ROW], [OrderOp(BILL)], []))
    ensures w.cloud.orders == map[] && w.clock == 0
  {
    hide Legal, After, CalmRun, Next, Enabled, PayloadOf, WorldInv, Leads, PaidTea;
    var sent, v := SentRun();
    w := BumpStep(v, Ready, 0, "u");
    Then(START, sent, v, Bump(TICKET, Ready, 0, "u"));
    run := sent + [Bump(TICKET, Ready, 0, "u")];
    LeadsToInv(run, w);
  }

  /** The tea is ready after its bill was read and before the bill reached the cloud: the cloud never learns. */
  lemma StaleSnapshotStays() returns (before: seq<Action>, after: seq<Action>)
    ensures Slips(before, TAKE_BILL, after) && EndsApart(EndOf(before, TAKE_BILL, after))
    ensures Bump(TICKET, Ready, 0, "u") in before && "c" !in After(START, before).cloud.orders
  {
    hide Legal, After, CalmRun, Next, Enabled, PayloadOf, Ingest, Agrees, WorldInv, Leads, Slips, EndOf, PaidTea,
      Takes, EndsApart;
    var bumped;
    before, bumped := BumpedUnderWay();
    var taken := TakeStep(bumped);
    BillIsInShape();
    TeaDisagrees(BILL, Ready, Some(0));
    var w := RecordStep(taken);
    Begin(taken);
    Then(taken, [], taken, RECORD_BILL);
    after := [] + [RECORD_BILL];
    Told(before, bumped, TAKE_BILL, after, w);
    BillIsBehind(w);
  }

  // ---------- A bill that is acknowledged ----------

  const BUSY := Env(true, false, false)

  lemma UpdateIsTaken(cloud: Cloud, uuid: string, to: PrepStatus, at: Time)
    requires "c" in cloud.orders && |cloud.orders["c"].items| == 1
    ensures var r := Ingest(cloud, KotOp("c", uuid, TeaUpdate(to, at)), WORKING);
            && r.status == Applied && "c" in r.cloud.orders
            && |r.cloud.orders["c"].items| == 1 && r.cloud.orders["c"].items[0].prep == to
    ensures Ingest(cloud, KotOp("c", uuid, TeaUpdate(to, at)), BUSY) == Ingested(cloud, Retry)
  {
    var update := TeaUpdate(to, at);
    assert update[..0] == [];
    assert ApplyKot(cloud.orders["c"], update) == SetLine(ApplyKot(cloud.orders["c"], update[..0]), update[0]);
  }

  /** The tea is paid and the cloud has acknowledged the bill. */
  lemma AcknowledgedRun() returns (run: seq<Action>, w: World)
    ensures Leads(START, run, w) && HoldsTea(w.db) && w.db.orders["c"] == OrderRow(PaidTea(Waiting, None), Synced)
    ensures w.db.outbox.Keys == {OrderKey("c")} && w.db.nextOutboxId == 2
    ensures w.db.outbox[OrderKey("c")].status == Done && w.db.outbox[OrderKey("c")].doneAt == Some(0)
    ensures w.db.seriesCode.Some? && w.net.flight.None? && w.hist.uuids == {} && w.clock == 0
    ensures "c" in w.cloud.orders && |w.cloud.orders["c"].items| == 1
  {
    hide Legal, After, CalmRun, Next, Enabled, PayloadOf, Ingest, WorldInv, Leads, Agrees, PaidTea, Takes;
    var sent;
    run, sent := SentRun();
    LeadsToInv(run, sent);
    BillIsInShape();
    var taken := TakeStep(sent);
    FreshPayloadAgrees(PaidTea(Waiting, None));
    Then(START, run, sent, TAKE_BILL);
    run := run + [TAKE_BILL];
    w := RecordStep(taken);
    Then(START, run, taken, RECORD_BILL);
    run := run + [RECORD_BILL];
  }

  const FIRST := KotKey("c", "u1")
  const SECOND := KotKey("c", "u2")

  function Update(uuid: string, to: PrepStatus, at: Time): Op {
    KotOp("c", uuid, TeaUpdate(to, at))
  }

  /** The tea is bumped once its bill is acknowledged, and the update waits. */
  lemma FirstBump(at: Time) returns (run: seq<Action>, w: World)
    requires at >= 0
    ensures Leads(START, run, w) && HoldsTea(w.db) && w.db.kots[TICKET].updatedAt == at
    ensures w.db.orders["c"] == OrderRow(PaidTea(Preparing, None), Synced)
    ensures w.db.outbox.Keys == {OrderKey("c"), FIRST} && w.db.nextOutboxId == 3
    ensures w.db.outbox[OrderKey("c")].status == Done && w.db.outbox[OrderKey("c")].doneAt == Some(0)
    ensures w.db.outbox[FIRST] == NewRow(2, TeaUpdate(Preparing, at), at)
    ensures w.db.seriesCode.Some? && w.net.flight.None? && w.hist.uuids == {"u1"} && w.clock == at
    ensures "c" in w.cloud.orders && |w.cloud.orders["c"].items| == 1
  {
    hide Legal, After, CalmRun, Next, Enabled, PayloadOf, WorldInv, PaidTea, Leads;
    var acknowledged, v := AcknowledgedRun();
    w := BumpStep(v, Preparing, at, "u1");
    Then(START, acknowledged, v, Bump(TICKET, Preparing, at, "u1"));
    run := acknowledged + [Bump(TICKET, Preparing, at, "u1")];
  }

  /** What a pushed update leaves behind when the cloud works. */
  lemma UpdateIsPushed(from: World, run: seq<Action>, w: World, uuid: string, to: PrepStatus, made: Time, at: Time)
    returns (more: seq<Action>, n: World)
    requires Leads(from, run, w) && w.db.seriesCode.Some? && w.net.flight.None? && at >= w.clock
    requires AloneDue(w.db, KotKey("c", uuid), at) && w.db.outbox[KotKey("c", uuid)].lines == TeaUpdate(to, made)
    requires "c" in w.cloud.orders && |w.cloud.orders["c"].items| == 1
    ensures Leads(from, more, n) && n.hist == w.hist && n.clock == at && n.net.flight.None?
    ensures more == run + Push(KotKey("c", uuid), at, Update(uuid, to, made), WORKING, Applied, _ => 0)
    ensures n.net.passed == w.net.passed + {Update(uuid, to, made)}
    ensures n.db == w.db.(outbox := n.db.outbox)
    ensures var row := w.db.outbox[KotKey("c", uuid)];
            n.db.outbox == w.db.outbox[KotKey("c", uuid) :=
                             row.(status := Done, attempts := row.attempts + 1, doneAt := Some(at))]
    ensures "c" in n.cloud.orders && |n.cloud.orders["c"].items| == 1 && n.cloud.orders["c"].items[0].prep == to
  {
    hide Legal, After, CalmRun, Next, Enabled, Ingest, Leads;
    UpdateIsTaken(w.cloud, uuid, to, made);
    more, n := PushRow(from, run, w, KotKey("c", uuid), at, Update(uuid, to, made), WORKING, _ => 0);
  }

  /** The second update is sent while the first still waits; the first then arrives and stays. */
  lemma FirstArrivesLast(from: World, run: seq<Action>, w: World, first: Time, second: Time)
    returns (more: seq<Action>, n: World)
    requires Leads(from, run, w) && w.clock <= second < 5000
    requires "c" in w.db.orders && w.db.orders["c"] == OrderRow(PaidTea(Ready, Some(second)), Synced)
    requires w.db.outbox.Keys == {OrderKey("c"), FIRST, SECOND} && w.db.outbox[OrderKey("c")].status == Done
    requires w.db.outbox[FIRST].status == Pending && w.db.outbox[FIRST].lines == TeaUpdate(Preparing, first)
    requires w.db.outbox[FIRST].nextAttemptAt == 5000
    requires w.db.outbox[SECOND] == NewRow(3, TeaUpdate(Ready, second), second)
    requires w.db.seriesCode.Some? && w.net.flight.None? && "c" in w.cloud.orders && |w.cloud.orders["c"].items| == 1
    ensures Leads(from, more, n) && EndsApart(n)
    ensures n.db.outbox.Keys == w.db.outbox.Keys
    ensures n.db.outbox[FIRST].lines == w.db.outbox[FIRST].lines && n.db.outbox[FIRST].id == w.db.outbox[FIRST].id
    ensures n.db.outbox[SECOND].lines == w.db.outbox[SECOND].lines && n.db.outbox[SECOND].id == 3
    ensures |n.cloud.orders["c"].items| == 1 && n.cloud.orders["c"].items[0].prep == Preparing
  {
    hide Legal, After, CalmRun, Next, Enabled, Ingest, Agrees, PaidTea, Leads, TeaUpdate, Push;
    var between, v := UpdateIsPushed(from, run, w, "u2", Ready, second, second);
    more, n := UpdateIsPushed(from, between, v, "u1", Preparing, first, 5000);
    TeaDisagrees(n.cloud.orders["c"], Ready, Some(second));
  }

  // ---------- An update that is retried ----------

  const FIRST_BUSY := Handle(Update("u1", Preparing, 0), BUSY)

  /** The first update is on its way. */
  lemma FirstUpdateSent() returns (run: seq<Action>, w: World)
    ensures Leads(START, run, w) && HoldsTea(w.db) && w.db.orders["c"].sync == Synced
    ensures w.db.outbox.Keys == {OrderKey("c"), FIRST} && w.db.outbox[OrderKey("c")].status == Done
    ensures w.db.outbox[FIRST] == NewRow(2, TeaUpdate(Preparing, 0), 0) && w.db.nextOutboxId == 3
    ensures w.db.seriesCode.Some? && w.hist.uuids == {"u1"} && w.clock == 0
    ensures Update("u1", Preparing, 0) in w.net.passed
    ensures w.net.flight == Some(Flight([DueRow(FIRST, 2, 0)], [Update("u1", Preparing, 0)], []))
    ensures "c" in w.cloud.orders && |w.cloud.orders["c"].items| == 1
  {
    hide Legal, After, CalmRun, Next, Enabled, PaidTea, Leads;
    var first, v := FirstBump(0);
    SendOne(v, FIRST, 0, Update("u1", Preparing, 0));
    Then(START, first, v, Send([FIRST], 0));
    run := first + [Send([FIRST], 0)];
    w := Next(v, Send([FIRST], 0));
  }

  /** It is answered `retry`, and waits for five seconds. */
  lemma FirstUpdateWaits(v: World) returns (run: seq<Action>, busy: World, w: World)
    requires HoldsTea(v.db) && v.db.orders["c"].sync == Synced
    requires v.db.outbox.Keys == {OrderKey("c"), FIRST} && v.db.outbox[OrderKey("c")].status == Done
    requires v.db.outbox[FIRST] == NewRow(2, TeaUpdate(Preparing, 0), 0)
    requires Update("u1", Preparing, 0) in v.net.passed && v.clock == 0
    requires v.net.flight == Some(Flight([DueRow(FIRST, 2, 0)], [Update("u1", Preparing, 0)], []))
    requires "c" in v.cloud.orders && |v.cloud.orders["c"].items| == 1
    ensures Enabled(v, FIRST_BUSY) && busy == Next(v, FIRST_BUSY) && Leads(busy, run, w)
    ensures w.db == v.db.(outbox := v.db.outbox[FIRST := v.db.outbox[FIRST].(attempts := 1, nextAttemptAt := 5000)])
    ensures w.cloud == v.cloud && w.hist == v.hist && w.clock == 0 && w.net.flight.None?
  {
    hide Legal, After, CalmRun, Next, Enabled, PaidTea, Leads, Ingest;
    var e, op := DueRow(FIRST, 2, 0), Update("u1", Preparing, 0);
    UpdateIsTaken(v.cloud, "u1", Preparing, 0);
    AnswerOne(v, e, op, BUSY);
    busy := Next(v, FIRST_BUSY);
    var record := Receive([Retry], 0, _ => 5000);
    RecordOne(busy, e, op, Retry, 0, _ => 5000);
    Begin(busy);
    Then(busy, [], busy, record);
    run := [] + [record];
    w := Next(busy, record);
  }

  /**
   The first update is answered `retry`; the second, made while the first waits, overtakes it; the
   first then arrives and stays.
   */
  lemma RetriedUpdateOverwritesNewer() returns (before: seq<Action>, after: seq<Action>)
    ensures Slips(before, FIRST_BUSY, after) && EndsApart(EndOf(before, FIRST_BUSY, after))
    ensures NextInFlight(After(START, before).net, Update("u1", Preparing, 0))
    ensures var w := EndOf(before, FIRST_BUSY, after);
            && FIRST in w.db.outbox && SECOND in w.db.outbox && w.db.outbox[FIRST].id < w.db.outbox[SECOND].id
            && w.db.outbox[FIRST].lines == TeaUpdate(Preparing, 0)
            && w.db.outbox[SECOND].lines == TeaUpdate(Ready, 1000)
            && |w.cloud.orders["c"].items| == 1 && w.cloud.orders["c"].items[0].prep == Preparing
  {
    hide Legal, After, CalmRun, Next, Enabled, Ingest, Agrees, PaidTea, Leads, Slips, EndOf, EndsApart, TeaUpdate;
    var sent, busy, waits, w;
    before, sent := FirstUpdateSent();
    after, busy, waits := FirstUpdateWaits(sent);
    var n := BumpStep(waits, Ready, 1000, "u2");
    Then(busy, after, waits, Bump(TICKET, Ready, 1000, "u2"));
    after, w := FirstArrivesLast(busy, after + [Bump(TICKET, Ready, 1000, "u2")], n, 0, 1000);
    Told(before, sent, FIRST_BUSY, after, w);
  }

  // ---------- An update that arrives twice ----------

  const FIRST_AGAIN := Handle(Update("u1", Preparing, 0), WORKING)

  /** Two updates, each sent and acknowledged in turn. */
  lemma BothAcknowledged() returns (run: seq<Action>, w: World)
    ensures Leads(START, run, w) && HoldsTea(w.db) && FIRST_AGAIN in run
    ensures w.db.orders["c"] == OrderRow(PaidTea(Ready, Some(1000)), Synced)
    ensures PendingKeys(w.db.outbox) == {} && w.net.flight.None? && Update("u1", Preparing, 0) in w.net.passed
    ensures "c" in w.cloud.orders && |w.cloud.orders["c"].items| == 1
  {
    hide Legal, After, CalmRun, Next, Enabled, Ingest, PaidTea, Leads;
    var first, v := FirstBump(0);
    var pushed, u := UpdateIsPushed(START, first, v, "u1", Preparing, 0, 0);
    assert pushed[|first| + 1] == FIRST_AGAIN;
    var n := BumpStep(u, Ready, 1000, "u2");
    var bump := Bump(TICKET, Ready, 1000, "u2");
    Then(START, pushed, u, bump);
    run, w := UpdateIsPushed(START, pushed + [bump], n, "u2", Ready, 1000, 1000);
    assert run[|first| + 1] == FIRST_AGAIN;
  }

  /** A copy of the first request arrives once more, after the second update: the cloud goes back to the first. */
  lemma RepeatedRequestOverwritesNewer() returns (before: seq<Action>)
    ensures FIRST_AGAIN in before && Slips(before, FIRST_AGAIN, []) && EndsApart(EndOf(before, FIRST_AGAIN, []))
  {
    hide Legal, After, CalmRun, Ingest, Agrees, PaidTea, Leads, Slips, EndOf;
    var v;
    before, v := BothAcknowledged();
    UpdateIsTaken(v.cloud, "u1", Preparing, 0);
    var w := Next(v, FIRST_AGAIN);
    Begin(w);
    Told(before, v, FIRST_AGAIN, [], w);
    TeaDisagrees(w.cloud.orders["c"], Ready, Some(1000));
  }

  // ---------- A clock that goes back ----------

  /** The second update is stamped before the first, and so is sent alone; the first then arrives and stays. */
  lemma ClockBackOverwritesNewer() returns (before: seq<Action>, after: seq<Action>)
    ensures Slips(before, Bump(TICKET, Ready, 0, "u2"), after)
    ensures EndsApart(EndOf(before, Bump(TICKET, Ready, 0, "u2"), after))
    ensures After(START, before).clock == 5000 && Acknowledged(After(START, before).db, "c")
  {
    hide Legal, After, CalmRun, Next, Enabled, Ingest, Agrees, PaidTea, Leads, Slips, EndOf, EndsApart, TeaUpdate;
    var v, w;
    before, v := FirstBump(5000);
    var n := BumpStep(v, Ready, 0, "u2");
    Begin(n);
    after, w := FirstArrivesLast(n, [], n, 5000, 0);
    Told(before, v, Bump(TICKET, Ready, 0, "u2"), after, w);
  }

  // ---------- An acknowledgement that is purged ----------

  const WEEK := 7 * DAY_MS + 1
  const TIDY := Retain(WEEK, 30, 7)

  lemma TidyStep(w: World) returns (n: World)
    requires HoldsTea(w.db) && w.db.kots[TICKET].updatedAt == 6 * DAY_MS && w.db.orders["c"].sync == Synced
    requires w.db.outbox.Keys == {OrderKey("c"), FIRST} && w.clock == 6 * DAY_MS
    requires w.db.outbox[OrderKey("c")].status == Done && w.db.outbox[OrderKey("c")].doneAt == Some(0)
    requires w.db.outbox[FIRST].status == Done && w.db.outbox[FIRST].doneAt == Some(6 * DAY_MS)
    ensures Enabled(w, TIDY) && Calm(w, TIDY) && n == Next(w, TIDY)
    ensures n.cloud == w.cloud && n.net == w.net && n.hist == w.hist && n.clock == WEEK
    ensures HoldsTea(n.db) && n.db.orders["c"] == w.db.orders["c"]
    ensures n.db.outbox == map[FIRST := w.db.outbox[FIRST]]
  {
    hide Purge, HoldsTea;
    n := Next(w, TIDY);
    TeaIsKept(w.db);
    RowIsPurged(w.db);
  }

  lemma TeaIsKept(db: Db)
    requires HoldsTea(db) && db.kots[TICKET].updatedAt == 6 * DAY_MS
    ensures var n := Purge(db, WEEK, 30, 7);
            HoldsTea(n) && n.orders["c"] == db.orders["c"]
  {}

  lemma RowIsPurged(db: Db)
    requires db.outbox.Keys == {OrderKey("c"), FIRST}
    requires db.outbox[OrderKey("c")].status == Done && db.outbox[OrderKey("c")].doneAt == Some(0)
    requires db.outbox[FIRST].status == Done && db.outbox[FIRST].doneAt == Some(6 * DAY_MS)
    ensures Purge(db, WEEK, 30, 7).outbox == map[FIRST := db.outbox[FIRST]]
  {}

  /** After a week the acknowledgement is purged, and a ticket still in use can no longer report. */
  lemma BumpAfterPurgeIsLost() returns (before: seq<Action>)
    ensures Slips(before, Bump(TICKET, Ready, WEEK, "u2"), [])
    ensures EndsApart(EndOf(before, Bump(TICKET, Ready, WEEK, "u2"), []))
    ensures TIDY in before && OrderKey("c") !in After(START, before).db.outbox
  {
    hide Legal, After, CalmRun, Next, Enabled, Ingest, Agrees, PaidTea, Leads, Slips, EndOf, Purge;
    var first, v := FirstBump(6 * DAY_MS);
    var pushed, u := UpdateIsPushed(START, first, v, "u1", Preparing, 6 * DAY_MS, 6 * DAY_MS);
    var tidied := TidyStep(u);
    Then(START, pushed, u, TIDY);
    before := pushed + [TIDY];
    var w := BumpStep(tidied, Ready, WEEK, "u2");
    Begin(w);
    Told(before, tidied, Bump(TICKET, Ready, WEEK, "u2"), [], w);
    TeaDisagrees(w.cloud.orders["c"], Ready, Some(WEEK));
  }

  // ---------- A coupon used twice ----------

  /** Half a rupee off, once. */
  const HALF_OFF := Coupon(Flat, 0.5, 0.0, None, None, None, Some(1), 0, true)
  const COUPONS := map["X" := HALF_OFF]
  const HALF_PRICE := Settlement([Payment("CASH", 0.5)], 0.0, Some("X"), None)

  lemma HalfRupee()
    ensures ToPaise(0.5) == 50 && ToPaise(0.0) == 0 && WholePaise(0.0) && TenderOk(Payment("CASH", 0.5))
    ensures ExactPaise(0.5)
    ensures ExactPaise(0.0) && Paid([Payment("CASH", 0.5)]) == 50
  {
    RoundUnique(50.0, 50);
    RoundUnique(0.0, 0);
    assert [Payment("CASH", 0.5)][..0] == [];
  }

  lemma CouponIsGood(db: Db)
    requires db.coupons == COUPONS && Unsynced(db.orders, "X") == {}
    ensures PreviewCoupon(db, "X", 100, 0) == Valid(50)
  {
    RoundUnique(50.0, 50);
    assert FromPaise(100) == 1.0;
  }

  lemma HalfPriceIsQuoted(db: Db, c: ClientId)
    requires db.coupons == COUPONS && Unsynced(db.orders, "X") == {}
    ensures QuoteFor(db, OpenTea(c), HALF_PRICE, 0) == Quote(50, Totals(100, 50, 0, 50))
  {
    hide TotalsFor, WholePaise, TenderOk, ToPaise, Paid, PreviewCoupon, Unsynced;
    HalfRupee();
    CouponIsGood(db);
    TeaTotals(OpenTea(c).lines, 0);
    TeaTotals(OpenTea(c).lines, 50);
  }

  lemma OrderStep(w: World, c: ClientId) returns (n: World)
    requires c !in w.hist.used && c !in w.db.orders
    ensures Enabled(w, Create(ONE_TEA, c, 0)) && n == Next(w, Create(ONE_TEA, c, 0))
    ensures n.db == w.db.(orders := w.db.orders[c := OrderRow(OpenTea(c), Local)], kots := n.db.kots)
    ensures n == w.(db := n.db, hist := w.hist.(used := w.hist.used + {c}), clock := 0)
  {
    hide FireOrder, FireTickets, FreshOrder;
    FiredFor(c);
    assert FreshOrder(ONE_TEA, c, 0).clientId == c by { FreshNamed(c); }
    n := Next(w, Create(ONE_TEA, c, 0));
  }

  lemma FreshNamed(c: ClientId)
    ensures FreshOrder(ONE_TEA, c, 0).clientId == c
  {}

  function HalfPriceTea(c: ClientId, bill: Option<BillNo>, receipt: ReceiptRef): Order {
    OpenTea(c).(totals := Totals(100, 50, 0, 50), payments := [Payment("CASH", 0.5)], couponCode := Some("X"),
                couponPaise := 50, status := Settled, billNo := bill, receipt := Some(receipt), closedAt := Some(0))
  }

  lemma HalfPriceIs(c: ClientId, bill: Option<BillNo>, receipt: ReceiptRef)
    ensures SettledOrder(OpenTea(c), HALF_PRICE, Quote(50, Totals(100, 50, 0, 50)), bill, receipt, 0)
            == HalfPriceTea(c, bill, receipt)
  {}

  /** Settling an open order with a good quote, as a step of the run. */
  lemma SettleStep(w: World, a: Action)
    requires a.Settle? && WellFormedYear(a.fy) && IsOpen(w.db, a.c) && w.db.orders[a.c].order.clientId == a.c
    requires OrderKey(a.c) !in w.db.outbox && QuoteFor(w.db, w.db.orders[a.c].order, a.s, a.trueNow).Quote?
    requires w.db.seriesCode.Some? ==> Format(NextBillNo(w.db, w.db.seriesCode.value, a.fy)).Some?
    ensures Enabled(w, a)
    ensures var n, q := Next(w, a), QuoteFor(w.db, w.db.orders[a.c].order, a.s, a.trueNow);
            && n.cloud == w.cloud && n.net == w.net && n.clock == a.at
            && n.hist.used == w.hist.used && a.c in n.db.orders
            && (var o := n.db.orders[a.c].order;
                && n.hist.closed == w.hist.closed[a.c := o]
                && n.db.orders == w.db.orders[a.c := OrderRow(o, Queued)]
                && o.receipt.Some?
                && o == SettledOrder(w.db.orders[a.c].order, a.s, q, o.billNo, o.receipt.value, a.at)
                && (w.db.seriesCode.None? ==> n.db.billSeries == w.db.billSeries && o.billNo.None?))
            && n.db.outbox == w.db.outbox[OrderKey(a.c) := NewRow(w.db.nextOutboxId, [], a.at)]
            && n.db.coupons == w.db.coupons && n.db.seriesCode == w.db.seriesCode
  {
    hide QuoteFor, Format, SettleOrder, Closes, SettledOrder;
    SettleSucceeds(w.db, a);
    SettleCloses(w.db, a.c, a.s, a.at, a.trueNow, a.fy);
    SettleKeepsCoupons(w.db, a.c, a.s, a.at, a.trueNow, a.fy);
    ClosedRows(w.db, Transact(w.db, a).db, a.c, Transact(w.db, a).db.orders[a.c].order, a.at);
  }

  lemma ClosedRows(db: Db, n: Db, c: ClientId, o: Order, at: Time)
    requires Closes(db, n, c, o, at)
    ensures n.orders == db.orders[c := OrderRow(o, Queued)] && n.seriesCode == db.seriesCode
    ensures n.outbox == db.outbox[OrderKey(c) := NewRow(db.nextOutboxId, [], at)]
  {}

  lemma SettleSucceeds(db: Db, a: Action)
    requires a.Settle? && IsOpen(db, a.c) && QuoteFor(db, db.orders[a.c].order, a.s, a.trueNow).Quote?
    requires db.seriesCode.Some? ==> Format(NextBillNo(db, db.seriesCode.value, a.fy)).Some?
    ensures SettleOrder(db, a.c, a.s, a.at, a.trueNow, a.fy).Ok?
  {
    hide QuoteFor, Format, SaveClosed, SettledOrder;
  }

  /** While the terminal knows of no redemption, the coupon is good for another tea. */
  lemma RedeemStep(w: World, c: ClientId) returns (n: World, o: Order)
    requires c in w.db.orders && w.db.orders[c] == OrderRow(OpenTea(c), Local) && OrderKey(c) !in w.db.outbox
    requires w.db.coupons == COUPONS && Unsynced(w.db.orders, "X") == {}
    requires w.db.seriesCode.Some? ==> Format(NextBillNo(w.db, w.db.seriesCode.value, "2627")).Some?
    ensures Enabled(w, Settle(c, HALF_PRICE, 0, 0, "2627")) && n == Next(w, Settle(c, HALF_PRICE, 0, 0, "2627"))
    ensures n.cloud == w.cloud && n.net == w.net && n.clock == 0
    ensures n.hist.used == w.hist.used && n.hist.closed == w.hist.closed[c := o]
    ensures n.db.orders == w.db.orders[c := OrderRow(o, Queued)]
    ensures n.db.outbox == w.db.outbox[OrderKey(c) := NewRow(w.db.nextOutboxId, [], 0)]
    ensures n.db.coupons == w.db.coupons && n.db.seriesCode == w.db.seriesCode
    ensures w.db.seriesCode.None? ==> n.db.billSeries == w.db.billSeries && o.billNo.None?
    ensures o.receipt.Some? && o == HalfPriceTea(c, o.billNo, o.receipt.value)
  {
    hide QuoteFor, Format, Unsynced, SettledOrder, SettleOrder, Enabled, Next;
    HalfPriceIsQuoted(w.db, c);
    var s := Settle(c, HALF_PRICE, 0, 0, "2627");
    SettleStep(w, s);
    n := Next(w, s);
    o := n.db.orders[c].order;
    HalfPriceIs(c, o.billNo, o.receipt.value);
  }

  lemma HalfPriceIsInShape(o: Order)
    requires o.receipt.Some? && o == HalfPriceTea(o.clientId, None, o.receipt.value)
    ensures Acceptable(PayloadOf(o)) && PayloadOf(o).clientId == o.clientId
  {
    HalfRupee();
    assert o.lines[..0] == [];
    assert LinesOfKind(o.lines, ItemLine) == [PayloadLineOf(o.lines[0])];
    assert LinesOfKind(o.lines, ComboLine) == [];
  }

  /** The closed orders that redeemed the coupon. */
  function Redeemed(h: History, code: string): set<ClientId> {
    set c | c in h.closed && h.closed[c].status == Settled && h.closed[c].couponCode == Some(code)
  }

  /** The catalog arrives once, with the coupon unused, and before anything else. */
  predicate FedOnce(run: seq<Action>) {
    run != [] && run[0] == Refeed(map[], COUPONS) && forall i :: 1 <= i < |run| ==> !run[i].Refeed?
  }

  /** A terminal with the coupon on which one tea was sold for half the price, and then activated. */
  lemma OneSale() returns (run: seq<Action>, w: World, o: Order)
    ensures Leads(START, run, w) && FedOnce(run) && w.clock == 0
    ensures w.db.coupons == COUPONS && w.db.seriesCode == Some("E01") && w.db.billSeries == map[]
    ensures w.hist.used == {"c"} && w.hist.closed == map["c" := o] && w.db.orders == map["c" := OrderRow(o, Queued)]
    ensures w.db.outbox == map[OrderKey("c") := NewRow(1, [], 0)] && w.net == START.net && w.cloud.orders == map[]
    ensures o.receipt.Some? && o == HalfPriceTea("c", None, o.receipt.value)
  {
    hide Legal, After, CalmRun, Enabled, Next, Format, WellFormedSeries, Unsynced;
    var w1 := StartWithCoupon();
    Begin(START);
    Then(START, [], START, Refeed(map[], COUPONS));
    run := [] + [Refeed(map[], COUPONS)];
    var w2 := OrderStep(w1, "c");
    Then(START, run, w1, Create(ONE_TEA, "c", 0));
    run := run + [Create(ONE_TEA, "c", 0)];
    assert Unsynced(w2.db.orders, "X") == {} by { NoneRedeemed(w2.db.orders); }
    var w3;
    w3, o := RedeemStep(w2, "c");
    Then(START, run, w2, Settle("c", HALF_PRICE, 0, 0, "2627"));
    run := run + [Settle("c", HALF_PRICE, 0, 0, "2627")];
    w := ActivateStep(w3);
    Then(START, run, w3, Reactivate("E01"));
    run := run + [Reactivate("E01")];
  }

  lemma NoneRedeemed(orders: map<ClientId, OrderRow>)
    requires forall c :: c in orders ==> orders[c].order.status == Open || orders[c].sync in {Synced, Flagged}
    ensures Unsynced(orders, "X") == {}
  {}

  /** The same, with the bill acknowledged. */
  lemma OneRedemption() returns (run: seq<Action>, w: World)
    ensures Leads(START, run, w) && FedOnce(run) && w.clock == 0
    ensures w.db.coupons == COUPONS && w.db.seriesCode == Some("E01") && w.db.billSeries == map[]
    ensures w.hist.used == {"c"} && w.db.orders.Keys == {"c"} && w.db.orders["c"].sync in {Synced, Flagged}
    ensures w.db.outbox.Keys == {OrderKey("c")}
    ensures w.hist.closed.Keys == {"c"} && w.hist.closed["c"].status == Settled
    ensures w.hist.closed["c"].couponCode == Some("X")
  {
    hide Legal, After, CalmRun, Enabled, Next, PayloadOf, Ingest, WorldInv, Acceptable, Leads, Agrees;
    var sold, v, o := OneSale();
    HalfPriceIsInShape(o);
    FreshPayloadAgrees(o);
    var op := OrderOp(PayloadOf(o));
    SendOne(v, OrderKey("c"), 0, op);
    Then(START, sold, v, Send([OrderKey("c")], 0));
    var sent := Next(v, Send([OrderKey("c")], 0));
    LeadsToInv(sold + [Send([OrderKey("c")], 0)], sent);
    LetInIsAccepted(sent, op);
    run, w := PushRow(START, sold, v, OrderKey("c"), 0, op, WORKING, _ => 0);
  }

  lemma LeadsToInv(run: seq<Action>, w: World)
    requires Leads(START, run, w)
    ensures WorldInv(w)
  {
    hide WorldInv, Legal, After;
    Reached(run);
  }

  lemma StartWithCoupon() returns (w: World)
    ensures Enabled(START, Refeed(map[], COUPONS)) && w == Next(START, Refeed(map[], COUPONS))
    ensures w == START.(db := EMPTY_DB.(coupons := COUPONS))
  {
    w := Next(START, Refeed(map[], COUPONS));
  }

  lemma ActivateStep(w: World) returns (n: World)
    requires w.cloud == EMPTY_CLOUD
    ensures Enabled(w, Reactivate("E01")) && n == Next(w, Reactivate("E01"))
    ensures n == w.(db := w.db.(seriesCode := Some("E01")), cloud := n.cloud) && n.cloud.orders == map[]
  {
    SeriesIsWellFormed();
    n := Next(w, Reactivate("E01"));
  }

  lemma FirstNumberFits(db: Db)
    requires db.billSeries == map[]
    ensures Format(NextBillNo(db, "E01", "2627")).Some?
  {
    SeriesIsWellFormed();
    SeriesCapacity(NextBillNo(db, "E01", "2627"));
  }

  /**
   A coupon limited to one use is redeemed twice by one terminal, in a calm run in which the catalog is
   fed once and at the start: the first use is forgotten when it is acknowledged, and the cached count
   has not caught up.
   */
  lemma CouponIsUsedTwice() returns (run: seq<Action>)
    ensures Legal(START, run) && CalmRun(START, run) && FedOnce(run)
    ensures "X" in COUPONS && COUPONS["X"].usageLimit == Some(1) && COUPONS["X"].usedCount == 0
    ensures |Redeemed(After(START, run).hist, "X")| == 2
  {
    hide Legal, After, CalmRun, Enabled, Next, Format, Unsynced;
    var w;
    run, w := OneRedemption();
    var w1 := OrderStep(w, "d");
    Then(START, run, w, Create(ONE_TEA, "d", 0));
    run := run + [Create(ONE_TEA, "d", 0)];
    NoneRedeemed(w1.db.orders);
    FirstNumberFits(w1.db);
    var w2, o := RedeemStep(w1, "d");
    Then(START, run, w1, Settle("d", HALF_PRICE, 0, 0, "2627"));
    run := run + [Settle("d", HALF_PRICE, 0, 0, "2627")];
    assert Redeemed(w2.hist, "X") == {"c", "d"};
  }
}
