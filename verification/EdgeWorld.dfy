/**
 One terminal, the cloud it reports to, and the unreliable link between them.

 The link may lose a request or a response, deliver a request late, and deliver it more than once.
 Between the moment a batch is read and the moment its answers are recorded, any other transaction
 of the terminal may commit.  A run is a sequence of actions; `hist` only remembers what happened,
 so that statements about closed orders and issued invoice numbers survive the retention purge.
 */
module EdgeWorld {
  import opened Options
  import opened Money
  import opened Rounding
  import opened Coupons
  import opened BillNumber
  import opened EdgeModel

  // ---------- The cloud's ingest of an outbox ----------

  /** The number an order is filed under: the device's own, one from the outlet's series, or none. */
  datatype Filing = DeviceNumber(number: string) | OutletNumber(n: nat) | Unnumbered

  datatype Cloud = Cloud(
    orders: map<ClientId, Payload>,
    filed: map<ClientId, Filing>,
    log: seq<ClientId>,
    invoices: map<string, ClientId>,
    sequences: map<BillNo, ClientId>,
    series: set<string>,
    nextOutletNumber: nat)

  const EMPTY_CLOUD := Cloud(map[], map[], [], map[], map[], {}, 1)

  /** What the model does not decide about one ingest: transient failures, catalog references, other conflicts. */
  datatype Env = Env(transient: bool, unknownRefs: bool, flagged: bool)

  function PayloadMoney(l: PayloadLine): MoneyLine {
    MoneyLine(LineTotalPaise(l.unitPaise, l.quantity), l.taxRate)
  }

  function PayloadMoneys(ls: seq<PayloadLine>): seq<MoneyLine> {
    seq(|ls|, i requires 0 <= i < |ls| => PayloadMoney(ls[i]))
  }

  // ---------- What the cloud lets through ----------

  predicate Fits(text: Option<string>, length: nat) {
    text.None? || |text.value| <= length
  }

  /** An amount of rupees that is a whole number of paise, exactly. */
  predicate ExactPaise(rupees: real) {
    rupees * 100.0 == ToPaise(rupees) as real
  }

  predicate LineAcceptable(l: PayloadLine) {
    l.quantity > 0 && l.unitPaise >= 0 && 0.0 <= l.taxRate <= 28.0 && Fits(l.note, 200)
  }

  predicate PaymentAcceptable(p: Payment) {
    p.mode in PAYMENT_MODES && p.rupees > 0.0 && ExactPaise(p.rupees)
  }

  predicate NumberAcceptable(b: Option<BillNo>, text: Option<string>) {
    b.Some? ==>
      && WellFormedSeries(b.value.series) && WellFormedYear(b.value.fy) && b.value.seqNo > 0
      && Fits(text, MAX_LENGTH)
  }

  /** The shape the cloud asks of an order before it looks at it. */
  predicate Acceptable(p: Payload) {
    && Fits(p.customer.name, 80) && Fits(p.customer.phone, 20) && Fits(p.customer.address, 300)
    && Fits(p.couponCode, 40) && Fits(p.cancelReason, 200)
    && p.status != Open && |p.items| + |p.combos| > 0 && NumberAcceptable(p.billNo, p.billNumber)
    && (forall i :: 0 <= i < |p.items| ==> LineAcceptable(p.items[i]))
    && (forall i :: 0 <= i < |p.combos| ==> LineAcceptable(p.combos[i]))
    && (forall i :: 0 <= i < |p.payments| ==> PaymentAcceptable(p.payments[i]))
    && p.manualRupees >= 0.0 && ExactPaise(p.manualRupees) && p.couponPaise >= 0
    && p.subtotal >= 0 && p.tax >= 0 && p.total >= 0
  }

  predicate OpAcceptable(op: Op) {
    match op
    case OrderOp(p) => Acceptable(p)
    case KotOp(_, _, lines) => lines != []
  }

  /** One operation out of shape makes the cloud turn the whole request away, unread. */
  predicate RequestAcceptable(ops: seq<Op>) {
    forall i :: 0 <= i < |ops| ==> OpAcceptable(ops[i])
  }

  // ---------- What the cloud does with an operation ----------

  /** The cloud's own arithmetic on a payload: items first, then combos. */
  function Recompute(p: Payload): Totals {
    OrderTotals(PayloadMoneys(p.items) + PayloadMoneys(p.combos), FromPaise(Discount(p.manualRupees, p.couponPaise)))
  }

  predicate FiguresAddUp(p: Payload) {
    var t := Recompute(p);
    && t.subtotal == p.subtotal && t.tax == p.tax && t.total == p.total
    && (p.status == Settled ==> Paid(p.payments) == t.total)
  }

  /** The device's invoice number cannot be used: foreign series, wrong text, or already taken. */
  predicate BillConflict(cloud: Cloud, p: Payload) {
    && p.status == Settled && p.billNo.Some?
    && (|| p.billNo.value.series !in cloud.series
        || p.billNumber.None? || Format(p.billNo.value) != p.billNumber
        || p.billNo.value in cloud.sequences || p.billNumber.value in cloud.invoices)
  }

  function InsertOrder(cloud: Cloud, p: Payload): Cloud {
    var c := p.clientId;
    var base := cloud.(orders := cloud.orders[c := p], log := cloud.log + [c]);
    if p.status != Settled then base.(filed := cloud.filed[c := Unnumbered])
    else if p.billNo.Some? && !BillConflict(cloud, p) then
      base.(filed := cloud.filed[c := DeviceNumber(p.billNumber.value)],
            invoices := cloud.invoices[p.billNumber.value := c],
            sequences := cloud.sequences[p.billNo.value := c])
    else
      base.(filed := cloud.filed[c := OutletNumber(cloud.nextOutletNumber)],
            nextOutletNumber := cloud.nextOutletNumber + 1)
  }

  function SetPrep(ls: seq<PayloadLine>, i: nat, prep: PrepStatus): seq<PayloadLine> {
    if i < |ls| then ls[i := ls[i].(prep := prep)] else ls
  }

  function SetLine(p: Payload, s: KotLine): Payload {
    if s.kind == ItemLine then p.(items := SetPrep(p.items, s.lineIndex, s.prep))
    else p.(combos := SetPrep(p.combos, s.lineIndex, s.prep))
  }

  function ApplyKot(p: Payload, lines: seq<KotLine>): Payload {
    if lines == [] then p
    else SetLine(ApplyKot(p, lines[..|lines| - 1]), lines[|lines| - 1])
  }

  datatype Ingested = Ingested(cloud: Cloud, status: OpStatus)

  function Ingest(cloud: Cloud, op: Op, env: Env): Ingested {
    match op
    case OrderOp(p) =>
      if p.clientId in cloud.orders then Ingested(cloud, Duplicate)
      else if env.transient then Ingested(cloud, Retry)
      else if !FiguresAddUp(p) || env.unknownRefs then Ingested(cloud, Refuse)
      else Ingested(InsertOrder(cloud, p), if BillConflict(cloud, p) || env.flagged then Conflict else Applied)
    case KotOp(c, _, lines) =>
      if c !in cloud.orders || env.transient then Ingested(cloud, Retry)
      else Ingested(cloud.(orders := cloud.orders[c := ApplyKot(cloud.orders[c], lines)]), Applied)
  }

  // ---------- The link ----------

  /** A push that is waiting for its response. */
  datatype Flight = Flight(due: seq<DueRow>, ops: seq<Op>, answers: seq<OpStatus>)

  /** Every operation ever sent, those of requests the cloud let through, its answers, and the push under way. */
  datatype Net = Net(wire: set<Op>, passed: set<Op>, replies: set<(Op, OpStatus)>, flight: Option<Flight>)

  // ---------- Worlds, actions, runs ----------

  datatype History = History(
    used: set<ClientId>, closed: map<ClientId, Order>, issued: map<BillNo, ClientId>, uuids: set<string>)

  /** `clock` is the device time of the latest action that read it. */
  datatype World = World(db: Db, cloud: Cloud, net: Net, hist: History, clock: Time)

  const START := World(EMPTY_DB, EMPTY_CLOUD, Net({}, {}, {}, None), History({}, map[], map[], {}), 0)

  datatype Action =
    | Create(n: NewOrder, c: ClientId, at: Time)
    | Add(c: ClientId, lines: seq<NewLine>, at: Time)
    | Settle(c: ClientId, s: Settlement, at: Time, trueNow: Time, fy: string)
    | Cancel(c: ClientId, staffId: Option<string>, reason: Option<string>, at: Time)
    | Bump(id: KotId, to: PrepStatus, at: Time, uuid: string)
    | Retain(at: Time, orderDays: nat, outboxDays: nat)
    | Reactivate(code: string)
    | Refeed(tables: map<string, TableInfo>, coupons: map<string, Coupon>)
    | Send(due: seq<Key>, at: Time)
    | Handle(op: Op, env: Env)
    | Receive(statuses: seq<OpStatus>, at: Time, backoff: nat -> int)
    | Lose

  predicate IsLocal(a: Action) {
    a.Create? || a.Add? || a.Settle? || a.Cancel? || a.Bump? || a.Retain? || a.Reactivate? || a.Refeed?
  }

  /** The transaction a local action runs. */
  function Transact(db: Db, a: Action): Outcome
    requires IsLocal(a)
  {
    match a
    case Create(n, c, at) => CreateOrder(db, n, c, at)
    case Add(c, lines, at) => AddItems(db, c, lines, at)
    case Settle(c, s, at, trueNow, fy) => SettleOrder(db, c, s, at, trueNow, fy)
    case Cancel(c, staffId, reason, at) => CancelOrder(db, c, staffId, reason, at)
    case Bump(id, to, at, uuid) => AdvanceTicket(db, id, to, at, uuid)
    case Retain(at, orderDays, outboxDays) => Ok(Purge(db, at, orderDays, outboxDays))
    case Reactivate(code) => Ok(Activate(db, code))
    case Refeed(tables, coupons) => Ok(Recatalog(db, tables, coupons))
  }

  function RowsRead(outbox: map<Key, OutboxRow>, due: seq<Key>): (r: seq<DueRow>)
    requires forall i :: 0 <= i < |due| ==> due[i] in outbox
    ensures |r| == |due|
    ensures forall i :: 0 <= i < |r| ==> r[i] == DueRow(due[i], outbox[due[i]].id, outbox[due[i]].attempts)
  {
    seq(|due|, i requires 0 <= i < |due| => DueRow(due[i], outbox[due[i]].id, outbox[due[i]].attempts))
  }

  function Replies(ops: seq<Op>, statuses: seq<OpStatus>): (r: seq<Reply>)
    requires |ops| == |statuses|
    ensures |r| == |ops|
    ensures forall i :: 0 <= i < |r| ==> r[i] == Reply(KeyOf(ops[i]), statuses[i])
  {
    seq(|ops|, i requires 0 <= i < |ops| => Reply(KeyOf(ops[i]), statuses[i]))
  }

  /**
   What the environment guarantees about an action: random identifiers are fresh, activation hands
   out a new well-formed series, only an activated terminal pushes and one push is in flight at a
   time, the cloud handles only requests that were sent and that it let through, and a response
   answers each operation of the request once.
   */
  ghost predicate Enabled(w: World, a: Action) {
    match a
    case Create(_, c, _) => c !in w.hist.used
    case Settle(_, _, _, _, fy) => WellFormedYear(fy)
    case Bump(_, _, _, uuid) => uuid !in w.hist.uuids
    case Reactivate(code) => WellFormedSeries(code) && code !in w.cloud.series
    case Send(due, at) => w.db.seriesCode.Some? && w.net.flight.None? && IsBatch(w.db.outbox, at, due)
    case Handle(op, _) => op in w.net.passed
    case Receive(statuses, _, _) =>
      && w.net.flight.Some? && |statuses| == |w.net.flight.value.ops|
      && forall i :: 0 <= i < |statuses| ==> (w.net.flight.value.ops[i], statuses[i]) in w.net.replies
    case _ => true
  }

  function TimeOf(a: Action, clock: Time): Time {
    match a
    case Create(_, _, at) => at
    case Add(_, _, at) => at
    case Settle(_, _, at, _, _) => at
    case Cancel(_, _, _, at) => at
    case Bump(_, _, at, _) => at
    case Retain(at, _, _) => at
    case Send(_, at) => at
    case Receive(_, at, _) => at
    case _ => clock
  }

  /** What a committed local action adds to the history. */
  function Remember(h: History, db: Db, a: Action): History {
    match a
    case Create(_, c, _) => h.(used := h.used + {c})
    case Settle(c, _, _, _, _) =>
      if c !in db.orders then h
      else
        var o := db.orders[c].order;
        h.(closed := h.closed[c := o], issued := if o.billNo.Some? then h.issued[o.billNo.value := c] else h.issued)
    case Cancel(c, _, _, _) => if c !in db.orders then h else h.(closed := h.closed[c := db.orders[c].order])
    case Bump(_, _, _, uuid) => h.(uuids := h.uuids + {uuid})
    case _ => h
  }

  function LocalNext(w: World, a: Action): World
    requires IsLocal(a)
  {
    var r := Transact(w.db, a);
    if r.Err? then w
    else
      w.(db := r.db, hist := Remember(w.hist, r.db, a),
         cloud := if a.Reactivate? then w.cloud.(series := w.cloud.series + {a.code}) else w.cloud)
  }

  function SendNext(w: World, due: seq<Key>): World
    requires forall i :: 0 <= i < |due| ==> due[i] in w.db.outbox
  {
    var ops := Ops(w.db, due);
    w.(db := RejectMissing(w.db, due),
       net := w.net.(wire := w.net.wire + (set op | op in ops),
                     passed := if RequestAcceptable(ops) then w.net.passed + (set op | op in ops) else w.net.passed,
                     flight := if ops == [] then None else Some(Flight(RowsRead(w.db.outbox, due), ops, []))))
  }

  function HandleNext(w: World, op: Op, env: Env): World {
    var r := Ingest(w.cloud, op, env);
    var f := w.net.flight;
    var answered :=
      if f.Some? && |f.value.answers| < |f.value.ops| && f.value.ops[|f.value.answers|] == op
      then Some(f.value.(answers := f.value.answers + [r.status]))
      else f;
    w.(cloud := r.cloud, net := w.net.(replies := w.net.replies + {(op, r.status)}, flight := answered))
  }

  function ReceiveNext(w: World, statuses: seq<OpStatus>, at: Time, backoff: nat -> int): World
    requires w.net.flight.Some? && |statuses| == |w.net.flight.value.ops|
  {
    var f := w.net.flight.value;
    w.(db := ApplyReplies(w.db, f.due, Replies(f.ops, statuses), at, backoff), net := w.net.(flight := None))
  }

  function Next(w: World, a: Action): World
    requires Enabled(w, a)
  {
    var n :=
      if IsLocal(a) then LocalNext(w, a)
      else match a
           case Send(due, _) => SendNext(w, due)
           case Handle(op, env) => HandleNext(w, op, env)
           case Receive(statuses, at, backoff) => ReceiveNext(w, statuses, at, backoff)
           case _ => w.(net := w.net.(flight := None));
    n.(clock := TimeOf(a, w.clock))
  }

  ghost predicate Legal(w: World, run: seq<Action>)
    decreases |run|
  {
    run == [] || (Enabled(w, run[0]) && Legal(Next(w, run[0]), run[1..]))
  }

  ghost function After(w: World, run: seq<Action>): World
    requires Legal(w, run)
    decreases |run|
  {
    if run == [] then w else After(Next(w, run[0]), run[1..])
  }
}
