/**
 The local database of an offline POS terminal and the transactions over it.

 Every table of the device's database is a map, and every transaction is a function from one
 database to an `Outcome`: either the database after the commit, or an error, in which case the
 caller keeps the database it had.  Instants are milliseconds, amounts integer paise.
 */
module EdgeModel {
  import opened Numbers
  import opened Options
  import opened Rounding
  import opened Money
  import opened Coupons
  import opened BillNumber

  type ClientId = string
  type Time = int

  const DAY_MS: int := 86_400_000
  const PUSH_BATCH := 50

  // ---------- Orders ----------

  datatype OrderType = DineIn | Takeaway | Delivery
  datatype LineKind = ItemLine | ComboLine
  datatype PrepStatus = Waiting | Preparing | Ready
  datatype OrderStatus = Open | Settled | Cancelled
  /** Where an order stands with the cloud. */
  datatype SyncState = Local | Queued | Synced | Flagged | Refused

  /** A line as resolved and priced against the catalog, before it is fired to the kitchen. */
  datatype NewLine = NewLine(
    kind: LineKind, ref: string, note: Option<string>, quantity: nat, unitPaise: int, taxRate: real,
    station: Option<string>)

  datatype Line = Line(what: NewLine, kotNo: nat, prep: PrepStatus, preppedAt: Option<Time>)

  datatype Customer = Customer(name: Option<string>, phone: Option<string>, address: Option<string>)
  /** A tender as the cashier entered it; the amount may be off whole paise by the tolerance for doubles. */
  datatype Payment = Payment(mode: string, rupees: real)
  /** What a receipt is headed with: the invoice number, or a provisional reference before activation. */
  datatype ReceiptRef = Invoice(number: string) | Provisional(n: nat)

  datatype Order = Order(
    clientId: ClientId,
    orderType: OrderType,
    tableId: Option<string>,
    customer: Customer,
    lines: seq<Line>,
    payments: seq<Payment>,
    manualRupees: real,
    couponCode: Option<string>,
    couponPaise: int,
    totals: Totals,
    status: OrderStatus,
    billNo: Option<BillNo>,
    receipt: Option<ReceiptRef>,
    kotCount: nat,
    createdAt: Time,
    closedAt: Option<Time>,
    updatedAt: Time,
    createdBy: Option<string>,
    closedBy: Option<string>,
    cancelReason: Option<string>)

  datatype OrderRow = OrderRow(order: Order, sync: SyncState)

  // ---------- Kitchen tickets ----------

  datatype KotId = KotId(clientId: ClientId, kotNo: nat, station: Option<string>)
  datatype TicketStatus = Live(prep: PrepStatus) | Withdrawn
  datatype Ticket = Ticket(items: seq<nat>, status: TicketStatus, updatedAt: Time, readyAt: Option<Time>)

  // ---------- Outbox ----------

  /** Idempotency keys: an order's own id, or a fresh id per kitchen update. */
  datatype Key = OrderKey(clientId: ClientId) | KotKey(clientId: ClientId, uuid: string)
  datatype OutboxStatus = Pending | Done | Conflicted | Rejected
  datatype KotLine = KotLine(kind: LineKind, lineIndex: nat, prep: PrepStatus, preppedAt: Option<Time>)
  datatype OutboxRow = OutboxRow(
    id: nat, lines: seq<KotLine>, status: OutboxStatus, attempts: nat, nextAttemptAt: Time, doneAt: Option<Time>)

  // ---------- The database ----------

  datatype TableInfo = TableInfo(busyElsewhere: bool)

  datatype Db = Db(
    orders: map<ClientId, OrderRow>,
    outbox: map<Key, OutboxRow>,
    nextOutboxId: nat,
    kots: map<KotId, Ticket>,
    billSeries: map<(string, string), nat>,
    legacySeq: nat,
    seriesCode: Option<string>,
    tables: map<string, TableInfo>,
    coupons: map<string, Coupon>)

  const EMPTY_DB := Db(map[], map[], 1, map[], map[], 0, None, map[], map[])

  datatype Outcome = Ok(db: Db) | Err(message: string)

  /** The database a caller is left with: a failed transaction changes nothing. */
  function Commit(db: Db, r: Outcome): Db {
    if r.Ok? then r.db else db
  }

  // ---------- Totals ----------

  function MoneyOf(l: NewLine): MoneyLine {
    MoneyLine(LineTotalPaise(l.unitPaise, l.quantity), l.taxRate)
  }

  function MoneyLines(lines: seq<Line>): seq<MoneyLine> {
    seq(|lines|, i requires 0 <= i < |lines| => MoneyOf(lines[i].what))
  }

  function TotalsFor(lines: seq<Line>, discountPaise: int): Totals {
    OrderTotals(MoneyLines(lines), FromPaise(discountPaise))
  }

  // ---------- Firing a kitchen round ----------

  function Stamp(lines: seq<NewLine>, kotNo: nat): (r: seq<Line>)
    ensures |r| == |lines|
    ensures forall i :: 0 <= i < |r| ==> r[i] == Line(lines[i], kotNo, Waiting, None)
  {
    seq(|lines|, i requires 0 <= i < |lines| => Line(lines[i], kotNo, Waiting, None))
  }

  /** The positions on the bill of the lines of a round that one station cooks; the round starts at `base`. */
  function RoundIndices(lines: seq<NewLine>, station: Option<string>, base: nat): seq<nat> {
    if lines == [] then []
    else
      var n := |lines| - 1;
      RoundIndices(lines[..n], station, base) + if lines[n].station == station then [base + n] else []
  }

  function StationsOf(lines: seq<NewLine>): set<Option<string>> {
    set i | 0 <= i < |lines| :: lines[i].station
  }

  function FireOrder(o: Order, lines: seq<NewLine>): Order {
    var all := o.lines + Stamp(lines, o.kotCount + 1);
    o.(lines := all, kotCount := o.kotCount + 1, totals := TotalsFor(all, 0), manualRupees := 0.0, couponPaise := 0)
  }

  /** One new ticket per station of the round. */
  function FireTickets(o: Order, lines: seq<NewLine>, at: Time): map<KotId, Ticket> {
    map st | st in StationsOf(lines) ::
      KotId(o.clientId, o.kotCount + 1, st) := Ticket(RoundIndices(lines, st, |o.lines|), Live(Waiting), at, None)
  }

  // ---------- Row helpers ----------

  function Save(orders: map<ClientId, OrderRow>, o: Order): map<ClientId, OrderRow> {
    orders[o.clientId := OrderRow(o, if o.clientId in orders then orders[o.clientId].sync else Local)]
  }

  function NewRow(id: nat, lines: seq<KotLine>, at: Time): OutboxRow {
    OutboxRow(id, lines, Pending, 0, at, None)
  }

  /** INSERT OR IGNORE on the unique key; a queued order also leaves the `Local` state. */
  function Enqueue(db: Db, key: Key, lines: seq<KotLine>, at: Time): Db {
    var inserted :=
      if key in db.outbox then db
      else db.(outbox := db.outbox[key := NewRow(db.nextOutboxId, lines, at)], nextOutboxId := db.nextOutboxId + 1);
    if key.OrderKey? && key.clientId in inserted.orders then
      inserted.(orders := inserted.orders[key.clientId := inserted.orders[key.clientId].(sync := Queued)])
    else inserted
  }

  /** A closed order is written and queued together. */
  function SaveClosed(db: Db, closed: Order, at: Time): Db {
    Enqueue(db.(orders := Save(db.orders, closed)), OrderKey(closed.clientId), [], at)
  }

  predicate IsOpen(db: Db, c: ClientId) {
    c in db.orders && db.orders[c].order.status == Open
  }

  /** Some running order holds the table. */
  predicate TableBusy(db: Db, tableId: string) {
    exists c :: c in db.orders && db.orders[c].order.status == Open && db.orders[c].order.tableId == Some(tableId)
  }

  // ---------- Order lifecycle ----------

  datatype NewOrder = NewOrder(
    orderType: OrderType, tableId: Option<string>, customer: Customer, lines: seq<NewLine>,
    staffId: Option<string>, allowCloudOccupied: bool)

  function FreshOrder(n: NewOrder, c: ClientId, at: Time): Order {
    Order(
      c, n.orderType, if n.orderType == DineIn then n.tableId else None,
      n.customer.(address := if n.orderType == Delivery then n.customer.address else None),
      [], [], 0.0, None, 0, TotalsFor([], 0), Open, None, None, 0, at, None, at, n.staffId, None, None)
  }

  function CreateError(db: Db, n: NewOrder): Option<string> {
    if n.lines == [] then Some("An order needs at least one item or combo")
    else if n.orderType == DineIn && n.tableId.None? then Some("Dine-in orders need a table")
    else if n.orderType == DineIn && n.tableId.value !in db.tables then Some("Unknown table")
    else if n.orderType == DineIn && !n.allowCloudOccupied && db.tables[n.tableId.value].busyElsewhere then
      Some("The table has a running order on another terminal")
    else if n.orderType == Delivery && (n.customer.phone.None? || n.customer.address.None?) then
      Some("Delivery orders need a phone number and address")
    else if n.orderType == DineIn && TableBusy(db, n.tableId.value) then Some("The table already has a running order")
    else None
  }

  function CreateOrder(db: Db, n: NewOrder, c: ClientId, at: Time): Outcome {
    var e := CreateError(db, n);
    if e.Some? then Err(e.value)
    else
      var o := FreshOrder(n, c, at);
      Ok(db.(orders := Save(db.orders, FireOrder(o, n.lines)), kots := db.kots + FireTickets(o, n.lines, at)))
  }

  function AddItems(db: Db, c: ClientId, lines: seq<NewLine>, at: Time): Outcome {
    if lines == [] then Err("Add at least one item or combo")
    else if c !in db.orders then Err("Order not found")
    else if db.orders[c].order.status != Open then Err("Order is not open")
    else
      var o := db.orders[c].order;
      Ok(db.(orders := Save(db.orders, FireOrder(o, lines).(updatedAt := at)),
             kots := db.kots + FireTickets(o, lines, at)))
  }

  // ---------- Settling ----------

  const PAYMENT_MODES := {"CASH", "CARD", "UPI", "WALLET", "OTHER"}

  datatype Settlement = Settlement(
    tenders: seq<Payment>, discountRupees: real, couponCode: Option<string>, staffId: Option<string>)

  /** The amount is a whole number of paise, up to the tolerance the source allows for doubles. */
  predicate WholePaise(rupees: real) {
    Abs(rupees * 100.0 - ToPaise(rupees) as real) <= 0.000001
  }

  predicate TenderOk(t: Payment) {
    t.mode in PAYMENT_MODES && t.rupees > 0.0 && WholePaise(t.rupees)
  }

  function Paid(payments: seq<Payment>): int {
    if payments == [] then 0 else Paid(payments[..|payments| - 1]) + ToPaise(payments[|payments| - 1].rupees)
  }

  /** The whole discount of an order in paise. */
  function Discount(manualRupees: real, couponPaise: int): int {
    ToPaise(manualRupees) + couponPaise
  }

  /** Settled bills carrying the coupon that the cloud has not acknowledged yet. */
  function Unsynced(orders: map<ClientId, OrderRow>, code: string): set<ClientId> {
    set c | c in orders && orders[c].order.status == Settled && orders[c].sync in {Local, Queued}
            && orders[c].order.couponCode == Some(code)
  }

  function PreviewCoupon(db: Db, code: string, subtotalPaise: int, trueNow: Time): Evaluation {
    if code !in db.coupons then Evaluate(None, FromPaise(subtotalPaise), trueNow)
    else
      var c := db.coupons[code];
      var used := if c.usageLimit.Some? then c.usedCount + |Unsynced(db.orders, code)| else c.usedCount;
      Evaluate(Some(c.(usedCount := used)), FromPaise(subtotalPaise), trueNow)
  }

  datatype Quote = Quote(couponPaise: int, totals: Totals) | NoQuote(message: string)

  /** Everything the settle transaction checks before it draws an invoice number. */
  function QuoteFor(db: Db, o: Order, s: Settlement, trueNow: Time): Quote {
    var subtotal := TotalsFor(o.lines, 0).subtotal;
    if s.discountRupees < 0.0 || !WholePaise(s.discountRupees) then NoQuote("Invalid discount")
    else
      var preview := if s.couponCode.Some? then PreviewCoupon(db, s.couponCode.value, subtotal, trueNow) else Valid(0);
      if preview.Invalid? then NoQuote(preview.message)
      else
        var discount := Discount(s.discountRupees, preview.discountPaise);
        var t := TotalsFor(o.lines, discount);
        if discount > subtotal then NoQuote("Discount exceeds the bill")
        else if s.tenders == [] then NoQuote("Add at least one payment")
        else if exists i :: 0 <= i < |s.tenders| && !TenderOk(s.tenders[i]) then NoQuote("Invalid payment")
        else if Paid(s.tenders) != t.total then NoQuote("Payments must equal the total")
        else Quote(preview.discountPaise, t)
  }

  function LastSeq(series: map<(string, string), nat>, code: string, fy: string): nat {
    if (code, fy) in series then series[(code, fy)] else 0
  }

  function NextBillNo(db: Db, code: string, fy: string): BillNo {
    BillNo(code, fy, LastSeq(db.billSeries, code, fy) + 1)
  }

  function SettledOrder(o: Order, s: Settlement, q: Quote, bill: Option<BillNo>, receipt: ReceiptRef, at: Time): Order
    requires q.Quote?
  {
    o.(totals := q.totals, payments := s.tenders, manualRupees := s.discountRupees,
       couponCode := s.couponCode, couponPaise := q.couponPaise, status := Settled, billNo := bill,
       receipt := Some(receipt), closedAt := Some(at), closedBy := s.staffId, updatedAt := at)
  }

  /** Draw the next number of the series, close the order and queue it, or do nothing at all. */
  function SettleOrder(db: Db, c: ClientId, s: Settlement, at: Time, trueNow: Time, fy: string): Outcome {
    if c !in db.orders then Err("Order not found")
    else if db.orders[c].order.status != Open then Err("Order is not open")
    else
      var o := db.orders[c].order;
      var q := QuoteFor(db, o, s, trueNow);
      if q.NoQuote? then Err(q.message)
      else if db.seriesCode.None? then
        var n := db.legacySeq + 1;
        var closed := SettledOrder(o, s, q, None, Provisional(n), at);
        Ok(SaveClosed(db.(legacySeq := n), closed, at))
      else
        var bill := NextBillNo(db, db.seriesCode.value, fy);
        var number := Format(bill);
        if number.None? then Err("Bill number exceeds 16 characters")
        else
          var closed := SettledOrder(o, s, q, Some(bill), Invoice(number.value), at);
          Ok(SaveClosed(db.(billSeries := db.billSeries[(bill.series, fy) := bill.seqNo]), closed, at))
  }

  // ---------- Cancelling ----------

  function Withdraw(kots: map<KotId, Ticket>, c: ClientId, at: Time): map<KotId, Ticket> {
    map id | id in kots :: if id.clientId == c then kots[id].(status := Withdrawn, updatedAt := at) else kots[id]
  }

  function CancelledOrder(o: Order, staffId: Option<string>, reason: Option<string>, at: Time): Order {
    o.(status := Cancelled, closedAt := Some(at), closedBy := staffId, cancelReason := reason, updatedAt := at)
  }

  function CancelOrder(db: Db, c: ClientId, staffId: Option<string>, reason: Option<string>, at: Time): Outcome {
    if c !in db.orders then Err("Order not found")
    else if db.orders[c].order.status != Open then Err("Order is not open")
    else
      var closed := CancelledOrder(db.orders[c].order, staffId, reason, at);
      Ok(SaveClosed(db.(kots := Withdraw(db.kots, c, at)), closed, at))
  }

  // ---------- Kitchen display ----------

  function ReadyTime(to: PrepStatus, at: Time): Option<Time> {
    if to == Ready then Some(at) else None
  }

  /** Mirror a ticket's status onto its lines; an index without a line is skipped. */
  function MarkLines(lines: seq<Line>, items: seq<nat>, to: PrepStatus, at: Time): (r: seq<Line>)
    ensures |r| == |lines|
  {
    seq(|lines|, i requires 0 <= i < |lines| =>
      if i in items then lines[i].(prep := to, preppedAt := ReadyTime(to, at)) else lines[i])
  }

  function CountKind(lines: seq<Line>, kind: LineKind): nat {
    if lines == [] then 0
    else CountKind(lines[..|lines| - 1], kind) + if lines[|lines| - 1].what.kind == kind then 1 else 0
  }

  /** The kitchen update sent to the cloud: each line by its position among the lines of its kind. */
  function KotLines(lines: seq<Line>): (r: seq<KotLine>)
    ensures |r| == |lines|
  {
    seq(|lines|, i requires 0 <= i < |lines| =>
      KotLine(lines[i].what.kind, CountKind(lines[..i], lines[i].what.kind), lines[i].prep, lines[i].preppedAt))
  }

  /** The cloud has acknowledged the order, as far as the outbox still remembers. */
  predicate Acknowledged(db: Db, c: ClientId) {
    OrderKey(c) in db.outbox && db.outbox[OrderKey(c)].status in {Done, Conflicted}
  }

  function AdvanceTicket(db: Db, id: KotId, to: PrepStatus, at: Time, uuid: string): Outcome {
    if id !in db.kots || db.kots[id].status == Withdrawn then Err("Ticket not found")
    else
      var kots := db.kots[id := db.kots[id].(status := Live(to), updatedAt := at, readyAt := ReadyTime(to, at))];
      var c := id.clientId;
      if c !in db.orders then Ok(db.(kots := kots))
      else
        var o := db.orders[c].order;
        var marked := o.(lines := MarkLines(o.lines, db.kots[id].items, to, at));
        var saved := db.(kots := kots, orders := Save(db.orders, marked));
        if Acknowledged(db, c) then Ok(Enqueue(saved, KotKey(c, uuid), KotLines(marked.lines), at)) else Ok(saved)
  }

  // ---------- Order payloads ----------

  datatype PayloadLine = PayloadLine(
    ref: string, note: Option<string>, quantity: nat, unitPaise: int, taxRate: real, prep: PrepStatus,
    preppedAt: Option<Time>)

  datatype Payload = Payload(
    clientId: ClientId, orderType: OrderType, tableId: Option<string>, customer: Customer,
    items: seq<PayloadLine>, combos: seq<PayloadLine>, status: OrderStatus, payments: seq<Payment>,
    manualRupees: real, couponCode: Option<string>, couponPaise: int, subtotal: int, tax: int, total: int,
    billNo: Option<BillNo>, billNumber: Option<string>, createdAt: Time, closedAt: Time,
    createdBy: Option<string>, closedBy: Option<string>, cancelReason: Option<string>)

  function PayloadLineOf(l: Line): PayloadLine {
    PayloadLine(l.what.ref, l.what.note, l.what.quantity, l.what.unitPaise, l.what.taxRate, l.prep, l.preppedAt)
  }

  function LinesOfKind(lines: seq<Line>, kind: LineKind): seq<PayloadLine> {
    if lines == [] then []
    else
      var n := |lines| - 1;
      LinesOfKind(lines[..n], kind) + if lines[n].what.kind == kind then [PayloadLineOf(lines[n])] else []
  }

  /** The invoice number on the receipt, if the receipt has one. */
  function PrintedNumber(o: Order): Option<string> {
    if o.receipt.Some? && o.receipt.value.Invoice? then Some(o.receipt.value.number) else None
  }

  function PayloadOf(o: Order): Payload {
    Payload(
      o.clientId, o.orderType, o.tableId, o.customer,
      LinesOfKind(o.lines, ItemLine), LinesOfKind(o.lines, ComboLine),
      o.status, if o.status == Settled then o.payments else [],
      o.manualRupees, o.couponCode, o.couponPaise, o.totals.subtotal, o.totals.tax, o.totals.total,
      o.billNo, PrintedNumber(o), o.createdAt, if o.closedAt.Some? then o.closedAt.value else o.updatedAt,
      o.createdBy, o.closedBy, o.cancelReason)
  }

  // ---------- Pushing the outbox ----------

  datatype Op = OrderOp(payload: Payload) | KotOp(clientId: ClientId, uuid: string, lines: seq<KotLine>)

  function KeyOf(op: Op): Key {
    if op.OrderOp? then OrderKey(op.payload.clientId) else KotKey(op.clientId, op.uuid)
  }

  predicate IsDueRow(r: OutboxRow, now: Time) {
    r.status == Pending && r.nextAttemptAt <= now
  }

  /** The batch the device sends next: the due rows in creation order, at most fifty of them. */
  ghost predicate IsBatch(outbox: map<Key, OutboxRow>, now: Time, due: seq<Key>) {
    && |due| <= PUSH_BATCH
    && (forall i :: 0 <= i < |due| ==> due[i] in outbox && IsDueRow(outbox[due[i]], now))
    && (forall i, j :: 0 <= i < j < |due| ==> outbox[due[i]].id < outbox[due[j]].id)
    && (forall k :: k in outbox && IsDueRow(outbox[k], now) && k !in due ==>
          |due| == PUSH_BATCH && forall i :: 0 <= i < |due| ==> outbox[due[i]].id < outbox[k].id)
  }

  /** The request built for one due row; `None` when its order is missing, which rejects the row. */
  function OpFor(db: Db, k: Key): Option<Op>
    requires k in db.outbox
  {
    if k.OrderKey? then
      if k.clientId in db.orders then Some(OrderOp(PayloadOf(db.orders[k.clientId].order))) else None
    else Some(KotOp(k.clientId, k.uuid, db.outbox[k].lines))
  }

  function Ops(db: Db, due: seq<Key>): seq<Op>
    requires forall i :: 0 <= i < |due| ==> due[i] in db.outbox
  {
    if due == [] then []
    else
      var n := |due| - 1;
      var op := OpFor(db, due[n]);
      Ops(db, due[..n]) + if op.Some? then [op.value] else []
  }

  /** Rows whose order went missing are rejected on the spot. */
  function RejectMissing(db: Db, due: seq<Key>): Db
    requires forall i :: 0 <= i < |due| ==> due[i] in db.outbox
  {
    db.(outbox := map k | k in db.outbox ::
      if k in due && k.OrderKey? && k.clientId !in db.orders then db.outbox[k].(status := Rejected) else db.outbox[k])
  }

  datatype OpStatus = Applied | Duplicate | Conflict | Refuse | Retry
  datatype Reply = Reply(key: Key, status: OpStatus)

  function FinalStatus(s: OpStatus): OutboxStatus {
    match s
    case Refuse => Rejected
    case Conflict => Conflicted
    case _ => Done
  }

  function FinalSync(s: OpStatus): SyncState {
    match s
    case Refuse => Refused
    case Conflict => Flagged
    case _ => Synced
  }

  /** A row as it was read when the batch was taken. */
  datatype DueRow = DueRow(key: Key, id: nat, attempts: nat)

  /** Record the cloud's answer for one row. */
  function ApplyReply(db: Db, e: DueRow, s: OpStatus, now: Time, backoff: nat -> int): Db {
    var present := e.key in db.outbox && db.outbox[e.key].id == e.id;
    if s == Retry then
      if present then
        db.(outbox := db.outbox[e.key := db.outbox[e.key].(
          attempts := e.attempts + 1, nextAttemptAt := now + backoff(e.attempts + 1))])
      else db
    else
      var marked :=
        if present then
          var row := db.outbox[e.key];
          var done := row.(status := FinalStatus(s), attempts := row.attempts + 1, doneAt := Some(now));
          db.(outbox := db.outbox[e.key := done])
        else db;
      if e.key.OrderKey? && e.key.clientId in marked.orders then
        marked.(orders := marked.orders[e.key.clientId := marked.orders[e.key.clientId].(sync := FinalSync(s))])
      else marked
  }

  function FindDue(due: seq<DueRow>, k: Key): Option<DueRow> {
    if due == [] then None
    else if due[|due| - 1].key == k then Some(due[|due| - 1])
    else FindDue(due[..|due| - 1], k)
  }

  /** Record a whole response; an answer for a key that was not in the batch is ignored. */
  function ApplyReplies(db: Db, due: seq<DueRow>, replies: seq<Reply>, now: Time, backoff: nat -> int): Db {
    if replies == [] then db
    else
      var n := |replies| - 1;
      var before := ApplyReplies(db, due, replies[..n], now, backoff);
      var e := FindDue(due, replies[n].key);
      if e.None? then before else ApplyReply(before, e.value, replies[n].status, now, backoff)
  }

  // ---------- Retention ----------

  function ClosedTime(o: Order): Time {
    if o.closedAt.Some? then o.closedAt.value else o.updatedAt
  }

  predicate PurgeableOrder(r: OrderRow, cutoff: Time) {
    r.order.status in {Settled, Cancelled} && r.sync in {Synced, Flagged} && ClosedTime(r.order) < cutoff
  }

  predicate PurgeableRow(r: OutboxRow, cutoff: Time) {
    r.status in {Done, Conflicted} && r.doneAt.Some? && r.doneAt.value < cutoff
  }

  function Purge(db: Db, now: Time, orderDays: nat, outboxDays: nat): Db {
    var orders := map c | c in db.orders && !PurgeableOrder(db.orders[c], now - orderDays * DAY_MS) :: db.orders[c];
    var outbox := map k | k in db.outbox && !PurgeableRow(db.outbox[k], now - outboxDays * DAY_MS) :: db.outbox[k];
    var kots := map id | id in db.kots &&
                         (db.kots[id].updatedAt >= now - 2 * DAY_MS ||
                          (id.clientId in orders && orders[id.clientId].order.status == Open)) :: db.kots[id];
    db.(orders := orders, outbox := outbox, kots := kots)
  }

  // ---------- Activation and catalog ----------

  function Activate(db: Db, seriesCode: string): Db {
    db.(seriesCode := Some(seriesCode))
  }

  function Recatalog(db: Db, tables: map<string, TableInfo>, coupons: map<string, Coupon>): Db {
    db.(tables := tables, coupons := coupons)
  }
}
