/**
 What each transaction of the terminal does for the people who use it: when it is let through, and what
 the tables say afterwards of what they entered.
 */
module EdgeOrders {
  import opened Options
  import opened Rounding
  import opened Money
  import opened Coupons
  import opened BillNumber
  import opened EdgeModel
  import opened EdgeLocal

  /** The order of one client changed, and nothing else in that table. */
  ghost predicate OnlyOrder(db: Db, n: Db, c: ClientId) {
    c in n.orders && forall d :: d != c ==>
      (d in n.orders <==> d in db.orders) && (d in db.orders ==> n.orders[d] == db.orders[d])
  }

  /** The round and the tickets it adds are waiting, and the other tickets are as they were. */
  ghost predicate NewTickets(db: Db, n: Db, c: ClientId, kotNo: nat, at: Time) {
    && db.kots.Keys <= n.kots.Keys
    && (forall id :: id in db.kots && !(id.clientId == c && id.kotNo == kotNo) ==> n.kots[id] == db.kots[id])
    && (forall id :: id in n.kots && id !in db.kots ==>
          id.clientId == c && id.kotNo == kotNo
          && n.kots[id].status == Live(Waiting) && n.kots[id].updatedAt == at && n.kots[id].readyAt.None?)
  }

  // ---------- Opening an order ----------

  /** Some open order holds the table asked for. */
  ghost predicate Taken(db: Db, n: NewOrder) {
    exists d :: IsOpen(db, d) && db.orders[d].order.tableId == n.tableId
  }

  /** What opening an order asks for. */
  ghost predicate MayOpen(db: Db, n: NewOrder) {
    && n.lines != []
    && (n.orderType == DineIn ==>
          && n.tableId.Some? && n.tableId.value in db.tables
          && (n.allowCloudOccupied || !db.tables[n.tableId.value].busyElsewhere)
          && !Taken(db, n))
    && (n.orderType == Delivery ==> n.customer.phone.Some? && n.customer.address.Some?)
  }

  /** What never changes of an order again: who asked for it, where and when. */
  ghost predicate Asked(o: Order, n: NewOrder, c: ClientId, at: Time) {
    && o.clientId == c && o.orderType == n.orderType && o.createdAt == at && o.createdBy == n.staffId
    && o.tableId == (match n.orderType case DineIn => n.tableId case _ => None)
    && o.customer.name == n.customer.name && o.customer.phone == n.customer.phone
    && o.customer.address == (match n.orderType case Delivery => n.customer.address case _ => None)
  }

  /** The order starts with the lines that were entered, in their order. */
  ghost predicate StartsWith(o: Order, lines: seq<NewLine>) {
    |lines| <= |o.lines| && forall i :: 0 <= i < |lines| ==> o.lines[i].what == lines[i]
  }

  /** Nothing has been paid, closed or numbered. */
  ghost predicate Unsettled(o: Order) {
    && o.status == Open && o.payments == [] && o.manualRupees == 0.0 && o.couponCode.None? && o.couponPaise == 0
    && o.billNo.None? && o.receipt.None? && o.closedAt.None? && o.closedBy.None? && o.cancelReason.None?
  }

  /** The lines from `from` on are one round, still waiting. */
  ghost predicate FreshRound(o: Order, from: nat, kotNo: nat) {
    && o.kotCount == kotNo
    && forall i :: from <= i < |o.lines| ==>
         o.lines[i].kotNo == kotNo && o.lines[i].prep == Waiting && o.lines[i].preppedAt.None?
  }

  lemma BusyMeansTaken(db: Db, n: NewOrder)
    requires n.tableId.Some?
    ensures TableBusy(db, n.tableId.value) <==> Taken(db, n)
  {
    if Taken(db, n) {
      var d :| IsOpen(db, d) && db.orders[d].order.tableId == n.tableId;
      assert d in db.orders && db.orders[d].order.status == Open;
    }
    if TableBusy(db, n.tableId.value) {
      var d :| d in db.orders && db.orders[d].order.status == Open && db.orders[d].order.tableId == n.tableId;
      assert IsOpen(db, d);
    }
  }

  lemma NoErrorIffMayOpen(db: Db, n: NewOrder)
    ensures CreateError(db, n).None? <==> MayOpen(db, n)
  {
    hide TableBusy, IsOpen;
    if n.tableId.Some? {
      BusyMeansTaken(db, n);
    }
  }

  lemma OpenedOrder(n: NewOrder, c: ClientId, at: Time)
    ensures var o := FireOrder(FreshOrder(n, c, at), n.lines);
            && Asked(o, n, c, at) && StartsWith(o, n.lines) && |o.lines| == |n.lines| && Unsettled(o)
            && FreshRound(o, 0, 1) && o.updatedAt == at
  {
    hide TotalsFor, FireOrder, FreshOrder, Asked, StartsWith, Unsettled, FreshRound, Stamp;
    var o := FreshOrder(n, c, at);
    FreshAsked(n, c, at);
    FiringKeeps(o, n, c, n.lines, at);
    FiredLines(o, n.lines);
    AllFresh(FireOrder(o, n.lines), o, n.lines);
  }

  lemma FreshAsked(n: NewOrder, c: ClientId, at: Time)
    ensures var o := FreshOrder(n, c, at);
            Asked(o, n, c, at) && Unsettled(o) && o.updatedAt == at && o.lines == [] && o.kotCount == 0
  {
    hide TotalsFor;
  }

  lemma FiringKeeps(o: Order, n: NewOrder, c: ClientId, lines: seq<NewLine>, at: Time)
    requires Asked(o, n, c, at) && Unsettled(o)
    ensures Asked(FireOrder(o, lines), n, c, at) && Unsettled(FireOrder(o, lines))
    ensures FireOrder(o, lines).updatedAt == o.updatedAt
  {
    hide TotalsFor, Stamp;
  }

  lemma FiredLines(o: Order, lines: seq<NewLine>)
    ensures var p := FireOrder(o, lines);
            && p.kotCount == o.kotCount + 1 && |p.lines| == |o.lines| + |lines| && p.lines[..|o.lines|] == o.lines
            && forall i :: |o.lines| <= i < |p.lines| ==>
                 p.lines[i] == Line(lines[i - |o.lines|], o.kotCount + 1, Waiting, None)
  {
    hide TotalsFor;
  }

  lemma AllFresh(p: Order, o: Order, lines: seq<NewLine>)
    requires o.lines == [] && o.kotCount == 0 && p.kotCount == 1 && |p.lines| == |lines|
    requires forall i :: 0 <= i < |p.lines| ==> p.lines[i] == Line(lines[i], 1, Waiting, None)
    ensures StartsWith(p, lines) && FreshRound(p, 0, 1)
  {}

  /** An order is opened exactly when it may be, and then holds what was asked for. */
  lemma OpeningKeepsWhatWasAsked(db: Db, n: NewOrder, c: ClientId, at: Time)
    requires c !in db.orders
    ensures CreateOrder(db, n, c, at).Ok? <==> MayOpen(db, n)
    ensures CreateOrder(db, n, c, at).Ok? ==>
              var m := CreateOrder(db, n, c, at).db;
              && m == db.(orders := m.orders, kots := m.kots) && OnlyOrder(db, m, c) && m.orders[c].sync == Local
              && NewTickets(db, m, c, 1, at)
              && var o := m.orders[c].order;
                 && Asked(o, n, c, at) && StartsWith(o, n.lines) && |o.lines| == |n.lines| && Unsettled(o)
                 && FreshRound(o, 0, 1) && o.updatedAt == at
  {
    hide MayOpen, CreateError, FireOrder, FireTickets, FreshOrder, StartsWith, Unsettled, FreshRound;
    NoErrorIffMayOpen(db, n);
    OpenedOrder(n, c, at);
    FreshAsked(n, c, at);
    FiredAreNew(FreshOrder(n, c, at), n.lines, at);
  }

  lemma FiredAreNew(o: Order, lines: seq<NewLine>, at: Time)
    ensures forall id :: id in FireTickets(o, lines, at) ==>
              var t := FireTickets(o, lines, at)[id];
              && id.clientId == o.clientId && id.kotNo == o.kotCount + 1
              && t.status == Live(Waiting) && t.updatedAt == at && t.readyAt.None?
  {
    hide RoundIndices, StationsOf;
  }

  /** While a dine-in order is open, every other for its table is refused, and nothing changes. */
  lemma TableIsTaken(db: Db, c: ClientId, n: NewOrder, d: ClientId, at: Time)
    requires IsOpen(db, c) && n.orderType == DineIn && db.orders[c].order.tableId == n.tableId
    ensures CreateOrder(db, n, d, at).Err? && Commit(db, CreateOrder(db, n, d, at)) == db
  {
    hide CreateError;
    NoErrorIffMayOpen(db, n);
    assert Taken(db, n);
  }

  // ---------- Another round ----------

  /** A round is added exactly to an open order, and extends its lines and nothing else that was entered. */
  lemma RoundIsAppended(db: Db, c: ClientId, lines: seq<NewLine>, at: Time)
    requires c in db.orders ==> db.orders[c].order.clientId == c
    ensures AddItems(db, c, lines, at).Ok? <==> lines != [] && IsOpen(db, c)
    ensures AddItems(db, c, lines, at).Ok? ==>
              var m := AddItems(db, c, lines, at).db;
              && m == db.(orders := m.orders, kots := m.kots) && OnlyOrder(db, m, c)
              && var o, p := db.orders[c].order, m.orders[c].order;
                 && p == o.(lines := p.lines, kotCount := p.kotCount, totals := p.totals, manualRupees := 0.0,
                            couponPaise := 0, updatedAt := at)
                 && |p.lines| == |o.lines| + |lines| && p.lines[..|o.lines|] == o.lines
                 && (forall i :: 0 <= i < |lines| ==> p.lines[|o.lines| + i].what == lines[i])
                 && FreshRound(p, |o.lines|, o.kotCount + 1) && NewTickets(db, m, c, o.kotCount + 1, at)
  {
    hide TotalsFor, FireTickets;
    if AddItems(db, c, lines, at).Ok? {
      FiredAreNew(db.orders[c].order, lines, at);
    }
  }

  // ---------- Figures ----------

  /** Each line is charged its price times its quantity, and taxed at its own rate on that. */
  lemma LineIsPriceTimesQuantity(lines: seq<Line>, l: Line)
    ensures Subtotal(MoneyLines(lines + [l])) == Subtotal(MoneyLines(lines)) + l.what.unitPaise * l.what.quantity
    ensures 100.0 * (RawTax(MoneyLines(lines + [l])) - RawTax(MoneyLines(lines)))
            == l.what.taxRate * (l.what.unitPaise * l.what.quantity) as real
    ensures Subtotal(MoneyLines([])) == 0 && RawTax(MoneyLines([])) == 0.0
  {
    hide Subtotal, RawTax;
    var m := MoneyOf(l.what);
    assert MoneyLines(lines + [l]) == MoneyLines(lines) + [MoneyLine(m.paise, m.ratePercent)];
    assert MoneyLines([]) == [];
    OneMoreLine(MoneyLines(lines), m.paise, m.ratePercent);
  }

  /** The totals of an order are reckoned from its lines and its discount. */
  lemma OrderIsReckoned(lines: seq<Line>, d: int)
    ensures Reckoned(MoneyLines(lines), d, TotalsFor(lines, d))
  {
    hide Reckoned, ToPaise, OrderTotals;
    PaiseRoundTrip(d);
    TotalsAreReckoned(MoneyLines(lines), FromPaise(d));
  }

  // ---------- Settling ----------

  /** The amount is within a hundred-millionth of a rupee of whole paise. */
  ghost predicate NearWholePaise(rupees: real) {
    exists paise: int :: NearPaise(rupees, paise)
  }

  predicate NearPaise(rupees: real, paise: int) {
    -0.000001 <= 100.0 * rupees - paise as real <= 0.000001
  }

  lemma WholePaiseMeans(rupees: real)
    ensures WholePaise(rupees) <==> NearWholePaise(rupees)
    ensures WholePaise(rupees) ==> NearPaise(rupees, ToPaise(rupees))
  {
    if WholePaise(rupees) {
      assert NearPaise(rupees, ToPaise(rupees));
    }
    if paise: int :| NearPaise(rupees, paise) {
      RoundUnique(rupees * 100.0, paise);
    }
  }

  /** A payment of a known kind, of a positive number of paise. */
  ghost predicate Tendered(t: Payment) {
    t.mode in {"CASH", "CARD", "UPI", "WALLET", "OTHER"} && t.rupees > 0.0 && NearWholePaise(t.rupees)
  }

  /** The amounts of some payments, in paise, add up to the paisa. */
  lemma {:induction false} PaidAddsUp(a: seq<Payment>, b: seq<Payment>)
    ensures Paid(a + b) == Paid(a) + Paid(b)
    ensures forall t :: Paid([t]) == ToPaise(t.rupees)
  {
    hide ToPaise;
    if b == [] {
      assert a + b == a;
    } else {
      assert (a + b)[..|a + b| - 1] == a + b[..|b| - 1];
      PaidAddsUp(a, b[..|b| - 1]);
    }
    assert forall t: Payment :: [t][..0] == [];
  }

  /** The coupon as the terminal knows it, its uses with those not acknowledged yet. */
  function KnownCoupon(db: Db, code: string): Option<Coupon> {
    if code !in db.coupons then None
    else
      var c := db.coupons[code];
      Some(if c.usageLimit.None? then c else c.(usedCount := c.usedCount + |Unsynced(db.orders, code)|))
  }

  /** What the coupon of a settlement takes off; nothing if there is none. */
  ghost predicate CouponTakes(db: Db, code: Option<string>, subtotal: int, now: Time, paise: int) {
    if code.None? then paise == 0
    else
      var c := KnownCoupon(db, code.value);
      c.Some? && WithinLimits(c.value, subtotal, now)
      && Evaluate(c, FromPaise(subtotal), now) == Valid(paise)
  }

  lemma CouponPreviewed(db: Db, code: string, subtotal: int, now: Time)
    ensures PreviewCoupon(db, code, subtotal, now) == Evaluate(KnownCoupon(db, code), FromPaise(subtotal), now)
    ensures PreviewCoupon(db, code, subtotal, now).Valid? <==>
              KnownCoupon(db, code).Some? && WithinLimits(KnownCoupon(db, code).value, subtotal, now)
  {
    hide WithinLimits, Unsynced, DiscountRupees, Round;
    if code in db.coupons {
      AcceptedIffWithinLimits(KnownCoupon(db, code).value, subtotal, now);
    }
  }

  /** The settlement may go ahead, with `couponPaise` off for its coupon and the totals `t`. */
  ghost predicate MaySettle(db: Db, o: Order, s: Settlement, now: Time, couponPaise: int, t: Totals) {
    && s.discountRupees >= 0.0 && NearWholePaise(s.discountRupees)
    && CouponTakes(db, s.couponCode, t.subtotal, now, couponPaise)
    && ToPaise(s.discountRupees) + couponPaise <= t.subtotal
    && Reckoned(MoneyLines(o.lines), ToPaise(s.discountRupees) + couponPaise, t)
    && s.tenders != [] && (forall i :: 0 <= i < |s.tenders| ==> Tendered(s.tenders[i]))
    && Paid(s.tenders) == t.total
  }

  lemma TenderMeans(t: Payment)
    ensures TenderOk(t) <==> Tendered(t)
  {
    hide WholePaise, NearWholePaise;
    WholePaiseMeans(t.rupees);
  }

  /** A quote is given only for a settlement that may go ahead, and is its coupon discount and totals. */
  lemma QuoteMeans(db: Db, o: Order, s: Settlement, now: Time)
    requires QuoteFor(db, o, s, now).Quote?
    ensures var q := QuoteFor(db, o, s, now);
            MaySettle(db, o, s, now, q.couponPaise, q.totals)
  {
    hide WholePaise, NearWholePaise, TenderOk, Tendered, PreviewCoupon, TotalsFor, Reckoned, ToPaise, WithinLimits,
      Evaluate, KnownCoupon, Paid;
    var q := QuoteFor(db, o, s, now);
    WholePaiseMeans(s.discountRupees);
    var subtotal := TotalsFor(o.lines, 0).subtotal;
    if s.couponCode.Some? {
      CouponPreviewed(db, s.couponCode.value, subtotal, now);
    }
    SameSubtotal(o.lines, 0, ToPaise(s.discountRupees) + q.couponPaise);
    OrderIsReckoned(o.lines, ToPaise(s.discountRupees) + q.couponPaise);
    forall i | 0 <= i < |s.tenders|
      ensures Tendered(s.tenders[i])
    {
      TenderMeans(s.tenders[i]);
    }
  }

  lemma SameSubtotal(lines: seq<Line>, d: int, e: int)
    ensures TotalsFor(lines, d).subtotal == TotalsFor(lines, e).subtotal
  {
    hide Subtotal, RawTax, BlendedTax;
  }

  /** A settlement that may go ahead is quoted. */
  lemma SettlementIsQuoted(db: Db, o: Order, s: Settlement, now: Time, couponPaise: int, t: Totals)
    requires MaySettle(db, o, s, now, couponPaise, t)
    ensures QuoteFor(db, o, s, now) == Quote(couponPaise, t)
  {
    hide WholePaise, NearWholePaise, TenderOk, Tendered, PreviewCoupon, TotalsFor, Reckoned, ToPaise, WithinLimits,
      Evaluate, KnownCoupon, Paid;
    WholePaiseMeans(s.discountRupees);
    var d := ToPaise(s.discountRupees) + couponPaise;
    OrderIsReckoned(o.lines, d);
    ReckonedOnce(MoneyLines(o.lines), d, t, TotalsFor(o.lines, d));
    SameSubtotal(o.lines, 0, ToPaise(s.discountRupees) + couponPaise);
    if s.couponCode.Some? {
      CouponPreviewed(db, s.couponCode.value, t.subtotal, now);
    }
    forall i | 0 <= i < |s.tenders|
      ensures TenderOk(s.tenders[i])
    {
      TenderMeans(s.tenders[i]);
    }
  }

  /** The order before and after settlement: it is closed with what was entered, and otherwise as it was. */
  ghost predicate SettledWith(o: Order, p: Order, s: Settlement, at: Time) {
    p == o.(totals := p.totals, payments := s.tenders, manualRupees := s.discountRupees, couponCode := s.couponCode,
            couponPaise := p.couponPaise, status := Settled, billNo := p.billNo, receipt := p.receipt,
            closedAt := Some(at), closedBy := s.staffId, updatedAt := at)
  }

  /** One order is closed and queued, and the other orders and rows are as they were. */
  ghost predicate ClosedAndQueued(db: Db, n: Db, c: ClientId, at: Time) {
    && OnlyOrder(db, n, c) && n.orders[c].sync == Queued
    && OrderKey(c) in n.outbox && n.outbox[OrderKey(c)].status == Pending && n.outbox[OrderKey(c)].attempts == 0
    && n.outbox[OrderKey(c)].nextAttemptAt == at
    && forall k :: k != OrderKey(c) ==>
         (k in n.outbox <==> k in db.outbox) && (k in db.outbox ==> n.outbox[k] == db.outbox[k])
  }

  lemma ClosesMeans(db: Db, n: Db, c: ClientId, o: Order, at: Time)
    requires Closes(db, n, c, o, at)
    ensures ClosedAndQueued(db, n, c, at) && n.orders[c].order == o
  {}

  /** A settlement that succeeds was one that may go ahead, and closes the order with what was entered. */
  lemma SettlingKeepsWhatWasEntered(db: Db, c: ClientId, s: Settlement, at: Time, now: Time, fy: string)
    requires c in db.orders ==> db.orders[c].order.clientId == c
    requires OrderKey(c) !in db.outbox && SettleOrder(db, c, s, at, now, fy).Ok?
    ensures var n := SettleOrder(db, c, s, at, now, fy).db;
            && IsOpen(db, c) && ClosedAndQueued(db, n, c, at) && n.kots == db.kots
            && var o, p := db.orders[c].order, n.orders[c].order;
               SettledWith(o, p, s, at) && MaySettle(db, o, s, now, p.couponPaise, p.totals)
  {
    hide QuoteFor, Format, SettleOrder, Closes, MaySettle, ClosedAndQueued;
    SettledIsOpen(db, c, s, at, now, fy);
    SettleCloses(db, c, s, at, now, fy);
    var n := SettleOrder(db, c, s, at, now, fy).db;
    ClosesMeans(db, n, c, n.orders[c].order, at);
    QuoteMeans(db, db.orders[c].order, s, now);
  }

  lemma SettledIsOpen(db: Db, c: ClientId, s: Settlement, at: Time, now: Time, fy: string)
    requires SettleOrder(db, c, s, at, now, fy).Ok?
    ensures IsOpen(db, c)
  {
    hide QuoteFor, Format;
  }

  /**
   An open order is settled exactly when the settlement may go ahead with some coupon discount and totals,
   and, on an activated terminal, the text of the next invoice number fits.
   */
  lemma SettledIff(db: Db, c: ClientId, s: Settlement, at: Time, now: Time, fy: string)
    requires IsOpen(db, c)
    ensures SettleOrder(db, c, s, at, now, fy).Ok? <==>
              && (exists paise, t :: MaySettle(db, db.orders[c].order, s, now, paise, t))
              && (db.seriesCode.Some? ==>
                    var last := LastSeq(db.billSeries, db.seriesCode.value, fy);
                    |NumberText(BillNo(db.seriesCode.value, fy, last + 1))| <= 16)
  {
    hide QuoteFor, MaySettle, NumberText, SaveClosed, SettledOrder;
    var o := db.orders[c].order;
    if QuoteFor(db, o, s, now).Quote? {
      QuoteMeans(db, o, s, now);
    }
    if paise, t :| MaySettle(db, o, s, now, paise, t) {
      SettlementIsQuoted(db, o, s, now, paise, t);
    }
  }

  // ---------- Cancelling ----------

  /** An order is cancelled exactly while it is open; its tickets leave the kitchen, and the rest stays. */
  lemma CancellingWithdraws(db: Db, c: ClientId, staffId: Option<string>, reason: Option<string>, at: Time)
    requires c in db.orders ==> db.orders[c].order.clientId == c
    requires OrderKey(c) !in db.outbox
    ensures CancelOrder(db, c, staffId, reason, at).Ok? <==> IsOpen(db, c)
    ensures IsOpen(db, c) ==>
              var n := CancelOrder(db, c, staffId, reason, at).db;
              && ClosedAndQueued(db, n, c, at)
              && n.orders[c].order == db.orders[c].order.(
                   status := Cancelled, closedAt := Some(at), closedBy := staffId, cancelReason := reason,
                   updatedAt := at)
              && n.kots.Keys == db.kots.Keys
              && forall id :: id in db.kots ==>
                   if id.clientId != c then n.kots[id] == db.kots[id]
                   else n.kots[id] == db.kots[id].(status := Withdrawn, updatedAt := at)
  {
    hide SaveClosed, Closes, ClosedAndQueued;
    if IsOpen(db, c) {
      CancelCloses(db, c, staffId, reason, at);
      var n := CancelOrder(db, c, staffId, reason, at).db;
      ClosesMeans(db, n, c, n.orders[c].order, at);
    }
  }

  // ---------- In the kitchen ----------

  /** A line or ticket is ready since the moment it was bumped to ready, and not ready otherwise. */
  function Since(to: PrepStatus, at: Time): Option<Time> {
    match to
    case Ready => Some(at)
    case _ => None
  }

  /** A ticket can be bumped exactly while it is live, and then shows the status and since when it is ready. */
  lemma BumpStampsTicket(db: Db, id: KotId, to: PrepStatus, at: Time, uuid: string)
    ensures AdvanceTicket(db, id, to, at, uuid).Ok? <==> id in db.kots && db.kots[id].status.Live?
    ensures AdvanceTicket(db, id, to, at, uuid).Ok? ==>
              AdvanceTicket(db, id, to, at, uuid).db.kots
              == db.kots[id := Ticket(db.kots[id].items, Live(to), at, Since(to, at))]
  {
    hide MarkLines, KotLines;
  }

  /**
   The lines on the ticket show the status and since when they are ready, and nothing else about the order
   changes; the update is queued exactly if the cloud is known to have the order.
   */
  lemma BumpStampsLines(db: Db, id: KotId, to: PrepStatus, at: Time, uuid: string)
    requires AdvanceTicket(db, id, to, at, uuid).Ok? && id.clientId in db.orders
    requires db.orders[id.clientId].order.clientId == id.clientId && KotKey(id.clientId, uuid) !in db.outbox
    ensures var n, c := AdvanceTicket(db, id, to, at, uuid).db, id.clientId;
            && OnlyOrder(db, n, c) && n.orders[c].sync == db.orders[c].sync
            && (var o, p, items := db.orders[c].order, n.orders[c].order, db.kots[id].items;
                && p == o.(lines := p.lines) && |p.lines| == |o.lines|
                && forall i :: 0 <= i < |o.lines| ==>
                     p.lines[i] == if i in items then o.lines[i].(prep := to, preppedAt := Since(to, at))
                                   else o.lines[i])
            && n.outbox == if Acknowledged(db, c) then
                             db.outbox[KotKey(c, uuid) := OutboxRow(db.nextOutboxId, KotLines(n.orders[c].order.lines),
                                                                    Pending, 0, at, None)]
                           else db.outbox
  {
    hide KotLines;
  }

  // ---------- Answers and retention ----------

  /**
   An answer to a row that is still there: a retry counts one attempt more and waits, and changes nothing
   else; any other answer ends the row now, with one attempt more, and moves its order to the same end.
   */
  lemma AnswerIsRecorded(db: Db, e: DueRow, s: OpStatus, now: Time, backoff: nat -> int)
    requires e.key in db.outbox && db.outbox[e.key].id == e.id
    ensures var n, row := ApplyReply(db, e, s, now, backoff), db.outbox[e.key];
            && (s == Retry ==>
                  n == db.(outbox := db.outbox[e.key := row.(attempts := e.attempts + 1,
                                                             nextAttemptAt := now + backoff(e.attempts + 1))]))
            && (s != Retry ==>
                  var (end, sync) := match s case Refuse => (Rejected, Refused) case Conflict => (Conflicted, Flagged)
                                             case _ => (Done, Synced);
                  && n.outbox == db.outbox[e.key := row.(status := end, attempts := row.attempts + 1,
                                                         doneAt := Some(now))]
                  && (e.key.OrderKey? && e.key.clientId in db.orders ==>
                        n.orders == db.orders[e.key.clientId := OrderRow(db.orders[e.key.clientId].order, sync)])
                  && (e.key.KotKey? || e.key.clientId !in db.orders ==> n.orders == db.orders))
  {}

  /** A batch is at most fifty rows that wait and are due; with fewer than fifty, it is all of them. */
  lemma BatchIsWhatIsDue(outbox: map<Key, OutboxRow>, now: Time, due: seq<Key>)
    requires IsBatch(outbox, now, due)
    ensures |due| <= 50
    ensures forall k :: k in due ==> k in outbox && outbox[k].status == Pending && outbox[k].nextAttemptAt <= now
    ensures |due| < 50 ==>
              forall k :: k in outbox && outbox[k].status == Pending && outbox[k].nextAttemptAt <= now ==> k in due
  {}

  /** Closed before the moment, as far as the order says. */
  predicate ClosedBefore(o: Order, moment: Time) {
    match o.closedAt
    case Some(t) => t < moment
    case None => o.updatedAt < moment
  }

  const DAY := 24 * 60 * 60 * 1000

  /**
   A purge drops exactly the closed orders the cloud has that were closed before the one cut-off, the
   accepted rows that ended before the other, and the tickets untouched for two days whose order is not open.
   */
  lemma PurgeDropsExactly(db: Db, now: Time, orderDays: nat, outboxDays: nat)
    ensures var n := Purge(db, now, orderDays, outboxDays);
            && n == db.(orders := n.orders, outbox := n.outbox, kots := n.kots)
            && (forall c :: c in n.orders ==> c in db.orders && n.orders[c] == db.orders[c])
            && (forall c :: c in db.orders ==>
                  (c !in n.orders <==> && db.orders[c].order.status != Open
                                       && (db.orders[c].sync == Synced || db.orders[c].sync == Flagged)
                                       && ClosedBefore(db.orders[c].order, now - orderDays * DAY)))
            && (forall k :: k in n.outbox ==> k in db.outbox && n.outbox[k] == db.outbox[k])
            && (forall k :: k in db.outbox ==>
                  (k !in n.outbox <==> && (db.outbox[k].status == Done || db.outbox[k].status == Conflicted)
                                       && db.outbox[k].doneAt.Some?
                                       && db.outbox[k].doneAt.value < now - outboxDays * DAY))
            && (forall id :: id in n.kots ==> id in db.kots && n.kots[id] == db.kots[id])
            && (forall id :: id in db.kots ==>
                  (id !in n.kots <==> db.kots[id].updatedAt < now - 2 * DAY && !IsOpen(db, id.clientId)))
  {}
}
