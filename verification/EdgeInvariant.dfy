/**
 What every transaction of the terminal keeps about its own tables.  Each group of facts is one
 predicate with its own preservation lemma; `DeviceInv` is their conjunction.
 */
module EdgeInvariant {
  import opened Options
  import opened BillNumber
  import opened EdgeModel
  import opened EdgeWorld

  // ---------- The facts ----------

  /** The indices, in ascending order, of the lines of one round that one station cooks. */
  function LineIndices(lines: seq<Line>, kotNo: nat, station: Option<string>): seq<nat> {
    if lines == [] then []
    else
      var n := |lines| - 1;
      var before := LineIndices(lines[..n], kotNo, station);
      if lines[n].kotNo == kotNo && lines[n].what.station == station then before + [n] else before
  }

  /** An order is open exactly while it is local, and exactly until it enters the history of closed orders. */
  ghost predicate RowsOk(db: Db, h: History) {
    && h.closed.Keys <= h.used
    && forall c :: c in db.orders ==>
         && db.orders[c].order.clientId == c && db.orders[c].order.lines != []
         && c in h.used
         && (db.orders[c].order.status == Open <==> db.orders[c].sync == Local)
         && (db.orders[c].order.status == Open <==> c !in h.closed)
  }

  /** The state of an order's outbox row and the sync state of the order tell the same story. */
  predicate RowAgrees(db: Db, c: ClientId)
    requires OrderKey(c) in db.outbox
  {
    match db.outbox[OrderKey(c)].status
    case Pending => c in db.orders && db.orders[c].sync == Queued
    case Rejected => c in db.orders && db.orders[c].sync == Refused
    case Done => c in db.orders ==> db.orders[c].sync == Synced
    case Conflicted => c in db.orders ==> db.orders[c].sync == Flagged
  }

  ghost predicate OutboxOk(db: Db) {
    && (forall c :: OrderKey(c) in db.outbox ==> RowAgrees(db, c))
    && (forall c :: c in db.orders && db.orders[c].sync == Queued ==>
          OrderKey(c) in db.outbox && db.outbox[OrderKey(c)].status == Pending)
    && (forall c :: c in db.orders && db.orders[c].sync == Refused ==>
          OrderKey(c) in db.outbox && db.outbox[OrderKey(c)].status == Rejected)
  }

  ghost predicate IdsOk(db: Db) {
    && (forall k :: k in db.outbox ==> db.outbox[k].id < db.nextOutboxId)
    && (forall k, l :: k in db.outbox && l in db.outbox && db.outbox[k].id == db.outbox[l].id ==> k == l)
  }

  /** Every identifier in the outbox is on record as used, and a kitchen update has something to say. */
  ghost predicate KeysOk(db: Db, h: History) {
    forall k :: k in db.outbox ==> k.clientId in h.used && (k.KotKey? ==> k.uuid in h.uuids && db.outbox[k].lines != [])
  }

  ghost predicate SameExceptPrep(a: Order, b: Order) {
    && a.(lines := b.lines) == b
    && |a.lines| == |b.lines|
    && forall i :: 0 <= i < |a.lines| ==> a.lines[i].what == b.lines[i].what && a.lines[i].kotNo == b.lines[i].kotNo
  }

  /** A closed order changes in nothing but kitchen progress. */
  ghost predicate ClosedStable(db: Db, h: History) {
    && (forall c :: c in db.orders && c in h.closed ==> SameExceptPrep(db.orders[c].order, h.closed[c]))
    && (forall c :: c in h.closed ==> h.closed[c].clientId == c && h.closed[c].status != Open)
  }

  predicate OpenFigures(o: Order) {
    && o.billNo.None? && o.receipt.None? && o.couponCode.None? && o.payments == []
    && o.manualRupees == 0.0 && o.couponPaise == 0
    && o.totals == TotalsFor(o.lines, 0)
  }

  predicate ClosedFigures(o: Order) {
    && o.totals == TotalsFor(o.lines, Discount(o.manualRupees, o.couponPaise))
    && o.manualRupees >= 0.0 && o.closedAt.Some?
    && (o.status == Settled ==> forall i :: 0 <= i < |o.payments| ==> TenderOk(o.payments[i]))
    && (o.status == Settled ==>
          Paid(o.payments) == o.totals.total && Discount(o.manualRupees, o.couponPaise) <= o.totals.subtotal)
    && (o.status != Settled ==> o.billNo.None? && o.manualRupees == 0.0 && o.couponPaise == 0)
  }

  ghost predicate FiguresOk(db: Db, h: History) {
    && (forall c :: c in db.orders && db.orders[c].order.status == Open ==> OpenFigures(db.orders[c].order))
    && (forall c :: c in h.closed ==> ClosedFigures(h.closed[c]))
  }

  /** The bill on a closed order is well formed and is what its receipt shows. */
  predicate ReceiptOk(o: Order) {
    o.billNo.Some? ==>
      && WellFormedSeries(o.billNo.value.series) && WellFormedYear(o.billNo.value.fy)
      && PrintedNumber(o).Some? && Format(o.billNo.value) == PrintedNumber(o)
  }

  /** The numbers issued in a series and year are exactly 1 to the counter, each on exactly one closed order. */
  ghost predicate SeriesOk(db: Db, h: History) {
    && (forall b :: b in h.issued <==> 1 <= b.seqNo <= LastSeq(db.billSeries, b.series, b.fy))
    && (forall b :: b in h.issued ==> h.issued[b] in h.closed && h.closed[h.issued[b]].billNo == Some(b))
    && (forall c :: c in h.closed && h.closed[c].billNo.Some? ==>
          h.closed[c].billNo.value in h.issued && h.issued[h.closed[c].billNo.value] == c)
    && (forall c :: c in h.closed ==> ReceiptOk(h.closed[c]))
    && (db.seriesCode.Some? ==> WellFormedSeries(db.seriesCode.value))
  }

  /** At most one running order per table. */
  ghost predicate TablesOk(db: Db) {
    forall c, d :: c in db.orders && d in db.orders
                   && db.orders[c].order.status == Open && db.orders[d].order.status == Open
                   && db.orders[c].order.tableId.Some? && db.orders[c].order.tableId == db.orders[d].order.tableId
                   ==> c == d
  }

  ghost predicate LinesNumbered(o: Order) {
    forall i :: 0 <= i < |o.lines| ==> 1 <= o.lines[i].kotNo <= o.kotCount
  }

  /** A ticket lists exactly the lines of its round and station, and shows their status. */
  ghost predicate TicketMatches(id: KotId, t: Ticket, o: Order) {
    && 1 <= id.kotNo <= o.kotCount
    && t.items == LineIndices(o.lines, id.kotNo, id.station)
    && (t.status.Live? ==>
          forall i :: 0 <= i < |o.lines| && o.lines[i].kotNo == id.kotNo && o.lines[i].what.station == id.station ==>
            o.lines[i].prep == t.status.prep && o.lines[i].preppedAt == t.readyAt)
  }

  ghost predicate Covered(db: Db, o: Order) {
    forall i :: 0 <= i < |o.lines| ==> KotId(o.clientId, o.lines[i].kotNo, o.lines[i].what.station) in db.kots
  }

  ghost predicate TicketsOk(db: Db, h: History) {
    && (forall id :: id in db.kots ==> id.clientId in h.used)
    && (forall id :: id in db.kots && id.clientId in db.orders ==>
          TicketMatches(id, db.kots[id], db.orders[id.clientId].order))
    && (forall c :: c in db.orders ==> LinesNumbered(db.orders[c].order))
    && (forall c :: c in db.orders && db.orders[c].order.status == Open ==> Covered(db, db.orders[c].order))
  }

  ghost predicate DeviceInv(db: Db, h: History) {
    && RowsOk(db, h) && OutboxOk(db) && IdsOk(db) && KeysOk(db, h)
    && ClosedStable(db, h) && FiguresOk(db, h) && SeriesOk(db, h) && TablesOk(db) && TicketsOk(db, h)
  }

  // ---------- Line indices ----------

  lemma {:induction false} LineIndicesMembers(lines: seq<Line>, k: nat, st: Option<string>)
    ensures forall i :: i in LineIndices(lines, k, st) <==>
                        0 <= i < |lines| && lines[i].kotNo == k && lines[i].what.station == st
    ensures forall p, q :: 0 <= p < q < |LineIndices(lines, k, st)| ==>
                           LineIndices(lines, k, st)[p] < LineIndices(lines, k, st)[q]
  {
    if lines != [] {
      var before := LineIndices(lines[..|lines| - 1], k, st);
      LineIndicesMembers(lines[..|lines| - 1], k, st);
      assert forall p :: 0 <= p < |before| ==> before[p] in before;
    }
  }

  /** The indices depend on rounds and stations only. */
  lemma {:induction false} LineIndicesCongruent(a: seq<Line>, b: seq<Line>, k: nat, st: Option<string>)
    requires |a| == |b|
    requires forall i :: 0 <= i < |a| ==> a[i].kotNo == b[i].kotNo && a[i].what == b[i].what
    ensures LineIndices(a, k, st) == LineIndices(b, k, st)
  {
    if a != [] {
      LineIndicesCongruent(a[..|a| - 1], b[..|b| - 1], k, st);
    }
  }

  /** Firing another round leaves the indices of earlier rounds alone. */
  lemma {:induction false} LineIndicesOfEarlierRound(a: seq<Line>, more: seq<Line>, k: nat, st: Option<string>)
    requires forall i :: 0 <= i < |more| ==> more[i].kotNo != k
    ensures LineIndices(a + more, k, st) == LineIndices(a, k, st)
  {
    if more == [] {
      assert a + more == a;
    } else {
      assert (a + more)[..|a + more| - 1] == a + more[..|more| - 1];
      LineIndicesOfEarlierRound(a, more[..|more| - 1], k, st);
    }
  }

  /** The lines of a fresh round are the ones its tickets list. */
  lemma {:induction false} LineIndicesOfRound(a: seq<Line>, lines: seq<NewLine>, k: nat, st: Option<string>)
    requires forall i :: 0 <= i < |a| ==> a[i].kotNo != k
    ensures LineIndices(a + Stamp(lines, k), k, st) == RoundIndices(lines, st, |a|)
  {
    var all := a + Stamp(lines, k);
    if lines == [] {
      assert all == [] + a;
      LineIndicesOfEarlierRound([], a, k, st);
    } else {
      var n := |lines| - 1;
      assert all[..|all| - 1] == a + Stamp(lines[..n], k);
      LineIndicesOfRound(a, lines[..n], k, st);
    }
  }
}
