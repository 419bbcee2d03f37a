/** Kitchen tickets partition the lines of a running order and mirror their progress. */
module EdgeTickets {
  import opened Options
  import opened EdgeModel
  import opened EdgeWorld
  import opened EdgeInvariant
  import opened EdgeLocal

  // ---------- Firing a round ----------

  /** The order before and after a round is fired, as far as tickets are concerned. */
  ghost predicate Fired(o: Order, o': Order, lines: seq<NewLine>) {
    && o'.clientId == o.clientId && o'.kotCount == o.kotCount + 1
    && o'.lines == o.lines + Stamp(lines, o.kotCount + 1)
    && LinesNumbered(o)
  }

  lemma FiredTicketMatches(o: Order, o': Order, lines: seq<NewLine>, st: Option<string>, at: Time)
    requires Fired(o, o', lines)
    ensures TicketMatches(KotId(o.clientId, o'.kotCount, st),
                          Ticket(RoundIndices(lines, st, |o.lines|), Live(Waiting), at, None), o')
  {
    hide LineIndices, RoundIndices;
    LineIndicesOfRound(o.lines, lines, o'.kotCount, st);
  }

  lemma EarlierTicketMatches(o: Order, o': Order, lines: seq<NewLine>, id: KotId, t: Ticket)
    requires Fired(o, o', lines) && TicketMatches(id, t, o)
    ensures TicketMatches(id, t, o')
  {
    hide LineIndices;
    LineIndicesOfEarlierRound(o.lines, Stamp(lines, o.kotCount + 1), id.kotNo, id.station);
    forall i | 0 <= i < |o'.lines| && o'.lines[i].kotNo == id.kotNo
      ensures i < |o.lines| && o'.lines[i] == o.lines[i]
    {}
  }

  lemma FiredTickets(o: Order, o': Order, lines: seq<NewLine>, at: Time)
    requires Fired(o, o', lines)
    ensures forall id :: id in FireTickets(o, lines, at) <==>
              id.clientId == o.clientId && id.kotNo == o'.kotCount && id.station in StationsOf(lines)
    ensures forall id :: id in FireTickets(o, lines, at) ==> TicketMatches(id, FireTickets(o, lines, at)[id], o')
  {
    hide RoundIndices, TicketMatches;
    var fired := FireTickets(o, lines, at);
    forall id | id in fired
      ensures TicketMatches(id, fired[id], o')
    {
      FiredTicketMatches(o, o', lines, id.station, at);
    }
  }

  lemma FiredIsCovered(db: Db, n: Db, o: Order, o': Order, lines: seq<NewLine>, fired: map<KotId, Ticket>)
    requires Fired(o, o', lines) && n.kots == db.kots + fired
    requires o.lines != [] ==> Covered(db, o)
    requires forall id :: id in fired <==>
               id.clientId == o.clientId && id.kotNo == o'.kotCount && id.station in StationsOf(lines)
    ensures Covered(n, o')
  {
    forall i | 0 <= i < |o'.lines|
      ensures KotId(o'.clientId, o'.lines[i].kotNo, o'.lines[i].what.station) in n.kots
    {
      if i >= |o.lines| {
        assert o'.lines[i].what == lines[i - |o.lines|];
        assert lines[i - |o.lines|].station in StationsOf(lines);
      } else {
        assert o'.lines[i] == o.lines[i];
      }
    }
  }

  lemma FireKeepsTickets(db: Db, n: Db, h: History, g: History, o: Order, o': Order, lines: seq<NewLine>, at: Time)
    requires TicketsOk(db, h) && g.used == h.used + {o.clientId}
    requires Fired(o, o', lines)
    requires Writes(db, n, o.clientId, o') && n.kots == db.kots + FireTickets(o, lines, at)
    requires o.clientId in db.orders ==> db.orders[o.clientId].order == o
    requires o.clientId !in db.orders ==> o.clientId !in h.used && o.lines == []
    ensures TicketsOk(n, g)
  {
    hide LineIndices, TicketMatches, FireTickets, Covered;
    var fired := FireTickets(o, lines, at);
    FiredTickets(o, o', lines, at);
    forall id | id in n.kots && id.clientId in n.orders
      ensures TicketMatches(id, n.kots[id], n.orders[id.clientId].order)
    {
      if id !in fired && id.clientId == o.clientId {
        EarlierTicketMatches(o, o', lines, id, db.kots[id]);
      }
    }
    FiredIsCovered(db, n, o, o', lines, fired);
    forall c | c in n.orders && n.orders[c].order.status == Open
      ensures Covered(n, n.orders[c].order)
    {
      if c != o.clientId {
        CoveredMonotone(db, n, db.orders[c].order);
      }
    }
  }

  lemma CoveredMonotone(db: Db, n: Db, o: Order)
    requires Covered(db, o) && db.kots.Keys <= n.kots.Keys
    ensures Covered(n, o)
  {}

  // ---------- The other effects ----------

  lemma SettleKeepsTickets(db: Db, n: Db, h: History, g: History, c: ClientId, o: Order, at: Time)
    requires TicketsOk(db, h) && g.used == h.used && Closes(db, n, c, o, at) && n.kots == db.kots
    ensures TicketsOk(n, g)
  {
    hide LineIndices;
  }

  lemma CancelKeepsTickets(db: Db, n: Db, h: History, g: History, c: ClientId, o: Order, at: Time)
    requires TicketsOk(db, h) && g.used == h.used && Closes(db, n, c, o, at) && n.kots == Withdraw(db.kots, c, at)
    ensures TicketsOk(n, g)
  {
    hide LineIndices;
  }

  /** The ticket that was bumped agrees with the lines it marked. */
  lemma BumpedTicketMatches(id: KotId, t: Ticket, o: Order, o': Order, to: PrepStatus, at: Time)
    requires TicketMatches(id, t, o) && o' == o.(lines := MarkLines(o.lines, t.items, to, at))
    ensures TicketMatches(id, t.(status := Live(to), updatedAt := at, readyAt := ReadyTime(to, at)), o')
  {
    hide LineIndices;
    LineIndicesMembers(o.lines, id.kotNo, id.station);
    LineIndicesCongruent(o.lines, o'.lines, id.kotNo, id.station);
  }

  /** Bumping one ticket does not touch the lines of another. */
  lemma OtherTicketMatches(id: KotId, t: Ticket, o: Order, o': Order, other: KotId, u: Ticket, to: PrepStatus, at: Time)
    requires TicketMatches(id, t, o) && TicketMatches(other, u, o) && id != other && id.clientId == other.clientId
    requires o' == o.(lines := MarkLines(o.lines, t.items, to, at))
    ensures TicketMatches(other, u, o')
  {
    hide LineIndices;
    LineIndicesMembers(o.lines, id.kotNo, id.station);
    LineIndicesCongruent(o.lines, o'.lines, other.kotNo, other.station);
  }

  lemma BumpKeepsTickets(db: Db, n: Db, h: History, g: History, id: KotId, to: PrepStatus, uuid: string, at: Time)
    requires TicketsOk(db, h) && g.used == h.used
    requires id in db.kots && id.clientId in db.orders && db.orders[id.clientId].order.clientId == id.clientId
    requires Marks(db, n, id.clientId, MarkedOrder(db, id, to, at), uuid, at)
    requires n.kots == db.kots[id := db.kots[id].(status := Live(to), updatedAt := at, readyAt := ReadyTime(to, at))]
    ensures TicketsOk(n, g)
  {
    hide TicketMatches, Covered;
    var c, o' := id.clientId, MarkedOrder(db, id, to, at);
    BumpedTicketMatches(id, db.kots[id], db.orders[c].order, o', to, at);
    forall x | x in n.kots && x.clientId in n.orders
      ensures TicketMatches(x, n.kots[x], n.orders[x.clientId].order)
    {
      if x.clientId == c && x != id {
        OtherTicketMatches(id, db.kots[id], db.orders[c].order, o', x, db.kots[x], to, at);
      }
    }
    forall d | d in n.orders && n.orders[d].order.status == Open
      ensures Covered(n, n.orders[d].order)
    {
      CoveredCongruent(db, n, db.orders[d].order, n.orders[d].order);
    }
  }

  lemma CoveredCongruent(db: Db, n: Db, o: Order, o': Order)
    requires Covered(db, o) && db.kots.Keys <= n.kots.Keys && SameExceptPrep(o', o)
    ensures Covered(n, o')
  {}

  /** A ticket whose order is gone is only a kitchen screen entry. */
  lemma OrphanBumpKeepsTickets(db: Db, n: Db, h: History, g: History, id: KotId, t: Ticket)
    requires TicketsOk(db, h) && g.used == h.used
    requires id in db.kots && id.clientId !in db.orders
    requires n.kots == db.kots[id := t] && n.orders == db.orders
    ensures TicketsOk(n, g)
  {
    hide TicketMatches;
  }

  lemma DropsKeepsTickets(db: Db, n: Db, h: History)
    requires TicketsOk(db, h) && Drops(db, n) && RowsOk(db, h)
    ensures TicketsOk(n, h)
  {
    hide TicketMatches;
  }
}
