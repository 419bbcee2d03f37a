/**
 Catalog replication.  The cloud materialises an outlet's catalog as entries stamped with a growing
 sequence number and serves the entries after a cursor page by page; the terminal applies each page
 together with the new cursor.
 */
module Feed {
  import opened Options

  datatype RowKey = RowKey(entity: string, id: string)
  datatype Row = Row(data: string, seqNo: nat)

  /** `data` is `None` for a deletion. */
  datatype Change = Change(key: RowKey, data: Option<string>, seqNo: nat)
  datatype Page = Page(cursor: nat, changes: seq<Change>, hasMore: bool, reset: bool)

  // ---------- The terminal's copy ----------

  datatype Store = Store(rows: map<RowKey, Row>, cursor: nat)

  function ApplyChange(rows: map<RowKey, Row>, c: Change): map<RowKey, Row> {
    if c.data.Some? then rows[c.key := Row(c.data.value, c.seqNo)] else rows - {c.key}
  }

  function ApplyChanges(rows: map<RowKey, Row>, changes: seq<Change>): map<RowKey, Row> {
    if changes == [] then rows
    else ApplyChange(ApplyChanges(rows, changes[..|changes| - 1]), changes[|changes| - 1])
  }

  function ApplyPage(s: Store, p: Page): Store {
    Store(ApplyChanges(if p.reset then map[] else s.rows, p.changes), p.cursor)
  }

  lemma {:induction false} PagesCompose(rows: map<RowKey, Row>, a: seq<Change>, b: seq<Change>)
    ensures ApplyChanges(ApplyChanges(rows, a), b) == ApplyChanges(rows, a + b)
  {
    if b == [] {
      assert a + b == a;
    } else {
      assert (a + b)[..|a + b| - 1] == a + b[..|b| - 1];
      PagesCompose(rows, a, b[..|b| - 1]);
    }
  }

  /** The last change of a key in a page, if any. */
  function LastChange(changes: seq<Change>, k: RowKey): Option<Change> {
    if changes == [] then None
    else if changes[|changes| - 1].key == k then Some(changes[|changes| - 1])
    else LastChange(changes[..|changes| - 1], k)
  }

  /** After a page, a key holds what its last change says, and what it held before if there is none. */
  lemma {:induction false} LastChangeWins(rows: map<RowKey, Row>, changes: seq<Change>, k: RowKey)
    ensures var after, c := ApplyChanges(rows, changes), LastChange(changes, k);
            if c.None? then (k in after <==> k in rows) && (k in rows ==> after[k] == rows[k])
            else if c.value.data.Some? then k in after && after[k] == Row(c.value.data.value, c.value.seqNo)
            else k !in after
  {
    if changes != [] {
      LastChangeWins(rows, changes[..|changes| - 1], k);
    }
  }

  /** Applying a page a second time changes nothing. */
  lemma PageIsIdempotent(rows: map<RowKey, Row>, changes: seq<Change>)
    ensures ApplyChanges(ApplyChanges(rows, changes), changes) == ApplyChanges(rows, changes)
  {
    var once := ApplyChanges(rows, changes);
    var twice := ApplyChanges(once, changes);
    forall k: RowKey
      ensures (k in twice <==> k in once) && (k in once ==> twice[k] == once[k])
    {
      LastChangeWins(rows, changes, k);
      LastChangeWins(once, changes, k);
    }
    assert twice.Keys == once.Keys;
  }

  // ---------- The cloud's feed ----------

  /** `live` is `None` for a tombstone. */
  datatype Entry = Entry(live: Option<string>, seqNo: nat)
  datatype Server = Server(entries: map<RowKey, Entry>, lastSeq: nat)

  ghost predicate ServerOk(s: Server) {
    && (forall k :: k in s.entries ==> 1 <= s.entries[k].seqNo <= s.lastSeq)
    && (forall k, l :: k in s.entries && l in s.entries && s.entries[k].seqNo == s.entries[l].seqNo ==> k == l)
  }

  function Stamp(s: Server, k: RowKey, live: Option<string>): Server {
    Server(s.entries[k := Entry(live, s.lastSeq + 1)], s.lastSeq + 1)
  }

  /** The catalog the cloud publishes. */
  function Published(s: Server): map<RowKey, string> {
    map k | k in s.entries && s.entries[k].live.Some? :: s.entries[k].live.value
  }

  /** Stamp the rows of the current catalog that are new, changed or revived. */
  function RefreshRows(s: Server, rows: seq<(RowKey, string)>): Server {
    if rows == [] then s
    else
      var (k, data) := rows[|rows| - 1];
      var before := RefreshRows(s, rows[..|rows| - 1]);
      if k in before.entries && before.entries[k].live == Some(data) then before else Stamp(before, k, Some(data))
  }

  /** Bury the stored rows that the current catalog no longer has. */
  function Bury(s: Server, stored: seq<RowKey>, keep: set<RowKey>): Server {
    if stored == [] then s
    else
      var k := stored[|stored| - 1];
      var before := Bury(s, stored[..|stored| - 1], keep);
      if k in before.entries && before.entries[k].live.Some? && k !in keep then Stamp(before, k, None) else before
  }

  function KeysOf(rows: seq<(RowKey, string)>): set<RowKey> {
    set i | 0 <= i < |rows| :: rows[i].0
  }

  function Refresh(s: Server, rows: seq<(RowKey, string)>, stored: seq<RowKey>): Server {
    Bury(RefreshRows(s, rows), stored, KeysOf(rows))
  }

  /** Later states of a feed: an entry is either untouched or stamped after everything seen before. */
  ghost predicate Evolves(s: Server, t: Server) {
    && s.lastSeq <= t.lastSeq && s.entries.Keys <= t.entries.Keys
    && (forall k :: k in t.entries ==>
          (k in s.entries && t.entries[k] == s.entries[k]) || t.entries[k].seqNo > s.lastSeq)
  }

  lemma StampEvolves(s: Server, t: Server, k: RowKey, live: Option<string>)
    requires ServerOk(t) && Evolves(s, t)
    ensures ServerOk(Stamp(t, k, live)) && Evolves(s, Stamp(t, k, live))
  {}

  /** The row is in the feed as it is. */
  predicate Unchanged(s: Server, row: (RowKey, string)) {
    row.0 in s.entries && s.entries[row.0].live == Some(row.1)
  }

  predicate DistinctKeys(rows: seq<(RowKey, string)>) {
    forall i, j :: 0 <= i < j < |rows| ==> rows[i].0 != rows[j].0
  }

  /** The feed holds the rows of a catalog, and has left unchanged rows and every other row alone. */
  ghost predicate Holds(s: Server, t: Server, rows: seq<(RowKey, string)>) {
    && (forall i :: 0 <= i < |rows| ==> Unchanged(t, rows[i]))
    && (forall i :: 0 <= i < |rows| && Unchanged(s, rows[i]) ==> t.entries[rows[i].0] == s.entries[rows[i].0])
    && (forall k :: k !in KeysOf(rows) ==>
            (k in t.entries <==> k in s.entries) && (k in s.entries ==> t.entries[k] == s.entries[k]))
  }

  lemma RowJoins(s: Server, t: Server, rows: seq<(RowKey, string)>)
    requires rows != [] && Holds(s, t, rows[..|rows| - 1]) && DistinctKeys(rows)
    ensures var row := rows[|rows| - 1];
            if Unchanged(t, row) then Holds(s, t, rows) else Holds(s, Stamp(t, row.0, Some(row.1)), rows)
  {
    KeysGrow(rows);
    LastKeyIsNew(rows);
    hide KeysOf;
    assert forall i :: 0 <= i < |rows| - 1 ==> rows[..|rows| - 1][i] == rows[i];
  }

  lemma LastKeyIsNew(rows: seq<(RowKey, string)>)
    requires rows != [] && DistinctKeys(rows)
    ensures rows[|rows| - 1].0 !in KeysOf(rows[..|rows| - 1])
  {}

  lemma {:induction false} RefreshRowsPublishes(s: Server, rows: seq<(RowKey, string)>)
    requires ServerOk(s) && DistinctKeys(rows)
    ensures var t := RefreshRows(s, rows);
            ServerOk(t) && Evolves(s, t) && Holds(s, t, rows)
  {
    hide ServerOk, Evolves;
    if rows == [] {
      EvolvesReflexive(s);
    } else {
      hide Holds, KeysOf;
      var n := |rows| - 1;
      var (k, data) := rows[n];
      var before := RefreshRows(s, rows[..n]);
      RefreshRowsPublishes(s, rows[..n]);
      RowJoins(s, before, rows);
      StampEvolves(s, before, k, Some(data));
    }
  }

  lemma KeysGrow(rows: seq<(RowKey, string)>)
    requires rows != []
    ensures KeysOf(rows) == KeysOf(rows[..|rows| - 1]) + {rows[|rows| - 1].0}
  {
    var n := |rows| - 1;
    forall k | k in KeysOf(rows[..n]) + {rows[n].0}
      ensures k in KeysOf(rows)
    {
      if k in KeysOf(rows[..n]) {
        var i :| 0 <= i < n && rows[..n][i].0 == k;
        assert rows[i].0 == k;
      } else {
        assert rows[n].0 == k;
      }
    }
    forall k | k in KeysOf(rows)
      ensures k in KeysOf(rows[..n]) + {rows[n].0}
    {
      var i :| 0 <= i < |rows| && rows[i].0 == k;
      assert i < n ==> rows[..n][i].0 == k;
    }
  }

  /** The stored rows outside `keep` are dead, and every other row was left alone. */
  ghost predicate Buried(s: Server, t: Server, stored: seq<RowKey>, keep: set<RowKey>) {
    && t.entries.Keys == s.entries.Keys
    && (forall k :: k in s.entries && (k in keep || k !in stored || s.entries[k].live.None?) ==>
            t.entries[k] == s.entries[k])
    && (forall k :: k in s.entries && k in stored && k !in keep ==> t.entries[k].live.None?)
  }

  lemma RowIsBuried(s: Server, t: Server, stored: seq<RowKey>, keep: set<RowKey>)
    requires stored != [] && Buried(s, t, stored[..|stored| - 1], keep)
    ensures var k := stored[|stored| - 1];
            if k in t.entries && t.entries[k].live.Some? && k !in keep then Buried(s, Stamp(t, k, None), stored, keep)
            else Buried(s, t, stored, keep)
  {
    assert forall k :: k in stored <==> k in stored[..|stored| - 1] || k == stored[|stored| - 1];
  }

  lemma {:induction false} BuryPublishes(s: Server, stored: seq<RowKey>, keep: set<RowKey>)
    requires ServerOk(s)
    ensures var t := Bury(s, stored, keep);
            ServerOk(t) && Evolves(s, t) && Buried(s, t, stored, keep)
  {
    if stored != [] {
      hide ServerOk, Evolves, Buried;
      var n := |stored| - 1;
      BuryPublishes(s, stored[..n], keep);
      RowIsBuried(s, Bury(s, stored[..n], keep), stored, keep);
      StampEvolves(s, Bury(s, stored[..n], keep), stored[n], None);
    }
  }

  /**
   After a refresh the cloud publishes exactly the current catalog.  Only what changed was stamped: a
   row that is in the feed as it is, and a tombstone of a row that is still gone, keep their entries.
   */
  lemma RefreshPublishes(s: Server, rows: seq<(RowKey, string)>, stored: seq<RowKey>)
    requires ServerOk(s) && DistinctKeys(rows) && forall k :: k in s.entries <==> k in stored
    ensures var t := Refresh(s, rows, stored);
            && ServerOk(t) && Evolves(s, t)
            && (forall i :: 0 <= i < |rows| ==> rows[i].0 in Published(t) && Published(t)[rows[i].0] == rows[i].1)
            && Published(t).Keys == KeysOf(rows)
            && (forall i :: 0 <= i < |rows| && Unchanged(s, rows[i]) ==> t.entries[rows[i].0] == s.entries[rows[i].0])
            && (forall k :: k in s.entries && k !in KeysOf(rows) && s.entries[k].live.None? ==>
                  k in t.entries && t.entries[k] == s.entries[k])
  {
    hide RefreshRows, Bury, ServerOk, Evolves;
    var m := RefreshRows(s, rows);
    RefreshRowsPublishes(s, rows);
    BuryPublishes(m, stored, KeysOf(rows));
    EvolvesTransitive(s, m, Refresh(s, rows, stored));
    assert forall i :: 0 <= i < |rows| ==> rows[i].0 in KeysOf(rows);
  }

  lemma {:induction false} NothingToStamp(s: Server, rows: seq<(RowKey, string)>)
    requires forall i :: 0 <= i < |rows| ==> Unchanged(s, rows[i])
    ensures RefreshRows(s, rows) == s
  {
    if rows != [] {
      NothingToStamp(s, rows[..|rows| - 1]);
      assert Unchanged(s, rows[|rows| - 1]);
    }
  }

  lemma {:induction false} NothingToBury(s: Server, stored: seq<RowKey>, keep: set<RowKey>)
    requires forall k :: k in s.entries && s.entries[k].live.Some? ==> k in keep
    ensures Bury(s, stored, keep) == s
  {
    if stored != [] {
      NothingToBury(s, stored[..|stored| - 1], keep);
    }
  }

  /** A second refresh with the same catalog changes nothing. */
  lemma RefreshIsIdempotent(s: Server, rows: seq<(RowKey, string)>, stored: seq<RowKey>, again: seq<RowKey>)
    requires ServerOk(s) && DistinctKeys(rows) && forall k :: k in s.entries <==> k in stored
    ensures Refresh(Refresh(s, rows, stored), rows, again) == Refresh(s, rows, stored)
  {
    hide ServerOk, Evolves, RefreshRows, Bury, KeysOf;
    var t := Refresh(s, rows, stored);
    RefreshPublishes(s, rows, stored);
    forall i | 0 <= i < |rows|
      ensures Unchanged(t, rows[i])
    {
      assert rows[i].0 in Published(t);
    }
    NothingToStamp(t, rows);
    assert forall k :: k in t.entries && t.entries[k].live.Some? ==> k in Published(t);
    NothingToBury(t, again, KeysOf(rows));
  }

  lemma EvolvesTransitive(s: Server, t: Server, u: Server)
    requires Evolves(s, t) && Evolves(t, u)
    ensures Evolves(s, u)
  {}

  // ---------- Pages ----------

  /** Where serving starts: after the cursor, or from scratch when the cursor is ahead of the feed. */
  function From(s: Server, cursor: nat): nat {
    if cursor > s.lastSeq then 0 else cursor
  }

  /** The changes are the entries from `start` to `upTo`, each once and in the order of their stamps. */
  ghost predicate Lists(s: Server, start: nat, upTo: nat, changes: seq<Change>) {
    && (forall i :: 0 <= i < |changes| ==>
          && changes[i].key in s.entries && s.entries[changes[i].key] == Entry(changes[i].data, changes[i].seqNo)
          && start < changes[i].seqNo <= upTo)
    && (forall i, j :: 0 <= i < j < |changes| ==> changes[i].seqNo < changes[j].seqNo)
    && (forall k :: k in s.entries && start < s.entries[k].seqNo <= upTo ==> Listed(changes, k))
  }

  ghost predicate Listed(changes: seq<Change>, k: RowKey) {
    exists i :: 0 <= i < |changes| && changes[i].key == k
  }

  /** Something is stamped after the cursor. */
  ghost predicate Beyond(s: Server, cursor: nat) {
    exists k :: k in s.entries && s.entries[k].seqNo > cursor
  }

  /** The page the cloud answers a cursor with: the next entries by sequence number, at most `limit`. */
  ghost predicate IsPage(s: Server, cursor: nat, limit: nat, p: Page) {
    var start := From(s, cursor);
    && (p.reset <==> cursor > s.lastSeq)
    && |p.changes| <= limit && Lists(s, start, p.cursor, p.changes)
    && p.cursor == (if p.changes == [] then start else p.changes[|p.changes| - 1].seqNo)
    && (p.hasMore <==> Beyond(s, p.cursor))
  }

  /** An entry beyond the cursor, if there is one; the one stamped first. */
  lemma NextEntry(s: Server, cursor: nat) returns (k: RowKey)
    requires Beyond(s, cursor)
    ensures k in s.entries && s.entries[k].seqNo > cursor
    ensures forall l :: l in s.entries && s.entries[l].seqNo > cursor ==> s.entries[k].seqNo <= s.entries[l].seqNo
  {
    k :| k in s.entries && s.entries[k].seqNo > cursor;
    var left := s.entries.Keys;
    while left != {}
      invariant left <= s.entries.Keys && k in s.entries && s.entries[k].seqNo > cursor
      invariant forall l :: l in s.entries && l !in left && s.entries[l].seqNo > cursor ==>
                  s.entries[k].seqNo <= s.entries[l].seqNo
      decreases left
    {
      var l :| l in left;
      if cursor < s.entries[l].seqNo < s.entries[k].seqNo {
        k := l;
      }
      left := left - {l};
    }
  }

  /** Every cursor can be answered, with a full page unless nothing more is left. */
  lemma {:induction false} PageCanBeServed(s: Server, cursor: nat, limit: nat) returns (p: Page)
    requires ServerOk(s)
    ensures IsPage(s, cursor, limit, p) && (|p.changes| == limit || !p.hasMore)
  {
    if limit == 0 {
      var start := From(s, cursor);
      p := Page(start, [], Beyond(s, start), cursor > s.lastSeq);
    } else {
      p := PageCanBeServed(s, cursor, limit - 1);
      if p.hasMore {
        var k := NextEntry(s, p.cursor);
        p := LongerPage(s, cursor, limit - 1, p, k);
      }
    }
  }

  lemma LongerPage(s: Server, cursor: nat, limit: nat, p: Page, k: RowKey) returns (q: Page)
    requires ServerOk(s) && IsPage(s, cursor, limit, p) && |p.changes| == limit
    requires k in s.entries && s.entries[k].seqNo > p.cursor
    requires forall l :: l in s.entries && s.entries[l].seqNo > p.cursor ==> s.entries[k].seqNo <= s.entries[l].seqNo
    ensures IsPage(s, cursor, limit + 1, q) && |q.changes| == limit + 1
  {
    var e := s.entries[k];
    q := Page(e.seqNo, p.changes + [Change(k, e.live, e.seqNo)],
              Beyond(s, e.seqNo), p.reset);
    LongerLists(s, From(s, cursor), p.cursor, p.changes, k);
    hide Lists, Beyond;
  }

  /** A page is at most `limit` changes: one for each entry from its start to its cursor, in their order. */
  lemma PageListsEntries(s: Server, cursor: nat, limit: nat, p: Page, k: RowKey)
    requires IsPage(s, cursor, limit, p)
    ensures |p.changes| <= limit && (p.reset <==> s.lastSeq < cursor)
    ensures var start := if cursor <= s.lastSeq then cursor else 0;
            Listed(p.changes, k) <==> k in s.entries && start < s.entries[k].seqNo <= p.cursor
    ensures forall i, j :: 0 <= i < j < |p.changes| ==> p.changes[i].seqNo < p.changes[j].seqNo
    ensures p.hasMore <==> Beyond(s, p.cursor)
  {}

  lemma LongerLists(s: Server, start: nat, upTo: nat, changes: seq<Change>, k: RowKey)
    requires ServerOk(s) && Lists(s, start, upTo, changes) && start <= upTo
    requires k in s.entries && s.entries[k].seqNo > upTo
    requires forall l :: l in s.entries && s.entries[l].seqNo > upTo ==> s.entries[k].seqNo <= s.entries[l].seqNo
    ensures Lists(s, start, s.entries[k].seqNo, changes + [Change(k, s.entries[k].live, s.entries[k].seqNo)])
  {
    var e := s.entries[k];
    var longer := changes + [Change(k, e.live, e.seqNo)];
    forall l | l in s.entries && start < s.entries[l].seqNo <= e.seqNo
      ensures Listed(longer, l)
    {
      if s.entries[l].seqNo <= upTo {
        assert Listed(changes, l);
        var i :| 0 <= i < |changes| && changes[i].key == l;
        assert longer[i].key == l;
      } else {
        assert longer[|changes|].key == l;
      }
    }
  }

  // ---------- Agreement ----------

  predicate Matches(rows: map<RowKey, Row>, k: RowKey, e: Entry) {
    if e.live.Some? then k in rows && rows[k] == Row(e.live.value, e.seqNo) else k !in rows
  }

  /** Up to the cursor, the terminal holds what the cloud publishes; it holds nothing the cloud never had. */
  ghost predicate UpTo(rows: map<RowKey, Row>, cursor: nat, s: Server) {
    && rows.Keys <= s.entries.Keys
    && forall k :: k in s.entries && s.entries[k].seqNo <= cursor ==> Matches(rows, k, s.entries[k])
  }

  ghost predicate Current(d: Store, s: Server) {
    d.cursor <= s.lastSeq && UpTo(d.rows, d.cursor, s)
  }

  lemma {:induction false} LastChangeIn(changes: seq<Change>, k: RowKey)
    ensures LastChange(changes, k).Some? ==>
              LastChange(changes, k).value in changes && LastChange(changes, k).value.key == k
    ensures LastChange(changes, k).None? ==> forall i :: 0 <= i < |changes| ==> changes[i].key != k
  {
    if changes != [] {
      LastChangeIn(changes[..|changes| - 1], k);
    }
  }

  /** A page served from `s` brings rows that were right up to its start to be right up to its cursor. */
  lemma PageAdvances(rows: map<RowKey, Row>, s: Server, cursor: nat, limit: nat, p: Page)
    requires ServerOk(s) && IsPage(s, cursor, limit, p) && UpTo(rows, From(s, cursor), s)
    ensures UpTo(ApplyChanges(rows, p.changes), p.cursor, s)
  {
    hide ApplyChanges, LastChange;
    var after := ApplyChanges(rows, p.changes);
    forall k: RowKey
      ensures k in after ==> k in s.entries
      ensures k in s.entries && s.entries[k].seqNo <= p.cursor ==> Matches(after, k, s.entries[k])
    {
      LastChangeWins(rows, p.changes, k);
      LastChangeIn(p.changes, k);
    }
  }

  /** The feed moving on does not disturb what was right up to a cursor it had already reached. */
  lemma EvolutionKeepsPrefix(rows: map<RowKey, Row>, cursor: nat, s: Server, t: Server)
    requires UpTo(rows, cursor, s) && Evolves(s, t) && cursor <= s.lastSeq
    ensures UpTo(rows, cursor, t)
  {}

  lemma LatePageRow(d: Store, s: Server, t: Server, cursor: nat, limit: nat, p: Page, k: RowKey)
    requires ServerOk(s) && Evolves(s, t) && IsPage(s, cursor, limit, p) && Current(d, t)
    requires cursor <= d.cursor && !p.reset
    ensures var after := ApplyChanges(d.rows, p.changes);
            && (k in after ==> k in t.entries)
            && (k in t.entries && t.entries[k].seqNo <= p.cursor ==> Matches(after, k, t.entries[k]))
  {
    hide ApplyChanges, LastChange;
    LastChangeWins(d.rows, p.changes, k);
    LastChangeIn(p.changes, k);
  }

  /**
   A page may arrive late: served from an earlier state of the feed, for a cursor the terminal has
   since passed.  Applying it moves the cursor back and leaves the terminal right up to there.
   */
  lemma LatePageKeepsCurrent(d: Store, s: Server, t: Server, cursor: nat, limit: nat, p: Page)
    requires ServerOk(s) && Evolves(s, t) && IsPage(s, cursor, limit, p) && Current(d, t)
    requires cursor <= d.cursor && !p.reset
    ensures Current(ApplyPage(d, p), t)
  {
    hide ApplyChanges, Matches;
    forall k: RowKey
      ensures var after := ApplyChanges(d.rows, p.changes);
              && (k in after ==> k in t.entries)
              && (k in t.entries && t.entries[k].seqNo <= p.cursor ==> Matches(after, k, t.entries[k]))
    {
      LatePageRow(d, s, t, cursor, limit, p, k);
    }
  }

  /** A reset page discards the copy and starts again, whatever the copy held. */
  lemma ResetPageRepairs(d: Store, s: Server, t: Server, cursor: nat, limit: nat, p: Page)
    requires ServerOk(s) && Evolves(s, t) && IsPage(s, cursor, limit, p) && p.reset
    ensures Current(ApplyPage(d, p), t)
  {
    hide ApplyChanges, Matches;
    PageAdvances(map[], s, cursor, limit, p);
    EvolutionKeepsPrefix(ApplyPage(d, p).rows, p.cursor, s, t);
  }

  /**
   Against any feed at all, for instance one restored from a backup, the next page makes the copy
   right exactly when the cursor is ahead of the feed, so that the page is a reset, or the copy was
   already right up to the cursor.
   */
  lemma NextPageRepairsIff(d: Store, s: Server, limit: nat, p: Page)
    requires ServerOk(s) && IsPage(s, d.cursor, limit, p)
    ensures Current(ApplyPage(d, p), s) <==>
              d.cursor > s.lastSeq || UpTo(d.rows, d.cursor, s)
  {
    hide ApplyChanges, Matches, UpTo;
    if d.cursor > s.lastSeq {
      EvolvesReflexive(s);
      ResetPageRepairs(d, s, s, d.cursor, limit, p);
    } else if UpTo(d.rows, d.cursor, s) {
      PageAdvances(d.rows, s, d.cursor, limit, p);
    } else if UpTo(ApplyChanges(d.rows, p.changes), p.cursor, s) {
      PageKeepsFaults(d.rows, s, d.cursor, limit, p);
    }
  }

  /** A page that is no reset repairs nothing up to its start: what is right after it was right before. */
  lemma PageKeepsFaults(rows: map<RowKey, Row>, s: Server, cursor: nat, limit: nat, p: Page)
    requires IsPage(s, cursor, limit, p) && !p.reset && UpTo(ApplyChanges(rows, p.changes), p.cursor, s)
    ensures UpTo(rows, cursor, s)
  {
    hide ApplyChanges, LastChange;
    forall k: RowKey
      ensures k in rows ==> k in s.entries
      ensures k in s.entries && s.entries[k].seqNo <= cursor ==> Matches(rows, k, s.entries[k])
    {
      LastChangeWins(rows, p.changes, k);
      LastChangeIn(p.changes, k);
    }
  }

  /** A copy that is current and has no more to fetch is the published catalog. */
  lemma CaughtUpIsPublished(d: Store, s: Server)
    requires Current(d, s) && forall k :: k in s.entries ==> s.entries[k].seqNo <= d.cursor
    ensures Data(d) == Published(s)
  {
    forall k: RowKey
      ensures k in d.rows <==> k in Published(s)
      ensures k in d.rows ==> d.rows[k].data == Published(s)[k]
    {
      assert k in s.entries ==> Matches(d.rows, k, s.entries[k]);
    }
    assert Data(d).Keys == Published(s).Keys;
  }

  // ---------- Runs ----------

  /** A page and what it was served for: the cursor, the state of the feed and how often that had been restored. */
  datatype Served = Served(cursor: nat, limit: nat, state: Server, epoch: nat, page: Page)

  /** `served` holds every page that was ever served; `epoch` counts the restores of the feed. */
  datatype FeedWorld = FeedWorld(device: Store, server: Server, epoch: nat, served: set<Served>)

  const FRESH := FeedWorld(Store(map[], 0), Server(map[], 0), 0, {})

  datatype FeedAction =
    | Republish(rows: seq<(RowKey, string)>, stored: seq<RowKey>)
    | Restore(server: Server)
    | Request(limit: nat, page: Page)
    | Deliver(s: Served)

  /**
   The cloud refreshes its feed from the current catalog, or loses it to a backup of any age.  A page is
   requested for the cursor the terminal has at that moment, and delivered at any later time, more than
   once or never: a terminal may have more than one pull under way.
   */
  ghost predicate FeedEnabled(w: FeedWorld, a: FeedAction) {
    match a
    case Republish(rows, stored) => DistinctKeys(rows) && forall k :: k in w.server.entries <==> k in stored
    case Restore(server) => ServerOk(server)
    case Request(limit, p) => IsPage(w.server, w.device.cursor, limit, p)
    case Deliver(s) => s in w.served
  }

  function FeedNext(w: FeedWorld, a: FeedAction): FeedWorld {
    match a
    case Republish(rows, stored) => w.(server := Refresh(w.server, rows, stored))
    case Restore(server) => w.(server := server, epoch := w.epoch + 1)
    case Request(limit, p) => w.(served := w.served + {Served(w.device.cursor, limit, w.server, w.epoch, p)})
    case Deliver(s) => w.(device := ApplyPage(w.device, s.page))
  }

  ghost predicate FeedLegal(w: FeedWorld, run: seq<FeedAction>)
    decreases |run|
  {
    run == [] || (FeedEnabled(w, run[0]) && FeedLegal(FeedNext(w, run[0]), run[1..]))
  }

  function FeedAfter(w: FeedWorld, run: seq<FeedAction>): FeedWorld
    decreases |run|
  {
    if run == [] then w else FeedAfter(FeedNext(w, run[0]), run[1..])
  }

  /** The page is from the present feed and starts at or before the terminal's cursor. */
  predicate InReach(w: FeedWorld, s: Served) {
    s.epoch == w.epoch && s.cursor <= w.device.cursor
  }

  /**
   A restore puts the copy in doubt, and so does a page out of reach; a reset page of the present feed
   takes the doubt away.
   */
  function SureNext(w: FeedWorld, sure: bool, a: FeedAction): bool {
    match a
    case Restore(_) => false
    case Deliver(s) => (s.page.reset && s.epoch == w.epoch) || (sure && InReach(w, s))
    case _ => sure
  }

  function SureAfter(w: FeedWorld, sure: bool, run: seq<FeedAction>): bool
    decreases |run|
  {
    if run == [] then sure else SureAfter(FeedNext(w, run[0]), SureNext(w, sure, run[0]), run[1..])
  }

  /** The page was really served, by a state the present feed has come from. */
  ghost predicate Genuine(s: Served, server: Server) {
    ServerOk(s.state) && Evolves(s.state, server) && IsPage(s.state, s.cursor, s.limit, s.page)
  }

  ghost predicate FeedInv(w: FeedWorld, sure: bool) {
    && ServerOk(w.server) && (sure ==> Current(w.device, w.server))
    && (forall s :: s in w.served ==> s.epoch <= w.epoch)
    && forall s :: s in w.served && s.epoch == w.epoch ==> Genuine(s, w.server)
  }

  lemma RepublishKeeps(w: FeedWorld, sure: bool, rows: seq<(RowKey, string)>, stored: seq<RowKey>)
    requires FeedInv(w, sure) && FeedEnabled(w, Republish(rows, stored))
    ensures FeedInv(FeedNext(w, Republish(rows, stored)), sure)
  {
    hide ServerOk, Evolves, Refresh, UpTo, IsPage;
    var n := FeedNext(w, Republish(rows, stored));
    RefreshPublishes(w.server, rows, stored);
    forall s | s in w.served && s.epoch == w.epoch
      ensures Genuine(s, n.server)
    {
      EvolvesTransitive(s.state, w.server, n.server);
    }
    if sure {
      EvolutionKeepsPrefix(w.device.rows, w.device.cursor, w.server, n.server);
      EvolvesGrows(w.server, n.server);
    }
  }

  lemma EvolvesGrows(s: Server, t: Server)
    requires Evolves(s, t)
    ensures s.lastSeq <= t.lastSeq
  {}

  lemma FeedStepKeeps(w: FeedWorld, sure: bool, a: FeedAction)
    requires FeedInv(w, sure) && FeedEnabled(w, a)
    ensures FeedInv(FeedNext(w, a), SureNext(w, sure, a))
  {
    hide Current, IsPage, ApplyPage, ServerOk, Evolves, Refresh;
    match a
    case Republish(rows, stored) => RepublishKeeps(w, sure, rows, stored);
    case Restore(_) =>
    case Request(limit, p) => EvolvesReflexive(w.server);
    case Deliver(s) =>
      if s.epoch == w.epoch {
        assert Genuine(s, w.server);
        if s.page.reset {
          ResetPageRepairs(w.device, s.state, w.server, s.cursor, s.limit, s.page);
        } else if sure && s.cursor <= w.device.cursor {
          LatePageKeepsCurrent(w.device, s.state, w.server, s.cursor, s.limit, s.page);
        }
      }
  }

  lemma EvolvesReflexive(s: Server)
    ensures Evolves(s, s)
  {}

  lemma {:induction false} FeedRunsKeep(w: FeedWorld, sure: bool, run: seq<FeedAction>)
    requires FeedInv(w, sure) && FeedLegal(w, run)
    ensures FeedInv(FeedAfter(w, run), SureAfter(w, sure, run))
    decreases |run|
  {
    hide FeedInv, FeedNext, FeedEnabled, SureNext;
    if run != [] {
      FeedStepKeeps(w, sure, run[0]);
      FeedRunsKeep(FeedNext(w, run[0]), SureNext(w, sure, run[0]), run[1..]);
    }
  }

  /**
   After any run of refreshes, restores, requests and deliveries in which neither a restore nor a page out
   of reach came after the last reset page, the copy is right up to its cursor, and once nothing lies
   beyond the cursor it is the published catalog.
   */
  lemma ReplicaConverges(run: seq<FeedAction>)
    requires FeedLegal(FRESH, run) && SureAfter(FRESH, true, run)
    ensures var w := FeedAfter(FRESH, run);
            && Current(w.device, w.server)
            && (CaughtUp(w) ==> Data(w.device) == Published(w.server))
  {
    FeedRunsKeep(FRESH, true, run);
    var w := FeedAfter(FRESH, run);
    if CaughtUp(w) {
      CaughtUpIsPublished(w.device, w.server);
    }
  }

  /** Nothing lies beyond the terminal's cursor. */
  ghost predicate CaughtUp(w: FeedWorld) {
    forall k :: k in w.server.entries ==> w.server.entries[k].seqNo <= w.device.cursor
  }

  function Data(d: Store): map<RowKey, string> {
    map k | k in d.rows :: d.rows[k].data
  }

  // ---------- One pull at a time ----------

  /**
   The terminal waits for the page it asked for last, or gives up on it and asks again, and the feed is
   never restored.
   */
  predicate OneAtATime(w: FeedWorld, run: seq<FeedAction>, waiting: Option<Served>)
    decreases |run|
  {
    run == [] ||
    match run[0]
    case Republish(_, _) => OneAtATime(FeedNext(w, run[0]), run[1..], waiting)
    case Restore(_) => false
    case Request(limit, p) =>
      OneAtATime(FeedNext(w, run[0]), run[1..], Some(Served(w.device.cursor, limit, w.server, w.epoch, p)))
    case Deliver(s) => waiting == Some(s) && OneAtATime(FeedNext(w, run[0]), run[1..], None)
  }

  /** With one pull at a time no page is ever out of reach, so that the copy always converges. */
  lemma {:induction false} OnePullIsSure(w: FeedWorld, run: seq<FeedAction>, waiting: Option<Served>)
    requires OneAtATime(w, run, waiting)
    requires waiting.Some? ==> waiting.value.cursor == w.device.cursor && waiting.value.epoch == w.epoch
    ensures SureAfter(w, true, run)
    decreases |run|
  {
    hide Refresh, ApplyPage;
    if run != [] {
      var next := match run[0]
        case Republish(_, _) => waiting
        case Request(limit, p) => Some(Served(w.device.cursor, limit, w.server, w.epoch, p))
        case _ => None;
      OnePullIsSure(FeedNext(w, run[0]), run[1..], next);
    }
  }

  // ---------- Pages out of reach ----------

  /** What lies between the terminal's cursor and the start of the page is right already. */
  ghost predicate Bridged(d: Store, t: Server, start: nat) {
    forall k :: k in t.entries && d.cursor < t.entries[k].seqNo <= start ==> Matches(d.rows, k, t.entries[k])
  }

  /**
   A page that is no reset, delivered to a copy that is right up to its cursor, leaves it right exactly
   when what lies between that cursor and the start of the page is right already; so always when the
   page starts at or before the cursor.
   */
  lemma DeliveryKeepsIff(d: Store, s: Server, t: Server, cursor: nat, limit: nat, p: Page)
    requires ServerOk(s) && Evolves(s, t) && IsPage(s, cursor, limit, p) && Current(d, t) && !p.reset
    ensures Current(ApplyPage(d, p), t) <==> Bridged(d, t, cursor)
    ensures cursor <= d.cursor ==> Bridged(d, t, cursor)
  {
    hide ApplyChanges, Matches, ServerOk;
    var after := ApplyChanges(d.rows, p.changes);
    forall k: RowKey
      ensures k in after ==> k in t.entries
      ensures k in t.entries && t.entries[k].seqNo <= cursor ==>
                (Matches(after, k, t.entries[k]) <==> Matches(d.rows, k, t.entries[k]))
      ensures k in t.entries && cursor < t.entries[k].seqNo <= p.cursor ==> Matches(after, k, t.entries[k])
    {
      DeliveredRow(d, s, t, cursor, limit, p, k);
    }
    assert p.cursor >= cursor && p.cursor <= t.lastSeq by { PageMovesForward(s, t, cursor, limit, p); }
    hide IsPage, Evolves;
    if Bridged(d, t, cursor) {
      assert UpTo(after, p.cursor, t);
    }
    if Current(ApplyPage(d, p), t) {
      assert forall k :: k in t.entries && t.entries[k].seqNo <= p.cursor ==> Matches(after, k, t.entries[k]);
    }
  }

  lemma PageMovesForward(s: Server, t: Server, cursor: nat, limit: nat, p: Page)
    requires ServerOk(s) && Evolves(s, t) && IsPage(s, cursor, limit, p) && !p.reset
    ensures cursor <= p.cursor <= t.lastSeq
  {}

  lemma DeliveredRow(d: Store, s: Server, t: Server, cursor: nat, limit: nat, p: Page, k: RowKey)
    requires ServerOk(s) && Evolves(s, t) && IsPage(s, cursor, limit, p) && Current(d, t) && !p.reset
    ensures var after := ApplyChanges(d.rows, p.changes);
            && (k in after ==> k in t.entries)
            && (k in t.entries && t.entries[k].seqNo <= cursor ==>
                  (Matches(after, k, t.entries[k]) <==> Matches(d.rows, k, t.entries[k])))
            && (k in t.entries && cursor < t.entries[k].seqNo <= p.cursor ==> Matches(after, k, t.entries[k]))
  {
    hide ApplyChanges, LastChange;
    LastChangeWins(d.rows, p.changes, k);
    LastChangeIn(p.changes, k);
  }

  // ---------- After a restore ----------

  predicate RefreshesOnly(run: seq<FeedAction>) {
    forall i :: 0 <= i < |run| ==> run[i].Republish?
  }

  lemma {:induction false} RefreshesLeaveCopy(w: FeedWorld, run: seq<FeedAction>)
    requires RefreshesOnly(run) && FeedLegal(w, run) && ServerOk(w.server)
    ensures FeedAfter(w, run).device == w.device && ServerOk(FeedAfter(w, run).server)
    decreases |run|
  {
    hide Refresh, ServerOk, Evolves;
    if run != [] {
      RefreshPublishes(w.server, run[0].rows, run[0].stored);
      RefreshesLeaveCopy(FeedNext(w, run[0]), run[1..]);
    }
  }

  /**
   The feed is restored, perhaps refreshed, and then pulled.  The pull makes the copy right exactly when
   the feed is still behind the terminal's cursor, so that the page is a reset, or the copy was right
   for the new feed already.
   */
  lemma PullAfterRestoreIff(before: FeedWorld, server: Server, refreshes: seq<FeedAction>, limit: nat, p: Page)
    requires FeedEnabled(before, Restore(server)) && RefreshesOnly(refreshes)
    requires FeedLegal(FeedNext(before, Restore(server)), refreshes)
    requires FeedEnabled(FeedAfter(FeedNext(before, Restore(server)), refreshes), Request(limit, p))
    ensures var w := FeedAfter(FeedNext(before, Restore(server)), refreshes);
            && ServerOk(w.server)
            && (Current(ApplyPage(w.device, p), w.server) <==>
                  before.device.cursor > w.server.lastSeq || UpTo(before.device.rows, before.device.cursor, w.server))
            && (before.device.cursor > w.server.lastSeq <==> p.reset)
  {
    hide Current, UpTo, Refresh;
    var restored := FeedNext(before, Restore(server));
    var w := FeedAfter(restored, refreshes);
    RefreshesLeaveCopy(restored, refreshes);
    NextPageRepairsIff(w.device, w.server, limit, p);
  }

  // ---------- Runs of a few steps ----------

  const TEA := RowKey("item", "tea")
  const COFFEE := RowKey("item", "coffee")
  const NO_FEED := Server(map[], 0)

  /** A feed with one row, stamped `n`. */
  function OneRow(k: RowKey, data: string, n: nat): Server {
    Server(map[k := Entry(Some(data), n)], n)
  }

  lemma FirstRefresh(k: RowKey, data: string)
    ensures Refresh(NO_FEED, [(k, data)], []) == OneRow(k, data, 1) && ServerOk(OneRow(k, data, 1))
  {
    assert [(k, data)][..0] == [];
    assert RefreshRows(NO_FEED, [(k, data)]) == Stamp(NO_FEED, k, Some(data));
  }

  lemma SecondRefresh(k: RowKey, data: string, other: string)
    requires other != data
    ensures Refresh(OneRow(k, data, 1), [(k, other)], [k]) == OneRow(k, other, 2)
  {
    var s, rows := OneRow(k, data, 1), [(k, other)];
    assert rows[..0] == [] && [k][..0] == [];
    assert rows[0].0 in KeysOf(rows);
    assert RefreshRows(s, rows) == Stamp(s, k, Some(other)) == OneRow(k, other, 2);
    assert Bury(OneRow(k, other, 2), [k], KeysOf(rows)) == OneRow(k, other, 2);
  }

  /** The page with the one row of such a feed, for a terminal that starts. */
  function RowPage(k: RowKey, data: string, n: nat): Page {
    Page(n, [Change(k, Some(data), n)], false, false)
  }

  lemma RowPageIsServed(k: RowKey, data: string, n: nat)
    requires n > 0
    ensures IsPage(OneRow(k, data, n), 0, 500, RowPage(k, data, n))
    ensures forall d: Store :: d.rows.Keys <= {k} ==>
              ApplyPage(d, RowPage(k, data, n)) == Store(map[k := Row(data, n)], n)
  {
    var changes := [Change(k, Some(data), n)];
    assert changes[0].key == k && changes[..0] == [];
    forall d: Store | d.rows.Keys <= {k}
      ensures ApplyChanges(d.rows, changes) == map[k := Row(data, n)]
    {
      assert ApplyChanges(d.rows, changes) == ApplyChange(ApplyChanges(d.rows, changes[..0]), changes[0]);
    }
  }

  /** The run is legal and leads to the world. */
  ghost predicate FeedLeads(run: seq<FeedAction>, w: FeedWorld) {
    FeedLegal(FRESH, run) && FeedAfter(FRESH, run) == w
  }

  lemma {:induction false} OneMoreStep(w: FeedWorld, run: seq<FeedAction>, a: FeedAction)
    requires FeedLegal(w, run) && FeedEnabled(FeedAfter(w, run), a)
    ensures FeedLegal(w, run + [a]) && FeedAfter(w, run + [a]) == FeedNext(FeedAfter(w, run), a)
    decreases |run|
  {
    hide FeedEnabled, FeedNext;
    if run == [] {
      assert [] + [a] == [a] && [a][1..] == [];
    } else {
      OneMoreStep(FeedNext(w, run[0]), run[1..], a);
      assert (run + [a])[1..] == run[1..] + [a];
    }
  }

  lemma FeedThen(run: seq<FeedAction>, w: FeedWorld, a: FeedAction, n: FeedWorld)
    requires FeedLeads(run, w) && FeedEnabled(w, a) && FeedNext(w, a) == n
    ensures FeedLeads(run + [a], n)
  {
    hide FeedEnabled, FeedNext;
    OneMoreStep(FRESH, run, a);
  }

  /** Tea is published, requested and delivered. */
  const FIRST: Served := Served(0, 500, OneRow(TEA, "10", 1), 0, RowPage(TEA, "10", 1))
  const PULLED := [Republish([(TEA, "10")], []), Request(500, FIRST.page), Deliver(FIRST)]

  function Copied(): FeedWorld {
    FeedWorld(Store(map[TEA := Row("10", 1)], 1), OneRow(TEA, "10", 1), 0, {FIRST})
  }

  lemma PulledRun()
    ensures FeedLeads(PULLED, Copied())
  {
    hide Refresh, IsPage, ApplyPage, FeedLegal, FeedAfter;
    FirstRefresh(TEA, "10");
    RowPageIsServed(TEA, "10", 1);
    assert FeedLeads([], FRESH) by { NothingYet(); }
    var published := FRESH.(server := OneRow(TEA, "10", 1));
    var requested := published.(served := {FIRST});
    assert {} + {FIRST} == {FIRST};
    FeedThen([], FRESH, PULLED[0], published);
    FeedThen([] + [PULLED[0]], published, PULLED[1], requested);
    FeedThen([] + [PULLED[0]] + [PULLED[1]], requested, PULLED[2], Copied());
    assert PULLED == [] + [PULLED[0]] + [PULLED[1]] + [PULLED[2]];
  }

  lemma NothingYet()
    ensures FeedLeads([], FRESH)
  {}

  const RESET := Served(1, 500, NO_FEED, 1, Page(0, [], false, true))

  /** Pulled before the feed has grown back, the page is a reset and the copy is right at once. */
  lemma ResetRun()
    ensures var run := PULLED + [Restore(NO_FEED)] + [Request(500, RESET.page)] + [Deliver(RESET)];
            && FeedLegal(FRESH, run)
            && Data(FeedAfter(FRESH, run).device) == Published(FeedAfter(FRESH, run).server) == map[]
  {
    hide FeedLegal, FeedAfter;
    PulledRun();
    var restored := Copied().(server := NO_FEED, epoch := 1);
    var requested := restored.(served := {FIRST, RESET});
    assert {FIRST} + {RESET} == {FIRST, RESET};
    FeedThen(PULLED, Copied(), Restore(NO_FEED), restored);
    FeedThen(PULLED + [Restore(NO_FEED)], restored, Request(500, RESET.page), requested);
    FeedThen(PULLED + [Restore(NO_FEED)] + [Request(500, RESET.page)], requested, Deliver(RESET),
             requested.(device := Store(map[], 0)));
  }

  const EMPTY_PAGE := Page(1, [], false, false)
  const REGROWN := Served(1, 500, OneRow(COFFEE, "20", 1), 1, EMPTY_PAGE)
  const REFRESH := Republish([(COFFEE, "20")], [])

  /**
   The feed grows back to the terminal's cursor before the next pull: the page is empty and no reset, the
   terminal has nothing more to fetch, and it goes on selling tea that is gone and not the coffee there is.
   */
  lemma RegrownFeedIsMissed()
    ensures var run := PULLED + [Restore(NO_FEED)] + [REFRESH] + [Request(500, EMPTY_PAGE)] + [Deliver(REGROWN)];
            var w := FeedAfter(FRESH, run);
            && FeedLegal(FRESH, run) && CaughtUp(w)
            && Data(w.device) == map[TEA := "10"] && Published(w.server) == map[COFFEE := "20"]
  {
    hide Refresh, FeedLegal, FeedAfter;
    PulledRun();
    FirstRefresh(COFFEE, "20");
    var restored := Copied().(server := NO_FEED, epoch := 1);
    var regrown := restored.(server := OneRow(COFFEE, "20", 1));
    var requested := regrown.(served := {FIRST, REGROWN});
    assert {FIRST} + {REGROWN} == {FIRST, REGROWN};
    FeedThen(PULLED, Copied(), Restore(NO_FEED), restored);
    FeedThen(PULLED + [Restore(NO_FEED)], restored, REFRESH, regrown);
    FeedThen(PULLED + [Restore(NO_FEED)] + [REFRESH], regrown, Request(500, EMPTY_PAGE), requested);
    FeedThen(PULLED + [Restore(NO_FEED)] + [REFRESH] + [Request(500, EMPTY_PAGE)], requested, Deliver(REGROWN),
             requested);
    assert Published(OneRow(COFFEE, "20", 1)) == map[COFFEE := "20"];
  }

  // ---------- Two pulls under way ----------

  /** The second pull's page, and the page of the pull after it. */
  const SECOND := Served(0, 500, OneRow(TEA, "20", 2), 0, RowPage(TEA, "20", 2))
  const THIRD := Served(2, 500, OneRow(TEA, "20", 2), 0, Page(2, [], false, false))

  /** Two pulls begin, the later one is answered first, and a third begins. */
  const OVERLAP := [
    Republish([(TEA, "10")], []), Request(500, FIRST.page),
    Republish([(TEA, "20")], [TEA]), Request(500, SECOND.page), Deliver(SECOND), Request(500, THIRD.page)]

  function Overlapping(): FeedWorld {
    FeedWorld(Store(map[TEA := Row("20", 2)], 2), OneRow(TEA, "20", 2), 0, {FIRST, SECOND, THIRD})
  }

  lemma OverlapRun()
    ensures FeedLeads(OVERLAP, Overlapping())
  {
    hide Refresh, ApplyPage, FeedLegal, FeedAfter, IsPage, FeedLeads;
    FirstRefresh(TEA, "10");
    SecondRefresh(TEA, "10", "20");
    RowPageIsServed(TEA, "10", 1);
    RowPageIsServed(TEA, "20", 2);
    NothingYet();
    var w1 := FRESH.(server := OneRow(TEA, "10", 1));
    var w2 := w1.(served := {FIRST});
    var w3 := w2.(server := OneRow(TEA, "20", 2));
    var w4 := w3.(served := {FIRST, SECOND});
    var w5 := w4.(device := Store(map[TEA := Row("20", 2)], 2));
    assert {} + {FIRST} == {FIRST} && {FIRST} + {SECOND} == {FIRST, SECOND};
    assert {FIRST, SECOND} + {THIRD} == {FIRST, SECOND, THIRD};
    FeedThen([], FRESH, OVERLAP[0], w1);
    FeedThen([] + [OVERLAP[0]], w1, OVERLAP[1], w2);
    FeedThen([] + [OVERLAP[0]] + [OVERLAP[1]], w2, OVERLAP[2], w3);
    FeedThen([] + [OVERLAP[0]] + [OVERLAP[1]] + [OVERLAP[2]], w3, OVERLAP[3], w4);
    FeedThen([] + [OVERLAP[0]] + [OVERLAP[1]] + [OVERLAP[2]] + [OVERLAP[3]], w4, OVERLAP[4], w5);
    var run := [] + [OVERLAP[0]] + [OVERLAP[1]] + [OVERLAP[2]] + [OVERLAP[3]] + [OVERLAP[4]];
    assert IsPage(w5.server, 2, 500, THIRD.page) by { NothingNew(TEA, "20", 2); }
    FeedThen(run, w5, OVERLAP[5], Overlapping());
    assert OVERLAP == run + [OVERLAP[5]];
  }

  lemma NothingNew(k: RowKey, data: string, n: nat)
    ensures IsPage(OneRow(k, data, n), n, 500, Page(n, [], false, false))
  {}

  /**
   The page of the first pull arrives late and takes the terminal back to the old price; the page of the
   third, requested before that, takes the cursor forward again without the price.  The terminal has
   nothing more to fetch and the old price.
   */
  lemma OverlappingPullsGoStale()
    ensures var run := OVERLAP + [Deliver(FIRST)] + [Deliver(THIRD)];
            var w := FeedAfter(FRESH, run);
            && FeedLegal(FRESH, run) && CaughtUp(w)
            && Data(w.device) == map[TEA := "10"] && Published(w.server) == map[TEA := "20"]
  {
    hide FeedLegal, FeedAfter;
    OverlapRun();
    RowPageIsServed(TEA, "10", 1);
    var back := Overlapping().(device := Store(map[TEA := Row("10", 1)], 1));
    FeedThen(OVERLAP, Overlapping(), Deliver(FIRST), back);
    FeedThen(OVERLAP + [Deliver(FIRST)], back, Deliver(THIRD), back.(device := Store(map[TEA := Row("10", 1)], 2)));
    assert Published(OneRow(TEA, "20", 2)) == map[TEA := "20"];
  }

  // ---------- The terminal's store object ----------

  /** The catalog by entity, the way the terminal reads it. */
  type View = map<string, map<string, string>>

  predicate Has(v: View, entity: string, id: string) {
    entity in v && id in v[entity]
  }

  /** The view has exactly the rows of the table, under their entities, and no empty entity. */
  ghost predicate IsView(v: View, rows: map<RowKey, Row>) {
    && (forall e, id :: Has(v, e, id) <==> RowKey(e, id) in rows)
    && (forall e, id :: Has(v, e, id) ==> v[e][id] == rows[RowKey(e, id)].data)
    && (forall e :: e in v ==> v[e] != map[])
  }

  /** The table determines its view. */
  lemma ViewIsUnique(v: View, w: View, rows: map<RowKey, Row>)
    requires IsView(v, rows) && IsView(w, rows)
    ensures v == w
  {
    forall e: string
      ensures e in v <==> e in w
      ensures e in v ==> v[e] == w[e]
    {
      assert forall id :: Has(v, e, id) <==> Has(w, e, id);
      if e in v {
        var id :| id in v[e];
        assert Has(v, e, id);
      }
      if e in w {
        var id :| id in w[e];
        assert Has(w, e, id);
      }
      if e in v {
        assert forall id :: id in v[e] <==> Has(v, e, id);
        assert forall id :: id in w[e] <==> Has(w, e, id);
        assert v[e].Keys == w[e].Keys;
      }
    }
    assert v.Keys == w.Keys;
  }

  class CatalogStore {
    var rows: map<RowKey, Row>
    var cursor: nat
    var cache: Option<View>

    /** The in-memory cache is absent or equal to a rebuild from the table. */
    ghost predicate Valid()
      reads this
    {
      cache.Some? ==> IsView(cache.value, rows)
    }

    constructor ()
      ensures Valid() && Store(rows, cursor) == Store(map[], 0) && cache == None
    {
      rows, cursor, cache := map[], 0, None;
    }

    /** Apply one page: every change and the new cursor together. */
    method ApplyFeed(p: Page)
      requires Valid()
      modifies this
      ensures Valid() && Store(rows, cursor) == ApplyPage(old(Store(rows, cursor)), p) && cache == None
    {
      if p.reset {
        rows := map[];
      }
      ghost var start := rows;
      var i := 0;
      while i < |p.changes|
        invariant 0 <= i <= |p.changes|
        invariant rows == ApplyChanges(start, p.changes[..i])
      {
        assert p.changes[..i + 1][..i] == p.changes[..i];
        var c := p.changes[i];
        if c.data.None? {
          rows := rows - {c.key};
        } else {
          rows := rows[c.key := Row(c.data.value, c.seqNo)];
        }
        i := i + 1;
      }
      assert p.changes[..i] == p.changes;
      cursor := p.cursor;
      cache := None;
    }

    /** The catalog, from the cache if there is one, else rebuilt row by row. */
    method Catalog() returns (v: View)
      requires Valid()
      modifies this`cache
      ensures Valid() && IsView(v, rows) && cache == Some(v)
    {
      if cache.Some? {
        return cache.value;
      }
      v := map[];
      var left := rows.Keys;
      while left != {}
        invariant left <= rows.Keys
        invariant IsView(v, rows - left)
        decreases left
      {
        var k :| k in left;
        ViewGrows(rows, left, k, v);
        var sub := if k.entity in v then v[k.entity] else map[];
        v := v[k.entity := sub[k.id := rows[k].data]];
        left := left - {k};
      }
      assert rows - left == rows;
      cache := Some(v);
    }
  }

  lemma ViewGrows(rows: map<RowKey, Row>, left: set<RowKey>, k: RowKey, v: View)
    requires left <= rows.Keys && k in left && IsView(v, rows - left)
    ensures var sub := if k.entity in v then v[k.entity] else map[];
            IsView(v[k.entity := sub[k.id := rows[k].data]], rows - (left - {k}))
  {
    var sub := if k.entity in v then v[k.entity] else map[];
    var w := v[k.entity := sub[k.id := rows[k].data]];
    forall e: string, id: string
      ensures Has(w, e, id) <==> Has(v, e, id) || RowKey(e, id) == k
    {}
    assert w[k.entity] != map[] by {
      assert k.id in w[k.entity];
    }
  }
}
