/**
 Floor-plan validation: tables inside the canvas, round tables square-bounded, names and ids unique,
 no two footprints overlapping.  Footprints are axis-aligned; rotation does not change them.
 Names are compared after a normalisation `norm` (trimming and lower-casing), which stays a parameter.
 */
module FloorPlan {
  import opened Numbers
  import opened Options

  datatype Shape = Circle | Square | Rect
  datatype Table = Table(tableId: Option<string>, name: string, shape: Shape, x: int, y: int, width: int, height: int)
  datatype Plan = Plan(width: int, height: int, tables: seq<Table>)

  datatype Issue =
    | Outside(i: nat)
    | NotCircular(i: nat)
    | DuplicateName(i: nat)
    | PlacedTwice(i: nat)
    | Overlapping(j: nat, i: nat)

  // ---------- What a good plan is ----------

  predicate Inside(t: Table, p: Plan) {
    0 <= t.x && 0 <= t.y && t.x + t.width <= p.width && t.y + t.height <= p.height
  }

  predicate Overlap(a: Table, b: Table) {
    a.x < b.x + b.width && b.x < a.x + a.width && a.y < b.y + b.height && b.y < a.y + a.height
  }

  /** The point lies in the footprint, borders not included. */
  predicate Covers(t: Table, px: real, py: real) {
    && t.x as real < px < (t.x + t.width) as real
    && t.y as real < py < (t.y + t.height) as real
  }

  ghost predicate GoodPlan(p: Plan, norm: string -> string) {
    && (forall i :: 0 <= i < |p.tables| ==> Inside(p.tables[i], p))
    && (forall i :: 0 <= i < |p.tables| && p.tables[i].shape == Circle ==> p.tables[i].width == p.tables[i].height)
    && (forall i, j :: 0 <= i < j < |p.tables| ==> norm(p.tables[i].name) != norm(p.tables[j].name))
    && (forall i, j :: 0 <= i < j < |p.tables| && p.tables[i].tableId.Some? ==>
            p.tables[i].tableId != p.tables[j].tableId)
    && (forall i, j, px, py :: 0 <= i < j < |p.tables| ==>
            !(Covers(p.tables[i], px, py) && Covers(p.tables[j], px, py)))
  }

  /** Sizes come from a schema that makes them positive. */
  predicate Sized(p: Plan) {
    p.width > 0 && p.height > 0 && forall i :: 0 <= i < |p.tables| ==> p.tables[i].width > 0 && p.tables[i].height > 0
  }

  // ---------- What the validator reports ----------

  ghost predicate SameNameBefore(p: Plan, norm: string -> string, i: nat)
    requires i < |p.tables|
  {
    exists j :: 0 <= j < i && norm(p.tables[j].name) == norm(p.tables[i].name)
  }

  ghost predicate SameIdBefore(p: Plan, i: nat)
    requires i < |p.tables|
  {
    p.tables[i].tableId.Some? && exists j :: 0 <= j < i && p.tables[j].tableId == p.tables[i].tableId
  }

  /** What table `i` is reported for on its own. */
  ghost predicate Faulty(p: Plan, norm: string -> string, e: Issue)
    requires !e.Overlapping? && e.i < |p.tables|
  {
    match e
    case Outside(i) => !Inside(p.tables[i], p)
    case NotCircular(i) => p.tables[i].shape == Circle && p.tables[i].width != p.tables[i].height
    case DuplicateName(i) => SameNameBefore(p, norm, i)
    case PlacedTwice(i) => SameIdBefore(p, i)
  }

  /** Every report is a real fault, and every fault is reported. */
  ghost predicate Reports(p: Plan, norm: string -> string, issues: seq<Issue>) {
    && (forall e :: e in issues ==> e.i < |p.tables| && (e.Overlapping? ==> e.i < e.j < |p.tables|))
    && (forall e: Issue :: !e.Overlapping? && e.i < |p.tables| ==> (e in issues <==> Faulty(p, norm, e)))
    && (forall i, j :: 0 <= i < j < |p.tables| ==> (Overlapping(j, i) in issues <==> Overlap(p.tables[i], p.tables[j])))
  }

  // ---------- Geometry ----------

  /** Footprints overlap exactly when some point lies in both. */
  lemma OverlapMeansSharedPoint(a: Table, b: Table)
    requires a.width > 0 && a.height > 0 && b.width > 0 && b.height > 0
    ensures Overlap(a, b) <==> exists px, py :: Covers(a, px, py) && Covers(b, px, py)
  {
    if Overlap(a, b) {
      var px := (Max(a.x, b.x) + Min(a.x + a.width, b.x + b.width)) as real / 2.0;
      var py := (Max(a.y, b.y) + Min(a.y + a.height, b.y + b.height)) as real / 2.0;
      assert Covers(a, px, py) && Covers(b, px, py);
    }
  }

  /** A table is inside exactly when no point of its footprint lies off the canvas. */
  lemma InsideMeansOnCanvas(t: Table, p: Plan)
    requires t.width > 0 && t.height > 0
    ensures Inside(t, p) <==>
              forall px, py :: Covers(t, px, py) ==> 0.0 <= px <= p.width as real && 0.0 <= py <= p.height as real
  {
    if !Inside(t, p) {
      var mx, my := t.x as real + t.width as real / 2.0, t.y as real + t.height as real / 2.0;
      if t.x < 0 {
        assert Covers(t, t.x as real + 0.5, my);
      } else if t.y < 0 {
        assert Covers(t, mx, t.y as real + 0.5);
      } else if t.x + t.width > p.width {
        assert Covers(t, (t.x + t.width) as real - 0.5, my);
      } else {
        assert Covers(t, mx, (t.y + t.height) as real - 0.5);
      }
    }
  }

  /** The validator accepts a plan exactly when it is good. */
  lemma NoIssuesIffGood(p: Plan, norm: string -> string, issues: seq<Issue>)
    requires Sized(p) && Reports(p, norm, issues)
    ensures issues == [] <==> GoodPlan(p, norm)
  {
    if issues == [] {
      AcceptedIsGood(p, norm, issues);
    } else {
      var e := issues[0];
      assert e in issues;
      if e.Overlapping? {
        assert Overlapping(e.j, e.i) in issues;
        OverlapMeansSharedPoint(p.tables[e.i], p.tables[e.j]);
      } else {
        assert Faulty(p, norm, e);
      }
    }
  }

  lemma AcceptedIsGood(p: Plan, norm: string -> string, issues: seq<Issue>)
    requires Sized(p) && Reports(p, norm, issues) && issues == []
    ensures GoodPlan(p, norm)
  {
    forall i | 0 <= i < |p.tables|
      ensures Inside(p.tables[i], p) && (p.tables[i].shape == Circle ==> p.tables[i].width == p.tables[i].height)
      ensures !SameNameBefore(p, norm, i) && !SameIdBefore(p, i)
    {
      assert !Faulty(p, norm, Outside(i)) && !Faulty(p, norm, NotCircular(i));
      assert !Faulty(p, norm, DuplicateName(i)) && !Faulty(p, norm, PlacedTwice(i));
    }
    forall i, j | 0 <= i < j < |p.tables|
      ensures norm(p.tables[i].name) != norm(p.tables[j].name)
      ensures p.tables[i].tableId.Some? ==> p.tables[i].tableId != p.tables[j].tableId
    {
      assert !SameNameBefore(p, norm, j) && !SameIdBefore(p, j);
    }
    forall i, j, px, py | 0 <= i < j < |p.tables|
      ensures !(Covers(p.tables[i], px, py) && Covers(p.tables[j], px, py))
    {
      assert Overlapping(j, i) !in issues;
      OverlapMeansSharedPoint(p.tables[i], p.tables[j]);
    }
  }

  // ---------- Packing ----------

  /** The unit squares of a rectangle. */
  function Cells(x: int, y: int, w: int, h: int): set<(int, int)> {
    set i, j | x <= i < x + w && y <= j < y + h :: (i, j)
  }

  function Area(w: int, h: int): int { w * h }

  lemma {:induction false} ColumnSize(x: int, y: int, h: nat)
    ensures |Cells(x, y, 1, h)| == h
  {
    if h == 0 {
      assert Cells(x, y, 1, 0) == {};
    } else {
      ColumnSize(x, y, h - 1);
      assert Cells(x, y, 1, h) == Cells(x, y, 1, h - 1) + {(x, y + h - 1)};
    }
  }

  lemma {:induction false} RectangleSize(x: int, y: int, w: nat, h: nat)
    ensures |Cells(x, y, w, h)| == Area(w, h)
  {
    if w == 0 {
      assert Cells(x, y, 0, h) == {};
    } else {
      hide Area, Cells;
      RectangleSize(x, y, w - 1, h);
      ColumnSize(x + w - 1, y, h);
      LastColumn(x, y, w, h);
      AreaOfColumns(w, h);
    }
  }

  lemma LastColumn(x: int, y: int, w: nat, h: nat)
    requires w > 0
    ensures Cells(x, y, w, h) == Cells(x, y, w - 1, h) + Cells(x + w - 1, y, 1, h)
    ensures Cells(x, y, w - 1, h) !! Cells(x + w - 1, y, 1, h)
  {}

  lemma AreaOfColumns(w: nat, h: nat)
    requires w > 0
    ensures Area(w, h) == Area(w - 1, h) + h
  {
    assert (w - 1) * h + h == w * h;
  }

  function TotalArea(ts: seq<Table>): int {
    if ts == [] then 0 else TotalArea(ts[..|ts| - 1]) + Area(ts[|ts| - 1].width, ts[|ts| - 1].height)
  }

  function TableCells(t: Table): set<(int, int)> {
    Cells(t.x, t.y, t.width, t.height)
  }

  function AllCells(ts: seq<Table>): set<(int, int)> {
    if ts == [] then {} else AllCells(ts[..|ts| - 1]) + TableCells(ts[|ts| - 1])
  }

  lemma {:induction false} AllCellsMembers(ts: seq<Table>)
    ensures forall c :: c in AllCells(ts) <==> exists i :: 0 <= i < |ts| && c in TableCells(ts[i])
  {
    hide TableCells;
    if ts != [] {
      var n := |ts| - 1;
      AllCellsMembers(ts[..n]);
      forall c
        ensures c in AllCells(ts) <==> exists i :: 0 <= i < |ts| && c in TableCells(ts[i])
      {
        if c in AllCells(ts[..n]) {
          var i :| 0 <= i < n && c in TableCells(ts[..n][i]);
          assert ts[i] == ts[..n][i];
        }
        if i :| 0 <= i < |ts| && c in TableCells(ts[i]) {
          if i < n {
            assert ts[..n][i] == ts[i];
          }
        }
      }
    }
  }

  lemma DisjointCells(a: Table, b: Table)
    requires !Overlap(a, b)
    ensures TableCells(a) !! TableCells(b)
  {}

  lemma SizeOfDisjointUnion(a: set<(int, int)>, b: set<(int, int)>)
    requires a !! b
    ensures |a + b| == |a| + |b|
  {}

  lemma LastTableIsApart(ts: seq<Table>)
    requires ts != [] && forall i, j :: 0 <= i < j < |ts| ==> !Overlap(ts[i], ts[j])
    ensures AllCells(ts[..|ts| - 1]) !! TableCells(ts[|ts| - 1])
  {
    hide TableCells, AllCells, Overlap;
    var n := |ts| - 1;
    AllCellsMembers(ts[..n]);
    forall i | 0 <= i < n
      ensures TableCells(ts[..n][i]) !! TableCells(ts[n])
    {
      DisjointCells(ts[i], ts[n]);
    }
  }

  lemma {:induction false} AreaIsCells(ts: seq<Table>)
    requires forall i :: 0 <= i < |ts| ==> ts[i].width > 0 && ts[i].height > 0
    requires forall i, j :: 0 <= i < j < |ts| ==> !Overlap(ts[i], ts[j])
    ensures |AllCells(ts)| == TotalArea(ts)
  {
    if ts != [] {
      var n := |ts| - 1;
      RectangleSize(ts[n].x, ts[n].y, ts[n].width, ts[n].height);
      hide Cells, Area, Overlap;
      AreaIsCells(ts[..n]);
      LastTableIsApart(ts);
      SizeOfDisjointUnion(AllCells(ts[..n]), TableCells(ts[n]));
    }
  }

  lemma CellsInsideCanvas(p: Plan, norm: string -> string)
    requires Sized(p) && GoodPlan(p, norm)
    ensures AllCells(p.tables) <= Cells(0, 0, p.width, p.height)
  {
    hide AllCells;
    AllCellsMembers(p.tables);
  }

  /** The tables of a good plan cover no more than the canvas. */
  lemma AreasFitCanvas(p: Plan, norm: string -> string)
    requires Sized(p) && GoodPlan(p, norm)
    ensures TotalArea(p.tables) <= p.width * p.height
  {
    forall i, j | 0 <= i < j < |p.tables|
      ensures !Overlap(p.tables[i], p.tables[j])
    {
      OverlapMeansSharedPoint(p.tables[i], p.tables[j]);
    }
    AreaIsCells(p.tables);
    RectangleSize(0, 0, p.width, p.height);
    var canvas := Cells(0, 0, p.width, p.height);
    CellsInsideCanvas(p, norm);
    hide Cells, AllCells, TableCells, Overlap, TotalArea, GoodPlan;
    SizeOfDisjointUnion(AllCells(p.tables), canvas - AllCells(p.tables));
    assert canvas == AllCells(p.tables) + (canvas - AllCells(p.tables));
  }

  // ---------- The validator ----------

  /** `names` and `ids` hold what the first `i` tables are called. */
  ghost predicate Seen(p: Plan, norm: string -> string, i: nat, names: map<string, nat>, ids: map<string, nat>)
    requires i <= |p.tables|
  {
    && (forall s :: s in names <==> exists j :: 0 <= j < i && norm(p.tables[j].name) == s)
    && (forall s :: s in ids <==> exists j :: 0 <= j < i && p.tables[j].tableId == Some(s))
  }

  /** The faults of table `i` on its own. */
  method CheckTable(p: Plan, norm: string -> string, i: nat, names: map<string, nat>, ids: map<string, nat>)
    returns (found: seq<Issue>)
    requires i < |p.tables| && Seen(p, norm, i, names, ids)
    ensures forall e :: e in found ==> !e.Overlapping? && e.i == i
    ensures forall e: Issue :: !e.Overlapping? && e.i == i ==> (e in found <==> Faulty(p, norm, e))
  {
    hide Inside;
    var t := p.tables[i];
    found := [];
    if !Inside(t, p) {
      found := found + [Outside(i)];
    }
    if t.shape == Circle && t.width != t.height {
      found := found + [NotCircular(i)];
    }
    if norm(t.name) in names {
      found := found + [DuplicateName(i)];
    }
    if t.tableId.Some? && t.tableId.value in ids {
      found := found + [PlacedTwice(i)];
    }
  }

  lemma SeenGrows(p: Plan, norm: string -> string, i: nat, names: map<string, nat>, ids: map<string, nat>)
    requires i < |p.tables| && Seen(p, norm, i, names, ids)
    ensures var t := p.tables[i];
            Seen(p, norm, i + 1, names[norm(t.name) := i], if t.tableId.Some? then ids[t.tableId.value := i] else ids)
  {
    var t := p.tables[i];
    assert norm(p.tables[i].name) == norm(t.name);
  }

  /** The faults of single tables, remembering the names and ids seen. */
  method CheckTables(p: Plan, norm: string -> string) returns (issues: seq<Issue>)
    ensures forall e :: e in issues ==> !e.Overlapping? && e.i < |p.tables|
    ensures forall e: Issue :: !e.Overlapping? && e.i < |p.tables| ==> (e in issues <==> Faulty(p, norm, e))
  {
    issues := [];
    var names: map<string, nat>, ids: map<string, nat> := map[], map[];
    var i := 0;
    assert Seen(p, norm, 0, names, ids);
    hide Faulty, Seen;
    while i < |p.tables|
      invariant 0 <= i <= |p.tables| && Seen(p, norm, i, names, ids)
      invariant forall e :: e in issues ==> !e.Overlapping? && e.i < i
      invariant forall e: Issue :: !e.Overlapping? && e.i < i ==> (e in issues <==> Faulty(p, norm, e))
    {
      var found := CheckTable(p, norm, i, names, ids);
      SeenGrows(p, norm, i, names, ids);
      names := names[norm(p.tables[i].name) := i];
      if p.tables[i].tableId.Some? {
        ids := ids[p.tables[i].tableId.value := i];
      }
      assert forall e :: e in issues + found <==> e in issues || e in found;
      issues := issues + found;
      i := i + 1;
    }
  }

  /** The overlapping pairs. */
  method CheckPairs(p: Plan) returns (issues: seq<Issue>)
    ensures forall e :: e in issues <==>
              e.Overlapping? && e.i < e.j < |p.tables| && Overlap(p.tables[e.i], p.tables[e.j])
  {
    issues := [];
    var i := 0;
    while i < |p.tables|
      invariant 0 <= i <= |p.tables|
      invariant forall e :: e in issues <==>
                  e.Overlapping? && e.i < i && e.i < e.j < |p.tables| && Overlap(p.tables[e.i], p.tables[e.j])
    {
      var j := i + 1;
      while j < |p.tables|
        invariant i < j <= |p.tables|
        invariant forall e :: e in issues <==>
                    e.Overlapping? && e.i < e.j < |p.tables| && Overlap(p.tables[e.i], p.tables[e.j])
                    && (e.i < i || (e.i == i && e.j < j))
      {
        if Overlap(p.tables[i], p.tables[j]) {
          issues := issues + [Overlapping(j, i)];
        }
        j := j + 1;
      }
      i := i + 1;
    }
  }

  method FloorLayoutIssues(p: Plan, norm: string -> string) returns (issues: seq<Issue>)
    ensures Reports(p, norm, issues)
    ensures Sized(p) ==> (issues == [] <==> GoodPlan(p, norm))
    ensures Sized(p) && issues == [] ==> TotalArea(p.tables) <= p.width * p.height
  {
    hide GoodPlan, Overlap, Faulty, TotalArea;
    var single := CheckTables(p, norm);
    var pairs := CheckPairs(p);
    issues := single + pairs;
    assert forall e :: e in issues <==> e in single || e in pairs;
    if Sized(p) {
      NoIssuesIffGood(p, norm, issues);
      if issues == [] {
        AreasFitCanvas(p, norm);
      }
    }
  }
}
