/** Kitchen updates address lines by kind and position; the cloud resolves them to the same lines. */
module EdgeAddress {
  import opened EdgeModel
  import opened EdgeWorld
  import opened EdgeInvariant
  import opened EdgePayload

  function Preps(ls: seq<PayloadLine>): (r: seq<PrepStatus>)
    ensures |r| == |ls|
  {
    seq(|ls|, i requires 0 <= i < |ls| => ls[i].prep)
  }

  /** The cloud shows the kitchen progress the order has. */
  predicate Agrees(p: Payload, lines: seq<Line>) {
    && Preps(p.items) == Preps(LinesOfKind(lines, ItemLine))
    && Preps(p.combos) == Preps(LinesOfKind(lines, ComboLine))
  }

  /** The payload lines of one kind, as the cloud keeps them. */
  function Column(p: Payload, kind: LineKind): seq<PayloadLine> {
    if kind == ItemLine then p.items else p.combos
  }

  /** Every line the update addresses shows the status the update carries. */
  ghost predicate Shows(p: Payload, update: seq<KotLine>) {
    forall j :: 0 <= j < |update| ==>
      update[j].lineIndex < |Column(p, update[j].kind)| ==>
        Column(p, update[j].kind)[update[j].lineIndex].prep == update[j].prep
  }

  /** No line is addressed twice. */
  ghost predicate Addressed(update: seq<KotLine>) {
    forall i, j :: 0 <= i < j < |update| ==>
      !(update[i].kind == update[j].kind && update[i].lineIndex == update[j].lineIndex)
  }

  lemma {:induction false} CountsAndColumns(lines: seq<Line>, kind: LineKind)
    ensures |LinesOfKind(lines, kind)| == CountKind(lines, kind)
  {
    if lines != [] {
      CountsAndColumns(lines[..|lines| - 1], kind);
    }
  }

  lemma {:induction false} CountGrows(lines: seq<Line>, i: nat, j: nat, kind: LineKind)
    requires i < j <= |lines|
    ensures CountKind(lines[..i], kind) + (if lines[i].what.kind == kind then 1 else 0) <= CountKind(lines[..j], kind)
    decreases j
  {
    assert lines[..j][..j - 1] == lines[..j - 1];
    if i < j - 1 {
      CountGrows(lines, i, j - 1, kind);
    }
  }

  /** An update names a line by kind and position; that position in the payload is that line. */
  lemma {:induction false} UpdateNamesPayloadLine(lines: seq<Line>, i: nat)
    requires i < |lines|
    ensures var s := KotLines(lines)[i];
            var column := LinesOfKind(lines, s.kind);
            s.kind == lines[i].what.kind && s.lineIndex < |column| && column[s.lineIndex] == PayloadLineOf(lines[i])
  {
    var kind, n := lines[i].what.kind, |lines| - 1;
    CountsAndColumns(lines[..i], kind);
    if i == n {
      assert lines[..n] == lines[..i];
    } else {
      UpdateNamesPayloadLine(lines[..n], i);
      assert lines[..n][..i] == lines[..i];
    }
  }

  /** Conversely, every payload line is named by the update. */
  lemma {:induction false} PayloadLineIsNamed(lines: seq<Line>, kind: LineKind, k: nat) returns (i: nat)
    requires k < |LinesOfKind(lines, kind)|
    ensures i < |lines| && lines[i].what.kind == kind && CountKind(lines[..i], kind) == k
  {
    var n := |lines| - 1;
    CountsAndColumns(lines[..n], kind);
    if k < |LinesOfKind(lines[..n], kind)| {
      i := PayloadLineIsNamed(lines[..n], kind, k);
      assert lines[..n][..i] == lines[..i];
    } else {
      i := n;
    }
  }

  lemma KotLinesAreAddressed(lines: seq<Line>)
    ensures Addressed(KotLines(lines))
  {
    forall i, j | 0 <= i < j < |lines|
      ensures var a, b := KotLines(lines)[i], KotLines(lines)[j];
              !(a.kind == b.kind && a.lineIndex == b.lineIndex)
    {
      CountGrows(lines, i, j, lines[i].what.kind);
    }
  }

  lemma {:induction false} ApplyKeepsShape(p: Payload, update: seq<KotLine>)
    ensures |ApplyKot(p, update).items| == |p.items| && |ApplyKot(p, update).combos| == |p.combos|
  {
    if update != [] {
      ApplyKeepsShape(p, update[..|update| - 1]);
    }
  }

  lemma LineIsSet(p: Payload, s: KotLine)
    ensures forall kind: LineKind :: |Column(SetLine(p, s), kind)| == |Column(p, kind)|
    ensures s.lineIndex < |Column(p, s.kind)| ==> Column(SetLine(p, s), s.kind)[s.lineIndex].prep == s.prep
  {}

  lemma OtherLineStays(p: Payload, s: KotLine, kind: LineKind, k: nat)
    requires k < |Column(p, kind)| && !(s.kind == kind && s.lineIndex == k)
    ensures k < |Column(SetLine(p, s), kind)| && Column(SetLine(p, s), kind)[k] == Column(p, kind)[k]
  {}

  /** After an update is applied, the cloud shows it. */
  lemma {:induction false} AppliedUpdateShows(p: Payload, update: seq<KotLine>)
    requires Addressed(update)
    ensures Shows(ApplyKot(p, update), update)
  {
    if update != [] {
      var n := |update| - 1;
      hide SetLine, Column;
      AppliedUpdateShows(p, update[..n]);
      var before, s := ApplyKot(p, update[..n]), update[n];
      LineIsSet(before, s);
      forall j | 0 <= j < n && update[j].lineIndex < |Column(before, update[j].kind)|
        ensures Column(SetLine(before, s), update[j].kind)[update[j].lineIndex].prep == update[j].prep
      {
        assert update[..n][j] == update[j];
        OtherLineStays(before, s, update[j].kind, update[j].lineIndex);
      }
    }
  }

  /** A cloud order of the right shape that shows an order's own update agrees with the order. */
  lemma ShownUpdateAgrees(p: Payload, lines: seq<Line>)
    requires Shows(p, KotLines(lines))
    requires |p.items| == |LinesOfKind(lines, ItemLine)| && |p.combos| == |LinesOfKind(lines, ComboLine)|
    ensures Agrees(p, lines)
  {
    hide LinesOfKind, CountKind;
    forall kind: LineKind
      ensures Preps(Column(p, kind)) == Preps(LinesOfKind(lines, kind))
    {
      forall k | 0 <= k < |LinesOfKind(lines, kind)|
        ensures Column(p, kind)[k].prep == LinesOfKind(lines, kind)[k].prep
      {
        var i := PayloadLineIsNamed(lines, kind, k);
        UpdateNamesPayloadLine(lines, i);
        assert KotLines(lines)[i].kind == kind && KotLines(lines)[i].lineIndex == k;
      }
    }
    assert Column(p, ItemLine) == p.items && Column(p, ComboLine) == p.combos;
  }

  lemma FreshPayloadAgrees(o: Order)
    ensures Agrees(PayloadOf(o), o.lines)
  {
    hide LinesOfKind;
  }

  /** A bill in the cloud has the shape of its order. */
  lemma BillHasShape(p: Payload, o: Order)
    requires Strip(p) == Strip(PayloadOf(o))
    ensures |p.items| == |LinesOfKind(o.lines, ItemLine)| && |p.combos| == |LinesOfKind(o.lines, ComboLine)|
  {
    hide LinesOfKind;
    var q := PayloadOf(o);
    assert |Strip(p).items| == |p.items| && |Strip(q).items| == |q.items|;
    assert |Strip(p).combos| == |p.combos| && |Strip(q).combos| == |q.combos|;
  }
}
