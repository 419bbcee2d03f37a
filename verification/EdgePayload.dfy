/** What the device sends about an order, and what the cloud recomputes from it. */
module EdgePayload {
  import opened Options
  import opened Rounding
  import opened Money
  import opened EdgeModel
  import opened EdgeWorld
  import opened EdgeInvariant

  // ---------- Payloads up to kitchen progress ----------

  function StripLine(l: PayloadLine): PayloadLine {
    l.(prep := Waiting, preppedAt := None)
  }

  function StripLines(ls: seq<PayloadLine>): (r: seq<PayloadLine>)
    ensures |r| == |ls|
  {
    seq(|ls|, i requires 0 <= i < |ls| => StripLine(ls[i]))
  }

  /** Everything on the bill, without kitchen progress. */
  function Strip(p: Payload): Payload {
    p.(items := StripLines(p.items), combos := StripLines(p.combos))
  }

  lemma {:induction false} StripLinesOfKind(a: seq<Line>, b: seq<Line>, kind: LineKind)
    requires |a| == |b| && forall i :: 0 <= i < |a| ==> a[i].what == b[i].what
    ensures StripLines(LinesOfKind(a, kind)) == StripLines(LinesOfKind(b, kind))
  {
    if a != [] {
      var n := |a| - 1;
      StripLinesOfKind(a[..n], b[..n], kind);
      StripConcat(LinesOfKind(a[..n], kind), if a[n].what.kind == kind then [PayloadLineOf(a[n])] else []);
      StripConcat(LinesOfKind(b[..n], kind), if b[n].what.kind == kind then [PayloadLineOf(b[n])] else []);
    }
  }

  lemma StripConcat(x: seq<PayloadLine>, y: seq<PayloadLine>)
    ensures StripLines(x + y) == StripLines(x) + StripLines(y)
  {}

  /** Rebuilding the payload of a closed order always gives the same bill. */
  lemma PayloadIsStable(a: Order, b: Order)
    requires SameExceptPrep(a, b)
    ensures Strip(PayloadOf(a)) == Strip(PayloadOf(b))
  {
    hide LinesOfKind;
    StripLinesOfKind(a.lines, b.lines, ItemLine);
    StripLinesOfKind(a.lines, b.lines, ComboLine);
  }

  lemma StripSetPrep(ls: seq<PayloadLine>, i: nat, prep: PrepStatus)
    ensures StripLines(SetPrep(ls, i, prep)) == StripLines(ls)
  {}

  lemma {:induction false} KitchenUpdateKeepsBill(p: Payload, lines: seq<KotLine>)
    ensures Strip(ApplyKot(p, lines)) == Strip(p)
  {
    if lines != [] {
      var before, s := ApplyKot(p, lines[..|lines| - 1]), lines[|lines| - 1];
      KitchenUpdateKeepsBill(p, lines[..|lines| - 1]);
      StripSetPrep(before.items, s.lineIndex, s.prep);
      StripSetPrep(before.combos, s.lineIndex, s.prep);
    }
  }

  // ---------- The cloud's arithmetic ----------

  lemma StripKeepsMoney(a: seq<PayloadLine>, b: seq<PayloadLine>)
    requires StripLines(a) == StripLines(b)
    ensures PayloadMoneys(a) == PayloadMoneys(b)
  {
    assert |a| == |b|;
    forall i | 0 <= i < |a|
      ensures PayloadMoney(a[i]) == PayloadMoney(b[i])
    {
      assert StripLines(a)[i] == StripLines(b)[i];
    }
  }

  lemma StripKeepsFigures(p: Payload, q: Payload)
    requires Strip(p) == Strip(q)
    ensures FiguresAddUp(p) == FiguresAddUp(q)
  {
    hide OrderTotals;
    assert StripLines(p.items) == StripLines(q.items) && StripLines(p.combos) == StripLines(q.combos);
    StripKeepsMoney(p.items, q.items);
    StripKeepsMoney(p.combos, q.combos);
    assert p.(items := Strip(p).items, combos := Strip(p).combos)
           == q.(items := Strip(q).items, combos := Strip(q).combos);
  }

  lemma MoneysOfLast(lines: seq<Line>, kind: LineKind)
    requires lines != []
    ensures var n := |lines| - 1;
            PayloadMoneys(LinesOfKind(lines, kind)) == PayloadMoneys(LinesOfKind(lines[..n], kind))
              + if lines[n].what.kind == kind then [MoneyOf(lines[n].what)] else []
  {
    assert PayloadMoney(PayloadLineOf(lines[|lines| - 1])) == MoneyOf(lines[|lines| - 1].what);
  }

  lemma LastLineCounts(lines: seq<Line>, kind: LineKind)
    requires lines != []
    ensures var last := lines[|lines| - 1].what;
            var before := PayloadMoneys(LinesOfKind(lines[..|lines| - 1], kind));
            var after := PayloadMoneys(LinesOfKind(lines, kind));
            && Subtotal(after) == Subtotal(before) + (if last.kind == kind then MoneyOf(last).paise else 0)
            && RawTax(after) == RawTax(before) + (if last.kind == kind then LineTax(MoneyOf(last)) else 0.0)
  {
    hide PayloadMoneys, LinesOfKind, MoneyOf, LineTax, Subtotal, RawTax;
    MoneysOfLast(lines, kind);
    var before, money := PayloadMoneys(LinesOfKind(lines[..|lines| - 1], kind)), MoneyOf(lines[|lines| - 1].what);
    SumsOfLast(before, money);
    assert before + [] == before;
  }

  /** Splitting the lines into items and combos preserves both sums of the bill. */
  lemma {:induction false} SumsSplitByKind(lines: seq<Line>)
    ensures var items := PayloadMoneys(LinesOfKind(lines, ItemLine));
            var combos := PayloadMoneys(LinesOfKind(lines, ComboLine));
            && Subtotal(MoneyLines(lines)) == Subtotal(items) + Subtotal(combos)
            && RawTax(MoneyLines(lines)) == RawTax(items) + RawTax(combos)
  {
    if lines != [] {
      hide PayloadMoneys, MoneyOf, LinesOfKind, Subtotal, RawTax, LineTax;
      var n := |lines| - 1;
      SumsSplitByKind(lines[..n]);
      assert MoneyLines(lines) == MoneyLines(lines[..n]) + [MoneyOf(lines[n].what)];
      SumsOfLast(MoneyLines(lines[..n]), MoneyOf(lines[n].what));
      LastLineCounts(lines, ItemLine);
      LastLineCounts(lines, ComboLine);
    }
  }

  lemma SumsOfLast(a: seq<MoneyLine>, x: MoneyLine)
    ensures Subtotal(a + [x]) == Subtotal(a) + x.paise
    ensures RawTax(a + [x]) == RawTax(a) + LineTax(x)
  {
    assert (a + [x])[..|a + [x]| - 1] == a;
  }

  /** The cloud, adding up items and then combos, gets the device's totals to the paisa. */
  lemma CloudAgreesOnTotals(lines: seq<Line>, discountPaise: int)
    ensures OrderTotals(PayloadMoneys(LinesOfKind(lines, ItemLine)) + PayloadMoneys(LinesOfKind(lines, ComboLine)),
                        FromPaise(discountPaise))
            == TotalsFor(lines, discountPaise)
  {
    hide TotalsOf, FromPaise, LinesOfKind;
    SumsSplitByKind(lines);
    SubtotalConcat(PayloadMoneys(LinesOfKind(lines, ItemLine)), PayloadMoneys(LinesOfKind(lines, ComboLine)));
  }

  lemma ClosedFiguresAddUp(o: Order)
    requires ClosedFigures(o)
    ensures FiguresAddUp(PayloadOf(o))
  {
    hide OrderTotals, LinesOfKind, TotalsFor;
    CloudAgreesOnTotals(o.lines, Discount(o.manualRupees, o.couponPaise));
  }
}
