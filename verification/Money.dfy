/**
 The order-total formula shared by the cloud and the offline device.  Amounts are integer paise,
 tax rates are percentages of any precision, and the tax carries one single rounding.
 */
module Money {
  import opened Numbers
  import opened Sequences
  import opened Rounding

  datatype MoneyLine = MoneyLine(paise: int, ratePercent: real)

  datatype Totals = Totals(subtotal: int, discount: int, tax: int, total: int)

  function LineTotalPaise(unitPaise: int, quantity: int): int {
    unitPaise * quantity
  }

  function Subtotal(lines: seq<MoneyLine>): int {
    if lines == [] then 0 else Subtotal(lines[..|lines| - 1]) + lines[|lines| - 1].paise
  }

  function LineTax(line: MoneyLine): real {
    line.paise as real * line.ratePercent / 100.0
  }

  /** Tax on the undiscounted lines, in paise and not yet rounded. */
  function RawTax(lines: seq<MoneyLine>): real {
    if lines == [] then 0.0
    else RawTax(lines[..|lines| - 1]) + LineTax(lines[|lines| - 1])
  }

  function ClampDiscount(discountPaise: int, subtotal: int): int {
    Min(Max(0, discountPaise), subtotal)
  }

  /** The tax on `base` paise at the blended rate of a bill with the given subtotal and raw tax. */
  function BlendedTax(raw: real, base: int, subtotal: int): int {
    if subtotal > 0 then Round(raw * base as real / subtotal as real) else 0
  }

  /** An amount or a rate, so many times. */
  function Times(x: real, n: int): real { x * n as real }

  function TotalsOf(subtotal: int, raw: real, discountPaise: int): Totals {
    var discount := ClampDiscount(discountPaise, subtotal);
    var taxable := subtotal - discount;
    var tax := BlendedTax(raw, taxable, subtotal);
    Totals(subtotal, discount, tax, taxable + tax)
  }

  function OrderTotals(lines: seq<MoneyLine>, discountRupees: real): Totals {
    TotalsOf(Subtotal(lines), RawTax(lines), ToPaise(discountRupees))
  }

  lemma {:induction false} SubtotalConcat(a: seq<MoneyLine>, b: seq<MoneyLine>)
    ensures Subtotal(a + b) == Subtotal(a) + Subtotal(b)
    ensures RawTax(a + b) == RawTax(a) + RawTax(b)
  {
    if b == [] {
      assert a + b == a;
    } else {
      assert (a + b)[..|a + b| - 1] == a + b[..|b| - 1];
      SubtotalConcat(a, b[..|b| - 1]);
    }
  }

  /** Moving one line to the front changes neither sum. */
  lemma RotateToFront(a: seq<MoneyLine>, x: MoneyLine, b: seq<MoneyLine>)
    ensures Subtotal(a + [x] + b) == Subtotal([x] + (a + b))
    ensures RawTax(a + [x] + b) == RawTax([x] + (a + b))
  {
    SubtotalConcat(a + [x], b);
    SubtotalConcat(a, [x]);
    SubtotalConcat([x], a + b);
    SubtotalConcat(a, b);
  }

  /** The sums depend on the lines only as a multiset. */
  lemma {:induction false} SumsOfPermutation(a: seq<MoneyLine>, b: seq<MoneyLine>)
    requires multiset(a) == multiset(b)
    ensures Subtotal(a) == Subtotal(b)
    ensures RawTax(a) == RawTax(b)
  {
    hide Subtotal, RawTax;
    if a == [] {
      assert |multiset(b)| == 0;
    } else {
      var x := a[0];
      assert x in multiset(b);
      var i :| 0 <= i < |b| && b[i] == x;
      var rest := b[..i] + b[i + 1..];
      assert b == b[..i] + [x] + b[i + 1..];
      assert a == [x] + a[1..];
      RestOfPermutation(a, b, i);
      SumsOfPermutation(a[1..], rest);
      RotateToFront(b[..i], x, b[i + 1..]);
      SubtotalConcat([x], a[1..]);
      SubtotalConcat([x], rest);
    }
  }

  /**
   The figures of lines with a discount of `d` paise: the discount is kept between nothing and the
   subtotal, the tax is the tax on the lines in proportion to what is left of the subtotal, rounded once,
   and the total is what is left, with the tax.
   */
  ghost predicate Reckoned(lines: seq<MoneyLine>, d: int, t: Totals) {
    && t.subtotal == Subtotal(lines) && t.total == t.subtotal - t.discount + t.tax
    && t.discount == (if d > t.subtotal || t.subtotal < 0 then t.subtotal else if d < 0 then 0 else d)
    && (if t.subtotal > 0 then Nearest(t.tax, Times(RawTax(lines), t.subtotal - t.discount), t.subtotal as real)
        else t.tax == 0)
  }

  lemma TotalsAreReckoned(lines: seq<MoneyLine>, discountRupees: real)
    ensures Reckoned(lines, ToPaise(discountRupees), OrderTotals(lines, discountRupees))
  {
    hide Subtotal, RawTax, ToPaise, Nearest, Times;
    var raw, subtotal := RawTax(lines), Subtotal(lines);
    var left := subtotal - ClampDiscount(ToPaise(discountRupees), subtotal);
    assert subtotal <= 0 ==> BlendedTax(raw, left, subtotal) == 0;
    hide BlendedTax;
    assert OrderTotals(lines, discountRupees).tax == BlendedTax(raw, left, subtotal);
    if subtotal > 0 {
      BlendedIsNearest(raw, left, subtotal);
    }
  }

  /** Lines and discount determine the figures. */
  lemma ReckonedOnce(lines: seq<MoneyLine>, d: int, t: Totals, u: Totals)
    requires Reckoned(lines, d, t) && Reckoned(lines, d, u)
    ensures t == u
  {
    hide Subtotal, RawTax, Nearest, Times;
    if t.subtotal > 0 {
      NearestIsUnique(t.tax, u.tax, Times(RawTax(lines), t.subtotal - t.discount), t.subtotal as real);
    }
  }

  lemma BlendedIsNearest(raw: real, base: int, subtotal: int)
    requires subtotal > 0
    ensures Nearest(BlendedTax(raw, base, subtotal), Times(raw, base), subtotal as real)
  {
    RoundIsNearest(raw * base as real / subtotal as real, raw * base as real, subtotal as real);
  }

  /** The tax on the lines, before any discount and rounding, is each line's amount at its own rate. */
  lemma OneMoreLine(lines: seq<MoneyLine>, paise: int, rate: real)
    ensures Subtotal(lines + [MoneyLine(paise, rate)]) == Subtotal(lines) + paise
    ensures 100.0 * (RawTax(lines + [MoneyLine(paise, rate)]) - RawTax(lines)) == rate * paise as real
    ensures Subtotal([]) == 0 && RawTax([]) == 0.0
  {
    assert (lines + [MoneyLine(paise, rate)])[..|lines|] == lines;
  }

  /** Order totals do not depend on the order of the lines. */
  lemma TotalsIgnoreLineOrder(a: seq<MoneyLine>, b: seq<MoneyLine>, discountRupees: real)
    requires multiset(a) == multiset(b)
    ensures OrderTotals(a, discountRupees) == OrderTotals(b, discountRupees)
  {
    SumsOfPermutation(a, b);
  }
}
