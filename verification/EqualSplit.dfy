/** Splitting a bill equally: every line is divided, and leftover paise rotate across the checks. */
module EqualSplit {
  import opened Numbers
  import opened Options
  import opened Rounding
  import opened Money
  import opened Billing
  import opened Allocation

  /** How far check `c` is behind the check that is served first. */
  function Rotate(c: nat, offset: nat, parts: nat): nat
    requires c < parts && offset < parts
  {
    if c >= offset then c - offset else c + parts - offset
  }

  /** What one line puts on check `c`. */
  function Share(p: int, parts: nat, offset: nat, c: nat): int
    requires offset < parts && c < parts
  {
    p / parts + if Rotate(c, offset, parts) < p % parts then 1 else 0
  }

  /** A total split once, the leftover paise going to the first checks. */
  function Even(total: int, parts: nat, c: nat): int
    requires parts > 0
  {
    total / parts + if c < total % parts then 1 else 0
  }

  /** The rotation after some lines have been split. */
  function Offset(lines: seq<int>, parts: nat): (o: nat)
    requires parts > 0
    ensures o < parts
  {
    if lines == [] then 0 else (Offset(lines[..|lines| - 1], parts) + lines[|lines| - 1] % parts) % parts
  }

  /** The lines of check `c`. */
  function Check(lines: seq<int>, parts: nat, c: nat): (r: seq<int>)
    requires c < parts
    ensures |r| == |lines|
  {
    if lines == [] then []
    else
      var n := |lines| - 1;
      Check(lines[..n], parts, c) + [Share(lines[n], parts, Offset(lines[..n], parts), c)]
  }

  // ---------- Modular arithmetic ----------

  lemma DivModUnique(a: int, q: int, r: int, d: int)
    requires d > 0 && a == q * d + r && 0 <= r < d
    ensures a / d == q && a % d == r
  {
    var q', r' := a / d, a % d;
    assert a == q' * d + r';
    if q < q' {
      ProductMonotone(q + 1, q', d);
      Distributes(q, 1, d);
    } else if q' < q {
      ProductMonotone(q' + 1, q, d);
      Distributes(q', 1, d);
    }
  }

  lemma AddDivMod(a: int, b: int, d: int)
    requires d > 0
    ensures var carry := a % d + b % d >= d;
            && (a + b) / d == a / d + b / d + (if carry then 1 else 0)
            && (a + b) % d == a % d + b % d - (if carry then d else 0)
  {
    var carry := if a % d + b % d >= d then 1 else 0;
    Distributes(a / d, b / d, d);
    Distributes(a / d + b / d, carry, d);
    DivModUnique(a + b, a / d + b / d + carry, a % d + b % d - carry * d, d);
  }

  // ---------- Properties ----------

  lemma {:induction false} OffsetIsRemainder(lines: seq<int>, parts: nat)
    requires parts > 0
    ensures Offset(lines, parts) == Sum(lines) % parts
  {
    if lines == [] {
      ZeroShare(parts);
    } else {
      var n := |lines| - 1;
      OffsetIsRemainder(lines[..n], parts);
      AddDivMod(Sum(lines[..n]), lines[n], parts);
      DivModOfSmall(Sum(lines[..n]) % parts, lines[n] % parts, parts);
    }
  }

  lemma DivModOfSmall(x: nat, y: nat, d: nat)
    requires x < d && y < d
    ensures (x + y) % d == if x + y >= d then x + y - d else x + y
  {
    DivModUnique(x + y, if x + y >= d then 1 else 0, if x + y >= d then x + y - d else x + y, d);
  }

  /** A line on top of a total moves the even split of the total by exactly its own share. */
  lemma ShareExtendsEven(total: int, p: int, parts: nat, c: nat)
    requires c < parts
    ensures Even(total + p, parts, c) == Even(total, parts, c) + Share(p, parts, total % parts, c)
  {
    AddDivMod(total, p, parts);
  }

  /** Each check gets what it would get if the whole bill were split once, so checks differ by a paisa at most. */
  lemma {:induction false} CheckIsEven(lines: seq<int>, parts: nat, c: nat)
    requires c < parts
    ensures Sum(Check(lines, parts, c)) == Even(Sum(lines), parts, c)
  {
    if lines == [] {
      ZeroShare(parts);
    } else {
      var n := |lines| - 1;
      CheckIsEven(lines[..n], parts, c);
      OffsetIsRemainder(lines[..n], parts);
      ShareExtendsEven(Sum(lines[..n]), lines[n], parts, c);
      assert Check(lines, parts, c)[..n] == Check(lines[..n], parts, c);
    }
  }

  /** The first `m` even parts of a total. */
  function EvenParts(total: int, parts: nat, m: nat): int
    requires parts > 0
  {
    if m == 0 then 0 else EvenParts(total, parts, m - 1) + Even(total, parts, m - 1)
  }

  lemma {:induction false} EvenPartsSum(total: int, parts: nat, m: nat)
    requires m <= parts && parts > 0
    ensures EvenParts(total, parts, m) == (total / parts) * m + Min(m, total % parts)
  {
    if m > 0 {
      EvenPartsSum(total, parts, m - 1);
      Distributes(m - 1, 1, total / parts);
    }
  }

  /** The first `m` shares of one line. */
  function Shares(p: int, parts: nat, offset: nat, m: nat): int
    requires offset < parts && m <= parts
  {
    if m == 0 then 0 else Shares(p, parts, offset, m - 1) + Share(p, parts, offset, m - 1)
  }

  lemma {:induction false} SharesAreEvenSteps(total: int, p: int, parts: nat, m: nat)
    requires m <= parts && parts > 0
    ensures Shares(p, parts, total % parts, m) == EvenParts(total + p, parts, m) - EvenParts(total, parts, m)
  {
    if m > 0 {
      SharesAreEvenSteps(total, p, parts, m - 1);
      ShareExtendsEven(total, p, parts, m - 1);
    }
  }

  /** No line loses or gains a paisa. */
  lemma LineIsConserved(p: int, parts: nat, offset: nat)
    requires offset < parts
    ensures Shares(p, parts, offset, parts) == p
  {
    DivModUnique(offset, 0, offset, parts);
    SharesAreEvenSteps(offset, p, parts, parts);
    EvenPartsSum(offset, parts, parts);
    EvenPartsSum(offset + p, parts, parts);
    assert (offset / parts) * parts + offset % parts == offset;
    assert ((offset + p) / parts) * parts + (offset + p) % parts == offset + p;
  }

  // ---------- Billing the checks ----------

  function Taxed(lines: seq<int>, rates: seq<real>): (r: seq<MoneyLine>)
    requires |lines| == |rates|
    ensures |r| == |lines|
  {
    seq(|lines|, i requires 0 <= i < |lines| => MoneyLine(lines[i], rates[i]))
  }

  const PLAIN := BillOptions(0.0, None, false)

  function CheckBill(lines: seq<int>, rates: seq<real>, parts: nat, c: nat): Bill
    requires |lines| == |rates| && c < parts
  {
    ComputeBill(Taxed(Check(lines, parts, c), rates), PLAIN)
  }

  lemma {:induction false} TaxedSums(lines: seq<int>, rates: seq<real>)
    requires |lines| == |rates|
    ensures Subtotal(Taxed(lines, rates)) == Sum(lines)
    ensures lines != [] ==>
              RawTax(Taxed(lines, rates)) == RawTax(Taxed(lines[..|lines| - 1], rates[..|lines| - 1]))
                                             + lines[|lines| - 1] as real * rates[|lines| - 1] / 100.0
  {
    if lines != [] {
      var n := |lines| - 1;
      TaxedSums(lines[..n], rates[..n]);
      assert Taxed(lines, rates)[..n] == Taxed(lines[..n], rates[..n]);
    }
  }

  /** Without discount, charge or round-off the tax of a bill is its raw tax, rounded. */
  lemma PlainTaxIsRoundedRaw(lines: seq<MoneyLine>)
    requires forall i :: 0 <= i < |lines| ==> lines[i].paise >= 0
    ensures var b := ComputeBill(lines, PLAIN);
            b.subtotal == Subtotal(lines) && b.discount == 0 && b.tax == Round(RawTax(lines))
  {
    hide Subtotal, RawTax, Round, BlendedTax;
    NonNegative(lines);
    assert ToPaise(0.0) == 0 by { RoundUnique(0.0, 0); }
    assert ComputeBill(lines, PLAIN).tax == BlendedTax(RawTax(lines), Subtotal(lines), Subtotal(lines));
    TaxOnWholeBase(RawTax(lines), Subtotal(lines));
  }

  lemma TaxOnWholeBase(raw: real, subtotal: int)
    requires subtotal > 0 || (subtotal == 0 && raw == 0.0)
    ensures BlendedTax(raw, subtotal, subtotal) == Round(raw)
  {
    RoundUnique(0.0, 0);
    if subtotal > 0 {
      CancelRatio(raw, subtotal);
    }
  }

  lemma CancelRatio(x: real, n: int)
    requires n > 0
    ensures x * n as real / n as real == x
  {
    var s := n as real;
    assert x * s / s == x;
  }

  lemma {:induction false} NonNegative(lines: seq<MoneyLine>)
    requires forall i :: 0 <= i < |lines| ==> lines[i].paise >= 0
    ensures Subtotal(lines) >= 0 && (Subtotal(lines) == 0 ==> RawTax(lines) == 0.0)
  {
    if lines != [] {
      NonNegative(lines[..|lines| - 1]);
    }
  }

  /** The summed tax, and the summed raw tax, of the first `m` checks. */
  function CheckTaxes(lines: seq<int>, rates: seq<real>, parts: nat, m: nat): int
    requires |lines| == |rates| && m <= parts
  {
    if m == 0 then 0 else CheckTaxes(lines, rates, parts, m - 1) + CheckBill(lines, rates, parts, m - 1).tax
  }

  function CheckRaws(lines: seq<int>, rates: seq<real>, parts: nat, m: nat): real
    requires |lines| == |rates| && m <= parts
  {
    if m == 0 then 0.0 else CheckRaws(lines, rates, parts, m - 1) + RawTax(Taxed(Check(lines, parts, m - 1), rates))
  }

  lemma {:induction false} RawsOfOneMoreLine(lines: seq<int>, rates: seq<real>, parts: nat, m: nat)
    requires |lines| == |rates| && m <= parts && lines != [] && parts > 0
    ensures var n := |lines| - 1;
            CheckRaws(lines, rates, parts, m) ==
            CheckRaws(lines[..n], rates[..n], parts, m)
            + Shares(lines[n], parts, Offset(lines[..n], parts), m) as real * rates[n] / 100.0
  {
    hide RawTax, Subtotal, Share, Offset, Taxed;
    if m > 0 {
      var n := |lines| - 1;
      RawsOfOneMoreLine(lines, rates, parts, m - 1);
      var check := Check(lines, parts, m - 1);
      assert check[..n] == Check(lines[..n], parts, m - 1);
      TaxedSums(check, rates);
      var x, y := Shares(lines[n], parts, Offset(lines[..n], parts), m - 1) as real, check[n] as real;
      DistributeRate(x, y, rates[n]);
    }
  }

  lemma DistributeRate(x: real, y: real, rate: real)
    ensures (x + y) * rate / 100.0 == x * rate / 100.0 + y * rate / 100.0
  {}

  /** Across all checks the raw tax is conserved exactly. */
  lemma {:induction false} RawTaxIsConserved(lines: seq<int>, rates: seq<real>, parts: nat)
    requires |lines| == |rates| && parts > 0
    ensures CheckRaws(lines, rates, parts, parts) == RawTax(Taxed(lines, rates))
  {
    hide RawTax, Subtotal, Shares, Offset, Taxed, CheckRaws;
    if lines == [] {
      assert rates == [];
      EmptyRaws(parts, parts);
    } else {
      var n := |lines| - 1;
      RawTaxIsConserved(lines[..n], rates[..n], parts);
      RawsOfOneMoreLine(lines, rates, parts, parts);
      LineIsConserved(lines[n], parts, Offset(lines[..n], parts));
      TaxedSums(lines, rates);
    }
  }

  lemma {:induction false} EmptyRaws(parts: nat, m: nat)
    requires m <= parts
    ensures CheckRaws([], [], parts, m) == 0.0 && RawTax(Taxed([], [])) == 0.0
  {
    if m > 0 {
      EmptyRaws(parts, m - 1);
    }
  }

  lemma ShareIsNonNegative(p: int, parts: nat, offset: nat, c: nat)
    requires offset < parts && c < parts && p >= 0
    ensures Share(p, parts, offset, c) >= 0
  {
    if p / parts < 0 {
      ProductMonotone(p / parts, -1, parts);
    }
  }

  lemma {:induction false} CheckIsNonNegative(lines: seq<int>, parts: nat, c: nat)
    requires c < parts && forall i :: 0 <= i < |lines| ==> lines[i] >= 0
    ensures forall i :: 0 <= i < |lines| ==> Check(lines, parts, c)[i] >= 0
  {
    if lines != [] {
      var n := |lines| - 1;
      CheckIsNonNegative(lines[..n], parts, c);
      ShareIsNonNegative(lines[n], parts, Offset(lines[..n], parts), c);
    }
  }

  lemma {:induction false} TaxesNearRaws(lines: seq<int>, rates: seq<real>, parts: nat, m: nat)
    requires |lines| == |rates| && m <= parts && forall i :: 0 <= i < |lines| ==> lines[i] >= 0
    ensures CheckRaws(lines, rates, parts, m) - m as real / 2.0 <= CheckTaxes(lines, rates, parts, m) as real
            <= CheckRaws(lines, rates, parts, m) + m as real / 2.0
  {
    hide ComputeBill, RawTax;
    if m > 0 {
      TaxesNearRaws(lines, rates, parts, m - 1);
      CheckIsNonNegative(lines, parts, m - 1);
      PlainTaxIsRoundedRaw(Taxed(Check(lines, parts, m - 1), rates));
    }
  }

  /**
   Billing the checks separately keeps the subtotal of every check even and the summed tax within
   half a paisa per check, plus half a paisa, of the tax on the unsplit bill.
   */
  lemma SplitBillsNearWhole(lines: seq<int>, rates: seq<real>, parts: nat)
    requires |lines| == |rates| && parts > 0 && forall i :: 0 <= i < |lines| ==> lines[i] >= 0
    ensures var whole := ComputeBill(Taxed(lines, rates), PLAIN);
            && (forall c :: 0 <= c < parts ==>
                    CheckBill(lines, rates, parts, c).subtotal == Even(whole.subtotal, parts, c))
            && -(parts + 1) <= 2 * (CheckTaxes(lines, rates, parts, parts) - whole.tax) <= parts + 1
  {
    hide ComputeBill, RawTax, Subtotal, CheckTaxes, CheckRaws, Check, Even;
    PlainTaxIsRoundedRaw(Taxed(lines, rates));
    TaxedSums(lines, rates);
    TaxesNearRaws(lines, rates, parts, parts);
    RawTaxIsConserved(lines, rates, parts);
    forall c | 0 <= c < parts
      ensures CheckBill(lines, rates, parts, c).subtotal == Even(Sum(lines), parts, c)
    {
      CheckIsNonNegative(lines, parts, c);
      PlainTaxIsRoundedRaw(Taxed(Check(lines, parts, c), rates));
      TaxedSums(Check(lines, parts, c), rates);
      CheckIsEven(lines, parts, c);
    }
  }

  // ---------- The loops ----------

  /** One line across the checks: the even part everywhere, then one paisa to each of the next `rem` checks. */
  method SplitLine(out: array2<int>, li: nat, p: int, offset: nat)
    requires li < out.Length1 && offset < out.Length0
    modifies out
    ensures forall c, l :: 0 <= c < out.Length0 && 0 <= l < out.Length1 ==>
              out[c, l] == if l == li then Share(p, out.Length0, offset, c) else old(out[c, l])
  {
    var parts := out.Length0;
    var base := p / parts;
    var rem := p - base * parts;
    assert rem == p % parts;
    var c := 0;
    while c < parts
      invariant 0 <= c <= parts
      invariant forall d, l :: 0 <= d < parts && 0 <= l < out.Length1 ==>
                  out[d, l] == if l == li && d < c then base else old(out[d, l])
    {
      out[c, li] := base;
      c := c + 1;
    }
    var k := 0;
    while k < rem
      invariant 0 <= k <= rem
      invariant forall d, l :: 0 <= d < parts && 0 <= l < out.Length1 ==>
                  out[d, l] ==
                  if l == li then base + (if Rotate(d, offset, parts) < k then 1 else 0) else old(out[d, l])
    {
      DivModOfSmall(offset, k, parts);
      var d := (offset + k) % parts;
      assert Rotate(d, offset, parts) == k;
      assert forall e :: 0 <= e < parts && Rotate(e, offset, parts) == k ==> e == d;
      out[d, li] := out[d, li] + 1;
      k := k + 1;
    }
  }

  method SplitLinesEqually(lines: seq<int>, parts: nat) returns (out: array2<int>)
    requires parts > 0
    ensures out.Length0 == parts && out.Length1 == |lines|
    ensures forall c, l :: 0 <= c < parts && 0 <= l < |lines| ==> out[c, l] == Check(lines, parts, c)[l]
  {
    out := new int[parts, |lines|]((i, j) => 0);
    var offset, li := 0, 0;
    while li < |lines|
      invariant 0 <= li <= |lines| && offset == Offset(lines[..li], parts)
      invariant forall c, l :: 0 <= c < parts && 0 <= l < li ==> out[c, l] == Check(lines[..li], parts, c)[l]
    {
      SplitLine(out, li, lines[li], offset);
      assert lines[..li + 1][..li] == lines[..li];
      offset := (offset + lines[li] % parts) % parts;
      li := li + 1;
    }
    assert lines[..li] == lines;
  }
}
