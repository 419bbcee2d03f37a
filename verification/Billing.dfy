/** The full bill: discount, service charge, one rounding of tax, and round-off to whole rupees. */
module Billing {
  import opened Options
  import opened Rounding
  import opened Money

  datatype ServiceCharge = ServiceCharge(percent: real, taxable: bool)
  datatype BillOptions = BillOptions(discountRupees: real, serviceCharge: Option<ServiceCharge>, roundOff: bool)
  datatype Bill = Bill(
    subtotal: int, discount: int, serviceCharge: int, tax: int, roundOff: int, beforeRoundOff: int, total: int)

  function ChargeFor(taxable: int, sc: Option<ServiceCharge>): int {
    if sc.Some? && sc.value.percent > 0.0 then Round(taxable as real * sc.value.percent / 100.0) else 0
  }

  function TaxBase(taxable: int, sc: Option<ServiceCharge>): int {
    taxable + if sc.Some? && sc.value.taxable then ChargeFor(taxable, sc) else 0
  }

  function WholeRupees(paise: int): int {
    Round(paise as real / 100.0) * 100
  }

  function BillOf(subtotal: int, raw: real, discountPaise: int, sc: Option<ServiceCharge>, roundOff: bool): Bill {
    var discount := ClampDiscount(discountPaise, subtotal);
    var taxable := subtotal - discount;
    var charge := ChargeFor(taxable, sc);
    var tax := BlendedTax(raw, TaxBase(taxable, sc), subtotal);
    var before := taxable + charge + tax;
    var total := if roundOff then WholeRupees(before) else before;
    Bill(subtotal, discount, charge, tax, total - before, before, total)
  }

  function ComputeBill(lines: seq<MoneyLine>, o: BillOptions): Bill {
    BillOf(Subtotal(lines), RawTax(lines), ToPaise(o.discountRupees), o.serviceCharge, o.roundOff)
  }

  // ---------- Arithmetic ----------

  lemma ScaleMonotone(x: real, y: real, k: real)
    requires x <= y && k >= 0.0
    ensures x * k <= y * k
  {
    ProductOfNonNegatives(y - x, k);
  }

  lemma DivideMonotone(x: real, y: real, d: real)
    requires x <= y && d > 0.0
    ensures x / d <= y / d
  {
    assert x / d == x * (1.0 / d) && y / d == y * (1.0 / d);
    ScaleMonotone(x, y, 1.0 / d);
  }

  /** A rate applied to an amount of paise. */
  function Portion(rate: real, paise: int): real {
    rate * paise as real / 100.0
  }

  lemma PortionsAdd(rate: real, x: int, y: int)
    ensures Portion(rate, x + y) == Portion(rate, x) + Portion(rate, y)
  {
    assert rate * (x as real + y as real) == rate * x as real + rate * y as real;
  }

  lemma LineTaxBounds(line: MoneyLine, lo: real, hi: real)
    requires line.paise >= 0 && lo <= line.ratePercent <= hi
    ensures Portion(lo, line.paise) <= LineTax(line) <= Portion(hi, line.paise)
  {
    ScaleMonotone(lo, line.ratePercent, line.paise as real);
    ScaleMonotone(line.ratePercent, hi, line.paise as real);
  }

  lemma {:induction false} RawTaxBounds(lines: seq<MoneyLine>, lo: real, hi: real)
    requires forall i :: 0 <= i < |lines| ==> lines[i].paise >= 0 && lo <= lines[i].ratePercent <= hi
    ensures Subtotal(lines) >= 0
    ensures Portion(lo, Subtotal(lines)) <= RawTax(lines) <= Portion(hi, Subtotal(lines))
  {
    if lines != [] {
      hide Portion, LineTax;
      var n := |lines| - 1;
      RawTaxBounds(lines[..n], lo, hi);
      LineTaxBounds(lines[n], lo, hi);
      PortionsAdd(lo, Subtotal(lines[..n]), lines[n].paise);
      PortionsAdd(hi, Subtotal(lines[..n]), lines[n].paise);
    }
  }

  // ---------- Properties ----------

  /** Every component is accounted for, and round-off is at most half a rupee, ties upwards. */
  lemma BillAddsUp(lines: seq<MoneyLine>, o: BillOptions)
    ensures var b := ComputeBill(lines, o);
            && b.subtotal - b.discount + b.serviceCharge + b.tax + b.roundOff == b.total
            && (o.roundOff ==> b.total % 100 == 0 && -49 <= b.roundOff <= 50)
            && (!o.roundOff ==> b.roundOff == 0)
  {
    hide Subtotal, RawTax, BlendedTax, ChargeFor;
  }

  /** With no service charge and no round-off the bill is the order total of the offline terminal. */
  lemma PlainBillIsOrderTotal(lines: seq<MoneyLine>, o: BillOptions)
    requires !o.roundOff && (o.serviceCharge.None? || o.serviceCharge.value.percent <= 0.0)
    ensures var b := ComputeBill(lines, o);
            Totals(b.subtotal, b.discount, b.tax, b.total) == OrderTotals(lines, o.discountRupees)
  {
    hide Subtotal, RawTax, BlendedTax;
  }

  /**
   Discount, service charge and tax of a bill with a positive subtotal, from its own figures: the charge is
   its percentage of what the discount leaves, and the tax is the undiscounted tax in proportion to what is
   left, to which the charge is added exactly when it is taxable.
   */
  lemma ChargeAndTax(lines: seq<MoneyLine>, o: BillOptions)
    requires Subtotal(lines) > 0
    ensures var b, d := ComputeBill(lines, o), ToPaise(o.discountRupees);
            var left := b.subtotal - b.discount;
            var charged := o.serviceCharge.Some? && o.serviceCharge.value.percent > 0.0;
            var taxed := if charged && o.serviceCharge.value.taxable then left + b.serviceCharge else left;
            && b.subtotal == Subtotal(lines)
            && b.discount == (if d < 0 then 0 else if d > b.subtotal then b.subtotal else d)
            && (charged ==> Nearest(b.serviceCharge, Times(o.serviceCharge.value.percent, left), 100.0))
            && (!charged ==> b.serviceCharge == 0)
            && Nearest(b.tax, Times(RawTax(lines), taxed), b.subtotal as real)
            && (taxed == left ==> b.tax == ComputeBill(lines, o.(serviceCharge := None)).tax)
  {
    hide Subtotal, RawTax, BlendedTax, Round, WholeRupees, Nearest, ToPaise, Times;
    var b, sc := ComputeBill(lines, o), o.serviceCharge;
    var left, subtotal := b.subtotal - b.discount, Subtotal(lines);
    assert b.tax == BlendedTax(RawTax(lines), TaxBase(left, sc), subtotal) && b.serviceCharge == ChargeFor(left, sc);
    BlendedIsNearest(RawTax(lines), TaxBase(left, sc), subtotal);
    if sc.Some? && sc.value.percent > 0.0 {
      ChargeIsNearest(left, sc.value);
    }
  }

  lemma ChargeIsNearest(left: int, sc: ServiceCharge)
    requires sc.percent > 0.0
    ensures Nearest(ChargeFor(left, Some(sc)), Times(sc.percent, left), 100.0)
  {
    RoundIsNearest(left as real * sc.percent / 100.0, sc.percent * left as real, 100.0);
  }

  /** The service charge and the tax do not depend on whether the total is rounded. */
  lemma RoundOffOnlyMovesTotal(lines: seq<MoneyLine>, o: BillOptions)
    ensures var b, plain := ComputeBill(lines, o), ComputeBill(lines, o.(roundOff := false));
            && b == plain.(roundOff := b.roundOff, total := b.total)
            && (o.roundOff ==> exists rupees :: b.total == 100 * rupees && Nearest(rupees, plain.total as real, 100.0))
  {
    hide Subtotal, RawTax, BlendedTax, ChargeFor, Nearest;
    var before := ComputeBill(lines, o).beforeRoundOff;
    RoundIsNearest(before as real / 100.0, before as real, 100.0);
    var rupees := Round(before as real / 100.0);
    assert o.roundOff ==> ComputeBill(lines, o).total == 100 * rupees;
  }

  lemma ScaledShare(k: real, b: real, s: real)
    requires s > 0.0
    ensures k * s / 100.0 * b / s == k * b / 100.0
  {
    assert k * s / 100.0 * b == k * b / 100.0 * s;
    assert k * b / 100.0 * s / s == k * b / 100.0;
  }

  lemma ScaledBound(x: real, y: real, b: real, s: real)
    requires x <= y && b >= 0.0 && s > 0.0
    ensures x * b / s <= y * b / s
  {
    ScaleMonotone(x, y, b);
    DivideMonotone(x * b, y * b, s);
  }

  lemma BlendedBetween(raw: real, b: real, s: real, lo: real, hi: real)
    requires s > 0.0 && b >= 0.0 && lo * s / 100.0 <= raw <= hi * s / 100.0
    ensures lo * b / 100.0 <= raw * b / s <= hi * b / 100.0
  {
    LowerShare(raw, b, s, lo);
    UpperShare(raw, b, s, hi);
  }

  lemma LowerShare(raw: real, b: real, s: real, lo: real)
    requires s > 0.0 && b >= 0.0 && lo * s / 100.0 <= raw
    ensures lo * b / 100.0 <= raw * b / s
  {
    ScaledBound(lo * s / 100.0, raw, b, s);
    ScaledShare(lo, b, s);
  }

  lemma UpperShare(raw: real, b: real, s: real, hi: real)
    requires s > 0.0 && b >= 0.0 && raw <= hi * s / 100.0
    ensures raw * b / s <= hi * b / 100.0
  {
    ScaledBound(raw, hi * s / 100.0, b, s);
    ScaledShare(hi, b, s);
  }

  lemma BlendedTaxBetween(raw: real, base: int, subtotal: int, lo: real, hi: real)
    requires subtotal > 0 && base >= 0
    requires lo * subtotal as real / 100.0 <= raw <= hi * subtotal as real / 100.0
    ensures Round(lo * base as real / 100.0) <= BlendedTax(raw, base, subtotal) <= Round(hi * base as real / 100.0)
  {
    BlendedBetween(raw, base as real, subtotal as real, lo, hi);
    RoundMonotone(lo * base as real / 100.0, raw * base as real / subtotal as real);
    RoundMonotone(raw * base as real / subtotal as real, hi * base as real / 100.0);
  }

  /** The tax lies between the lowest and the highest line rate applied to the taxed amount. */
  lemma TaxIsBlended(lines: seq<MoneyLine>, o: BillOptions, lo: real, hi: real)
    requires forall i :: 0 <= i < |lines| ==> lines[i].paise >= 0 && lo <= lines[i].ratePercent <= hi
    ensures var b := ComputeBill(lines, o);
            var base := TaxBase(b.subtotal - b.discount, o.serviceCharge);
            Round(lo * base as real / 100.0) <= b.tax <= Round(hi * base as real / 100.0)
  {
    hide Subtotal, RawTax, BlendedTax, WholeRupees, Round;
    RawTaxBounds(lines, lo, hi);
    var b := ComputeBill(lines, o);
    ChargeIsMonotone(0, b.subtotal - b.discount, o.serviceCharge);
    assert ChargeFor(0, o.serviceCharge) == 0 by { NoChargeOnNothing(o.serviceCharge); }
    var base := TaxBase(b.subtotal - b.discount, o.serviceCharge);
    if b.subtotal > 0 {
      BlendedTaxBetween(RawTax(lines), base, b.subtotal, lo, hi);
    } else {
      NoTaxOnNothing(RawTax(lines), lo, hi);
    }
  }

  lemma NoTaxOnNothing(raw: real, lo: real, hi: real)
    ensures BlendedTax(raw, 0, 0) == 0 && Round(lo * 0 as real / 100.0) == 0 && Round(hi * 0 as real / 100.0) == 0
  {
    assert lo * 0.0 == 0.0 && hi * 0.0 == 0.0;
    RoundUnique(0.0, 0);
  }

  lemma NoChargeOnNothing(sc: Option<ServiceCharge>)
    ensures ChargeFor(0, sc) == 0
  {
    RoundUnique(0.0, 0);
  }

  lemma ChargeIsMonotone(x: int, y: int, sc: Option<ServiceCharge>)
    requires x <= y
    ensures ChargeFor(x, sc) <= ChargeFor(y, sc)
  {
    if sc.Some? && sc.value.percent > 0.0 {
      ScaleMonotone(x as real, y as real, sc.value.percent);
      RoundMonotone(x as real * sc.value.percent / 100.0, y as real * sc.value.percent / 100.0);
    }
  }

  lemma BlendedTaxMonotone(raw: real, x: int, y: int, subtotal: int)
    requires raw >= 0.0 && x <= y
    ensures BlendedTax(raw, x, subtotal) <= BlendedTax(raw, y, subtotal)
  {
    if subtotal > 0 {
      ScaleMonotone(x as real, y as real, raw);
      DivideMonotone(raw * x as real, raw * y as real, subtotal as real);
      RoundMonotone(raw * x as real / subtotal as real, raw * y as real / subtotal as real);
    }
  }

  lemma WholeRupeesMonotone(x: int, y: int)
    requires x <= y
    ensures WholeRupees(x) <= WholeRupees(y)
  {
    RoundMonotone(x as real / 100.0, y as real / 100.0);
  }

  /** A larger discount never makes the bill larger, service charge, tax and round-off included. */
  lemma DiscountNeverRaisesTotal(lines: seq<MoneyLine>, o: BillOptions, more: real)
    requires forall i :: 0 <= i < |lines| ==> lines[i].paise >= 0 && lines[i].ratePercent >= 0.0
    requires o.discountRupees <= more
    ensures ComputeBill(lines, o.(discountRupees := more)).total <= ComputeBill(lines, o).total
  {
    hide Subtotal, RawTax, BlendedTax, WholeRupees, ChargeFor, Round;
    var hi := HighestRate(lines);
    RawTaxBounds(lines, 0.0, hi);
    var a, b := ComputeBill(lines, o), ComputeBill(lines, o.(discountRupees := more));
    RoundMonotone(o.discountRupees * 100.0, more * 100.0);
    var x, y := b.subtotal - b.discount, a.subtotal - a.discount;
    ChargeIsMonotone(x, y, o.serviceCharge);
    BlendedTaxMonotone(RawTax(lines), TaxBase(x, o.serviceCharge), TaxBase(y, o.serviceCharge), a.subtotal);
    WholeRupeesMonotone(b.beforeRoundOff, a.beforeRoundOff);
  }

  /** An upper bound on the rates of a bill. */
  function HighestRate(lines: seq<MoneyLine>): (hi: real)
    ensures forall i :: 0 <= i < |lines| ==> lines[i].ratePercent <= hi
  {
    if lines == [] then 0.0
    else
      var rest := HighestRate(lines[..|lines| - 1]);
      if lines[|lines| - 1].ratePercent > rest then lines[|lines| - 1].ratePercent else rest
  }

  /** The bill depends on its lines only as a multiset. */
  lemma LineOrderIsIrrelevant(a: seq<MoneyLine>, b: seq<MoneyLine>, o: BillOptions)
    requires multiset(a) == multiset(b)
    ensures ComputeBill(a, o) == ComputeBill(b, o)
  {
    hide Subtotal, RawTax, BillOf;
    SumsOfPermutation(a, b);
  }

  /** Splitting one line into two at the same rate leaves the bill as it is. */
  lemma LineSplitIsIrrelevant(a: seq<MoneyLine>, b: seq<MoneyLine>, p: int, q: int, rate: real, o: BillOptions)
    ensures ComputeBill(a + [MoneyLine(p + q, rate)] + b, o)
            == ComputeBill(a + [MoneyLine(p, rate), MoneyLine(q, rate)] + b, o)
  {
    hide BillOf, Subtotal, RawTax;
    var x, y := MoneyLine(p, rate), MoneyLine(q, rate);
    var whole, halves := [MoneyLine(p + q, rate)], [x, y];
    assert halves == [x] + [y];
    SubtotalConcat(a + whole, b);
    SubtotalConcat(a, whole);
    SubtotalConcat(a + halves, b);
    SubtotalConcat(a, halves);
    SubtotalConcat([x], [y]);
    SumsOfOne(MoneyLine(p + q, rate));
    SumsOfOne(x);
    SumsOfOne(y);
    assert (p + q) as real * rate / 100.0 == p as real * rate / 100.0 + q as real * rate / 100.0;
  }

  lemma SumsOfOne(x: MoneyLine)
    ensures Subtotal([x]) == x.paise && RawTax([x]) == x.paise as real * x.ratePercent / 100.0
  {
    assert [x][..0] == [];
  }
}
