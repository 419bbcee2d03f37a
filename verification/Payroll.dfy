/** One payslip in integer paise.  Statutory amounts round to whole rupees. */
module Payroll {
  import opened Numbers
  import opened Options
  import opened Rounding

  datatype PayType = Monthly | Daily | Hourly
  datatype Adjustment = Adjustment(rupees: real, earning: bool)

  datatype PayInputs = PayInputs(
    payType: PayType, payRate: real, allowances: seq<real>, deductions: seq<real>,
    pfApplicable: bool, esiApplicable: bool, ptApplicable: bool, overtimeEligible: bool,
    daysInMonth: real, presentDays: real, paidLeaveDays: real, lopDays: real,
    workedMinutes: real, overtimeMinutes: real, advanceDue: real, adjustments: seq<Adjustment>)

  datatype Slab = Slab(upTo: Option<real>, rupees: real)

  datatype PayConfig = PayConfig(
    fixedBasis: Option<real>, standardDayHours: real, overtimeMultiplier: real, payPaidLeaveForWageStaff: bool,
    pfEnabled: bool, pfEmployeeRate: real, pfEmployerRate: real, pfCeiling: real,
    esiEnabled: bool, esiEmployeeRate: real, esiEmployerRate: real, esiThreshold: real,
    ptEnabled: bool, ptSlabs: seq<Slab>)

  datatype Warning = EsiNotDeducted | RecoveryReduced | DeductionsExceedGross

  datatype Payslip = Payslip(
    payableDays: real, basic: int, overtimePay: int, gross: int,
    pfEmployee: int, esiEmployee: int, professionalTax: int, otherDeductions: int, advanceRecovery: int,
    totalDeductions: int, net: int, pfEmployer: int, esiEmployer: int, warnings: seq<Warning>)

  function WholeRupee(paise: real): int {
    Round(paise / 100.0) * 100
  }

  predicate Sensible(x: PayInputs, c: PayConfig) {
    x.daysInMonth > 0.0 && c.standardDayHours > 0.0 && (c.fixedBasis.Some? ==> c.fixedBasis.value > 0.0)
  }

  function BasisDays(x: PayInputs, c: PayConfig): (d: real)
    requires Sensible(x, c)
    ensures d > 0.0
  {
    if c.fixedBasis.Some? then c.fixedBasis.value else x.daysInMonth
  }

  function LossDays(x: PayInputs): real {
    MinReal(x.lopDays, x.daysInMonth)
  }

  // ---------- Earnings ----------

  /** What is left of a salary when some days are lost. */
  function Less(rate: real, perDay: real, lost: real): real {
    rate - perDay * lost
  }

  /** A monthly salary less the days lost, never below nothing. */
  function Salary(rate: real, basis: real, loss: real): int
    requires basis > 0.0
  {
    Max(0, Round(Less(rate, Quotient(rate, basis), loss)))
  }

  function Hours(minutes: real, hours: real): real {
    minutes / 60.0 + hours
  }

  function Basic(x: PayInputs, c: PayConfig): int
    requires Sensible(x, c)
  {
    var rate := ToPaise(x.payRate) as real;
    match x.payType
    case Monthly => Salary(rate, BasisDays(x, c), LossDays(x))
    case Daily =>
      Round(Product(rate, x.presentDays + if c.payPaidLeaveForWageStaff then x.paidLeaveDays else 0.0))
    case Hourly =>
      var regular := MaxReal(0.0, x.workedMinutes - x.overtimeMinutes);
      var leaveHours := if c.payPaidLeaveForWageStaff then Product(x.paidLeaveDays, c.standardDayHours) else 0.0;
      Round(Product(rate, Hours(regular, leaveHours)))
  }

  function HourlyPaise(x: PayInputs, c: PayConfig): real
    requires Sensible(x, c)
  {
    var rate := ToPaise(x.payRate) as real;
    match x.payType
    case Monthly => Quotient(Quotient(rate, BasisDays(x, c)), c.standardDayHours)
    case Daily => Quotient(rate, c.standardDayHours)
    case Hourly => rate
  }

  /** Monthly allowances shrink with the salary. */
  function AllowanceFactor(x: PayInputs, basic: int): real {
    if x.payType != Monthly then 1.0
    else if ToPaise(x.payRate) > 0 then Quotient(basic as real, ToPaise(x.payRate) as real)
    else 0.0
  }

  function OvertimePay(x: PayInputs, c: PayConfig): int
    requires Sensible(x, c)
  {
    var minutes := if x.overtimeEligible then x.overtimeMinutes else 0.0;
    Round(Product(Product(HourlyPaise(x, c), Hours(minutes, 0.0)), c.overtimeMultiplier))
  }

  function Allowance(rupees: real, factor: real): int {
    Round(Product(ToPaise(rupees) as real, factor))
  }

  function Allowances(amounts: seq<real>, factor: real): int {
    if amounts == [] then 0
    else Allowances(amounts[..|amounts| - 1], factor) + Allowance(amounts[|amounts| - 1], factor)
  }

  function Adjustments(xs: seq<Adjustment>, earning: bool): int {
    if xs == [] then 0
    else
      var last := xs[|xs| - 1];
      Adjustments(xs[..|xs| - 1], earning) + if last.earning == earning then ToPaise(last.rupees) else 0
  }

  function Gross(x: PayInputs, c: PayConfig): int
    requires Sensible(x, c)
  {
    var basic := Basic(x, c);
    basic + OvertimePay(x, c) + Allowances(x.allowances, AllowanceFactor(x, basic)) + Adjustments(x.adjustments, true)
  }

  // ---------- Deductions ----------

  /** A rate, in percent, of a wage. */
  function Percent(paise: int, rate: real): real { paise as real * rate / 100.0 }

  function PfWage(basic: int, c: PayConfig): int {
    var ceiling := ToPaise(c.pfCeiling);
    if ceiling > 0 then Min(basic, ceiling) else basic
  }

  function Pf(basic: int, x: PayInputs, c: PayConfig, rate: real): int {
    if c.pfEnabled && x.pfApplicable then WholeRupee(Percent(PfWage(basic, c), rate)) else 0
  }

  predicate EsiDue(gross: int, x: PayInputs, c: PayConfig) {
    c.esiEnabled && x.esiApplicable && gross <= ToPaise(c.esiThreshold)
  }

  function Esi(gross: int, x: PayInputs, c: PayConfig, rate: real): int {
    if EsiDue(gross, x, c) then WholeRupee(Percent(gross, rate)) else 0
  }

  /** The first slab that reaches the gross. */
  function SlabTax(slabs: seq<Slab>, gross: int): int {
    if slabs == [] then 0
    else if slabs[0].upTo.None? || gross <= ToPaise(slabs[0].upTo.value) then ToPaise(slabs[0].rupees)
    else SlabTax(slabs[1..], gross)
  }

  function ProfessionalTax(gross: int, x: PayInputs, c: PayConfig): int {
    if c.ptEnabled && x.ptApplicable then SlabTax(c.ptSlabs, gross) else 0
  }

  /** Amounts in whole paise, added up. */
  function FullSum(amounts: seq<real>): int {
    if amounts == [] then 0 else FullSum(amounts[..|amounts| - 1]) + ToPaise(amounts[|amounts| - 1])
  }

  function OtherDeductions(x: PayInputs): int {
    FullSum(x.deductions) + Adjustments(x.adjustments, false)
  }

  function Fixed(x: PayInputs, c: PayConfig): int
    requires Sensible(x, c)
  {
    var basic, gross := Basic(x, c), Gross(x, c);
    Pf(basic, x, c, c.pfEmployeeRate) + Esi(gross, x, c, c.esiEmployeeRate)
    + ProfessionalTax(gross, x, c) + OtherDeductions(x)
  }

  /** What is paid out: an advance is recovered from what the fixed deductions leave, never from more. */
  function Net(x: PayInputs, c: PayConfig): int
    requires Sensible(x, c)
  {
    Gross(x, c) - Fixed(x, c) - Max(0, Min(ToPaise(x.advanceDue), Gross(x, c) - Fixed(x, c)))
  }

  // ---------- The payslip ----------

  method ComputePayslip(x: PayInputs, c: PayConfig) returns (p: Payslip)
    requires Sensible(x, c)
    ensures p.basic == Basic(x, c) && p.overtimePay == OvertimePay(x, c) && p.gross == Gross(x, c)
    ensures p.pfEmployee == Pf(p.basic, x, c, c.pfEmployeeRate) && p.pfEmployer == Pf(p.basic, x, c, c.pfEmployerRate)
    ensures p.esiEmployee == Esi(p.gross, x, c, c.esiEmployeeRate)
    ensures p.esiEmployer == Esi(p.gross, x, c, c.esiEmployerRate)
    ensures p.professionalTax == ProfessionalTax(p.gross, x, c) && p.otherDeductions == OtherDeductions(x)
    ensures p.totalDeductions
            == p.pfEmployee + p.esiEmployee + p.professionalTax + p.otherDeductions + p.advanceRecovery
    ensures p.net == p.gross - p.totalDeductions && p.net == Net(x, c)
    ensures p.net < 0 <==> Fixed(x, c) > Gross(x, c)
    ensures p.advanceRecovery == Max(0, Min(ToPaise(x.advanceDue), Gross(x, c) - Fixed(x, c)))
    ensures RecoveryReduced in p.warnings <==> p.advanceRecovery < ToPaise(x.advanceDue)
    ensures DeductionsExceedGross in p.warnings <==> p.net < 0
    ensures EsiNotDeducted in p.warnings <==> c.esiEnabled && x.esiApplicable && !EsiDue(p.gross, x, c)
    ensures p.payableDays == MaxReal(0.0, x.daysInMonth - LossDays(x))
  {
    hide Basic, OvertimePay, Allowances, Adjustments, ToPaise, Pf, Esi, ProfessionalTax;
    var warnings: seq<Warning> := [];
    var basic, overtimePay := Basic(x, c), OvertimePay(x, c);
    var gross := basic + overtimePay
                 + Allowances(x.allowances, AllowanceFactor(x, basic)) + Adjustments(x.adjustments, true);
    var pfEmployee, pfEmployer := Pf(basic, x, c, c.pfEmployeeRate), Pf(basic, x, c, c.pfEmployerRate);
    var esiEmployee, esiEmployer := Esi(gross, x, c, c.esiEmployeeRate), Esi(gross, x, c, c.esiEmployerRate);
    if c.esiEnabled && x.esiApplicable && !EsiDue(gross, x, c) {
      warnings := warnings + [EsiNotDeducted];
    }
    var pt, other := ProfessionalTax(gross, x, c), OtherDeductions(x);
    var fixedPart := pfEmployee + esiEmployee + pt + other;
    var due := ToPaise(x.advanceDue);
    var recovery := Max(0, Min(due, gross - fixedPart));
    if recovery < due {
      warnings := warnings + [RecoveryReduced];
    }
    var total := fixedPart + recovery;
    var net := gross - total;
    if net < 0 {
      warnings := warnings + [DeductionsExceedGross];
    }
    p := Payslip(
      MaxReal(0.0, x.daysInMonth - LossDays(x)), basic, overtimePay, gross, pfEmployee, esiEmployee, pt, other,
      recovery, total, net, pfEmployer, esiEmployer, warnings);
  }

  // ---------- What each earning is worth ----------

  lemma LessIsProRata(rate: real, basis: real, lost: real)
    requires basis > 0.0
    ensures Less(rate, Quotient(rate, basis), lost) * basis == Product(rate, basis - lost)
  {
    var perDay := rate / basis;
    assert perDay * basis == rate;
    assert (rate - perDay * lost) * basis == rate * basis - (perDay * basis) * lost;
  }

  lemma NearestNothing(n: int, a: real, d: real)
    requires n <= 0 && d > 0.0 && Nearest(n, a, d)
    ensures 2.0 * a < d
  {
    ProductOfNonNegatives(-n as real, d);
  }

  /** A day's pay of monthly staff is the salary over the days of the month; days lost are taken off. */
  lemma SalaryIsProRata(x: PayInputs, c: PayConfig)
    requires Sensible(x, c) && x.payType == Monthly
    ensures var lost := if x.lopDays <= x.daysInMonth then x.lopDays else x.daysInMonth;
            var basis := if c.fixedBasis.Some? then c.fixedBasis.value else x.daysInMonth;
            var due := Product(ToPaise(x.payRate) as real, basis - lost);
            if Basic(x, c) > 0 then Nearest(Basic(x, c), due, basis) else Basic(x, c) == 0 && 2.0 * due < basis
  {
    hide ToPaise, Nearest, Round, Product, Quotient, Less;
    var rate, basis, lost := ToPaise(x.payRate) as real, BasisDays(x, c), LossDays(x);
    var left := Less(rate, Quotient(rate, basis), lost);
    LessIsProRata(rate, basis, lost);
    RoundIsNearest(left, Product(rate, basis - lost), basis);
    assert Basic(x, c) == if Round(left) > 0 then Round(left) else 0;
    if Round(left) <= 0 {
      NearestNothing(Round(left), Product(rate, basis - lost), basis);
    }
  }

  /** Daily staff are paid the rate per day of presence, and of paid leave where the policy pays it. */
  lemma WageIsPerDay(x: PayInputs, c: PayConfig)
    requires Sensible(x, c) && x.payType == Daily
    ensures var days := if c.payPaidLeaveForWageStaff then x.presentDays + x.paidLeaveDays else x.presentDays;
            Nearest(Basic(x, c), Product(ToPaise(x.payRate) as real, days), 1.0)
  {
    hide ToPaise, Nearest, Round, Product;
    var days := x.presentDays + if c.payPaidLeaveForWageStaff then x.paidLeaveDays else 0.0;
    var pay := Product(ToPaise(x.payRate) as real, days);
    RoundIsNearest(pay, pay, 1.0);
  }

  lemma HoursOfPay(rate: real, minutes: real, hours: real)
    ensures Product(rate, Hours(minutes, hours)) * 60.0 == Product(rate, minutes + 60.0 * hours)
  {
    var h := minutes / 60.0;
    assert h * 60.0 == minutes;
    assert rate * (h + hours) * 60.0 == rate * (h * 60.0 + 60.0 * hours);
  }

  /** Hourly staff are paid the rate per sixty minutes outside overtime, a day of paid leave as a standard day. */
  lemma WageIsPerHour(x: PayInputs, c: PayConfig)
    requires Sensible(x, c) && x.payType == Hourly
    ensures var regular := if x.workedMinutes > x.overtimeMinutes then x.workedMinutes - x.overtimeMinutes else 0.0;
            var leave := if c.payPaidLeaveForWageStaff then Product(x.paidLeaveDays, c.standardDayHours) else 0.0;
            Nearest(Basic(x, c), Product(ToPaise(x.payRate) as real, regular + 60.0 * leave), 60.0)
  {
    hide ToPaise, Nearest, Round, Product, Hours;
    var rate, regular := ToPaise(x.payRate) as real, MaxReal(0.0, x.workedMinutes - x.overtimeMinutes);
    var leave := if c.payPaidLeaveForWageStaff then Product(x.paidLeaveDays, c.standardDayHours) else 0.0;
    HoursOfPay(rate, regular, leave);
    RoundIsNearest(Product(rate, Hours(regular, leave)), Product(rate, regular + 60.0 * leave), 60.0);
  }

  /** What overtime is worth to someone paid `pay` for `hours` hours. */
  ghost predicate ProRata(overtime: int, pay: real, hours: real, minutes: real, multiplier: real) {
    Nearest(overtime, Product(Product(pay, minutes), multiplier), 60.0 * hours)
  }

  lemma HourlyShare(hourly: real, pay: real, hours: real, minutes: real, multiplier: real)
    requires hours > 0.0 && Product(hourly, hours) == pay
    ensures Product(Product(hourly, Hours(minutes, 0.0)), multiplier) * (60.0 * hours)
            == Product(Product(pay, minutes), multiplier)
  {
    var h := minutes / 60.0;
    assert h * 60.0 == minutes;
    assert hourly * h * multiplier * (60.0 * hours) == (hourly * hours) * (h * 60.0) * multiplier;
  }

  /** The hours an ordinary rate pays for: all of a month, those of a standard day, or one. */
  function HoursPaid(x: PayInputs, c: PayConfig): real {
    match x.payType
    case Monthly =>
      Product(if c.fixedBasis.Some? then c.fixedBasis.value else x.daysInMonth, c.standardDayHours)
    case Daily => c.standardDayHours
    case Hourly => 1.0
  }

  lemma QuotientTimes(x: real, y: real)
    requires y != 0.0
    ensures Product(Quotient(x, y), y) == x
  {}

  lemma DailyRate(pay: real, basis: real, hours: real)
    requires basis > 0.0 && hours > 0.0
    ensures Product(basis, hours) > 0.0 && Product(Quotient(Quotient(pay, basis), hours), Product(basis, hours)) == pay
  {
    ProductIsPositive(basis, hours);
    var perDay := pay / basis;
    var hourly := perDay / hours;
    assert hourly * hours == perDay && perDay * basis == pay;
    assert hourly * (basis * hours) == (hourly * hours) * basis;
  }

  /** An hour's pay, over the hours the rate pays for, is the rate. */
  lemma RateForHours(x: PayInputs, c: PayConfig)
    requires Sensible(x, c)
    ensures HoursPaid(x, c) > 0.0 && Product(HourlyPaise(x, c), HoursPaid(x, c)) == ToPaise(x.payRate) as real
  {
    hide ToPaise, Product, Quotient;
    var pay := ToPaise(x.payRate) as real;
    match x.payType
    case Monthly => DailyRate(pay, BasisDays(x, c), c.standardDayHours);
    case Daily => QuotientTimes(pay, c.standardDayHours);
    case Hourly => ByOne(pay);
  }

  lemma ByOne(x: real)
    ensures Product(x, 1.0) == x && Product(x, 0.0) == 0.0
  {}

  /**
   Overtime is pro rata of the ordinary rate, in minutes and multiplier, over the hours that rate pays for.
   Staff who are not eligible earn none.
   */
  lemma OvertimeIsProRata(x: PayInputs, c: PayConfig)
    requires Sensible(x, c)
    ensures x.overtimeEligible ==>
              ProRata(OvertimePay(x, c), ToPaise(x.payRate) as real, HoursPaid(x, c), x.overtimeMinutes,
                      c.overtimeMultiplier)
    ensures !x.overtimeEligible ==> OvertimePay(x, c) == 0
  {
    hide ToPaise, Nearest, Round, Product, HourlyPaise, HoursPaid, Hours;
    var pay, hours, minutes := ToPaise(x.payRate) as real, HoursPaid(x, c), x.overtimeMinutes;
    if x.overtimeEligible {
      RateForHours(x, c);
      HourlyShare(HourlyPaise(x, c), pay, hours, minutes, c.overtimeMultiplier);
      RoundIsNearest(Product(Product(HourlyPaise(x, c), Hours(minutes, 0.0)), c.overtimeMultiplier),
                     Product(Product(pay, minutes), c.overtimeMultiplier), 60.0 * hours);
    } else {
      NoMinutesNoPay(HourlyPaise(x, c), c.overtimeMultiplier);
    }
  }

  lemma NoMinutesNoPay(hourly: real, multiplier: real)
    ensures Round(Product(Product(hourly, Hours(0.0, 0.0)), multiplier)) == 0
  {
    assert hourly * (0.0 / 60.0) * multiplier == 0.0;
    RoundUnique(0.0, 0);
  }

  /** At multiplier one, as much overtime as the rate pays for is worth the rate. */
  lemma OvertimeForHoursPaid(x: PayInputs, c: PayConfig)
    requires Sensible(x, c) && x.overtimeEligible && c.overtimeMultiplier == 1.0
    requires x.overtimeMinutes == 60.0 * HoursPaid(x, c)
    ensures OvertimePay(x, c) == ToPaise(x.payRate)
  {
    hide ToPaise, HourlyPaise, HoursPaid, Product;
    RateForHours(x, c);
    assert Hours(x.overtimeMinutes, 0.0) == HoursPaid(x, c);
    ByOne(ToPaise(x.payRate) as real);
    RoundUnique(ToPaise(x.payRate) as real, ToPaise(x.payRate));
  }

  /** At multiplier one, a standard day of overtime of monthly staff is worth the salary over the days of the month. */
  lemma OvertimeDayIsDay(x: PayInputs, c: PayConfig)
    requires Sensible(x, c) && x.payType == Monthly && x.overtimeEligible && c.overtimeMultiplier == 1.0
    requires x.overtimeMinutes == 60.0 * c.standardDayHours
    ensures var days := if c.fixedBasis.Some? then c.fixedBasis.value else x.daysInMonth;
            Nearest(OvertimePay(x, c), ToPaise(x.payRate) as real, days)
  {
    hide ToPaise, Nearest, Round, Product, Quotient;
    var pay, basis := ToPaise(x.payRate) as real, BasisDays(x, c);
    var perDay := Quotient(pay, basis);
    assert Hours(x.overtimeMinutes, 0.0) == c.standardDayHours;
    QuotientTimes(perDay, c.standardDayHours);
    ByOne(perDay);
    QuotientOver(pay, basis);
    RoundIsNearest(perDay, pay, basis);
  }

  lemma QuotientOver(x: real, y: real)
    requires y != 0.0
    ensures Quotient(x, y) * y == x
  {}

  lemma PartOfWhole(a: int, basic: int, rate: int)
    requires rate > 0
    ensures Product(a as real, Quotient(basic as real, rate as real)) * rate as real
            == Product(a as real, basic as real)
  {
    var part := basic as real / rate as real;
    assert part * rate as real == basic as real;
    assert a as real * part * rate as real == a as real * (part * rate as real);
  }

  /** An allowance of monthly staff shrinks as the salary does; wage staff get theirs in full. */
  lemma AllowanceIsProRata(x: PayInputs, basic: int, rupees: real)
    ensures x.payType != Monthly ==> Allowance(rupees, AllowanceFactor(x, basic)) == ToPaise(rupees)
    ensures x.payType == Monthly && ToPaise(x.payRate) > 0 ==>
              Nearest(Allowance(rupees, AllowanceFactor(x, basic)), Product(ToPaise(rupees) as real, basic as real),
                      ToPaise(x.payRate) as real)
    ensures x.payType == Monthly && ToPaise(x.payRate) <= 0 ==> Allowance(rupees, AllowanceFactor(x, basic)) == 0
  {
    hide ToPaise, Nearest, Product, Quotient;
    var a, rate := ToPaise(rupees), ToPaise(x.payRate);
    ByOne(a as real);
    RoundUnique(a as real, a);
    RoundUnique(0.0, 0);
    if x.payType == Monthly && rate > 0 {
      hide Round;
      PartOfWhole(a, basic, rate);
      RoundIsNearest(Product(a as real, Quotient(basic as real, rate as real)), Product(a as real, basic as real),
                     rate as real);
    }
  }

  // ---------- What each deduction is ----------

  /** Provident fund is whole rupees of its rate on the basic pay, up to the ceiling if there is one. */
  lemma PfIsRateOfWage(basic: int, x: PayInputs, c: PayConfig, rate: real)
    ensures var ceiling := ToPaise(c.pfCeiling);
            var wage := if ceiling > 0 && ceiling < basic then ceiling else basic;
            && (c.pfEnabled && x.pfApplicable ==>
                  exists rupees :: Pf(basic, x, c, rate) == 100 * rupees
                                   && Nearest(rupees, Product(wage as real, rate), 10000.0))
            && (!c.pfEnabled || !x.pfApplicable ==> Pf(basic, x, c, rate) == 0)
  {
    hide ToPaise, Nearest, Round, Product;
    if c.pfEnabled && x.pfApplicable {
      RupeesOfRate(PfWage(basic, c), rate);
    }
  }

  lemma RupeesOfRate(paise: int, rate: real)
    ensures exists rupees :: WholeRupee(Percent(paise, rate)) == 100 * rupees
                             && Nearest(rupees, Product(paise as real, rate), 10000.0)
  {
    hide Nearest, Round;
    var x := Percent(paise, rate) / 100.0;
    RoundIsNearest(x, Product(paise as real, rate), 10000.0);
    assert WholeRupee(Percent(paise, rate)) == 100 * Round(x);
  }

  /** Insurance is whole rupees of its rate on the gross, due exactly up to the threshold. */
  lemma EsiIsRateOfGross(gross: int, x: PayInputs, c: PayConfig, rate: real)
    ensures var due := c.esiEnabled && x.esiApplicable && gross <= ToPaise(c.esiThreshold);
            && (due ==> exists rupees :: Esi(gross, x, c, rate) == 100 * rupees
                                         && Nearest(rupees, Product(gross as real, rate), 10000.0))
            && (!due ==> Esi(gross, x, c, rate) == 0)
  {
    hide ToPaise, Nearest, Round, Product;
    if EsiDue(gross, x, c) {
      RupeesOfRate(gross, rate);
    }
  }

  /** Professional tax is due from those it applies to, where it is deducted at all. */
  lemma TaxIsDueIf(gross: int, x: PayInputs, c: PayConfig)
    ensures c.ptEnabled && x.ptApplicable ==> ProfessionalTax(gross, x, c) == SlabTax(c.ptSlabs, gross)
    ensures !c.ptEnabled || !x.ptApplicable ==> ProfessionalTax(gross, x, c) == 0
  {}

  predicate Reaches(s: Slab, gross: int) {
    s.upTo.None? || gross <= ToPaise(s.upTo.value)
  }

  /** Professional tax is the amount of the first slab that reaches the gross, and nothing if none does. */
  lemma {:induction false} TaxIsFirstSlab(slabs: seq<Slab>, gross: int, k: nat)
    requires k <= |slabs| && forall i :: 0 <= i < k ==> !Reaches(slabs[i], gross)
    ensures k == |slabs| ==> SlabTax(slabs, gross) == 0
    ensures k < |slabs| && Reaches(slabs[k], gross) ==> SlabTax(slabs, gross) == ToPaise(slabs[k].rupees)
  {
    hide ToPaise;
    if k > 0 {
      assert !Reaches(slabs[0], gross);
      TaxIsFirstSlab(slabs[1..], gross, k - 1);
    }
  }

  /** Every adjustment counts once: among the earnings or among the deductions. */
  lemma {:induction false} AdjustmentsCountOnce(a: seq<Adjustment>, b: seq<Adjustment>, earning: bool)
    ensures Adjustments(a + b, earning) == Adjustments(a, earning) + Adjustments(b, earning)
    ensures forall rupees, kind :: Adjustments([Adjustment(rupees, kind)], earning) ==
              if kind == earning then ToPaise(rupees) else 0
  {
    hide ToPaise;
    if b == [] {
      assert a + b == a;
    } else {
      assert (a + b)[..|a + b| - 1] == a + b[..|b| - 1];
      AdjustmentsCountOnce(a, b[..|b| - 1], earning);
    }
    assert forall rupees, kind :: [Adjustment(rupees, kind)][..0] == [];
  }

  /** Each further deduction is deducted in full, whether it is one of the employee's or an adjustment. */
  lemma DeductionsAddUp(x: PayInputs, rupees: real)
    ensures OtherDeductions(x.(deductions := x.deductions + [rupees])) == OtherDeductions(x) + ToPaise(rupees)
    ensures OtherDeductions(x.(adjustments := x.adjustments + [Adjustment(rupees, false)]))
            == OtherDeductions(x) + ToPaise(rupees)
    ensures OtherDeductions(x.(adjustments := x.adjustments + [Adjustment(rupees, true)])) == OtherDeductions(x)
    ensures OtherDeductions(x.(deductions := [], adjustments := [])) == 0
  {
    hide ToPaise;
    assert (x.deductions + [rupees])[..|x.deductions|] == x.deductions;
    assert (x.adjustments + [Adjustment(rupees, false)])[..|x.adjustments|] == x.adjustments;
    assert (x.adjustments + [Adjustment(rupees, true)])[..|x.adjustments|] == x.adjustments;
  }

  lemma PayIgnoresExtras(x: PayInputs, c: PayConfig, allowances: seq<real>, adjustments: seq<Adjustment>)
    requires Sensible(x, c)
    ensures var y := x.(allowances := allowances, adjustments := adjustments);
            && Basic(y, c) == Basic(x, c) && OvertimePay(y, c) == OvertimePay(x, c)
            && AllowanceFactor(y, Basic(y, c)) == AllowanceFactor(x, Basic(x, c))
  {
    hide ToPaise, Round, Product, Quotient, Less, Hours;
  }

  /** Each further earning is paid in full, each further allowance in proportion, on top of pay and overtime. */
  lemma EarningsAddUp(x: PayInputs, c: PayConfig, rupees: real)
    requires Sensible(x, c)
    ensures Gross(x.(adjustments := x.adjustments + [Adjustment(rupees, true)]), c) == Gross(x, c) + ToPaise(rupees)
    ensures Gross(x.(adjustments := x.adjustments + [Adjustment(rupees, false)]), c) == Gross(x, c)
    ensures Gross(x.(allowances := x.allowances + [rupees]), c)
            == Gross(x, c) + Allowance(rupees, AllowanceFactor(x, Basic(x, c)))
    ensures Gross(x.(allowances := [], adjustments := []), c) == Basic(x, c) + OvertimePay(x, c)
  {
    hide ToPaise, Allowance, Basic, OvertimePay, AllowanceFactor;
    var more, less := Adjustment(rupees, true), Adjustment(rupees, false);
    PayIgnoresExtras(x, c, x.allowances, x.adjustments + [more]);
    PayIgnoresExtras(x, c, x.allowances, x.adjustments + [less]);
    PayIgnoresExtras(x, c, x.allowances + [rupees], x.adjustments);
    PayIgnoresExtras(x, c, [], []);
    assert (x.allowances + [rupees])[..|x.allowances|] == x.allowances;
    assert (x.adjustments + [Adjustment(rupees, false)])[..|x.adjustments|] == x.adjustments;
    assert (x.adjustments + [Adjustment(rupees, true)])[..|x.adjustments|] == x.adjustments;
  }

  // ---------- Loss of pay ----------

  lemma ScaleDown(a: real, k: real, j: real)
    requires a >= 0.0 && k <= j
    ensures a * k <= a * j
  {
    ProductOfNonNegatives(a, j - k);
    assert a * j == a * k + a * (j - k);
  }

  lemma RateIsNonNegative(x: PayInputs)
    requires x.payRate >= 0.0
    ensures ToPaise(x.payRate) >= 0
  {
    RoundMonotone(0.0, x.payRate * 100.0);
    RoundUnique(0.0, 0);
  }

  lemma BasicFallsWithLoss(x: PayInputs, c: PayConfig, more: real)
    requires Sensible(x, c) && x.payRate >= 0.0 && x.lopDays <= more
    ensures Basic(x.(lopDays := more), c) <= Basic(x, c)
  {
    hide ToPaise, Round, Salary;
    if x.payType == Monthly {
      RateIsNonNegative(x);
      SalaryFalls(ToPaise(x.payRate) as real, BasisDays(x, c), LossDays(x), LossDays(x.(lopDays := more)));
    }
  }

  lemma SalaryFalls(rate: real, basis: real, loss: real, more: real)
    requires rate >= 0.0 && basis > 0.0 && loss <= more
    ensures Salary(rate, basis, more) <= Salary(rate, basis, loss)
  {
    hide Round;
    QuotientOfNonNegatives(rate, basis);
    ScaleDown(rate / basis, loss, more);
    RoundMonotone(rate - rate / basis * more, rate - rate / basis * loss);
  }

  lemma QuotientOfNonNegatives(a: real, d: real)
    requires a >= 0.0 && d > 0.0
    ensures a / d >= 0.0
  {}

  lemma QuotientMonotone(a: real, b: real, d: real)
    requires a <= b && d > 0.0
    ensures a / d <= b / d
  {
    QuotientOfNonNegatives(b - a, d);
    assert b / d == a / d + (b - a) / d;
  }

  lemma {:induction false} AllowancesMonotone(amounts: seq<real>, k: real, j: real)
    requires k <= j && forall i :: 0 <= i < |amounts| ==> amounts[i] >= 0.0
    ensures Allowances(amounts, k) <= Allowances(amounts, j)
  {
    if amounts != [] {
      var n := |amounts| - 1;
      AllowancesMonotone(amounts[..n], k, j);
      AllowanceMonotone(amounts[n], k, j);
    }
  }

  lemma AllowanceMonotone(a: real, k: real, j: real)
    requires k <= j && a >= 0.0
    ensures Allowance(a, k) <= Allowance(a, j)
  {
    RoundMonotone(0.0, a * 100.0);
    RoundUnique(0.0, 0);
    hide Round;
    ScaledRoundMonotone(ToPaise(a), k, j);
  }

  lemma ScaledRoundMonotone(paise: int, k: real, j: real)
    requires paise >= 0 && k <= j
    ensures Round(paise as real * k) <= Round(paise as real * j)
  {
    hide Round;
    var p := paise as real;
    ScaleDown(p, k, j);
    RoundMonotone(p * k, p * j);
  }

  /** More loss-of-pay days never raise the gross, and take at least as much off the gross as off the salary. */
  lemma GrossFallsWithLoss(x: PayInputs, c: PayConfig, more: real)
    requires Sensible(x, c) && x.payRate >= 0.0 && x.lopDays <= more
    requires forall i :: 0 <= i < |x.allowances| ==> x.allowances[i] >= 0.0
    ensures Gross(x.(lopDays := more), c) <= Gross(x, c)
    ensures 0 <= Basic(x, c) - Basic(x.(lopDays := more), c) <= Gross(x, c) - Gross(x.(lopDays := more), c)
  {
    hide Basic, ToPaise, Round, Allowances, Adjustments;
    var y := x.(lopDays := more);
    BasicFallsWithLoss(x, c, more);
    assert OvertimePay(y, c) == OvertimePay(x, c);
    var a, b := Basic(y, c), Basic(x, c);
    assert AllowanceFactor(y, a) <= AllowanceFactor(x, b) by {
      if x.payType == Monthly && ToPaise(x.payRate) > 0 {
        QuotientMonotone(a as real, b as real, ToPaise(x.payRate) as real);
      }
    }
    AllowancesMonotone(x.allowances, AllowanceFactor(y, a), AllowanceFactor(x, b));
  }

  // ---------- How far the net can rise ----------

  lemma WholeRupeesNear(p: real, q: real)
    ensures (WholeRupee(p) - WholeRupee(q)) as real <= p - q + 100.0
  {}

  lemma PercentOfDifference(a: int, b: int, rate: real)
    ensures Percent(a, rate) - Percent(b, rate) == Percent(a - b, rate)
  {
    assert (a - b) as real * rate == a as real * rate - b as real * rate;
  }

  lemma PercentMonotone(a: int, b: int, rate: real)
    requires a <= b && rate >= 0.0
    ensures Percent(a, rate) <= Percent(b, rate)
  {
    ScaleDown(rate, a as real, b as real);
  }

  /** What is left of a wage after two rates. */
  lemma PercentsLeave(a: int, r: real, e: real)
    ensures a as real - Percent(a, r) - Percent(a, e) == Percent(a, 100.0 - r - e)
  {
    assert a as real * (100.0 - r - e) == a as real * 100.0 - a as real * r - a as real * e;
  }

  /** The rates that apply to an employee. */
  function PfRate(x: PayInputs, c: PayConfig): real {
    if c.pfEnabled && x.pfApplicable then c.pfEmployeeRate else 0.0
  }

  function EsiRate(x: PayInputs, c: PayConfig): real {
    if c.esiEnabled && x.esiApplicable then c.esiEmployeeRate else 0.0
  }

  lemma PfDrop(b: int, b': int, x: PayInputs, c: PayConfig)
    requires b' <= b && c.pfEmployeeRate >= 0.0
    ensures (Pf(b, x, c, c.pfEmployeeRate) - Pf(b', x, c, c.pfEmployeeRate)) as real
            <= Percent(b - b', PfRate(x, c)) + if c.pfEnabled && x.pfApplicable then 100.0 else 0.0
  {
    hide WholeRupee, Percent;
    var rate := c.pfEmployeeRate;
    var w, w' := PfWage(b, c), PfWage(b', c);
    PercentAtNothing(b - b');
    WholeRupeesNear(Percent(w, rate), Percent(w', rate));
    PercentOfDifference(w, w', rate);
    PercentMonotone(w - w', b - b', rate);
  }

  lemma PercentAtNothing(paise: int)
    ensures Percent(paise, 0.0) == 0.0
  {
    assert paise as real * 0.0 == 0.0;
  }

  lemma EsiDrop(g: int, g': int, x: PayInputs, c: PayConfig)
    requires g' <= g && c.esiEmployeeRate >= 0.0 && c.esiThreshold >= 0.0
    ensures (Esi(g, x, c, c.esiEmployeeRate) - Esi(g', x, c, c.esiEmployeeRate)) as real
            <= Percent(g - g', EsiRate(x, c)) + if c.esiEnabled && x.esiApplicable then 100.0 else 0.0
  {
    hide WholeRupee, Percent;
    var rate := c.esiEmployeeRate;
    PercentAtNothing(g - g');
    PercentMonotone(0, g - g', rate);
    PercentOfNothing(rate);
    if EsiDue(g, x, c) {
      WholeRupeesNear(Percent(g, rate), Percent(g', rate));
      PercentOfDifference(g, g', rate);
    } else if EsiDue(g', x, c) {
      assert g >= 0 by { RoundMonotone(0.0, c.esiThreshold * 100.0); }
      WholeRupeesNear(Percent(0, rate), Percent(g', rate));
      NoRupees();
      PercentOfDifference(0, g', rate);
      PercentMonotone(0 - g', g - g', rate);
    }
  }

  lemma NoRupees()
    ensures WholeRupee(0.0) == 0
  {
    RoundUnique(0.0, 0);
  }

  lemma PercentOfNothing(rate: real)
    ensures Percent(0, rate) == 0.0
  {
    assert 0.0 * rate == 0.0;
  }

  /** What the whole-rupee rounding of provident fund and insurance can move. */
  function Slack(x: PayInputs, c: PayConfig): int {
    (if c.pfEnabled && x.pfApplicable then 100 else 0) + (if c.esiEnabled && x.esiApplicable then 100 else 0)
  }

  /** The professional tax that falls away. */
  function TaxDrop(x: PayInputs, y: PayInputs, c: PayConfig): int
    requires Sensible(x, c) && Sensible(y, c)
  {
    ProfessionalTax(Gross(x, c), x, c) - ProfessionalTax(Gross(y, c), y, c)
  }

  /** What falls away of tax and rounding, less the part of the lost gross that was not contributed anyway. */
  function Rise(x: PayInputs, y: PayInputs, c: PayConfig): real
    requires Sensible(x, c) && Sensible(y, c)
  {
    (TaxDrop(x, y, c) + Slack(x, c)) as real - Percent(Gross(x, c) - Gross(y, c), 100.0 - PfRate(x, c) - EsiRate(x, c))
  }

  /**
   More loss-of-pay days raise the net by no more than `Rise`; so not at all once the gross falls enough,
   and, at rates of at most 100 percent together, never by more than the professional tax that falls away
   and one rupee of rounding for each of provident fund and insurance that applies.
   */
  lemma NetRiseIsBounded(x: PayInputs, c: PayConfig, more: real)
    requires Sensible(x, c) && x.payRate >= 0.0 && x.lopDays <= more
    requires forall i :: 0 <= i < |x.allowances| ==> x.allowances[i] >= 0.0
    requires c.pfEmployeeRate >= 0.0 && c.esiEmployeeRate >= 0.0 && c.esiThreshold >= 0.0
    ensures var y := x.(lopDays := more);
            && (Net(y, c) - Net(x, c)) as real <= MaxReal(0.0, Rise(x, y, c))
            && (PfRate(x, c) + EsiRate(x, c) <= 100.0 ==>
                  Net(y, c) <= Net(x, c) + Max(0, TaxDrop(x, y, c)) + Slack(x, c))
  {
    hide Basic, Gross, ToPaise, OtherDeductions, Pf, Esi, ProfessionalTax, Percent, PfRate, EsiRate;
    var y := x.(lopDays := more);
    GrossFallsWithLoss(x, c, more);
    OtherDeductionsIgnoreLoss(x, more);
    var b, b', g, g' := Basic(x, c), Basic(y, c), Gross(x, c), Gross(y, c);
    SameTaxes(b', g', x, y, c);
    PfDrop(b, b', x, c);
    EsiDrop(g, g', x, c);
    RatesAreNonNegative(x, c);
    PercentMonotone(b - b', g - g', PfRate(x, c));
    PercentsLeave(g - g', PfRate(x, c), EsiRate(x, c));
    if PfRate(x, c) + EsiRate(x, c) <= 100.0 {
      PercentMonotone(0, g - g', 100.0 - PfRate(x, c) - EsiRate(x, c));
      PercentOfNothing(100.0 - PfRate(x, c) - EsiRate(x, c));
    }
  }

  lemma RatesAreNonNegative(x: PayInputs, c: PayConfig)
    requires c.pfEmployeeRate >= 0.0 && c.esiEmployeeRate >= 0.0
    ensures PfRate(x, c) >= 0.0 && EsiRate(x, c) >= 0.0
  {}

  lemma SameTaxes(basic: int, gross: int, x: PayInputs, y: PayInputs, c: PayConfig)
    requires y == x.(lopDays := y.lopDays)
    ensures Pf(basic, y, c, c.pfEmployeeRate) == Pf(basic, x, c, c.pfEmployeeRate)
    ensures Esi(gross, y, c, c.esiEmployeeRate) == Esi(gross, x, c, c.esiEmployeeRate)
  {}

  lemma OtherDeductionsIgnoreLoss(x: PayInputs, more: real)
    ensures OtherDeductions(x.(lopDays := more)) == OtherDeductions(x)
  {}

  /** One employee on 11,900 rupees who pays 200 rupees of professional tax above a gross of 11,800. */
  function Employee(lopDays: real): PayInputs {
    PayInputs(
      Monthly, 11900.0, [], [], false, false, true, false, 30.0, 30.0 - lopDays, 0.0, lopDays, 0.0, 0.0, 0.0, [])
  }

  const TAXED := PayConfig(
    None, 8.0, 1.0, false, false, 0.0, 0.0, 0.0, false, 0.0, 0.0, 0.0, true,
    [Slab(Some(11800.0), 0.0), Slab(None, 200.0)])

  /** The net can rise: losing half a day drops a tax slab. */
  lemma NetCanRiseWithLoss()
    ensures Sensible(Employee(0.0), TAXED) && Sensible(Employee(0.5), TAXED)
    ensures Net(Employee(0.0), TAXED) == 1_170_000 && Net(Employee(0.5), TAXED) == 1_170_167
  {
    SlabFigures(Employee(0.0), 1_190_000);
    SlabFigures(Employee(0.5), 1_170_167);
  }

  lemma SlabFigures(x: PayInputs, basic: int)
    requires x == Employee(x.lopDays) && 0.0 <= x.lopDays <= 30.0 && basic >= 0
    requires basic as real - 0.5 <= 1_190_000.0 - 1_190_000.0 / 30.0 * x.lopDays < basic as real + 0.5
    ensures Net(x, TAXED) == basic - if basic <= 1_180_000 then 0 else 20_000
  {
    RoundUnique(1_190_000.0, 1_190_000);
    RoundUnique(1_180_000.0, 1_180_000);
    RoundUnique(20_000.0, 20_000);
    RoundUnique(0.0, 0);
    RoundUnique(1_190_000.0 - 1_190_000.0 / 30.0 * x.lopDays, basic);
    OvertimeOfNone(x);
    assert Gross(x, TAXED) == basic;
    assert TAXED.ptSlabs[1..] == [Slab(None, 200.0)];
    assert ToPaise(11800.0) == 1_180_000 && ToPaise(0.0) == 0 && ToPaise(200.0) == 20_000;
    assert SlabTax([Slab(None, 200.0)], basic) == 20_000;
    assert ProfessionalTax(basic, x, TAXED) == if basic <= 1_180_000 then 0 else 20_000;
    assert OtherDeductions(x) == 0;
    assert Fixed(x, TAXED) == ProfessionalTax(basic, x, TAXED);
  }

  /** One employee on 29.20 rupees who pays twelve percent to each of provident fund and insurance. */
  function Contributor(lopDays: real): PayInputs {
    PayInputs(
      Monthly, 29.2, [], [], true, true, false, false, 30.0, 30.0 - lopDays, 0.0, lopDays, 0.0, 0.0, 0.0, [])
  }

  const CONTRIBUTING := PayConfig(
    None, 8.0, 1.0, false, true, 12.0, 12.0, 0.0, true, 12.0, 12.0, 21000.0, false, [])

  /** Rounding alone can raise the net, and by more than a rupee: both contributions fall by one. */
  lemma RoundingCanRaiseNet()
    ensures Sensible(Contributor(0.0), CONTRIBUTING) && Sensible(Contributor(0.5), CONTRIBUTING)
    ensures Net(Contributor(0.0), CONTRIBUTING) == 2_120 && Net(Contributor(0.5), CONTRIBUTING) == 2_271
  {
    RoundUnique(3.504, 4);
    RoundUnique(3.4452, 3);
    ContributorFigures(Contributor(0.0), 2_920, 400);
    ContributorFigures(Contributor(0.5), 2_871, 300);
  }

  lemma ContributorFigures(x: PayInputs, basic: int, contribution: int)
    requires x == Contributor(x.lopDays) && 0.0 <= x.lopDays <= 30.0 && 0 <= basic <= 2_100_000
    requires basic as real - 0.5 <= 2_920.0 - 2_920.0 / 30.0 * x.lopDays < basic as real + 0.5
    requires WholeRupee(Percent(basic, 12.0)) == contribution
    ensures Net(x, CONTRIBUTING) == basic - 2 * contribution - Max(0, Min(0, basic - 2 * contribution))
  {
    RoundUnique(2_920.0, 2_920);
    RoundUnique(2_100_000.0, 2_100_000);
    RoundUnique(0.0, 0);
    RoundUnique(2_920.0 - 2_920.0 / 30.0 * x.lopDays, basic);
    assert HourlyPaise(x, CONTRIBUTING) * (0.0 / 60.0) == 0.0;
    hide WholeRupee, Percent;
    assert Basic(x, CONTRIBUTING) == basic && OvertimePay(x, CONTRIBUTING) == 0;
    assert Gross(x, CONTRIBUTING) == basic && OtherDeductions(x) == 0;
    assert PfWage(basic, CONTRIBUTING) == basic && EsiDue(basic, x, CONTRIBUTING);
  }

  lemma OvertimeOfNone(x: PayInputs)
    requires Sensible(x, TAXED) && !x.overtimeEligible
    ensures OvertimePay(x, TAXED) == 0
  {
    assert HourlyPaise(x, TAXED) * (0.0 / 60.0) == 0.0;
    RoundUnique(0.0, 0);
  }

  lemma {:induction false} FullAllowances(amounts: seq<real>)
    ensures Allowances(amounts, 1.0) == FullSum(amounts)
  {
    if amounts != [] {
      var n := |amounts| - 1;
      FullAllowances(amounts[..n]);
      assert ToPaise(amounts[n]) as real * 1.0 == ToPaise(amounts[n]) as real;
      RoundUnique(ToPaise(amounts[n]) as real * 1.0, ToPaise(amounts[n]));
    }
  }

  /** Without loss of pay, monthly staff on a positive salary get the whole salary and every allowance. */
  lemma NoLossPaysInFull(x: PayInputs, c: PayConfig)
    requires Sensible(x, c) && x.payType == Monthly && ToPaise(x.payRate) > 0 && x.lopDays == 0.0
    ensures Basic(x, c) == ToPaise(x.payRate)
    ensures Gross(x, c)
            == ToPaise(x.payRate) + OvertimePay(x, c) + FullSum(x.allowances) + Adjustments(x.adjustments, true)
  {
    hide ToPaise, Allowances, Adjustments, FullSum;
    var rate := ToPaise(x.payRate) as real;
    assert rate / BasisDays(x, c) * 0.0 == 0.0;
    RoundUnique(rate, ToPaise(x.payRate));
    assert AllowanceFactor(x, Basic(x, c)) == rate / rate == 1.0;
    FullAllowances(x.allowances);
  }

  /** Every allowance is paid to the paisa. */
  ghost predicate PaidInFull(x: PayInputs, c: PayConfig)
    requires Sensible(x, c)
  {
    forall i :: 0 <= i < |x.allowances| ==>
      Allowance(x.allowances[i], AllowanceFactor(x, Basic(x, c))) == ToPaise(x.allowances[i])
  }

  /**
   Without loss of pay, monthly staff get every allowance in full exactly when their salary is worth at
   least a paisa, or they have no allowance that is worth one.
   */
  lemma AllowancesPaidInFullIff(x: PayInputs, c: PayConfig)
    requires Sensible(x, c) && x.payType == Monthly && x.lopDays == 0.0
    ensures PaidInFull(x, c) <==>
              ToPaise(x.payRate) > 0 || forall i :: 0 <= i < |x.allowances| ==> ToPaise(x.allowances[i]) == 0
  {
    hide ToPaise, Basic, Sensible;
    if ToPaise(x.payRate) > 0 {
      NoLossPaysInFull(x, c);
      assert AllowanceFactor(x, Basic(x, c)) == 1.0 by { SelfQuotient(ToPaise(x.payRate)); }
      forall i | 0 <= i < |x.allowances|
        ensures Allowance(x.allowances[i], 1.0) == ToPaise(x.allowances[i])
      {
        RoundUnique(ToPaise(x.allowances[i]) as real * 1.0, ToPaise(x.allowances[i]));
      }
    } else {
      forall i | 0 <= i < |x.allowances|
        ensures Allowance(x.allowances[i], 0.0) == 0
      {
        RoundUnique(0.0, 0);
      }
    }
  }

  lemma SelfQuotient(n: int)
    requires n > 0
    ensures n as real / n as real == 1.0
  {}
}
