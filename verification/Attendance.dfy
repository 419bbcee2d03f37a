/**
 Attendance: one day's punches against a rostered shift, and a month of days rolled into payroll
 inputs.  Instants are milliseconds; the start and end of a shift are given as instants of its date.
 */
module Attendance {
  import opened Numbers
  import opened Sequences
  import opened Options

  datatype Shift = Shift(start: int, end: int, breakMinutes: int, graceMinutes: int)
  datatype Punch = Punch(clockIn: int, clockOut: Option<int>, breakMinutes: int)
  datatype Rules = Rules(halfDayMinutes: int, overtimeThresholdMinutes: int, standardDayMinutes: int)
  datatype DayStatus = Present | HalfDay | Absent | Off | StillOpen
  datatype Day = Day(status: DayStatus, worked: int, scheduled: int, late: int, earlyLeave: int, overtime: int)

  function Minutes(ms: int): int { ms / 60000 }

  /** A shift that ends at or before its start crosses midnight. */
  function ShiftEnd(s: Shift): int { if s.end <= s.start then s.end + 86400000 else s.end }

  function Scheduled(shift: Option<Shift>, rules: Rules): int {
    if shift.None? then rules.standardDayMinutes
    else Max(0, Minutes(ShiftEnd(shift.value) - shift.value.start) - shift.value.breakMinutes)
  }

  // ---------- What a day is, whatever the order of its punches ----------

  function WorkedOn(p: Punch): int {
    if p.clockOut.None? then 0 else Max(0, Minutes(p.clockOut.value - p.clockIn) - p.breakMinutes)
  }

  function Worked(ps: seq<Punch>): int {
    if ps == [] then 0 else Worked(ps[..|ps| - 1]) + WorkedOn(ps[|ps| - 1])
  }

  predicate AnyOpen(ps: seq<Punch>) {
    exists i :: 0 <= i < |ps| && ps[i].clockOut.None?
  }

  ghost predicate IsFirstIn(ps: seq<Punch>, t: int) {
    (exists p :: p in ps && p.clockIn == t) && forall p :: p in ps ==> t <= p.clockIn
  }

  ghost predicate IsLastOut(ps: seq<Punch>, t: int) {
    (exists p :: p in ps && p.clockOut == Some(t)) && forall p :: p in ps ==> p.clockOut.Some? && p.clockOut.value <= t
  }

  /** The result of a day, in terms of worked time, first arrival and last departure. */
  ghost predicate IsDay(shift: Option<Shift>, ps: seq<Punch>, rules: Rules, d: Day) {
    var scheduled := Scheduled(shift, rules);
    if ps == [] then d == Day(if shift.Some? then Absent else Off, 0, scheduled, 0, 0, 0)
    else
      var worked := Worked(ps);
      && d.worked == worked && d.scheduled == scheduled
      && d.status == (if AnyOpen(ps) then StillOpen else if worked < rules.halfDayMinutes then HalfDay else Present)
      && d.overtime == (if worked - scheduled >= rules.overtimeThresholdMinutes then worked - scheduled else 0)
      && (shift.None? ==> d.late == 0 && d.earlyLeave == 0)
      && (shift.Some? ==>
            && (exists first :: IsFirstIn(ps, first) && d.late == LateBy(first, shift.value))
            && (if AnyOpen(ps) then d.earlyLeave == 0
                else exists last ::
                       IsLastOut(ps, last) && d.earlyLeave == Max(0, Minutes(ShiftEnd(shift.value) - last))))
  }

  function LateBy(first: int, s: Shift): int {
    var behind := Minutes(first - s.start);
    if behind > s.graceMinutes then behind else 0
  }

  /** `minutes` whole minutes fit into the time, and not one more. */
  predicate WholeMinutes(minutes: int, ms: int) {
    60_000 * minutes <= ms < 60_000 * (minutes + 1)
  }

  /**
   A punch without a clock-out counts nothing.  Any other counts the whole minutes from arrival to
   departure, less the break, and nothing if the break is longer.
   */
  lemma PunchCounts(p: Punch)
    ensures p.clockOut.None? ==> WorkedOn(p) == 0
    ensures p.clockOut.Some? && WorkedOn(p) > 0 ==>
              WholeMinutes(WorkedOn(p) + p.breakMinutes, p.clockOut.value - p.clockIn)
    ensures p.clockOut.Some? && WorkedOn(p) <= 0 ==>
              WorkedOn(p) == 0 && p.clockOut.value - p.clockIn < 60_000 * (p.breakMinutes + 1)
  {}

  /** The shift ends after it starts, at its end time that day or, if that is no later, a day later. */
  lemma ShiftSpan(s: Shift)
    requires -86_400_000 < s.end - s.start < 86_400_000
    ensures 0 < ShiftEnd(s) - s.start <= 86_400_000
    ensures ShiftEnd(s) == s.end || ShiftEnd(s) == s.end + 24 * 3_600_000
  {}

  /** The scheduled minutes are those of the shift without its break, or of a standard day without a shift. */
  lemma ScheduleIsShift(shift: Option<Shift>, rules: Rules)
    ensures shift.None? ==> Scheduled(shift, rules) == rules.standardDayMinutes
    ensures shift.Some? && Scheduled(shift, rules) > 0 ==>
              WholeMinutes(Scheduled(shift, rules) + shift.value.breakMinutes,
                           ShiftEnd(shift.value) - shift.value.start)
    ensures shift.Some? && Scheduled(shift, rules) <= 0 ==>
              Scheduled(shift, rules) == 0
              && ShiftEnd(shift.value) - shift.value.start < 60_000 * (shift.value.breakMinutes + 1)
  {}

  /** An arrival is late by its whole minutes after the start of the shift, once they are more than the grace. */
  lemma LateBeyondGrace(first: int, s: Shift)
    requires s.graceMinutes >= 0
    ensures LateBy(first, s) > 0 <==> first - s.start >= 60_000 * (s.graceMinutes + 1)
    ensures LateBy(first, s) > 0 ==> WholeMinutes(LateBy(first, s), first - s.start)
    ensures LateBy(first, s) >= 0
  {}

  /** A day's worked time adds up over its punches. */
  lemma WorkedAddsUp(ps: seq<Punch>, p: Punch)
    ensures Worked(ps + [p]) == Worked(ps) + WorkedOn(p) && Worked([]) == 0
  {
    assert (ps + [p])[..|ps|] == ps;
  }

  // ---------- The order of punches ----------

  lemma {:induction false} WorkedConcat(a: seq<Punch>, b: seq<Punch>)
    ensures Worked(a + b) == Worked(a) + Worked(b)
  {
    if b == [] {
      assert a + b == a;
    } else {
      assert (a + b)[..|a + b| - 1] == a + b[..|b| - 1];
      WorkedConcat(a, b[..|b| - 1]);
    }
  }

  lemma WorkedRotates(a: seq<Punch>, x: Punch, b: seq<Punch>)
    ensures Worked(a + [x] + b) == Worked([x] + (a + b))
  {
    hide Worked;
    WorkedConcat(a + [x], b);
    WorkedConcat(a, [x]);
    WorkedConcat([x], a + b);
    WorkedConcat(a, b);
  }

  lemma {:induction false} WorkedOfPermutation(a: seq<Punch>, b: seq<Punch>)
    requires multiset(a) == multiset(b)
    ensures Worked(a) == Worked(b)
  {
    hide Worked;
    if a == [] {
      assert |multiset(b)| == 0;
    } else {
      var x := a[0];
      assert x in multiset(b);
      var i :| 0 <= i < |b| && b[i] == x;
      var rest := b[..i] + b[i + 1..];
      assert b == b[..i] + [x] + b[i + 1..];
      assert a == [x] + a[1..];
      assert multiset(a[1..]) == multiset(rest) by { RestOfPermutation(a, b, i); }
      WorkedOfPermutation(a[1..], rest);
      WorkedRotates(b[..i], x, b[i + 1..]);
      WorkedConcat([x], a[1..]);
      WorkedConcat([x], rest);
    }
  }

  lemma SameMembers(a: seq<Punch>, b: seq<Punch>)
    requires multiset(a) == multiset(b)
    ensures forall p :: p in a <==> p in b
    ensures |a| == |b|
  {
    forall p
      ensures p in a <==> p in b
    {
      assert p in a <==> p in multiset(a);
      assert p in b <==> p in multiset(b);
    }
    assert |multiset(a)| == |a| && |multiset(b)| == |b|;
  }

  /** A day has one result, and the order of its punches does not matter. */
  lemma PunchOrderIsIrrelevant(shift: Option<Shift>, a: seq<Punch>, b: seq<Punch>, rules: Rules, d: Day, e: Day)
    requires multiset(a) == multiset(b) && IsDay(shift, a, rules, d) && IsDay(shift, b, rules, e)
    ensures d == e
  {
    hide Worked, Scheduled, Minutes, ShiftEnd;
    SameMembers(a, b);
    WorkedOfPermutation(a, b);
    if a != [] {
      SameOpen(a, b);
      if shift.Some? {
        var f :| IsFirstIn(a, f) && d.late == LateBy(f, shift.value);
        var g :| IsFirstIn(b, g) && e.late == LateBy(g, shift.value);
        FirstInIsUnique(a, b, f, g);
        if !AnyOpen(a) {
          var l :| IsLastOut(a, l) && d.earlyLeave == Max(0, Minutes(ShiftEnd(shift.value) - l));
          var m :| IsLastOut(b, m) && e.earlyLeave == Max(0, Minutes(ShiftEnd(shift.value) - m));
          LastOutIsUnique(a, b, l, m);
        }
      }
    }
  }

  lemma SameOpen(a: seq<Punch>, b: seq<Punch>)
    requires forall p :: p in a <==> p in b
    ensures AnyOpen(a) <==> AnyOpen(b)
  {
    if i :| 0 <= i < |a| && a[i].clockOut.None? {
      assert a[i] in b;
    }
    if i :| 0 <= i < |b| && b[i].clockOut.None? {
      assert b[i] in a;
    }
  }

  lemma FirstInIsUnique(a: seq<Punch>, b: seq<Punch>, f: int, g: int)
    requires (forall p :: p in a <==> p in b) && IsFirstIn(a, f) && IsFirstIn(b, g)
    ensures f == g
  {}

  lemma LastOutIsUnique(a: seq<Punch>, b: seq<Punch>, f: int, g: int)
    requires (forall p :: p in a <==> p in b) && IsLastOut(a, f) && IsLastOut(b, g)
    ensures f == g
  {}

  // ---------- The day's loop ----------

  predicate ByArrival(ps: seq<Punch>) {
    forall i, j :: 0 <= i < j < |ps| ==> ps[i].clockIn <= ps[j].clockIn
  }

  method InsertPunch(sorted: seq<Punch>, p: Punch) returns (r: seq<Punch>)
    requires ByArrival(sorted)
    ensures ByArrival(r) && multiset(r) == multiset(sorted) + multiset{p}
  {
    hide ByArrival;
    var k := |sorted|;
    while k > 0 && sorted[k - 1].clockIn > p.clockIn
      invariant 0 <= k <= |sorted|
      invariant forall a :: k <= a < |sorted| ==> sorted[a].clockIn > p.clockIn
    {
      k := k - 1;
    }
    r := sorted[..k] + [p] + sorted[k..];
    InsertedInPlace(sorted, p, k);
    InsertedMembers(sorted, p, k);
  }

  lemma InsertedMembers(sorted: seq<Punch>, p: Punch, k: nat)
    requires k <= |sorted|
    ensures multiset(sorted[..k] + [p] + sorted[k..]) == multiset(sorted) + multiset{p}
  {
    assert sorted == sorted[..k] + sorted[k..];
  }

  lemma InsertedInPlace(sorted: seq<Punch>, p: Punch, k: nat)
    requires ByArrival(sorted) && k <= |sorted|
    requires k > 0 ==> sorted[k - 1].clockIn <= p.clockIn
    requires forall a :: k <= a < |sorted| ==> sorted[a].clockIn > p.clockIn
    ensures ByArrival(sorted[..k] + [p] + sorted[k..])
  {
    var r := sorted[..k] + [p] + sorted[k..];
    assert forall i :: 0 <= i < k ==> r[i] == sorted[i];
    assert r[k] == p;
    assert forall i :: k < i < |r| ==> r[i] == sorted[i - 1];
    assert forall i :: 0 <= i < k ==> r[i].clockIn <= p.clockIn;
  }

  method SortPunches(ps: seq<Punch>) returns (sorted: seq<Punch>)
    ensures ByArrival(sorted) && multiset(sorted) == multiset(ps)
  {
    hide ByArrival;
    sorted := [];
    assert ByArrival(sorted) by { NothingIsSorted(); }
    var i := 0;
    while i < |ps|
      invariant 0 <= i <= |ps| && multiset(sorted) == multiset(ps[..i]) && ByArrival(sorted)
    {
      assert ps[..i + 1] == ps[..i] + [ps[i]];
      sorted := InsertPunch(sorted, ps[i]);
      i := i + 1;
    }
    assert ps[..i] == ps;
  }

  lemma NothingIsSorted()
    ensures ByArrival([])
  {}

  method SumWorked(ps: seq<Punch>) returns (worked: int)
    ensures worked == Worked(ps)
  {
    worked := 0;
    var i := 0;
    while i < |ps|
      invariant 0 <= i <= |ps| && worked == Worked(ps[..i])
    {
      assert ps[..i + 1][..i] == ps[..i];
      if ps[i].clockOut.Some? {
        worked := worked + Max(0, Minutes(ps[i].clockOut.value - ps[i].clockIn) - ps[i].breakMinutes);
      }
      i := i + 1;
    }
    assert ps[..i] == ps;
  }

  method LastOut(ps: seq<Punch>) returns (last: int)
    requires ps != [] && !AnyOpen(ps)
    ensures IsLastOut(ps, last)
  {
    last := ps[0].clockOut.value;
    var i := 1;
    ghost var who := ps[0];
    while i < |ps|
      invariant 1 <= i <= |ps| && who in ps && who.clockOut == Some(last)
      invariant forall j :: 0 <= j < i ==> ps[j].clockOut.Some? && ps[j].clockOut.value <= last
    {
      if ps[i].clockOut.value > last {
        last := ps[i].clockOut.value;
        who := ps[i];
      }
      i := i + 1;
    }
  }

  method ComputeDayAttendance(shift: Option<Shift>, punches: seq<Punch>, rules: Rules) returns (d: Day)
    ensures IsDay(shift, punches, rules, d)
  {
    hide Worked, Minutes, ShiftEnd, LateBy;
    var scheduled := Scheduled(shift, rules);
    if punches == [] {
      return Day(if shift.Some? then Absent else Off, 0, scheduled, 0, 0, 0);
    }
    var sorted := SortPunches(punches);
    SameMembers(sorted, punches);
    SameOpen(sorted, punches);
    WorkedOfPermutation(sorted, punches);
    var worked := SumWorked(sorted);
    var open := exists i :: 0 <= i < |sorted| && sorted[i].clockOut.None?;
    var late, early := 0, 0;
    if shift.Some? {
      late := LateBy(sorted[0].clockIn, shift.value);
      assert IsFirstIn(punches, sorted[0].clockIn) by {
        assert sorted[0] in punches;
      }
      if !open {
        var last := LastOut(sorted);
        assert IsLastOut(punches, last);
        early := Max(0, Minutes(ShiftEnd(shift.value) - last));
      }
    }
    var extra := worked - scheduled;
    var overtime := if extra >= rules.overtimeThresholdMinutes then extra else 0;
    var status := if open then StillOpen else if worked < rules.halfDayMinutes then HalfDay else Present;
    d := Day(status, worked, scheduled, late, early, overtime);
  }

  // ---------- A month ----------

  datatype Leave = Leave(paid: bool, fraction: real)
  datatype MonthDay = MonthDay(employed: bool, shift: Option<Shift>, punches: seq<Punch>, leave: Option<Leave>)
  datatype Summary = Summary(
    present: real, absent: real, paidLeave: real, unpaidLeave: real, lop: real,
    worked: int, overtime: int, lateDays: int, lateMinutes: int)

  const NOTHING := Summary(0.0, 0.0, 0.0, 0.0, 0.0, 0, 0, 0, 0)

  function Attended(s: DayStatus): real {
    match s
    case Present => 1.0
    case StillOpen => 1.0
    case HalfDay => 0.5
    case _ => 0.0
  }

  /** What one day adds to the month, given its attendance. */
  function AddDay(s: Summary, m: MonthDay, d: Day): Summary {
    if !m.employed then s.(lop := s.lop + 1.0)
    else
      var attended := Attended(d.status);
      var t := s.(present := s.present + attended, worked := s.worked + d.worked, overtime := s.overtime + d.overtime,
                  lateDays := s.lateDays + (if d.late > 0 then 1 else 0),
                  lateMinutes := s.lateMinutes + (if d.late > 0 then d.late else 0));
      var paid := if m.leave.Some? && m.leave.value.paid then m.leave.value.fraction else 0.0;
      var unpaid := if m.leave.Some? && !m.leave.value.paid then m.leave.value.fraction else 0.0;
      if m.shift.None? then t
      else
        var usedPaid := MinReal(paid, 1.0 - attended);
        var uncovered := 1.0 - attended - usedPaid;
        t.(paidLeave := t.paidLeave + usedPaid, unpaidLeave := t.unpaidLeave + MinReal(unpaid, uncovered),
           lop := t.lop + uncovered, absent := t.absent + MaxReal(0.0, uncovered - unpaid))
  }

  function Roll(days: seq<MonthDay>, results: seq<Day>): Summary
    requires |days| == |results|
  {
    if days == [] then NOTHING
    else
      var n := |days| - 1;
      AddDay(Roll(days[..n], results[..n]), days[n], results[n])
  }

  function Unemployed(days: seq<MonthDay>): nat {
    if days == [] then 0 else Unemployed(days[..|days| - 1]) + if days[|days| - 1].employed then 0 else 1
  }

  function Rostered(days: seq<MonthDay>): nat {
    if days == [] then 0
    else Rostered(days[..|days| - 1]) + if days[|days| - 1].employed && days[|days| - 1].shift.Some? then 1 else 0
  }

  function RosteredPresence(days: seq<MonthDay>, results: seq<Day>): real
    requires |days| == |results|
  {
    if days == [] then 0.0
    else
      var n := |days| - 1;
      RosteredPresence(days[..n], results[..n])
      + if days[n].employed && days[n].shift.Some? then Attended(results[n].status) else 0.0
  }

  /** The days of employment that have some property. */
  function DaysWith(days: seq<MonthDay>, results: seq<Day>, p: Day -> bool): set<nat>
    requires |days| == |results|
  {
    set i: nat | i < |days| && days[i].employed && p(results[i])
  }

  lemma DaysWithGrow(days: seq<MonthDay>, results: seq<Day>, p: Day -> bool)
    requires |days| == |results| && days != []
    ensures var n := |days| - 1;
            |DaysWith(days, results, p)|
            == |DaysWith(days[..n], results[..n], p)| + if days[n].employed && p(results[n]) then 1 else 0
  {
    var n := |days| - 1;
    var before := DaysWith(days[..n], results[..n], p);
    assert DaysWith(days, results, p) == if days[n].employed && p(results[n]) then before + {n} else before;
  }

  /** The sum of some figure over the days of employment. */
  function SumOver(days: seq<MonthDay>, figures: seq<int>): int
    requires |days| == |figures|
  {
    if days == [] then 0
    else
      var n := |days| - 1;
      SumOver(days[..n], figures[..n]) + if days[n].employed then figures[n] else 0
  }

  /**
   Presence counts each full or still open day as one and each half day as a half; worked and overtime
   minutes are summed over the days of employment, and late minutes over the late ones of them.
   */
  lemma {:induction false} MonthCounts(
    days: seq<MonthDay>, results: seq<Day>, worked: seq<int>, overtime: seq<int>, late: seq<int>)
    requires |days| == |results| == |worked| == |overtime| == |late|
    requires forall i :: 0 <= i < |days| ==> worked[i] == results[i].worked && overtime[i] == results[i].overtime
    requires forall i :: 0 <= i < |days| ==> late[i] == if results[i].late > 0 then results[i].late else 0
    ensures var s := Roll(days, results);
            && s.present == |DaysWith(days, results, (d: Day) => d.status in {Present, StillOpen})| as real
                            + |DaysWith(days, results, (d: Day) => d.status == HalfDay)| as real / 2.0
            && s.worked == SumOver(days, worked) && s.overtime == SumOver(days, overtime)
            && s.lateMinutes == SumOver(days, late)
            && s.lateDays == |DaysWith(days, results, (d: Day) => d.late > 0)|
  {
    if days == [] {
      assert DaysWith(days, results, (d: Day) => d.status in {Present, StillOpen}) == {};
      assert DaysWith(days, results, (d: Day) => d.status == HalfDay) == {};
      assert DaysWith(days, results, (d: Day) => d.late > 0) == {};
    } else {
      hide DaysWith;
      var n := |days| - 1;
      MonthCounts(days[..n], results[..n], worked[..n], overtime[..n], late[..n]);
      DaysWithGrow(days, results, (d: Day) => d.status in {Present, StillOpen});
      DaysWithGrow(days, results, (d: Day) => d.status == HalfDay);
      DaysWithGrow(days, results, (d: Day) => d.late > 0);
    }
  }

  /**
   What a rostered day of employment that is not fully attended costs: paid leave covers what it can,
   unpaid leave as much of the rest as it can, and only what neither covers is absence.
   */
  lemma LeaveCoversFirst(s: Summary, m: MonthDay, d: Day)
    requires m.employed && m.shift.Some? && (m.leave.Some? ==> m.leave.value.fraction >= 0.0)
    ensures var t := AddDay(s, m, d);
            var missed := match d.status case HalfDay => 0.5 case Absent => 1.0 case Off => 1.0 case _ => 0.0;
            var paid, unpaid, absent := t.paidLeave - s.paidLeave, t.unpaidLeave - s.unpaidLeave, t.absent - s.absent;
            && paid + unpaid + absent == missed && t.lop - s.lop == unpaid + absent
            && paid >= 0.0 && unpaid >= 0.0 && absent >= 0.0
            && (m.leave.None? ==> paid == 0.0 && unpaid == 0.0)
            && (m.leave.Some? && m.leave.value.paid ==>
                  unpaid == 0.0 && paid <= m.leave.value.fraction && (absent > 0.0 ==> paid == m.leave.value.fraction))
            && (m.leave.Some? && !m.leave.value.paid ==>
                  paid == 0.0 && unpaid <= m.leave.value.fraction
                  && (absent > 0.0 ==> unpaid == m.leave.value.fraction))
  {}

  /** A day outside employment is loss of pay and nothing else; a day off without a shift costs nothing. */
  lemma OtherDays(s: Summary, m: MonthDay, d: Day)
    requires !m.employed || m.shift.None?
    ensures !m.employed ==> AddDay(s, m, d) == s.(lop := s.lop + 1.0)
    ensures m.employed ==>
              var t := AddDay(s, m, d);
              (t.lop, t.absent, t.paidLeave, t.unpaidLeave) == (s.lop, s.absent, s.paidLeave, s.unpaidLeave)
  {}

  predicate LeavesOk(days: seq<MonthDay>) {
    forall i :: 0 <= i < |days| && days[i].leave.Some? ==> days[i].leave.value.fraction >= 0.0
  }

  lemma {:induction false} CountsFit(days: seq<MonthDay>)
    ensures Unemployed(days) + Rostered(days) <= |days|
  {
    if days != [] {
      CountsFit(days[..|days| - 1]);
    }
  }

  /**
   Over any month, loss of pay is the unemployed days plus unpaid leave plus absence; and on rostered
   days presence, paid leave and loss of pay add up to the number of such days.
   */
  lemma {:induction false} MonthBalances(days: seq<MonthDay>, results: seq<Day>)
    requires |days| == |results| && LeavesOk(days)
    ensures var s := Roll(days, results);
            && s.lop == Unemployed(days) as real + s.unpaidLeave + s.absent
            && RosteredPresence(days, results) + s.paidLeave + (s.lop - Unemployed(days) as real)
               == Rostered(days) as real
            && s.absent >= 0.0 && s.unpaidLeave >= 0.0 && s.paidLeave >= 0.0 && RosteredPresence(days, results) >= 0.0
  {
    if days != [] {
      var n := |days| - 1;
      assert LeavesOk(days[..n]);
      MonthBalances(days[..n], results[..n]);
    }
  }

  lemma LossOfPayIsBounded(days: seq<MonthDay>, results: seq<Day>)
    requires |days| == |results| && LeavesOk(days)
    ensures 0.0 <= Roll(days, results).lop <= |days| as real
  {
    hide Roll;
    MonthBalances(days, results);
    CountsFit(days);
  }

  /** Each rostered day was evaluated by its own punches; days outside employment are not looked at. */
  ghost predicate Evaluated(days: seq<MonthDay>, results: seq<Day>, rules: Rules) {
    && |days| == |results|
    && forall i :: 0 <= i < |days| && days[i].employed ==> IsDay(days[i].shift, days[i].punches, rules, results[i])
  }

  method SummariseMonth(days: seq<MonthDay>, rules: Rules) returns (s: Summary, ghost results: seq<Day>)
    ensures Evaluated(days, results, rules) && s == Roll(days, results)
    ensures LeavesOk(days) ==>
              0.0 <= s.lop <= |days| as real && s.lop == Unemployed(days) as real + s.unpaidLeave + s.absent
  {
    hide IsDay;
    s, results := NOTHING, [];
    var i := 0;
    while i < |days|
      invariant 0 <= i <= |days| && |results| == i
      invariant forall j :: 0 <= j < i && days[j].employed ==> IsDay(days[j].shift, days[j].punches, rules, results[j])
      invariant s == Roll(days[..i], results)
    {
      var m := days[i];
      var d := Day(Off, 0, 0, 0, 0, 0);
      if m.employed {
        d := ComputeDayAttendance(m.shift, m.punches, rules);
      }
      assert days[..i + 1][..i] == days[..i] && (results + [d])[..i] == results;
      s := AddDay(s, m, d);
      results := results + [d];
      i := i + 1;
    }
    assert days[..i] == days;
    if LeavesOk(days) {
      MonthBalances(days, results);
      LossOfPayIsBounded(days, results);
    }
  }
}
