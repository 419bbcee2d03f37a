/**
 Demand forecasting: weekday indices against a centred seven-day average, shrunk towards one, then
 Holt smoothing with a damped trend on the de-seasonalised series.
 */
module Forecast {
  import opened Numbers

  datatype Options = Options(alpha: real, beta: real, phi: real, shrink: real)
  datatype Model = Model(level: real, trend: real, phi: real, seasonal: seq<real>)

  const ONES: seq<real> := [1.0, 1.0, 1.0, 1.0, 1.0, 1.0, 1.0]
  const ZEROS: seq<real> := [0.0, 0.0, 0.0, 0.0, 0.0, 0.0, 0.0]
  const FLOOR: real := 0.05

  predicate NonNegative(s: seq<real>) { forall i :: 0 <= i < |s| ==> s[i] >= 0.0 }

  // ---------- Weekday indices ----------

  function Weekday(firstDow: nat, i: nat): (d: nat)
    ensures d < 7
  {
    (firstDow + i) % 7
  }

  /** The centred seven-day average. */
  function Centred(h: seq<real>, i: nat): real
    requires 3 <= i && i + 3 < |h|
  {
    Total(h[i - 3..i + 4]) / 7.0
  }

  /** A day's demand against the average around it. */
  function Ratio(x: real, average: real): real
    requires average > 0.0
  {
    x / average
  }

  /** Per weekday, the sum and the number of ratios seen so far. */
  datatype Tally = Tally(sums: seq<real>, counts: seq<real>)

  predicate WellFormed(t: Tally) {
    |t.sums| == 7 && |t.counts| == 7 && NonNegative(t.sums) && NonNegative(t.counts)
  }

  function Count(t: Tally, d: nat, ratio: real): Tally
    requires |t.sums| == 7 && |t.counts| == 7 && d < 7
  {
    Tally(t.sums[d := t.sums[d] + ratio], t.counts[d := t.counts[d] + 1.0])
  }

  function TallyOf(h: seq<real>, firstDow: nat, m: nat): (t: Tally)
    requires 3 <= m && (m == 3 || m + 3 <= |h|)
    ensures |t.sums| == 7 && |t.counts| == 7
  {
    if m == 3 then Tally(ZEROS, ZEROS)
    else
      var before := TallyOf(h, firstDow, m - 1);
      if Centred(h, m - 1) <= 0.0 then before
      else Count(before, Weekday(firstDow, m - 1), Ratio(h[m - 1], Centred(h, m - 1)))
  }

  /** How far the tally runs: no day without three neighbours on each side. */
  function Limit(n: nat): (m: nat)
    ensures 3 <= m && (m == 3 || m + 3 <= n)
  {
    if n <= 6 then 3 else n - 3
  }

  function Shrunk(sum: real, count: real, shrink: real): real
    requires count + shrink != 0.0
  {
    var raw := if count != 0.0 then sum / count else 1.0;
    (count * raw + shrink) / (count + shrink)
  }

  /** No index divides by nothing. */
  predicate Divides(t: Tally, shrink: real) {
    |t.sums| == 7 && |t.counts| == 7 && forall d :: 0 <= d < 7 ==> t.counts[d] + shrink != 0.0
  }

  function ShrunkAll(t: Tally, shrink: real): (r: seq<real>)
    requires Divides(t, shrink)
    ensures |r| == 7
  {
    seq(7, d requires 0 <= d < 7 => Shrunk(t.sums[d], t.counts[d], shrink))
  }

  /** The indices relative to their mean. */
  function Relative(s: seq<real>): (r: seq<real>)
    requires |s| == 7 && Total(s) != 0.0
    ensures |r| == 7 && forall d :: 0 <= d < 7 ==> r[d] == s[d] / (Total(s) / 7.0)
  {
    seq(7, d requires 0 <= d < 7 => s[d] / (Total(s) / 7.0))
  }

  function Floored(s: seq<real>): (r: seq<real>)
    ensures |r| == |s| && forall d :: 0 <= d < |s| ==> r[d] == MaxReal(s[d], FLOOR)
  {
    seq(|s|, d requires 0 <= d < |s| => MaxReal(s[d], FLOOR))
  }

  // ---------- Smoothing ----------

  function Deseasonalised(h: seq<real>, firstDow: nat, seasonal: seq<real>): (r: seq<real>)
    requires |seasonal| == 7 && forall d :: 0 <= d < 7 ==> seasonal[d] >= FLOOR
    ensures |r| == |h|
    ensures forall i :: 0 <= i < |h| ==> r[i] == h[i] / seasonal[Weekday(firstDow, i)]
  {
    seq(|h|, i requires 0 <= i < |h| => h[i] / seasonal[Weekday(firstDow, i)])
  }

  function NextLevel(o: Options, d: real, level: real, trend: real): real {
    o.alpha * d + (1.0 - o.alpha) * (level + o.phi * trend)
  }

  function NextTrend(o: Options, next: real, level: real, trend: real): real {
    o.beta * (next - level) + (1.0 - o.beta) * o.phi * trend
  }

  /** Level and trend after the first `m` days. */
  function Smooth(de: seq<real>, o: Options, m: nat): (real, real)
    requires 1 <= m <= |de|
  {
    if m == 1 then (de[0], 0.0)
    else
      var (level, trend) := Smooth(de, o, m - 1);
      var next := NextLevel(o, de[m - 1], level, trend);
      (next, NextTrend(o, next, level, trend))
  }

  // ---------- Fitting ----------

  /** The tally is well formed and its shrunk indices sum to something positive. */
  lemma {:induction false} TallyIsWellFormed(h: seq<real>, firstDow: nat, m: nat)
    requires NonNegative(h) && 3 <= m && (m == 3 || m + 3 <= |h|)
    ensures WellFormed(TallyOf(h, firstDow, m))
  {
    if m > 3 {
      TallyIsWellFormed(h, firstDow, m - 1);
      if Centred(h, m - 1) > 0.0 {
        QuotientSign(h[m - 1], Centred(h, m - 1));
      }
    }
  }

  lemma QuotientSign(x: real, y: real)
    requires x >= 0.0 && y > 0.0
    ensures x / y >= 0.0
  {}

  lemma ShrunkIsPositive(sum: real, count: real, shrink: real)
    requires sum >= 0.0 && count >= 0.0 && shrink > 0.0
    ensures Shrunk(sum, count, shrink) > 0.0
  {
    if count != 0.0 {
      assert count * (sum / count) == sum;
    }
    PositiveQuotient((if count != 0.0 then sum else 0.0) + shrink, count + shrink);
  }

  lemma PositiveQuotient(x: real, y: real)
    requires x > 0.0 && y > 0.0
    ensures x / y > 0.0
  {}

  lemma {:induction false} TotalOfPositives(s: seq<real>)
    requires forall i :: 0 <= i < |s| ==> s[i] > 0.0
    ensures Total(s) >= 0.0 && (s != [] ==> Total(s) > 0.0)
  {
    if s != [] {
      TotalOfPositives(s[..|s| - 1]);
    }
  }

  lemma IndicesSumPositive(t: Tally, shrink: real)
    requires WellFormed(t) && shrink > 0.0
    ensures Divides(t, shrink) && Total(ShrunkAll(t, shrink)) > 0.0
  {
    var s := ShrunkAll(t, shrink);
    forall d | 0 <= d < 7
      ensures s[d] > 0.0
    {
      ShrunkIsPositive(t.sums[d], t.counts[d], shrink);
    }
    TotalOfPositives(s);
  }

  /** The weekday indices can be computed without dividing by zero. */
  ghost predicate Computable(h: seq<real>, firstDow: nat, shrink: real) {
    var t := TallyOf(h, firstDow, Limit(|h|));
    Divides(t, shrink) && Total(ShrunkAll(t, shrink)) != 0.0
  }

  /** The indices of a history before the floor is applied. */
  function Indices(h: seq<real>, firstDow: nat, shrink: real): (r: seq<real>)
    requires Computable(h, firstDow, shrink)
    ensures |r| == 7
  {
    Relative(ShrunkAll(TallyOf(h, firstDow, Limit(|h|)), shrink))
  }

  function Seasonal(h: seq<real>, firstDow: nat, shrink: real): (r: seq<real>)
    requires Computable(h, firstDow, shrink)
    ensures |r| == 7 && forall d :: 0 <= d < 7 ==> r[d] >= FLOOR
  {
    Floored(Indices(h, firstDow, shrink))
  }

  /** There is nothing to fit: no history, or no demand on average. */
  predicate Flat(h: seq<real>) {
    h == [] || Total(h) / |h| as real <= 0.0
  }

  /** The source computes a number and not the result of a division by zero. */
  ghost predicate Fittable(h: seq<real>, firstDow: nat, o: Options) {
    Flat(h) || Computable(h, firstDow, o.shrink)
  }

  /** Demand without negative days and a positive shrinkage always fit. */
  lemma DemandIsFittable(h: seq<real>, firstDow: nat, o: Options)
    requires NonNegative(h) && o.shrink > 0.0
    ensures Fittable(h, firstDow, o)
  {
    hide TallyOf, Total;
    TallyIsWellFormed(h, firstDow, Limit(|h|));
    IndicesSumPositive(TallyOf(h, firstDow, Limit(|h|)), o.shrink);
  }

  function Fit(h: seq<real>, firstDow: nat, o: Options): (m: Model)
    requires Fittable(h, firstDow, o)
    ensures |m.seasonal| == 7
  {
    if Flat(h) then Model(0.0, 0.0, o.phi, ONES)
    else
      var seasonal := Seasonal(h, firstDow, o.shrink);
      var (level, trend) := Smooth(Deseasonalised(h, firstDow, seasonal), o, |h|);
      Model(level, trend, o.phi, seasonal)
  }

  // ---------- Projecting ----------

  function Power(phi: real, k: nat): real {
    if k == 0 then 1.0 else Power(phi, k - 1) * phi
  }

  /** phi + phi^2 + ... + phi^k. */
  function Damping(phi: real, k: nat): real {
    if k == 0 then 0.0 else Damping(phi, k - 1) + Power(phi, k)
  }

  function Projected(level: real, trend: real, damp: real, index: real): real {
    MaxReal(0.0, (level + damp * trend) * index)
  }

  function ProjectDay(m: Model, startDow: nat, k: nat): real
    requires |m.seasonal| == 7 && k >= 1
  {
    Projected(m.level, m.trend, Damping(m.phi, k), m.seasonal[Weekday(startDow, k - 1)])
  }

  function Project(m: Model, startDow: nat, horizon: nat): (r: seq<real>)
    requires |m.seasonal| == 7
    ensures |r| == horizon && forall k :: 0 <= k < horizon ==> r[k] == ProjectDay(m, startDow, k + 1)
  {
    seq(horizon, k requires 0 <= k < horizon => ProjectDay(m, startDow, k + 1))
  }

  function ForecastDaily(h: seq<real>, firstDow: nat, horizon: nat, o: Options): (r: seq<real>)
    requires Fittable(h, firstDow, o)
    ensures |r| == horizon
  {
    Project(Fit(h, firstDow, o), Weekday(firstDow, |h|), horizon)
  }

  // ---------- Scaling ----------

  /** A product as a term, so that equal factors give equal products. */
  function Mul(k: real, x: real): real { k * x }

  function Times(k: real, s: seq<real>): (r: seq<real>)
    ensures |r| == |s| && forall i :: 0 <= i < |s| ==> r[i] == Mul(k, s[i])
  {
    seq(|s|, i requires 0 <= i < |s| => Mul(k, s[i]))
  }

  lemma {:induction false} TotalScales(k: real, s: seq<real>)
    ensures Total(Times(k, s)) == Mul(k, Total(s))
  {
    if s != [] {
      var n := |s| - 1;
      TotalScales(k, s[..n]);
      assert Times(k, s)[..n] == Times(k, s[..n]);
      assert Mul(k, Total(s[..n]) + s[n]) == Mul(k, Total(s[..n])) + Mul(k, s[n]);
    }
  }

  lemma QuotientScales(k: real, x: real, y: real)
    requires y != 0.0
    ensures Mul(k, x) / y == Mul(k, x / y)
  {
    assert k * x == k * (x / y) * y;
  }

  lemma RatioCancels(k: real, x: real, y: real)
    requires k > 0.0 && y > 0.0
    ensures Mul(k, y) > 0.0 && Ratio(Mul(k, x), Mul(k, y)) == Ratio(x, y)
  {
    SignScales(k, y);
    assert k * x == (x / y) * (k * y);
  }

  lemma SignScales(k: real, x: real)
    requires k > 0.0
    ensures Mul(k, x) > 0.0 <==> x > 0.0
  {}

  lemma TimesSlice(k: real, h: seq<real>, a: nat, b: nat)
    requires a <= b <= |h|
    ensures Times(k, h)[a..b] == Times(k, h[a..b])
  {
    forall i | 0 <= i < b - a
      ensures Times(k, h)[a..b][i] == Times(k, h[a..b])[i]
    {
      assert h[a..b][i] == h[a + i];
    }
  }

  lemma CentredScales(k: real, h: seq<real>, i: nat)
    requires 3 <= i && i + 3 < |h|
    ensures Centred(Times(k, h), i) == Mul(k, Centred(h, i))
  {
    hide Total;
    TimesSlice(k, h, i - 3, i + 4);
    TotalScales(k, h[i - 3..i + 4]);
    QuotientScales(k, Total(h[i - 3..i + 4]), 7.0);
  }

  lemma {:induction false} TallyIgnoresScale(k: real, h: seq<real>, firstDow: nat, m: nat)
    requires k > 0.0 && 3 <= m && (m == 3 || m + 3 <= |h|)
    ensures TallyOf(Times(k, h), firstDow, m) == TallyOf(h, firstDow, m)
  {
    hide Centred, Count, Ratio, Mul;
    if m > 3 {
      TallyIgnoresScale(k, h, firstDow, m - 1);
      CentredScales(k, h, m - 1);
      SignScales(k, Centred(h, m - 1));
      if Centred(h, m - 1) > 0.0 {
        RatioCancels(k, h[m - 1], Centred(h, m - 1));
      }
    }
  }

  lemma ProductSign(x: real, y: real)
    requires x >= 0.0 && y >= 0.0
    ensures x * y >= 0.0
  {}

  lemma LevelScales(k: real, o: Options, d: real, level: real, trend: real)
    ensures NextLevel(o, Mul(k, d), Mul(k, level), Mul(k, trend)) == Mul(k, NextLevel(o, d, level, trend))
  {
    assert o.alpha * (k * d) == k * (o.alpha * d);
    assert k * level + o.phi * (k * trend) == k * (level + o.phi * trend);
    assert (1.0 - o.alpha) * (k * (level + o.phi * trend)) == k * ((1.0 - o.alpha) * (level + o.phi * trend));
  }

  lemma TrendScales(k: real, o: Options, next: real, level: real, trend: real)
    ensures NextTrend(o, Mul(k, next), Mul(k, level), Mul(k, trend)) == Mul(k, NextTrend(o, next, level, trend))
  {
    assert k * next - k * level == k * (next - level);
    assert o.beta * (k * (next - level)) == k * (o.beta * (next - level));
    assert (1.0 - o.beta) * o.phi * (k * trend) == k * ((1.0 - o.beta) * o.phi * trend);
  }

  lemma {:induction false} SmoothScales(k: real, de: seq<real>, o: Options, m: nat)
    requires 1 <= m <= |de|
    ensures Smooth(Times(k, de), o, m) == (Mul(k, Smooth(de, o, m).0), Mul(k, Smooth(de, o, m).1))
  {
    hide NextLevel, NextTrend;
    if m == 1 {
      assert Mul(k, 0.0) == 0.0;
    } else {
      SmoothScales(k, de, o, m - 1);
      var (level, trend) := Smooth(de, o, m - 1);
      LevelScales(k, o, de[m - 1], level, trend);
      TrendScales(k, o, NextLevel(o, de[m - 1], level, trend), level, trend);
    }
  }

  lemma DeseasonalisedScales(k: real, h: seq<real>, firstDow: nat, seasonal: seq<real>)
    requires |seasonal| == 7 && forall d :: 0 <= d < 7 ==> seasonal[d] >= FLOOR
    ensures Deseasonalised(Times(k, h), firstDow, seasonal) == Times(k, Deseasonalised(h, firstDow, seasonal))
  {
    forall i | 0 <= i < |h|
      ensures Deseasonalised(Times(k, h), firstDow, seasonal)[i] == Times(k, Deseasonalised(h, firstDow, seasonal))[i]
    {
      QuotientScales(k, h[i], seasonal[Weekday(firstDow, i)]);
    }
  }

  lemma SeasonalIgnoresScale(k: real, h: seq<real>, firstDow: nat, shrink: real)
    requires k > 0.0
    ensures Computable(Times(k, h), firstDow, shrink) <==> Computable(h, firstDow, shrink)
    ensures Computable(h, firstDow, shrink) ==> Seasonal(Times(k, h), firstDow, shrink) == Seasonal(h, firstDow, shrink)
  {
    hide TallyOf, ShrunkAll, Relative, Floored, Divides;
    TallyIgnoresScale(k, h, firstDow, Limit(|h|));
  }

  lemma FlatIgnoresScale(k: real, h: seq<real>)
    requires k > 0.0
    ensures Flat(Times(k, h)) <==> Flat(h)
  {
    hide Total;
    if h != [] {
      TotalScales(k, h);
      QuotientScales(k, Total(h), |h| as real);
      SignScales(k, Total(h) / |h| as real);
    }
  }

  lemma FitScales(k: real, h: seq<real>, firstDow: nat, o: Options)
    requires k > 0.0 && Fittable(h, firstDow, o)
    ensures Fittable(Times(k, h), firstDow, o)
    ensures var m := Fit(h, firstDow, o);
            Fit(Times(k, h), firstDow, o) == m.(level := Mul(k, m.level), trend := Mul(k, m.trend))
  {
    hide Smooth, Seasonal, Computable, Flat;
    FlatIgnoresScale(k, h);
    if Flat(h) {
      assert Mul(k, 0.0) == 0.0;
    } else {
      NotFlatIsNotEmpty(h);
      SeasonalIgnoresScale(k, h, firstDow, o.shrink);
      var seasonal := Seasonal(h, firstDow, o.shrink);
      DeseasonalisedScales(k, h, firstDow, seasonal);
      SmoothScales(k, Deseasonalised(h, firstDow, seasonal), o, |h|);
    }
  }

  lemma NotFlatIsNotEmpty(h: seq<real>)
    requires !Flat(h)
    ensures h != []
  {}

  lemma ProjectionScales(k: real, level: real, trend: real, damp: real, s: real)
    requires k > 0.0
    ensures Projected(Mul(k, level), Mul(k, trend), damp, s) == Mul(k, Projected(level, trend, damp, s))
  {
    var base := level + damp * trend;
    assert k * level + damp * (k * trend) == k * base;
    assert (k * base) * s == k * (base * s);
    SignScales(k, base * s);
    assert k * 0.0 == 0.0;
  }

  /** Units do not matter: the forecast of k times a history is k times its forecast. */
  lemma ForecastScales(k: real, h: seq<real>, firstDow: nat, horizon: nat, o: Options)
    requires k > 0.0 && Fittable(h, firstDow, o)
    ensures Fittable(Times(k, h), firstDow, o)
    ensures ForecastDaily(Times(k, h), firstDow, horizon, o) == Times(k, ForecastDaily(h, firstDow, horizon, o))
  {
    hide Fit, Damping, Projected, Mul, Fittable;
    FitScales(k, h, firstDow, o);
    var m, start := Fit(h, firstDow, o), Weekday(firstDow, |h|);
    forall i | 0 <= i < horizon
      ensures ForecastDaily(Times(k, h), firstDow, horizon, o)[i] == Mul(k, ForecastDaily(h, firstDow, horizon, o)[i])
    {
      ProjectionScales(k, m.level, m.trend, Damping(m.phi, i + 1), m.seasonal[Weekday(start, i)]);
    }
  }

  // ---------- Constant histories ----------

  predicate Constant(h: seq<real>, v: real) { forall i :: 0 <= i < |h| ==> h[i] == v }

  lemma {:induction false} TotalOfConstant(h: seq<real>, v: real)
    requires Constant(h, v)
    ensures Total(h) == |h| as real * v
  {
    if h != [] {
      TotalOfConstant(h[..|h| - 1], v);
      assert |h| as real * v == (|h| - 1) as real * v + v;
    }
  }

  lemma SelfRatio(v: real)
    requires v > 0.0
    ensures Ratio(v, v) == 1.0
  {}

  lemma {:induction false} ConstantTally(h: seq<real>, v: real, firstDow: nat, m: nat)
    requires Constant(h, v) && v > 0.0 && 3 <= m && (m == 3 || m + 3 <= |h|)
    ensures TallyOf(h, firstDow, m).sums == TallyOf(h, firstDow, m).counts
  {
    hide Ratio;
    if m > 3 {
      ConstantTally(h, v, firstDow, m - 1);
      TotalOfConstant(h[m - 4..m + 3], v);
      assert Centred(h, m - 1) == v;
      SelfRatio(v);
    }
  }

  lemma ConstantSeasonal(h: seq<real>, v: real, firstDow: nat, shrink: real)
    requires Constant(h, v) && v > 0.0 && Divides(TallyOf(h, firstDow, Limit(|h|)), shrink)
    ensures Computable(h, firstDow, shrink) && Seasonal(h, firstDow, shrink) == ONES
  {
    hide TallyOf, Total;
    var t := TallyOf(h, firstDow, Limit(|h|));
    ConstantTally(h, v, firstDow, Limit(|h|));
    var s := ShrunkAll(t, shrink);
    forall d | 0 <= d < 7
      ensures s[d] == 1.0
    {
      EvenShrinks(t.counts[d], shrink);
    }
    assert Constant(s, 1.0);
    TotalOfConstant(s, 1.0);
    assert Floored(Relative(s)) == ONES;
  }

  lemma SelfQuotient(x: real)
    requires x != 0.0
    ensures x / x == 1.0
  {}

  lemma EvenShrinks(count: real, shrink: real)
    requires count + shrink != 0.0
    ensures Shrunk(count, count, shrink) == 1.0
  {
    if count != 0.0 {
      assert count / count == 1.0;
    }
    SelfQuotient(count + shrink);
  }

  lemma {:induction false} ConstantSmooth(de: seq<real>, v: real, o: Options, m: nat)
    requires Constant(de, v) && 1 <= m <= |de|
    ensures Smooth(de, o, m) == (v, 0.0)
  {
    hide NextLevel, NextTrend;
    if m > 1 {
      ConstantSmooth(de, v, o, m - 1);
      ConstantStep(o, v);
    }
  }

  lemma ConstantStep(o: Options, v: real)
    ensures NextLevel(o, v, v, 0.0) == v && NextTrend(o, v, v, 0.0) == 0.0
  {
    assert o.phi * 0.0 == 0.0;
    assert o.alpha * v + (1.0 - o.alpha) * v == v;
    assert o.beta * 0.0 == 0.0;
    assert (1.0 - o.beta) * o.phi * 0.0 == 0.0;
  }

  /** A constant history of any length forecasts that constant at every horizon. */
  lemma ConstantForecastsItself(h: seq<real>, v: real, firstDow: nat, horizon: nat, o: Options)
    requires h != [] && Constant(h, v) && v > 0.0 && Divides(TallyOf(h, firstDow, Limit(|h|)), o.shrink)
    ensures Fittable(h, firstDow, o) && forall k :: 0 <= k < horizon ==> ForecastDaily(h, firstDow, horizon, o)[k] == v
  {
    hide Total, Smooth, Seasonal, Damping, Computable, Divides;
    ConstantMean(h, v);
    ConstantSeasonal(h, v, firstDow, o.shrink);
    var de := Deseasonalised(h, firstDow, ONES);
    assert Constant(de, v);
    ConstantSmooth(de, v, o, |h|);
    var m := Fit(h, firstDow, o);
    assert m == Model(v, 0.0, o.phi, ONES);
    forall k | 0 <= k < horizon
      ensures ForecastDaily(h, firstDow, horizon, o)[k] == v
    {
      assert Damping(o.phi, k + 1) * 0.0 == 0.0;
    }
  }

  lemma ConstantMean(h: seq<real>, v: real)
    requires h != [] && Constant(h, v)
    ensures Total(h) / |h| as real == v
  {
    hide Total;
    TotalOfConstant(h, v);
    var d := |h| as real;
    assert d * v / d == v;
  }

  // ---------- What the model and its forecast are ----------

  /** The weekday moves on by one each day, and starts again after a week. */
  lemma WeekdayMovesOn(firstDow: nat, i: nat)
    ensures Weekday(firstDow, 0) == firstDow % 7
    ensures Weekday(firstDow, i + 1) == if Weekday(firstDow, i) == 6 then 0 else Weekday(firstDow, i) + 1
  {}

  /** The average around a day takes that day and three on each side, all alike. */
  lemma CentredIsWindow(h: seq<real>, i: nat)
    requires 3 <= i && i + 3 < |h|
    ensures 7.0 * Centred(h, i) == h[i - 3] + h[i - 2] + h[i - 1] + h[i] + h[i + 1] + h[i + 2] + h[i + 3]
  {
    hide Total;
    var week := h[i - 3..i + 4];
    SevenTotal(week);
    assert week[0] == h[i - 3] && week[1] == h[i - 2] && week[2] == h[i - 1] && week[3] == h[i];
    assert week[4] == h[i + 1] && week[5] == h[i + 2] && week[6] == h[i + 3];
  }

  /**
   The tally takes one day more: a day around which there is demand adds its demand relative to the
   average around it to its own weekday, and no other day or weekday counts.
   */
  lemma TallyTakesOneDay(h: seq<real>, firstDow: nat, i: nat)
    requires 3 <= i && i + 3 < |h|
    ensures var before, after, day := TallyOf(h, firstDow, i), TallyOf(h, firstDow, i + 1), Weekday(firstDow, i);
            && (Centred(h, i) <= 0.0 ==> after == before)
            && (Centred(h, i) > 0.0 ==>
                  && (after.sums[day] - before.sums[day]) * Centred(h, i) == h[i]
                  && after.counts[day] == before.counts[day] + 1.0
                  && forall d :: 0 <= d < 7 && d != day ==>
                       after.sums[d] == before.sums[d] && after.counts[d] == before.counts[d])
    ensures TallyOf(h, firstDow, 3) == Tally(ZEROS, ZEROS)
  {
    hide Centred;
    if Centred(h, i) > 0.0 {
      assert Ratio(h[i], Centred(h, i)) * Centred(h, i) == h[i];
    }
  }

  /** A weekday's index is the average of its ratios and `shrink` further ones; unobserved, it is one. */
  lemma IndexIsAverage(sum: real, count: real, shrink: real)
    requires count + shrink != 0.0
    ensures count != 0.0 ==> Shrunk(sum, count, shrink) * (count + shrink) == sum + shrink
    ensures count == 0.0 ==> Shrunk(sum, count, shrink) == 1.0
  {
    if count != 0.0 {
      assert count * (sum / count) == sum;
      var top, bottom := sum + shrink, count + shrink;
      assert top / bottom * bottom == top;
    } else {
      SelfQuotient(shrink);
    }
  }

  /**
   A day corrects the damped one-day forecast by its error: the level by a part alpha of it, and the damped
   trend by a part beta of that.
   */
  ghost predicate Corrects(o: Options, demand: real, level: real, trend: real, newLevel: real, newTrend: real) {
    var expected := level + o.phi * trend;
    var correction := o.alpha * (demand - expected);
    newLevel == expected + correction && newTrend == o.phi * trend + o.beta * correction
  }

  lemma SmoothingCorrectsErrors(de: seq<real>, o: Options, m: nat)
    requires 1 <= m < |de|
    ensures Smooth(de, o, 1) == (de[0], 0.0)
    ensures var before, after := Smooth(de, o, m), Smooth(de, o, m + 1);
            Corrects(o, de[m], before.0, before.1, after.0, after.1)
  {
    hide NextLevel, NextTrend, Corrects;
    var (level, trend) := Smooth(de, o, m);
    CorrectionForm(o, de[m], level, trend);
  }

  lemma CorrectionForm(o: Options, d: real, level: real, trend: real)
    ensures var next := NextLevel(o, d, level, trend);
            Corrects(o, d, level, trend, next, NextTrend(o, next, level, trend))
  {
    var expected := level + o.phi * trend;
    var correction := o.alpha * (d - expected);
    assert (1.0 - o.alpha) * expected == expected - o.alpha * expected;
    assert NextLevel(o, d, level, trend) == expected + correction;
    assert NextLevel(o, d, level, trend) - level == o.phi * trend + correction;
    assert o.beta * (o.phi * trend + correction) == o.beta * (o.phi * trend) + o.beta * correction;
    assert (1.0 - o.beta) * o.phi * trend == o.phi * trend - o.beta * (o.phi * trend);
  }

  /** A day's demand from level, trend, damping and index: never less than nothing. */
  lemma ProjectedMeans(level: real, trend: real, damp: real, index: real)
    ensures var demand := (level + damp * trend) * index;
            Projected(level, trend, damp, index) == if demand > 0.0 then demand else 0.0
  {}

  /**
   The forecast for the k-th day after the history takes level and trend of the fitted model, the damping
   of k days, and the index of that day's own weekday.
   */
  lemma ForecastOfDay(h: seq<real>, firstDow: nat, horizon: nat, o: Options, k: nat)
    requires Fittable(h, firstDow, o) && 1 <= k <= horizon
    ensures var m, day := Fit(h, firstDow, o), Weekday(firstDow, |h| + k - 1);
            ForecastDaily(h, firstDow, horizon, o)[k - 1]
            == Projected(m.level, m.trend, Damping(o.phi, k), m.seasonal[day])
  {
    hide Fittable, Fit, Damping, Projected, Weekday;
    WeekdaysAdd(firstDow, |h|, k - 1);
    FitKeepsPhi(h, firstDow, o);
  }

  lemma FitKeepsPhi(h: seq<real>, firstDow: nat, o: Options)
    requires Fittable(h, firstDow, o)
    ensures Fit(h, firstDow, o).phi == o.phi
  {
    hide Fittable, Smooth, Seasonal, Deseasonalised;
    if !Flat(h) {
      NotFlatIsNotEmpty(h);
    }
  }

  lemma WeekdaysAdd(firstDow: nat, n: nat, k: nat)
    ensures Weekday(Weekday(firstDow, n), k) == Weekday(firstDow, n + k)
  {}

  /** Without demand on average nothing is forecast. */
  lemma NoDemandNoForecast(h: seq<real>, firstDow: nat, horizon: nat, o: Options, k: nat)
    requires (h == [] || Total(h) <= 0.0) && Fittable(h, firstDow, o) && k < horizon
    ensures ForecastDaily(h, firstDow, horizon, o)[k] == 0.0
  {
    hide Total, Damping;
    if h != [] {
      assert Total(h) / |h| as real <= 0.0;
    }
    assert Damping(o.phi, k + 1) * 0.0 == 0.0;
  }

  // ---------- Bounds ----------

  lemma {:induction false} PowerBounds(phi: real, k: nat)
    requires 0.0 <= phi < 1.0
    ensures 0.0 <= Power(phi, k) <= 1.0
  {
    if k > 0 {
      PowerBounds(phi, k - 1);
      ProductSign(Power(phi, k - 1), phi);
      ProductSign(1.0 - Power(phi, k - 1), phi);
    }
  }

  /** The geometric sum, without division. */
  lemma {:induction false} DampingClosed(phi: real, k: nat)
    ensures Damping(phi, k) * (1.0 - phi) == phi - Power(phi, k) * phi
  {
    if k > 0 {
      DampingClosed(phi, k - 1);
      var d, p := Damping(phi, k - 1), Power(phi, k);
      assert (d + p) * (1.0 - phi) == d * (1.0 - phi) + (p - p * phi);
      assert Power(phi, k) == Power(phi, k - 1) * phi;
    } else {
      assert Damping(phi, 0) * (1.0 - phi) == 0.0;
      assert Power(phi, 0) * phi == phi;
    }
  }

  /** How far a damped trend can ever move the level, as a multiple of the trend. */
  function Reach(phi: real): real
    requires phi < 1.0
  {
    phi / (1.0 - phi)
  }

  lemma DampingBound(phi: real, k: nat)
    requires 0.0 <= phi < 1.0
    ensures 0.0 <= Damping(phi, k) <= Reach(phi)
  {
    hide Power, Damping;
    DampingClosed(phi, k);
    PowerBounds(phi, k);
    var d, p := Damping(phi, k), Power(phi, k);
    ProductSign(p, phi);
    ProductSign(1.0 - p, phi);
    assert phi - p * phi == (1.0 - p) * phi;
    BoundedByQuotient(d, phi, 1.0 - phi, (1.0 - p) * phi);
  }

  lemma BoundedByQuotient(d: real, top: real, q: real, product: real)
    requires q > 0.0 && d * q == product && 0.0 <= product <= top
    ensures 0.0 <= d <= top / q
  {
    assert d == product / q;
    assert top / q - product / q == (top - product) / q;
    QuotientSign(product, q);
    QuotientSign(top - product, q);
  }

  /** Projections are never negative, and the trend moves the level by at most |trend| * phi / (1 - phi). */
  lemma ProjectionBounds(m: Model, startDow: nat, k: nat)
    requires |m.seasonal| == 7 && k >= 1 && 0.0 <= m.phi < 1.0
    ensures ProjectDay(m, startDow, k) >= 0.0
    ensures Abs(Mul(Damping(m.phi, k), m.trend)) <= Mul(Abs(m.trend), Reach(m.phi))
  {
    hide Damping, Reach, Abs, Mul;
    DampingBound(m.phi, k);
    TrendBound(Damping(m.phi, k), Reach(m.phi), m.trend);
  }

  lemma TrendBound(d: real, b: real, t: real)
    requires 0.0 <= d <= b
    ensures Abs(Mul(d, t)) <= Mul(Abs(t), b)
  {
    ProductSign(b - d, Abs(t));
    ProductSign(d, Abs(t));
    assert Abs(d * t) == d * Abs(t);
  }

  // ---------- The average of the indices ----------

  function Over(s: seq<real>, d: real): (r: seq<real>)
    requires d != 0.0
    ensures |r| == |s| && forall i :: 0 <= i < |s| ==> r[i] == s[i] / d
  {
    seq(|s|, i requires 0 <= i < |s| => s[i] / d)
  }

  lemma {:induction false} TotalOver(s: seq<real>, d: real)
    requires d != 0.0
    ensures Total(Over(s, d)) == Total(s) / d
  {
    if s != [] {
      var n := |s| - 1;
      TotalOver(s[..n], d);
      assert Over(s, d)[..n] == Over(s[..n], d);
      assert (Total(s[..n]) + s[n]) / d == Total(s[..n]) / d + s[n] / d;
    }
  }

  lemma {:induction false} FlooringAdds(x: seq<real>, r: seq<real>)
    requires |x| == |r| && forall i :: 0 <= i < |x| ==> r[i] == MaxReal(x[i], FLOOR)
    ensures Total(r) >= Total(x) && (Total(r) == Total(x) <==> forall i :: 0 <= i < |x| ==> x[i] >= FLOOR)
  {
    if x != [] {
      var n := |x| - 1;
      FlooringAdds(x[..n], r[..n]);
      assert (forall i :: 0 <= i < |x| ==> x[i] >= FLOOR) <==>
             (forall i :: 0 <= i < n ==> x[..n][i] >= FLOOR) && x[n] >= FLOOR;
    }
  }

  lemma FlooredAverage(s: seq<real>)
    requires |s| == 7 && Total(s) != 0.0
    ensures Total(Floored(Relative(s))) >= 7.0
    ensures Total(Floored(Relative(s))) == 7.0 <==> forall d :: 0 <= d < 7 ==> Relative(s)[d] >= FLOOR
  {
    hide Total;
    var mean := Total(s) / 7.0;
    TotalOver(s, mean);
    assert Over(s, mean) == Relative(s);
    assert Total(s) / mean == 7.0;
    FlooringAdds(Relative(s), Floored(Relative(s)));
  }

  /**
   The weekday indices of a fitted model average to one exactly when there was nothing to fit or the floor
   lies under none of them; where it lifts one, the average is above one.
   */
  lemma AverageIsOneIffNoFloor(h: seq<real>, firstDow: nat, o: Options)
    requires Fittable(h, firstDow, o)
    ensures Total(Fit(h, firstDow, o).seasonal) / 7.0 >= 1.0
    ensures Total(Fit(h, firstDow, o).seasonal) / 7.0 == 1.0 <==>
              Flat(h) || forall d :: 0 <= d < 7 ==> Indices(h, firstDow, o.shrink)[d] >= FLOOR
  {
    hide TallyOf, Smooth, Total, Flat, Divides, ShrunkAll;
    if Flat(h) {
      TotalOfConstant(ONES, 1.0);
    } else {
      FlooredAverage(ShrunkAll(TallyOf(h, firstDow, Limit(|h|)), o.shrink));
    }
  }

  /** Six days of demand around a day without: its index falls through the floor. */
  const GAP: seq<real> := [1.0, 1.0, 1.0, 0.0, 1.0, 1.0, 1.0]

  lemma GapCentre()
    ensures Total(GAP) == 6.0 && Centred(GAP, 3) == 6.0 / 7.0 && Ratio(GAP[3], Centred(GAP, 3)) == 0.0
  {
    hide Total;
    SevenTotal(GAP);
    assert GAP[0..7] == GAP;
  }

  lemma GapTally()
    ensures TallyOf(GAP, 0, Limit(|GAP|)) == Tally(ZEROS, ZEROS[3 := 1.0])
  {
    hide Centred, Ratio;
    GapCentre();
    assert Limit(|GAP|) == 4 && Weekday(0, 3) == 3;
    assert TallyOf(GAP, 0, 3) == Tally(ZEROS, ZEROS);
    assert TallyOf(GAP, 0, 4) == Count(TallyOf(GAP, 0, 3), 3, 0.0);
    assert ZEROS[3 := 0.0] == ZEROS;
  }

  lemma GapIndices(o: Options)
    requires o.shrink == 0.01
    ensures Divides(Tally(ZEROS, ZEROS[3 := 1.0]), o.shrink)
    ensures var s := ShrunkAll(Tally(ZEROS, ZEROS[3 := 1.0]), o.shrink);
            s[3] == 0.01 / 1.01 && Total(s) == 6.0 + 0.01 / 1.01
  {
    var s := ShrunkAll(Tally(ZEROS, ZEROS[3 := 1.0]), o.shrink);
    assert forall d :: 0 <= d < 7 && d != 3 ==> s[d] == 1.0;
    assert s == [1.0, 1.0, 1.0, 0.01 / 1.01, 1.0, 1.0, 1.0];
    SevenTotal(s);
  }

  lemma EmptyTotal()
    ensures Total([]) == 0.0
  {}

  lemma TotalOfPrefix(s: seq<real>, k: nat)
    requires k < |s|
    ensures Total(s[..k + 1]) == Total(s[..k]) + s[k]
  {
    assert s[..k + 1][..k] == s[..k];
  }

  lemma SevenTotal(s: seq<real>)
    requires |s| == 7
    ensures Total(s) == s[0] + s[1] + s[2] + s[3] + s[4] + s[5] + s[6]
  {
    hide Total;
    assert s[..7] == s && Total(s[..0]) == 0.0 by { EmptyTotal(); }
    TotalOfPrefix(s, 0);
    TotalOfPrefix(s, 1);
    TotalOfPrefix(s, 2);
    TotalOfPrefix(s, 3);
    TotalOfPrefix(s, 4);
    TotalOfPrefix(s, 5);
    TotalOfPrefix(s, 6);
  }

  /** The model fitted to the gap has indices that average to more than one. */
  lemma FloorBites(o: Options)
    requires o.shrink == 0.01
    ensures Fittable(GAP, 0, o) && Total(Fit(GAP, 0, o).seasonal) / 7.0 > 1.0
  {
    hide TallyOf, Smooth, Total, ShrunkAll, Divides;
    GapCentre();
    GapTally();
    GapIndices(o);
    AverageIsOneIffNoFloor(GAP, 0, o);
    assert Indices(GAP, 0, o.shrink)[3] == (0.01 / 1.01) / ((6.0 + 0.01 / 1.01) / 7.0);
  }

  // ---------- The loops ----------

  method CentredAverage(h: seq<real>, i: nat) returns (average: real)
    requires 3 <= i && i + 3 < |h|
    ensures average == Centred(h, i)
  {
    var window := 0.0;
    var k := i - 3;
    while k <= i + 3
      invariant i - 3 <= k <= i + 4 && window == Total(h[i - 3..k])
    {
      assert h[i - 3..k + 1][..k - (i - 3)] == h[i - 3..k];
      window := window + h[k];
      k := k + 1;
    }
    average := window / 7.0;
  }

  method TallyRatios(h: seq<real>, firstDow: nat) returns (sums: array<real>, counts: array<real>)
    ensures sums.Length == 7 && counts.Length == 7
    ensures Tally(sums[..], counts[..]) == TallyOf(h, firstDow, Limit(|h|))
  {
    hide Centred, Ratio, Weekday;
    sums := new real[7](_ => 0.0);
    counts := new real[7](_ => 0.0);
    assert sums[..] == ZEROS && counts[..] == ZEROS;
    var i := 3;
    while i + 3 < |h|
      invariant 3 <= i && (i == 3 || i + 3 <= |h|)
      invariant Tally(sums[..], counts[..]) == TallyOf(h, firstDow, i)
    {
      var cma := CentredAverage(h, i);
      if cma > 0.0 {
        var d := Weekday(firstDow, i);
        sums[d] := sums[d] + Ratio(h[i], cma);
        counts[d] := counts[d] + 1.0;
      }
      i := i + 1;
    }
  }

  method SmoothSeries(de: seq<real>, o: Options) returns (level: real, trend: real)
    requires de != []
    ensures (level, trend) == Smooth(de, o, |de|)
  {
    hide NextLevel, NextTrend;
    level, trend := de[0], 0.0;
    var i := 1;
    while i < |de|
      invariant 1 <= i <= |de| && (level, trend) == Smooth(de, o, i)
    {
      var prev := level;
      level := NextLevel(o, de[i], prev, trend);
      trend := NextTrend(o, level, prev, trend);
      i := i + 1;
    }
  }

  method FitDemandModel(h: seq<real>, firstDow: nat, o: Options) returns (m: Model)
    requires Fittable(h, firstDow, o)
    ensures m == Fit(h, firstDow, o)
  {
    hide TallyOf, Smooth, Total;
    if h == [] || Total(h) / |h| as real <= 0.0 {
      return Model(0.0, 0.0, o.phi, ONES);
    }
    var sums, counts := TallyRatios(h, firstDow);
    var seasonal := Floored(Relative(ShrunkAll(Tally(sums[..], counts[..]), o.shrink)));
    var level, trend := SmoothSeries(Deseasonalised(h, firstDow, seasonal), o);
    m := Model(level, trend, o.phi, seasonal);
  }

  method ProjectDemand(m: Model, startDow: nat, horizon: nat) returns (out: seq<real>)
    requires |m.seasonal| == 7
    ensures out == Project(m, startDow, horizon)
  {
    out := [];
    var damp, pow, k := 0.0, 1.0, 1;
    while k <= horizon
      invariant 1 <= k <= horizon + 1 && |out| == k - 1
      invariant pow == Power(m.phi, k - 1) && damp == Damping(m.phi, k - 1)
      invariant forall j :: 0 <= j < k - 1 ==> out[j] == ProjectDay(m, startDow, j + 1)
    {
      pow := pow * m.phi;
      damp := damp + pow;
      out := out + [Projected(m.level, m.trend, damp, m.seasonal[Weekday(startDow, k - 1)])];
      k := k + 1;
    }
  }
}
