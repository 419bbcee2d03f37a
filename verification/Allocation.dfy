/**
 Largest-remainder allocation of a total of paise across weights.  The exact share of weight `w` is
 `total * w / sum`; each part is the floor of its share, and the paise left over go to the shares with
 the largest fractions.
 */
module Allocation {
  import opened Numbers

  function Sum(s: seq<int>): int {
    if s == [] then 0 else Sum(s[..|s| - 1]) + s[|s| - 1]
  }

  function Positive(x: real): real { if x > 0.0 then x else 0.0 }

  function Clamp(weights: seq<real>): (r: seq<real>)
    ensures |r| == |weights| && forall i :: 0 <= i < |r| ==> r[i] == Positive(weights[i])
  {
    seq(|weights|, i requires 0 <= i < |weights| => Positive(weights[i]))
  }

  /** Some weight is positive. */
  predicate Weighted(weights: seq<real>) {
    Total(Clamp(weights)) > 0.0
  }

  /** Negative weights count as zero; if nothing is left, every weight counts as one. */
  function Effective(weights: seq<real>): (r: seq<real>)
    ensures |r| == |weights| && forall i :: 0 <= i < |r| ==> r[i] >= 0.0
  {
    if Weighted(weights) then Clamp(weights) else seq(|weights|, _ => 1.0)
  }

  /** The exact share of a weight. */
  function Share(total: int, w: real, d: real): real
    requires d > 0.0
  {
    total as real * w / d
  }

  function Floors(total: int, w: seq<real>, d: real): (r: seq<int>)
    requires d > 0.0
    ensures |r| == |w| && forall i :: 0 <= i < |r| ==> r[i] == Share(total, w[i], d).Floor
  {
    seq(|w|, i requires 0 <= i < |w| => Share(total, w[i], d).Floor)
  }

  function Fraction(x: real): real { x - x.Floor as real }

  function Fractions(total: int, w: seq<real>, d: real): (r: seq<real>)
    requires d > 0.0
    ensures |r| == |w| && forall i :: 0 <= i < |r| ==> r[i] == Fraction(Share(total, w[i], d))
  {
    seq(|w|, i requires 0 <= i < |w| => Fraction(Share(total, w[i], d)))
  }

  // ---------- The order in which leftover paise are handed out ----------

  /** Larger fractions first, ties to the earlier index. */
  predicate Precedes(fracs: seq<real>, i: nat, j: nat)
    requires i < |fracs| && j < |fracs|
  {
    fracs[i] > fracs[j] || (fracs[i] == fracs[j] && i < j)
  }

  predicate Within(s: seq<nat>, n: nat) {
    forall k :: 0 <= k < |s| ==> s[k] < n
  }

  function Insert(fracs: seq<real>, s: seq<nat>, i: nat): seq<nat>
    requires i < |fracs| && Within(s, |fracs|)
  {
    if s == [] then [i]
    else
      var n := |s| - 1;
      if Precedes(fracs, s[n], i) then s + [i] else Insert(fracs, s[..n], i) + [s[n]]
  }

  ghost predicate Ordered(fracs: seq<real>, s: seq<nat>) {
    Within(s, |fracs|) && forall a, b :: 0 <= a < b < |s| ==> Precedes(fracs, s[a], s[b])
  }

  lemma {:induction false} InsertMembers(fracs: seq<real>, s: seq<nat>, i: nat)
    requires i < |fracs| && Within(s, |fracs|)
    ensures |Insert(fracs, s, i)| == |s| + 1
    ensures forall j: nat :: j in Insert(fracs, s, i) <==> j in s || j == i
  {
    if s != [] {
      var n := |s| - 1;
      assert s == s[..n] + [s[n]];
      InsertMembers(fracs, s[..n], i);
    }
  }

  lemma {:induction false} InsertKeepsOrder(fracs: seq<real>, s: seq<nat>, i: nat)
    requires i < |fracs| && Ordered(fracs, s) && i !in s
    ensures Ordered(fracs, Insert(fracs, s, i))
  {
    if s != [] {
      var n := |s| - 1;
      if Precedes(fracs, s[n], i) {
        assert forall a :: 0 <= a < n ==> Precedes(fracs, s[a], s[n]);
      } else {
        var t := Insert(fracs, s[..n], i);
        InsertKeepsOrder(fracs, s[..n], i);
        InsertMembers(fracs, s[..n], i);
        assert s[n] in s;
        forall a | 0 <= a < |t|
          ensures Precedes(fracs, t[a], s[n])
        {
          assert t[a] in t;
          assert t[a] in s[..n] || t[a] == i;
        }
      }
    }
  }

  /** The first `m` indices in hand-out order. */
  function OrderOf(fracs: seq<real>, m: nat): (s: seq<nat>)
    requires m <= |fracs|
    ensures Within(s, |fracs|)
  {
    if m == 0 then [] else
      var before := OrderOf(fracs, m - 1);
      assert Within(Insert(fracs, before, m - 1), |fracs|) by { InsertIsWithin(fracs, before, m - 1); }
      Insert(fracs, before, m - 1)
  }

  lemma {:induction false} InsertIsWithin(fracs: seq<real>, s: seq<nat>, i: nat)
    requires i < |fracs| && Within(s, |fracs|)
    ensures Within(Insert(fracs, s, i), |fracs|)
  {
    if s != [] {
      InsertIsWithin(fracs, s[..|s| - 1], i);
    }
  }

  lemma {:induction false} OrderIsOrdered(fracs: seq<real>, m: nat)
    requires m <= |fracs|
    ensures Ordered(fracs, OrderOf(fracs, m)) && |OrderOf(fracs, m)| == m
    ensures forall j: nat :: j in OrderOf(fracs, m) <==> j < m
  {
    if m > 0 {
      hide Insert, Ordered;
      OrderIsOrdered(fracs, m - 1);
      InsertKeepsOrder(fracs, OrderOf(fracs, m - 1), m - 1);
      InsertMembers(fracs, OrderOf(fracs, m - 1), m - 1);
    }
  }

  // ---------- The allocation ----------

  function AddOnes(parts: seq<int>, order: seq<nat>, k: nat): (r: seq<int>)
    requires k <= |order| && Within(order, |parts|)
    ensures |r| == |parts|
  {
    if k == 0 then parts else
      var before := AddOnes(parts, order, k - 1);
      before[order[k - 1] := before[order[k - 1]] + 1]
  }

  function Leftover(total: int, w: seq<real>, d: real): int
    requires d > 0.0
  {
    total - Sum(Floors(total, w, d))
  }

  lemma SharesAdd(total: int, x: real, y: real, d: real)
    requires d > 0.0
    ensures Share(total, x + y, d) == Share(total, x, d) + Share(total, y, d)
  {
    var t := total as real;
    assert t * (x + y) == t * x + t * y;
    assert (t * x + t * y) / d == t * x / d + t * y / d;
  }

  lemma ShareOfNothing(total: int, d: real)
    requires d > 0.0
    ensures Share(total, 0.0, d) == 0.0
  {
    assert total as real * 0.0 == 0.0;
  }

  lemma ShareOfAll(total: int, d: real)
    requires d > 0.0
    ensures Share(total, d, d) == total as real
  {}

  /** Floors and fractions together are the share of all the weight. */
  lemma {:induction false} SumOfShares(total: int, w: seq<real>, d: real)
    requires d > 0.0
    ensures Sum(Floors(total, w, d)) as real + Total(Fractions(total, w, d)) == Share(total, Total(w), d)
  {
    hide Share;
    if w == [] {
      ShareOfNothing(total, d);
    } else {
      var n := |w| - 1;
      SumOfShares(total, w[..n], d);
      assert Floors(total, w, d)[..n] == Floors(total, w[..n], d);
      assert Fractions(total, w, d)[..n] == Fractions(total, w[..n], d);
      SharesAdd(total, Total(w[..n]), w[n], d);
    }
  }

  function PositiveCount(fracs: seq<real>): nat {
    if fracs == [] then 0 else PositiveCount(fracs[..|fracs| - 1]) + if fracs[|fracs| - 1] > 0.0 then 1 else 0
  }

  lemma {:induction false} FractionsBound(fracs: seq<real>)
    requires forall i :: 0 <= i < |fracs| ==> 0.0 <= fracs[i] < 1.0
    ensures 0.0 <= Total(fracs) <= PositiveCount(fracs) as real
    ensures Total(fracs) == 0.0 || Total(fracs) < PositiveCount(fracs) as real
    ensures PositiveCount(fracs) <= |fracs|
  {
    if fracs != [] {
      FractionsBound(fracs[..|fracs| - 1]);
    }
  }

  /** Fewer paise are left over than there are shares with a fraction, so the hand-out never wraps. */
  lemma LeftoverBound(total: int, w: seq<real>, d: real)
    requires d > 0.0 && d == Total(w)
    ensures 0 <= Leftover(total, w, d)
    ensures Leftover(total, w, d) == 0 || Leftover(total, w, d) < PositiveCount(Fractions(total, w, d)) <= |w|
  {
    hide Share, Total;
    SumOfShares(total, w, d);
    ShareOfAll(total, d);
    FractionsBound(Fractions(total, w, d));
  }

  function Allocate(total: int, weights: seq<real>): (parts: seq<int>)
    ensures |parts| == |weights|
  {
    if weights == [] then [] else
      var w := Effective(weights);
      var d := Total(w);
      assert d > 0.0 by { EffectiveTotal(weights); }
      assert 0 <= Leftover(total, w, d) <= |w| by { LeftoverBound(total, w, d); }
      assert |OrderOf(Fractions(total, w, d), |w|)| == |w| by { OrderIsOrdered(Fractions(total, w, d), |w|); }
      AddOnes(Floors(total, w, d), OrderOf(Fractions(total, w, d), |w|), Leftover(total, w, d))
  }

  lemma {:induction false} TotalOfOnes(n: nat)
    ensures Total(seq(n, _ => 1.0)) == n as real
  {
    if n > 0 {
      assert seq(n, _ => 1.0)[..n - 1] == seq(n - 1, _ => 1.0);
      TotalOfOnes(n - 1);
    }
  }

  lemma EffectiveTotal(weights: seq<real>)
    requires weights != []
    ensures Total(Effective(weights)) > 0.0
  {
    TotalOfOnes(|weights|);
  }

  // ---------- Properties ----------

  lemma {:induction false} SumAfterUpdate(s: seq<int>, i: nat, x: int)
    requires i < |s|
    ensures Sum(s[i := x]) == Sum(s) - s[i] + x
  {
    var n := |s| - 1;
    if i == n {
      assert s[i := x][..n] == s[..n];
    } else {
      assert s[i := x][..n] == s[..n][i := x];
      SumAfterUpdate(s[..n], i, x);
    }
  }

  lemma {:induction false} AddOnesEffect(parts: seq<int>, order: seq<nat>, k: nat)
    requires k <= |order| && Within(order, |parts|)
    requires forall a, b :: 0 <= a < b < |order| ==> order[a] != order[b]
    ensures Sum(AddOnes(parts, order, k)) == Sum(parts) + k
    ensures forall i :: 0 <= i < |parts| ==> AddOnes(parts, order, k)[i] == parts[i] + if i in order[..k] then 1 else 0
  {
    if k > 0 {
      var before := AddOnes(parts, order, k - 1);
      AddOnesEffect(parts, order, k - 1);
      SumAfterUpdate(before, order[k - 1], before[order[k - 1]] + 1);
      assert order[..k] == order[..k - 1] + [order[k - 1]];
      assert order[k - 1] !in order[..k - 1];
    }
  }

  lemma OrderedIsDistinct(fracs: seq<real>, s: seq<nat>)
    requires Ordered(fracs, s)
    ensures forall a, b :: 0 <= a < b < |s| ==> s[a] != s[b]
  {}

  /** The pieces of one allocation: floors, fractions, order and leftover. */
  lemma Shape(total: int, weights: seq<real>)
    requires weights != []
    ensures var w := Effective(weights);
            var d := Total(w);
            d > 0.0 &&
            var floors, fracs, rest := Floors(total, w, d), Fractions(total, w, d), Leftover(total, w, d);
            var order := OrderOf(fracs, |w|);
            && 0 <= rest <= |w| && |order| == |w| && Ordered(fracs, order)
            && (forall j: nat :: j in order <==> j < |w|)
            && Sum(Allocate(total, weights)) == Sum(floors) + rest
            && (forall i :: 0 <= i < |weights| ==>
                  Allocate(total, weights)[i] == floors[i] + if i in order[..rest] then 1 else 0)
  {
    var w := Effective(weights);
    EffectiveTotal(weights);
    var d := Total(w);
    hide Effective, Total, Share;
    LeftoverBound(total, w, d);
    OrderIsOrdered(Fractions(total, w, d), |w|);
    OrderedIsDistinct(Fractions(total, w, d), OrderOf(Fractions(total, w, d), |w|));
    AddOnesEffect(Floors(total, w, d), OrderOf(Fractions(total, w, d), |w|), Leftover(total, w, d));
  }

  /** The parts sum to the total exactly. */
  lemma PartsSumToTotal(total: int, weights: seq<real>)
    requires weights != []
    ensures Sum(Allocate(total, weights)) == total
  {
    hide Allocate, OrderOf, Floors, Fractions, Effective;
    Shape(total, weights);
  }

  lemma PositiveComesFirst(fracs: seq<real>, order: seq<nat>, x: nat, j: nat)
    requires Ordered(fracs, order) && x < |order| && fracs[order[x]] <= 0.0
    requires j < |fracs| && j in order && fracs[j] > 0.0
    ensures j in set a: nat | a < x :: order[a]
  {
    var a :| 0 <= a < |order| && order[a] == j;
    assert !Precedes(fracs, order[x], order[a]);
  }

  lemma CountIsPrefix(fracs: seq<real>, order: seq<nat>, m: nat, x: nat)
    requires Ordered(fracs, order) && m <= |fracs| && (forall j: nat :: j < m ==> j in order)
    requires x < |order| && fracs[order[x]] <= 0.0
    ensures PositiveCount(fracs[..m]) <= x
  {
    var positives := set j: nat | j < m && fracs[j] > 0.0;
    CountIsCardinality(fracs, m);
    var prefix := set a: nat | a < x :: order[a];
    forall j | j in positives
      ensures j in prefix
    {
      PositiveComesFirst(fracs, order, x, j);
    }
    assert positives <= prefix;
    PrefixIsSmall(order, x);
    SubsetIsSmaller(positives, prefix);
  }

  lemma SubsetIsSmaller(a: set<nat>, b: set<nat>)
    requires a <= b
    ensures |a| <= |b|
  {
    assert b == a + (b - a);
  }

  lemma {:induction false} PrefixIsSmall(order: seq<nat>, x: nat)
    requires x <= |order|
    ensures |set a: nat | a < x :: order[a]| <= x
  {
    var s := set a: nat | a < x :: order[a];
    if x == 0 {
      assert s == {};
    } else {
      var t := set a: nat | a < x - 1 :: order[a];
      PrefixIsSmall(order, x - 1);
      assert s == t + {order[x - 1]};
    }
  }

  lemma {:induction false} CountIsCardinality(fracs: seq<real>, m: nat)
    requires m <= |fracs|
    ensures PositiveCount(fracs[..m]) == |set j: nat | j < m && fracs[j] > 0.0|
  {
    var s := set j: nat | j < m && fracs[j] > 0.0;
    if m == 0 {
      assert s == {};
    } else {
      CountIsCardinality(fracs, m - 1);
      var t := set j: nat | j < m - 1 && fracs[j] > 0.0;
      assert fracs[..m][..m - 1] == fracs[..m - 1];
      assert s == if fracs[m - 1] > 0.0 then t + {m - 1} else t;
    }
  }

  /** A part is the floor of its share or one more, and only a share with a fraction is rounded up. */
  lemma RoundedUpHasFraction(total: int, weights: seq<real>, i: nat)
    requires i < |weights|
    ensures var w := Effective(weights);
            var d := Total(w);
            d > 0.0 &&
            var share, part := Share(total, w[i], d), Allocate(total, weights)[i];
            && share.Floor <= part <= share.Floor + 1
            && (part == share.Floor + 1 ==> Fraction(share) > 0.0)
  {
    hide Allocate, OrderOf, Effective, PositiveCount, Share, Total;
    Shape(total, weights);
    var w := Effective(weights);
    var d := Total(w);
    var fracs, rest := Fractions(total, w, d), Leftover(total, w, d);
    var order := OrderOf(fracs, |w|);
    LeftoverBound(total, w, d);
    if i in order[..rest] && fracs[i] <= 0.0 {
      var x :| 0 <= x < rest && order[x] == i;
      assert fracs[..|fracs|] == fracs;
      CountIsPrefix(fracs, order, |fracs|, x);
    }
  }

  /** Each part is strictly within one paisa of its exact share. */
  lemma WithinOnePaisa(total: int, weights: seq<real>, i: nat)
    requires i < |weights|
    ensures var w := Effective(weights);
            var d := Total(w);
            d > 0.0 && -1.0 < Allocate(total, weights)[i] as real - Share(total, w[i], d) < 1.0
  {
    hide Allocate, Effective, Share, Total;
    RoundedUpHasFraction(total, weights, i);
  }

  /**
   Leftover paise go to the largest fractions, equal ones to the earlier index: whoever comes before a part
   that was rounded up is rounded up too.
   */
  lemma LargerFractionFirst(total: int, weights: seq<real>, i: nat, j: nat)
    requires i < |weights| && j < |weights|
    ensures var w := Effective(weights);
            var d := Total(w);
            d > 0.0 &&
            var x, y := Share(total, w[i], d), Share(total, w[j], d);
            var lead := (x - x.Floor as real) - (y - y.Floor as real);
            (lead > 0.0 || (lead == 0.0 && i < j)) && Allocate(total, weights)[j] > y.Floor ==>
              Allocate(total, weights)[i] > x.Floor
  {
    hide Allocate, OrderOf, Effective, Total, Insert, Leftover, Share;
    Shape(total, weights);
    var w := Effective(weights);
    var d := Total(w);
    var fracs, rest := Fractions(total, w, d), Leftover(total, w, d);
    var order := OrderOf(fracs, |w|);
    if Precedes(fracs, i, j) && j in order[..rest] {
      EarlierIsServed(fracs, order, rest, i, j);
    }
  }

  /** The weights that count: what is positive of each, or one each if no weight is. */
  lemma EffectiveWeights(weights: seq<real>, i: nat)
    requires i < |weights|
    ensures (exists k :: 0 <= k < |weights| && weights[k] > 0.0) ==>
              Effective(weights)[i] == if weights[i] > 0.0 then weights[i] else 0.0
    ensures (forall k :: 0 <= k < |weights| ==> weights[k] <= 0.0) ==> Effective(weights)[i] == 1.0
  {
    PositiveTotal(Clamp(weights));
    if k :| 0 <= k < |weights| && weights[k] > 0.0 {
      assert Clamp(weights)[k] > 0.0;
    }
  }

  lemma {:induction false} PositiveTotal(s: seq<real>)
    requires forall i :: 0 <= i < |s| ==> s[i] >= 0.0
    ensures Total(s) >= 0.0
    ensures Total(s) > 0.0 <==> exists i :: 0 <= i < |s| && s[i] > 0.0
  {
    if s != [] {
      var n := |s| - 1;
      PositiveTotal(s[..n]);
      if i :| 0 <= i < |s| && s[i] > 0.0 {
        assert i < n ==> s[..n][i] > 0.0;
      }
    }
  }

  /** A weight that is not positive gets nothing as long as some weight is. */
  lemma ZeroWeightGetsNothing(total: int, weights: seq<real>, i: nat)
    requires i < |weights| && weights[i] <= 0.0 && Weighted(weights)
    ensures Allocate(total, weights)[i] == 0
  {
    hide Allocate, Share, Total;
    RoundedUpHasFraction(total, weights, i);
    ShareOfNothing(total, Total(Effective(weights)));
  }

  lemma ShareMonotone(total: int, x: real, y: real, d: real)
    requires total >= 0 && x < y && d > 0.0
    ensures Share(total, x, d) <= Share(total, y, d)
    ensures total > 0 ==> Share(total, x, d) < Share(total, y, d)
  {
    var t := total as real;
    SharesAdd(total, x, y - x, d);
    PositiveShare(t, y - x, d);
  }

  lemma PositiveShare(t: real, x: real, d: real)
    requires t >= 0.0 && x > 0.0 && d > 0.0
    ensures t * x / d >= 0.0 && (t > 0.0 ==> t * x / d > 0.0)
  {
    assert t * x >= 0.0 && (t > 0.0 ==> t * x > 0.0);
  }

  /** For a total that is not negative, and some positive weight, a larger weight never gets a smaller part. */
  lemma LargerWeightLargerPart(total: int, weights: seq<real>, i: nat, j: nat)
    requires i < |weights| && j < |weights| && weights[i] > weights[j] && total >= 0 && Weighted(weights)
    ensures Allocate(total, weights)[i] >= Allocate(total, weights)[j]
  {
    hide Allocate;
    if weights[i] <= 0.0 {
      ZeroWeightGetsNothing(total, weights, i);
      ZeroWeightGetsNothing(total, weights, j);
    } else {
      LargerShareLargerPart(total, weights, i, j);
    }
  }

  lemma LargerShareLargerPart(total: int, weights: seq<real>, i: nat, j: nat)
    requires i < |weights| && j < |weights| && total >= 0
    requires Effective(weights)[i] > Effective(weights)[j]
    ensures Allocate(total, weights)[i] >= Allocate(total, weights)[j]
  {
    hide Allocate, OrderOf, Effective, Total, Insert, Leftover, Share;
    Shape(total, weights);
    var w := Effective(weights);
    var d := Total(w);
    if total == 0 {
      NoTotalNoPart(weights, i);
      NoTotalNoPart(weights, j);
    } else {
      ShareMonotone(total, w[j], w[i], d);
      var fracs, rest := Fractions(total, w, d), Leftover(total, w, d);
      var order := OrderOf(fracs, |w|);
      if Share(total, w[i], d).Floor == Share(total, w[j], d).Floor && j in order[..rest] {
        EarlierIsServed(fracs, order, rest, i, j);
      }
    }
  }

  lemma NoTotalNoPart(weights: seq<real>, i: nat)
    requires i < |weights|
    ensures Allocate(0, weights)[i] == 0
  {
    hide Allocate, Effective, Total;
    RoundedUpHasFraction(0, weights, i);
    assert 0.0 * Effective(weights)[i] == 0.0;
  }

  lemma EarlierIsServed(fracs: seq<real>, order: seq<nat>, rest: nat, i: nat, j: nat)
    requires Ordered(fracs, order) && rest <= |order| && i in order && j in order[..rest]
    requires i < |fracs| && j < |fracs| && Precedes(fracs, i, j)
    ensures i in order[..rest]
  {
    var a :| 0 <= a < |order| && order[a] == i;
    var b :| 0 <= b < rest && order[b] == j;
    assert !Precedes(fracs, order[b], order[a]);
    assert a <= b;
    assert order[..rest][a] == i;
  }

  // ---------- No positive weight ----------

  lemma {:induction false} AscendingIsIdentity(s: seq<nat>, k: nat)
    requires k < |s| && Within(s, |s|) && forall a, b :: 0 <= a < b < |s| ==> s[a] < s[b]
    ensures k <= s[k]
  {
    if k > 0 {
      AscendingIsIdentity(s, k - 1);
    }
  }

  lemma {:induction false} AscendingIsBounded(s: seq<nat>, k: nat)
    requires k < |s| && Within(s, |s|) && forall a, b :: 0 <= a < b < |s| ==> s[a] < s[b]
    ensures s[k] <= k
    decreases |s| - k
  {
    if k + 1 < |s| {
      AscendingIsBounded(s, k + 1);
    }
  }

  /** With equal fractions, leftover paise go out in index order. */
  lemma EqualFractionsGoInOrder(fracs: seq<real>, order: seq<nat>, rest: nat, i: nat)
    requires Ordered(fracs, order) && |order| == |fracs| && rest <= |order| && i < |order|
    requires forall a, b :: 0 <= a < b < |fracs| ==> fracs[a] == fracs[b]
    ensures i in order[..rest] <==> i < rest
  {
    forall k: nat | k < |order|
      ensures order[k] == k
    {
      AscendingIsIdentity(order, k);
      AscendingIsBounded(order, k);
    }
    if i < rest {
      assert order[..rest][i] == i;
    }
  }

  lemma Distributes(x: int, y: int, k: int)
    ensures (x + y) * k == x * k + y * k
  {}

  lemma ProductMonotone(x: int, y: int, d: int)
    requires x <= y && d >= 0
    ensures x * d <= y * d
  {}

  lemma ZeroShare(d: int)
    requires d > 0
    ensures 0 / d == 0 && 0 % d == 0
  {}

  lemma {:induction false} SumOfEqual(s: seq<int>, x: int)
    requires forall i :: 0 <= i < |s| ==> s[i] == x
    ensures Sum(s) == |s| * x
  {
    if s != [] {
      SumOfEqual(s[..|s| - 1], x);
      Distributes(|s| - 1, 1, x);
    }
  }

  /** The floor of an exact quotient of integers is their integer quotient. */
  lemma FloorOfQuotient(a: int, n: int)
    requires n > 0
    ensures (a as real / n as real).Floor == a / n
  {
    var q, r, d := a / n, a % n, n as real;
    assert a == q * n + r;
    assert a as real == q as real * d + r as real;
    assert a as real / d == q as real + r as real / d;
    assert 0.0 <= r as real / d < 1.0;
  }

  /** The pieces of an allocation whose weights are all one. */
  lemma EvenPieces(total: int, w: seq<real>, d: real)
    requires w != [] && d == |w| as real && forall i :: 0 <= i < |w| ==> w[i] == 1.0
    ensures Leftover(total, w, d) == total % |w|
    ensures forall i :: 0 <= i < |w| ==> Floors(total, w, d)[i] == total / |w|
    ensures forall i, j :: 0 <= i < j < |w| ==> Fractions(total, w, d)[i] == Fractions(total, w, d)[j]
  {
    var n := |w|;
    FloorOfQuotient(total, n);
    assert forall i :: 0 <= i < n ==> Share(total, w[i], d) == total as real / d;
    SumOfEqual(Floors(total, w, d), total / n);
    assert n * (total / n) + total % n == total;
  }

  /** Without a positive weight the total is split evenly, leftover paise to the earliest indices. */
  lemma WithoutPositiveWeightSplitIsEven(total: int, weights: seq<real>, i: nat)
    requires i < |weights| && !Weighted(weights)
    ensures Allocate(total, weights)[i] == total / |weights| + if i < total % |weights| then 1 else 0
  {
    var w, n := Effective(weights), |weights|;
    assert w == seq(n, _ => 1.0);
    hide Allocate, OrderOf, Effective, Sum, Leftover, Total, Weighted, Share;
    Shape(total, weights);
    TotalOfOnes(n);
    EvenPieces(total, w, n as real);
    var fracs := Fractions(total, w, n as real);
    EqualFractionsGoInOrder(fracs, OrderOf(fracs, n), Leftover(total, w, n as real), i);
  }

  /** No larger weight gets a smaller part. */
  ghost predicate PartsFollowWeights(total: int, weights: seq<real>) {
    forall i, j :: 0 <= i < |weights| && 0 <= j < |weights| && weights[i] > weights[j] ==>
      Allocate(total, weights)[i] >= Allocate(total, weights)[j]
  }

  /**
   For a total that is not negative, parts follow weights exactly when some weight is positive, or no
   weight that misses the leftover paise is larger than an earlier one that gets a paisa.
   */
  lemma PartsFollowWeightsIff(total: int, weights: seq<real>)
    requires total >= 0 && weights != []
    ensures PartsFollowWeights(total, weights) <==>
              Weighted(weights)
              || forall i, j :: 0 <= j < total % |weights| <= i < |weights| ==> weights[i] <= weights[j]
  {
    hide Allocate, Weighted;
    if Weighted(weights) {
      forall i, j | 0 <= i < |weights| && 0 <= j < |weights| && weights[i] > weights[j]
        ensures Allocate(total, weights)[i] >= Allocate(total, weights)[j]
      {
        LargerWeightLargerPart(total, weights, i, j);
      }
    } else {
      forall i: nat | i < |weights|
        ensures Allocate(total, weights)[i] == total / |weights| + if i < total % |weights| then 1 else 0
      {
        WithoutPositiveWeightSplitIsEven(total, weights, i);
      }
    }
  }

  /** One paisa over two weights that both count as nothing goes to the smaller of them. */
  lemma SmallerWeightCanGetMore()
    ensures Allocate(1, [-2.0, -1.0]) == [1, 0]
  {
    hide Allocate;
    var w := [-2.0, -1.0];
    assert Clamp(w) == [0.0, 0.0];
    assert Clamp(w)[..1] == [0.0] && [0.0][..0] == [];
    assert Total(Clamp(w)) == Total([0.0]) + 0.0;
    WithoutPositiveWeightSplitIsEven(1, w, 0);
    WithoutPositiveWeightSplitIsEven(1, w, 1);
  }

  // ---------- The loop ----------

  /** Hand out the leftover paise one by one along the order, starting over at its end. */
  method HandOut(parts: array<int>, order: seq<nat>, leftover: nat)
    requires Within(order, parts.Length) && (leftover == 0 || leftover < |order|)
    modifies parts
    ensures parts[..] == AddOnes(old(parts[..]), order, leftover)
  {
    ghost var start := parts[..];
    var rest, k := leftover, 0;
    while rest > 0
      invariant 0 <= rest <= leftover && k == leftover - rest
      invariant parts[..] == AddOnes(start, order, leftover - rest)
    {
      parts[order[k]] := parts[order[k]] + 1;
      assert AddOnes(start, order, k + 1)[order[k]] == AddOnes(start, order, k)[order[k]] + 1;
      rest := rest - 1;
      NoWrap(k + 1, |order|);
      k := (k + 1) % |order|;
    }
  }

  lemma NoWrap(x: nat, n: nat)
    requires x < n
    ensures x % n == x
  {}

  method AllocatePaise(total: int, weights: seq<real>) returns (parts: array<int>)
    ensures parts[..] == Allocate(total, weights)
  {
    hide PositiveCount, Insert, Sum, Total, OrderOf, Effective, AddOnes, Share;
    if weights == [] {
      parts := new int[0];
      return;
    }
    var w := Effective(weights);
    var d := Total(w);
    EffectiveTotal(weights);
    LeftoverBound(total, w, d);
    var floors, fracs := Floors(total, w, d), Fractions(total, w, d);
    OrderIsOrdered(fracs, |w|);
    var order := OrderOf(fracs, |w|);
    parts := new int[|w|](i requires 0 <= i < |w| => floors[i]);
    assert parts[..] == floors;
    HandOut(parts, order, total - Sum(floors));
  }
}
