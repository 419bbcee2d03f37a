/**
 Rounding to whole paise.  `Math.round(x)` is the floor of `x + 1/2`; it is modelled on exact
 reals, so that every statement below is about the formula and not about binary floating point.
 */
module Rounding {

  function Round(x: real): (n: int)
    ensures n as real - 0.5 <= x < n as real + 0.5
  {
    (x + 0.5).Floor
  }

  lemma RoundUnique(x: real, n: int)
    requires n as real - 0.5 <= x < n as real + 0.5
    ensures Round(x) == n
  {}

  lemma RoundMonotone(x: real, y: real)
    requires x <= y
    ensures Round(x) <= Round(y)
  {}

  /** `n` is the quotient of `a` and `d`, rounded to the nearest integer with halves going up. */
  predicate Nearest(n: int, a: real, d: real) {
    -d <= 2.0 * (a - n as real * d) < d
  }

  lemma RoundIsNearest(x: real, a: real, d: real)
    requires d > 0.0 && x * d == a
    ensures Nearest(Round(x), a, d)
  {
    var n := Round(x) as real;
    ProductOfNonNegatives(x - n + 0.5, d);
    ProductIsPositive(n + 0.5 - x, d);
    assert (x - n + 0.5) * d == a - n * d + 0.5 * d;
    assert (n + 0.5 - x) * d == n * d + 0.5 * d - a;
  }

  /** Products and quotients as terms, so that equal operands give equal results. */
  function Product(x: real, y: real): real { x * y }

  function Quotient(x: real, y: real): real
    requires y != 0.0
  {
    x / y
  }

  lemma ProductIsPositive(x: real, y: real)
    requires x > 0.0 && y > 0.0
    ensures x * y > 0.0
  {}

  lemma NextIsFurther(n: int, m: int, d: real)
    requires n < m && d > 0.0
    ensures Multiple(m, d) >= Multiple(n, d) + d
  {
    ProductOfNonNegatives((m - n - 1) as real, d);
    assert (m - n - 1) as real * d == m as real * d - n as real * d - d;
  }

  function Multiple(n: int, d: real): real { n as real * d }

  lemma Multiples(n: int, a: real, d: real)
    requires Nearest(n, a, d)
    ensures Multiple(n, d) - d / 2.0 <= a < Multiple(n, d) + d / 2.0
  {}

  /** A quotient has one nearest integer. */
  lemma NearestIsUnique(n: int, m: int, a: real, d: real)
    requires d > 0.0 && Nearest(n, a, d) && Nearest(m, a, d)
    ensures n == m
  {
    NearestIsNoLess(n, m, a, d);
    NearestIsNoLess(m, n, a, d);
  }

  lemma NearestIsNoLess(n: int, m: int, a: real, d: real)
    requires d > 0.0 && Nearest(n, a, d) && Nearest(m, a, d)
    ensures n >= m
  {
    hide Nearest, Multiple;
    Multiples(n, a, d);
    Multiples(m, a, d);
    if n < m {
      NextIsFurther(n, m, d);
    }
  }

  lemma ProductOfNonNegatives(x: real, y: real)
    requires x >= 0.0 && y >= 0.0
    ensures x * y >= 0.0
  {}

  /** Rupees, possibly fractional, to whole paise. */
  function ToPaise(rupees: real): int {
    Round(rupees * 100.0)
  }

  /** Whole paise to rupees with two decimals. */
  function FromPaise(paise: int): real {
    paise as real / 100.0
  }

  /** Any amount of rupees goes to the nearest paisa. */
  lemma PaiseAreNearest(rupees: real)
    ensures Nearest(ToPaise(rupees), 100.0 * rupees, 1.0)
  {
    RoundIsNearest(rupees * 100.0, 100.0 * rupees, 1.0);
  }

  /** Paise survive the trip through rupees, so two parties exchanging rupees agree to the paisa. */
  lemma PaiseRoundTrip(paise: int)
    ensures ToPaise(FromPaise(paise)) == paise
  {
    assert FromPaise(paise) * 100.0 == paise as real;
    RoundUnique(FromPaise(paise) * 100.0, paise);
  }
}
