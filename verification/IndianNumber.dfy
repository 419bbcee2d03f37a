/** Indian digit grouping: the last three digits, then pairs, as in 12,34,567. */
module IndianNumber {
  import opened Numbers
  import opened Options
  import opened Rounding
  import opened Decimals

  // ---------- Grouping ----------

  /** The groups of the digits before the last three. */
  function Pairs(rest: string): seq<string> {
    if |rest| <= 2 then [rest] else Pairs(rest[..|rest| - 2]) + [rest[|rest| - 2..]]
  }

  function Groups(digits: string): seq<string> {
    if |digits| <= 3 then [digits] else Pairs(digits[..|digits| - 3]) + [digits[|digits| - 3..]]
  }

  function Join(parts: seq<string>): string {
    if parts == [] then ""
    else if |parts| == 1 then parts[0]
    else Join(parts[..|parts| - 1]) + "," + parts[|parts| - 1]
  }

  function Concat(parts: seq<string>): string {
    if parts == [] then "" else Concat(parts[..|parts| - 1]) + parts[|parts| - 1]
  }

  function WithoutCommas(s: string): string {
    if s == [] then []
    else WithoutCommas(s[..|s| - 1]) + if s[|s| - 1] == ',' then [] else [s[|s| - 1]]
  }

  predicate NoComma(s: string) { forall i :: 0 <= i < |s| ==> s[i] != ',' }

  lemma {:induction false} WithoutCommasOfConcat(a: string, b: string)
    ensures WithoutCommas(a + b) == WithoutCommas(a) + WithoutCommas(b)
  {
    if b == [] {
      assert a + b == a;
    } else {
      assert (a + b)[..|a + b| - 1] == a + b[..|b| - 1];
      WithoutCommasOfConcat(a, b[..|b| - 1]);
    }
  }

  lemma {:induction false} WithoutCommasOfPlain(s: string)
    requires NoComma(s)
    ensures WithoutCommas(s) == s
  {
    if s != [] {
      WithoutCommasOfPlain(s[..|s| - 1]);
      assert s == s[..|s| - 1] + [s[|s| - 1]];
    }
  }

  lemma CommaAlone()
    ensures WithoutCommas(",") == []
  {
    assert ","[..0] == [];
  }

  lemma {:induction false} CommasVanish(parts: seq<string>)
    requires forall i :: 0 <= i < |parts| ==> NoComma(parts[i])
    ensures WithoutCommas(Join(parts)) == Concat(parts)
  {
    if parts == [] {
    } else if |parts| == 1 {
      WithoutCommasOfPlain(parts[0]);
      assert parts[..0] == [];
      assert Concat(parts) == [] + parts[0];
    } else {
      JoinedLast(parts);
      CommasVanish(parts[..|parts| - 1]);
    }
  }

  lemma JoinedLast(parts: seq<string>)
    requires |parts| > 1 && NoComma(parts[|parts| - 1])
    ensures WithoutCommas(Join(parts)) == WithoutCommas(Join(parts[..|parts| - 1])) + parts[|parts| - 1]
  {
    hide WithoutCommas, NoComma;
    var front, last := Join(parts[..|parts| - 1]), parts[|parts| - 1];
    WithoutCommasOfPlain(last);
    WithoutCommasOfConcat(front + ",", last);
    WithoutCommasOfConcat(front, ",");
    CommaAlone();
    assert WithoutCommas(front) + [] == WithoutCommas(front);
  }

  lemma {:induction false} PairsShape(rest: string)
    requires rest != [] && NoComma(rest)
    ensures var ps := Pairs(rest);
            && ps != [] && 1 <= |ps[0]| <= 2 && (forall i :: 1 <= i < |ps| ==> |ps[i]| == 2)
            && (forall i :: 0 <= i < |ps| ==> NoComma(ps[i])) && Concat(ps) == rest
  {
    if |rest| <= 2 {
      assert Pairs(rest)[..0] == [];
    } else {
      var front, pair := rest[..|rest| - 2], rest[|rest| - 2..];
      PairsShape(front);
      assert Pairs(rest)[..|Pairs(rest)| - 1] == Pairs(front);
      assert rest == front + pair;
    }
  }

  /** Every group but the first has its fixed size, and together the groups are the digits. */
  lemma GroupsShape(digits: string)
    requires NoComma(digits)
    ensures var gs := Groups(digits);
            && gs != [] && Concat(gs) == digits && (forall i :: 0 <= i < |gs| ==> NoComma(gs[i]))
            && (|digits| > 3 ==>
                  && |gs| >= 2 && 1 <= |gs[0]| <= 2 && |gs[|gs| - 1]| == 3
                  && forall i :: 1 <= i < |gs| - 1 ==> |gs[i]| == 2)
  {
    if |digits| <= 3 {
      assert Groups(digits)[..0] == [];
    } else {
      var front, last := digits[..|digits| - 3], digits[|digits| - 3..];
      PairsShape(front);
      assert Groups(digits)[..|Groups(digits)| - 1] == Pairs(front);
      assert digits == front + last;
    }
  }

  /** Taking the commas out again gives the digits back. */
  lemma GroupingIsReversible(digits: string)
    requires NoComma(digits)
    ensures WithoutCommas(Join(Groups(digits))) == digits
  {
    GroupsShape(digits);
    CommasVanish(Groups(digits));
  }

  /** The loop takes pairs off the end and puts them in front of the parts collected so far. */
  method GroupIndian(digits: string) returns (text: string)
    ensures text == Join(Groups(digits))
  {
    if |digits| <= 3 {
      return digits;
    }
    var last3, rest := digits[|digits| - 3..], digits[..|digits| - 3];
    var parts: seq<string> := [];
    ghost var front := rest;
    while |rest| > 2
      invariant rest != [] && Pairs(front) == Pairs(rest) + parts
    {
      parts := [rest[|rest| - 2..]] + parts;
      rest := rest[..|rest| - 2];
    }
    if rest != [] {
      parts := [rest] + parts;
    }
    text := Join(parts) + "," + last3;
    assert Groups(digits)[..|Groups(digits)| - 1] == parts;
  }

  // ---------- Numbers ----------

  /** The number in units of its last printed digit, with the small bias the source adds before rounding. */
  function Scaled(x: real, decimals: nat): nat {
    var exact := Abs(x) * Pow10(decimals) as real;
    ProductOfNonNegatives(Abs(x), Pow10(decimals) as real);
    RoundMonotone(0.0, exact + 0.0000001);
    Round(exact + 0.0000001)
  }

  function DivMod(n: nat, d: nat): (r: (nat, nat))
    requires d > 0
    ensures r.0 * d + r.1 == n && r.1 < d
  {
    assert n / d >= 0;
    (n / d, n % d)
  }

  function Body(n: nat, decimals: nat): string {
    var (whole, frac) := DivMod(n, Pow10(decimals));
    Join(Groups(Decimal(whole))) + if decimals > 0 then "." + Pad(Decimal(frac), decimals) else ""
  }

  function FormatIndian(x: real, decimals: nat): string {
    var scaled := Scaled(x, decimals);
    if x < 0.0 && scaled != 0 then "-" + Body(scaled, decimals) else Body(scaled, decimals)
  }

  // ---------- Reading back ----------

  datatype Printed = Printed(negative: bool, whole: nat, fraction: nat)

  /** An unsigned number whose last `decimals` characters stand after a point. */
  function ReadBody(negative: bool, body: string, decimals: nat): Option<Printed> {
    if decimals == 0 then
      if AllDigits(WithoutCommas(body)) then Some(Printed(negative, Value(WithoutCommas(body)), 0)) else None
    else if |body| <= decimals then None
    else
      var k := |body| - decimals - 1;
      if body[k] == '.' && AllDigits(WithoutCommas(body[..k])) && AllDigits(body[k + 1..]) then
        Some(Printed(negative, Value(WithoutCommas(body[..k])), Value(body[k + 1..])))
      else None
  }

  /** Read a printed number: sign, grouped whole part, point and fraction. */
  function ReadBack(text: string, decimals: nat): Option<Printed> {
    if text != [] && text[0] == '-' then ReadBody(true, text[1..], decimals) else ReadBody(false, text, decimals)
  }

  lemma {:induction false} OtherCharactersStay(s: string, i: nat)
    requires i < |s| && s[i] != ','
    ensures s[i] in WithoutCommas(s)
  {
    if i < |s| - 1 {
      OtherCharactersStay(s[..|s| - 1], i);
    }
  }

  /** The printed whole part: digits and commas only, and not empty. */
  lemma HeadReads(whole: nat)
    ensures var head := Join(Groups(Decimal(whole)));
            && WithoutCommas(head) == Decimal(whole) && AllDigits(Decimal(whole)) && Value(Decimal(whole)) == whole
            && head != [] && head[0] != '-'
  {
    hide Groups, Join, Decimal, Value;
    var head := Join(Groups(Decimal(whole)));
    ValueOfDecimal(whole);
    assert NoComma(Decimal(whole));
    GroupingIsReversible(Decimal(whole));
    if head != [] && head[0] == '-' {
      OtherCharactersStay(head, 0);
    }
  }

  lemma BodyReads(negative: bool, n: nat, decimals: nat)
    ensures var (whole, frac) := DivMod(n, Pow10(decimals));
            ReadBody(negative, Body(n, decimals), decimals) == Some(Printed(negative, whole, frac))
    ensures Body(n, decimals) != [] && Body(n, decimals)[0] != '-'
  {
    hide Groups, Join, Decimal, Pad, Value, DivMod, WithoutCommas;
    var (whole, frac) := DivMod(n, Pow10(decimals));
    var head := Join(Groups(Decimal(whole)));
    HeadReads(whole);
    if decimals > 0 {
      DecimalWidth(frac, decimals);
      ValueOfPadded(frac, decimals);
      var tail := Pad(Decimal(frac), decimals);
      assert |tail| == decimals by { PadWidth(frac, decimals); }
      var body := Body(n, decimals);
      assert body == head + "." + tail;
      assert body[..|head|] == head && body[|head|] == '.' && body[|head| + 1..] == tail;
    } else {
      assert head + "" == head;
    }
  }

  lemma PadWidth(frac: nat, decimals: nat)
    requires frac < Pow10(decimals) && decimals > 0
    ensures |Pad(Decimal(frac), decimals)| == decimals
  {
    DecimalWidth(frac, decimals);
  }

  /**
   The printed text reads back as the sign and the scaled value: the sign is there exactly when something
   other than zero is printed of a negative number, and the point stands before the last `decimals` digits.
   */
  lemma PrintedReadsBack(x: real, decimals: nat)
    ensures var n := Scaled(x, decimals);
            var (whole, frac) := DivMod(n, Pow10(decimals));
            && ReadBack(FormatIndian(x, decimals), decimals) == Some(Printed(x < 0.0 && n != 0, whole, frac))
            && whole * Pow10(decimals) + frac == n && frac < Pow10(decimals)
  {
    hide Body, Scaled, ReadBody, Pow10;
    var n := Scaled(x, decimals);
    var body := Body(n, decimals);
    BodyReads(x < 0.0 && n != 0, n, decimals);
    assert ("-" + body)[1..] == body;
  }

  /** Halves go away from zero, and the printed magnitude is off by half a unit at most, plus the bias. */
  lemma HalvesGoAwayFromZero(x: real, decimals: nat, k: nat)
    ensures var exact, n := Abs(x) * Pow10(decimals) as real, Scaled(x, decimals);
            && n as real - 0.5 - 0.0000001 <= exact < n as real + 0.5 - 0.0000001
            && (exact == k as real + 0.5 ==> n == k + 1)
  {
    var exact := Abs(x) * Pow10(decimals) as real;
    if exact == k as real + 0.5 {
      RoundUnique(exact + 0.0000001, k + 1);
    }
  }
}
