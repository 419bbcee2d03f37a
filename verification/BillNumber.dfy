/**
 GST invoice numbers of offline bills, `<series>/<fiscal year>/<sequence>`, and the series codes
 handed out at activation.  Rule 46(b) of the CGST Rules, 2017 limits an invoice number to sixteen
 characters and asks for uniqueness within the financial year.
 */
module BillNumber {
  import opened Options
  import opened Decimals

  datatype BillNo = BillNo(series: string, fy: string, seqNo: nat)

  const MAX_LENGTH := 16
  const SEQ_WIDTH := 6

  // ---------- Invoice numbers ----------

  predicate IsUpperAlnum(c: char) { IsDigit(c) || 'A' <= c <= 'Z' }

  predicate WellFormedSeries(s: string) {
    3 <= |s| <= 4 && s[0] == 'E' && forall i :: 1 <= i < |s| ==> IsUpperAlnum(s[i])
  }

  predicate WellFormedYear(fy: string) {
    |fy| == 4 && AllDigits(fy)
  }

  /** The ASCII digits, and the ASCII capitals. */
  const DIGITS: set<int> := set n | 48 <= n <= 57
  const CAPITALS: set<int> := set n | 65 <= n <= 90

  /** A series is an E with two or three digits or capitals, and a year is four digits. */
  lemma SeriesAlphabet(s: string)
    ensures WellFormedSeries(s) <==>
              (|s| == 3 || |s| == 4) && s[0] == 'E' && forall i :: 0 < i < |s| ==> s[i] as int in DIGITS + CAPITALS
    ensures WellFormedYear(s) <==> |s| == 4 && forall i :: 0 <= i < 4 ==> s[i] as int in DIGITS
  {}

  function NumberText(b: BillNo): string {
    b.series + "/" + b.fy + "/" + Pad(Decimal(b.seqNo), SEQ_WIDTH)
  }

  /** `None` where the source throws: the number would exceed sixteen characters. */
  function Format(b: BillNo): Option<string> {
    if |NumberText(b)| > MAX_LENGTH then None else Some(NumberText(b))
  }

  /** The text matches the invoice pattern with a series of `k` characters. */
  predicate MatchesAt(n: string, k: nat) {
    && k + 6 + SEQ_WIDTH <= |n|
    && WellFormedSeries(n[..k])
    && n[k] == '/'
    && WellFormedYear(n[k + 1..k + 5])
    && n[k + 5] == '/'
    && AllDigits(n[k + 6..])
  }

  function Parse(n: string): Option<BillNo> {
    if MatchesAt(n, 4) then Some(BillNo(n[..4], n[5..9], Value(n[10..])))
    else if MatchesAt(n, 3) then Some(BillNo(n[..3], n[4..8], Value(n[9..])))
    else None
  }

  /** A slash is no series character, so a text matches at one series length at most. */
  lemma MatchIsUnique(n: string)
    ensures !(MatchesAt(n, 3) && MatchesAt(n, 4))
  {
    if MatchesAt(n, 3) {
      assert n[..4][3] == '/';
    }
  }

  /** Three parts joined by slashes parse back into the three parts. */
  lemma ParseOfParts(b: BillNo, digits: string)
    requires WellFormedSeries(b.series) && WellFormedYear(b.fy)
    requires |digits| >= SEQ_WIDTH && AllDigits(digits) && Value(digits) == b.seqNo
    ensures Parse(b.series + "/" + b.fy + "/" + digits) == Some(b)
  {
    hide Value;
    var n, k := b.series + "/" + b.fy + "/" + digits, |b.series|;
    assert n[..k] == b.series;
    assert n[k + 1..k + 5] == b.fy;
    assert n[k + 6..] == digits;
    assert MatchesAt(n, k);
    MatchIsUnique(n);
  }

  /** Parsing the text of an invoice number gives the number back. */
  lemma ParseOfText(b: BillNo)
    requires WellFormedSeries(b.series) && WellFormedYear(b.fy)
    ensures Parse(NumberText(b)) == Some(b)
  {
    ValueOfPadded(b.seqNo, SEQ_WIDTH);
    ParseOfParts(b, Pad(Decimal(b.seqNo), SEQ_WIDTH));
  }

  lemma FormatThenParse(b: BillNo)
    requires WellFormedSeries(b.series) && WellFormedYear(b.fy)
    requires Format(b).Some?
    ensures Parse(Format(b).value) == Some(b)
  {
    ParseOfText(b);
  }

  /** Different invoices never print the same number. */
  lemma NumbersAreInjective(a: BillNo, b: BillNo)
    requires WellFormedSeries(a.series) && WellFormedYear(a.fy)
    requires WellFormedSeries(b.series) && WellFormedYear(b.fy)
    requires NumberText(a) == NumberText(b)
    ensures a == b
  {
    ParseOfText(a);
    ParseOfText(b);
  }

  /** The digits of the sequence number in a text that parses. */
  function SequenceDigits(n: string): string
    requires Parse(n).Some?
  {
    if MatchesAt(n, 4) then n[10..] else n[9..]
  }

  /** Padding digits to six restores them exactly when they carry no padding beyond six. */
  lemma PaddedDigits(digits: string)
    requires |digits| >= SEQ_WIDTH && AllDigits(digits)
    ensures var padded := Pad(Decimal(Value(digits)), SEQ_WIDTH);
            && |padded| <= |digits|
            && (padded == digits <==> |digits| == SEQ_WIDTH || digits[0] != '0')
  {
    hide Value, Decimal;
    var zeros := StripZeros(digits);
    var canonical := Decimal(Value(digits));
    assert |digits| == zeros + |canonical|;
    if |digits| == SEQ_WIDTH {
      assert zeros == SEQ_WIDTH - |canonical|;
    } else if zeros == 0 {
      assert Zeros(0) + canonical == canonical;
    }
  }

  lemma ParseThenText(n: string, b: BillNo)
    requires Parse(n) == Some(b)
    ensures NumberText(b) == n <==> |SequenceDigits(n)| == SEQ_WIDTH || SequenceDigits(n)[0] != '0'
    ensures |NumberText(b)| <= |n|
  {
    hide Value, Decimal, Pad;
    var k := if MatchesAt(n, 4) then 4 else 3;
    var digits := n[k + 6..];
    assert digits == SequenceDigits(n) && Value(digits) == b.seqNo;
    PaddedDigits(digits);
    assert n == b.series + "/" + b.fy + "/" + digits;
    assert NumberText(b)[k + 6..] == Pad(Decimal(b.seqNo), SEQ_WIDTH);
  }

  /**
   Printing a parsed number reproduces the text exactly when the text is short enough to be an
   invoice number and carries no padding beyond six digits.
   */
  lemma ParseThenFormat(n: string)
    requires Parse(n).Some?
    ensures Format(Parse(n).value) == Some(n) <==>
              |n| <= MAX_LENGTH && (|SequenceDigits(n)| == SEQ_WIDTH || SequenceDigits(n)[0] != '0')
  {
    ParseThenText(n, Parse(n).value);
  }

  /** The family that fails: any invoice number written with extra zeros parses, and prints differently. */
  lemma OverPaddedTextDoesNotRoundTrip(b: BillNo, extra: nat)
    requires WellFormedSeries(b.series) && WellFormedYear(b.fy) && extra > 0
    ensures var n := b.series + "/" + b.fy + "/" + (Zeros(extra) + Pad(Decimal(b.seqNo), SEQ_WIDTH));
            Parse(n) == Some(b) && Format(b) != Some(n)
  {
    var digits := Zeros(extra) + Pad(Decimal(b.seqNo), SEQ_WIDTH);
    var n := b.series + "/" + b.fy + "/" + digits;
    ValueOfPadded(b.seqNo, SEQ_WIDTH);
    LeadingZeros(extra, Pad(Decimal(b.seqNo), SEQ_WIDTH));
    ParseOfParts(b, digits);
    assert |n| > |NumberText(b)|;
  }

  /** A series runs out exactly at the sequence number whose text would need a seventeenth character. */
  lemma SeriesCapacity(b: BillNo)
    requires WellFormedSeries(b.series) && WellFormedYear(b.fy)
    ensures Format(b).Some? <==> b.seqNo < Pow10(MAX_LENGTH - 6 - |b.series|)
  {
    DecimalWidth(b.seqNo, MAX_LENGTH - 6 - |b.series|);
  }

  // ---------- Series codes ----------

  function SeriesCode(index: int): Option<string> {
    if 1 <= index <= 999 then Some("E" + Pad(Decimal(index), 2)) else None
  }

  /** There is a code for each index of up to three digits; it is an E and the index, in two digits at least. */
  lemma SeriesCodeIsIndex(index: int)
    ensures SeriesCode(index).Some? <==> index >= 1 && |Decimal(index)| <= 3
    ensures SeriesCode(index).Some? ==>
              var code := SeriesCode(index).value;
              && |code| == (if index < 100 then 3 else 4) && code[0] == 'E'
              && AllDigits(code[1..]) && Value(code[1..]) == index
  {
    if index >= 1 {
      DecimalWidth(index, 2);
      DecimalWidth(index, 3);
      assert Pow10(3) == 10 * Pow10(2) == 100 * Pow10(1) == 1000 * Pow10(0);
      ValueOfPadded(index, 2);
      assert ("E" + Pad(Decimal(index), 2))[1..] == Pad(Decimal(index), 2);
    }
  }

  /** Distinct activations get distinct, well-formed series. */
  lemma SeriesCodesAreDistinct(i: int, j: int)
    requires SeriesCode(i).Some? && SeriesCode(j).Some?
    ensures WellFormedSeries(SeriesCode(i).value)
    ensures SeriesCode(i) == SeriesCode(j) ==> i == j
  {
    ValueOfPadded(i, 2);
    ValueOfPadded(j, 2);
    DecimalWidth(i, 3);
    assert Pow10(3) == 10 * Pow10(2) == 100 * Pow10(1) == 1000 * Pow10(0);
    assert SeriesCode(i).value[1..] == Pad(Decimal(i), 2);
    assert SeriesCode(j).value[1..] == Pad(Decimal(j), 2);
  }
}
