/**
 * Clock times as the mobile screens handle them: `parseInt(text, 10)` on
 * the hour part of "HH:MM", and the current time written as "HH:MM" with
 * `padStart(2, '0')`.
 */
module TimeOfDay {
  import opened Seqs
  import opened Strs

  predicate AllDigits(s: string) {
    forall i :: 0 <= i < |s| ==> IsDigit(s[i])
  }

  /** The value of a string of decimal digits (leading zeros allowed). */
  function DigitsValue(ds: string): nat
    requires AllDigits(ds)
  {
    if ds == [] then 0
    else DigitsValue(ds[..|ds| - 1]) * 10 + (ds[|ds| - 1] as int - '0' as int)
  }

  /** The number of leading whitespace characters. */
  function SpaceCount(s: string): (n: nat)
    ensures n <= |s|
    ensures forall i :: 0 <= i < n ==> IsSpace(s[i])
    ensures n < |s| ==> !IsSpace(s[n])
  {
    if s == [] || !IsSpace(s[0]) then 0 else 1 + SpaceCount(s[1..])
  }

  /** The longest prefix made of digits. */
  function LeadingDigits(s: string): (r: string)
    ensures r <= s && AllDigits(r)
    ensures |r| < |s| ==> !IsDigit(s[|r|])
  {
    if s == [] || !IsDigit(s[0]) then [] else [s[0]] + LeadingDigits(s[1..])
  }

  /**
   * `parseInt(s, 10)`: leading whitespace, an optional sign, then the
   * longest run of digits; `None` is NaN, the result when there are no digits.
   */
  function ParseInt(s: string): (r: Option<int>)
    ensures r.None? <==> LeadingDigits(Unsigned(s[SpaceCount(s)..])) == []
  {
    var t := s[SpaceCount(s)..];
    var ds := LeadingDigits(Unsigned(t));
    if ds == [] then None
    else if t[0] == '-' then Some(0 - DigitsValue(ds) as int)
    else Some(DigitsValue(ds))
  }

  /** The text after an optional leading sign. */
  function Unsigned(t: string): (u: string)
    ensures u == t || (t != [] && (t[0] == '-' || t[0] == '+') && u == t[1..])
  {
    if t != [] && (t[0] == '-' || t[0] == '+') then t[1..] else t
  }

  /** Parsing a string of digits gives its value: the digits round-trip. */
  lemma ParseDigits(ds: string)
    requires ds != [] && AllDigits(ds)
    ensures ParseInt(ds) == Some(DigitsValue(ds))
  {
    assert IsDigit(ds[0]);
    DigitNotSpace(ds[0]);
    assert SpaceCount(ds) == 0;
    assert ds[0..] == ds;
    assert Unsigned(ds) == ds;
    LeadingAllDigits(ds);
  }

  lemma {:induction false} LeadingAllDigits(ds: string)
    requires AllDigits(ds)
    ensures LeadingDigits(ds) == ds
  {
    if ds != [] {
      LeadingAllDigits(ds[1..]);
      assert [ds[0]] + ds[1..] == ds;
    }
  }

  /** `String(n).padStart(2, '0')`. */
  function Pad2(n: nat): (r: string)
    ensures AllDigits(r) && |r| >= 2
    ensures n < 100 ==> |r| == 2
  {
    var d := Decimal(n);
    DecimalShort(n);
    if |d| < 2 then ['0'] + d else d
  }

  lemma DecimalShort(n: nat)
    ensures n < 10 ==> |Decimal(n)| == 1
    ensures 10 <= n < 100 ==> |Decimal(n)| == 2
  {
    if 10 <= n < 100 {
      assert |Decimal(n / 10)| == 1;
    }
  }

  /** The decimal writing of `n` has value `n`. */
  lemma {:induction false} DecimalValue(n: nat)
    ensures DigitsValue(Decimal(n)) == n
  {
    if n >= 10 {
      DecimalValue(n / 10);
      var d := Decimal(n);
      assert d[..|d| - 1] == Decimal(n / 10);
    }
  }

  /** Below 100 the padded writing is the two digits of `n`. */
  lemma Pad2Digits(n: nat)
    requires n < 100
    ensures Pad2(n) == [DigitChar(n / 10), DigitChar(n % 10)]
    ensures DigitsValue(Pad2(n)) == n
  {
    DecimalValue(n);
    if n >= 10 {
      var d := Decimal(n);
      assert Decimal(n / 10) == [DigitChar(n / 10)];
      assert d == [DigitChar(n / 10), DigitChar(n % 10)];
    } else {
      assert Pad2(n)[..1] == ['0'];
    }
  }

  /** The current time `${HH}:${MM}`. */
  function ClockTime(h: nat, m: nat): (r: string)
    requires h < 24 && m < 60
    ensures |r| == 5 && r[2] == ':'
  {
    Pad2(h) + [':'] + Pad2(m)
  }

  /** The hour of a clock time, parsed back from the text before its colon, is its hour. */
  lemma ClockTimeHour(h: nat, m: nat)
    requires h < 24 && m < 60
    ensures ParseInt(Split(ClockTime(h, m), ':')[0]) == Some(h)
  {
    Pad2Digits(h);
    assert ':' !in Pad2(h);
    SplitAfter(Pad2(h), ':', Pad2(m));
    ParseDigits(Pad2(h));
  }

  lemma LexLeCons(x: char, a: string, y: char, b: string)
    ensures LexLe([x] + a, [y] + b) == if x != y then x < y else LexLe(a, b)
  {
    assert ([x] + a)[1..] == a && ([y] + b)[1..] == b;
  }

  /** Comparing two padded numbers below 100 followed by more text compares the numbers first. */
  lemma Pad2Order(a: nat, r: string, b: nat, s: string)
    requires a < 100 && b < 100
    ensures LexLe(Pad2(a) + r, Pad2(b) + s) == if a != b then a < b else LexLe(r, s)
  {
    Pad2Digits(a);
    Pad2Digits(b);
    var x1, x2 := DigitChar(a / 10), DigitChar(a % 10);
    var y1, y2 := DigitChar(b / 10), DigitChar(b % 10);
    assert Pad2(a) + r == [x1] + ([x2] + r);
    assert Pad2(b) + s == [y1] + ([y2] + s);
    LexLeCons(x1, [x2] + r, y1, [y2] + s);
    LexLeCons(x2, r, y2, s);
  }

  /**
   * String order on zero-padded clock times is time order: the comparison
   * `startTime >= currentTime` means "not earlier".
   */
  lemma ClockTimeOrder(h1: nat, m1: nat, h2: nat, m2: nat)
    requires h1 < 24 && m1 < 60 && h2 < 24 && m2 < 60
    ensures LexLe(ClockTime(h1, m1), ClockTime(h2, m2)) <==> h1 * 60 + m1 <= h2 * 60 + m2
  {
    assert ClockTime(h1, m1) == Pad2(h1) + ([':'] + Pad2(m1));
    assert ClockTime(h2, m2) == Pad2(h2) + ([':'] + Pad2(m2));
    Pad2Order(h1, [':'] + Pad2(m1), h2, [':'] + Pad2(m2));
    LexLeCons(':', Pad2(m1), ':', Pad2(m2));
    assert Pad2(m1) + [] == Pad2(m1) && Pad2(m2) + [] == Pad2(m2);
    Pad2Order(m1, [], m2, []);
  }
}
