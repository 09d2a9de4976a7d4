/** The "minutes : seconds" text that every screen of the timer shows.
    The source has four copies of one formatter: three put " : " between the
    parts and the confirmation screen puts ":". It writes both parts in plain
    decimal, without zero padding, so 65 seconds reads "1 : 5". */
module Clock {
  import Options

  type Option<T> = Options.Option<T>

  const SpacedSeparator: string := " : "
  const CompactSeparator: string := ":"

  predicate IsDigit(c: char) {
    '0' <= c <= '9'
  }

  predicate AllDigits(s: string) {
    forall i :: 0 <= i < |s| ==> IsDigit(s[i])
  }

  function DigitChar(d: nat): (c: char)
    requires d < 10
    ensures IsDigit(c) && c as int - '0' as int == d
  {
    ('0' as int + d) as char
  }

  function DigitValue(c: char): (d: nat)
    requires IsDigit(c)
    ensures d < 10
  {
    c as int - '0' as int
  }

  /** The decimal text of n, most significant digit first, no leading zeros. */
  function DecimalString(n: nat): (s: string)
    ensures |s| > 0 && AllDigits(s)
    ensures s[0] == '0' <==> n == 0
    ensures n == 0 ==> s == "0"
  {
    if n < 10 then [DigitChar(n)] else DecimalString(n / 10) + [DigitChar(n % 10)]
  }

  /** The value of a string of decimal digits (the reading direction of DecimalString). */
  function DecimalValue(s: string): nat
    requires AllDigits(s)
  {
    if s == [] then 0 else DecimalValue(s[..|s| - 1]) * 10 + DigitValue(s[|s| - 1])
  }

  lemma {:induction false} DecimalRoundTrip(n: nat)
    ensures DecimalValue(DecimalString(n)) == n
  {
    var s := DecimalString(n);
    if n >= 10 {
      DecimalRoundTrip(n / 10);
      assert s[..|s| - 1] == DecimalString(n / 10);
    }
  }

  /** The formatter: whole minutes, the separator, then the seconds left over. */
  function FormatClock(seconds: nat, separator: string): string {
    DecimalString(seconds / 60) + separator + DecimalString(seconds % 60)
  }

  /** Number of leading decimal digits of s. */
  function LeadingDigits(s: string): (k: nat)
    ensures k <= |s| && AllDigits(s[..k])
    ensures k < |s| ==> !IsDigit(s[k])
  {
    if s == [] || !IsDigit(s[0]) then 0
    else
      var k := 1 + LeadingDigits(s[1..]);
      assert s[..k] == [s[0]] + s[1..][..k - 1];
      k
  }

  /** Reads back a clock text: digits, the separator, digits whose value is below 60. */
  function ParseClock(t: string, separator: string): Option<nat> {
    var k := LeadingDigits(t);
    if k == 0 || k + |separator| > |t| || t[k..k + |separator|] != separator then Options.None
    else
      var rest := t[k + |separator|..];
      if rest == [] || !AllDigits(rest) then Options.None
      else
        var m, s := DecimalValue(t[..k]), DecimalValue(rest);
        if s >= 60 then Options.None else Options.Some(m * 60 + s)
  }

  lemma {:induction false} LeadingDigitsOfPrefix(a: string, b: string)
    requires AllDigits(a)
    requires b != [] && !IsDigit(b[0])
    ensures LeadingDigits(a + b) == |a|
  {
    if a != [] {
      assert (a + b)[1..] == a[1..] + b;
      LeadingDigitsOfPrefix(a[1..], b);
    }
  }

  /** The formatter loses nothing: the clock text determines the seconds, and
      the seconds part it shows is always in 0..59. */
  lemma FormatClockRoundTrip(seconds: nat, separator: string)
    requires separator != [] && !IsDigit(separator[0])
    ensures ParseClock(FormatClock(seconds, separator), separator) == Options.Some(seconds)
  {
    var m, s := DecimalString(seconds / 60), DecimalString(seconds % 60);
    var t := FormatClock(seconds, separator);
    assert t == m + (separator + s);
    LeadingDigitsOfPrefix(m, separator + s);
    assert t[..|m|] == m;
    assert t[|m|..|m| + |separator|] == separator;
    assert t[|m| + |separator|..] == s;
    DecimalRoundTrip(seconds / 60);
    DecimalRoundTrip(seconds % 60);
  }

  lemma SeparatorsAreReadable()
    ensures !IsDigit(SpacedSeparator[0]) && !IsDigit(CompactSeparator[0])
  {
  }

  /** No zero padding and no spaces on the confirmation screen: 65 s is "1:5". */
  lemma CompactExample()
    ensures FormatClock(65, CompactSeparator) == "1:5"
    ensures FormatClock(65, SpacedSeparator) == "1 : 5"
  {
  }
}
