/** The order date: `getDate()` renders today's date as `year-month-day`, each
    part in plain decimal without zero padding (March 5th 2024 is "2024-3-5").
    The clock read is left out: year, month (1 to 12, the clock's zero-based
    month plus one) and day of the month are parameters. */
module Dates {
  import opened Prelude

  predicate IsDigit(c: char) {
    '0' <= c <= '9'
  }

  predicate AllDigits(s: string) {
    forall i :: 0 <= i < |s| ==> IsDigit(s[i])
  }

  function DigitChar(d: nat): (c: char)
    requires d < 10
    ensures IsDigit(c) && (c as int) - ('0' as int) == d
  {
    (('0' as int) + d) as char
  }

  /** JavaScript's conversion of a non-negative integer to its decimal string in
      a template literal: shortest form, so a leading '0' only for zero itself. */
  function NatToDecimal(n: nat): (s: string)
    ensures |s| >= 1 && AllDigits(s)
    ensures s[0] == '0' ==> n == 0
    ensures |s| == 1 <==> n < 10
    decreases n
  {
    if n < 10 then [DigitChar(n)]
    else NatToDecimal(n / 10) + [DigitChar(n % 10)]
  }

  /** The value of a string of decimal digits (the reading side, used to state
      what a date string means). */
  function DecimalValue(s: string): nat
    requires AllDigits(s)
  {
    if s == [] then 0
    else DecimalValue(s[..|s| - 1]) * 10 + ((s[|s| - 1] as int) - ('0' as int))
  }

  lemma {:induction false} DecimalRoundTrip(n: nat)
    ensures DecimalValue(NatToDecimal(n)) == n
    decreases n
  {
    if n >= 10 {
      var s := NatToDecimal(n);
      assert s[..|s| - 1] == NatToDecimal(n / 10);
      DecimalRoundTrip(n / 10);
    }
  }

  /** `getDate()` with the clock's fields given: digits and dashes only, a digit
      at each end, five characters exactly when every part is a single digit.
      That it splits into exactly the three parts is `DateRoundTrip`. */
  function GetDate(year: nat, month: nat, day: nat): (date: string)
    ensures |date| >= 5
    ensures forall i :: 0 <= i < |date| && date[i] != '-' ==> IsDigit(date[i])
    ensures IsDigit(date[0]) && IsDigit(date[|date| - 1])
    ensures date[0] == '0' ==> year == 0
    ensures |date| == 5 <==> year < 10 && month < 10 && day < 10
  {
    NatToDecimal(year) + "-" + NatToDecimal(month) + "-" + NatToDecimal(day)
  }

  /** Splits `s` at every occurrence of `sep` (JavaScript's `s.split(sep)`). */
  function Split(s: string, sep: char): (parts: seq<string>)
    ensures |parts| >= 1
    decreases |s|
  {
    var i := FindIndex(s, c => c == sep);
    if i == -1 then [s] else [s[..i]] + Split(s[i + 1..], sep)
  }

  lemma SplitNoSeparator(s: string, sep: char)
    requires sep !in s
    ensures Split(s, sep) == [s]
  {
  }

  lemma NoDashInDigits(s: string)
    requires AllDigits(s)
    ensures '-' !in s
  {
  }

  lemma SplitFirst(a: string, sep: char, b: string)
    requires sep !in a
    ensures Split(a + [sep] + b, sep) == [a] + Split(b, sep)
  {
    var s := a + [sep] + b;
    var i := FindIndex(s, c => c == sep);
    assert s[|a|] == sep;
    assert forall j :: 0 <= j < |a| ==> s[j] == a[j];
    assert i == |a|;
    assert s[..i] == a;
    assert s[i + 1..] == b;
  }

  /** Reads a `year-month-day` string back into its three numbers. */
  function ParseDate(s: string): Option<(nat, nat, nat)> {
    var p := Split(s, '-');
    if |p| == 3 && |p[0]| > 0 && |p[1]| > 0 && |p[2]| > 0
       && AllDigits(p[0]) && AllDigits(p[1]) && AllDigits(p[2])
    then Some((DecimalValue(p[0]), DecimalValue(p[1]), DecimalValue(p[2])))
    else None
  }

  /** Every date `getDate` writes reads back as the year, month and day it was
      built from, each part written without padding. */
  lemma DateRoundTrip(year: nat, month: nat, day: nat)
    ensures ParseDate(GetDate(year, month, day)) == Some((year, month, day))
    ensures var p := Split(GetDate(year, month, day), '-');
      |p| == 3 && (p[0][0] == '0' ==> year == 0) && (p[1][0] == '0' ==> month == 0) && (p[2][0] == '0' ==> day == 0)
  {
    var y, m, d := NatToDecimal(year), NatToDecimal(month), NatToDecimal(day);
    DashJoin(y, m, d);
    SplitDate(y, m, d);
    DecimalRoundTrip(year);
    DecimalRoundTrip(month);
    DecimalRoundTrip(day);
  }

  lemma DashJoin(y: string, m: string, d: string)
    ensures y + "-" + m + "-" + d == y + ['-'] + (m + ['-'] + d)
  {
  }

  /** Three runs of digits joined by dashes split back into those three runs. */
  lemma SplitDate(y: string, m: string, d: string)
    requires AllDigits(y) && AllDigits(m) && AllDigits(d)
    ensures Split(y + ['-'] + (m + ['-'] + d), '-') == [y, m, d]
  {
    NoDashInDigits(y);
    NoDashInDigits(m);
    NoDashInDigits(d);
    SplitFirst(y, '-', m + ['-'] + d);
    SplitFirst(m, '-', d);
    SplitNoSeparator(d, '-');
  }
}
