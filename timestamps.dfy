/** Calendar timestamps and the `%Y%m%d%H%M%S` rendering that names an uploaded
    delivery photo. `ParseStamp` is not part of the service: it is the inverse
    that shows the rendering loses nothing, so two different instants never
    give the same stamp. */
module Timestamps {

  /** A naive date and time of day, to the second. */
  datatype DateTime = DateTime(year: int, month: int, day: int, hour: int, minute: int, second: int)

  predicate IsLeapYear(year: int) {
    year % 4 == 0 && (year % 100 != 0 || year % 400 == 0)
  }

  function DaysInMonth(year: int, month: int): int
    requires 1 <= month <= 12
  {
    if month == 2 then (if IsLeapYear(year) then 29 else 28)
    else if month == 4 || month == 6 || month == 9 || month == 11 then 30
    else 31
  }

  /** The ranges a datetime value always has, restricted to four-digit years
      (for which `%Y` is four digits on every platform). */
  predicate ValidDateTime(t: DateTime) {
    && 1000 <= t.year <= 9999
    && 1 <= t.month <= 12
    && 1 <= t.day <= DaysInMonth(t.year, t.month)
    && 0 <= t.hour <= 23
    && 0 <= t.minute <= 59
    && 0 <= t.second <= 59
  }

  predicate IsDigit(c: char) {
    '0' <= c <= '9'
  }

  predicate AllDigits(s: string) {
    forall i :: 0 <= i < |s| ==> IsDigit(s[i])
  }

  function Pow10(n: nat): (p: nat)
    ensures p >= 1
  {
    if n == 0 then 1 else 10 * Pow10(n - 1)
  }

  function DigitChar(d: int): (c: char)
    requires 0 <= d <= 9
    ensures IsDigit(c)
  {
    ('0' as int + d) as char
  }

  function DigitValue(c: char): (d: int)
    requires IsDigit(c)
    ensures 0 <= d <= 9
    ensures DigitChar(d) == c
  {
    c as int - '0' as int
  }

  /** `n` in decimal, zero-padded on the left to exactly `width` digits. */
  function PadDigits(n: nat, width: nat): (s: string)
    requires n < Pow10(width)
    ensures |s| == width
    ensures AllDigits(s)
  {
    if width == 0 then "" else PadDigits(n / 10, width - 1) + [DigitChar(n % 10)]
  }

  /** The number a string of decimal digits denotes. */
  function ParseDigits(s: string): (n: nat)
    requires AllDigits(s)
    ensures n < Pow10(|s|)
  {
    if s == "" then 0 else 10 * ParseDigits(s[..|s| - 1]) + DigitValue(s[|s| - 1])
  }

  lemma {:induction false} ParsePadDigits(n: nat, width: nat)
    requires n < Pow10(width)
    ensures ParseDigits(PadDigits(n, width)) == n
  {
    if width > 0 {
      var s := PadDigits(n, width);
      assert s[..|s| - 1] == PadDigits(n / 10, width - 1);
      ParsePadDigits(n / 10, width - 1);
    }
  }

  /** `strftime('%Y%m%d%H%M%S')`. */
  function FormatStamp(t: DateTime): (s: string)
    requires ValidDateTime(t)
    ensures |s| == 14
    ensures AllDigits(s)
  {
    PadDigits(t.year, 4) + PadDigits(t.month, 2) + PadDigits(t.day, 2)
    + PadDigits(t.hour, 2) + PadDigits(t.minute, 2) + PadDigits(t.second, 2)
  }

  /** Reads a fourteen-digit stamp back into its six fields. */
  function ParseStamp(s: string): DateTime
    requires |s| == 14 && AllDigits(s)
  {
    DateTime(ParseDigits(s[0..4]), ParseDigits(s[4..6]), ParseDigits(s[6..8]),
             ParseDigits(s[8..10]), ParseDigits(s[10..12]), ParseDigits(s[12..14]))
  }

  /** Each field of a stamp sits at its fixed offset. */
  lemma StampFields(t: DateTime)
    requires ValidDateTime(t)
    ensures var s := FormatStamp(t);
      && s[0..4] == PadDigits(t.year, 4) && s[4..6] == PadDigits(t.month, 2) && s[6..8] == PadDigits(t.day, 2)
      && s[8..10] == PadDigits(t.hour, 2) && s[10..12] == PadDigits(t.minute, 2) && s[12..14] == PadDigits(t.second, 2)
  {
    var date := PadDigits(t.year, 4) + PadDigits(t.month, 2) + PadDigits(t.day, 2);
    var time := PadDigits(t.hour, 2) + PadDigits(t.minute, 2) + PadDigits(t.second, 2);
    assert FormatStamp(t) == date + time;
    assert (date + time)[0..8] == date && (date + time)[8..14] == time;
  }

  lemma StampRoundTrip(t: DateTime)
    requires ValidDateTime(t)
    ensures ParseStamp(FormatStamp(t)) == t
  {
    StampFields(t);
    ParsePadDigits(t.year, 4);
    ParsePadDigits(t.month, 2);
    ParsePadDigits(t.day, 2);
    ParsePadDigits(t.hour, 2);
    ParsePadDigits(t.minute, 2);
    ParsePadDigits(t.second, 2);
  }

  /** Different instants render to different stamps. */
  lemma StampInjective(t1: DateTime, t2: DateTime)
    requires ValidDateTime(t1) && ValidDateTime(t2)
    requires FormatStamp(t1) == FormatStamp(t2)
    ensures t1 == t2
  {
    StampRoundTrip(t1);
    StampRoundTrip(t2);
  }
}
