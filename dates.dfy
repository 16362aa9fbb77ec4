/**
 * Calendar dates as `DateTime.TryParseExact(s, "ddMMyy", InvariantCulture, None)` reads them and
 * as `ToString("ddMMyy")` and `ToString("dd/MM/yyyy")` print them. A parsed value has no time of
 * day (midnight), so a date is modelled by its day, month and year alone.
 */
module Dates {
  import opened Wrappers
  import opened Numbers

  datatype Date = Date(year: int, month: int, day: int)

  /** The proleptic Gregorian leap-year rule `DateTime` uses. */
  predicate IsLeapYear(y: int) {
    y % 4 == 0 && (y % 100 != 0 || y % 400 == 0)
  }

  function DaysInMonth(y: int, m: int): (n: int)
    requires 1 <= m <= 12
    ensures 28 <= n <= 31
  {
    if m == 2 then (if IsLeapYear(y) then 29 else 28)
    else if m == 4 || m == 6 || m == 9 || m == 11 then 30
    else 31
  }

  /** A day `DateTime` can represent (years 1 to 9999). */
  predicate IsValidDate(d: Date) {
    1 <= d.year <= 9999 && 1 <= d.month <= 12 && 1 <= d.day <= DaysInMonth(d.year, d.month)
  }

  /** The values a `DateTime` can hold. */
  type DateValue = d: Date | IsValidDate(d) witness Date(2000, 1, 1)

  /** The invariant culture's two-digit-year window, whose `TwoDigitYearMax` is 2049:
      00 to 49 are read as 2000 to 2049, 50 to 99 as 1950 to 1999. */
  function ExpandYear(yy: nat): (y: int)
    requires yy < 100
    ensures 1950 <= y <= 2049 && y % 100 == yy
  {
    if yy <= 49 then 2000 + yy else 1900 + yy
  }

  /** The years a two-digit pattern can read or print without loss. */
  predicate InYearWindow(d: Date) {
    1950 <= d.year <= 2049
  }

  /** The value of two decimal digits. */
  function TwoDigitValue(a: char, b: char): (n: nat)
    requires IsDigit(a) && IsDigit(b)
    ensures n < 100
  {
    10 * DigitValue(a) + DigitValue(b)
  }

  /** `DateTime.TryParseExact(s, "ddMMyy", ...)`: exactly two ASCII digits for each of day, month and
      two-digit year, no blanks, and the day must exist in that month of that year. */
  function ParseDdMMyy(s: string): (r: Option<DateValue>)
    ensures r.Some? ==> InYearWindow(r.value)
    ensures r.Some? ==> |s| == 6
  {
    if |s| != 6 || !SixDigits(s) then None
    else
      var d := Date(ExpandYear(TwoDigitValue(s[4], s[5])), TwoDigitValue(s[2], s[3]), TwoDigitValue(s[0], s[1]));
      if IsValidDate(d) then Some(d) else None
  }

  predicate SixDigits(s: string)
    requires |s| == 6
  {
    IsDigit(s[0]) && IsDigit(s[1]) && IsDigit(s[2]) && IsDigit(s[3]) && IsDigit(s[4]) && IsDigit(s[5])
  }

  /** Two digits with a leading zero. */
  function Pad2(n: nat): (s: string)
    requires n < 100
    ensures |s| == 2 && AllDigits(s) && TwoDigitValue(s[0], s[1]) == n
  {
    [DigitChar(n / 10), DigitChar(n % 10)]
  }

  /** Four digits with leading zeros. */
  function Pad4(n: nat): (s: string)
    requires n < 10000
    ensures |s| == 4 && AllDigits(s)
    ensures 100 * TwoDigitValue(s[0], s[1]) + TwoDigitValue(s[2], s[3]) == n
  {
    Pad2(n / 100) + Pad2(n % 100)
  }

  /** `ToString("ddMMyy")`. */
  function FormatDdMMyy(d: Date): (s: string)
    requires IsValidDate(d)
    ensures |s| == 6 && AllDigits(s)
  {
    Pad2(d.day) + Pad2(d.month) + Pad2(d.year % 100)
  }

  /** `ToString("dd/MM/yyyy")`, taking '/' as the date separator. */
  function FormatDisplay(d: Date): (s: string)
    requires IsValidDate(d)
    ensures |s| == 10 && s[2] == '/' && s[5] == '/'
  {
    Pad2(d.day) + "/" + Pad2(d.month) + "/" + Pad4(d.year)
  }

  /** A date in the two-digit-year window survives printing as ddMMyy and reading back. */
  lemma ParseFormatDdMMyy(d: Date)
    requires IsValidDate(d) && InYearWindow(d)
    ensures ParseDdMMyy(FormatDdMMyy(d)) == Some(d)
  {
    var dd, mm, yy := Pad2(d.day), Pad2(d.month), Pad2(d.year % 100);
    var s := FormatDdMMyy(d);
    assert s == dd + mm + yy;
    assert s[0] == dd[0] && s[1] == dd[1] && s[2] == mm[0] && s[3] == mm[1] && s[4] == yy[0] && s[5] == yy[1];
    assert SixDigits(s);
    ExpandYearInWindow(d.year);
    assert Date(ExpandYear(TwoDigitValue(s[4], s[5])), TwoDigitValue(s[2], s[3]), TwoDigitValue(s[0], s[1])) == d;
  }

  /** The window reads back the two last digits of any year inside it. */
  lemma ExpandYearInWindow(year: int)
    requires 1950 <= year <= 2049
    ensures ExpandYear(year % 100) == year
  {
    if year < 2000 {
      assert year % 100 == year - 1900;
    } else {
      assert year % 100 == year - 2000;
    }
  }

  /** What ParseDdMMyy accepts prints back as the same six characters. */
  lemma FormatParseDdMMyy(s: string)
    requires ParseDdMMyy(s).Some?
    ensures FormatDdMMyy(ParseDdMMyy(s).value) == s
  {
    var d := ParseDdMMyy(s).value;
    var t := FormatDdMMyy(d);
    DigitsDetermined(s[0], s[1], t[0], t[1]);
    DigitsDetermined(s[2], s[3], t[2], t[3]);
    DigitsDetermined(s[4], s[5], t[4], t[5]);
  }

  /** Two digit pairs with the same value are the same characters. */
  lemma DigitsDetermined(a: char, b: char, c: char, e: char)
    requires IsDigit(a) && IsDigit(b) && IsDigit(c) && IsDigit(e)
    requires TwoDigitValue(a, b) == TwoDigitValue(c, e)
    ensures a == c && b == e
  {
  }

  /** The dd/MM/yyyy text of a date determines the date. */
  lemma FormatDisplayInjective(d1: Date, d2: Date)
    requires IsValidDate(d1) && IsValidDate(d2)
    requires FormatDisplay(d1) == FormatDisplay(d2)
    ensures d1 == d2
  {
    var s1, s2 := FormatDisplay(d1), FormatDisplay(d2);
    assert TwoDigitValue(s1[0], s1[1]) == d1.day && TwoDigitValue(s2[0], s2[1]) == d2.day;
    assert TwoDigitValue(s1[3], s1[4]) == d1.month && TwoDigitValue(s2[3], s2[4]) == d2.month;
    assert 100 * TwoDigitValue(s1[6], s1[7]) + TwoDigitValue(s1[8], s1[9]) == d1.year;
    assert 100 * TwoDigitValue(s2[6], s2[7]) + TwoDigitValue(s2[8], s2[9]) == d2.year;
  }

  /** "111225" is 11 December 2025; "311125" names a day November does not have. */
  lemma ParseExamples()
    ensures ParseDdMMyy("111225") == Some(Date(2025, 12, 11))
    ensures ParseDdMMyy("110626") == Some(Date(2026, 6, 11))
    ensures ParseDdMMyy("311125").None?
    ensures ParseDdMMyy("290223").None? && ParseDdMMyy("290224") == Some(Date(2024, 2, 29))
    ensures ParseDdMMyy("1112").None? && ParseDdMMyy("11 225").None?
  {
    assert "11 225"[2] == ' ';
  }
}
