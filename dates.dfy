/**
 * Calendar values as java.time gives them to the app: `YearMonth` with
 * `plusMonths(1)` / `minusMonths(1)`, and `LocalDate` with its ISO 8601
 * extended calendar-date text form YYYY-MM-DD (ISO 8601:2004 section
 * 4.1.2.2), written by `LocalDate.toString` and read by `LocalDate.parse`.
 */
module Dates {
  import opened Wrappers
  import opened Text

  /** `java.time.Month` as its number: January is 1, December is 12. */
  type MonthOfYear = m: int | 1 <= m <= 12 witness 1

  const January: MonthOfYear := 1
  const December: MonthOfYear := 12

  datatype YearMonth = YearMonth(year: int, month: MonthOfYear) {

    /** The number of months since January of year 0; it orders year-months and tells them apart. */
    function Ordinal(): int {
      year * 12 + (month - 1)
    }

    /** `plusMonths(1)`: December rolls over to January of the next year. */
    function Next(): (r: YearMonth)
      ensures r.Ordinal() == Ordinal() + 1
    {
      if month == December then YearMonth(year + 1, January) else YearMonth(year, month + 1)
    }

    /** `minusMonths(1)`: January rolls back to December of the previous year. */
    function Previous(): (r: YearMonth)
      ensures r.Ordinal() == Ordinal() - 1
    {
      if month == January then YearMonth(year - 1, December) else YearMonth(year, month - 1)
    }
  }

  /** Two year-months with the same ordinal are the same year-month. */
  lemma OrdinalInjective(a: YearMonth, b: YearMonth)
    requires a.Ordinal() == b.Ordinal()
    ensures a == b
  {
  }

  /** Stepping forward then back, or back then forward, returns to the same year-month. */
  lemma NextPreviousInverse(ym: YearMonth)
    ensures ym.Next().Previous() == ym
    ensures ym.Previous().Next() == ym
  {
    OrdinalInjective(ym.Next().Previous(), ym);
    OrdinalInjective(ym.Previous().Next(), ym);
  }

  /** A `LocalDate`; only values satisfying `ValidDate` stand for one. */
  datatype Date = Date(year: int, month: int, day: int)

  /** Gregorian leap years: divisible by 4, except centuries not divisible by 400. */
  predicate IsLeapYear(y: int) {
    y % 4 == 0 && (y % 100 != 0 || y % 400 == 0)
  }

  function DaysInMonth(y: int, m: MonthOfYear): (n: nat)
    ensures 28 <= n <= 31
  {
    if m == 2 then (if IsLeapYear(y) then 29 else 28)
    else if m == 4 || m == 6 || m == 9 || m == 11 then 30
    else 31
  }

  /** A real calendar day whose year has the four-digit ISO form. */
  predicate ValidDate(d: Date) {
    && 0 <= d.year <= 9999
    && 1 <= d.month <= 12
    && 1 <= d.day <= DaysInMonth(d.year, d.month)
  }

  /** `YearMonth.from(date)`: the day is dropped. */
  function YearMonthOf(d: Date): (ym: YearMonth)
    requires ValidDate(d)
    ensures ym.year == d.year && ym.month == d.month
  {
    YearMonth(d.year, d.month)
  }

  /** `LocalDate.toString`: YYYY-MM-DD with zero-padded fields. */
  function FormatDate(d: Date): (s: string)
    requires ValidDate(d)
    ensures |s| == 10 && s[4] == '-' && s[7] == '-'
  {
    PadDigits(d.year, 4) + "-" + PadDigits(d.month, 2) + "-" + PadDigits(d.day, 2)
  }

  /**
   * `LocalDate.parse` with the ISO local-date format: four digits, a dash,
   * two digits, a dash, two digits, naming a real calendar day. `None`
   * stands for the `DateTimeParseException` it throws otherwise.
   */
  function ParseDate(s: string): (r: Option<Date>)
    ensures r.Some? ==> ValidDate(r.value)
  {
    if |s| == 10 && s[4] == '-' && s[7] == '-'
       && AllDigits(s[..4]) && AllDigits(s[5..7]) && AllDigits(s[8..])
    then
      var d := Date(DigitsValue(s[..4]), DigitsValue(s[5..7]), DigitsValue(s[8..]));
      if ValidDate(d) then Some(d) else None
    else None
  }

  /** Parsing the text `LocalDate.toString` writes gives back the same date. */
  lemma ParseFormatRoundTrip(d: Date)
    requires ValidDate(d)
    ensures ParseDate(FormatDate(d)) == Some(d)
  {
    var y, m, dd := PadDigits(d.year, 4), PadDigits(d.month, 2), PadDigits(d.day, 2);
    var s := FormatDate(d);
    assert s[..4] == y;
    assert s[5..7] == m;
    assert s[8..] == dd;
    assert Pow10(4) == 10000 && Pow10(2) == 100;
    PadDigitsRoundTrip(d.year, 4);
    PadDigitsRoundTrip(d.month, 2);
    PadDigitsRoundTrip(d.day, 2);
  }

  /** Every text `LocalDate.parse` accepts is exactly the text `toString` writes for the result. */
  lemma FormatParseRoundTrip(s: string)
    requires ParseDate(s).Some?
    ensures FormatDate(ParseDate(s).value) == s
  {
    PadDigitsCanonical(s[..4]);
    PadDigitsCanonical(s[5..7]);
    PadDigitsCanonical(s[8..]);
    assert s == s[..4] + "-" + s[5..7] + "-" + s[8..];
  }
}
