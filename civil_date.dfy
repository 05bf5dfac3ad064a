/**
 * Calendar dates as the JavaScript `Date` object treats them in UTC, without the
 * time of day: the proleptic Gregorian calendar, `setMonth`/`setFullYear` with the
 * ECMAScript MakeDay normalisation (a day past the end of the month spills into the
 * next month, it is not clamped), the `<`/`>` order, and the `YYYY-MM-DD` form that
 * `toISOString().split('T')[0]` writes and a date input field yields.
 */
module CivilDate {
  import opened Wrappers
  import Text

  /** A calendar day; `month` runs 1..12 (one more than `getMonth()`). */
  datatype Date = Date(year: int, month: int, day: int)

  predicate IsLeapYear(y: int) {
    y % 4 == 0 && (y % 100 != 0 || y % 400 == 0)
  }

  function DaysInMonth(y: int, m: int): (n: int)
    requires 1 <= m <= 12
    ensures 28 <= n <= 31
    ensures n == 29 <==> m == 2 && IsLeapYear(y)
  {
    if m == 2 then (if IsLeapYear(y) then 29 else 28)
    else if m == 4 || m == 6 || m == 9 || m == 11 then 30
    else 31
  }

  predicate Valid(d: Date) {
    1 <= d.month <= 12 && 1 <= d.day <= DaysInMonth(d.year, d.month)
  }

  /** `a < b` between two `Date` values (at the same time of day). */
  predicate Before(a: Date, b: Date) {
    a.year < b.year || (a.year == b.year && (a.month < b.month || (a.month == b.month && a.day < b.day)))
  }

  /** `Before` is a strict total order: exactly one of a < b, a == b, b < a holds. */
  lemma BeforeTrichotomy(a: Date, b: Date)
    ensures Before(a, b) || a == b || Before(b, a)
    ensures !(Before(a, b) && Before(b, a))
    ensures !Before(a, a)
  {
  }

  lemma BeforeTransitive(a: Date, b: Date, c: Date)
    requires Before(a, b) && Before(b, c)
    ensures Before(a, c)
  {
  }

  // ---------------------------------------------------------------- setMonth / setFullYear

  /**
   * ECMAScript MakeDay(year, monthIndex, day) for a day of month in 1..31: the
   * zero-based month index may lie outside 0..11 and carries into the year, and a
   * day past the end of the resulting month spills over into the month after it.
   */
  function MakeDay(year: int, monthIndex: int, day: int): (r: Date)
    requires 1 <= day <= 31
    ensures Valid(r)
  {
    var y := year + monthIndex / 12;
    var m := monthIndex % 12 + 1;
    var dim := DaysInMonth(y, m);
    if day <= dim then Date(y, m, day)
    else if m == 12 then Date(y + 1, 1, day - dim)
    else Date(y, m + 1, day - dim)
  }

  /** `d.getMonth()`. */
  function GetMonth(d: Date): int {
    d.month - 1
  }

  /** `d.setMonth(monthIndex)`: same year and day of month, the given zero-based month. */
  function SetMonth(d: Date, monthIndex: int): Date
    requires Valid(d)
  {
    MakeDay(d.year, monthIndex, d.day)
  }

  /** `d.setFullYear(year)`: same month and day of month, the given year. */
  function SetFullYear(d: Date, year: int): Date
    requires Valid(d)
  {
    MakeDay(year, d.month - 1, d.day)
  }

  /** The calendar month after month `m` of year `y`, as (year, month). */
  function NextMonth(y: int, m: int): (int, int) {
    if m == 12 then (y + 1, 1) else (y, m + 1)
  }

  /**
   * `d.setMonth(d.getMonth() + 1)`: the same day of the next calendar month
   * (December rolls over to January of the next year) when that month has the day;
   * otherwise the days beyond that month's end are counted into the month after.
   * Either way the result is a later date.
   */
  lemma SetMonthNext(d: Date)
    requires Valid(d)
    ensures var r := SetMonth(d, GetMonth(d) + 1);
            var (ny, nm) := NextMonth(d.year, d.month);
            var (sy, sm) := NextMonth(ny, nm);
            && Valid(r) && Before(d, r)
            && (d.day <= DaysInMonth(ny, nm) ==> r == Date(ny, nm, d.day))
            && (d.day > DaysInMonth(ny, nm) ==> r == Date(sy, sm, d.day - DaysInMonth(ny, nm)))
  {
    if d.month == 12 {
      assert (d.month - 1 + 1) / 12 == 1 && (d.month - 1 + 1) % 12 == 0;
    } else {
      assert (d.month - 1 + 1) / 12 == 0 && (d.month - 1 + 1) % 12 == d.month;
    }
  }

  /**
   * `d.setFullYear(d.getFullYear() + 1)`: the same month and day one year later,
   * except that 29 February becomes 1 March (the next year is never a leap year).
   * The result is a later date.
   */
  lemma SetFullYearNext(d: Date)
    requires Valid(d)
    ensures var r := SetFullYear(d, d.year + 1);
            && Valid(r) && Before(d, r)
            && (d.month == 2 && d.day == 29 ==> r == Date(d.year + 1, 3, 1))
            && (!(d.month == 2 && d.day == 29) ==> r == Date(d.year + 1, d.month, d.day))
  {
    assert (d.month - 1) / 12 == 0 && (d.month - 1) % 12 == d.month - 1;
    if d.month == 2 && d.day == 29 {
      assert IsLeapYear(d.year);
      assert !IsLeapYear(d.year + 1);
    }
  }

  /** 31 January 2024 plus one month is 2 March 2024: the two days past 29 February spill over. */
  lemma JanuaryEndPlusMonthLeap()
    ensures SetMonth(Date(2024, 1, 31), 1) == Date(2024, 3, 2)
  {
  }

  /** 31 January 2023 plus one month is 3 March 2023. */
  lemma JanuaryEndPlusMonth()
    ensures SetMonth(Date(2023, 1, 31), 1) == Date(2023, 3, 3)
  {
  }

  /** 31 December 2024 plus one month is 31 January 2025. */
  lemma DecemberPlusMonth()
    ensures SetMonth(Date(2024, 12, 31), 12) == Date(2025, 1, 31)
  {
  }

  /**
   * Adding a month is not monotone: 31 January 2023 comes before 1 February 2023,
   * yet one month after it (3 March) comes after one month after 1 February (1 March).
   */
  lemma AddMonthNotMonotone()
    ensures Before(Date(2023, 1, 31), Date(2023, 2, 1))
    ensures Before(SetMonth(Date(2023, 2, 1), 2), SetMonth(Date(2023, 1, 31), 1))
  {
  }

  // ---------------------------------------------------------------- YYYY-MM-DD

  /** `toISOString().split('T')[0]` for a date in years 0000..9999. */
  function FormatIsoDate(d: Date): (r: string)
    requires Valid(d) && 0 <= d.year <= 9999
    ensures |r| == 10 && r[4] == '-' && r[7] == '-'
  {
    Text.PadDigits(d.year, 4) + "-" + Text.PadDigits(d.month, 2) + "-" + Text.PadDigits(d.day, 2)
  }

  /**
   * The date a `YYYY-MM-DD` string denotes (what a date input yields); `None` for any
   * other string and for a month or day out of range.
   */
  function ParseIsoDate(s: string): (r: Option<Date>)
    ensures r.Some? ==> Valid(r.value) && 0 <= r.value.year <= 9999
  {
    if |s| == 10 && s[4] == '-' && s[7] == '-'
       && Text.AllDigits(s[..4]) && Text.AllDigits(s[5..7]) && Text.AllDigits(s[8..])
    then
      Text.DigitsPadRoundTrip(s[..4]);
      var d := Date(Text.DigitsValue(s[..4]), Text.DigitsValue(s[5..7]), Text.DigitsValue(s[8..]));
      if 1 <= d.month <= 12 && 1 <= d.day <= DaysInMonth(d.year, d.month) then Some(d) else None
    else None
  }

  /** Parsing the formatted date gives the date back. */
  lemma ParseFormat(d: Date)
    requires Valid(d) && 0 <= d.year <= 9999
    ensures ParseIsoDate(FormatIsoDate(d)) == Some(d)
  {
    var s := FormatIsoDate(d);
    assert s[..4] == Text.PadDigits(d.year, 4);
    assert s[5..7] == Text.PadDigits(d.month, 2);
    assert s[8..] == Text.PadDigits(d.day, 2);
    Text.PadDigitsValue(d.year, 4);
    Text.PadDigitsValue(d.month, 2);
    Text.PadDigitsValue(d.day, 2);
  }

  /** What a successful parse has checked: the shape of the text and the three digit blocks. */
  lemma ParsedShape(s: string, d: Date)
    requires ParseIsoDate(s) == Some(d)
    ensures |s| == 10 && s[4] == '-' && s[7] == '-'
    ensures Text.AllDigits(s[..4]) && Text.AllDigits(s[5..7]) && Text.AllDigits(s[8..])
    ensures d == Date(Text.DigitsValue(s[..4]), Text.DigitsValue(s[5..7]), Text.DigitsValue(s[8..]))
  {
  }

  /** The text is its three blocks joined by the two dashes. */
  lemma DashedBlocks(s: string)
    requires |s| == 10 && s[4] == '-' && s[7] == '-'
    ensures s == s[..4] + "-" + s[5..7] + "-" + s[8..]
  {
    assert forall k :: 0 <= k < 10 ==> s[k] == (s[..4] + "-" + s[5..7] + "-" + s[8..])[k];
  }

  /** A string that parses is exactly the formatted form of its date. */
  lemma FormatParse(s: string, d: Date)
    requires ParseIsoDate(s) == Some(d)
    ensures FormatIsoDate(d) == s
  {
    ParsedShape(s, d);
    var year, month, day := s[..4], s[5..7], s[8..];
    Text.DigitsPadRoundTrip(year);
    Text.DigitsPadRoundTrip(month);
    Text.DigitsPadRoundTrip(day);
    assert FormatIsoDate(d) == year + "-" + month + "-" + day;
    DashedBlocks(s);
  }
}
