/** Calendar dates as the pipeline sees them after `pd.to_datetime`, and the `YYYY-MM` month
    key of app.py:65 (`to_period('M').astype(str)`). */
module Calendar {
  import opened Strings

  datatype CalendarDate = CalendarDate(year: int, month: int, day: int)

  /** The years a pandas nanosecond timestamp can fall in. */
  const MinYear := 1677
  const MaxYear := 2262

  predicate IsLeapYear(y: int) {
    y % 4 == 0 && (y % 100 != 0 || y % 400 == 0)
  }

  function DaysInMonth(y: int, m: int): int
    requires 1 <= m <= 12
  {
    if m == 2 then (if IsLeapYear(y) then 29 else 28)
    else if m == 4 || m == 6 || m == 9 || m == 11 then 30
    else 31
  }

  predicate ValidDate(d: CalendarDate) {
    && MinYear <= d.year <= MaxYear
    && 1 <= d.month <= 12
    && 1 <= d.day <= DaysInMonth(d.year, d.month)
  }

  /** A date a parsed `Order Date` can hold. */
  type Date = d: CalendarDate | ValidDate(d) witness CalendarDate(1970, 1, 1)

  function DigitChar(n: nat): (c: char)
    requires n < 10
    ensures IsDigit(c) && DigitValue(c) == n
  {
    ('0' as int + n) as char
  }

  /** `n` written in decimal with exactly `width` digits, zero-padded on the left. */
  function PadDigits(n: nat, width: nat): (s: string)
    requires n < Pow10(width)
    ensures |s| == width && AllDigits(s)
    ensures DigitsValue(s) == n
  {
    if width == 0 then []
    else
      var s := PadDigits(n / 10, width - 1) + [DigitChar(n % 10)];
      assert s[..|s| - 1] == PadDigits(n / 10, width - 1);
      s
  }

  /** The month key of a date: four-digit year, '-', two-digit month. It is a well-formed key
      that reads back as the date's year and month. */
  function YearMonth(d: Date): (key: string)
    ensures IsMonthKey(key)
    ensures KeyYear(key) == d.year && KeyMonth(key) == d.month
  {
    var y, m := PadDigits(d.year, 4), PadDigits(d.month, 2);
    var key := y + "-" + m;
    assert key[..4] == y && key[5..] == m;
    key
  }

  /** A string shaped `YYYY-MM`. */
  predicate IsMonthKey(key: string) {
    |key| == 7 && key[4] == '-' && AllDigits(key[..4]) && AllDigits(key[5..])
  }

  function KeyYear(key: string): nat
    requires IsMonthKey(key)
  {
    DigitsValue(key[..4])
  }

  function KeyMonth(key: string): nat
    requires IsMonthKey(key)
  {
    DigitsValue(key[5..])
  }

  /** Two dates share a month key exactly when they fall in the same month of the same year. */
  lemma YearMonthSameMonth(d: Date, e: Date)
    ensures YearMonth(d) == YearMonth(e) <==> d.year == e.year && d.month == e.month
  {
  }
}
