/**
 * Proleptic Gregorian civil dates as Python's `datetime.date` sees them:
 * years 1..9999, the day ordinal of `date.toordinal()` (0001-01-01 is day 1),
 * `date.weekday()` (Monday is 0, Sunday is 6), stepping back one day as
 * `date - timedelta(days=1)` does, and the `%Y-%m-%d` text of `strftime`.
 */
module Calendar {
  import opened Wrappers

  datatype Date = Date(year: int, month: int, day: int)

  const MinDate := Date(1, 1, 1)
  const Saturday := 5
  const Sunday := 6
  const Friday := 4
  const Monday := 0

  predicate IsLeapYear(y: int) {
    y % 4 == 0 && (y % 100 != 0 || y % 400 == 0)
  }

  function DaysInMonth(y: int, m: int): (n: int)
    requires 1 <= m <= 12
    ensures 28 <= n <= 31
  {
    if m == 2 then (if IsLeapYear(y) then 29 else 28)
    else if m == 4 || m == 6 || m == 9 || m == 11 then 30
    else 31
  }

  function DaysInYear(y: int): int {
    if IsLeapYear(y) then 366 else 365
  }

  predicate ValidDate(d: Date) {
    && 1 <= d.year <= 9999
    && 1 <= d.month <= 12
    && 1 <= d.day <= DaysInMonth(d.year, d.month)
  }

  /** Number of days in the years before year `y` (Python's `_days_before_year`). */
  function DaysBeforeYear(y: int): int
    requires y >= 1
  {
    var p := y - 1;
    p * 365 + p / 4 - p / 100 + p / 400
  }

  /** Number of days in year `y` before month `m` (Python's `_days_before_month`). */
  function DaysBeforeMonth(y: int, m: int): int
    requires 1 <= m <= 12
  {
    [0, 31, 59, 90, 120, 151, 181, 212, 243, 273, 304, 334][m - 1]
    + (if m > 2 && IsLeapYear(y) then 1 else 0)
  }

  /** Day number of a date, 0001-01-01 being day 1 (`date.toordinal()`). */
  function ToOrdinal(d: Date): int
    requires ValidDate(d)
  {
    DaysBeforeYear(d.year) + DaysBeforeMonth(d.year, d.month) + d.day
  }

  function WeekdayOfOrdinal(n: int): int {
    (n + 6) % 7
  }

  /** `date.weekday()`: Monday is 0, Sunday is 6. */
  function Weekday(d: Date): (w: int)
    requires ValidDate(d)
    ensures 0 <= w < 7
  {
    WeekdayOfOrdinal(ToOrdinal(d))
  }

  /** Going from `p - 1` to `p` raises `p / c` by one exactly when `c` divides `p`. */
  lemma FloorSteps(p: int)
    requires p >= 1
    ensures p / 4 - (p - 1) / 4 == if p % 4 == 0 then 1 else 0
    ensures p / 100 - (p - 1) / 100 == if p % 100 == 0 then 1 else 0
    ensures p / 400 - (p - 1) / 400 == if p % 400 == 0 then 1 else 0
    ensures p % 400 == 0 ==> p % 100 == 0
    ensures p % 100 == 0 ==> p % 4 == 0
  {
  }

  /** The days before year `y` are those before year `y - 1` plus the length of year `y - 1`. */
  lemma {:induction false} DaysBeforeYearStep(y: int)
    requires y >= 2
    ensures DaysBeforeYear(y) == DaysBeforeYear(y - 1) + DaysInYear(y - 1)
  {
    var p := y - 1;
    FloorSteps(p);
  }

  /** The first day of the calendar has ordinal 1, and every valid date has a positive ordinal. */
  lemma OrdinalPositive(d: Date)
    requires ValidDate(d)
    ensures ToOrdinal(d) >= 1
    ensures ToOrdinal(d) == 1 <==> d == MinDate
  {
  }

  /**
   * The day before `d` (`d - timedelta(days=1)`); Python raises OverflowError
   * below 0001-01-01, so the first day has no predecessor.
   */
  function PrevDay(d: Date): (r: Date)
    requires ValidDate(d) && d != MinDate
    ensures ValidDate(r)
    ensures ToOrdinal(r) == ToOrdinal(d) - 1
  {
    if d.day > 1 then
      Date(d.year, d.month, d.day - 1)
    else if d.month > 1 then
      Date(d.year, d.month - 1, DaysInMonth(d.year, d.month - 1))
    else
      DaysBeforeYearStep(d.year);
      Date(d.year - 1, 12, 31)
  }

  /** Stepping back a day moves the weekday back by one, modulo 7. */
  lemma PrevDayWeekday(d: Date)
    requires ValidDate(d) && d != MinDate
    ensures Weekday(PrevDay(d)) == (Weekday(d) + 6) % 7
  {
    WeekdayStep(ToOrdinal(d));
  }

  lemma WeekdayStep(n: int)
    ensures WeekdayOfOrdinal(n - 1) == (WeekdayOfOrdinal(n) + 6) % 7
  {
    var q, r := (n + 6) / 7, (n + 6) % 7;
    if r == 0 {
      assert n + 5 == 7 * (q - 1) + 6;
    } else {
      assert n + 5 == 7 * q + (r - 1);
    }
  }

  // ---------------------------------------------------------------------
  // The `%Y-%m-%d` text of a date, and reading it back.

  function Pow10(n: nat): (p: nat)
    ensures p >= 1
  {
    if n == 0 then 1 else 10 * Pow10(n - 1)
  }

  function DigitChar(n: int): (c: char)
    requires 0 <= n < 10
    ensures '0' <= c <= '9'
  {
    (48 + n) as char
  }

  predicate IsDigit(c: char) {
    '0' <= c <= '9'
  }

  function DigitValue(c: char): (n: int)
    requires IsDigit(c)
    ensures 0 <= n < 10
  {
    c as int - 48
  }

  /** Decimal text of `n`, zero-padded on the left to exactly `width` digits. */
  function ZeroPad(n: int, width: nat): (s: string)
    requires 0 <= n < Pow10(width)
    ensures |s| == width
    ensures forall i :: 0 <= i < |s| ==> IsDigit(s[i])
  {
    if width == 0 then "" else ZeroPad(n / 10, width - 1) + [DigitChar(n % 10)]
  }

  /** Value of a decimal digit string. */
  function DecimalValue(s: string): int
    requires forall i :: 0 <= i < |s| ==> IsDigit(s[i])
  {
    if |s| == 0 then 0 else 10 * DecimalValue(s[..|s| - 1]) + DigitValue(s[|s| - 1])
  }

  lemma {:induction false} DecimalValueOfZeroPad(n: int, width: nat)
    requires 0 <= n < Pow10(width)
    ensures DecimalValue(ZeroPad(n, width)) == n
  {
    if width > 0 {
      var s := ZeroPad(n, width);
      assert s[..|s| - 1] == ZeroPad(n / 10, width - 1);
      DecimalValueOfZeroPad(n / 10, width - 1);
    }
  }

  /** `date.strftime("%Y-%m-%d")`: four-digit year, two-digit month and day. */
  function FormatDate(d: Date): (s: string)
    requires ValidDate(d)
    ensures |s| == 10 && s[4] == '-' && s[7] == '-'
    ensures forall i :: 0 <= i < 10 && i != 4 && i != 7 ==> IsDigit(s[i])
  {
    ZeroPad(d.year, 4) + "-" + ZeroPad(d.month, 2) + "-" + ZeroPad(d.day, 2)
  }

  predicate AllDigits(s: string) {
    forall i :: 0 <= i < |s| ==> IsDigit(s[i])
  }

  /** Reads `YYYY-MM-DD` text back into a valid date, if it is one. */
  function ParseDate(s: string): (r: Option<Date>)
    ensures r.Some? ==> ValidDate(r.value)
  {
    if |s| == 10 && s[4] == '-' && s[7] == '-'
       && AllDigits(s[..4]) && AllDigits(s[5..7]) && AllDigits(s[8..])
    then
      var d := Date(DecimalValue(s[..4]), DecimalValue(s[5..7]), DecimalValue(s[8..]));
      if ValidDate(d) then Some(d) else None
    else None
  }

  /** Formatting a date and reading it back gives the date again. */
  lemma {:induction false} ParseFormatDate(d: Date)
    requires ValidDate(d)
    ensures ParseDate(FormatDate(d)) == Some(d)
  {
    var s := FormatDate(d);
    assert s[..4] == ZeroPad(d.year, 4);
    assert s[5..7] == ZeroPad(d.month, 2);
    assert s[8..] == ZeroPad(d.day, 2);
    DecimalValueOfZeroPad(d.year, 4);
    DecimalValueOfZeroPad(d.month, 2);
    DecimalValueOfZeroPad(d.day, 2);
  }

  /** Two dates have the same text only if they are the same date. */
  lemma FormatDateInjective(a: Date, b: Date)
    requires ValidDate(a) && ValidDate(b)
    ensures FormatDate(a) == FormatDate(b) <==> a == b
  {
    if FormatDate(a) == FormatDate(b) {
      ParseFormatDate(a);
      ParseFormatDate(b);
    }
  }
}
