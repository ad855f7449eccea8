/**
 * The reference trading date of `get_market_reference_date`: the session whose
 * data the provider is taken to have finalised at a given US Eastern local
 * instant. At or before 16:00 that is yesterday, after it today, and a Saturday
 * or Sunday falls back to the Friday before.
 */
module TradingCalendar {
  import opened Wrappers
  import opened Calendar

  datatype TimeOfDay = TimeOfDay(hour: int, minute: int, second: int, microsecond: int)

  /** An already-localised Eastern wall-clock instant. */
  datatype LocalInstant = LocalInstant(date: Date, time: TimeOfDay)

  const MarketClose := TimeOfDay(16, 0, 0, 0)

  predicate ValidTime(t: TimeOfDay) {
    && 0 <= t.hour < 24
    && 0 <= t.minute < 60
    && 0 <= t.second < 60
    && 0 <= t.microsecond < 1000000
  }

  /** Wall-clock order on times of one day, field by field. */
  predicate TimeAtOrBefore(a: TimeOfDay, b: TimeOfDay) {
    || a.hour < b.hour
    || (a.hour == b.hour && a.minute < b.minute)
    || (a.hour == b.hour && a.minute == b.minute && a.second < b.second)
    || (a.hour == b.hour && a.minute == b.minute && a.second == b.second && a.microsecond <= b.microsecond)
  }

  /**
   * `now <= market_close`: both carry the same tzinfo, so Python compares the
   * wall-clock fields, and the dates are equal.
   */
  predicate AtOrBeforeClose(t: TimeOfDay) {
    TimeAtOrBefore(t, MarketClose)
  }

  /**
   * The instants the computation handles: a valid date and time, except a
   * morning of 0001-01-01, whose "yesterday" Python cannot represent.
   */
  predicate Computable(now: LocalInstant) {
    && ValidDate(now.date)
    && ValidTime(now.time)
    && !(now.date == MinDate && AtOrBeforeClose(now.time))
  }

  /** The day number the computation starts from: yesterday's at or before the close, today's after it. */
  function SessionOrdinal(now: LocalInstant): int
    requires ValidDate(now.date)
  {
    ToOrdinal(now.date) - (if AtOrBeforeClose(now.time) then 1 else 0)
  }

  predicate IsWeekend(n: int) {
    WeekdayOfOrdinal(n) == Saturday || WeekdayOfOrdinal(n) == Sunday
  }

  /** The session day: yesterday at or before the close, today after it. */
  function SessionDay(now: LocalInstant): (d: Date)
    requires Computable(now)
    ensures ValidDate(d) && ToOrdinal(d) == SessionOrdinal(now)
  {
    if AtOrBeforeClose(now.time) then PrevDay(now.date) else now.date
  }

  /** How many days the weekend adjustment steps back from a day with weekday `w`. */
  function WeekendBackstep(w: int): (k: nat)
    ensures k <= 2
    ensures k == 0 <==> w != Saturday && w != Sunday
    ensures w == Saturday || w == Sunday ==> k == w - Friday
  {
    if w == Saturday then 1 else if w == Sunday then 2 else 0
  }

  /** `d - timedelta(days=k)`, one day at a time. */
  function DaysBack(d: Date, k: nat): (r: Date)
    requires ValidDate(d) && ToOrdinal(d) > k
    ensures ValidDate(r) && ToOrdinal(r) == ToOrdinal(d) - k
    decreases k
  {
    if k == 0 then d
    else
      OrdinalPositive(d);
      DaysBack(PrevDay(d), k - 1)
  }

  /**
   * The reference trading day as a date. It is the last Monday-to-Friday day
   * on or before the session day, and at most two days before it.
   */
  function ReferenceDay(now: LocalInstant): (r: Date)
    requires Computable(now)
    ensures ValidDate(r)
    ensures Weekday(r) != Saturday && Weekday(r) != Sunday
    ensures ToOrdinal(r) <= SessionOrdinal(now) <= ToOrdinal(r) + 2
    ensures forall n :: ToOrdinal(r) < n <= SessionOrdinal(now) ==> IsWeekend(n)
  {
    var relevant := SessionDay(now);
    OrdinalPositive(relevant);
    WeekendShift(ToOrdinal(relevant));
    DaysBack(relevant, WeekendBackstep(Weekday(relevant)))
  }

  /**
   * From day `b`, the weekend adjustment lands on a weekday, and every day it
   * skips is a Saturday or Sunday.
   */
  lemma WeekendShift(b: int)
    requires b >= 1
    ensures var k := WeekendBackstep(WeekdayOfOrdinal(b));
      && b > k
      && !IsWeekend(b - k)
      && forall n :: b - k < n <= b ==> IsWeekend(n)
  {
    var k := WeekendBackstep(WeekdayOfOrdinal(b));
    WeekdayStep(b);
    WeekdayStep(b - 1);
    assert WeekdayOfOrdinal(1) == Monday && WeekdayOfOrdinal(2) == 1;
    forall n | b - k < n <= b
      ensures IsWeekend(n)
    {
      if n != b {
        assert n == b - 1;
      }
    }
  }

  /** `get_market_reference_date()`: the reference trading day as `YYYY-MM-DD`. */
  function ReferenceDate(now: LocalInstant): (s: string)
    requires Computable(now)
    ensures |s| == 10 && ParseDate(s) == Some(ReferenceDay(now))
  {
    ParseFormatDate(ReferenceDay(now));
    FormatDate(ReferenceDay(now))
  }

  /** After the close of a weekday, the reference day is that same day. */
  lemma WeekdayEveningIsToday(now: LocalInstant)
    requires Computable(now)
    requires !AtOrBeforeClose(now.time)
    requires Weekday(now.date) != Saturday && Weekday(now.date) != Sunday
    ensures ReferenceDay(now) == now.date
  {
  }

  /** At or before the close, with a weekday yesterday, the reference day is yesterday. */
  lemma MorningIsYesterday(now: LocalInstant)
    requires Computable(now)
    requires AtOrBeforeClose(now.time)
    requires now.date != MinDate
    requires Weekday(PrevDay(now.date)) != Saturday && Weekday(PrevDay(now.date)) != Sunday
    ensures ReferenceDay(now) == PrevDay(now.date)
  {
  }

  /** Exactly 16:00:00.000000 still counts as at or before the close. */
  lemma CloseInstantCountsAsBefore(now: LocalInstant)
    requires Computable(now)
    requires now.time == MarketClose
    ensures SessionOrdinal(now) == ToOrdinal(now.date) - 1
  {
  }

  /** A Monday morning call yields the Friday three days before. */
  lemma {:induction false} MondayMorningIsFriday(now: LocalInstant)
    requires Computable(now)
    requires AtOrBeforeClose(now.time)
    requires Weekday(now.date) == Monday
    ensures Weekday(ReferenceDay(now)) == Friday
    ensures ToOrdinal(ReferenceDay(now)) == ToOrdinal(now.date) - 3
  {
    assert SessionOrdinal(now) == ToOrdinal(now.date) - 1;
    MondayBacksteps(ToOrdinal(now.date), ToOrdinal(ReferenceDay(now)));
  }

  /** Of the three days before a Monday, only the first weekday is the Friday. */
  lemma MondayBacksteps(n: int, r: int)
    requires WeekdayOfOrdinal(n) == Monday
    requires n - 3 <= r <= n - 1 && !IsWeekend(r)
    ensures r == n - 3 && WeekdayOfOrdinal(r) == Friday
  {
    WeekdayStep(n);
    WeekdayStep(n - 1);
    WeekdayStep(n - 2);
  }

  /** Over a Saturday or Sunday afternoon the reference day is the Friday before. */
  lemma {:induction false} WeekendIsFriday(now: LocalInstant)
    requires Computable(now)
    requires Weekday(now.date) == Saturday || Weekday(now.date) == Sunday
    requires !AtOrBeforeClose(now.time)
    ensures Weekday(ReferenceDay(now)) == Friday
    ensures ToOrdinal(ReferenceDay(now)) == ToOrdinal(now.date) - (Weekday(now.date) - Friday)
  {
    assert SessionOrdinal(now) == ToOrdinal(now.date);
    WeekendBacksteps(ToOrdinal(now.date), ToOrdinal(ReferenceDay(now)));
  }

  /**
   * A weekday at most two days before a weekend day `n`, with only weekend
   * days after it, is the Friday before `n`.
   */
  lemma WeekendBacksteps(n: int, r: int)
    requires IsWeekend(n)
    requires r <= n <= r + 2 && !IsWeekend(r)
    requires forall j :: r < j <= n ==> IsWeekend(j)
    ensures r == n - (WeekdayOfOrdinal(n) - Friday) && WeekdayOfOrdinal(r) == Friday
  {
    WeekdayStep(n);
    WeekdayStep(n - 1);
    assert r < n - 1 ==> IsWeekend(n - 1);
  }
}
