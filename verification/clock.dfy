/** Calendar arithmetic on naive timestamps, counted in milliseconds from
    1970-01-01 00:00 (the resolution at which the database stores dates). */
module Clock {

  const MsPerSecond: int := 1000
  const MsPerDay: int := 86_400_000

  /** Python's `weekday()` of 1970-01-01, a Thursday (Monday is 0). */
  const EpochWeekday: int := 3

  /** The calendar day a timestamp falls on, as a day count. */
  function DayNumber(t: int): int
  {
    t / MsPerDay
  }

  /** Midnight at the start of the day holding `t`. */
  function DayStart(t: int): (r: int)
    ensures r <= t < r + MsPerDay
    ensures r % MsPerDay == 0
    ensures DayNumber(r) == DayNumber(t)
  {
    DayNumber(t) * MsPerDay
  }

  /** Python's `weekday()`: 0 for Monday through 6 for Sunday. */
  function Weekday(t: int): (r: int)
    ensures 0 <= r < 7
    ensures r == 0 <==> DayNumber(t) % 7 == 4
  {
    (DayNumber(t) + EpochWeekday) % 7
  }

  /** The day after a Monday is a Tuesday, and the day after a Sunday a
      Monday: weekdays advance by one each day and wrap after 6. */
  lemma WeekdayNextDay(t: int)
    ensures Weekday(t + MsPerDay) == if Weekday(t) == 6 then 0 else Weekday(t) + 1
  {
    assert DayNumber(t + MsPerDay) == DayNumber(t) + 1;
  }

  /** Midnight at the start of the Monday of the week holding `t`:
      `today - timedelta(days=today.weekday())`. */
  function WeekStart(t: int): (r: int)
    ensures r <= DayStart(t) <= t < r + 7 * MsPerDay
    ensures Weekday(r) == 0
    ensures DayStart(r) == r
  {
    var d := DayNumber(t);
    var r := DayStart(t) - Weekday(t) * MsPerDay;
    assert r == (d - Weekday(t)) * MsPerDay;
    assert DayNumber(r) == d - Weekday(t);
    r
  }
}
