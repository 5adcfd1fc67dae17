/**
 * Calendar arithmetic on integer millisecond timestamps.
 *
 * A UTC stand-in for the day-of-calendar operations the handlers take from
 * dayjs: `startOf('day')` becomes StartOfDay and `get('day')` becomes
 * WeekDay (0 = Sunday .. 6 = Saturday). Timestamp 0 (1970-01-01) is a
 * Thursday. Dafny's `/` and `%` are Euclidean, which for the positive
 * divisor used here is the floor, so instants before 1970 fall on the
 * correct day too.
 */
module Calendar {

  const MS_PER_DAY: int := 86_400_000

  /** Weekday of the day containing timestamp 0 (a Thursday). */
  const EPOCH_WEEK_DAY: int := 4

  /** Number of whole days between the epoch and the day containing `t`. */
  function DayNumber(t: int): int {
    t / MS_PER_DAY
  }

  /** The first millisecond of the calendar day containing `t`. */
  function StartOfDay(t: int): (d: int)
    ensures d <= t < d + MS_PER_DAY
    ensures d % MS_PER_DAY == 0
    ensures d == DayNumber(t) * MS_PER_DAY
  {
    t - t % MS_PER_DAY
  }

  /** Day of the week of `t`: 0 is Sunday and 6 is Saturday. */
  function WeekDay(t: int): (w: int)
    ensures 0 <= w <= 6
  {
    (DayNumber(t) + EPOCH_WEEK_DAY) % 7
  }

  /** Two instants share a calendar day exactly when their day numbers agree. */
  lemma SameDayIff(t1: int, t2: int)
    ensures StartOfDay(t1) == StartOfDay(t2) <==> DayNumber(t1) == DayNumber(t2)
  {
  }

  /** Normalising an instant that is already a day start changes nothing. */
  lemma StartOfDayIdempotent(t: int)
    ensures StartOfDay(StartOfDay(t)) == StartOfDay(t)
    ensures DayNumber(StartOfDay(t)) == DayNumber(t)
  {
  }

  /** Every instant of a day has the weekday of the day's first millisecond. */
  lemma WeekDayOfStartOfDay(t: int)
    ensures WeekDay(StartOfDay(t)) == WeekDay(t)
  {
    StartOfDayIdempotent(t);
  }

  /** The day after a given one has the next weekday, Saturday wrapping to Sunday. */
  lemma NextDayWeekDay(t: int)
    ensures StartOfDay(StartOfDay(t) + MS_PER_DAY) == StartOfDay(t) + MS_PER_DAY
    ensures WeekDay(StartOfDay(t) + MS_PER_DAY) == (WeekDay(t) + 1) % 7
  {
    var n := DayNumber(t);
    assert DayNumber(StartOfDay(t) + MS_PER_DAY) == n + 1 by {
      assert StartOfDay(t) + MS_PER_DAY == (n + 1) * MS_PER_DAY;
    }
  }
}
