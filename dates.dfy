/**
 * Calendar dates as the ledger sees them.  A `SimpleDateFormat("yyyy-MM-dd")`
 * is abstracted as a partial function from strings to day numbers;
 * the parsed `Date` is that day's midnight.  The wall clock is a
 * parameter `now` in milliseconds, in the same local time scale.
 */
module Dates {
  import opened Wrappers

  /** `dateFormat.parse`: `Some(day number)`, or `None` where it throws `ParseException`. */
  type DateParser = string -> Option<int>

  /** Milliseconds in a day. */
  const DayMillis: int := 86_400_000

  /** The instant a parsed date stands for: midnight at the start of `day`. */
  function Midnight(day: int): int
  {
    day * DayMillis
  }

  /** `Calendar.getInstance()` moved back by `days` with `add(DAY_OF_YEAR, -days)`. */
  function Cutoff(now: int, days: int): int
  {
    now - days * DayMillis
  }

  /** `Date.before`. */
  predicate Before(a: int, b: int)
  {
    a < b
  }

  /**
   * The cutoff keeps the time of day of `now` while a parsed date is a
   * midnight: `day` is before the cutoff exactly when it is at most
   * `today - days`, except in the single millisecond at midnight, where
   * `today - days` itself is not before the cutoff.
   */
  lemma MidnightBeforeCutoff(day: int, now: int, days: int)
    ensures var today := now / DayMillis;
            Before(Midnight(day), Cutoff(now, days)) <==>
            (if now % DayMillis == 0 then day < today - days else day <= today - days)
  {
    var today, clock := now / DayMillis, now % DayMillis;
    assert now == today * DayMillis + clock;
    var gap := day - today + days;
    assert Midnight(day) - Cutoff(now, days) == gap * DayMillis - clock;
    if gap <= -1 {
      assert gap * DayMillis <= -DayMillis;
    } else if gap >= 1 {
      assert gap * DayMillis >= DayMillis;
    }
  }
}
