/**
 * Time as the schedule code sees it. The runtime's timezone formatter
 * (`toLocaleString` with `timeZone`) is not modelled: what it answers is
 * passed in as a `Zone`. `Date.UTC` on a calendar day and an hour is plain
 * arithmetic and is written out.
 */
module Clock {

  /** `Date#getDay()`: 0 is Sunday, 6 is Saturday. */
  type Weekday = d: int | 0 <= d <= 6

  /** `Date#getHours()`. */
  type Hour = h: int | 0 <= h <= 23

  /** The wall-clock weekday and hour of an instant in the configured timezone. */
  datatype LocalTime = LocalTime(day: Weekday, hour: Hour)

  /**
   * The answers of the timezone formatter, taken as given:
   * - `local(t)`: weekday and hour of instant `t` (epoch milliseconds) in the zone;
   * - `hourText(t)`: `t` rendered as a 2-digit, 24-hour local hour (`'00'`, `'17'`, ...);
   * - `targetDay(now, n)`: the local calendar date reached from `now` by adding
   *   `n` days with `setDate`, as a day number counted from 1970-01-01, i.e. the
   *   day that `Date.UTC(y, m - 1, d)` denotes for the parsed date parts.
   */
  datatype Zone = Zone(local: int -> LocalTime, hourText: int -> string, targetDay: (int, int) -> int)

  const HourMs: int := 3_600_000
  const DayMs: int := 86_400_000

  /** `Date.UTC(y, m - 1, d, hour, 0, 0)` for the date whose day number is `day`. */
  function UtcAt(day: int, hour: int): (t: int)
    ensures 0 <= hour <= 23 ==> t / DayMs == day && (t % DayMs) / HourMs == hour
  {
    day * DayMs + hour * HourMs
  }

  /** The instant at UTC hour `h` of `day`, rendered in the zone, passes `accept`. */
  predicate Accepts(zone: Zone, accept: string -> bool, day: int, h: int)
  {
    accept(zone.hourText(UtcAt(day, h)))
  }

  /** `h` is the first hour counted from `from` whose rendering passes `accept`. */
  predicate FirstAccepted(zone: Zone, accept: string -> bool, day: int, from: int, h: int)
  {
    Accepts(zone, accept, day, h) && forall k :: from <= k < h ==> !Accepts(zone, accept, day, k)
  }

  /**
   * The search loop shared by both copies of `getNextShiftStart`: try UTC hours
   * `from`, `from + 1`, ..., `last` of `day` and return the first instant whose
   * local rendering passes `accept`, or `fallback` when none does.
   */
  function SearchHours(zone: Zone, accept: string -> bool, day: int, from: int, last: int, fallback: int): int
    decreases last - from
  {
    if from > last then fallback
    else if Accepts(zone, accept, day, from) then UtcAt(day, from)
    else SearchHours(zone, accept, day, from + 1, last, fallback)
  }

  /** The search is first-match-or-fallback. */
  lemma {:induction false} SearchHoursFirstMatch(zone: Zone, accept: string -> bool, day: int, from: int, last: int, fallback: int)
    ensures var r := SearchHours(zone, accept, day, from, last, fallback);
      || (r == fallback && forall k :: from <= k <= last ==> !Accepts(zone, accept, day, k))
      || (exists h :: from <= h <= last && FirstAccepted(zone, accept, day, from, h) && r == UtcAt(day, h))
    decreases last - from
  {
    if from <= last && !Accepts(zone, accept, day, from) {
      SearchHoursFirstMatch(zone, accept, day, from + 1, last, fallback);
      var r := SearchHours(zone, accept, day, from + 1, last, fallback);
      if exists h :: from + 1 <= h <= last && FirstAccepted(zone, accept, day, from + 1, h) && r == UtcAt(day, h) {
        var h :| from + 1 <= h <= last && FirstAccepted(zone, accept, day, from + 1, h) && r == UtcAt(day, h);
        assert FirstAccepted(zone, accept, day, from, h);
      }
    } else if from <= last {
      assert FirstAccepted(zone, accept, day, from, from);
    }
  }
}
