/**
 * The schedule oracle of `src/lib/scheduleUtils.ts`: whether the feed is in
 * its operating window, whether the fetched data carries an announcement,
 * when the next shift day begins, and the resulting cache expiration.
 */
module Schedule {
  import opened Wrappers
  import opened Json
  import opened Clock

  /**
   * The constants the source imports from `config.ts` (not part of this model):
   * `OPERATING_DAYS` as the pair `[day0, day1]`, `OPERATING_HOUR_START/END`
   * and the three `CACHE_TTL_*` durations in milliseconds (the stale one in seconds).
   */
  datatype Config = Config(
    day0: int, day1: int,
    start: int, end: int,
    ttlOperating: int, ttlMax: int, ttlStaleMaxAge: int)

  /** `OPERATING_DAYS.includes(d)`. */
  predicate IsOperatingDay(cfg: Config, d: int)
  {
    d == cfg.day0 || d == cfg.day1
  }

  /** `isOperatingHours`: an operating day, from the start hour up to (not including) the end hour. */
  predicate IsOperatingHours(cfg: Config, t: LocalTime): (r: bool)
    ensures r ==> IsOperatingDay(cfg, t.day) && cfg.start < cfg.end
  {
    IsOperatingDay(cfg, t.day) && t.hour >= cfg.start && t.hour < cfg.end
  }

  /** `isOperatingDayBeforeClose`: an operating day, any hour before the end hour. */
  predicate IsOperatingDayBeforeClose(cfg: Config, t: LocalTime): (r: bool)
    ensures IsOperatingHours(cfg, t) ==> r
    ensures t.hour >= cfg.start ==> (r <==> IsOperatingHours(cfg, t))
  {
    IsOperatingDay(cfg, t.day) && t.hour < cfg.end
  }

  /** Being in operating hours is the special case of being before close on an operating day. */
  lemma OperatingHoursBeforeClose(cfg: Config, t: LocalTime)
    ensures IsOperatingHours(cfg, t) <==> IsOperatingDayBeforeClose(cfg, t) && t.hour >= cfg.start
  {
  }

  // ---------------------------------------------------------------------------
  // hasActiveAnnouncement

  /** A record that `r.Param === 'announcement'` selects. */
  predicate IsAnnouncement(r: Json)
  {
    r.JObj? && "Param" in r.fields && r.fields["Param"] == JStr("announcement")
  }

  /** `!!r?.Value` for the record `find` returned. */
  predicate ValueTruthy(r: Json)
    requires r.JObj?
  {
    "Value" in r.fields && Truthy(r.fields["Value"])
  }

  /**
   * `!!items.find(r => r.Param === 'announcement')?.Value`. Reading `Param` of a
   * `null` element throws a TypeError; any other element that is not an object
   * simply has no `Param`.
   */
  function FindAnnouncement(items: seq<Json>): (r: Result<bool>)
    ensures r == Ok(true) ==> exists i :: 0 <= i < |items| && IsAnnouncement(items[i]) && ValueTruthy(items[i])
    ensures r == Throws ==> exists i :: 0 <= i < |items| && items[i].JNull?
  {
    if items == [] then Ok(false)
    else if items[0].JNull? then Throws
    else if IsAnnouncement(items[0]) then Ok(ValueTruthy(items[0]))
    else FindAnnouncement(items[1..])
  }

  /** `hasActiveAnnouncement(data)`. */
  function HasActiveAnnouncement(data: Json): (r: Result<bool>)
    ensures r != Ok(false) ==> data.JArr? && |data.items| > 0
  {
    if data.JArr? then FindAnnouncement(data.items) else Ok(false)
  }

  /** No element before index `i` stops the search: none is `null`, none is an announcement. */
  predicate PassesOver(items: seq<Json>, i: int)
    requires 0 <= i <= |items|
  {
    forall j :: 0 <= j < i ==> !items[j].JNull? && !IsAnnouncement(items[j])
  }

  /**
   * The search stops at the first element that is `null` (it throws) or an
   * announcement record (its `Value` decides); when there is neither, the answer is false.
   */
  lemma {:induction false} FindAnnouncementFirst(items: seq<Json>)
    ensures PassesOver(items, |items|) ==> FindAnnouncement(items) == Ok(false)
    ensures forall i :: 0 <= i < |items| && PassesOver(items, i) && items[i].JNull? ==>
              FindAnnouncement(items) == Throws
    ensures forall i :: 0 <= i < |items| && PassesOver(items, i) && IsAnnouncement(items[i]) ==>
              FindAnnouncement(items) == Ok(ValueTruthy(items[i]))
  {
    if items != [] && !items[0].JNull? && !IsAnnouncement(items[0]) {
      var rest := items[1..];
      FindAnnouncementFirst(rest);
      assert PassesOver(items, |items|) ==> PassesOver(rest, |rest|);
      forall i | 0 < i < |items| && PassesOver(items, i)
        ensures PassesOver(rest, i - 1) && rest[i - 1] == items[i]
      {
      }
    }
  }

  /** A non-array payload never carries an announcement. */
  lemma NonArrayHasNoAnnouncement(data: Json)
    requires !data.JArr?
    ensures HasActiveAnnouncement(data) == Ok(false)
  {
  }

  /** Only the first announcement record counts: a truthy one after a falsy one is ignored. */
  lemma {:induction false} LaterAnnouncementIgnored(first: Json, later: Json)
    requires IsAnnouncement(first) && !ValueTruthy(first)
    requires IsAnnouncement(later) && ValueTruthy(later)
    ensures HasActiveAnnouncement(JArr([first, later])) == Ok(false)
  {
    FindAnnouncementFirst([first, later]);
    assert PassesOver([first, later], 0);
  }

  /** The payload `[{"Param": "announcement", "Value": "true"}]` forces the short lifetime. */
  lemma AnnouncementScenario()
    ensures HasActiveAnnouncement(JArr([JObj(map["Param" := JStr("announcement"), "Value" := JStr("true")])])) == Ok(true)
  {
  }

  // ---------------------------------------------------------------------------
  // getNextShiftStart

  /** The day-distance table of `getNextShiftStart`. */
  function DaysToAdd(cfg: Config, t: LocalTime): (n: int)
    ensures SundayFirst(cfg) ==> 0 <= n <= 6 && IsOperatingDay(cfg, DayAfter(t.day, n))
  {
    if t.day == cfg.day0 then (if t.hour < cfg.start then 0 else cfg.day1 - cfg.day0)
    else if t.day < cfg.day1 then cfg.day1 - t.day
    else if t.day == cfg.day1 then (if t.hour < cfg.start then 0 else 7 - (cfg.day1 + cfg.day0))
    else 7 + cfg.day0 - t.day
  }

  /** The weekday `k` days after weekday `d`. */
  function DayAfter(d: int, k: int): int
  {
    (d + k) % 7
  }

  /** The configurations the table is written for: Sunday and one later weekday. */
  predicate SundayFirst(cfg: Config)
  {
    cfg.day0 == 0 && 0 < cfg.day1 <= 6
  }

  /**
   * With Sunday as the first operating day, the table moves to the next
   * operating day: it stays on today exactly when today is an operating day
   * before the start hour, and skips no operating day on the way.
   */
  lemma DaysToAddNextOperatingDay(cfg: Config, t: LocalTime)
    requires SundayFirst(cfg)
    ensures var n := DaysToAdd(cfg, t);
      && 0 <= n <= 6
      && IsOperatingDay(cfg, DayAfter(t.day, n))
      && (n == 0 <==> IsOperatingDay(cfg, t.day) && t.hour < cfg.start)
      && forall k :: 0 < k < n ==> !IsOperatingDay(cfg, DayAfter(t.day, k))
  {
    var n := DaysToAdd(cfg, t);
    forall k | 0 < k < n
      ensures !IsOperatingDay(cfg, DayAfter(t.day, k))
    {
      assert DayAfter(t.day, k) == t.day + k;
    }
    if t.day + n < 7 {
      assert DayAfter(t.day, n) == t.day + n;
    } else {
      assert DayAfter(t.day, n) == t.day + n - 7;
    }
  }

  /**
   * The table is only right for a Sunday-first configuration: with
   * `OPERATING_DAYS = [1, 3]`, Wednesday after the start hour adds
   * `7 - (3 + 1) = 3` days and lands on Saturday.
   */
  lemma DaysToAddNeedsSundayFirst(ttlOperating: int, ttlMax: int, ttlStale: int)
    ensures var cfg := Config(1, 3, 17, 20, ttlOperating, ttlMax, ttlStale);
      DaysToAdd(cfg, LocalTime(3, 18)) == 3 && !IsOperatingDay(cfg, DayAfter(3, 3))
  {
  }

  /**
   * Where `calculateExpiration` asks for the next shift (not an operating day
   * before close), the table never answers "today": its before-start rows are
   * unreachable from there.
   */
  lemma FallthroughSkipsToday(cfg: Config, t: LocalTime)
    requires SundayFirst(cfg) && cfg.start <= cfg.end
    requires !IsOperatingDayBeforeClose(cfg, t)
    ensures 1 <= DaysToAdd(cfg, t) <= 6
  {
    DaysToAddNextOperatingDay(cfg, t);
  }

  /** The test applied to each candidate: the rendered local hour is exactly `'00'`. */
  predicate IsMidnightText(s: string)
  {
    s == "00"
  }

  /** The local calendar day `getNextShiftStart` searches. */
  function ShiftDay(cfg: Config, zone: Zone, now: int): int
  {
    zone.targetDay(now, DaysToAdd(cfg, zone.local(now)))
  }

  /**
   * `getNextShiftStart()`: the first of UTC hours 3..6 on the target day that
   * renders as local midnight, or `now + CACHE_TTL_MAX`.
   */
  function NextShiftStart(cfg: Config, zone: Zone, now: int): (r: int)
    ensures r == now + cfg.ttlMax ||
            exists h :: 3 <= h <= 6 && r == UtcAt(ShiftDay(cfg, zone, now), h) && zone.hourText(r) == "00"
  {
    SearchHoursFirstMatch(zone, IsMidnightText, ShiftDay(cfg, zone, now), 3, 6, now + cfg.ttlMax);
    SearchHours(zone, IsMidnightText, ShiftDay(cfg, zone, now), 3, 6, now + cfg.ttlMax)
  }

  /** The next shift start is local midnight of the target day found by the first matching hour, or the fallback. */
  lemma NextShiftStartFirstMatch(cfg: Config, zone: Zone, now: int)
    ensures var day, r := ShiftDay(cfg, zone, now), NextShiftStart(cfg, zone, now);
      || (r == now + cfg.ttlMax && forall k :: 3 <= k <= 6 ==> zone.hourText(UtcAt(day, k)) != "00")
      || (exists h :: 3 <= h <= 6 && r == UtcAt(day, h) && zone.hourText(r) == "00" &&
            forall k :: 3 <= k < h ==> zone.hourText(UtcAt(day, k)) != "00")
  {
    var day := ShiftDay(cfg, zone, now);
    SearchHoursFirstMatch(zone, IsMidnightText, day, 3, 6, now + cfg.ttlMax);
    assert forall k :: Accepts(zone, IsMidnightText, day, k) <==> zone.hourText(UtcAt(day, k)) == "00";
  }

  /** `getNextShiftStart` as the source runs it: a branch chain, then a search loop with early return. */
  method GetNextShiftStart(cfg: Config, zone: Zone, now: int) returns (r: int)
    ensures r == NextShiftStart(cfg, zone, now)
  {
    var local := zone.local(now);
    var daysToAdd := 0;
    if local.day == cfg.day0 {
      daysToAdd := if local.hour < cfg.start then 0 else cfg.day1 - cfg.day0;
    } else if local.day < cfg.day1 {
      daysToAdd := cfg.day1 - local.day;
    } else if local.day == cfg.day1 {
      daysToAdd := if local.hour < cfg.start then 0 else 7 - (cfg.day1 + cfg.day0);
    } else {
      daysToAdd := 7 + cfg.day0 - local.day;
    }
    var day := zone.targetDay(now, daysToAdd);
    for utcHour := 3 to 7
      invariant SearchHours(zone, IsMidnightText, day, utcHour, 6, now + cfg.ttlMax) == NextShiftStart(cfg, zone, now)
    {
      var testDate := UtcAt(day, utcHour);
      if zone.hourText(testDate) == "00" {
        return testDate;
      }
    }
    return now + cfg.ttlMax;
  }

  // ---------------------------------------------------------------------------
  // calculateExpiration

  function Min(a: int, b: int): int
  {
    if a <= b then a else b
  }

  /**
   * `calculateExpiration(data)`: `Throws` when `hasActiveAnnouncement` throws,
   * which the `||` only evaluates when the day check fails.
   */
  function CalculateExpiration(cfg: Config, zone: Zone, now: int, data: Json): (r: Result<int>)
    ensures IsOperatingDayBeforeClose(cfg, zone.local(now)) ==> r == Ok(now + cfg.ttlOperating)
    ensures HasActiveAnnouncement(data) == Ok(true) ==> r == Ok(now + cfg.ttlOperating)
    ensures r == Throws <==> !IsOperatingDayBeforeClose(cfg, zone.local(now)) && HasActiveAnnouncement(data) == Throws
    ensures !IsOperatingDayBeforeClose(cfg, zone.local(now)) && HasActiveAnnouncement(data) == Ok(false) ==>
              r.Ok? && r.value <= now + cfg.ttlMax && r.value <= NextShiftStart(cfg, zone, now) &&
              (r.value == now + cfg.ttlMax || r.value == NextShiftStart(cfg, zone, now))
  {
    if IsOperatingDayBeforeClose(cfg, zone.local(now)) then Ok(now + cfg.ttlOperating)
    else match HasActiveAnnouncement(data)
      case Throws => Throws
      case Ok(active) =>
        if active then Ok(now + cfg.ttlOperating)
        else Ok(Min(now + cfg.ttlMax, NextShiftStart(cfg, zone, now)))
  }
}
