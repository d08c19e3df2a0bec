/**
 * The browser-side copy in `src/lib/cache.ts`: a schedule hardcoded to
 * Sunday and Wednesday, 17:00 to 20:00 New York time, and a cache kept in
 * `localStorage` under three keys.
 */
module ClientCache {
  import opened Wrappers
  import opened Json
  import opened Clock
  import opened JsNumber
  import Schedule

  const CacheKey: string := "timesup_chart_data"
  const TimestampKey: string := "timesup_chart_data_timestamp"
  const ExpirationKey: string := "timesup_chart_data_expiration"

  /** `TEST_MODE_TTL`: one minute. */
  const TestModeTtl: int := 60 * 1000
  /** The lifetime inside operating hours: one minute. */
  const OperatingTtl: int := 1 * 60 * 1000
  /** The longest lifetime outside operating hours, and the search's fallback: 24 hours. */
  const DayTtl: int := 24 * 60 * 60 * 1000
  /** `shiftStartHour`. */
  const ShiftStartHour: int := 17

  // ---------------------------------------------------------------------------
  // The hardcoded schedule

  /** `isOperatingHours`: Sunday or Wednesday, from 17:00 up to (not including) 20:00. */
  predicate IsOperatingHours(t: LocalTime): (r: bool)
    ensures r == Schedule.IsOperatingHours(SundayWednesday(0, 0, 0), t)
  {
    (t.day == 0 || t.day == 3) && t.hour >= 17 && t.hour < 20
  }

  /** The generic configuration this copy hardcodes; its lifetimes play no part in the table. */
  function SundayWednesday(ttlOperating: int, ttlMax: int, ttlStale: int): (cfg: Schedule.Config)
    ensures Schedule.SundayFirst(cfg)
  {
    Schedule.Config(0, 3, 17, 20, ttlOperating, ttlMax, ttlStale)
  }

  /** This copy's window is the generic one with `OPERATING_DAYS = [0, 3]` and hours 17 to 20. */
  lemma IsOperatingHoursAgrees(t: LocalTime, ttlOperating: int, ttlMax: int, ttlStale: int)
    ensures IsOperatingHours(t) <==> Schedule.IsOperatingHours(SundayWednesday(ttlOperating, ttlMax, ttlStale), t)
  {
  }

  /** The hardcoded day-distance table of `getNextShiftStart`. */
  function DaysToAdd(t: LocalTime): (n: int)
    ensures 0 <= n <= 6 && Schedule.DayAfter(t.day, n) in {0, 3}
  {
    if t.day == 0 then (if t.hour < ShiftStartHour then 0 else 3)
    else if t.day < 3 then 3 - t.day
    else if t.day == 3 then (if t.hour < ShiftStartHour then 0 else 4)
    else 7 - t.day
  }

  /**
   * The hardcoded table is the generic one for `[0, 3]` starting at 17 on
   * every weekday and hour, and so moves to the next Sunday or Wednesday.
   */
  lemma DaysToAddAgrees(t: LocalTime, ttlOperating: int, ttlMax: int, ttlStale: int)
    ensures var n := DaysToAdd(t);
      && n == Schedule.DaysToAdd(SundayWednesday(ttlOperating, ttlMax, ttlStale), t)
      && 0 <= n <= 6
      && Schedule.DayAfter(t.day, n) in {0, 3}
      && (n == 0 <==> (t.day == 0 || t.day == 3) && t.hour < 17)
      && forall k :: 0 < k < n ==> Schedule.DayAfter(t.day, k) !in {0, 3}
  {
    var cfg := SundayWednesday(ttlOperating, ttlMax, ttlStale);
    Schedule.DaysToAddNextOperatingDay(cfg, t);
  }

  /** `s.includes(sub)`. */
  predicate Contains(s: string, sub: string)
    decreases |s|
  {
    |s| >= |sub| && (s[..|sub|] == sub || Contains(s[1..], sub))
  }

  /** The test applied to each candidate: the rendered local hour contains `'17'`. */
  predicate HasHour17(s: string)
  {
    Contains(s, "17")
  }

  /** The local calendar day this copy's `getNextShiftStart` searches. */
  function ShiftDay(zone: Zone, now: int): int
  {
    zone.targetDay(now, DaysToAdd(zone.local(now)))
  }

  /**
   * `getNextShiftStart()`: the first of UTC hours 20..23 on the target day
   * whose local rendering contains `'17'`, or `now` plus 24 hours.
   */
  function NextShiftStart(zone: Zone, now: int): (r: int)
    ensures r == now + DayTtl ||
            exists h :: 20 <= h <= 23 && r == UtcAt(ShiftDay(zone, now), h) && Contains(zone.hourText(r), "17")
  {
    SearchHoursFirstMatch(zone, HasHour17, ShiftDay(zone, now), 20, 23, now + DayTtl);
    SearchHours(zone, HasHour17, ShiftDay(zone, now), 20, 23, now + DayTtl)
  }

  /** The next shift start is the first matching hour of the target day, or the 24-hour fallback. */
  lemma NextShiftStartFirstMatch(zone: Zone, now: int)
    ensures var day, r := ShiftDay(zone, now), NextShiftStart(zone, now);
      || (r == now + DayTtl && forall k :: 20 <= k <= 23 ==> !Contains(zone.hourText(UtcAt(day, k)), "17"))
      || (exists h :: 20 <= h <= 23 && r == UtcAt(day, h) && Contains(zone.hourText(r), "17") &&
            forall k :: 20 <= k < h ==> !Contains(zone.hourText(UtcAt(day, k)), "17"))
  {
    var day := ShiftDay(zone, now);
    SearchHoursFirstMatch(zone, HasHour17, day, 20, 23, now + DayTtl);
    assert forall k :: Accepts(zone, HasHour17, day, k) <==> Contains(zone.hourText(UtcAt(day, k)), "17");
  }

  /** `getNextShiftStart` as the source runs it: a branch chain, then a search loop with early return. */
  method GetNextShiftStart(zone: Zone, now: int) returns (r: int)
    ensures r == NextShiftStart(zone, now)
  {
    var local := zone.local(now);
    var daysToAdd := 0;
    if local.day == 0 {
      daysToAdd := if local.hour < ShiftStartHour then 0 else 3;
    } else if local.day < 3 {
      daysToAdd := 3 - local.day;
    } else if local.day == 3 {
      daysToAdd := if local.hour < ShiftStartHour then 0 else 4;
    } else {
      daysToAdd := 7 - local.day;
    }
    var day := zone.targetDay(now, daysToAdd);
    for utcHour := 20 to 24
      invariant SearchHours(zone, HasHour17, day, utcHour, 23, now + DayTtl) == NextShiftStart(zone, now)
    {
      var testDate := UtcAt(day, utcHour);
      if Contains(zone.hourText(testDate), "17") {
        return testDate;
      }
    }
    return now + DayTtl;
  }

  /** `calculateExpiration(testOperatingHours)`: never more than 24 hours ahead. */
  function CalculateExpiration(test: bool, zone: Zone, now: int): (r: int)
    ensures test ==> r == now + TestModeTtl
    ensures !test && IsOperatingHours(zone.local(now)) ==> r == now + OperatingTtl
    ensures !test && !IsOperatingHours(zone.local(now)) ==>
              r <= NextShiftStart(zone, now) && (r == now + DayTtl || r == NextShiftStart(zone, now))
    ensures r <= now + DayTtl
  {
    if test then now + TestModeTtl
    else if IsOperatingHours(zone.local(now)) then now + OperatingTtl
    else Schedule.Min(now + DayTtl, NextShiftStart(zone, now))
  }

  // ---------------------------------------------------------------------------
  // The localStorage cache

  /** `!expiration` is false and `Date.now() < parseInt(expiration)`; `NaN` compares false. */
  predicate ExpirationValid(stored: Option<string>, now: int)
  {
    stored.Some? && stored.value != "" && ParseInt(stored.value).Some? && now < ParseInt(stored.value).value
  }

  /**
   * `cached ? JSON.parse(cached) : null` on what the read returned: a missing
   * or empty entry and a `JSON.parse` that throws all give `null`.
   */
  function ReadPayload(cached: Option<string>, parse: string -> Result<Json>): (r: Json)
    ensures r != JNull ==> cached.Some? && cached.value != "" && parse(cached.value) == Ok(r)
  {
    if cached.None? || cached.value == "" then JNull
    else match parse(cached.value)
      case Throws => JNull
      case Ok(v) => v
  }

  /** The three `setItem` calls of `setCachedData`, in order. */
  function Writes(data: Json, test: bool, zone: Zone, now: int, stringify: Json -> string): seq<(string, string)>
  {
    [(CacheKey, stringify(data)),
     (TimestampKey, IntToString(now)),
     (ExpirationKey, IntToString(CalculateExpiration(test, zone, now)))]
  }

  /** `items` after the `setItem` calls `writes`, in order. */
  function Store(items: map<string, string>, writes: seq<(string, string)>): map<string, string>
    decreases |writes|
  {
    if writes == [] then items
    else Store(items[writes[0].0 := writes[0].1], writes[1..])
  }

  function Lookup(items: map<string, string>, key: string): Option<string>
  {
    if key in items then Some(items[key]) else None
  }

  /** One more write after `writes`. */
  lemma {:induction false} StoreSnoc(items: map<string, string>, writes: seq<(string, string)>, x: (string, string))
    ensures Store(items, writes + [x]) == Store(items, writes)[x.0 := x.1]
    decreases |writes|
  {
    if writes == [] {
      assert ([] + [x])[1..] == [];
    } else {
      assert (writes + [x])[1..] == writes[1..] + [x];
      StoreSnoc(items[writes[0].0 := writes[0].1], writes[1..], x);
    }
  }

  /** Three writes applied in order. */
  lemma {:induction false} StoreThree(items: map<string, string>, w: seq<(string, string)>)
    requires |w| == 3
    ensures Store(items, w) == items[w[0].0 := w[0].1][w[1].0 := w[1].1][w[2].0 := w[2].1]
  {
    var m1 := items[w[0].0 := w[0].1];
    var m2 := m1[w[1].0 := w[1].1];
    var m3 := m2[w[2].0 := w[2].1];
    assert Store(items, w) == Store(m1, w[1..]);
    assert Store(m1, w[1..]) == Store(m2, w[1..][1..]);
    assert Store(m2, w[1..][1..]) == Store(m3, w[1..][1..][1..]);
    assert w[1..][1..][1..] == [];
  }

  /** A stored expiration written as `e.toString()` is valid exactly before `e`. */
  lemma ExpirationRoundTrip(e: int, t: int)
    ensures ExpirationValid(Some(IntToString(e)), t) <==> t < e
  {
    ParseIntToString(e);
    DigitsRoundTrip(if e < 0 then -e else e);
  }

  /** After all three writes the stored expiration reads back as the computed one. */
  lemma ValidAfterStore(items: map<string, string>, data: Json, test: bool, zone: Zone, now: int,
                        stringify: Json -> string, t: int)
    ensures var e := CalculateExpiration(test, zone, now);
      ExpirationValid(Lookup(Store(items, Writes(data, test, zone, now, stringify)), ExpirationKey), t) <==> t < e
  {
    var e := CalculateExpiration(test, zone, now);
    var w := Writes(data, test, zone, now, stringify);
    StoreThree(items, w);
    assert w[2] == (ExpirationKey, IntToString(e));
    assert Lookup(Store(items, w), ExpirationKey) == Some(IntToString(e));
    ExpirationRoundTrip(e, t);
  }

  /**
   * After the first write of `setCachedData`, reading the payload back gives
   * the data, provided `JSON.parse` inverts `JSON.stringify` on it.
   */
  lemma PayloadAfterStore(items: map<string, string>, data: Json, test: bool, zone: Zone, now: int,
                          stringify: Json -> string, parse: string -> Result<Json>, k: nat)
    requires 1 <= k <= 3
    requires stringify(data) != "" && parse(stringify(data)) == Ok(data)
    ensures ReadPayload(Lookup(Store(items, Writes(data, test, zone, now, stringify)[..k]), CacheKey), parse) == data
  {
    var w := Writes(data, test, zone, now, stringify);
    var m1 := items[CacheKey := stringify(data)];
    assert Store(items, w[..k]) == Store(m1, w[..k][1..]);
    StoreKeeps(m1, w[..k][1..], CacheKey);
  }

  /** Writes to other keys leave `key` alone. */
  lemma {:induction false} StoreKeeps(items: map<string, string>, writes: seq<(string, string)>, key: string)
    requires forall i :: 0 <= i < |writes| ==> writes[i].0 != key
    ensures Lookup(Store(items, writes), key) == Lookup(items, key)
    decreases |writes|
  {
    if writes != [] {
      StoreKeeps(items[writes[0].0 := writes[0].1], writes[1..], key);
    }
  }

  /** `localStorage`: its entries, and whether the browser lets the page use it at all. */
  class ClientStore {
    var items: map<string, string>
    /** False when every `localStorage` call throws (storage disabled or denied). */
    const accessible: bool

    constructor (items0: map<string, string>, accessible0: bool)
      ensures items == items0 && accessible == accessible0
    {
      items := items0;
      accessible := accessible0;
    }

    /** `localStorage.getItem(key)`, which throws when storage is not accessible. */
    function GetItem(key: string): Result<Option<string>>
      reads this
    {
      if accessible then Ok(Lookup(items, key)) else Throws
    }

    /** `isCacheValid()`: a read that throws, a missing or empty entry and `NaN` all give false. */
    function IsCacheValid(now: int): (r: bool)
      reads this
      ensures !accessible || ExpirationKey !in items || items[ExpirationKey] == "" ==> !r
      ensures accessible && ExpirationKey in items && ParseInt(items[ExpirationKey]).None? ==> !r
      ensures accessible && ExpirationKey in items && items[ExpirationKey] != "" && ParseInt(items[ExpirationKey]).Some? ==>
                (r <==> now < ParseInt(items[ExpirationKey]).value)
    {
      match GetItem(ExpirationKey)
      case Throws => false
      case Ok(stored) => ExpirationValid(stored, now)
    }

    /**
     * `getCachedData()`: `null` when the read throws, the entry is missing or
     * empty, or `JSON.parse` (the opaque `parse`) throws; never throws itself.
     */
    function GetCachedData(parse: string -> Result<Json>): (r: Json)
      reads this
      ensures !accessible || CacheKey !in items || items[CacheKey] == "" ==> r == JNull
      ensures accessible && CacheKey in items && items[CacheKey] != "" ==>
                r == (if parse(items[CacheKey]).Ok? then parse(items[CacheKey]).value else JNull)
    {
      match GetItem(CacheKey)
      case Throws => JNull
      case Ok(cached) => ReadPayload(cached, parse)
    }

    /** `localStorage.setItem(key, value)`; it throws when storage is not accessible or the value does not `fit`. */
    method SetItem(key: string, value: string, fits: bool) returns (thrown: bool)
      modifies this`items
      ensures thrown <==> !(accessible && fits)
      ensures items == if thrown then old(items) else old(items)[key := value]
    {
      thrown := !(accessible && fits);
      if !thrown {
        items := items[key := value];
      }
    }

    /**
     * `setCachedData(data, testOperatingHours)`: the three writes in order,
     * the first `accepted` of which succeed before one throws (an error the
     * method swallows). No other key is touched.
     */
    method SetCachedData(data: Json, test: bool, zone: Zone, now: int, stringify: Json -> string, accepted: nat)
      modifies this`items
      ensures var done := if !accessible then 0 else if accepted < 3 then accepted else 3;
        items == Store(old(items), Writes(data, test, zone, now, stringify)[..done])
      ensures forall k :: k != CacheKey && k != TimestampKey && k != ExpirationKey ==> Lookup(items, k) == Lookup(old(items), k)
      ensures accessible && accepted >= 3 ==> forall t :: IsCacheValid(t) <==> t < CalculateExpiration(test, zone, now)
      ensures accessible && accepted >= 1 && stringify(data) != "" ==>
                forall parse: string -> Result<Json> :: parse(stringify(data)) == Ok(data) ==> GetCachedData(parse) == data
    {
      var w := Writes(data, test, zone, now, stringify);
      ghost var before := items;
      var expiration := CalculateExpiration(test, zone, now);
      ghost var done := 0;
      assert w[..0] == [];
      var thrown := SetItem(CacheKey, stringify(data), 0 < accepted);
      if !thrown {
        StoreSnoc(before, w[..0], w[0]);
        assert w[..1] == w[..0] + [w[0]];
        done := 1;
        thrown := SetItem(TimestampKey, IntToString(now), 1 < accepted);
        if !thrown {
          StoreSnoc(before, w[..1], w[1]);
          assert w[..2] == w[..1] + [w[1]];
          done := 2;
          thrown := SetItem(ExpirationKey, IntToString(expiration), 2 < accepted);
          if !thrown {
            StoreSnoc(before, w[..2], w[2]);
            assert w[..3] == w[..2] + [w[2]];
            done := 3;
          }
        }
      }
      assert items == Store(before, w[..done]);
      if accessible && accepted >= 1 && stringify(data) != "" {
        forall parse: string -> Result<Json> | parse(stringify(data)) == Ok(data)
          ensures GetCachedData(parse) == data
        {
          PayloadAfterStore(before, data, test, zone, now, stringify, parse, done);
        }
      }
      if accessible && accepted >= 3 {
        assert w[..3] == w;
        forall t
          ensures IsCacheValid(t) <==> t < expiration
        {
          ValidAfterStore(before, data, test, zone, now, stringify, t);
        }
      }
    }
  }
}
