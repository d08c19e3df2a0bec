# Chart-data cache shim: a Dafny model

This project models the caching core of the "Time's Up" chart feed. One
upstream JSON feed is fetched and cached, and its lifetime comes from an
operating-hours schedule. In `scheduleUtils.ts` the lifetime is
`CACHE_TTL_OPERATING` on an operating day before closing, or when the data
carries an announcement. Otherwise it runs to the next shift day's local
midnight, capped at `CACHE_TTL_MAX`. The copy in `cache.ts` gives one
minute inside 17:00–20:00 on Sunday and Wednesday. Otherwise it runs to the
next 17:00 shift start, capped at 24 hours.

- `Schedule` (`schedule.dfy`) models `src/lib/scheduleUtils.ts`. It holds the
  window predicates, the announcement override, the day-distance table, the
  UTC-hour search for the next shift day's local midnight, and
  `calculateExpiration`.
- `EdgeGateway` (`gateway.dfy`) models `netlify/edge-functions/chart-data.ts`.
  Class `EdgeCache` holds the module-level `cache` slot. `Handle` is the
  request handler. The pure function `Serve` specifies one request: its
  response (status, `X-Cache` tag, max-age, body) and the slot it leaves.
- `ClientCache` (`client_cache.dfy`) models `src/lib/cache.ts`. It holds the
  hardcoded Sunday/Wednesday 17–20 schedule, and class `ClientStore` over a
  `map<string, string>` standing for `localStorage`.
- Helper modules:
  - `Clock` (`clock.dfy`): local weekday/hour, `Date.UTC` hour arithmetic and
    the first-match search shared by both copies of `getNextShiftStart`.
  - `Json` (`json.dfy`): the payload and JavaScript truthiness.
  - `JsNumber` (`jsnumber.dfy`): `Number#toString` and `parseInt`.
  - `Wrappers` (`wrappers.dfy`): `Option`, and `Result` for code that may throw.

The timezone formatter is not modelled. What it answers is a `Zone` value
passed in:
- the local weekday and hour of an instant;
- the 2-digit local hour an instant renders as;
- the local calendar date reached by adding `n` days.

`config.ts` is not part of this model. Its constants are a `Schedule.Config`
parameter: `OPERATING_DAYS` is the pair `(day0, day1)`, plus the start and
end hours and the three lifetimes. The clock is a `now` parameter. The
upstream answer is a `FetchOutcome` parameter: an HTTP status with a parsed
body, or a network error.

Facts about the code that the model keeps:
- `getNextShiftStart` in `scheduleUtils.ts` searches UTC hours 3..6 for
  local midnight (`'00'`) of the target day, as its comment at
  `scheduleUtils.ts:34` says.
- The gateway's max-age uses `Math.floor` (`chart-data.ts:28`, `:60`).
  `MaxAgeSeconds` uses Dafny's `/`, which equals floor for the positive
  divisor 1000.
- `ClientCache.DaysToAddAgrees` proves that the two day tables agree on every
  weekday and hour for `OPERATING_DAYS = [0, 3]` with start hour 17.

Four behaviours of the code worth knowing:
- `hasActiveAnnouncement` reads `r.Param` on every element before the first
  announcement record. A `null` element there throws a TypeError. In the
  gateway this throw goes to the `catch`, like a failed fetch: the fresh data
  is not cached, and the request answers STALE or 500 (`Refresh`, `Serve`).
- On a MISS, the slot is assigned before `chart-data.ts:62` logs
  `new Date(expiration).toISOString()`. That call throws a RangeError when
  the expiration lies outside the JavaScript Date range (more than
  8.64e15 ms from the epoch). The `catch` then finds the new slot and
  answers STALE with the fresh data. `Serve` models this branch
  (`EdgeGateway.OutOfRangeExpirationStale`).
- The generic day table is right only when `OPERATING_DAYS[0]` is Sunday.
  Its "other day, after start" row adds `7 - (day1 + day0)` days. With
  `[1, 3]`, Wednesday after the start lands on Saturday
  (`Schedule.DaysToAddNeedsSundayFirst`). The model keeps the table as
  written. Its properties are proved for `[0, d]` with `0 < d <= 6`.
- `setCachedData` makes three `setItem` calls in order. A storage error in the
  second or third call leaves the earlier writes in place. `SetCachedData`
  states the store after any number of successful writes.

## Model

| member | source | states |
|---|---|---|
| `Clock.UtcAt` | src/lib/scheduleUtils.ts:69 | `Date.UTC(y, m-1, d, h)` for hour 0..23 lies in that UTC day, at hour `h` |
| `Clock.SearchHoursFirstMatch` | src/lib/scheduleUtils.ts:68-76 | the UTC-hour search returns the first candidate hour whose local rendering passes the test; if none does, it returns the fallback |
| `Schedule.IsOperatingHours` | src/lib/scheduleUtils.ts:11-18 | the local weekday is an operating day and start <= hour < end; it can hold only on an operating day with a non-empty hour range |
| `Schedule.IsOperatingDayBeforeClose` | src/lib/scheduleUtils.ts:21-26 | the local weekday is an operating day and hour < end; it holds whenever `isOperatingHours` does, and from the start hour on it coincides with it |
| `Schedule.OperatingHoursBeforeClose` | src/lib/scheduleUtils.ts:11-26 | `isOperatingHours` holds iff `isOperatingDayBeforeClose` holds and the hour is at least the start hour; so the first implies the second |
| `Schedule.FindAnnouncement` | src/lib/scheduleUtils.ts:31 | `!!items.find(r => r.Param === 'announcement')?.Value`: true only if some announcement record has a truthy `Value`; it throws only if some element is `null` |
| `Schedule.HasActiveAnnouncement` | src/lib/scheduleUtils.ts:29-32 | false for a non-array or an empty array; otherwise the search above |
| `Schedule.FindAnnouncementFirst` | src/lib/scheduleUtils.ts:29-32 | on an array, the first `null` or announcement record decides: `null` throws; the record gives the truthiness of its `Value`; with neither, the result is false |
| `Schedule.NonArrayHasNoAnnouncement` | src/lib/scheduleUtils.ts:30 | a payload that is not an array never has an active announcement |
| `Schedule.LaterAnnouncementIgnored` | src/lib/scheduleUtils.ts:31 | a truthy announcement after a falsy one is ignored |
| `Schedule.AnnouncementScenario` | src/lib/scheduleUtils.ts:29-32 | `[{"Param":"announcement","Value":"true"}]` has an active announcement |
| `Schedule.DaysToAdd` | src/lib/scheduleUtils.ts:43-53 | the day-distance table as written; for days `[0, d]` it is in 0..6 and lands on an operating day |
| `Schedule.DaysToAddNextOperatingDay` | src/lib/scheduleUtils.ts:43-53 | for days `[0, d]`, `daysToAdd` is in 0..6; it lands on an operating day; it skips none on the way; it is 0 exactly on an operating day before the start hour |
| `Schedule.DaysToAddNeedsSundayFirst` | src/lib/scheduleUtils.ts:49-50 | with days `[1, 3]`, Wednesday after the start adds 3 days and lands on Saturday, which is not an operating day |
| `Schedule.FallthroughSkipsToday` | src/lib/scheduleUtils.ts:81-84 | for days `[0, d]` with `0 < d <= 6` and start <= end, when `calculateExpiration` falls through to the search (not before close), `daysToAdd` is 1..6, so the "today, before start" rows cannot be taken |
| `Schedule.NextShiftStart` | src/lib/scheduleUtils.ts:55-76 | the search over UTC hours 3..6 of the target day; the result is `now + CACHE_TTL_MAX` or one of those instants that renders as `'00'` |
| `Schedule.NextShiftStartFirstMatch` | src/lib/scheduleUtils.ts:55-76 | the next shift start is `Date.UTC` at the first UTC hour in 3..6 of the target day that renders as `'00'`; if none does, it is `now + CACHE_TTL_MAX` |
| `Schedule.GetNextShiftStart` | src/lib/scheduleUtils.ts:35-77 | the branch chain and the search loop with early return compute exactly the next shift start above |
| `Schedule.CalculateExpiration` | src/lib/scheduleUtils.ts:80-85 | `now + CACHE_TTL_OPERATING` when before close or announced; throws only when the announcement check is reached and throws; otherwise `min(now + CACHE_TTL_MAX, next shift start)`, which is at most both |
| `EdgeGateway.MaxAgeSeconds` | netlify/edge-functions/chart-data.ts:28 | the max-age is the floor of the remaining milliseconds over 1000 |
| `EdgeGateway.EdgeCache.constructor` | netlify/edge-functions/chart-data.ts:13-16 | the slot starts out null |
| `EdgeGateway.EdgeCache.Handle` | netlify/edge-functions/chart-data.ts:19-99 | the handler's response and new slot are those of `Serve` applied to the old slot |
| `EdgeGateway.Refresh` | netlify/edge-functions/chart-data.ts:44-57 | the new slot entry after a miss; present only for an ok status with a JSON body, holding that body and the expiration `calculateExpiration` returned for it |
| `EdgeGateway.Serve` | netlify/edge-functions/chart-data.ts:19-98 | one request as a function of the slot: status 200 or 500; a non-null slot stays non-null; a 200 response serves the data of the slot left behind |
| `EdgeGateway.HitIffFresh` | netlify/edge-functions/chart-data.ts:24 | a request is a HIT iff the slot is non-null and its expiration is after `now` |
| `EdgeGateway.HitServesSlot` | netlify/edge-functions/chart-data.ts:24-38 | a HIT serves the slot's data with status 200 and a max-age >= 0 of the whole seconds left; it keeps the slot and ignores the upstream |
| `EdgeGateway.MissStoresFetched` | netlify/edge-functions/chart-data.ts:44-72 | a miss with a successful fetch stores `{data, calculateExpiration(data)}`; when that expiration is a valid `Date` it answers MISS, with max-age taken from the `now` read before the fetch |
| `EdgeGateway.OutOfRangeExpirationStale` | netlify/edge-functions/chart-data.ts:53-89 | when the new expiration is outside the `Date` range, the log at line 62 throws after the slot is written; the new entry stays in the slot and is served as STALE |
| `EdgeGateway.FailuresAlike` | netlify/edge-functions/chart-data.ts:44-50 | a non-ok status or a body that is not JSON takes exactly the path of a network error |
| `EdgeGateway.FailureServesStale` | netlify/edge-functions/chart-data.ts:78-89 | a failed refresh with a slot, even an expired one, serves its data as STALE with status 200 and `CACHE_TTL_STALE_MAX_AGE`; the slot is unchanged |
| `EdgeGateway.FailureWithoutSlot` | netlify/edge-functions/chart-data.ts:91-97 | a failed refresh with a null slot answers 500 with the fixed error body and no Cache-Control; the slot stays null |
| `EdgeGateway.OutcomesExhaustive` | netlify/edge-functions/chart-data.ts:19-98 | every request is HIT, MISS or STALE with status 200 and a max-age, or the 500 error; STALE arises only from a failed refresh with a slot or from an out-of-range expiration; 500 arises exactly from a failed refresh with a null slot |
| `EdgeGateway.SlotWrittenWhole` | netlify/edge-functions/chart-data.ts:53-57 | a request leaves the slot unchanged, or sets data and expiration together from this request's successful fetch |
| `EdgeGateway.SlotNeverCleared` | netlify/edge-functions/chart-data.ts:13-57 | once the slot is non-null, no sequence of requests makes it null again |
| `EdgeGateway.MissThenHit` | netlify/edge-functions/chart-data.ts:22-57 | after a MISS, any request before the new expiration is a HIT; it serves the same payload and keeps the slot |
| `JsNumber.IntToString` | src/lib/cache.ts:145 | `expiration.toString()` for an integer: a non-empty string that starts with `'-'` exactly when the number is negative |
| `JsNumber.ParseInt` | src/lib/cache.ts:121 | `parseInt(expiration)`: whitespace, sign, optional `0x`, longest digit run; NaN unless the string holds a digit |
| `JsNumber.ParseIntToString` | src/lib/cache.ts:121 | `parseInt(n.toString())` gives back `n` |
| `ClientCache.IsOperatingHours` | src/lib/cache.ts:8-23 | Sunday or Wednesday and 17 <= hour < 20; equal to the generic `isOperatingHours` for `[0, 3]`, 17, 20 |
| `ClientCache.IsOperatingHoursAgrees` | src/lib/cache.ts:8-23 | the hardcoded window (Sunday or Wednesday, 17 <= hour < 20) is the generic `isOperatingHours` for `[0, 3]`, 17, 20 |
| `ClientCache.DaysToAdd` | src/lib/cache.ts:36-51 | the hardcoded table; always in 0..6 and landing on Sunday or Wednesday |
| `ClientCache.DaysToAddAgrees` | src/lib/cache.ts:36-51 | for every weekday and hour, the hardcoded table equals the generic one for `[0, 3]` and start 17; it is in 0..6, lands on Sunday or Wednesday, skips neither, and is 0 exactly on those days before 17 |
| `ClientCache.NextShiftStart` | src/lib/cache.ts:53-95 | the search over UTC hours 20..23 of the target day; the result is `now + 86 400 000` or one of those instants whose rendering contains `'17'` |
| `ClientCache.NextShiftStartFirstMatch` | src/lib/cache.ts:53-95 | the next shift start is `Date.UTC` at the first UTC hour in 20..23 whose rendering contains `'17'`; if none does, it is `now + 86 400 000` |
| `ClientCache.GetNextShiftStart` | src/lib/cache.ts:26-96 | the branch chain and the search loop with early return compute exactly the next shift start above |
| `ClientCache.CalculateExpiration` | src/lib/cache.ts:99-113 | `now + 60 000` with the test flag or in operating hours; otherwise at most the next shift start and either it or `now + 24h`; never more than `now + 24h` |
| `ClientCache.ReadPayload` | src/lib/cache.ts:131-132 | `cached ? JSON.parse(cached) : null`; a non-null result is what `JSON.parse` returned for a non-empty stored string |
| `ClientCache.ExpirationRoundTrip` | src/lib/cache.ts:121-122 | an expiration stored as `e.toString()` is valid at time `t` iff `t < e` |
| `ClientCache.ValidAfterStore` | src/lib/cache.ts:139-148 | after all three writes of `setCachedData`, the expiration entry is valid at `t` iff `t` is before the computed expiration |
| `ClientCache.PayloadAfterStore` | src/lib/cache.ts:129-143 | after the first write of `setCachedData`, reading the payload back gives the data, when `JSON.parse` inverts `JSON.stringify` on it and the string is non-empty |
| `ClientCache.ClientStore.IsCacheValid` | src/lib/cache.ts:116-126 | false when the read throws, the entry is missing or empty, or it parses to NaN; otherwise `now <` the parsed expiration |
| `ClientCache.ClientStore.GetCachedData` | src/lib/cache.ts:129-136 | null when the read throws, the entry is missing or empty, or parsing throws; otherwise the parsed payload; it never throws |
| `ClientCache.ClientStore.SetItem` | src/lib/cache.ts:143-145 | a write either updates exactly one key or throws and changes nothing |
| `ClientCache.ClientStore.SetCachedData` | src/lib/cache.ts:139-149 | the store is the old one after the successful prefix of the three writes; no other key changes; after all three, `isCacheValid(t)` iff `t <` the expiration; after the first, `getCachedData` returns the data whenever `JSON.parse` inverts `JSON.stringify` on it |

## Left out

- Timezone and calendar work is left out. This covers `toLocaleString` with `timeZone`, re-parsing locale strings, `setDate` in the runtime's zone, DST, and splitting the formatted date. These are inputs (`Clock.Zone`). Nothing is proved about what the formatter renders, so the model cannot say that the next shift start lies in the future or inside a window.
- Repeated `Date.now()` reads within one call are one `now` parameter. In the gateway, `calculateExpiration` reads the clock again after the fetch. The model uses the request's `now` for both.
- `fetch`, `response.json()`, the `Response` object and its headers, CORS, `console` logging and the route `config` export are left out. The response is a plain record, and `JSON.stringify` of the body is not modelled.
- Concurrency of the async handler is left out: duplicate fetches and last-write-wins between overlapping requests. Requests are served one at a time.
- `JSON.stringify` and `JSON.parse` in the client cache are opaque parameters. Storage failures are the `accessible` flag (every call throws) plus the number of writes that succeed before a quota error.
- `JsNumber.IntToString` models `Number#toString` for integers below 10^21, where no exponent is used. Double-precision rounding of large integers is not modelled.
- Instants and durations are JavaScript doubles in the source and unbounded integers in the model. Double rounding is not modelled; the timestamps involved stay far below 2^53.
- JSON numbers in the payload are real numbers. Only their truthiness (non-zero) is used.
- `src/types/window.d.ts` holds only type declarations, so it is not part of this model.
