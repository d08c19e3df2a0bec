/**
 * The edge function `netlify/edge-functions/chart-data.ts`: one in-memory
 * slot holding the last fetched payload and its expiration, and a request
 * handler that answers HIT, MISS, STALE or a 500 error.
 */
module EdgeGateway {
  import opened Wrappers
  import opened Json
  import opened Clock
  import Schedule

  /** The non-null value of the module-level `cache` variable. */
  datatype Entry = Entry(data: Json, expiration: int)

  /**
   * What `fetch(GOOGLE_API_URL)` and `response.json()` produced: an HTTP
   * status with the parsed body (`None` when the body is not JSON), or a
   * rejected `fetch`.
   */
  datatype FetchOutcome = Responded(status: int, body: Option<Json>) | NetworkError

  /** The `X-Cache` header. */
  datatype Tag = Hit | Miss | Stale

  /**
   * The `Response` the handler builds: status, `X-Cache` tag, the max-age of
   * its `Cache-Control` header (`None`: no such header) and the JSON body.
   */
  datatype Response = Response(status: int, tag: Option<Tag>, maxAge: Option<int>, body: Json)

  /** The handler's result together with the slot it leaves behind. */
  datatype Step = Step(resp: Response, slot: Option<Entry>)

  /** `response.ok`. */
  predicate IsOk(status: int)
  {
    200 <= status <= 299
  }

  /** `Math.floor((expiration - now) / 1000)`, the seconds left before `expiration`. */
  function MaxAgeSeconds(expiration: int, now: int): (s: int)
    ensures s * 1000 <= expiration - now < s * 1000 + 1000
  {
    (expiration - now) / 1000
  }

  /** The body of the 500 response. */
  const ErrorBody: Json := JObj(map["error" := JStr("Failed to fetch chart data")])

  /** `cache && cache.expiration > now`. */
  predicate IsFresh(slot: Option<Entry>, now: int)
  {
    slot.Some? && slot.value.expiration > now
  }

  /**
   * The `try` block after a miss: the new slot value, or `None` when anything
   * in it throws (a failed `fetch`, a non-ok status, a body that is not JSON,
   * or `calculateExpiration`).
   */
  function Refresh(cfg: Schedule.Config, zone: Zone, now: int, fetched: FetchOutcome): (r: Option<Entry>)
    ensures r.Some? ==> fetched.Responded? && IsOk(fetched.status) && fetched.body == Some(r.value.data)
    ensures r.Some? ==> Schedule.CalculateExpiration(cfg, zone, now, r.value.data) == Ok(r.value.expiration)
  {
    if fetched.NetworkError? || !IsOk(fetched.status) || fetched.body.None? then None
    else
      match Schedule.CalculateExpiration(cfg, zone, now, fetched.body.value)
      case Throws => None
      case Ok(expiration) => Some(Entry(fetched.body.value, expiration))
  }

  /** The largest distance from the epoch, in milliseconds, that a JavaScript `Date` can hold. */
  const MaxDateMs: int := 8_640_000_000_000_000

  /** `new Date(t).toISOString()` does not throw a RangeError. */
  predicate InDateRange(t: int)
  {
    -MaxDateMs <= t <= MaxDateMs
  }

  /** The STALE answer for the entry `e`. */
  function StaleResponse(cfg: Schedule.Config, e: Entry): Response
  {
    Response(200, Some(Stale), Some(cfg.ttlStaleMaxAge), e.data)
  }

  /**
   * One request: the response and the slot afterwards, as a function of the
   * slot before. After a successful refresh the slot is already written when
   * the expiration is logged; an expiration outside the `Date` range makes
   * that log throw, and the `catch` serves the new slot as STALE.
   */
  function Serve(cfg: Schedule.Config, zone: Zone, slot: Option<Entry>, now: int, fetched: FetchOutcome): (st: Step)
    ensures st.resp.status == 200 || st.resp.status == 500
    ensures slot.Some? ==> st.slot.Some?
    ensures st.resp.status == 200 ==> st.slot.Some? && st.resp.body == st.slot.value.data
  {
    if IsFresh(slot, now) then
      Step(Response(200, Some(Hit), Some(MaxAgeSeconds(slot.value.expiration, now)), slot.value.data), slot)
    else
      match Refresh(cfg, zone, now, fetched)
      case Some(e) =>
        if InDateRange(e.expiration) then Step(Response(200, Some(Miss), Some(MaxAgeSeconds(e.expiration, now)), e.data), Some(e))
        else Step(StaleResponse(cfg, e), Some(e))
      case None =>
        if slot.Some? then Step(StaleResponse(cfg, slot.value), slot)
        else Step(Response(500, None, None, ErrorBody), None)
  }

  /** The module-level slot and the default export that handles a request. */
  class EdgeCache {
    var slot: Option<Entry>

    /** `let cache = null` when the edge function is loaded. */
    constructor ()
      ensures slot == None
    {
      slot := None;
    }

    /** The request handler, with the clock reading and the upstream answer as parameters. */
    method Handle(cfg: Schedule.Config, zone: Zone, now: int, fetched: FetchOutcome) returns (resp: Response)
      modifies this
      ensures Step(resp, slot) == Serve(cfg, zone, old(slot), now, fetched)
    {
      if slot.Some? && slot.value.expiration > now {
        var remainingTtl := (slot.value.expiration - now) / 1000;
        return Response(200, Some(Hit), Some(remainingTtl), slot.value.data);
      }
      var failed := false;
      var data := JNull;
      var expiration := 0;
      if fetched.NetworkError? || !IsOk(fetched.status) || fetched.body.None? {
        failed := true;
      } else {
        data := fetched.body.value;
        var computed := Schedule.CalculateExpiration(cfg, zone, now, data);
        if computed.Throws? {
          failed := true;
        } else {
          expiration := computed.value;
          slot := Some(Entry(data, expiration));
          if !(-MaxDateMs <= expiration <= MaxDateMs) {
            failed := true;
          }
        }
      }
      if !failed {
        var maxAge := (expiration - now) / 1000;
        return Response(200, Some(Miss), Some(maxAge), data);
      }
      if slot.Some? {
        return Response(200, Some(Stale), Some(cfg.ttlStaleMaxAge), slot.value.data);
      }
      return Response(500, None, None, ErrorBody);
    }
  }

  // ---------------------------------------------------------------------------
  // Properties of one request

  /** A request is a HIT exactly when the slot holds an unexpired entry. */
  lemma HitIffFresh(cfg: Schedule.Config, zone: Zone, slot: Option<Entry>, now: int, fetched: FetchOutcome)
    ensures Serve(cfg, zone, slot, now, fetched).resp.tag == Some(Hit) <==> IsFresh(slot, now)
  {
  }

  /**
   * A HIT serves the slot's data with status 200 and a non-negative max-age of
   * the whole seconds left, leaves the slot alone and does not look at the upstream.
   */
  lemma HitServesSlot(cfg: Schedule.Config, zone: Zone, slot: Option<Entry>, now: int, fetched: FetchOutcome, other: FetchOutcome)
    requires IsFresh(slot, now)
    ensures var st := Serve(cfg, zone, slot, now, fetched);
      && st.slot == slot
      && st.resp.status == 200 && st.resp.body == slot.value.data
      && st.resp.maxAge.Some? && 0 <= st.resp.maxAge.value
      && st.resp.maxAge.value * 1000 <= slot.value.expiration - now < st.resp.maxAge.value * 1000 + 1000
      && st == Serve(cfg, zone, slot, now, other)
  {
  }

  /**
   * A miss followed by a successful fetch stores the fetched data with the
   * expiration computed at `now` and, when that expiration is a valid `Date`,
   * answers MISS with the seconds up to it.
   */
  lemma MissStoresFetched(cfg: Schedule.Config, zone: Zone, slot: Option<Entry>, now: int, status: int, data: Json)
    requires !IsFresh(slot, now) && IsOk(status)
    requires Schedule.CalculateExpiration(cfg, zone, now, data).Ok?
    requires InDateRange(Schedule.CalculateExpiration(cfg, zone, now, data).value)
    ensures var e := Schedule.CalculateExpiration(cfg, zone, now, data).value;
      Serve(cfg, zone, slot, now, Responded(status, Some(data))) ==
        Step(Response(200, Some(Miss), Some(MaxAgeSeconds(e, now)), data), Some(Entry(data, e)))
  {
  }

  /** The ways a refresh can fail. */
  predicate FetchFails(cfg: Schedule.Config, zone: Zone, now: int, fetched: FetchOutcome)
  {
    Refresh(cfg, zone, now, fetched).None?
  }

  /** A non-ok status takes the same path as a network error, and so does a body that is not JSON. */
  lemma {:induction false} FailuresAlike(cfg: Schedule.Config, zone: Zone, slot: Option<Entry>, now: int, status: int, body: Option<Json>)
    requires !IsOk(status) || body.None?
    ensures FetchFails(cfg, zone, now, Responded(status, body))
    ensures Serve(cfg, zone, slot, now, Responded(status, body)) == Serve(cfg, zone, slot, now, NetworkError)
  {
  }

  /** A failed refresh with a slot, even an expired one, serves the slot as STALE and keeps it. */
  lemma FailureServesStale(cfg: Schedule.Config, zone: Zone, slot: Option<Entry>, now: int, fetched: FetchOutcome)
    requires !IsFresh(slot, now) && FetchFails(cfg, zone, now, fetched) && slot.Some?
    ensures Serve(cfg, zone, slot, now, fetched) ==
      Step(Response(200, Some(Stale), Some(cfg.ttlStaleMaxAge), slot.value.data), slot)
  {
  }

  /**
   * A successful refresh whose expiration lies outside the `Date` range keeps
   * the new entry in the slot and serves it as STALE.
   */
  lemma OutOfRangeExpirationStale(cfg: Schedule.Config, zone: Zone, slot: Option<Entry>, now: int, status: int, data: Json)
    requires !IsFresh(slot, now) && IsOk(status)
    requires Schedule.CalculateExpiration(cfg, zone, now, data).Ok?
    requires !InDateRange(Schedule.CalculateExpiration(cfg, zone, now, data).value)
    ensures var e := Entry(data, Schedule.CalculateExpiration(cfg, zone, now, data).value);
      Serve(cfg, zone, slot, now, Responded(status, Some(data))) ==
        Step(Response(200, Some(Stale), Some(cfg.ttlStaleMaxAge), data), Some(e))
  {
  }

  /** A failed refresh with no slot answers 500 with the fixed error body and no Cache-Control. */
  lemma FailureWithoutSlot(cfg: Schedule.Config, zone: Zone, now: int, fetched: FetchOutcome)
    requires FetchFails(cfg, zone, now, fetched)
    ensures Serve(cfg, zone, None, now, fetched) == Step(Response(500, None, None, ErrorBody), None)
  {
  }

  /**
   * Every request ends in exactly one of HIT, MISS or STALE with status 200 and
   * a max-age, or the 500 error with neither; an error never escapes.
   */
  lemma OutcomesExhaustive(cfg: Schedule.Config, zone: Zone, slot: Option<Entry>, now: int, fetched: FetchOutcome)
    ensures var r := Serve(cfg, zone, slot, now, fetched).resp;
      || (r.status == 200 && r.tag.Some? && r.maxAge.Some?)
      || (r.status == 500 && r.tag == None && r.maxAge == None && r.body == ErrorBody)
    ensures var r := Serve(cfg, zone, slot, now, fetched).resp;
      r.tag == Some(Stale) ==>
        && !IsFresh(slot, now)
        && ((slot.Some? && FetchFails(cfg, zone, now, fetched)) ||
            (!FetchFails(cfg, zone, now, fetched) && !InDateRange(Refresh(cfg, zone, now, fetched).value.expiration)))
    ensures var r := Serve(cfg, zone, slot, now, fetched).resp;
      r.status == 500 <==> slot.None? && FetchFails(cfg, zone, now, fetched)
  {
  }

  /**
   * The slot is written only as a whole, with fetched data: afterwards it is
   * either unchanged or holds the payload of this request's successful fetch.
   */
  lemma SlotWrittenWhole(cfg: Schedule.Config, zone: Zone, slot: Option<Entry>, now: int, fetched: FetchOutcome)
    ensures var after := Serve(cfg, zone, slot, now, fetched).slot;
      || after == slot
      || (fetched.Responded? && IsOk(fetched.status) && fetched.body.Some? &&
          after == Some(Entry(fetched.body.value, Schedule.CalculateExpiration(cfg, zone, now, fetched.body.value).value)))
  {
  }

  // ---------------------------------------------------------------------------
  // Properties of request sequences

  /** A request as the handler sees it: the clock reading and the upstream's answer. */
  datatype Request = Request(now: int, fetched: FetchOutcome)

  /** The slot after serving `reqs` in order, one at a time. */
  function SlotAfter(cfg: Schedule.Config, zone: Zone, slot: Option<Entry>, reqs: seq<Request>): Option<Entry>
    decreases |reqs|
  {
    if reqs == [] then slot
    else SlotAfter(cfg, zone, Serve(cfg, zone, slot, reqs[0].now, reqs[0].fetched).slot, reqs[1..])
  }

  /** Once the slot holds an entry it never becomes null again. */
  lemma {:induction false} SlotNeverCleared(cfg: Schedule.Config, zone: Zone, slot: Option<Entry>, reqs: seq<Request>)
    requires slot.Some?
    ensures SlotAfter(cfg, zone, slot, reqs).Some?
    decreases |reqs|
  {
    if reqs != [] {
      SlotNeverCleared(cfg, zone, Serve(cfg, zone, slot, reqs[0].now, reqs[0].fetched).slot, reqs[1..]);
    }
  }

  /**
   * After a MISS, every later request before the new expiration is a HIT that
   * serves the same payload, whatever the upstream would answer.
   */
  lemma MissThenHit(cfg: Schedule.Config, zone: Zone, slot: Option<Entry>, now: int, fetched: FetchOutcome, later: int, fetched2: FetchOutcome)
    requires Serve(cfg, zone, slot, now, fetched).resp.tag == Some(Miss)
    requires var s := Serve(cfg, zone, slot, now, fetched).slot; s.Some? && later < s.value.expiration
    ensures var first := Serve(cfg, zone, slot, now, fetched);
      var second := Serve(cfg, zone, first.slot, later, fetched2);
      second.resp.tag == Some(Hit) && second.resp.body == first.resp.body && second.slot == first.slot
  {
  }
}
