/**
 * calculate_daily_wear: the daily ring-wear percentage read through a
 * response cache. The vendor's HTTP endpoint is a function from request
 * key to response; the cache file name is a hash of the request, taken
 * here as the request key itself (an injective hash). Dates handed in are
 * midnights, compared against the current instant.
 */
module WearCache {
  import opened Wrappers
  import opened DayCount

  /** The request parameters the cache is keyed by: email and date. */
  datatype Key = Key(email: string, day: int)

  /**
   * A response body: one that is not JSON at all (response.json() raises
   * before anything is written), JSON without the shape data.metric_data
   * (written to the cache, then raising when read), or the number of
   * samples of its 'temp' metric, None when there is no such metric.
   */
  datatype Payload = NotJson | Malformed | Metrics(tempSamples: Option<nat>)

  datatype Response = Response(status: int, payload: Payload)

  /** The current instant: a day number and the seconds elapsed in it. */
  datatype Instant = Instant(day: int, second: nat)

  /** Midnight of `day` lies after the current instant. */
  predicate Future(day: int, now: Instant) { day > now.day }

  /** Midnight of `day` lies before the current instant (today's midnight too, once a second has passed). */
  predicate Past(day: int, now: Instant) { day < now.day || (day == now.day && now.second > 0) }

  /** The wear percentage a body yields: share of the 288 five-minute samples, 0 without 'temp' or on a bad body. */
  function Percentage(p: Payload): (r: real)
    ensures 0.0 <= r
    ensures p.Metrics? && p.tempSamples.Some? ==> (r >= 75.0 <==> p.tempSamples.value >= 216)
    ensures !(p.Metrics? && p.tempSamples.Some?) ==> r == 0.0
  {
    match p
    case NotJson => 0.0
    case Malformed => 0.0
    case Metrics(None) => 0.0
    case Metrics(Some(samples)) => samples as real / ExpectedSamples as real * 100.0
  }

  /** What one call returns, whether it went to the network, and the cache after it. */
  datatype Outcome = Outcome(wear: Option<real>, fetched: bool, cache: map<Key, Payload>)

  /** One call of calculate_daily_wear against the cache `cache` (lines 173-212). */
  function DailyWear(cache: map<Key, Payload>, email: string, day: int, now: Instant, hasKey: bool,
                     fetch: Key -> Response): Outcome {
    var key := Key(email, day);
    if Future(day, now) then Outcome(Some(0.0), false, cache)
    else if !hasKey then Outcome(None, false, cache)
    else if key in cache then Outcome(Some(Percentage(cache[key])), false, cache)
    else
      var response := fetch(key);
      if response.status != 200 || response.payload.NotJson? then Outcome(Some(0.0), true, cache)
      else Outcome(Some(Percentage(response.payload)), true,
                   if Past(day, now) then cache[key := response.payload] else cache)
  }

  /** The same call with no cache at all: the network answer for that day. */
  function Uncached(email: string, day: int, now: Instant, hasKey: bool, fetch: Key -> Response): Option<real> {
    if Future(day, now) then Some(0.0)
    else if !hasKey then None
    else
      var response := fetch(Key(email, day));
      if response.status != 200 then Some(0.0) else Some(Percentage(response.payload))
  }

  /** Every cached body is what the endpoint answers, with status 200, for that request. */
  ghost predicate Coherent(cache: map<Key, Payload>, fetch: Key -> Response) {
    forall k :: k in cache ==> fetch(k).status == 200 && cache[k] == fetch(k).payload
  }

  /** A future date returns 0 and touches neither the network nor the cache. */
  lemma FutureDateSkipped(cache: map<Key, Payload>, email: string, day: int, now: Instant, hasKey: bool,
                          fetch: Key -> Response)
    requires Future(day, now)
    ensures DailyWear(cache, email, day, now, hasKey, fetch) == Outcome(Some(0.0), false, cache)
  {
  }

  /** Whether the network is used: only for a non-future date, with a key, on a cache miss. */
  lemma FetchOnlyOnMiss(cache: map<Key, Payload>, email: string, day: int, now: Instant, hasKey: bool,
                        fetch: Key -> Response)
    ensures DailyWear(cache, email, day, now, hasKey, fetch).fetched
            <==> !Future(day, now) && hasKey && Key(email, day) !in cache
  {
  }

  /**
   * The cache changes only by storing a 200 JSON body for a date before
   * now, under its own key, and that always happens on such a miss.
   */
  lemma StoreOnlyPastSuccess(cache: map<Key, Payload>, email: string, day: int, now: Instant, hasKey: bool,
                             fetch: Key -> Response)
    ensures var o := DailyWear(cache, email, day, now, hasKey, fetch);
      o.cache != cache <==> o.fetched && fetch(Key(email, day)).status == 200
                            && !fetch(Key(email, day)).payload.NotJson? && Past(day, now)
    ensures var o := DailyWear(cache, email, day, now, hasKey, fetch);
      o.cache != cache ==> o.cache == cache[Key(email, day) := fetch(Key(email, day)).payload]
  {
    var key := Key(email, day);
    if !Future(day, now) && hasKey && key !in cache {
      assert key in cache[key := fetch(key).payload];
    }
  }

  /** A failed request returns 0 and leaves the cache as it was. */
  lemma ErrorNotStored(cache: map<Key, Payload>, email: string, day: int, now: Instant, hasKey: bool,
                       fetch: Key -> Response)
    requires !Future(day, now) && hasKey && Key(email, day) !in cache
    requires fetch(Key(email, day)).status != 200
    ensures DailyWear(cache, email, day, now, hasKey, fetch) == Outcome(Some(0.0), true, cache)
  {
  }

  /** A 200 response whose body is not JSON returns 0 and is not stored. */
  lemma NotJsonNotStored(cache: map<Key, Payload>, email: string, day: int, now: Instant, hasKey: bool,
                         fetch: Key -> Response)
    requires !Future(day, now) && hasKey && Key(email, day) !in cache
    requires fetch(Key(email, day)).status == 200 && fetch(Key(email, day)).payload.NotJson?
    ensures DailyWear(cache, email, day, now, hasKey, fetch) == Outcome(Some(0.0), true, cache)
  {
  }

  /**
   * The date test is against the current instant, not today's date: once
   * today has begun, today's still-growing body is stored.
   */
  lemma TodayIsStored(cache: map<Key, Payload>, email: string, now: Instant, fetch: Key -> Response)
    requires now.second > 0 && Key(email, now.day) !in cache
    requires fetch(Key(email, now.day)).status == 200 && !fetch(Key(email, now.day)).payload.NotJson?
    ensures Key(email, now.day) in DailyWear(cache, email, now.day, now, true, fetch).cache
  {
  }

  /**
   * With a coherent cache the call returns what the network would, and
   * the cache stays coherent: the cache is invisible to callers.
   */
  lemma CoherentCacheTransparent(cache: map<Key, Payload>, email: string, day: int, now: Instant, hasKey: bool,
                                 fetch: Key -> Response)
    requires Coherent(cache, fetch)
    ensures var o := DailyWear(cache, email, day, now, hasKey, fetch);
      o.wear == Uncached(email, day, now, hasKey, fetch) && Coherent(o.cache, fetch)
  {
    var key := Key(email, day);
    if !Future(day, now) && hasKey && key in cache {
      assert fetch(key).status == 200 && cache[key] == fetch(key).payload;
    }
  }

  /** The per-day wear the weekly count sees without a cache. */
  function UncachedWear(email: string, now: Instant, hasKey: bool, fetch: Key -> Response): int -> Option<real> {
    d => Uncached(email, d, now, hasKey, fetch)
  }

  /** The per-day wear calculate_daily_wear returns, each day read against the cache `cache`. */
  function CachedWear(cache: map<Key, Payload>, email: string, now: Instant, hasKey: bool,
                      fetch: Key -> Response): int -> Option<real> {
    d => DailyWear(cache, email, d, now, hasKey, fetch).wear
  }

  /** The cache after calculate_daily_wear has run for start, start + 1, ..., end in turn. */
  function CacheAfterDays(cache: map<Key, Payload>, email: string, start: int, end: int, now: Instant,
                          hasKey: bool, fetch: Key -> Response): map<Key, Payload>
    decreases end - start
  {
    if end < start then cache
    else DailyWear(CacheAfterDays(cache, email, start, end - 1, now, hasKey, fetch), email, end, now, hasKey, fetch).cache
  }

  /** A miss on this request stores its body: a key is present, the date is past, and a 200 JSON body comes back. */
  predicate StoresOnMiss(k: Key, now: Instant, hasKey: bool, fetch: Key -> Response) {
    hasKey && Past(k.day, now) && fetch(k).status == 200 && !fetch(k).payload.NotJson?
  }

  /**
   * Running the days of [start, end] keeps every entry already cached and
   * adds exactly the requests of those days that store on a miss; nothing
   * else changes.
   */
  lemma {:induction false} CacheAfterDaysMeaning(cache: map<Key, Payload>, email: string, start: int, end: int,
                                                 now: Instant, hasKey: bool, fetch: Key -> Response, k: Key)
    ensures var c := CacheAfterDays(cache, email, start, end, now, hasKey, fetch);
      (k in c <==> k in cache || (k.email == email && start <= k.day <= end && StoresOnMiss(k, now, hasKey, fetch)))
      && (k in c ==> c[k] == if k in cache then cache[k] else fetch(k).payload)
    decreases end - start
  {
    if start <= end {
      CacheAfterDaysMeaning(cache, email, start, end - 1, now, hasKey, fetch, k);
      CacheAfterDaysMeaning(cache, email, start, end - 1, now, hasKey, fetch, Key(email, end));
    }
  }

  /** The earlier days' calls store nothing under a later day's request, so that call reads the cache as it was. */
  lemma LaterDayReadsOldCache(cache: map<Key, Payload>, email: string, start: int, day: int, now: Instant,
                              hasKey: bool, fetch: Key -> Response)
    ensures DailyWear(CacheAfterDays(cache, email, start, day - 1, now, hasKey, fetch), email, day, now, hasKey, fetch).wear
            == CachedWear(cache, email, now, hasKey, fetch)(day)
  {
    CacheAfterDaysMeaning(cache, email, start, day - 1, now, hasKey, fetch, Key(email, day));
  }

  /**
   * With a coherent cache, the days the cached calls qualify are the days
   * the endpoint alone qualifies, and the cache stays coherent.
   */
  lemma CoherentWeekCount(cache: map<Key, Payload>, email: string, start: int, end: int, now: Instant,
                          hasKey: bool, fetch: Key -> Response)
    requires Coherent(cache, fetch)
    ensures WornDays(CachedWear(cache, email, now, hasKey, fetch), start, end)
            == WornDays(UncachedWear(email, now, hasKey, fetch), start, end)
    ensures Coherent(CacheAfterDays(cache, email, start, end, now, hasKey, fetch), fetch)
  {
    forall d | start <= d <= end
      ensures CachedWear(cache, email, now, hasKey, fetch)(d) == UncachedWear(email, now, hasKey, fetch)(d)
    {
      CoherentCacheTransparent(cache, email, d, now, hasKey, fetch);
    }
    var after := CacheAfterDays(cache, email, start, end, now, hasKey, fetch);
    forall k | k in after ensures fetch(k).status == 200 && after[k] == fetch(k).payload {
      CacheAfterDaysMeaning(cache, email, start, end, now, hasKey, fetch, k);
    }
  }

  /** The .cache directory: response bodies by request. */
  class Store {
    var entries: map<Key, Payload>

    constructor ()
      ensures entries == map[]
    {
      entries := map[];
    }

    /** calculate_daily_wear: the day's percentage, reading and filling the cache. */
    method DailyWearOf(email: string, day: int, now: Instant, hasKey: bool, fetch: Key -> Response)
      returns (wear: Option<real>, fetched: bool)
      modifies this
      ensures Outcome(wear, fetched, entries) == DailyWear(old(entries), email, day, now, hasKey, fetch)
    {
      fetched := false;
      if day > now.day {
        return Some(0.0), false;
      }
      if !hasKey {
        return None, false;
      }
      var key := Key(email, day);
      if key in entries {
        wear := Some(Percentage(entries[key]));
        return;
      }
      var response := fetch(key);
      fetched := true;
      if response.status != 200 {
        return Some(0.0), true;
      }
      if response.payload.NotJson? {
        // response.json() raises before the body is written.
        return Some(0.0), true;
      }
      if day < now.day || (day == now.day && now.second > 0) {
        entries := entries[key := response.payload];
      }
      wear := Some(Percentage(response.payload));
    }

    /**
     * get_weekly_wear_count over the cache: the days of [start, end] whose
     * percentage, read against the cache as it was, is known and at least
     * 75; the cache ends up as the days' calls leave it.
     */
    method WeeklyWearCount(email: string, start: int, end: int, now: Instant, hasKey: bool, fetch: Key -> Response)
      returns (count: nat)
      modifies this
      ensures count == |WornDays(CachedWear(old(entries), email, now, hasKey, fetch), start, end)|
      ensures entries == CacheAfterDays(old(entries), email, start, end, now, hasKey, fetch)
    {
      ghost var cache := entries;
      ghost var wear := CachedWear(cache, email, now, hasKey, fetch);
      count := 0;
      var current := start;
      while current <= end
        invariant end < start ==> current == start
        invariant start <= end ==> start <= current <= end + 1
        invariant entries == CacheAfterDays(cache, email, start, current - 1, now, hasKey, fetch)
        invariant count == |WornDays(wear, start, current - 1)|
        decreases end - current
      {
        ghost var before := entries;
        var percentage, _ := DailyWearOf(email, current, now, hasKey, fetch);
        assert percentage == wear(current) by {
          LaterDayReadsOldCache(cache, email, start, current, now, hasKey, fetch);
        }
        assert entries == CacheAfterDays(cache, email, start, current, now, hasKey, fetch) by {
          assert entries == DailyWear(before, email, current, now, hasKey, fetch).cache;
        }
        WornDaysStep(wear, start, current);
        if percentage.Some? && percentage.value >= 75.0 {
          count := count + 1;
        }
        current := current + 1;
      }
      if end < start {
        assert WornDays(wear, start, end) == {};
      }
    }
  }

  // ---- Caching only days that are over

  /**
   * The endpoint over time: the answer to a request at an instant. A day's
   * body keeps growing while the day runs; once the day is over it no
   * longer changes.
   */
  ghost predicate Settled(endpoint: (Key, Instant) -> Response) {
    forall k: Key, t1: Instant, t2: Instant :: k.day < t1.day && k.day < t2.day ==> endpoint(k, t1) == endpoint(k, t2)
  }

  /** The endpoint as a call at the instant `now` sees it. */
  function At(endpoint: (Key, Instant) -> Response, now: Instant): Key -> Response {
    k => endpoint(k, now)
  }

  /** The intended rule: the call as written, except that a body is stored only for a day that is over. */
  function DailyWearFinished(cache: map<Key, Payload>, email: string, day: int, now: Instant, hasKey: bool,
                             fetch: Key -> Response): Outcome {
    var written := DailyWear(cache, email, day, now, hasKey, fetch);
    if day < now.day then written else written.(cache := cache)
  }

  /** Every cached body is of a day that is over and is what the endpoint now answers, with status 200. */
  ghost predicate Sound(cache: map<Key, Payload>, endpoint: (Key, Instant) -> Response, now: Instant) {
    forall k :: k in cache ==>
      k.day < now.day && endpoint(k, now).status == 200 && cache[k] == endpoint(k, now).payload
  }

  /** A sound cache stays sound as time goes on. */
  lemma SoundLater(cache: map<Key, Payload>, endpoint: (Key, Instant) -> Response, t1: Instant, t2: Instant)
    requires Settled(endpoint) && Sound(cache, endpoint, t1) && t1.day <= t2.day
    ensures Sound(cache, endpoint, t2)
  {
    forall k | k in cache ensures k.day < t2.day && endpoint(k, t2) == endpoint(k, t1) {
    }
  }

  /** Under the intended rule a sound cache answers as the endpoint would, and stays sound. */
  lemma FinishedCacheTransparent(cache: map<Key, Payload>, endpoint: (Key, Instant) -> Response, email: string,
                                 day: int, now: Instant, hasKey: bool)
    requires Sound(cache, endpoint, now)
    ensures var o := DailyWearFinished(cache, email, day, now, hasKey, At(endpoint, now));
      o.wear == Uncached(email, day, now, hasKey, At(endpoint, now)) && Sound(o.cache, endpoint, now)
  {
    var key := Key(email, day);
    if !Future(day, now) && hasKey && key in cache {
      assert endpoint(key, now).status == 200 && cache[key] == endpoint(key, now).payload;
    }
  }

  /**
   * Under the intended rule a call made later than another, against the
   * cache the first left, still gets the endpoint's current answer: no
   * stale body is ever served.
   */
  lemma NoStaleBody(cache: map<Key, Payload>, endpoint: (Key, Instant) -> Response, email: string,
                    day1: int, day2: int, t1: Instant, t2: Instant, hasKey: bool)
    requires Settled(endpoint) && Sound(cache, endpoint, t1) && t1.day <= t2.day
    ensures var o1 := DailyWearFinished(cache, email, day1, t1, hasKey, At(endpoint, t1));
      var o2 := DailyWearFinished(o1.cache, email, day2, t2, hasKey, At(endpoint, t2));
      o2.wear == Uncached(email, day2, t2, hasKey, At(endpoint, t2))
  {
    var o1 := DailyWearFinished(cache, email, day1, t1, hasKey, At(endpoint, t1));
    FinishedCacheTransparent(cache, endpoint, email, day1, t1, hasKey);
    SoundLater(o1.cache, endpoint, t1, t2);
    FinishedCacheTransparent(o1.cache, endpoint, email, day2, t2, hasKey);
  }

  /** A day's body that grows while the day runs: 100 samples until it is over, then all 288. */
  function GrowingDay(k: Key, t: Instant): Response {
    Response(200, Metrics(Some(if k.day < t.day then 288 else 100)))
  }

  /**
   * As written, a body stored during its own day is served on the next
   * day in place of the finished one: 100 of 288 samples instead of 288.
   */
  lemma StaleTodayServed(email: string)
    ensures Settled(GrowingDay)
    ensures var t1, t2 := Instant(5, 3600), Instant(6, 0);
      var o1 := DailyWear(map[], email, 5, t1, true, At(GrowingDay, t1));
      var o2 := DailyWear(o1.cache, email, 5, t2, true, At(GrowingDay, t2));
      o2.wear == Some(100.0 / 288.0 * 100.0) && Uncached(email, 5, t2, true, At(GrowingDay, t2)) == Some(100.0)
  {
    var t1, t2 := Instant(5, 3600), Instant(6, 0);
    var o1 := DailyWear(map[], email, 5, t1, true, At(GrowingDay, t1));
    assert o1.cache == map[Key(email, 5) := Metrics(Some(100))];
  }
}
