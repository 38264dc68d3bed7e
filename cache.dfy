/**
 * The client's cache of fetched results: one entry per source identifier, stamped with the
 * time it was written, and fresh while younger than the source's fixed interval.
 */
module Cache {
  import opened Options
  import opened Display

  /** The sources of the interval table, in declaration order. */
  const CachedSources: seq<string> := ["apod", "epic", "iss", "neo", "insight", "donki"]

  /** Seconds an entry stays fresh (`CACHE_INTERVALS.get(source_id, 3600)`). */
  function CacheInterval(id: string): (ttl: nat)
    ensures ttl > 0
    ensures id !in CachedSources ==> ttl == 3600
  {
    if id == "apod" then 6 * 3600
    else if id == "epic" then 2 * 3600
    else if id == "iss" then 2 * 60
    else if id == "neo" then 4 * 3600
    else if id == "insight" then 8 * 3600
    else if id == "donki" then 3 * 3600
    else 3600
  }

  lemma IntervalTable()
    ensures CacheInterval("apod") == 21600 && CacheInterval("epic") == 7200
    ensures CacheInterval("iss") == 120 && CacheInterval("neo") == 14400
    ensures CacheInterval("insight") == 28800 && CacheInterval("donki") == 10800
  {
  }

  /**
   * A cache entry. `imageUrl` is present only for the sources whose fetcher stores one
   * (the daily image and the Earth imagery); `cachedAt` is the time of the write.
   */
  datatype Entry = Entry(imageUrl: Option<string>, title: Text, description: Text, cachedAt: real)

  type CacheTable = map<string, Entry>

  /** `_is_cache_valid`: an entry exists and its age is below the source's interval. */
  function IsCacheValid(cache: CacheTable, id: string, now: real): (valid: bool)
    ensures id !in cache ==> !valid
    ensures id in cache ==> (valid <==> now < cache[id].cachedAt + CacheInterval(id) as real)
  {
    id in cache && now - cache[id].cachedAt < CacheInterval(id) as real
  }

  /** An entry written at `t0` is fresh exactly until `t0` plus the interval, and stale from then on. */
  lemma FreshWindow(cache: CacheTable, id: string, e: Entry, now: real)
    ensures IsCacheValid(cache[id := e], id, now) <==> now < e.cachedAt + CacheInterval(id) as real
  {
  }

  /** Writing one source's entry leaves every other source's validity as it was. */
  lemma WriteIsLocal(cache: CacheTable, id: string, e: Entry, other: string, now: real)
    requires other != id
    ensures IsCacheValid(cache[id := e], other, now) == IsCacheValid(cache, other, now)
  {
  }

  /** Python's `int(x)` on a float: truncation toward zero. */
  function Truncate(x: real): (n: int)
    ensures x >= 0.0 ==> n as real <= x < n as real + 1.0
    ensures x < 0.0 ==> n as real - 1.0 < x <= n as real
  {
    if x >= 0.0 then x.Floor else -((-x).Floor)
  }

  /** One source's line of the cache statistics. */
  datatype Stat =
    | NotCached
    | Cached(ageSeconds: int, valid: bool, lastTitle: Text)

  /**
   * `get_cache_stats`: one line per source of the interval table, in its order. The loop reads the
   * clock twice for a cached source: `ageAt[i]` for the reported age, then `validAt[i]` inside
   * `_is_cache_valid`.
   */
  function CacheStats(cache: CacheTable, ageAt: seq<real>, validAt: seq<real>): (stats: seq<(string, Stat)>)
    requires |ageAt| == |CachedSources| && |validAt| == |CachedSources|
    ensures |stats| == |CachedSources|
    ensures forall i :: 0 <= i < |stats| ==> stats[i].0 == CachedSources[i]
    ensures forall i :: 0 <= i < |stats| ==> (stats[i].1.NotCached? <==> CachedSources[i] !in cache)
    ensures forall i :: 0 <= i < |stats| && CachedSources[i] in cache ==>
      stats[i].1.ageSeconds == Truncate(ageAt[i] - cache[CachedSources[i]].cachedAt)
      && stats[i].1.valid == IsCacheValid(cache, CachedSources[i], validAt[i])
      && stats[i].1.lastTitle == cache[CachedSources[i]].title
  {
    seq(|CachedSources|, i requires 0 <= i < |CachedSources| =>
      var id := CachedSources[i];
      if id in cache then
        (id, Cached(Truncate(ageAt[i] - cache[id].cachedAt), IsCacheValid(cache, id, validAt[i]), cache[id].title))
      else (id, NotCached))
  }

  /**
   * A line that says fresh reports a whole-second age below the interval, provided the clock does not
   * go back between the two readings.
   */
  lemma ValidStatIsYoung(cache: CacheTable, ageAt: seq<real>, validAt: seq<real>, i: nat)
    requires |ageAt| == |CachedSources| && |validAt| == |CachedSources|
    requires i < |CachedSources| && CachedSources[i] in cache && ageAt[i] <= validAt[i]
    ensures var s := CacheStats(cache, ageAt, validAt)[i].1;
      s.Cached? && (s.valid ==> s.ageSeconds < CacheInterval(CachedSources[i]))
  {
    var id := CachedSources[i];
    var age := ageAt[i] - cache[id].cachedAt;
    var ttl := CacheInterval(id);
    if age >= 0.0 {
      assert age < ttl as real ==> Truncate(age) < ttl;
    }
  }

  /**
   * When both readings give the same time, the whole-second age is below the interval exactly when
   * the line says fresh. With a later second reading the line can say stale at an age below it.
   */
  lemma StatsAgreeWithValidity(cache: CacheTable, ageAt: seq<real>, validAt: seq<real>, i: nat)
    requires |ageAt| == |CachedSources| && |validAt| == |CachedSources|
    requires i < |CachedSources| && CachedSources[i] in cache && ageAt[i] == validAt[i]
    ensures var s := CacheStats(cache, ageAt, validAt)[i].1;
      s.Cached? && (s.valid <==> s.ageSeconds < CacheInterval(CachedSources[i]))
  {
    var id := CachedSources[i];
    var age := ageAt[i] - cache[id].cachedAt;
    var ttl := CacheInterval(id);
    var n := Truncate(age);
    if age >= 0.0 {
      assert age < ttl as real ==> n < ttl;
      assert n < ttl ==> n + 1 <= ttl;
    }
  }

  /** The readings one second apart across the end of the window: the age is below it, the line says stale. */
  lemma StaleAtAnAgeBelowTheInterval()
    ensures var cache := map["iss" := Entry(None, [], [], 0.0)];
      var ageAt := [0.0, 0.0, 119.5, 0.0, 0.0, 0.0];
      var validAt := [0.0, 0.0, 120.5, 0.0, 0.0, 0.0];
      var s := CacheStats(cache, ageAt, validAt)[2].1;
      s.Cached? && s.ageSeconds == 119 && s.ageSeconds < CacheInterval("iss") && !s.valid
  {
    var cache := map["iss" := Entry(None, [], [], 0.0)];
    assert CachedSources[2] == "iss";
    assert Truncate(119.5) == 119;
  }
}
