/**
 * What every fetcher has in common: the triple it returns, the three ways its parsing can end,
 * and how that ending decides the reply and the new cache.
 */
module Feed {
  import opened Options
  import opened Display
  import opened Cache

  /** The `(image_url, title, description)` a fetcher returns. */
  datatype Triple = Triple(imageUrl: string, title: Text, description: Text)

  /** A JSON field passed through `float(...)`. */
  datatype Reading =
    | Num(x: real)  // a number, or a string holding one (a missing field reads as 0)
    | BadText       // a string that is not a number: `ValueError`
    | BadType       // `None`, a list or an object: `TypeError`

  /** How a fetcher's parsing of the response ends. */
  datatype Parsed =
    | Live(image: Option<string>, title: Text, description: Text)
      // data built and cached; `image` is the `image_url` cache field when the fetcher stores one
    | Offline  // the request or the parsing failed inside the fetcher: its fixed fallback reply
    | Raised   // an exception left the fetcher

  /** A fetcher's reply and the cache after it, or the exception that left it. */
  datatype Served = Reply(triple: Triple, cache: CacheTable) | Escaped

  /** The fixed reply of a fetcher whose request or parsing failed. */
  function OfflineTriple(id: string): (t: Triple)
    ensures t.imageUrl == ""
  {
    if id == "apod" then Triple("", Str("APOD service unavailable"), Str("Check connection"))
    else if id == "epic" then Triple("", Str("Earth observation offline"), Str("Service unavailable"))
    else if id == "iss" then Triple("", Str("ISS tracking offline"), Str("Position unavailable"))
    else if id == "neo" then Triple("", Str("Asteroid tracking offline"), Str("Service unavailable"))
    else if id == "insight" then Triple("", Str("Mars mission data offline"), Str("Service unavailable"))
    else Triple("", Str("Space weather offline"), Str("Service unavailable"))
  }

  /** The reply a fetcher builds from a fresh cache entry: only the image sources return a stored image. */
  function CachedTriple(id: string, e: Entry): (t: Triple)
    ensures t.title == e.title && t.description == e.description
    ensures id != "apod" && id != "epic" ==> t.imageUrl == ""
  {
    Triple(if id == "apod" || id == "epic" then e.imageUrl.GetOr("") else "", e.title, e.description)
  }

  /** The end of a fetch: live data is cached at time `at` and returned; the other endings leave the cache alone. */
  function Respond(cache: CacheTable, id: string, at: real, p: Parsed): (s: Served)
    ensures p.Raised? <==> s.Escaped?
    ensures p.Offline? ==> s == Reply(OfflineTriple(id), cache)
    ensures p.Live? ==> s.Reply? && s.cache.Keys == cache.Keys + {id}
    ensures p.Live? ==> s.triple == Triple(p.image.GetOr(""), p.title, p.description)
    ensures p.Live? ==> forall other :: other in cache && other != id ==> s.cache[other] == cache[other]
  {
    match p
    case Live(image, title, description) =>
      Reply(Triple(image.GetOr(""), title, description), cache[id := Entry(image, title, description, at)])
    case Offline => Reply(OfflineTriple(id), cache)
    case Raised => Escaped
  }

  /** A fetcher that consults the cache first: a fresh entry is served without any request. */
  function CachedFetch(cache: CacheTable, id: string, now: real, at: real, p: Parsed): (s: Served)
    ensures IsCacheValid(cache, id, now) ==> s == Reply(CachedTriple(id, cache[id]), cache)
    ensures !IsCacheValid(cache, id, now) ==> s == Respond(cache, id, at, p)
  {
    if IsCacheValid(cache, id, now) then Reply(CachedTriple(id, cache[id]), cache) else Respond(cache, id, at, p)
  }

  /** Live data written at `at` answers the same fetcher's next call, made within the interval, unchanged. */
  lemma LiveIsServedFromCache(cache: CacheTable, id: string, at: real, p: Parsed, later: real, q: Parsed, at2: real)
    requires p.Live? && (p.image.Some? <==> id == "apod" || id == "epic")
    requires at <= later < at + CacheInterval(id) as real
    ensures var s := Respond(cache, id, at, p);
      s.Reply? && CachedFetch(s.cache, id, later, at2, q) == Reply(s.triple, s.cache)
  {
  }
}
