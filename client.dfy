/**
 * The NASA client: the cache of results, one request lock per source, the six fetchers and
 * the dispatcher that runs one of them under its lock and a ten-second limit.
 */
module Client {
  import opened Options
  import opened Strings
  import opened Display
  import opened NasaConfig
  import opened Http
  import opened Cache
  import opened Feed
  import opened Apod
  import opened Epic
  import opened Iss
  import opened Neo
  import opened Mars
  import opened Donki

  /** `_get_api_key`: the configured key when it is truthy, the public demonstration key otherwise. */
  function EffectiveApiKey(configured: Value): (key: Value)
    ensures Truthy(key)
    ensures Truthy(configured) ==> key == configured
    ensures !Truthy(configured) ==> key == NasaConfig.Str("DEMO_KEY")
  {
    if Truthy(configured) then configured else NasaConfig.Str("DEMO_KEY")
  }

  /**
   * What one call of the dispatcher meets outside the program: the responses to every request
   * it may make, the random rover and sol, the age of the newest weather notification, the time
   * at which the fetcher writes the cache, and whether its requests outlast the time limit.
   */
  datatype World = World(
    apod: Attempts<ApodPayload>,
    epic: Attempts<EpicPayload>,
    issNow: Attempts<Position>,
    astros: Attempts<Astros>,
    neo: Attempts<NeoPayload>,
    mars: Attempts<MarsPayload>,
    rover: nat,
    sol: int,
    donki: Attempts<DonkiPayload>,
    daysAgo: Option<int>,
    finishedAt: real,
    deadlineHit: bool)

  function ApodParsed(d: Option<ApodPayload>): Parsed {
    match d
    case None => Offline
    case Some(p) => ParseApod(p)
  }

  /** The request and the parsing of `fetch_apod_data`. */
  method RequestApod(a: Attempts<ApodPayload>) returns (parsed: Parsed)
    ensures parsed == ApodParsed(RequestResult(a))
  {
    var data, attempts, slept := MakeRequest(a);
    parsed := Offline;
    if data.Some? {
      parsed := ReadApod(data.value);
    }
  }

  function EpicParsed(d: Option<EpicPayload>): Parsed {
    match d
    case None => Offline
    case Some(p) => ParseEpic(p)
  }

  function NeoParsed(d: Option<NeoPayload>): Parsed {
    match d
    case None => Offline
    case Some(p) => ParseNeo(p)
  }

  /** The request and the parsing of `fetch_neo_data`. */
  method RequestNeo(a: Attempts<NeoPayload>) returns (parsed: Parsed)
    ensures parsed == NeoParsed(RequestResult(a))
  {
    var data, attempts, slept := MakeRequest(a);
    parsed := Offline;
    if data.Some? {
      parsed := ReadNeo(data.value);
    }
  }

  function MarsParsed(rover: nat, sol: int, d: Option<MarsPayload>): Parsed
    requires rover < |Rovers|
  {
    match d
    case None => Offline
    case Some(p) => ParseMars(Rovers[rover], sol, p)
  }

  function DonkiParsed(daysAgo: Option<int>, d: Option<DonkiPayload>): Parsed {
    match d
    case None => Offline
    case Some(p) => ParseDonki(p, daysAgo)
  }

  /** What the fetcher of `id` does, in the world `w`, to a cache read at `now`. */
  function FetcherSpec(cache: CacheTable, id: string, now: real, w: World): (s: Served)
    requires id in SourceIds() && ValidChoice(w.rover, w.sol)
    ensures id != "iss" && IsCacheValid(cache, id, now) ==> s == Served.Reply(CachedTriple(id, cache[id]), cache)
  {
    var at := w.finishedAt;
    if id == "apod" then CachedFetch(cache, id, now, at, ApodParsed(RequestResult(w.apod)))
    else if id == "epic" then CachedFetch(cache, id, now, at, EpicParsed(RequestResult(w.epic)))
    else if id == "iss" then Respond(cache, id, at, ParseIss(RequestResult(w.issNow), RequestResult(w.astros)))
    else if id == "neo" then CachedFetch(cache, id, now, at, NeoParsed(RequestResult(w.neo)))
    else if id == "insight" then CachedFetch(cache, id, now, at, MarsParsed(w.rover, w.sol, RequestResult(w.mars)))
    else CachedFetch(cache, id, now, at, DonkiParsed(w.daysAgo, RequestResult(w.donki)))
  }

  /** A fetch makes requests unless it is served from a fresh cache entry; the station fetcher always does. */
  function NeedsNetwork(cache: CacheTable, id: string, now: real): (requests: bool)
    ensures id == "iss" ==> requests
    ensures id != "iss" ==> (requests <==> id !in cache || now >= cache[id].cachedAt + CacheInterval(id) as real)
  {
    id == "iss" || !IsCacheValid(cache, id, now)
  }

  const UnknownSource := Triple("", Display.Str("Unknown data source"), Display.Str("Invalid request"))
  const Connecting := Triple("", Display.Str("Fetching live data..."), Display.Str("Connecting to NASA..."))

  /** "{ID} service timeout", no image, "Connection slow". */
  function TimeoutTriple(id: string): (t: Triple)
    ensures t.imageUrl == "" && t.title == [Lit(Upper(id)), Lit(" service timeout")] && t.description == Display.Str("Connection slow")
  {
    Triple("", [Lit(Upper(id)), Lit(" service timeout")], Display.Str("Connection slow"))
  }

  /** "{ID} service error", no image, "Check connection". */
  function ErrorTriple(id: string): (t: Triple)
    ensures t.imageUrl == "" && t.title == [Lit(Upper(id)), Lit(" service error")] && t.description == Display.Str("Check connection")
    ensures t != TimeoutTriple(id)
  {
    Triple("", [Lit(Upper(id)), Lit(" service error")], Display.Str("Check connection"))
  }

  /** The body of `fetch_source_data` under the lock: the reply and the cache after it. */
  function DispatchSpec(cache: CacheTable, id: string, now: real, w: World): (r: (Triple, CacheTable))
    requires ValidChoice(w.rover, w.sol)
    ensures id !in SourceIds() ==> r == (UnknownSource, cache)
    ensures id in SourceIds() && NeedsNetwork(cache, id, now) && w.deadlineHit ==> r == (TimeoutTriple(id), cache)
    ensures id in SourceIds() && !(NeedsNetwork(cache, id, now) && w.deadlineHit) ==>
      var s := FetcherSpec(cache, id, now, w);
      (s.Reply? ==> r == (s.triple, s.cache)) && (s.Escaped? ==> r == (ErrorTriple(id), cache))
  {
    if id !in SourceIds() then (UnknownSource, cache)
    else if NeedsNetwork(cache, id, now) && w.deadlineHit then (TimeoutTriple(id), cache)
    else
      match FetcherSpec(cache, id, now, w)
      case Reply(t, c) => (t, c)
      case Escaped => (ErrorTriple(id), cache)
  }

  /** The reply while another call holds the source's lock: whatever is cached, fresh or not. */
  function BusyReply(cache: CacheTable, id: string): (t: Triple)
    ensures id !in cache ==> t == Connecting
    ensures id in cache ==> t.title == cache[id].title && t.description == cache[id].description
    ensures id in cache ==> t.imageUrl == if id == "apod" then cache[id].imageUrl.GetOr("") else ""
  {
    if id in cache then
      var e := cache[id];
      Triple(if id == "apod" then e.imageUrl.GetOr("") else "", e.title, e.description)
    else Connecting
  }

  /** Cache entries of the image sources hold an image field, the others none. */
  predicate WellFormed(cache: CacheTable) {
    forall id :: id in cache ==> (cache[id].imageUrl.Some? <==> id == "apod" || id == "epic")
  }

  /** A fresh entry answers without a request: the network and the time limit make no difference. */
  lemma FreshEntryIgnoresNetwork(cache: CacheTable, id: string, now: real, w1: World, w2: World)
    requires id in SourceIds() && id != "iss" && IsCacheValid(cache, id, now)
    requires ValidChoice(w1.rover, w1.sol) && ValidChoice(w2.rover, w2.sol)
    ensures DispatchSpec(cache, id, now, w1) == DispatchSpec(cache, id, now, w2) == (CachedTriple(id, cache[id]), cache)
  {
  }

  /** Only live data changes the cache, and then only the entry of the source fetched. */
  lemma DispatchWritesOneEntry(cache: CacheTable, id: string, now: real, w: World)
    requires ValidChoice(w.rover, w.sol)
    ensures var (t, c) := DispatchSpec(cache, id, now, w);
      c.Keys <= cache.Keys + {id} && forall other :: other in cache && other != id ==> c[other] == cache[other]
    ensures var (t, c) := DispatchSpec(cache, id, now, w);
      c != cache ==> id in SourceIds() && id in c && c[id].cachedAt == w.finishedAt
  {
    if id in SourceIds() && !(NeedsNetwork(cache, id, now) && w.deadlineHit) {
      var at := w.finishedAt;
      if id == "apod" {
        CachedFetchWritesOnly(cache, id, now, at, ApodParsed(RequestResult(w.apod)));
      } else if id == "epic" {
        CachedFetchWritesOnly(cache, id, now, at, EpicParsed(RequestResult(w.epic)));
      } else if id == "iss" {
        RespondWritesOnly(cache, id, at, ParseIss(RequestResult(w.issNow), RequestResult(w.astros)));
      } else if id == "neo" {
        CachedFetchWritesOnly(cache, id, now, at, NeoParsed(RequestResult(w.neo)));
      } else if id == "insight" {
        CachedFetchWritesOnly(cache, id, now, at, MarsParsed(w.rover, w.sol, RequestResult(w.mars)));
      } else {
        CachedFetchWritesOnly(cache, id, now, at, DonkiParsed(w.daysAgo, RequestResult(w.donki)));
      }
    }
  }

  /** `after` differs from `before` at most in the entry of `id`, which is then stamped with `at`. */
  predicate WritesOnly(before: CacheTable, after: CacheTable, id: string, at: real) {
    before.Keys <= after.Keys <= before.Keys + {id}
    && (forall other :: other in before && other != id ==> after[other] == before[other])
    && (after != before ==> id in after && after[id].cachedAt == at)
  }

  lemma RespondWritesOnly(cache: CacheTable, id: string, at: real, p: Parsed)
    ensures var s := Respond(cache, id, at, p); s.Reply? ==> WritesOnly(cache, s.cache, id, at)
  {
  }

  lemma CachedFetchWritesOnly(cache: CacheTable, id: string, now: real, at: real, p: Parsed)
    ensures var s := CachedFetch(cache, id, now, at, p); s.Reply? ==> WritesOnly(cache, s.cache, id, at)
  {
    RespondWritesOnly(cache, id, at, p);
  }

  /** A fetch that outlasts the limit, or whose fetcher raises, replies with a message naming the source and writes nothing. */
  lemma FailuresLeaveCacheAlone(cache: CacheTable, id: string, now: real, w: World)
    requires ValidChoice(w.rover, w.sol) && id in SourceIds()
    ensures NeedsNetwork(cache, id, now) && w.deadlineHit ==> DispatchSpec(cache, id, now, w) == (TimeoutTriple(id), cache)
    ensures !(NeedsNetwork(cache, id, now) && w.deadlineHit) && FetcherSpec(cache, id, now, w).Escaped? ==>
      DispatchSpec(cache, id, now, w) == (ErrorTriple(id), cache)
  {
  }

  /** Only the station and rover fetchers can raise, and only on a truthy body that is not an object. */
  lemma OnlyScalarBodiesRaise(cache: CacheTable, id: string, now: real, w: World)
    requires id in SourceIds() && ValidChoice(w.rover, w.sol)
    ensures FetcherSpec(cache, id, now, w).Escaped? ==>
      (id == "iss" && RequestResult(w.issNow) == Some(IssNowOther(true)))
      || (id == "insight" && RequestResult(w.mars) == Some(MarsScalar(true)))
  {
  }

  /** Every fetch keeps the cache well formed. */
  lemma DispatchKeepsCacheWellFormed(cache: CacheTable, id: string, now: real, w: World)
    requires WellFormed(cache) && ValidChoice(w.rover, w.sol)
    ensures WellFormed(DispatchSpec(cache, id, now, w).1)
  {
    if id in SourceIds() && !(NeedsNetwork(cache, id, now) && w.deadlineHit) && !IsCacheValid(cache, id, now) {
      var at := w.finishedAt;
      if id == "apod" {
        RespondKeepsWellFormed(cache, id, at, ApodParsed(RequestResult(w.apod)));
      } else if id == "epic" {
        RespondKeepsWellFormed(cache, id, at, EpicParsed(RequestResult(w.epic)));
      } else if id == "iss" {
        RespondKeepsWellFormed(cache, id, at, ParseIss(RequestResult(w.issNow), RequestResult(w.astros)));
      } else if id == "neo" {
        RespondKeepsWellFormed(cache, id, at, NeoParsed(RequestResult(w.neo)));
      } else if id == "insight" {
        RespondKeepsWellFormed(cache, id, at, MarsParsed(w.rover, w.sol, RequestResult(w.mars)));
      } else {
        RespondKeepsWellFormed(cache, id, at, DonkiParsed(w.daysAgo, RequestResult(w.donki)));
      }
    }
  }

  lemma RespondKeepsWellFormed(cache: CacheTable, id: string, at: real, p: Parsed)
    requires WellFormed(cache)
    requires p.Live? ==> (p.image.Some? <==> id == "apod" || id == "epic")
    ensures var s := Respond(cache, id, at, p); s.Reply? ==> WellFormed(s.cache)
  {
  }

  /** The loop and the summary of `fetch_donki_data` on the decoded body. */
  method ReadDonki(data: Option<DonkiPayload>, daysAgo: Option<int>) returns (parsed: Parsed)
    ensures parsed == DonkiParsed(daysAgo, data)
  {
    if data.None? || !data.value.DonkiList? || data.value.events == [] {
      return Offline;
    }
    var counts, latest := TallyEvents(data.value.events);
    if latest.None? || counts == [] {
      return Offline;
    }
    var summary := Summarise(SortCounts(counts));
    var shown := if |summary| > 3 then summary[..3] else summary;
    var title := [Lit("Solar activity: ")] + Join(shown, ", ") + [Lit(" (7 days)")];
    parsed := Live(None, title, DonkiDescription(latest.value, daysAgo));
  }

  class NasaClient {
    const config: Config
    /** `_data_cache`. */
    var cache: CacheTable
    /** `_request_locks`: created on first use of a source identifier, `true` while held. */
    var locks: map<string, bool>

    predicate Valid()
      reads this
    {
      WellFormed(cache)
    }

    constructor (config: Config)
      ensures this.config == config && cache == map[] && locks == map[]
      ensures Valid()
    {
      this.config := config;
      cache := map[];
      locks := map[];
    }

    /** The key the fetchers send. */
    function ApiKey(): (key: Value)
      reads config
      ensures Truthy(key)
      ensures key == EffectiveApiKey(config.ApiKey())
      ensures Truthy(config.ApiKey()) ==> key == config.ApiKey()
      ensures !Truthy(config.ApiKey()) ==> key == NasaConfig.Str("DEMO_KEY")
    {
      EffectiveApiKey(config.ApiKey())
    }

    /** `_cache_data`: writes one entry, stamped `at`. */
    method CacheData(id: string, image: Option<string>, title: Text, description: Text, at: real)
      modifies this
      ensures cache == old(cache)[id := Entry(image, title, description, at)]
      ensures locks == old(locks)
    {
      cache := cache[id := Entry(image, title, description, at)];
    }

    method FetchApodData(now: real, at: real, a: Attempts<ApodPayload>) returns (r: Triple)
      requires Valid()
      modifies this
      ensures Valid() && locks == old(locks)
      ensures Served.Reply(r, cache) == CachedFetch(old(cache), "apod", now, at, ApodParsed(RequestResult(a)))
    {
      if IsCacheValid(cache, "apod", now) {
        r := CachedTriple("apod", cache["apod"]);
        return;
      }
      var parsed := RequestApod(a);
      if parsed.Live? {
        CacheData("apod", parsed.image, parsed.title, parsed.description, at);
        r := Triple(parsed.image.GetOr(""), parsed.title, parsed.description);
      } else {
        r := OfflineTriple("apod");
      }
    }

    method FetchEpicData(now: real, at: real, a: Attempts<EpicPayload>) returns (r: Triple)
      requires Valid()
      modifies this
      ensures Valid() && locks == old(locks)
      ensures Served.Reply(r, cache) == CachedFetch(old(cache), "epic", now, at, EpicParsed(RequestResult(a)))
    {
      if IsCacheValid(cache, "epic", now) {
        r := CachedTriple("epic", cache["epic"]);
        return;
      }
      var data, attempts, slept := MakeRequest(a);
      if data.Some? && data.value.EpicList? && |data.value.images| > 0 && data.value.images[0].EpicImage? {
        var latest := data.value.images[0];
        if latest.date != "" {
          var readable := ReadableDate(latest.date, latest.readableDate);
          var title := EpicTitle(readable, latest.caption);
          var description := EpicDescription(readable, latest.centroid);
          CacheData("epic", Some(""), title, description, at);
          r := Triple("", title, description);
          return;
        }
      }
      r := OfflineTriple("epic");
    }

    /** The station fetcher makes both requests every time and never reads the cache; `None` when it raises. */
    method FetchIssData(at: real, position: Attempts<Position>, people: Attempts<Astros>) returns (r: Option<Triple>)
      requires Valid()
      modifies this
      ensures Valid() && locks == old(locks)
      ensures var s := Respond(old(cache), "iss", at, ParseIss(RequestResult(position), RequestResult(people)));
        if s.Reply? then r == Some(s.triple) && cache == s.cache else r.None? && cache == old(cache)
    {
      var positionData, attempts1, slept1 := MakeRequest(position);
      var peopleData, attempts2, slept2 := MakeRequest(people);
      match ParseIss(positionData, peopleData) {
        case Raised =>
          r := None;
        case Offline =>
          r := Some(OfflineTriple("iss"));
        case Live(image, title, description) =>
          CacheData("iss", None, title, description, at);
          r := Some(Triple("", title, description));
      }
    }

    method FetchNeoData(now: real, at: real, a: Attempts<NeoPayload>) returns (r: Triple)
      requires Valid()
      modifies this
      ensures Valid() && locks == old(locks)
      ensures Served.Reply(r, cache) == CachedFetch(old(cache), "neo", now, at, NeoParsed(RequestResult(a)))
    {
      if IsCacheValid(cache, "neo", now) {
        r := CachedTriple("neo", cache["neo"]);
        return;
      }
      var parsed := RequestNeo(a);
      if parsed.Live? {
        CacheData("neo", None, parsed.title, parsed.description, at);
        r := Triple("", parsed.title, parsed.description);
        return;
      }
      r := OfflineTriple("neo");
    }

    /** The rover fetcher, given the random rover and sol; `None` when it raises. */
    method FetchMarsRoverData(now: real, at: real, rover: nat, sol: int, a: Attempts<MarsPayload>) returns (r: Option<Triple>)
      requires Valid() && ValidChoice(rover, sol)
      modifies this
      ensures Valid() && locks == old(locks)
      ensures var s := CachedFetch(old(cache), "insight", now, at, MarsParsed(rover, sol, RequestResult(a)));
        if s.Reply? then r == Some(s.triple) && cache == s.cache else r.None? && cache == old(cache)
    {
      if IsCacheValid(cache, "insight", now) {
        r := Some(CachedTriple("insight", cache["insight"]));
        return;
      }
      var data, attempts, slept := MakeRequest(a);
      match MarsParsed(rover, sol, data) {
        case Raised =>
          r := None;
        case Offline =>
          r := Some(OfflineTriple("insight"));
        case Live(image, title, description) =>
          CacheData("insight", None, title, description, at);
          r := Some(Triple("", title, description));
      }
    }

    method FetchDonkiData(now: real, at: real, daysAgo: Option<int>, a: Attempts<DonkiPayload>) returns (r: Triple)
      requires Valid()
      modifies this
      ensures Valid() && locks == old(locks)
      ensures Served.Reply(r, cache) == CachedFetch(old(cache), "donki", now, at, DonkiParsed(daysAgo, RequestResult(a)))
    {
      if IsCacheValid(cache, "donki", now) {
        r := CachedTriple("donki", cache["donki"]);
        return;
      }
      var data, attempts, slept := MakeRequest(a);
      var parsed := ReadDonki(data, daysAgo);
      match parsed {
        case Live(image, title, description) =>
          CacheData("donki", None, title, description, at);
          r := Triple("", title, description);
        case _ =>
          r := OfflineTriple("donki");
      }
    }

    /** The first half of `fetch_source_data`: creates the lock if needed; replies at once if it is held. */
    method BeginFetch(id: string) returns (busy: Option<Triple>)
      modifies this
      ensures cache == old(cache)
      ensures var held := id in old(locks) && old(locks)[id];
        if held then busy == Some(BusyReply(cache, id)) && locks == old(locks)
        else busy.None? && locks == old(locks)[id := true]
    {
      if id !in locks {
        locks := locks[id := false];
      }
      if locks[id] {
        if id in cache {
          var e := cache[id];
          busy := Some(Triple(if id == "apod" then e.imageUrl.GetOr("") else "", e.title, e.description));
        } else {
          busy := Some(Connecting);
        }
        return;
      }
      locks := locks[id := true];
      busy := None;
    }

    /** The second half of `fetch_source_data`: runs the fetcher of `id` under its lock, then releases it. */
    method CompleteFetch(id: string, now: real, w: World) returns (r: Triple)
      requires Valid() && ValidChoice(w.rover, w.sol)
      requires id in locks && locks[id]
      modifies this
      ensures Valid()
      ensures (r, cache) == DispatchSpec(old(cache), id, now, w)
      ensures locks == old(locks)[id := false]
    {
      if id !in SourceIds() {
        r := UnknownSource;
      } else if NeedsNetwork(cache, id, now) && w.deadlineHit {
        r := TimeoutTriple(id);
      } else {
        var result := RunFetcher(id, now, w);
        r := if result.Some? then result.value else ErrorTriple(id);
      }
      locks := locks[id := false];
    }

    /** The fetcher of `fetch_methods` for a known source; `None` where it raises. */
    method RunFetcher(id: string, now: real, w: World) returns (result: Option<Triple>)
      requires Valid() && id in SourceIds() && ValidChoice(w.rover, w.sol)
      modifies this
      ensures Valid() && locks == old(locks)
      ensures var s := FetcherSpec(old(cache), id, now, w);
        if s.Reply? then result == Some(s.triple) && cache == s.cache else result.None? && cache == old(cache)
    {
      if id == "apod" {
        var t := FetchApodData(now, w.finishedAt, w.apod);
        result := Some(t);
      } else if id == "epic" {
        var t := FetchEpicData(now, w.finishedAt, w.epic);
        result := Some(t);
      } else if id == "iss" {
        result := FetchIssData(w.finishedAt, w.issNow, w.astros);
      } else if id == "neo" {
        var t := FetchNeoData(now, w.finishedAt, w.neo);
        result := Some(t);
      } else if id == "insight" {
        result := FetchMarsRoverData(now, w.finishedAt, w.rover, w.sol, w.mars);
      } else {
        var t := FetchDonkiData(now, w.finishedAt, w.daysAgo, w.donki);
        result := Some(t);
      }
    }

    /**
     * `fetch_source_data`: while another call holds the source's lock, whatever is cached;
     * otherwise the dispatch under the lock, which is free again afterwards.
     */
    method FetchSourceData(id: string, now: real, w: World) returns (r: Triple)
      requires Valid() && ValidChoice(w.rover, w.sol)
      modifies this
      ensures Valid()
      ensures var held := id in old(locks) && old(locks)[id];
        if held then r == BusyReply(old(cache), id) && cache == old(cache) && locks == old(locks)
        else (r, cache) == DispatchSpec(old(cache), id, now, w) && locks == old(locks)[id := false]
    {
      var busy := BeginFetch(id);
      if busy.Some? {
        return busy.value;
      }
      r := CompleteFetch(id, now, w);
    }

    /** `get_cache_stats`, with the two clock readings of each source's line. */
    function GetCacheStats(ageAt: seq<real>, validAt: seq<real>): (stats: seq<(string, Stat)>)
      requires |ageAt| == |CachedSources| && |validAt| == |CachedSources|
      reads this
      ensures |stats| == |CachedSources|
      ensures forall i :: 0 <= i < |stats| ==> (stats[i].1.NotCached? <==> CachedSources[i] !in cache)
      ensures forall i :: 0 <= i < |stats| && CachedSources[i] in cache ==>
        stats[i].1.ageSeconds == Truncate(ageAt[i] - cache[CachedSources[i]].cachedAt)
        && stats[i].1.valid == IsCacheValid(cache, CachedSources[i], validAt[i])
    {
      CacheStats(cache, ageAt, validAt)
    }
  }
}
