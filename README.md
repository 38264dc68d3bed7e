# NASA Mission Control integration: a Dafny model

This project models the core of the NASA Mission Control integration for the Unfolded Circle remote. The integration shows six NASA data feeds in one media-player entity:

- Astronomy Picture of the Day (`apod`)
- EPIC Earth imagery (`epic`)
- the International Space Station position (`iss`)
- near-Earth objects (`neo`)
- Mars rover photos (`insight`)
- DONKI space-weather notifications (`donki`)

The model covers four parts of it.

- **The client (`NASAClient`).**
  - A result cache. Each source has a fixed freshness interval; an unknown source gets one hour.
  - One request lock per source.
  - A two-attempt request helper.
  - Six fetchers. Each turns a decoded response into an `(image_url, title, description)` triple, or into its fixed offline reply.
  - A dispatcher that runs one fetcher under its lock and a time limit. It maps unknown sources, timeouts and exceptions to fixed replies.
  - The cache statistics.
- **The media player (`NASAMediaPlayer`, `StaticIconManager`).**
  - Command handling, and source selection by name or by stepping cyclically through the source table.
  - The icon directory scan and the per-source icon categories.
  - The daily icon, which changes at 05:00 local time.
  - The choice between the API's image and a static icon.
  - The 0.2-second push throttle.
  - The rule that a fetched reply is shown only while its source is still the selected one.
- **The configuration (`Config`).**
  - The ordered source table, with its name and identifier lookups.
  - The settings store, with its defaults.
- **The setup flow (`NASASetup`).**
  - API-key normalisation to `DEMO_KEY`.
  - The refresh-interval range check, on the user-data path only.
  - The force option.
  - The connection test: three services, at most two attempts each, passing when one service passes.
  - The classification of a failed test.

Everything outside the program is a parameter:

- Each HTTP attempt is an abstract `Http.Response`: the status, whether the body is JSON, the decoded body or a decoding failure, a timeout, a connector error, a client error, or any other exception.
- `time.time()` is a `real`. The clock of the daily icon is a `MediaPlayer.Clock`.
- `random.choice` and `random.randint` become index parameters (`pick`, `rover`, `sol`) constrained to their ranges.
- Each `asyncio.Lock` is a boolean in `NasaClient.locks`.
- Whether a fetch outlasts `asyncio.wait_for`'s limit is `World.deadlineHit`.

Display text is a sequence of f-string parts (`Display.Text`). A formatted float therefore stays a number with its format instead of becoming digits.

`Client.NasaClient` shows how the pieces fit together. Each fetcher method is proved equal to a function of the old cache and the responses (`Feed.CachedFetch`, `Feed.Respond`). The dispatcher is proved equal to `Client.DispatchSpec`. The lemmas about those functions then state what the client promises:

- a fresh entry makes the network irrelevant;
- only live data writes the cache, and then only the fetched source's entry;
- timeouts and errors leave the cache alone;
- every fetch keeps the image field on exactly the image sources.

Some consequences of the code are easy to misread, so the model states them outright:

- **The APOD description keeps the first sentence without its full stop.** `split('. ')` (client.py:218) removes the separator together with the stop, so "This is a nebula. It is …" gives "This is a nebula". `Apod.SplitDropsTheFullStop` states this.
- **An empty DONKI notification list gives the offline reply.** The quiet-period branch at client.py:593-602 is written for an empty list, but the guard `if data and isinstance(data, list)` rejects the empty list, which is falsy, before that branch is reached. `Donki.QuietPeriodUnreachable` states this.
- **The APOD "no sentence" fallback (`NASA • {date}`) cannot happen.** `str.split` always returns at least one piece. The date label the model produces is `Image from {date}`, used when no word fits.

Other consequences of the code that the lemmas make explicit:

- Exactly ±30° latitude is named as the southern band (`Iss.ThirtyNorthIsNamedAsSouth`).
- The offline APOD title passes the setup's own APOD test (`Setup.OfflineApodPassesTheTest`).
- When all three services fail, "Multiple API failures detected" is never shown, because the APOD error is always among the errors (`Setup.CatchAllUnreachable`).
- Only the station and rover fetchers can raise, on a truthy body that is not an object (`Client.OnlyScalarBodiesRaise`).

## Model

| member | source | states |
|---|---|---|
| NasaConfig.SourceIds | uc_intg_nasa/config.py:22-47 | the identifiers in table order: one per row, the row's own identifier |
| NasaConfig.SourceIdsAreTheSixIds | uc_intg_nasa/config.py:22-47 | the table order is apod, epic, iss, neo, insight, donki |
| NasaConfig.IdsDistinct | uc_intg_nasa/config.py:22-47 | no identifier appears twice in the table |
| NasaConfig.NamesDistinct | uc_intg_nasa/config.py:22-47 | no display name appears twice in the table |
| NasaConfig.GetSourceList | uc_intg_nasa/config.py:121-123 | one display name per row, in table order |
| NasaConfig.SourceListIsTheSixNames | uc_intg_nasa/config.py:121-123 | the list is the six display names, in table order |
| NasaConfig.IndexOfName | uc_intg_nasa/config.py:125-130 | the first row whose name matches, or none when no row matches |
| NasaConfig.GetSourceByName | uc_intg_nasa/config.py:125-130 | `None` exactly when no row has the name; otherwise the identifier of a row with that name |
| NasaConfig.SourceByOwnName | uc_intg_nasa/config.py:125-130 | looking a source up by its own display name returns its identifier |
| NasaConfig.GetSourceData | uc_intg_nasa/config.py:132-134 | a row exactly for the six identifiers, and that row carries the identifier |
| NasaConfig.GetSourceDataOfRow | uc_intg_nasa/config.py:132-134 | the data of each row's identifier is that row |
| NasaConfig.Lookup | uc_intg_nasa/config.py:83-85 | the stored value when the key is present, the default otherwise |
| NasaConfig.LookupAfterSet | uc_intg_nasa/config.py:87-89 | after a set, the key reads back the value and every other key reads as before |
| NasaConfig.LookupAfterUpdate | uc_intg_nasa/config.py:91-94 | after an update, the keys of the data read their new values and all other keys read as before |
| NasaConfig.Config.constructor | uc_intg_nasa/config.py:59-71 | the settings are the file's contents when it could be read, the defaults otherwise |
| NasaConfig.Config.Set | uc_intg_nasa/config.py:87-89 | the key gets the value and no other key changes |
| NasaConfig.Config.Update | uc_intg_nasa/config.py:91-94 | exactly the keys of the data are overwritten |
| NasaConfig.Config.ApiKey | uc_intg_nasa/config.py:96-99 | the stored value when the key is present; "" when it is missing |
| NasaConfig.Config.RefreshInterval | uc_intg_nasa/config.py:101-104 | the stored value when the key is present; 10 when it is missing |
| NasaConfig.Config.DeviceId | uc_intg_nasa/config.py:106-109 | the stored value when the key is present; "nasa_mission_control" when it is missing |
| NasaConfig.Config.DeviceName | uc_intg_nasa/config.py:111-114 | the stored value when the key is present; "NASA Mission Control" when it is missing |
| NasaConfig.DefaultsAgreeWithGetters | uc_intg_nasa/config.py:15-20 | the default settings hold the same four values the getters fall back to |
| Strings.Strip | uc_intg_nasa/setup.py:58 | `strip()`: a slice of the input that starts after its leading whitespace, with only whitespace after it, and no whitespace at either end; empty exactly when the input is all whitespace |
| Strings.StripIdempotent | uc_intg_nasa/setup.py:58 | stripping twice is stripping once |
| Strings.StripPadded | uc_intg_nasa/setup.py:58 | text with non-whitespace ends between whitespace strips to itself |
| Strings.StripOfUnpadded | uc_intg_nasa/setup.py:58 | text with non-whitespace ends is left as it is |
| Strings.RemoveAll | uc_intg_nasa/client.py:217 | `replace(p, "")`: the pieces of `split(p)` concatenated, so every occurrence of `p` is removed; never longer than the input, which comes back unchanged when it has no `p` |
| Strings.FirstPiece | uc_intg_nasa/client.py:218-220 | `split(sep)[0]`: a prefix without `sep`, followed in the input by `sep` unless it is the whole input |
| Strings.Words | uc_intg_nasa/client.py:224 | `split()`: non-empty words without whitespace whose concatenation is the input's non-whitespace characters in order; none exactly when the input is all whitespace; the first word is the first run after the leading whitespace, and the other words are the words of the text after that run |
| Strings.TitleOfLowerWord | uc_intg_nasa/client.py:500 | `title()` of a lower-case word capitalises only its first letter |
| Display.Join | uc_intg_nasa/client.py:431 | `sep.join(parts)`: nothing for no parts, otherwise the first part followed by each further part led by the separator |
| Display.OrElse | uc_intg_nasa/media_player.py:432-433 | `x or fallback`: the text itself unless it is blank, the fallback when it is; never blank |
| Http.Outcome | uc_intg_nasa/client.py:140-156 | a reply yields data exactly when it is a 200 whose content type or text looks like JSON with a decoded body, and then that body; a non-JSON 200, any other status and every exception yield nothing |
| Http.Transient | uc_intg_nasa/client.py:133-190 | retried: every status other than 200, 401 and 403 (429 among them), timeouts and connector errors; final: 200, 401, 403, client errors and unexpected exceptions |
| Http.Backoff | uc_intg_nasa/client.py:159-176 | 2 seconds exactly after a rate limit, 1 second after the other retried failures |
| Http.RequestResult | uc_intg_nasa/client.py:133-192 | the outcome of the first attempt when it is final, of the second otherwise; any data is the body of a 200 reply of the attempt used |
| Http.MakeRequest | uc_intg_nasa/client.py:124-192 | the attempt loop returns `RequestResult`; it makes two attempts exactly when the first failed transiently, after a 2-second backoff for a rate limit and 1 second otherwise |
| Http.AuthFailureIsNotRetried | uc_intg_nasa/client.py:163-165 | 401 and 403 are final and yield nothing |
| Http.PersistentTimeout | uc_intg_nasa/client.py:173-178 | two timeouts: the first is retried after 1 second, and the call yields nothing |
| Http.DataOnlyFromDecodedOk | uc_intg_nasa/client.py:137-156 | any data returned is the decoded body of a 200 reply of the attempt that was used |
| Cache.CacheInterval | uc_intg_nasa/client.py:27-34 | a positive interval, 3600 seconds for a source outside the table |
| Cache.IntervalTable | uc_intg_nasa/client.py:27-34 | the six intervals: 6 h, 2 h, 2 min, 4 h, 8 h, 3 h |
| Cache.FreshWindow | uc_intg_nasa/client.py:106-115 | an entry written at `t0` is valid exactly while `now < t0 + interval` |
| Cache.WriteIsLocal | uc_intg_nasa/client.py:117-122 | writing one source's entry leaves every other source's validity unchanged |
| Cache.IsCacheValid | uc_intg_nasa/client.py:106-115 | `_is_cache_valid`: no entry is never valid; an entry is valid exactly while the time is before its write time plus the interval |
| Cache.Truncate | uc_intg_nasa/client.py:668 | `int(age)` truncates toward zero |
| Cache.CacheStats | uc_intg_nasa/client.py:659-675 | one line per source of the interval table, in its order; "not cached" exactly when the source has no entry; otherwise the truncated age at the first clock reading, the validity at the second and the entry's title |
| Cache.StatsAgreeWithValidity | uc_intg_nasa/client.py:664-669 | when both clock readings give the same time, a cached line reports valid exactly when its whole-second age is below the interval |
| Cache.ValidStatIsYoung | uc_intg_nasa/client.py:664-665 | when the clock does not go back between the two readings, a line that says valid reports an age below the interval |
| Cache.StaleAtAnAgeBelowTheInterval | uc_intg_nasa/client.py:664-665 | with readings 119.5 s and 120.5 s after a station write, the line reports age 119, below the 120-second interval, and says stale |
| Feed.OfflineTriple | uc_intg_nasa/client.py:246-247 | the fixed reply of a failed fetch has no image (this and the other five fetchers' replies at lines 295, 340, 457, 520 and 608) |
| Feed.CachedTriple | uc_intg_nasa/client.py:198-200 | a fresh entry is served as stored; only the image sources return the stored image |
| Feed.CachedFetch | uc_intg_nasa/client.py:198-241 | a valid entry is served as stored with the cache unchanged; otherwise the reply and cache of `Respond` on the parsed response |
| Feed.Respond | uc_intg_nasa/client.py:236-247 | live data is returned and cached under the source, leaving other entries alone; offline data gives the fixed reply with the cache unchanged; only a raised exception escapes |
| Feed.LiveIsServedFromCache | uc_intg_nasa/client.py:198-241 | live data written at `at` answers the next call within the interval unchanged, without a request |
| Apod.KeptCount | uc_intg_nasa/client.py:224-230 | the word loop keeps a number of leading words between what it had and all of them |
| Apod.ShortenedFits | uc_intg_nasa/client.py:226-228 | the words kept never exceed 28 characters |
| Apod.ShortenedIsMaximal | uc_intg_nasa/client.py:226-230 | the first word left out would overflow 28 characters |
| Apod.ShortenedEmpty | uc_intg_nasa/client.py:231 | nothing is kept exactly when there is no word or the first word alone is too long |
| Apod.FirstSentence | uc_intg_nasa/client.py:217-220 | `split('. ')[0]` of the cleaned explanation: its prefix up to the first ". ", or all of it when there is none, and without ". " itself |
| Apod.SplitDropsTheFullStop | uc_intg_nasa/client.py:218-220 | a sentence followed by ". " is split off without its full stop |
| Apod.Description | uc_intg_nasa/client.py:219-233 | a first sentence of at most 30 characters verbatim; otherwise the shortened words followed by "...", or "Image from {date}" when no word fits |
| Apod.DescriptionFallsBackToDate | uc_intg_nasa/client.py:231 | a long first sentence gives the date label exactly when no word fits |
| Apod.ImageOf | uc_intg_nasa/client.py:208 | `hdurl or url` |
| Apod.ParseApod | uc_intg_nasa/client.py:206-247 | live exactly for an object with a title and an explanation; the image, the title and the description as above; never raises |
| Apod.ShortDescription | uc_intg_nasa/client.py:224-231 | the word loop computes `Shortened` |
| Apod.Describe | uc_intg_nasa/client.py:216-233 | the description computed step by step equals `Description` |
| Epic.ReadableDate | uc_intg_nasa/client.py:268-272 | the parsed date, or the first ten characters of the raw one |
| Epic.ParseEpic | uc_intg_nasa/client.py:260-295 | live exactly when the first entry of a non-empty list is an object with a date; the title and description come from that entry; the image field is "" |
| Epic.OnlyNewestImageMatters | uc_intg_nasa/client.py:262 | entries after the first are ignored |
| Epic.TitleShowsCaption | uc_intg_nasa/client.py:274 | a caption ends the title; without one the title names the full-disc imagery |
| Epic.EpicTitle | uc_intg_nasa/client.py:274 | "Earth {date} • {caption}" with a caption, "Earth full-disc imagery from {date}" without one |
| Epic.EpicDescription | uc_intg_nasa/client.py:276-281 | the centroid's coordinates to one decimal when present, "DSCOVR • {date}" otherwise |
| Iss.LocationDescription | uc_intg_nasa/client.py:342-368 | total, with one of the eleven region names |
| Iss.AtlanticIsTheTropicalRemainder | uc_intg_nasa/client.py:344-354 | in the tropics, "over Atlantic" exactly for longitudes in [-50, -20] and at 60, 150 and -150 |
| Iss.NorthernAsiaIsTheNorthernRemainder | uc_intg_nasa/client.py:355-361 | north of 30, "over N.Asia" exactly outside the two strict sectors |
| Iss.OceaniaIsTheSouthernRemainder | uc_intg_nasa/client.py:362-368 | at or south of -30, "over Oceania" exactly outside the two strict sectors |
| Iss.ThirtyNorthIsNamedAsSouth | uc_intg_nasa/client.py:344-368 | latitudes of exactly 30 and -30 are named as the southern band |
| Iss.TropicalExamples | uc_intg_nasa/client.py:344-354 | (10, 40) is over Africa; longitudes 60 and -20 on the equator are over the Atlantic |
| Iss.NameTellsTheBand | uc_intg_nasa/client.py:342-368 | the region name tells the latitude band |
| Iss.IssTitle | uc_intg_nasa/client.py:316 | "ISS {region} • {lat}°, {lon}° • {time}", the region named from the coordinates and both coordinates to two decimals |
| Iss.IssCrew | uc_intg_nasa/client.py:322 | the people whose craft is "ISS", as many as the list holds |
| Iss.CrewDescription | uc_intg_nasa/client.py:318-325 | the bare speed when there is no crew body, a falsy one, or an object whose message is not "success"; fails exactly on a truthy non-object body or an entry that is not an object; otherwise the station's crew count and speed, or the bare speed without crew |
| Iss.CrewCountIsTheStationsPeople | uc_intg_nasa/client.py:320-325 | with crew aboard, the description starts with the number of people on the station's craft |
| Iss.ParseIss | uc_intg_nasa/client.py:303-340 | raises exactly on a truthy non-object position body; live exactly on a successful position with numeric coordinates, a time and a readable crew body |
| Iss.CrewBodyOnlyChangesDescription | uc_intg_nasa/client.py:313-325 | for crew bodies that read successfully (a falsy body, an object whose message is not "success", or one whose entries are all objects) the crew body changes neither the title nor whether the data is live |
| Neo.Step | uc_intg_nasa/client.py:395-415 | one turn of the loop: fails exactly on an uncaught exception; otherwise appends the object's positive speed, distance and size and counts its hazard when it was read to the end; a bad distance text keeps the speed already appended and nothing else |
| Neo.Aggregate | uc_intg_nasa/client.py:395-415 | fails exactly when some object fails; otherwise the collected speeds, distances and sizes are exactly the positive values of the objects in order, and the hazard count is the number of fully read hazardous objects |
| Neo.CollectAppend | uc_intg_nasa/client.py:395-415 | collecting one more object appends its own values to those of the objects before it |
| Neo.HazardCountAppend | uc_intg_nasa/client.py:410-411 | counting one more object adds one exactly when it was read to the end and is hazardous |
| Neo.AggregateNeo | uc_intg_nasa/client.py:390-415 | the loop with its early exit computes `Aggregate` |
| Neo.ReadObject | uc_intg_nasa/client.py:396-415 | the body of the loop for one object computes `Step`: the exception that ends the fetch, or what the object adds |
| Neo.SeqMin | uc_intg_nasa/client.py:421 | `min`: a member no larger than any other |
| Neo.SeqMax | uc_intg_nasa/client.py:420 | `max`: a member no smaller than any other |
| Neo.SpeedRangeCoversSpeeds | uc_intg_nasa/client.py:419-422 | slowest ≤ fastest, and every kept speed lies between them |
| Neo.ClosestPart | uc_intg_nasa/client.py:424-429 | "Closest: {d/1e6:.2f}M km" when the closest approach exceeds 1,000,000 km, "Closest: {d:,.0f} km" otherwise |
| Neo.TitleParts | uc_intg_nasa/client.py:417-429 | the count part, then the speed range when speeds were kept, then the closest approach when distances were kept |
| Neo.NeoTitle | uc_intg_nasa/client.py:431 | the title parts joined by " • " |
| Neo.NeoDescription | uc_intg_nasa/client.py:433-442 | "{n} hazardous" with hazards; otherwise "Largest: {x:.1f} km" for a largest size of at least 1 km, "Largest: {x*1000:.0f} m" below it; otherwise "{count} tracked today" |
| Neo.HazardsComeFirst | uc_intg_nasa/client.py:433-434 | the description names hazards exactly when some fully read object is hazardous |
| Neo.ParseNeo | uc_intg_nasa/client.py:382-457 | live exactly for a positive count and a non-empty first day without a failing object; the live title and description are `NeoTitle` and `NeoDescription` of the count and of the positive speeds, distances and sizes and the hazard count of that day's objects; never raises |
| Neo.ReadNeo | uc_intg_nasa/client.py:382-457 | the fetcher's parse, loops included, computes `ParseNeo` |
| Mars.SolCeiling | uc_intg_nasa/client.py:475 | `min(1500, max_sol)` |
| Mars.EveryRoverCapsAt1500 | uc_intg_nasa/client.py:467-475 | every rover's ceiling is 1500, so the sol lies in [100, 1500] |
| Mars.RoverNamesTitled | uc_intg_nasa/client.py:500 | the rover names title-case to Curiosity, Opportunity and Spirit |
| Mars.SeveralCamerasIffTwoDiffer | uc_intg_nasa/client.py:487-488 | more than one camera exactly when two photos name different cameras |
| Mars.CameraSummary | uc_intg_nasa/client.py:487-488 | one camera is shown as its name; several as "{n} cameras" |
| Mars.Cameras | uc_intg_nasa/client.py:487 | the set of camera names of the photos: every photo's camera, and only those |
| Mars.MarsDescription | uc_intg_nasa/client.py:502-505 | "Active Sol" exactly for more than 50 photos |
| Mars.MarsDate | uc_intg_nasa/client.py:490-498 | "Date unknown" without a date; the parsed date when it parses; the raw date otherwise |
| Mars.MarsTitle | uc_intg_nasa/client.py:500 | "{Rover} Sol {sol} • {cameras} • {n} images • {date}" |
| Mars.ParseMars | uc_intg_nasa/client.py:481-520 | raises exactly on a truthy scalar body; live exactly for a non-empty photo list |
| Mars.TitleNamesRoverAndSol | uc_intg_nasa/client.py:500 | the title starts with the capitalised rover and the sol, and holds the photo count |
| Donki.Bump | uc_intg_nasa/client.py:556 | the count of the type grows by one, no other; a new type goes last; keys stay distinct |
| Donki.Types | uc_intg_nasa/client.py:550-563 | no types exactly when no notification has one |
| Donki.TallyAll | uc_intg_nasa/client.py:550-563 | each type's count is the number of notifications of that type; distinct keys |
| Donki.LatestExists | uc_intg_nasa/client.py:555-560 | a newest notification exactly when one has both a type and an issue time |
| Donki.LatestIsNewest | uc_intg_nasa/client.py:558-560 | the newest is the first notification with the greatest issue time in string order |
| Donki.SortCounts | uc_intg_nasa/client.py:576 | `sorted(...)`: a permutation in increasing type order |
| Donki.SummaryItem | uc_intg_nasa/client.py:577-580 | the count and the type, plural exactly when the count exceeds one |
| Donki.Summarise | uc_intg_nasa/client.py:575-580 | the summary loop yields one item per sorted entry |
| Donki.SortKeepsLength | uc_intg_nasa/client.py:576 | sorting the counts keeps every type |
| Donki.TitleListsSmallestTypes | uc_intg_nasa/client.py:576-582 | the three types listed precede every type left out; sorting keeps every type |
| Donki.TimeDescription | uc_intg_nasa/client.py:566-571 | "Recent" without a time, "{n}d ago" for a positive day count, "Today" otherwise |
| Donki.DonkiTitle | uc_intg_nasa/client.py:575-582 | "Solar activity: " then the first three summary items of the sorted counts, or all when fewer, joined by ", ", then " (7 days)" |
| Donki.DonkiDescription | uc_intg_nasa/client.py:583 | "Latest: {type} " followed by the time description |
| Donki.ParseDonki | uc_intg_nasa/client.py:543-608 | never raises; live data carries no image, its title is `DonkiTitle` of the tally and its description names the newest notification with the time since it |
| Donki.LiveIffTimedNotification | uc_intg_nasa/client.py:543-565 | live exactly when some notification has a type and an issue time |
| Donki.QuietPeriodUnreachable | uc_intg_nasa/client.py:543-602 | an empty list gives the offline reply, not the quiet period |
| Donki.TallyEvents | uc_intg_nasa/client.py:546-563 | the counting loop computes `TallyAll` |
| Donki.ReadEvent | uc_intg_nasa/client.py:551-563 | the body of the counting loop for one notification computes `TallyStep`, keeping the newest issue time beside the newest notification |
| Client.EffectiveApiKey | uc_intg_nasa/client.py:101-104 | always a truthy key: the configured one when it is truthy, `DEMO_KEY` otherwise |
| Client.NeedsNetwork | uc_intg_nasa/client.py:627-646 | the station always requests; any other source requests exactly when its entry is missing or stale |
| Client.FetcherSpec | uc_intg_nasa/client.py:631-646 | a source other than the station with a valid entry gets the stored reply and the cache unchanged |
| Client.TimeoutTriple | uc_intg_nasa/client.py:651-653 | "<ID> service timeout", "Connection slow", no image |
| Client.ErrorTriple | uc_intg_nasa/client.py:655-657 | "<ID> service error", "Check connection", no image; never the timeout reply |
| Client.DispatchSpec | uc_intg_nasa/client.py:627-657 | an unknown source gets the fixed reply; a fetch that needs the network and outlasts the deadline gets the timeout reply; otherwise the fetcher's reply and cache, or the error reply with the cache unchanged when it raises |
| Client.BusyReply | uc_intg_nasa/client.py:618-625 | while a fetch runs: the cached title and description, with the image only for apod, or the connecting reply without an entry |
| Client.RequestApod | uc_intg_nasa/client.py:194-247 | the request and parse of the picture fetcher compute the parse of `RequestResult` |
| Client.RequestNeo | uc_intg_nasa/client.py:370-457 | the request and parse of the asteroid fetcher compute the parse of `RequestResult` |
| Client.FreshEntryIgnoresNetwork | uc_intg_nasa/client.py:627-646 | a source other than the station with a fresh entry gets that entry whatever the network does |
| Client.DispatchWritesOneEntry | uc_intg_nasa/client.py:610-657 | a dispatch changes at most the fetched source's entry, stamped with the write time |
| Client.FailuresLeaveCacheAlone | uc_intg_nasa/client.py:651-657 | a timeout or an exception gives "<ID> service timeout/error" and leaves the cache as it was |
| Client.OnlyScalarBodiesRaise | uc_intg_nasa/client.py:655-657 | the error reply comes only from the station or rover fetcher on a truthy non-object body |
| Client.DispatchKeepsCacheWellFormed | uc_intg_nasa/client.py:117-122 | the image field stays present exactly on the image sources' entries |
| Client.RespondKeepsWellFormed | uc_intg_nasa/client.py:236-240 | a fetcher's write keeps the image field on the image sources only |
| Client.ReadDonki | uc_intg_nasa/client.py:543-592 | the loop and summary of the weather fetcher compute `ParseDonki` |
| Client.NasaClient.constructor | uc_intg_nasa/client.py:36-41 | an empty cache and no locks |
| Client.NasaClient.ApiKey | uc_intg_nasa/client.py:101-104 | the configured key when truthy, else `DEMO_KEY` |
| Client.NasaClient.CacheData | uc_intg_nasa/client.py:117-122 | replaces only that source's entry, stamped with the time |
| Client.NasaClient.FetchApodData | uc_intg_nasa/client.py:194-247 | reply and new cache as `CachedFetch` of the APOD parse |
| Client.NasaClient.FetchEpicData | uc_intg_nasa/client.py:249-295 | reply and new cache as `CachedFetch` of the EPIC parse |
| Client.NasaClient.FetchIssData | uc_intg_nasa/client.py:297-340 | never reads the cache: reply and new cache as `Respond`, none when it raises |
| Client.NasaClient.FetchNeoData | uc_intg_nasa/client.py:370-457 | reply and new cache as `CachedFetch` of the NEO parse |
| Client.NasaClient.FetchMarsRoverData | uc_intg_nasa/client.py:459-520 | reply and new cache as `CachedFetch` of the rover parse, none when it raises |
| Client.NasaClient.FetchDonkiData | uc_intg_nasa/client.py:522-608 | reply and new cache as `CachedFetch` of the weather parse |
| Client.NasaClient.BeginFetch | uc_intg_nasa/client.py:615-627 | while the lock is held, the cached text with an image only for apod, or the "Fetching live data..." reply; otherwise takes the lock |
| Client.NasaClient.RunFetcher | uc_intg_nasa/client.py:631-646 | the fetcher of a known source: reply and new cache as `FetcherSpec`, none when it raises |
| Client.NasaClient.CompleteFetch | uc_intg_nasa/client.py:627-657 | reply and cache as `DispatchSpec`, lock released |
| Client.NasaClient.FetchSourceData | uc_intg_nasa/client.py:610-657 | busy reply without touching the cache while the lock is held; otherwise the dispatch and the lock released |
| Client.NasaClient.GetCacheStats | uc_intg_nasa/client.py:659-675 | one line per source, "not cached" exactly for the sources without an entry; a cached line holds the truncated age at the first clock reading and the validity at the second |
| MediaPlayer.PlaceholderFor | uc_intg_nasa/media_player.py:204-220 | a key's own placeholder, the general one for any other key |
| MediaPlayer.CategoriesOfTheSources | uc_intg_nasa/media_player.py:161-171 | epic is earth, insight is planets, apod, iss and donki are space, any other identifier general |
| MediaPlayer.CategoryIgnoresCase | uc_intg_nasa/media_player.py:105-119 | the file category ignores case, and is general exactly when no keyword matches |
| MediaPlayer.Bucket | uc_intg_nasa/media_player.py:105-119 | a category's files never outnumber the files scanned |
| MediaPlayer.BucketMembers | uc_intg_nasa/media_player.py:105-119 | a category holds exactly the scanned files of that category |
| MediaPlayer.BucketsPartitionFiles | uc_intg_nasa/media_player.py:105-122 | the category sizes add up to the number of files |
| MediaPlayer.NonEmpty | uc_intg_nasa/media_player.py:121 | keeps exactly the non-empty categories |
| MediaPlayer.ScanCategories | uc_intg_nasa/media_player.py:105-122 | only non-empty categories are kept, and looking a category up by name gives exactly its scanned files |
| MediaPlayer.RandomIcon | uc_intg_nasa/media_player.py:173-202 | a placeholder exactly when no image is available; a drawn image is remembered for the category; no other category's icon and no daily state changes |
| MediaPlayer.IconManager.constructor | uc_intg_nasa/media_player.py:50-61 | the given categories, nothing drawn yet |
| MediaPlayer.IconManager.ScanIconsDirectory | uc_intg_nasa/media_player.py:92-122 | the categories become `ScanCategories` of the files; nothing else changes |
| MediaPlayer.CategoryIconIsKept | uc_intg_nasa/media_player.py:173-202 | unforced, a category keeps its first icon; a placeholder exactly when no image is available |
| MediaPlayer.ForcedIconIsDrawn | uc_intg_nasa/media_player.py:186-196 | a forced draw takes an available image and remembers it |
| MediaPlayer.IconManager.RandomIconFromCategory | uc_intg_nasa/media_player.py:173-202 | icon and new state as `RandomIcon` |
| MediaPlayer.DayKey | uc_intg_nasa/media_player.py:146-152 | yesterday before 05:00, today from then on |
| MediaPlayer.DailyIconStableWithinDay | uc_intg_nasa/media_player.py:154-159 | within one day key the daily icon does not change |
| MediaPlayer.DailyIconRedrawnOnNewDay | uc_intg_nasa/media_player.py:154-157 | a new day key draws a new forced space icon and records the key |
| MediaPlayer.DailyIcon | uc_intg_nasa/media_player.py:144-159 | records the current day key; a new day remembers the image drawn; only the space category's icon can change |
| MediaPlayer.IconManager.DailyUniverseIcon | uc_intg_nasa/media_player.py:144-159 | icon and new state as `DailyIcon` |
| MediaPlayer.IconFor | uc_intg_nasa/media_player.py:136-142 | apod takes the daily icon and records the day key; any other source draws from its own category and keeps the daily state; no other category's icon changes |
| MediaPlayer.IconManager.GetIconForSource | uc_intg_nasa/media_player.py:136-142 | icon and new state as `IconFor` |
| MediaPlayer.CommandOf | uc_intg_nasa/media_player.py:286-306 | a command is ignored exactly when suppressed, and unsupported exactly when neither handled nor suppressed |
| MediaPlayer.SourceIndex | uc_intg_nasa/media_player.py:356 | `list.index`: the position of the identifier |
| MediaPlayer.NextIndex | uc_intg_nasa/media_player.py:357 | a valid index |
| MediaPlayer.PreviousIndex | uc_intg_nasa/media_player.py:380 | a valid index (Dafny's `%` agrees with Python's here) |
| MediaPlayer.StepsAreInverse | uc_intg_nasa/media_player.py:353-397 | next then previous, and previous then next, return to the source one started from |
| MediaPlayer.NextCyclesThroughAll | uc_intg_nasa/media_player.py:355-358 | six steps return to the start, and distinct positions step to distinct positions |
| MediaPlayer.ApiImageOnlyForPictureOfTheDay | uc_intg_nasa/media_player.py:454-457 | the API image only for apod web addresses; an apod web address that is not a PNG is used, and an apod PNG is used exactly when it is not on epic.gsfc.nasa.gov |
| MediaPlayer.AcceptedPushes | uc_intg_nasa/media_player.py:463-471 | the first accepted push is 0.2 s or more after the last one |
| MediaPlayer.PushesAreSpaced | uc_intg_nasa/media_player.py:463-471 | accepted pushes are at least 0.2 s apart |
| MediaPlayer.GetSourceByNameReturnsItsName | uc_intg_nasa/media_player.py:330-342 | the identifier found for a name has that name as its display name |
| MediaPlayer.Player.constructor | uc_intg_nasa/media_player.py:237-282 | buffering on apod with the daily icon and the initial title and artist |
| MediaPlayer.Player.ShowLoading | uc_intg_nasa/media_player.py:336-346 | current source, buffering state, forced icon and loading title |
| MediaPlayer.Player.SelectSource | uc_intg_nasa/media_player.py:325-351 | bad request without a source parameter, not found for an unknown name, both with nothing changed; otherwise the named source becomes current with that name, shown as loading; the last push time is kept |
| MediaPlayer.Player.NextSource | uc_intg_nasa/media_player.py:353-374 | the next source in the table, wrapping, with its name, shown as loading; the last push time is kept |
| MediaPlayer.Player.PreviousSource | uc_intg_nasa/media_player.py:376-397 | the previous source in the table, wrapping, with its name, shown as loading; the last push time is kept |
| MediaPlayer.Player.HandleCommand | uc_intg_nasa/media_player.py:286-323 | on plays and off stops, keeping the source, name, image, title, artist and icons; stepping and selection show the new source as loading with its name and icon; suppressed commands are OK and failed selections change nothing; others are not implemented; the last push time is kept |
| MediaPlayer.Player.PushUpdateThrottled | uc_intg_nasa/media_player.py:463-471 | pushes exactly when 0.2 s have passed, and only then advances the last push time |
| MediaPlayer.Player.DetermineFinalImage | uc_intg_nasa/media_player.py:451-461 | the API image exactly when `UseApiImage`, the unforced source icon otherwise |
| MediaPlayer.Player.FetchAndUpdateSource | uc_intg_nasa/media_player.py:416-436 | nothing changes unless the source is still current; then playing, with "Unknown" and "No description available" for blank text |
| Setup.NormaliseApiKey | uc_intg_nasa/setup.py:58-63 | the stripped key, or `DEMO_KEY` exactly when it is blank or is `DEMO_KEY` |
| Setup.NormaliseIdempotent | uc_intg_nasa/setup.py:58-63 | normalising twice is normalising once |
| Setup.ParseInt | uc_intg_nasa/setup.py:59 | `int(s)`: succeeds exactly when the stripped text is an optional sign followed by digits, and then gives their value, negated for "-" |
| Setup.ParseIntOfDecimal | uc_intg_nasa/setup.py:59 | reading back a written number gives the number |
| Setup.ParseIntOfWritten | uc_intg_nasa/setup.py:59 | a sign and digits between whitespace read back as their value |
| Setup.IntOf | uc_intg_nasa/setup.py:59 | `int(v)`: an integer reads as itself, a boolean as 1 or 0, a string as `ParseInt`; `None` raises |
| Setup.ErrorText | uc_intg_nasa/setup.py:235-246 | every error starts with the service name and ": " |
| Setup.Plausible | uc_intg_nasa/setup.py:215-219 | a passing test has a non-empty title; for APOD, passes exactly when the title is longer than 5 characters |
| Setup.TimeoutIsNetworkLike | uc_intg_nasa/setup.py:238-241 | a timeout error always counts as a network failure when classifying |
| Setup.ServiceOutcome | uc_intg_nasa/setup.py:221-250 | a pass exactly when one of the two attempts passes, else the error of the second attempt |
| Setup.OneEntryPerService | uc_intg_nasa/setup.py:221-250 | passes and errors add up to the services tested, and a service passes exactly when its outcome is a pass |
| Setup.SomeServicePassed | uc_intg_nasa/setup.py:221-277 | some service was recorded as working exactly when one service's outcome is a pass |
| Setup.FirstErrorIsApod | uc_intg_nasa/setup.py:215-246 | when APOD fails, its error is the first |
| Setup.Classify | uc_intg_nasa/setup.py:265-271 | the network message exactly when every error mentions a timeout or a connection; the key message exactly when one does not and one mentions APOD |
| Setup.CatchAllUnreachable | uc_intg_nasa/setup.py:265-271 | when all three fail the catch-all message is never chosen |
| Setup.OfflineApodPassesTheTest | uc_intg_nasa/setup.py:216 | the APOD offline title passes the APOD test |
| Setup.TestSpec | uc_intg_nasa/setup.py:252-277 | success exactly when some service passes, then no error and the working services; otherwise nothing working and the classified error |
| Setup.TestNasaApiConnection | uc_intg_nasa/setup.py:204-277 | result as `TestSpec` and the errors as `TestErrors`; success exactly when some service passed |
| Setup.ConfirmationAction | uc_intg_nasa/setup.py:190-197 | complete exactly when confirmed, setup error otherwise |
| Setup.AbortAction | uc_intg_nasa/setup.py:199-202 | the abort's error is passed back |
| Setup.UserEntry | uc_intg_nasa/setup.py:129-138 | an entry exactly for a string key and an integer interval within 5 to 60; the entry holds that key, that interval and the truthiness of the force option |
| Setup.ShownKey | uc_intg_nasa/setup.py:93 | the key shown on the retry form: blank exactly for `DEMO_KEY` or a blank key, the key itself otherwise |
| Setup.ShownStoredKey | uc_intg_nasa/setup.py:115 | the key the first form shows: the stored value itself, blank exactly for `DEMO_KEY` or a blank key |
| Setup.AcceptOutcome | uc_intg_nasa/setup.py:58-106 | complete when forced; otherwise complete exactly when the test passes, else the retry form with the failure message |
| Setup.UserDataAccepted | uc_intg_nasa/setup.py:125-188 | a readable entry stores its key and interval and acts as `AcceptOutcome` says |
| Setup.UserDataRefused | uc_intg_nasa/setup.py:129-138 | an unreadable entry or one out of range is a setup error and stores nothing |
| Setup.NasaSetup.constructor | uc_intg_nasa/setup.py:23-27 | keeps the configuration |
| Setup.NasaSetup.Accept | uc_intg_nasa/setup.py:58-106 | stores the normalised key and the interval; complete when forced; otherwise complete exactly when the test passes, else the retry form with the failure message |
| Setup.NasaSetup.HandleDriverSetupRequest | uc_intg_nasa/setup.py:50-123 | the first form with the stored values without a key; raises on a non-string key or a bad interval; otherwise stores the key and interval without a range check, completes when forced, and else completes exactly when the test passes, asking again with the failure message when it does not |
| Setup.NasaSetup.HandleUserDataResponse | uc_intg_nasa/setup.py:125-188 | a setup error with nothing stored for an unreadable entry or an interval outside 5 to 60; otherwise stores and accepts; never raises |
| Setup.NasaSetup.SetupHandler | uc_intg_nasa/setup.py:29-48 | confirmation, abort and unknown requests answer without touching the configuration; a driver-setup request acts and stores as `HandleDriverSetupRequest`, a user-data response as `HandleUserDataResponse` |

## Left out

- The aiohttp session, SSL context, connector and headers (client.py lines 52-99): a response is an abstract outcome.
- `asyncio` scheduling: background tasks, their cancellation, `_update_source_background` and `_stop_all_updates`, the sleeps, and real concurrency. A lock is a held flag. A suspended call is modelled by `BeginFetch` taking the lock before `CompleteFetch`.
- Client.NasaClient.FetchSourceData: `asyncio.wait_for` is not modelled as a clock. Whether the fetch outlasts ten seconds is `World.deadlineHit`, and it applies only to fetches that make requests.
- Date and time parsing and formatting (`fromisoformat`, `strftime`, `fromtimestamp`, `now`): parsed dates, clock strings and day differences are inputs.
- Float formatting (`:,.0f`, `.1f`, `.2f`): numbers stay `Real` pieces with their format.
- `float(...)` on JSON values: a reading is a number, a bad string (`ValueError`) or a bad type (`TypeError`). A number is a real, so `float("nan")` and `float("inf")` are not modelled; with NaN every latitude comparison of the station fetcher fails and the NEO `> 0` filters drop the value.
- Non-ASCII case mapping: `Strings.Lower`, `Strings.Upper` and `Strings.Title` map ASCII letters only.
- Setup.ParseInt: accepts ASCII digits only, without Python's `_` separators or other Unicode digits.
- Wrong-typed JSON fields beyond the distinctions the fetchers make (say a title that is a number): the decoded-body datatypes hold strings there.
- Cache.CacheStats: the `[:30]` cut of the last title is not applied, because titles are display text rather than characters.
- MediaPlayer.IconManager.RandomIconFromCategory: icon files are assumed to read successfully. Reading, base64 encoding and the SVG placeholders are not modelled; an icon is the file name, and a placeholder is its key.
- MediaPlayer.Player.HandleCommand: the push task each command starts is not modelled. `SERVER_ERROR` is not modelled either, because none of the handlers raises.
- MediaPlayer.Player.FetchAndUpdateSource: the `except` branch ("<ID> Monitor") is not modelled, because `fetch_source_data` never raises. The forced push is not modelled either.
- The ucapi SDK: entity pushes (`_push_update`, `_push_update_force`), `push_initial_state`, and command identifiers, which appear as the SDK's string values.
- The loading of the icon index through importlib, and the icon directory's existence checks (media_player.py lines 63-90): the categories are a constructor parameter. The `.jpg` list of the scan is a parameter.
- Reading and writing the settings JSON file (config.py lines 59-81): the file's contents are a constructor parameter, and saving is not modelled.
- Setup.TestNasaApiConnection: each attempt's outcome (a title, the three-second `wait_for` limit, or an exception's message) is an input, not tied to `Client.FetcherSpec`. The test's fetches run on the client, so they read its fresh entries and write live results into its cache; those cache effects are not modelled.
- The setup completion callback and the form labels, titles and placeholders: a form carries only its values and the failure message.
- uc_intg_nasa/driver.py, main.py and the package `__init__` are not part of this model.
