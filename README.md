# fluessiggasfest news reader: a Dafny model

This project models the core of a German news reader for older listeners. The
reader has two server pipelines and one client-side player.

- **Cache** (`cache.dfy`). `SimpleCache` is the process-wide key/value store. The
  freshness window is chosen by each reader, and a read that finds a stale entry
  deletes it. The clock is an explicit `now` parameter.
- **Library pipeline** (`tagesschau.dfy`, `weather.dfy`, `claude.dfy`,
  `constants.dfy`):
  - the Tagesschau world and regional fetchers: story filter, first three
    stories, first qualifying story, and the cache read and write around each
    request;
  - the Open-Meteo weather item: description lookup with a default, three
    clothing-advice bands, the message text and its caching;
  - the simplifier: the 32-bit rolling hash that keys its cache, the reply parser
    that always yields exactly N entries, and the partition, cache check, one
    batched model call, merge and fallback.
- **Route pipeline** (`route.dfy`). The older `GET /api/news` route: RSS items
  (three per feed, five in all), a model rewrite with a truncating fallback, a
  local story and weather from fixed tables, and assembly in editorial order.
- **Player** (`page.dfy`, `player.dfy`):
  - the page's pure parts: the demo list, the intro phrase before each spoken
    item, and the choice of a German voice;
  - the player as a state machine over `playerState`, the list, the current index,
    `isLive` and the error message.

  Button presses and the callbacks of the fetch, the speech engine and the
  one-second timer are events. A callback is a value that stays pending until the
  environment delivers it, in any order, with the index and list its closure
  captured. `Player.Step` is the page as written. `Player.SafeStep` is the
  corrected player (see Findings), and the class `Player.PagePlayer` runs it with the
  state as fields.

HTTP responses, RSS feed results, the language model's reply and the clock are
inputs. A `requested` or `modelCalls` ghost output records whether a request was
issued. `wrappers.dfy`, `text.dfy`, `tables.dfy` and `news_types.dfy` hold shared pieces:
- `Option` and `Result`;
- JavaScript truthiness, `slice`, `includes`, ASCII `toLowerCase` and
  `toString(radix)`;
- lookup in the literal tables (`CITY_CONFIG`, the demo and route tables);
- the item records.

## Model

| member | source | states |
|---|---|---|
| Text.OrElse | src/lib/tagesschau.ts:37 | JavaScript's `a or b` on an optional string is `a` when present and non-empty, the fallback otherwise |
| Text.Take | src/app/api/news/route.ts:93 | `slice(0, n)` is a prefix of the list with length min(n, length) |
| Text.Drop | src/app/api/news/route.ts:208 | `slice(n)` is exactly what follows `slice(0, n)` |
| Text.ContainsAt | src/app/page.tsx:218 | `includes` holds exactly when the substring occurs at some position |
| Text.ToLower | src/app/page.tsx:218 | `toLowerCase` keeps the length and lowers each ASCII capital, position by position |
| Text.IntToRadixRoundTrip | src/lib/claude.ts:16 | reading the printed digits back, sign included, gives the integer that `toString(radix)` printed |
| Text.IntToRadixInjective | src/lib/claude.ts:16 | two different integers never print the same in a given radix |
| NewsTypes.ProjectAll | src/lib/claude.ts:77-81 | projecting to `{headline, summary, type}` keeps the length, the order and each item's three fields |
| NewsTypes.ProjectAllAppend | src/lib/claude.ts:105-112 | projecting a concatenation projects each part |
| Tables.FindSpec | src/lib/constants.ts:10-123 | a table lookup (`CITY_CONFIG[id]` and the other literal tables) returns the value of the first entry under the key, and nothing exactly when no entry has it |
| Constants.CityRegionIds | src/lib/constants.ts:10-123 | there are 16 cities with distinct ids, and the i-th declared city has region id i+1 |
| Tables.FindAt | src/lib/constants.ts:10-123 | lookup returns the entry at a position when no earlier entry carries its key |
| Constants.DocumentedRegions | src/lib/constants.ts:4-7 | stuttgart has region 1, berlin 3 and erfurt 16, as the comment documents |
| Constants.WeatherCodeSet | src/lib/constants.ts:126-155 | the weather table has exactly 28 codes, those of the listed WMO subset; 4 and 10 are absent |
| Constants.TtlValues | src/lib/constants.ts:162-164 | the TTLs are 300000 and 3600000 ms, the simplified one is the longer, and three world stories are kept |
| Cache.SimpleCache.constructor | src/lib/cache.ts:7 | a new cache is empty |
| Cache.SimpleCache.Get | src/lib/cache.ts:9-19 | returns `Lookup` of the old map and leaves `AfterLookup` of it: a stale entry is deleted, nothing else changes |
| Cache.SimpleCache.Set | src/lib/cache.ts:21-26 | the key now holds the data stamped with `now`; other keys keep their entries |
| Cache.SimpleCache.Clear | src/lib/cache.ts:28-30 | the map is empty afterwards |
| Cache.SetThenGet | src/lib/cache.ts:9-26 | a value just set is read back by any reader with a non-negative window, and that read changes nothing |
| Cache.ExactAgeIsHit | src/lib/cache.ts:13 | an entry exactly `ttlMs` old is still served and kept, because expiry is strict |
| Cache.StaleReadDeletes | src/lib/cache.ts:13-16 | a stale read returns nothing and removes exactly that key, leaving every other entry as it was |
| Cache.OnlyStaleReadsChange | src/lib/cache.ts:10-18 | a read changes the map if and only if it finds a stale entry; it hits if and only if the key is present and the map is unchanged |
| Cache.ReaderChosenTtl | src/lib/cache.ts:9-16 | the same entry is a hit for a wide window and a miss for a narrow one; after the narrow read evicts it, the wide window misses too |
| Cache.SetOverwrites | src/lib/cache.ts:21-26 | the last write wins with a fresh timestamp, and every other key is untouched |
| Cache.AbsentUntilSet | src/lib/cache.ts:10-11 | over any sequence of calls without a `set` of the key, an absent key stays absent and every read of it misses, whatever the window |
| Cache.EvictedStaysMissing | src/lib/cache.ts:13-16 | after a stale read evicts an entry, no later read of that key hits until it is set again |
| Tagesschau.QualifyingMembers | src/lib/tagesschau.ts:30-33 | the story filter keeps exactly the stories of the feed of type "story" with a title and a non-empty first sentence or topline |
| Tagesschau.QualifyingAppend | src/lib/tagesschau.ts:30-34 | the filter keeps feed order: filtering a concatenation filters each part |
| Tagesschau.FindIsFirstOfFilter | src/lib/tagesschau.ts:72-74 | `find` returns the first story the filter would keep, or nothing when it keeps none |
| Tagesschau.FindFirst | src/lib/tagesschau.ts:72-74 | `find` returns a qualifying story preceded only by non-qualifying ones, and finds nothing exactly when no story qualifies |
| Tagesschau.WorldItems | src/lib/tagesschau.ts:29-34 | the homepage yields min(3, number of qualifying stories) world items |
| Tagesschau.WorldItemsShape | src/lib/tagesschau.ts:35-41 | item k is the k-th qualifying story: headline and original title its title, summary and original summary the first non-empty of first sentence and topline, else the empty text, type "welt" |
| Tagesschau.QualifyingItemHasOriginals | src/lib/tagesschau.ts:39-40 | an item made from a qualifying story has a non-empty original title and summary equal to its headline and summary, so it is a simplification candidate |
| Tagesschau.RegionalIsFirstQualifying | src/lib/tagesschau.ts:72-84 | a successful regional response yields the first qualifying story as a "lokal" item, or none when no story qualifies |
| Tagesschau.FetchWorldNews | src/lib/tagesschau.ts:9-45 | a fresh cached list is returned with no request; otherwise the response decides, an error status or failure writes nothing, and a success is cached under "world_news" |
| Tagesschau.FetchRegionalNews | src/lib/tagesschau.ts:47-88 | as for world news under "regional_news_" + id, except that a missing story is a `null` result and is not cached |
| Weather.DescriptionLookup | src/lib/weather.ts:31 | the description is the table's text for a listed code and "wechselhaft" for any other code |
| Weather.AdviceBands | src/lib/weather.ts:34-39 | each advice is chosen exactly in its band: below 5, 5 to 14, 15 and above |
| Weather.AdviceMonotone | src/lib/weather.ts:34-39 | a warmer temperature never gets colder-weather advice |
| Weather.SummaryTextShape | src/lib/weather.ts:43 | the summary starts with "Heute erwarten wir " and the description, and ends with the advice |
| Weather.WeatherItemShape | src/lib/weather.ts:41-45 | the item is "wetter", has no original text, its headline is "Das Wetter in " + city, and its summary opens with the description and closes with the advice |
| Weather.FetchWeather | src/lib/weather.ts:5-49 | a fresh cached item under "weather_lat_lon" is returned with no request; otherwise an error writes nothing and a built item is cached before it is returned |
| Claude.ToInt32 | src/lib/claude.ts:13-14 | the 32-bit wrap yields a signed 32-bit value |
| Claude.HashIsWrappedPolynomial | src/lib/claude.ts:9-15 | the loop's value is the polynomial 31-hash of the text wrapped once to signed 32 bits: the wrap inside `<< 5` does not change it |
| Claude.HashExtends | src/lib/claude.ts:11-15 | hashing one more character continues from the hash of the prefix |
| Claude.HashContent | src/lib/claude.ts:9-17 | the loop returns the hash of the whole text printed in base 36 |
| Claude.EmptyTextHash | src/lib/claude.ts:10-16 | the empty text hashes to "0" |
| Claude.HashKeyProperties | src/lib/claude.ts:9-17 | every hash is signed 32-bit, and equal keys mean equal hashes |
| Claude.MatchedAppend | src/lib/claude.ts:47-57 | sections contribute entries in reply order, each on its own |
| Claude.MatchedAllComplete | src/lib/claude.ts:51-56 | when both labels match in every section, each section yields exactly its own pair |
| Claude.Fit | src/lib/claude.ts:59-64 | exactly n entries: the parsed ones first, blank pairs after them, any excess cut |
| Claude.ParseSimplifiedResponse | src/lib/claude.ts:38-65 | returns exactly `expectedCount` entries: entry k is the k-th complete section, or a blank pair when there are fewer |
| Claude.Select | src/lib/claude.ts:69-73 | a filter result is no longer than its input and keeps only items passing the test |
| Claude.SelectMembers | src/lib/claude.ts:69-73 | the filter keeps exactly the items that pass, so a non-weather item lacking an original title or summary is dropped and every other one is kept |
| Claude.SelectAppend | src/lib/claude.ts:69-73 | the filter keeps input order: filtering a concatenation filters each part |
| Claude.KeyDependsOnlyOnText | src/lib/claude.ts:89 | the cache key depends only on original title + original summary, however the text is split; equal keys mean equal hashes |
| Claude.Keys | src/lib/claude.ts:89 | one cache key per candidate |
| Claude.LookupPhase | src/lib/claude.ts:88-97 | one lookup result per candidate |
| Claude.Uncached | src/lib/claude.ts:94-96 | the batch sent to the model has one item per missed lookup |
| Claude.MergePhase | src/lib/claude.ts:150-168 | the merge yields one item per candidate |
| Claude.CheckCache | src/lib/claude.ts:85-97 | the loop performs `LookupPhase` on the cache and collects the uncached candidates in order |
| Claude.MergeResults | src/lib/claude.ts:147-168 | the loop performs `MergePhase`: its items and the cache it leaves |
| Claude.SimplifyNewsItems | src/lib/claude.ts:67-188 | the method's items, final cache and number of model requests are those of `Simplify` |
| Claude.LookupOnlyEvicts | src/lib/claude.ts:88-97 | the cache-check pass only deletes: every entry left was there before, unchanged |
| Claude.HitsStayCached | src/lib/claude.ts:88-97 | every hit is still in the cache after the pass, fresh, holding the value read |
| Claude.FreshAllHit | src/lib/claude.ts:88-97 | when every key holds a fresh simplified entry, every lookup returns it and nothing changes |
| Claude.UncachedRank | src/lib/claude.ts:94-96 | a candidate that missed is the item of the batch at its rank among the misses |
| Claude.MergeEntry | src/lib/claude.ts:150-167 | at each position a hit gives the cached item, and a miss gives its rewrite by the parsed entry of its rank |
| Claude.MergeWritesOnly | src/lib/claude.ts:161-163 | the merge writes only the keys of missed candidates, each fresh, and keeps every fresh entry fresh |
| Claude.MergeStoresResults | src/lib/claude.ts:161-163 | with distinct keys, each missed key ends up holding the item the merge produced for it, stamped `now` |
| Claude.MergedOutput | src/lib/claude.ts:141-178 | with a text reply and a miss: one request; the candidates in order (hits as cached, the k-th miss rewritten by the k-th parsed entry, an empty field falling back) then the weather items; other non-weather items dropped |
| Claude.ModelFailureFallsBack | src/lib/claude.ts:135-187 | on an exception or a non-text reply, the original items come back projected and the cache gains nothing |
| Claude.NothingToSimplify | src/lib/claude.ts:76-82 | with no candidate, the items come back projected in the same order; no request is made and the cache is untouched |
| Claude.CacheReceivesOnlyMisses | src/lib/claude.ts:100-168 | a request is made exactly when some candidate missed, and the cache then changes only under the missed candidates' keys |
| Claude.SimplifyAllHit | src/lib/claude.ts:99-113 | when no lookup missed, every lookup hit, and the call returns the cached items followed by the weather items with no request |
| Claude.AllFreshNoCall | src/lib/claude.ts:99-113 | when every candidate is cached fresh: no request, no change, and the cached items followed by the weather items |
| Claude.MergeLeavesAllCached | src/lib/claude.ts:150-168 | after a merge every candidate's key is fresh; with distinct keys they hold exactly the merged items |
| Claude.SecondCallAfterHits | src/lib/claude.ts:88-113 | a second call after an all-hit call makes no request and returns the same items and cache |
| Claude.MergedStoreCachesAll | src/lib/claude.ts:88-168 | the cache a merging call leaves holds a fresh entry for every candidate; with distinct keys, exactly the produced items |
| Claude.SecondCallAfterMerge | src/lib/claude.ts:88-168 | a second call after a merge makes no request and changes nothing; with distinct keys it returns the merged items then the weather |
| Claude.SecondCallIsCached | src/lib/claude.ts:84-168 | after a successful call, the same call at the same instant makes no request whatever the reply; with distinct keys it returns the same items and cache |
| Claude.SecondCallWithinTtl | src/lib/claude.ts:84-168 | after a call that found no candidate cached and got a reply, the same call at any instant up to the cache lifetime later makes no request and returns the same items and cache (distinct keys) |
| Claude.SecondCallAfterTtl | src/lib/claude.ts:84-168 | after such a call, the same call more than the cache lifetime later makes a request again |
| Claude.MissedCallStamps | src/lib/claude.ts:88-168 | a call that found nothing cached and got a reply stamps every candidate's key with its instant and the item returned at that position, the weather items following |
| Claude.MissRequests | src/lib/claude.ts:100-168 | a call whose cache check misses at least once makes exactly one request, whatever the reply |
| Claude.StaleLastKeyMisses | src/lib/cache.ts:9-19 | a lookup pass whose last key holds an entry older than the lifetime misses at least once |
| Claude.AllMissed | src/lib/claude.ts:88-98 | a pass that counts as many misses as lookups has no hit |
| Claude.OneWorldOneWeather | src/lib/claude.ts:69-178 | one story and one weather item on an empty cache: one request, and the weather item comes back unchanged, last |
| NewsRoute.ToRssItem | src/app/api/news/route.ts:84-85 | a falsy title becomes "Ohne Titel"; content is the first truthy of snippet, content and description, and is empty exactly when none is |
| NewsRoute.FeedItems | src/app/api/news/route.ts:83-86 | a feed contributes its first min(3, length) items, each mapped |
| NewsRoute.FetchRssNews | src/app/api/news/route.ts:77-94 | the loop gathers the feeds' items in feed order, skipping failed feeds, and returns at most the first five |
| NewsRoute.GatheredBound | src/app/api/news/route.ts:80-87 | no more than three items per feed are gathered |
| NewsRoute.GatheredInFeedOrder | src/app/api/news/route.ts:80-91 | a successful feed's items sit together, right after those of the feeds before it |
| NewsRoute.Truncate | src/app/api/news/route.ts:104 | content of at most 200 characters is kept; longer content becomes its first 200 characters + "...", so never more than 203 |
| NewsRoute.FallbackItems | src/app/api/news/route.ts:160-164 | one "welt" item per input: title as headline, truncated content as summary |
| NewsRoute.SimplifyWithClaude | src/app/api/news/route.ts:96-165 | every item is "welt"; with a key and a decoded array, one item per decoded pair carrying its headline and summary |
| NewsRoute.FallbackOnePerInput | src/app/api/news/route.ts:100-164 | without a key or without a usable array, one "welt" item per input in order, summaries at most 203 characters |
| NewsRoute.RouteTablesAgree | src/app/api/news/route.ts:14-69 | the weather, local-news and city-name tables list the same ten cities in the same order |
| NewsRoute.CityParam | src/app/api/news/route.ts:169 | a missing or empty city parameter means "berlin"; any other value is kept |
| NewsRoute.LocalItem | src/app/api/news/route.ts:179-183 | with the tables' own entries only (the corrected lookup, see Findings), the local item is "lokal" and carries the city's entry when it has one |
| NewsRoute.WeatherItem | src/app/api/news/route.ts:186-203 | with the tables' own entries only (the corrected lookup, see Findings), the weather item is "wetter", and a city without a display name appears under its raw id |
| NewsRoute.UnknownCityUsesBerlin | src/app/api/news/route.ts:179-200 | with own-key lookup, every city outside the tables gets berlin's local story and weather text under its own id, as the `or berlin` fallbacks intend |
| NewsRoute.InheritedLookups | src/app/api/news/route.ts:179-200 | no table city is named after a member of `Object.prototype`, so each of the three lookups of such a name reaches the inherited member |
| NewsRoute.AsWrittenAgreesOffPrototype | src/app/api/news/route.ts:179-203 | for every id that is not an inherited name, the items the route builds as written equal those of the own-key lookup |
| NewsRoute.InheritedNameBreaksItems | src/app/api/news/route.ts:179-203 | for an inherited name the route as written builds a local item with no headline and no summary, and a weather item reading "undefined" for the forecast and, for the city, the member's `String` form (`function <name>() { [native code] }`, or `[object Object]` for `__proto__`), unlike berlin's |
| NewsRoute.UndefinedForecastDiffers | src/app/api/news/route.ts:201 | the forecast sentence with both fields undefined differs from berlin's |
| NewsRoute.AssembleShape | src/app/api/news/route.ts:207-215 | the list has n+2 items, weather last, local at min(3, n); removing those two gives back the simplified list |
| NewsRoute.Get | src/app/api/news/route.ts:167-221 | the response is the assembly of the simplified first five RSS items, the city's local item and its weather item (own-key lookup, see Findings), with the city |
| NewsRoute.GetWithoutModel | src/app/api/news/route.ts:171-221 | without a usable model answer: 2 to 7 items, local at min(3, n), weather last, all others "welt" |
| NewsRoute.FallbackNews | src/app/api/news/route.ts:222-243 | the outer catch returns exactly two items, one "welt" then one "wetter" |
| Tables.FindAbsent | src/app/page.tsx:181-183 | a key the table does not list is not found, so the fallback after `or` is taken |
| Page.DemoTablesAgree | src/app/page.tsx:56-177 | the three demo tables list the same sixteen capitals in the same order |
| Page.BerlinIsTheFallback | src/app/page.tsx:181-182 | the fallback local story and weather are berlin's entries |
| Page.DemoList | src/app/page.tsx:185-197 | five items: the three demo world items, the local story as "lokal", the weather sentence as "wetter" |
| Page.GetDemoNews | src/app/page.tsx:180-198 | always five items: the three demo world items, then the local story, then the weather item |
| Page.DemoNewsFallback | src/app/page.tsx:180-198 | a city the tables do not list plays berlin's local story and berlin's weather under its own id |
| Page.Intro | src/app/page.tsx:251-258 | the weather phrase exactly for "wetter", the region phrase exactly for "lokal", the greeting exactly for a world item at index 0, nothing otherwise |
| Page.SpokenTextShape | src/app/page.tsx:260 | the spoken text starts with the intro, ends with the summary, and adds the headline and ". " in between |
| Page.KindBeatsPosition | src/app/page.tsx:252-257 | a local or weather item in first position is introduced by its kind, never by the greeting |
| Page.FindVoice | src/app/page.tsx:216-223 | `find` returns a matching voice with none matching before it, and nothing only when no voice matches |
| Page.VoicePrecedence | src/app/page.tsx:212-225 | a voice is chosen unless the list is empty; it is German whenever one is; the first German voice whose lowercased name contains "female" wins; failing that, the first containing "male"; failing both, the first German voice; with no German voice, the first voice |
| Page.FemaleIsAlsoMale | src/app/page.tsx:218-221 | every name containing "female" contains "male" |
| Player.Received | src/app/page.tsx:309-329 | the list `startNews` plays always has an item |
| Player.TogglePause | src/app/page.tsx:333-341 | playing and paused swap, swapping twice restores the session, idle and loading are left alone |
| Player.StopClears | src/app/page.tsx:344-349 | stop gives idle, index 0 and an empty list from any state, keeping the error and `isLive` |
| Player.SpeechErrorKeepsPlace | src/app/page.tsx:290-294 | a speech error gives idle with the message, keeping the list and the index |
| Player.NextMovesByOne | src/app/page.tsx:352-359 | next moves one item forward and speaks it when one follows, otherwise changes nothing; the player state is kept |
| Player.PreviousMovesByOne | src/app/page.tsx:362-369 | previous moves one item back when not at the start, otherwise changes nothing; the player state is kept |
| Player.PreviousUndoesNext | src/app/page.tsx:352-369 | next then previous returns to the same item and speaks it again |
| Player.StartAlwaysPlays | src/app/page.tsx:303-329 | start then the settled request gives playing at index 0 with no error: the body's list and `isLive ?? false`, or the demo list and not live, and the first item is spoken |
| Player.RouteAnswerIsNeverLive | src/app/page.tsx:318 | the route's body has no `isLive`, so its answer is always shown as not live |
| Player.EndLast | src/app/page.tsx:275-286 | when the last item ends, the outro is spoken |
| Player.OutroRests | src/app/page.tsx:282-285 | the end of the outro gives idle at index 0 |
| Player.PlayLast | src/app/page.tsx:275-286 | the last item's end, then the outro's, reach the resting state |
| Player.EndSchedules | src/app/page.tsx:269-274 | the end of an item that is not last schedules its timer and changes nothing else |
| Player.TimerSpeaksNext | src/app/page.tsx:271-273 | the timer moves to the next index and speaks that item |
| Player.PlayOne | src/app/page.tsx:268-274 | an item's end and its timer advance by one and speak the next item |
| Player.PlayThrough | src/app/page.tsx:268-287 | left alone, the rest of the list is read in order with its intros, then the outro, ending idle at index 0 with the list kept |
| Player.StaleTimerAfterStop | src/app/page.tsx:268-274 | as written, a timer firing after stop speaks the next item while idle and leaves index 1 on an empty list; the corrected player stays silent at index 0 |
| Player.StaleTimerReadsOn | src/app/page.tsx:262-280 | as written, after that stop the stale chain holds item 1 pending and goes on reading the rest of the list and the outro to rest, with nothing on screen |
| Player.StaleChainReadsOn | src/app/page.tsx:262-280 | the chain the stale timer starts holds item 1 pending and plays the rest of the list and the outro to rest |
| Player.StaleTimerRun | src/app/page.tsx:268-274 | as written, the trace start, settle, first item ends, stop, timer leaves item 1 spoken on a new chain at index 1 with the list cleared |
| Player.InitialCoherent | src/app/page.tsx:201-206 | the initial page state is coherent |
| Player.SpeakKeeps | src/app/page.tsx:246-298 | speaking an item of the list on a new chain keeps the session coherent |
| Player.StartKeeps | src/app/page.tsx:303-307 | starting keeps the session coherent |
| Player.SettleKeeps | src/app/page.tsx:316-328 | the settled request keeps the session coherent |
| Player.ButtonKeeps | src/app/page.tsx:333-369 | pause, stop, next and previous keep the session coherent |
| Player.ToggleKeeps | src/app/page.tsx:333-341 | pause and resume keep the session coherent |
| Player.StopKeeps | src/app/page.tsx:344-349 | stop keeps the session coherent |
| Player.NextKeeps | src/app/page.tsx:352-359 | next keeps the session coherent |
| Player.PreviousKeeps | src/app/page.tsx:362-369 | previous keeps the session coherent |
| Player.ItemEndedKeeps | src/app/page.tsx:268-287 | the current item's end keeps the session coherent |
| Player.SpeechStopsKeeps | src/app/page.tsx:282-294 | the outro's end and a speech error keep the session coherent |
| Player.TimerKeeps | src/app/page.tsx:271-273 | the current chain's timer keeps the session coherent |
| Player.SafeStepKeepsCoherent | src/app/page.tsx:268-294 | the corrected player keeps every session coherent, so the index always names an item of the list |
| Player.SafeIgnoresStale | src/app/page.tsx:268-273 | the corrected player only consumes a callback of a superseded chain |
| Player.SafeFollowsCurrent | src/app/page.tsx:268-294 | on every other event the corrected player does what the page does |
| Player.SafeRunKeepsCoherent | src/app/page.tsx:268-294 | coherence holds over any sequence of events |
| Player.StopSilences | src/app/page.tsx:344-349 | stopping the corrected player leaves it idle with every pending callback superseded |
| Player.SilenceHolds | src/app/page.tsx:344-349 | once stopped, the corrected player speaks nothing and changes nothing but its pending callbacks until the next start |
| Player.PagePlayer.constructor | src/app/page.tsx:201-206 | the player starts idle with an empty list, no error and nothing pending |
| Player.PagePlayer.SpeakNews | src/app/page.tsx:246-298 | the item's text is spoken and its callbacks are pending on a new chain |
| Player.PagePlayer.StartNews | src/app/page.tsx:303-311 | the state becomes that of the corrected start, and the player stays coherent |
| Player.PagePlayer.ReceiveNews | src/app/page.tsx:312-329 | the state becomes that of the corrected settled request, and the player stays coherent |
| Player.PagePlayer.Play | src/app/page.tsx:317-320 | the list is shown as playing and its first item is spoken |
| Player.PagePlayer.TogglePause | src/app/page.tsx:333-341 | the state becomes that of the corrected toggle, and the player stays coherent |
| Player.PagePlayer.StopNews | src/app/page.tsx:344-349 | the state becomes that of the corrected stop, and the player stays coherent |
| Player.PagePlayer.NextNews | src/app/page.tsx:352-359 | the state becomes that of the corrected next, and the player stays coherent |
| Player.PagePlayer.PreviousNews | src/app/page.tsx:362-369 | the state becomes that of the corrected previous, and the player stays coherent |
| Player.PagePlayer.OnSpeechEnd | src/app/page.tsx:268-287 | the state becomes that of the corrected `onend`, and the player stays coherent |
| Player.PagePlayer.OnSpeechError | src/app/page.tsx:290-294 | the state becomes that of the corrected `onerror`, and the player stays coherent |
| Player.PagePlayer.OnTimer | src/app/page.tsx:271-274 | the state becomes that of the corrected timer, and the player stays coherent |

## Left out

- Network I/O is not modelled; each result is an input. This covers the Tagesschau, Open-Meteo and route requests, the RSS parser and the model SDK calls.
- The clock is not modelled. `Date.now()` is a `now` parameter, and one `now` serves a whole simplifier call.
- `setTimeout` is not modelled as time: its delay is a "timer fired" event.
- The regular expressions that cut the simplifier's reply into sections are abstracted. The input is the sections with what each label captured.
- The route's `JSON.parse` of the bracketed text is abstracted. The input is the decoded headline/summary pairs, or a failure.
- Floating point is left out. The temperature arrives already rounded (`Math.round`), and coordinates are their printed text.
- Strings are sequences of characters. UTF-16 code units are taken as characters, and `toLowerCase` lowers only ASCII letters.
- Concurrency on the shared cache is not modelled: each call runs to completion before the next.
- The Web Speech API's audio, voice loading, rate, pitch and the engine's own pause and resume are left out. What is spoken is a log of the texts handed to the engine.
- The page's rendering is left out except for which buttons are on screen in each state. This also covers the city picker, the progress bar and `layout.tsx`.
- Tagesschau.FetchWorldNews: a cached value of another namespace's variant is treated as a miss. The source casts it unchecked, and no key of one namespace can equal a key of another.
- Tagesschau.FetchRegionalNews, Weather.FetchWeather: the same applies to their cached values.
- NewsRoute.SimplifyWithClaude: the decoded array's entries are taken to be headline/summary string pairs. Other shapes the source would spread into items are not modelled.
- NewsRoute.Get does not model the outer `catch`. No step the model covers can throw, so its list is stated separately as `NewsRoute.FallbackNews`.
- Player.Received: the body's items are taken to be well-formed news items, and `isLive` a boolean when present.
- Player.Step: React state updates issued before a throw are taken as overridden by the `catch` block's updates, since those come later.
- Page.GetDemoNews looks up own entries only. The page passes it only the sixteen ids of its city picker, none of which is a member of `Object.prototype`.
- NewsRoute.WeatherItemAsWritten prints an inherited member in V8's `String` form (`function toString() { [native code] }`); other engines may format it differently.
- Claude.SecondCallIsCached: the same-items half requires the candidates' cache keys to be distinct. Two texts whose 32-bit hashes collide share one entry, and then the later write wins.
- Claude.MergedStoreCachesAll: the same holds for the exactly-the-produced-items half.
- Claude.MergeLeavesAllCached: the same holds.
- Claude.SecondCallAfterMerge: the same holds.

## Findings

| source | as written | input that shows it | evidently intended | confidence | as-written member | corrected member |
|---|---|---|---|---|---|---|
| src/app/page.tsx:268-274 | the one-second timer between items captures its index and list and is never cancelled; `stopNews` (lines 344-349) cancels only speech | start with a list of at least two items; the first item ends; stop within the pause; the timer fires | after stop nothing more is spoken and the index stays within the shown list; as written, the second item is spoken while the player shows idle, the index is 1 on an empty list, and playback goes on to the end | not executed | Player.StaleTimerAfterStop | Player.SilenceHolds |
| src/app/api/news/route.ts:179-203 | `LOKALE_NACHRICHTEN[city]`, `WETTER_DATEN[city]` and `cityNames[city]` index object literals, so a `city` named after a member of `Object.prototype` finds that inherited member, which is truthy and skips the berlin fallback | `GET /api/news?city=toString` | a city the tables do not list gets berlin's local story and weather under its own id; as written, the local item has no headline and no summary, and the weather item reads "Heute erwarten wir undefined" under "Das Wetter in function toString() { [native code] }" | not executed | NewsRoute.InheritedNameBreaksItems | NewsRoute.UnknownCityUsesBerlin |

`Player.StaleTimerReadsOn` shows that playback after such a stop goes on to the end:
the stale chain reads the rest of the list and the outro, and comes to rest at index 0.

The corrected player (`Player.SafeStep`) tags each callback with its playback chain and
ignores callbacks of a superseded chain. `Player.SafeStepKeepsCoherent` proves that
the index then always names an item of the list. The class `Player.PagePlayer` runs the
corrected transitions.

For the route, `NewsRoute.LocalItemAsWritten` and `NewsRoute.WeatherItemAsWritten` build
the items with JavaScript's property lookup (`Tables.PropertyOf`), inherited members
included. `NewsRoute.AsWrittenAgreesOffPrototype` shows that they differ from the
own-key items `NewsRoute.LocalItem` and `NewsRoute.WeatherItem` only on the twelve
inherited names. The rest of the route model (`NewsRoute.Get`) uses the own-key items,
which is what `Object.hasOwn` or a `Map` would give.
