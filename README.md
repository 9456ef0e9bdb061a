# Best stories of Hacker News, modelled in Dafny

TempletonTestApi is an ASP.NET service with one endpoint. It returns the
best Hacker News stories, up to a requested limit. The upstream API only
lists story ids, so the service fetches every item one by one. It keeps
each fetched item in an in-memory cache with a time-to-live (TTL), and it
turns a failed fetch into a cached null. It keeps the non-null items of kind
"story", ranks them by descending score, cuts the ranking to the limit and
maps each one to an outward record.

This project models that core and proves what it promises:

- `ItemTypes.dfy`, `Models.dfy`: the item-kind enum with its `EnumMember`
  names, the fetched item, and the outward story record.
- `ItemTypeConverter.dfy`: the JSON converter for item kinds. Reading is
  case-insensitive, and null or empty text reads as Unknown. Writing gives
  the lower-case wire name.
- `HackerStoryMapper.dfy`: the mapping from an item to a story record.
- `CacheKeys.dfy`: the cache key `hn:item:{id}`, with a proof that distinct
  ids get distinct keys (the id is parsed back out of its key).
- `StoryRanking.dfy`: LINQ `OrderByDescending(score)` as a stable insertion
  sort, then `Take(limit)`, as pure functions with their top-k lemmas.
- `HackerNewsService.dfy`: the request itself. The pure functions
  `CachedLookup`, `FetchAll` and `BestStories` say what one request returns,
  what it does to the cache and which client requests it makes. Lemmas about
  them cover the cache, refetching, failures and ranking. The classes
  `HackerNewsClient` (a recording stand-in for the HTTP client) and
  `HackerNewsService` (holding the cache as a `map` field) perform the
  request step by step, and their methods are proved to agree with those
  functions.

The cache is a map from key to (value, absolute expiration). An entry is
served only while `now < absoluteExpiration`, as the memory cache does. A
miss stores the caught answer of the client with expiration `now + ttl`. The
TTL is `ItemTTLInMinutes * 60` seconds. Time is the parameter `now`, one
instant per request.

Behaviour of the code worth noting:

- Listed ids are not deduplicated. A repeated id is looked up again, and
  its story is added to the bag once per listing, so it can appear twice in
  the result. In this sequential model the second lookup finds the entry the
  first one stored, so the client is asked at most once for it; the source's
  parallel workers can both miss on the same key and both fetch.
- A degree of parallelism of -1 means "unbounded". Only 0 and values below
  -1 make `ParallelOptions` throw. The request then fails after the ID list
  was requested (`ParallelismOutOfRange`).
- A TTL that is not positive is not refused at start-up. The cache entry
  refuses it when it is set, before the guarded fetch. So the first cache
  miss fails the whole request: nothing is cached and the client is not
  asked for that item (`TtlOutOfRange`). A request whose ids are all live
  still succeeds.
- A list request that throws fails the request before the parallel options
  are built (`ListingFailed`). A null list fails only when the parallel
  loop starts, after those options are built.

## Model

| member | source | states |
|---|---|---|
| ItemTypes.EnumMemberValue | TempletonTestApi/Clients/Enums/ItemType.cs:5-23 | Every kind except Unknown declares an `EnumMember` name; Unknown declares none. |
| ItemTypeConverter.ToLowerInvariant | TempletonTestApi/Clients/Converters/ItemTypeConverter.cs:14 | Lower-casing keeps the length and lower-cases each ASCII letter in place. |
| ItemTypeConverter.Read | TempletonTestApi/Clients/Converters/ItemTypeConverter.cs:11-22 | Null or empty text reads as Unknown; a known kind is read only from text whose lower-case form is that kind's written name. |
| ItemTypeConverter.Write | TempletonTestApi/Clients/Converters/ItemTypeConverter.cs:27-35 | Each kind is written as a non-empty word of lower-case letters: its `EnumMember` name, or "unknown" for Unknown, which declares none. |
| ItemTypeConverter.ReadNullOrEmpty | TempletonTestApi/Clients/Converters/ItemTypeConverter.cs:11-12 | A JSON null and an empty string both read as Unknown. |
| ItemTypeConverter.ReadCaseInsensitive | TempletonTestApi/Clients/Converters/ItemTypeConverter.cs:14-22 | Two strings with the same lower-case form read as the same kind. |
| ItemTypeConverter.ReadCharacterisation | TempletonTestApi/Clients/Converters/ItemTypeConverter.cs:11-22 | A known kind is read exactly from the strings whose lower-case form is its name (both directions). |
| ItemTypeConverter.ReadAnyCasing | TempletonTestApi/Clients/Converters/ItemTypeConverter.cs:14-20 | Any spelling whose letters lower-case to a known kind's name reads as that kind. |
| ItemTypeConverter.ReadExamples | TempletonTestApi/Clients/Converters/ItemTypeConverter.cs:14-20 | "Story", "STORY" and "story" read as Story; "pollopt" reads as PollOption. |
| ItemTypeConverter.ReadUnknownName | TempletonTestApi/Clients/Converters/ItemTypeConverter.cs:14-22 | "unknown", the name Write gives Unknown, reads back as Unknown. |
| ItemTypeConverter.ReadUnrecognised | TempletonTestApi/Clients/Converters/ItemTypeConverter.cs:14-22 | A word that names no kind ("stories", "Stories") reads as Unknown. |
| ItemTypeConverter.WriteIsLowerCase | TempletonTestApi/Clients/Converters/ItemTypeConverter.cs:27-35 | Every written name is non-empty and already lower case. |
| ItemTypeConverter.WriteInjective | TempletonTestApi/Clients/Converters/ItemTypeConverter.cs:27-35 | Two kinds get the same written name exactly when they are the same kind. |
| ItemTypeConverter.ReadWriteRoundTrip | TempletonTestApi/Clients/Converters/ItemTypeConverter.cs:11-35 | Reading the name Write produces gives back the kind, Unknown included. |
| HackerStoryMapper.MapToDto | TempletonTestApi/Extensions/Mappers/HackerStoryMapper.cs:9-23 | Title and score are copied; uri comes from url, postedBy from createdBy, commentCount from descendants, and time is the rendering of createdAt. |
| HackerStoryMapper.MapToDtoEqual | TempletonTestApi/Extensions/Mappers/HackerStoryMapper.cs:9-23 | Two items give the same record exactly when they agree on the copied fields and on the rendered time. |
| HackerStoryMapper.TimeDependsOnlyOnCreatedAt | TempletonTestApi/Extensions/Mappers/HackerStoryMapper.cs:11-13 | Items with the same createdAt get the same time string. |
| HackerStoryMapper.MapAll | TempletonTestApi/Services/HackerNewsService.cs:63 | `Select(MapToDto)` keeps the length and maps every position in order. |
| CacheKeys.IntDecimalRoundTrip | TempletonTestApi/Services/HackerNewsService.cs:68 | The decimal text of an id, minus sign included, parses back to the id. |
| CacheKeys.ItemKeyRoundTrip | TempletonTestApi/Services/HackerNewsService.cs:21-68 | `ItemKey`: the id can be recovered from its key `hn:item:{id}`. |
| CacheKeys.ItemKeyInjective | TempletonTestApi/Services/HackerNewsService.cs:66-68 | `ItemKey`: two ids share a cache key exactly when they are equal. |
| CacheKeys.ItemKeyExamples | TempletonTestApi/Services/HackerNewsService.cs:21-68 | `ItemKey`: item 8863 is cached under "hn:item:8863", item -7 under "hn:item:-7". |
| StoryRanking.InsertByScore | TempletonTestApi/Services/HackerNewsService.cs:61 | Inserting into a score-sorted list keeps it sorted and adds exactly the new item. |
| StoryRanking.SortByScoreDesc | TempletonTestApi/Services/HackerNewsService.cs:61 | `OrderByDescending(score)` is a permutation with scores never increasing. |
| StoryRanking.Take | TempletonTestApi/Services/HackerNewsService.cs:62 | `Take(n)` is a prefix of length 0 for n <= 0, else min(n, length). |
| StoryRanking.TopStories | TempletonTestApi/Services/HackerNewsService.cs:60-62 | The ranking is sorted by descending score, has min(limit, bag size) items (none for limit <= 0), and is a sub-multiset of the bag. |
| StoryRanking.TopStoriesIsTopK | TempletonTestApi/Services/HackerNewsService.cs:60-62 | No item of the bag that was cut off scores higher than any ranked item. |
| StoryRanking.TopStoriesFromBag | TempletonTestApi/Services/HackerNewsService.cs:60-62 | Every ranked item comes from the bag. |
| HackerNewsService.Caught | TempletonTestApi/Services/HackerNewsService.cs:73-81 | A thrown fetch becomes null; a returned item or null is kept as it is. |
| HackerNewsService.CachedLookup | TempletonTestApi/Services/HackerNewsService.cs:66-83 | A live entry is served without asking the client. A miss with a positive TTL stores the caught answer under the id's key, expiring at now + ttl. A miss with a non-positive TTL fails. No other key changes. |
| HackerNewsService.FetchAll | TempletonTestApi/Services/HackerNewsService.cs:50-58 | With a positive TTL the fetch loop always succeeds: a failed item fetch never fails the request. |
| HackerNewsService.FetchAllWithoutTtlChangesNothing | TempletonTestApi/Services/HackerNewsService.cs:66-71 | With a non-positive TTL the loop never changes the cache or asks the client, and can only fail with TtlOutOfRange. |
| HackerNewsService.FetchAllWithoutTtl | TempletonTestApi/Services/HackerNewsService.cs:50-71 | With a non-positive TTL the loop succeeds exactly when every listed id has a live entry. |
| HackerNewsService.FetchAllFailsAt | TempletonTestApi/Services/HackerNewsService.cs:50-71 | With a non-positive TTL one listed id without a live entry fails the whole loop with TtlOutOfRange. |
| HackerNewsService.EntryLiveUntilExpiry | TempletonTestApi/Services/HackerNewsService.cs:69-71 | `IsLive`: an entry stored on a miss at `now` is served at every instant before `now + ttl` and at none from then on. |
| HackerNewsService.ResolvedIsLookupValue | TempletonTestApi/Services/HackerNewsService.cs:66-83 | `Resolved`: with a positive TTL, one get-or-create gives exactly the id's live entry, or else the client's caught answer. |
| HackerNewsService.ResolvedAll | TempletonTestApi/Services/HackerNewsService.cs:50-55 | Each listed id, in order, resolves to its live entry or else to the client's caught answer. |
| HackerNewsService.Stories | TempletonTestApi/Services/HackerNewsService.cs:56-57 | The bag holds exactly the non-null resolved values of kind Story, each as many times as it was resolved, and is no longer than the list. |
| HackerNewsService.FetchAllCache | TempletonTestApi/Services/HackerNewsService.cs:50-71 | After the loop, each listed id that had no live entry holds the caught answer expiring at now + ttl. Each listed id that had one keeps it. Every other key is untouched, and no key is removed. |
| HackerNewsService.FetchAllBag | TempletonTestApi/Services/HackerNewsService.cs:50-58 | The loop's bag is the stories its ids resolve to. |
| HackerNewsService.FetchAllFetched | TempletonTestApi/Services/HackerNewsService.cs:50-75 | The client is asked for exactly the listed ids without a live entry, once each however often they are listed, and for nothing when all are live. |
| HackerNewsService.RepeatedIdTwice | TempletonTestApi/Services/HackerNewsService.cs:50-58 | An id listed twice whose value is a story puts that story in the bag twice, and the client is asked for it once (none if it was live). |
| HackerNewsService.NoRefetchWithinTtl | TempletonTestApi/Services/HackerNewsService.cs:66-80 | An id fetched by one request is not fetched again by the request that follows it within its TTL, whatever that request lists and whatever the client would now answer, a cached null included. |
| HackerNewsService.AllLiveFetchAll | TempletonTestApi/Services/HackerNewsService.cs:66-71 | A request whose ids are all live asks the client for nothing and leaves the cache as it was. |
| HackerNewsService.LiveWithinTtl | TempletonTestApi/Services/HackerNewsService.cs:66-71 | After a request at `now1`, every listed id has an entry still live at any `now2` within the TTL window, holding what the id resolved to, provided the entries that were live at `now1` are still live at `now2`. |
| HackerNewsService.RepeatWithinTtl | TempletonTestApi/Services/HackerNewsService.cs:41-71 | Repeating a request at `now2` within the TTL window fetches nothing, leaves the cache as it was and gathers the same bag, provided the entries that were live at the first request are still live at `now2`. |
| HackerNewsService.ResolvedAllFromLive | TempletonTestApi/Services/HackerNewsService.cs:66-71 | Ids whose live entries hold what they resolved to before resolve to the same values again. |
| HackerNewsService.BestStories | TempletonTestApi/Services/HackerNewsService.cs:41-63 | The ID list is requested exactly when the limit is positive, and a non-positive limit returns no stories and changes nothing. A thrown list fails with ListingFailed and an invalid parallelism with ParallelismOutOfRange. A listed request with a valid configuration and a positive TTL succeeds. A failed request leaves the cache as it was and fetches nothing. A result has at most `limit` records, with scores never increasing. |
| HackerNewsService.BestStoriesResult | TempletonTestApi/Services/HackerNewsService.cs:41-63 | With a listed ID list and a valid configuration, the result is the mapped top `limit` of the stories the ids resolve to. |
| HackerNewsService.RankedFromResolved | TempletonTestApi/Services/HackerNewsService.cs:48-62 | Every ranked item is of kind Story and is what one of the listed ids resolved to. |
| HackerNewsService.StoryResolved | TempletonTestApi/Services/HackerNewsService.cs:50-57 | Every item of the bag is a Story that some listed id resolved to. |
| HackerNewsService.ResolvedStoryInBag | TempletonTestApi/Services/HackerNewsService.cs:50-57 | Every Story that some listed id resolves to is in the bag. |
| HackerNewsService.RankedRecords | TempletonTestApi/Services/HackerNewsService.cs:56-63 | The result has min(limit, number of stories) records, its scores never increase, and no story left out outscores a returned one. |
| HackerNewsService.ThrowDropsOnlyThatItem | TempletonTestApi/Services/HackerNewsService.cs:53-81 | A fetch that throws contributes nothing, and the bag still holds every story that any listed id resolves to. |
| HackerNewsService.HackerNewsClient.GetBestStoryIds | TempletonTestApi/Clients/IHackerNewsClient.cs:11-12 | Returns the configured ID-list answer and counts one list request. |
| HackerNewsService.HackerNewsClient.GetItemById | TempletonTestApi/Clients/IHackerNewsClient.cs:8-9 | Returns the configured answer for the id and records the request. |
| HackerNewsService.HackerNewsService.constructor | TempletonTestApi/Services/HackerNewsService.cs:26-39 | The TTL is the configured minutes in seconds; the parallelism and the cache are taken as given. |
| HackerNewsService.HackerNewsService.GetStoryCached | TempletonTestApi/Services/HackerNewsService.cs:66-83 | Get-or-create on the cache field does what CachedLookup says: same value, same new cache, one client request exactly on a miss. |
| HackerNewsService.HackerNewsService.FetchStories | TempletonTestApi/Services/HackerNewsService.cs:48-58 | The loop over the ids leaves the cache, the bag and the client's recorded requests as FetchAll says; on failure, cache and client are as they were. |
| HackerNewsService.HackerNewsService.GetBestStories | TempletonTestApi/Services/HackerNewsService.cs:41-64 | The request's result, new cache and client requests are those BestStories gives. A non-positive limit returns no stories and calls nothing. |

## Left out

- Concurrency: `Parallel.ForEachAsync` with its concurrency ceiling and the
  `ConcurrentBag`. The model resolves the ids one after the other, in list
  order, so the bag is in list order. The ranking lemmas hold for any bag.
  Only the order of equal scores would differ, and the source leaves that
  order unspecified. The ceiling cannot be stated in a sequential model.
- Duplicate fetches racing inside `GetOrCreateAsync` for one key. Without
  concurrency they cannot happen.
- Cancellation tokens. The source's catch-all also catches a cancelled item
  fetch, which then becomes a cached null like any other failure.
- Logging of failed fetches.
- HTTP, Refit and the JSON reader and writer. The client is a stand-in that
  answers from fixed data. The converter works on the string the reader
  produced, and Read and Write return kinds and strings.
- Memory-cache internals: the real clock, size limits and eviction. Time is
  one `now` per request, and expired entries simply stop being served.
- HackerStoryMapper.MapToDto: the ISO-8601 rendering (`DateTimeOffset`) is
  the parameter `formatUtc`. The exception `FromUnixTimeSeconds` throws for
  out-of-range seconds is not modelled.
- ItemTypeConverter.ToLowerInvariant: lowers ASCII letters only. Full
  Unicode invariant casing is left out. None of the kind names contain other
  letters.
- Integer widths: ids (`long`), scores and comment counts (`int`) and the
  TTL arithmetic are unbounded integers, with no overflow.
- The controller's NotFound-on-empty rule, start-up wiring, options binding
  and API versioning.
- `HackerNewsStory.cs`, an unused model with a string kind.
