/**
 * The best-stories pipeline (TempletonTestApi/Services/HackerNewsService.cs).
 *
 * A request with a positive limit asks the client for the ID list, resolves
 * every id through a time-to-live cache keyed "hn:item:{id}" (asking the
 * client only on a miss, turning a thrown fetch into null and caching that
 * null too), keeps the non-null items of kind Story, ranks them by
 * descending score, cuts the ranking to the limit and maps each survivor to
 * a story record.
 *
 * The source resolves the ids on a bounded pool of parallel workers into an
 * unordered bag; here they are resolved one after the other, in list order,
 * at one instant `now` (Unix seconds). The ranking lemmas hold for every bag,
 * so they do not depend on the order the bag happens to have.
 *
 * The pure functions below say what one request does to the cache and what
 * it returns; the class `HackerNewsService` does it step by step on its
 * cache field and is proved to agree with them.
 */
module HackerNewsService {
  import opened Wrappers
  import opened ItemTypes
  import opened Models
  import opened CacheKeys
  import opened StoryRanking
  import opened HackerStoryMapper

  /** One item request to the client: it returns an item, returns null, or throws. */
  datatype FetchOutcome = Returned(item: Option<HackerNewsItem>) | Threw

  /** The ID-list request: it returns a list, returns null, or throws. */
  datatype ListingOutcome = Listed(ids: seq<int>) | ListedNull | ListThrew

  /** Why a request fails instead of returning stories. */
  datatype Error =
    | ListingFailed          // the ID-list request threw, or gave null to the parallel loop
    | ParallelismOutOfRange  // ParallelOptions refuses a degree of parallelism of 0 or below -1
    | TtlOutOfRange          // the cache entry refuses a relative expiration that is not positive

  /** A cached value (null included) with the instant it expires. */
  datatype CacheEntry = CacheEntry(value: Option<HackerNewsItem>, absoluteExpiration: int)

  /** The memory cache, shared across requests; it may hold keys this service never writes. */
  type Cache = map<string, CacheEntry>

  /** An entry is served only strictly before its absolute expiration. */
  predicate IsLive(cache: Cache, key: string, now: int) {
    key in cache && now < cache[key].absoluteExpiration
  }

  /** The catch block around the fetch: whatever was thrown becomes null. */
  function Caught(o: FetchOutcome): (v: Option<HackerNewsItem>)
    ensures o.Threw? ==> v.None?
    ensures o.Returned? ==> v == o.item
  {
    match o
    case Returned(item) => item
    case Threw => None
  }

  /** What one cached lookup gives: the value, the new cache, and whether the client was asked. */
  datatype Lookup = Lookup(value: Option<HackerNewsItem>, cache: Cache, fetched: bool)

  /**
   * `GetStoryCachedAsync` on a cache map: a live entry is served as it is;
   * otherwise the expiration is set first (failing if the TTL is not
   * positive), then the client is asked and its caught answer stored.
   */
  function CachedLookup(cache: Cache, id: int, now: int, ttl: int, items: int -> FetchOutcome): (r: Result<Lookup, Error>)
    ensures r.Err? <==> !IsLive(cache, ItemKey(id), now) && ttl <= 0
    ensures r.Err? ==> r.error == TtlOutOfRange
    ensures r.Ok? ==> (r.value.fetched <==> !IsLive(cache, ItemKey(id), now))
    ensures r.Ok? ==> IsLive(r.value.cache, ItemKey(id), now) && r.value.cache[ItemKey(id)].value == r.value.value
    ensures r.Ok? && r.value.fetched ==> r.value.cache[ItemKey(id)] == CacheEntry(Caught(items(id)), now + ttl)
    ensures r.Ok? && !r.value.fetched ==> r.value.cache == cache
    ensures r.Ok? ==> forall k :: k != ItemKey(id) ==> (k in r.value.cache <==> k in cache)
    ensures r.Ok? ==> forall k :: k != ItemKey(id) && k in cache ==> r.value.cache[k] == cache[k]
  {
    var key := ItemKey(id);
    if IsLive(cache, key, now) then
      Ok(Lookup(cache[key].value, cache, false))
    else if ttl <= 0 then
      Err(TtlOutOfRange)
    else
      var value := Caught(items(id));
      Ok(Lookup(value, cache[key := CacheEntry(value, now + ttl)], true))
  }

  /** The fetch loop's product: the bag of stories, the cache after it, and the ids the client was asked for. */
  datatype Gathered = Gathered(bag: seq<HackerNewsItem>, cache: Cache, fetched: seq<int>)

  /** The filter inside the loop: non-null and of kind Story. */
  predicate IsStory(v: Option<HackerNewsItem>) {
    v.Some? && v.value.itemType == Story
  }

  /**
   * The fetch loop over the id list, in list order: every id is looked up
   * through the cache, and its value is added to the bag when it is a story.
   * The loop stops at the first lookup that fails.
   */
  function FetchAll(cache: Cache, ids: seq<int>, now: int, ttl: int, items: int -> FetchOutcome): (r: Result<Gathered, Error>)
    ensures ttl > 0 ==> r.Ok?
    decreases |ids|
  {
    if ids == [] then
      Ok(Gathered([], cache, []))
    else
      var id := ids[|ids| - 1];
      match FetchAll(cache, ids[..|ids| - 1], now, ttl, items)
      case Err(e) => Err(e)
      case Ok(g) =>
        match CachedLookup(g.cache, id, now, ttl, items)
        case Err(e) => Err(e)
        case Ok(l) =>
          Ok(Gathered(
            if IsStory(l.value) then g.bag + [l.value.value] else g.bag,
            l.cache,
            if l.fetched then g.fetched + [id] else g.fetched))
  }

  /** With a TTL that is not positive the loop never changes the cache or asks the client, and can only fail on the TTL. */
  lemma {:induction false} FetchAllWithoutTtlChangesNothing(cache: Cache, ids: seq<int>, now: int, ttl: int, items: int -> FetchOutcome)
    requires ttl <= 0
    ensures var r := FetchAll(cache, ids, now, ttl, items);
      && (r.Ok? ==> r.value.cache == cache && r.value.fetched == [])
      && (r.Err? ==> r.error == TtlOutOfRange)
    decreases |ids|
  {
    if ids != [] {
      FetchAllWithoutTtlChangesNothing(cache, ids[..|ids| - 1], now, ttl, items);
    }
  }

  /** Every listed id has a live entry. */
  ghost predicate AllLive(cache: Cache, ids: seq<int>, now: int) {
    forall i :: 0 <= i < |ids| ==> IsLive(cache, ItemKey(ids[i]), now)
  }

  lemma AllLiveSnoc(cache: Cache, ids: seq<int>, id: int, now: int)
    ensures AllLive(cache, ids + [id], now) <==> AllLive(cache, ids, now) && IsLive(cache, ItemKey(id), now)
  {
    var ext := ids + [id];
    if AllLive(cache, ids, now) && IsLive(cache, ItemKey(id), now) {
      forall i | 0 <= i < |ext|
        ensures IsLive(cache, ItemKey(ext[i]), now)
      {
        if i < |ids| {
          assert ext[i] == ids[i];
        }
      }
    }
    if AllLive(cache, ext, now) {
      forall i | 0 <= i < |ids|
        ensures IsLive(cache, ItemKey(ids[i]), now)
      {
        assert ext[i] == ids[i];
      }
      assert ext[|ids|] == id;
    }
  }

  /** With a TTL that is not positive the loop succeeds exactly when every listed id has a live entry. */
  lemma {:induction false} FetchAllWithoutTtl(cache: Cache, ids: seq<int>, now: int, ttl: int, items: int -> FetchOutcome)
    requires ttl <= 0
    ensures FetchAll(cache, ids, now, ttl, items).Ok? <==> AllLive(cache, ids, now)
    decreases |ids|
  {
    if ids != [] {
      var prefix := ids[..|ids| - 1];
      var id := ids[|ids| - 1];
      assert ids == prefix + [id];
      FetchAllWithoutTtl(cache, prefix, now, ttl, items);
      FetchAllWithoutTtlChangesNothing(cache, prefix, now, ttl, items);
      AllLiveSnoc(cache, prefix, id, now);
    }
  }

  /** With a TTL that is not positive, one listed id without a live entry fails the whole loop. */
  lemma FetchAllFailsAt(cache: Cache, ids: seq<int>, i: int, now: int, ttl: int, items: int -> FetchOutcome)
    requires ttl <= 0 && 0 <= i < |ids| && !IsLive(cache, ItemKey(ids[i]), now)
    ensures FetchAll(cache, ids, now, ttl, items) == Err(TtlOutOfRange)
  {
    FetchAllWithoutTtl(cache, ids, now, ttl, items);
    FetchAllWithoutTtlChangesNothing(cache, ids, now, ttl, items);
  }

  lemma PrefixExtend<T>(s: seq<T>, i: int)
    requires 0 <= i < |s|
    ensures s[..i + 1] == s[..i] + [s[i]]
  {
  }

  /** The fetch loop over a list extended by one id is one more lookup after the loop over the list. */
  lemma FetchAllSnoc(cache: Cache, ids: seq<int>, id: int, now: int, ttl: int, items: int -> FetchOutcome)
    requires FetchAll(cache, ids, now, ttl, items).Ok?
    ensures var g := FetchAll(cache, ids, now, ttl, items).value;
      FetchAll(cache, ids + [id], now, ttl, items) ==
        match CachedLookup(g.cache, id, now, ttl, items)
        case Err(e) => Err(e)
        case Ok(l) => Ok(Gathered(
          if IsStory(l.value) then g.bag + [l.value.value] else g.bag,
          l.cache,
          if l.fetched then g.fetched + [id] else g.fetched))
  {
    assert (ids + [id])[..|ids|] == ids;
  }

  /** One turn of the fetch loop, from the list's first `i` ids to its first `i + 1`. */
  lemma FetchAllStep(cache: Cache, ids: seq<int>, i: int, now: int, ttl: int, items: int -> FetchOutcome, g: Gathered)
    requires 0 <= i < |ids|
    requires FetchAll(cache, ids[..i], now, ttl, items) == Ok(g)
    ensures var lookup := CachedLookup(g.cache, ids[i], now, ttl, items);
      var next := FetchAll(cache, ids[..i + 1], now, ttl, items);
      && (lookup.Err? ==> next.Err?)
      && (lookup.Ok? ==> next == Ok(Gathered(
            if IsStory(lookup.value.value) then g.bag + [lookup.value.value.value] else g.bag,
            lookup.value.cache,
            if lookup.value.fetched then g.fetched + [ids[i]] else g.fetched)))
  {
    FetchAllSnoc(cache, ids[..i], ids[i], now, ttl, items);
    PrefixExtend(ids, i);
  }

  /** What an id resolves to within one request at `now`: its live entry, else the caught answer of the client. */
  function Resolved(cache: Cache, id: int, now: int, items: int -> FetchOutcome): Option<HackerNewsItem> {
    var key := ItemKey(id);
    if IsLive(cache, key, now) then cache[key].value else Caught(items(id))
  }

  /** Resolved, for every id of a list. */
  function ResolvedAll(cache: Cache, ids: seq<int>, now: int, items: int -> FetchOutcome): (vs: seq<Option<HackerNewsItem>>)
    ensures |vs| == |ids|
    ensures forall i :: 0 <= i < |ids| ==> vs[i] == Resolved(cache, ids[i], now, items)
    decreases |ids|
  {
    if ids == [] then [] else ResolvedAll(cache, ids[..|ids| - 1], now, items) + [Resolved(cache, ids[|ids| - 1], now, items)]
  }

  /** The items of a list of resolved values that are non-null stories, in order. */
  function Stories(vs: seq<Option<HackerNewsItem>>): (bag: seq<HackerNewsItem>)
    ensures |bag| <= |vs|
    ensures forall x :: x in bag <==> x.itemType == Story && Some(x) in vs
    ensures forall x :: multiset(bag)[x] == if x.itemType == Story then multiset(vs)[Some(x)] else 0
    decreases |vs|
  {
    if vs == [] then []
    else
      var prefix := vs[..|vs| - 1];
      var v := vs[|vs| - 1];
      var rest := Stories(prefix);
      assert vs == prefix + [v];
      assert multiset(vs) == multiset(prefix) + multiset{v};
      if IsStory(v) then
        assert multiset(rest + [v.value]) == multiset(rest) + multiset{v.value};
        rest + [v.value]
      else
        rest
  }

  /** With a positive TTL, one cached lookup gives exactly what the id resolves to. */
  lemma ResolvedIsLookupValue(cache: Cache, id: int, now: int, ttl: int, items: int -> FetchOutcome)
    requires ttl > 0
    ensures CachedLookup(cache, id, now, ttl, items).Ok?
    ensures CachedLookup(cache, id, now, ttl, items).value.value == Resolved(cache, id, now, items)
  {
  }

  /**
   * An entry stored on a miss at `now` is served at every later instant
   * before `now + ttl`, and at none from then on.
   */
  lemma EntryLiveUntilExpiry(cache: Cache, id: int, now: int, ttl: int, items: int -> FetchOutcome, t: int)
    requires ttl > 0 && !IsLive(cache, ItemKey(id), now)
    ensures IsLive(CachedLookup(cache, id, now, ttl, items).value.cache, ItemKey(id), t) <==> t < now + ttl
  {
  }

  /**
   * An id listed twice is asked of the client at most once, yet its story
   * is added to the bag twice: the list is not deduplicated.
   */
  lemma RepeatedIdTwice(cache: Cache, id: int, now: int, ttl: int, items: int -> FetchOutcome)
    requires ttl > 0 && IsStory(Resolved(cache, id, now, items))
    ensures var g := FetchAll(cache, [id, id], now, ttl, items).value;
      var x := Resolved(cache, id, now, items).value;
      && g.bag == [x, x]
      && g.fetched == if IsLive(cache, ItemKey(id), now) then [] else [id]
  {
    var g0 := FetchAll(cache, [], now, ttl, items).value;
    FetchAllSnoc(cache, [], id, now, ttl, items);
    assert [] + [id] == [id];
    var g1 := FetchAll(cache, [id], now, ttl, items).value;
    ResolvedIsLookupValue(cache, id, now, ttl, items);
    FetchAllSnoc(cache, [id], id, now, ttl, items);
    assert [id] + [id] == [id, id];
    assert IsLive(g1.cache, ItemKey(id), now);
  }

  /** The entry an id has once a request at `now` has resolved it. */
  function Refreshed(cache: Cache, id: int, now: int, ttl: int, items: int -> FetchOutcome): CacheEntry {
    var key := ItemKey(id);
    if IsLive(cache, key, now) then cache[key] else CacheEntry(Caught(items(id)), now + ttl)
  }

  ghost function KeysOf(ids: seq<int>): set<string> {
    set id | id in ids :: ItemKey(id)
  }

  /** An id missing from a list has a key that no listed id has. */
  lemma KeyOfUnlisted(ids: seq<int>, id: int)
    requires id !in ids
    ensures ItemKey(id) !in KeysOf(ids)
  {
    forall y | y in ids
      ensures ItemKey(y) != ItemKey(id)
    {
      ItemKeyInjective(y, id);
    }
  }

  /** The cache lemma's statement, for one list. */
  ghost predicate CacheAfter(cache: Cache, c: Cache, ids: seq<int>, now: int, ttl: int, items: int -> FetchOutcome) {
    && c.Keys == cache.Keys + KeysOf(ids)
    && (forall k :: k in cache && k !in KeysOf(ids) ==> c[k] == cache[k])
    && (forall id :: id in ids ==> c[ItemKey(id)] == Refreshed(cache, id, now, ttl, items))
  }

  /** One more lookup keeps CacheAfter, for the list extended by the looked-up id. */
  lemma CacheAfterStep(cache: Cache, g: Cache, prefix: seq<int>, id: int, now: int, ttl: int, items: int -> FetchOutcome)
    requires ttl > 0
    requires CacheAfter(cache, g, prefix, now, ttl, items)
    ensures CachedLookup(g, id, now, ttl, items).Ok?
    ensures CachedLookup(g, id, now, ttl, items).value.value == Resolved(cache, id, now, items)
    ensures CachedLookup(g, id, now, ttl, items).value.fetched <==> id !in prefix && !IsLive(cache, ItemKey(id), now)
    ensures CacheAfter(cache, CachedLookup(g, id, now, ttl, items).value.cache, prefix + [id], now, ttl, items)
  {
    if id in prefix {
      CacheAfterListedId(cache, g, prefix, id, now, ttl, items);
    } else {
      CacheAfterNewId(cache, g, prefix, id, now, ttl, items);
    }
  }

  /** CacheAfterStep for an id the list already held: its entry is live, so nothing changes. */
  lemma CacheAfterListedId(cache: Cache, g: Cache, prefix: seq<int>, id: int, now: int, ttl: int, items: int -> FetchOutcome)
    requires ttl > 0 && id in prefix
    requires CacheAfter(cache, g, prefix, now, ttl, items)
    ensures CachedLookup(g, id, now, ttl, items) == Ok(Lookup(Resolved(cache, id, now, items), g, false))
    ensures CacheAfter(cache, g, prefix + [id], now, ttl, items)
  {
    assert KeysOf(prefix + [id]) == KeysOf(prefix);
    assert IsLive(g, ItemKey(id), now);
  }

  /** CacheAfterStep for an id the list did not hold yet. */
  lemma CacheAfterNewId(cache: Cache, g: Cache, prefix: seq<int>, id: int, now: int, ttl: int, items: int -> FetchOutcome)
    requires ttl > 0 && id !in prefix
    requires CacheAfter(cache, g, prefix, now, ttl, items)
    ensures CachedLookup(g, id, now, ttl, items).value.value == Resolved(cache, id, now, items)
    ensures CachedLookup(g, id, now, ttl, items).value.fetched <==> !IsLive(cache, ItemKey(id), now)
    ensures CacheAfter(cache, CachedLookup(g, id, now, ttl, items).value.cache, prefix + [id], now, ttl, items)
  {
    var c := CachedLookup(g, id, now, ttl, items).value.cache;
    var key := ItemKey(id);
    assert KeysOf(prefix + [id]) == KeysOf(prefix) + {key};
    KeyOfUnlisted(prefix, id);
    assert key in g <==> key in cache;
    assert key in g ==> g[key] == cache[key];
    forall x | x in prefix
      ensures c[ItemKey(x)] == Refreshed(cache, x, now, ttl, items)
    {
      ItemKeyInjective(x, id);
    }
  }

  /**
   * The cache after the fetch loop: every listed id that had no live entry
   * now has the caught answer of the client, expiring `ttl` after `now`;
   * every listed id that had one keeps it; every other key is untouched.
   */
  lemma {:induction false} FetchAllCache(cache: Cache, ids: seq<int>, now: int, ttl: int, items: int -> FetchOutcome)
    requires ttl > 0
    ensures FetchAll(cache, ids, now, ttl, items).Ok?
    ensures var c := FetchAll(cache, ids, now, ttl, items).value.cache;
      && c.Keys == cache.Keys + KeysOf(ids)
      && (forall k :: k in cache && k !in KeysOf(ids) ==> c[k] == cache[k])
      && (forall id :: id in ids ==> c[ItemKey(id)] == Refreshed(cache, id, now, ttl, items))
    decreases |ids|
  {
    if ids == [] {
      assert KeysOf(ids) == {};
    } else {
      var prefix := ids[..|ids| - 1];
      var id := ids[|ids| - 1];
      assert ids == prefix + [id];
      FetchAllCache(cache, prefix, now, ttl, items);
      var g := FetchAll(cache, prefix, now, ttl, items).value;
      CacheAfterStep(cache, g.cache, prefix, id, now, ttl, items);
    }
  }

  /** Within one request each id resolves to its live entry or, failing that, to the client's caught answer. */
  lemma {:induction false} FetchAllBag(cache: Cache, ids: seq<int>, now: int, ttl: int, items: int -> FetchOutcome)
    requires ttl > 0
    ensures FetchAll(cache, ids, now, ttl, items).Ok?
    ensures FetchAll(cache, ids, now, ttl, items).value.bag == Stories(ResolvedAll(cache, ids, now, items))
    decreases |ids|
  {
    if ids != [] {
      var prefix := ids[..|ids| - 1];
      var id := ids[|ids| - 1];
      assert ids == prefix + [id];
      FetchAllBag(cache, prefix, now, ttl, items);
      FetchAllCache(cache, prefix, now, ttl, items);
      var g := FetchAll(cache, prefix, now, ttl, items).value;
      CacheAfterStep(cache, g.cache, prefix, id, now, ttl, items);
      ResolvedAllSnoc(cache, prefix, id, now, items);
      StoriesSnoc(ResolvedAll(cache, prefix, now, items), Resolved(cache, id, now, items));
    }
  }

  lemma ResolvedAllSnoc(cache: Cache, ids: seq<int>, id: int, now: int, items: int -> FetchOutcome)
    ensures ResolvedAll(cache, ids + [id], now, items) == ResolvedAll(cache, ids, now, items) + [Resolved(cache, id, now, items)]
  {
    assert (ids + [id])[..|ids|] == ids;
  }

  lemma StoriesSnoc(vs: seq<Option<HackerNewsItem>>, v: Option<HackerNewsItem>)
    ensures Stories(vs + [v]) == if IsStory(v) then Stories(vs) + [v.value] else Stories(vs)
  {
    assert (vs + [v])[..|vs|] == vs;
  }

  /**
   * The client is asked exactly for the listed ids that had no live entry,
   * and for each of them once, however often it is listed.
   */
  lemma {:induction false} FetchAllFetched(cache: Cache, ids: seq<int>, now: int, ttl: int, items: int -> FetchOutcome)
    requires ttl > 0
    ensures FetchAll(cache, ids, now, ttl, items).Ok?
    ensures var f := FetchAll(cache, ids, now, ttl, items).value.fetched;
      && (forall id :: id in f <==> id in ids && !IsLive(cache, ItemKey(id), now))
      && (forall i, j :: 0 <= i < j < |f| ==> f[i] != f[j])
      && ((forall id :: id in ids ==> IsLive(cache, ItemKey(id), now)) ==> f == [])
    decreases |ids|
  {
    if ids != [] {
      var prefix := ids[..|ids| - 1];
      var id := ids[|ids| - 1];
      assert ids == prefix + [id];
      FetchAllFetched(cache, prefix, now, ttl, items);
      FetchAllCache(cache, prefix, now, ttl, items);
      var g := FetchAll(cache, prefix, now, ttl, items).value;
      CacheAfterStep(cache, g.cache, prefix, id, now, ttl, items);
    }
  }

  /**
   * Across two requests within one TTL window, no id the first request
   * fetched is fetched again by the second, whatever the second lists and
   * whatever the client would now answer.
   */
  lemma NoRefetchWithinTtl(cache: Cache, ids1: seq<int>, ids2: seq<int>, now1: int, now2: int, ttl: int,
                           items1: int -> FetchOutcome, items2: int -> FetchOutcome, id: int)
    requires ttl > 0 && now1 <= now2 < now1 + ttl
    requires id in FetchAll(cache, ids1, now1, ttl, items1).value.fetched
    ensures id !in FetchAll(FetchAll(cache, ids1, now1, ttl, items1).value.cache, ids2, now2, ttl, items2).value.fetched
  {
    var g1 := FetchAll(cache, ids1, now1, ttl, items1).value;
    FetchAllFetched(cache, ids1, now1, ttl, items1);
    FetchAllCache(cache, ids1, now1, ttl, items1);
    FetchAllFetched(g1.cache, ids2, now2, ttl, items2);
    assert g1.cache[ItemKey(id)] == CacheEntry(Caught(items1(id)), now1 + ttl);
  }

  /** A request whose every listed id has a live entry asks the client for nothing and leaves the cache as it was. */
  lemma AllLiveFetchAll(c: Cache, ids: seq<int>, now: int, ttl: int, items: int -> FetchOutcome)
    requires ttl > 0
    requires forall id :: id in ids ==> IsLive(c, ItemKey(id), now)
    ensures FetchAll(c, ids, now, ttl, items).Ok?
    ensures FetchAll(c, ids, now, ttl, items).value.fetched == []
    ensures FetchAll(c, ids, now, ttl, items).value.cache == c
  {
    var g := FetchAll(c, ids, now, ttl, items).value;
    FetchAllFetched(c, ids, now, ttl, items);
    FetchAllCache(c, ids, now, ttl, items);
    forall k | k in g.cache
      ensures k in c && g.cache[k] == c[k]
    {
      if k in KeysOf(ids) {
        var id :| id in ids && ItemKey(id) == k;
      }
    }
  }

  /** After a request at `now1`, every listed id has an entry still live at `now2` holding what it resolved to. */
  lemma LiveWithinTtl(cache: Cache, ids: seq<int>, now1: int, now2: int, ttl: int, items: int -> FetchOutcome)
    requires ttl > 0 && now1 <= now2 < now1 + ttl
    requires forall id :: id in ids && IsLive(cache, ItemKey(id), now1) ==> IsLive(cache, ItemKey(id), now2)
    ensures FetchAll(cache, ids, now1, ttl, items).Ok?
    ensures var c1 := FetchAll(cache, ids, now1, ttl, items).value.cache;
      forall id :: id in ids ==> IsLive(c1, ItemKey(id), now2) && c1[ItemKey(id)].value == Resolved(cache, id, now1, items)
  {
    FetchAllCache(cache, ids, now1, ttl, items);
  }

  /**
   * Repeating a request within the TTL window asks the client for nothing,
   * leaves the cache as it was and gathers the same bag, provided the entries
   * that were live at the first request are still live at the second.
   */
  lemma RepeatWithinTtl(cache: Cache, ids: seq<int>, now1: int, now2: int, ttl: int,
                        items1: int -> FetchOutcome, items2: int -> FetchOutcome)
    requires ttl > 0 && now1 <= now2 < now1 + ttl
    requires forall id :: id in ids && IsLive(cache, ItemKey(id), now1) ==> IsLive(cache, ItemKey(id), now2)
    ensures var g1 := FetchAll(cache, ids, now1, ttl, items1).value;
      var g2 := FetchAll(g1.cache, ids, now2, ttl, items2).value;
      g2.fetched == [] && g2.cache == g1.cache && g2.bag == g1.bag
  {
    var c1 := FetchAll(cache, ids, now1, ttl, items1).value.cache;
    LiveWithinTtl(cache, ids, now1, now2, ttl, items1);
    AllLiveFetchAll(c1, ids, now2, ttl, items2);
    FetchAllBag(cache, ids, now1, ttl, items1);
    FetchAllBag(c1, ids, now2, ttl, items2);
    ResolvedAllFromLive(c1, cache, ids, now1, now2, items1, items2);
  }

  lemma ResolvedAllFromLive(c1: Cache, cache: Cache, ids: seq<int>, now1: int, now2: int,
                            items1: int -> FetchOutcome, items2: int -> FetchOutcome)
    requires forall id :: id in ids ==> IsLive(c1, ItemKey(id), now2) && c1[ItemKey(id)].value == Resolved(cache, id, now1, items1)
    ensures ResolvedAll(c1, ids, now2, items2) == ResolvedAll(cache, ids, now1, items1)
  {
    var a := ResolvedAll(c1, ids, now2, items2);
    var b := ResolvedAll(cache, ids, now1, items1);
    forall i | 0 <= i < |ids|
      ensures a[i] == b[i]
    {
      assert ids[i] in ids;
    }
  }

  /** What one request does: its result, the cache after it, and which client requests it made. */
  datatype Outcome = Outcome(result: Result<seq<StoryDto>, Error>, cache: Cache, listRequested: bool, fetched: seq<int>)

  /** `GetBestStoriesAsync` on a cache map, given the client's answers. */
  function BestStories(limit: int, cache: Cache, listing: ListingOutcome, maxDegreeOfParallelism: int,
                       now: int, ttl: int, items: int -> FetchOutcome, formatUtc: int -> string): (o: Outcome)
    ensures o.listRequested <==> limit > 0
    ensures limit <= 0 ==> o.result == Ok([]) && o.cache == cache && o.fetched == []
    ensures o.result.Err? ==> o.cache == cache && o.fetched == []
    ensures limit > 0 && listing.ListThrew? ==> o.result == Err(ListingFailed)
    ensures limit > 0 && !listing.ListThrew? && (maxDegreeOfParallelism == 0 || maxDegreeOfParallelism < -1) ==>
      o.result == Err(ParallelismOutOfRange)
    ensures limit > 0 && listing.Listed? && (maxDegreeOfParallelism == -1 || maxDegreeOfParallelism > 0) && ttl > 0 ==>
      o.result.Ok?
    ensures o.result.Ok? ==> |o.result.value| <= if limit <= 0 then 0 else limit
    ensures o.result.Ok? ==> forall i, j :: 0 <= i < j < |o.result.value| ==> o.result.value[i].score >= o.result.value[j].score
  {
    if limit <= 0 then
      Outcome(Ok([]), cache, false, [])
    else if listing.ListThrew? then
      Outcome(Err(ListingFailed), cache, true, [])
    else if maxDegreeOfParallelism == 0 || maxDegreeOfParallelism < -1 then
      Outcome(Err(ParallelismOutOfRange), cache, true, [])
    else if listing.ListedNull? then
      Outcome(Err(ListingFailed), cache, true, [])
    else
      match FetchAll(cache, listing.ids, now, ttl, items)
      case Err(e) => Outcome(Err(e), cache, true, [])
      case Ok(g) => Outcome(Ok(MapAll(TopStories(g.bag, limit), formatUtc)), g.cache, true, g.fetched)
  }

  /** A request that gets its list, with a valid configuration, ranks the stories its ids resolve to. */
  lemma BestStoriesResult(limit: int, cache: Cache, ids: seq<int>, maxDegreeOfParallelism: int,
                          now: int, ttl: int, items: int -> FetchOutcome, formatUtc: int -> string)
    requires limit > 0 && ttl > 0
    requires maxDegreeOfParallelism == -1 || maxDegreeOfParallelism > 0
    ensures BestStories(limit, cache, Listed(ids), maxDegreeOfParallelism, now, ttl, items, formatUtc).result
      == Ok(MapAll(TopStories(Stories(ResolvedAll(cache, ids, now, items)), limit), formatUtc))
  {
    FetchAllBag(cache, ids, now, ttl, items);
    var g := FetchAll(cache, ids, now, ttl, items).value;
    assert FetchAll(cache, ids, now, ttl, items) == Ok(g);
    assert g.bag == Stories(ResolvedAll(cache, ids, now, items));
  }

  /** Each ranked story is a non-null Story that one of the listed ids resolved to. */
  lemma RankedFromResolved(limit: int, cache: Cache, ids: seq<int>, now: int, items: int -> FetchOutcome, y: HackerNewsItem)
    requires y in TopStories(Stories(ResolvedAll(cache, ids, now, items)), limit)
    ensures exists k :: 0 <= k < |ids| && Resolved(cache, ids[k], now, items) == Some(y)
    ensures y.itemType == Story
  {
    TopStoriesFromBag(Stories(ResolvedAll(cache, ids, now, items)), limit, y);
    StoryResolved(cache, ids, now, items, y);
  }

  /** Each story of a request's bag is what one of its listed ids resolved to. */
  lemma StoryResolved(cache: Cache, ids: seq<int>, now: int, items: int -> FetchOutcome, y: HackerNewsItem)
    requires y in Stories(ResolvedAll(cache, ids, now, items))
    ensures exists k :: 0 <= k < |ids| && Resolved(cache, ids[k], now, items) == Some(y)
    ensures y.itemType == Story
  {
    var vs := ResolvedAll(cache, ids, now, items);
    assert Some(y) in vs;
    var k :| 0 <= k < |vs| && vs[k] == Some(y);
    assert vs[k] == Resolved(cache, ids[k], now, items);
  }

  /**
   * The records of a ranking: as many as min(limit, number of stories),
   * scores never increasing, and none outscored by a story left out.
   */
  lemma RankedRecords(limit: int, cache: Cache, ids: seq<int>, now: int, items: int -> FetchOutcome, formatUtc: int -> string)
    requires limit > 0
    ensures var stories := Stories(ResolvedAll(cache, ids, now, items));
      var dtos := MapAll(TopStories(stories, limit), formatUtc);
      && |dtos| == Min(limit, |stories|)
      && (forall i, j :: 0 <= i < j < |dtos| ==> dtos[i].score >= dtos[j].score)
      && (forall x, i :: x in multiset(stories) - multiset(TopStories(stories, limit)) && 0 <= i < |dtos| ==>
            x.score <= dtos[i].score)
  {
    var stories := Stories(ResolvedAll(cache, ids, now, items));
    var top := TopStories(stories, limit);
    var dtos := MapAll(top, formatUtc);
    forall x: HackerNewsItem, i | x in multiset(stories) - multiset(top) && 0 <= i < |dtos|
      ensures x.score <= dtos[i].score
    {
      assert top[i] in top;
      TopStoriesIsTopK(stories, limit, x, top[i]);
    }
  }

  /** Every id in a request is resolved even when another id's fetch throws: a throw removes only that id's item. */
  lemma ThrowDropsOnlyThatItem(cache: Cache, ids: seq<int>, now: int, ttl: int, items: int -> FetchOutcome, k: int)
    requires ttl > 0 && 0 <= k < |ids|
    requires items(ids[k]) == Threw && !IsLive(cache, ItemKey(ids[k]), now)
    ensures Resolved(cache, ids[k], now, items).None?
    ensures forall x :: x in FetchAll(cache, ids, now, ttl, items).value.bag <==>
      x.itemType == Story && exists i :: 0 <= i < |ids| && Resolved(cache, ids[i], now, items) == Some(x)
  {
    FetchAllBag(cache, ids, now, ttl, items);
    var bag := Stories(ResolvedAll(cache, ids, now, items));
    forall x
      ensures x in bag <==> x.itemType == Story && exists i :: 0 <= i < |ids| && Resolved(cache, ids[i], now, items) == Some(x)
    {
      if x in bag {
        StoryResolved(cache, ids, now, items, x);
      }
      if x.itemType == Story && exists i :: 0 <= i < |ids| && Resolved(cache, ids[i], now, items) == Some(x) {
        var i :| 0 <= i < |ids| && Resolved(cache, ids[i], now, items) == Some(x);
        ResolvedStoryInBag(cache, ids, now, items, x, i);
      }
    }
  }

  /** A story some listed id resolves to is in the request's bag. */
  lemma ResolvedStoryInBag(cache: Cache, ids: seq<int>, now: int, items: int -> FetchOutcome, x: HackerNewsItem, i: int)
    requires 0 <= i < |ids| && Resolved(cache, ids[i], now, items) == Some(x) && x.itemType == Story
    ensures x in Stories(ResolvedAll(cache, ids, now, items))
  {
    var vs := ResolvedAll(cache, ids, now, items);
    assert vs[i] == Some(x);
  }

  /**
   * A stand-in for the HTTP client (TempletonTestApi/Clients/IHackerNewsClient.cs):
   * it answers from fixed data and records every request, as the tests' mock does.
   */
  class HackerNewsClient {
    /** What the ID-list request does. */
    const bestStoryIds: ListingOutcome
    /** What an item request for each id does. */
    const items: int -> FetchOutcome
    var listRequests: nat
    var itemRequests: seq<int>

    constructor (bestStoryIds: ListingOutcome, items: int -> FetchOutcome)
      ensures this.bestStoryIds == bestStoryIds && this.items == items
      ensures listRequests == 0 && itemRequests == []
    {
      this.bestStoryIds := bestStoryIds;
      this.items := items;
      listRequests := 0;
      itemRequests := [];
    }

    method GetBestStoryIds() returns (ids: ListingOutcome)
      modifies this`listRequests
      ensures ids == bestStoryIds
      ensures listRequests == old(listRequests) + 1
    {
      ids := bestStoryIds;
      listRequests := listRequests + 1;
    }

    method GetItemById(id: int) returns (outcome: FetchOutcome)
      modifies this`itemRequests
      ensures outcome == items(id)
      ensures itemRequests == old(itemRequests) + [id]
    {
      outcome := items(id);
      itemRequests := itemRequests + [id];
    }
  }

  /** The service, holding the shared cache and its configuration. */
  class HackerNewsService {
    const client: HackerNewsClient
    /** `ItemTTL`, in seconds. */
    const itemTtl: int
    const maxDegreeOfParallelism: int
    /** The mapper's ISO-8601 rendering of Unix seconds. */
    const formatUtc: int -> string
    var cache: Cache

    constructor (itemTtlInMinutes: int, maxDegreeOfParallelism: int, client: HackerNewsClient,
                 cache: Cache, formatUtc: int -> string)
      ensures this.itemTtl == itemTtlInMinutes * 60
      ensures this.maxDegreeOfParallelism == maxDegreeOfParallelism
      ensures this.client == client && this.cache == cache && this.formatUtc == formatUtc
    {
      this.client := client;
      this.itemTtl := itemTtlInMinutes * 60;
      this.maxDegreeOfParallelism := maxDegreeOfParallelism;
      this.formatUtc := formatUtc;
      this.cache := cache;
    }

    /** `GetStoryCachedAsync`: get-or-create on the cache under the item's key. */
    method GetStoryCached(id: int, now: int) returns (r: Result<Option<HackerNewsItem>, Error>)
      modifies this`cache, client`itemRequests
      ensures var l := CachedLookup(old(cache), id, now, itemTtl, client.items);
        && (l.Err? ==> r == Err(l.error) && cache == old(cache) && client.itemRequests == old(client.itemRequests))
        && (l.Ok? ==>
              && r == Ok(l.value.value) && cache == l.value.cache
              && client.itemRequests == old(client.itemRequests) + (if l.value.fetched then [id] else []))
    {
      var key := ItemKey(id);
      if key in cache && now < cache[key].absoluteExpiration {
        return Ok(cache[key].value);
      }
      if itemTtl <= 0 {
        return Err(TtlOutOfRange);
      }
      var outcome := client.GetItemById(id);
      var value := match outcome
        case Returned(item) => item
        case Threw => None;
      cache := cache[key := CacheEntry(value, now + itemTtl)];
      r := Ok(value);
    }

    /**
     * The `Parallel.ForEachAsync` loop of `GetBestStoriesAsync`, run over the
     * list in order: each id is resolved through the cache and added to the
     * bag when it is a non-null story; a lookup that throws ends the request.
     */
    method FetchStories(ids: seq<int>, now: int) returns (r: Result<seq<HackerNewsItem>, Error>)
      modifies this`cache, client`itemRequests
      ensures match FetchAll(old(cache), ids, now, itemTtl, client.items)
        case Err(e) => r == Err(e) && cache == old(cache) && client.itemRequests == old(client.itemRequests)
        case Ok(g) => r == Ok(g.bag) && cache == g.cache && client.itemRequests == old(client.itemRequests) + g.fetched
    {
      var bag: seq<HackerNewsItem> := [];
      ghost var fetched: seq<int> := [];
      var i := 0;
      while i < |ids|
        invariant 0 <= i <= |ids|
        invariant FetchAll(old(cache), ids[..i], now, itemTtl, client.items) == Ok(Gathered(bag, cache, fetched))
        invariant client.itemRequests == old(client.itemRequests) + fetched
      {
        ghost var lookup := CachedLookup(cache, ids[i], now, itemTtl, client.items);
        ghost var next := FetchAll(old(cache), ids[..i + 1], now, itemTtl, client.items);
        FetchAllStep(old(cache), ids, i, now, itemTtl, client.items, Gathered(bag, cache, fetched));
        var item := GetStoryCached(ids[i], now);
        if item.Err? {
          FetchAllWithoutTtlChangesNothing(old(cache), ids[..i], now, itemTtl, client.items);
          FetchAllFailsAt(old(cache), ids, i, now, itemTtl, client.items);
          return Err(item.error);
        }
        if item.value.Some? && item.value.value.itemType == Story {
          bag := bag + [item.value.value];
        }
        if lookup.value.fetched {
          fetched := fetched + [ids[i]];
        }
        assert next == Ok(Gathered(bag, cache, fetched));
        i := i + 1;
      }
      assert ids[..|ids|] == ids;
      r := Ok(bag);
    }

    /** `GetBestStoriesAsync`. */
    method GetBestStories(limit: int, now: int) returns (r: Result<seq<StoryDto>, Error>)
      modifies this`cache, client`listRequests, client`itemRequests
      ensures var o := BestStories(limit, old(cache), client.bestStoryIds, maxDegreeOfParallelism,
                                   now, itemTtl, client.items, formatUtc);
        && r == o.result && cache == o.cache
        && client.listRequests == old(client.listRequests) + (if o.listRequested then 1 else 0)
        && client.itemRequests == old(client.itemRequests) + o.fetched
      ensures limit <= 0 ==>
        && r == Ok([]) && cache == old(cache)
        && client.listRequests == old(client.listRequests) && client.itemRequests == old(client.itemRequests)
    {
      if limit <= 0 {
        return Ok([]);
      }
      var listing := client.GetBestStoryIds();
      if listing.ListThrew? {
        return Err(ListingFailed);
      }
      if maxDegreeOfParallelism == 0 || maxDegreeOfParallelism < -1 {
        return Err(ParallelismOutOfRange);
      }
      if listing.ListedNull? {
        return Err(ListingFailed);
      }
      var bag := FetchStories(listing.ids, now);
      if bag.Err? {
        return Err(bag.error);
      }
      r := Ok(MapAll(TopStories(bag.value, limit), formatUtc));
    }
  }
}
