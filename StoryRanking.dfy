/**
 * The ranking step of the best-stories pipeline
 * (TempletonTestApi/Services/HackerNewsService.cs, the LINQ chain
 * `OrderByDescending(s => s.Score).Take(limit)`), as pure functions.
 * `OrderByDescending` is a stable sort; it is modelled by insertion, which
 * keeps earlier items ahead of later ones with the same score.
 */
module StoryRanking {
  import opened Models

  /** Scores never increase from one position to a later one. */
  predicate SortedByScoreDesc(s: seq<HackerNewsItem>) {
    forall i, j :: 0 <= i < j < |s| ==> s[i].score >= s[j].score
  }

  function Min(a: int, b: int): int {
    if a <= b then a else b
  }

  /** Puts `x` before the first item that does not outscore it. */
  function InsertByScore(x: HackerNewsItem, s: seq<HackerNewsItem>): (r: seq<HackerNewsItem>)
    requires SortedByScoreDesc(s)
    ensures |r| == |s| + 1
    ensures r[0] == x || (s != [] && r[0] == s[0])
    ensures SortedByScoreDesc(r)
    ensures multiset(r) == multiset(s) + multiset{x}
  {
    if s == [] || s[0].score <= x.score then
      [x] + s
    else
      var rest := InsertByScore(x, s[1..]);
      assert s == [s[0]] + s[1..];
      assert rest[0].score <= s[0].score;
      [s[0]] + rest
  }

  /** `OrderByDescending(s => s.Score)`: a permutation of the input, highest score first. */
  function SortByScoreDesc(s: seq<HackerNewsItem>): (r: seq<HackerNewsItem>)
    ensures SortedByScoreDesc(r)
    ensures multiset(r) == multiset(s)
  {
    if s == [] then []
    else
      assert s == [s[0]] + s[1..];
      InsertByScore(s[0], SortByScoreDesc(s[1..]))
  }

  /** LINQ `Take(n)`: the first n elements, all of them if there are fewer, none if n <= 0. */
  function Take<T>(s: seq<T>, n: int): (r: seq<T>)
    ensures |r| == if n <= 0 then 0 else Min(n, |s|)
    ensures r <= s
  {
    if n <= 0 then [] else if n < |s| then s[..n] else s
  }

  /** A prefix and the rest together hold the whole sequence's elements. */
  lemma PrefixMultiset<T>(r: seq<T>, s: seq<T>)
    requires r <= s
    ensures multiset(s) == multiset(r) + multiset(s[|r|..])
  {
    assert s == r + s[|r|..];
  }

  /** The ranked stories: sorted by descending score, then cut to `limit`. */
  function TopStories(bag: seq<HackerNewsItem>, limit: int): (r: seq<HackerNewsItem>)
    ensures r <= SortByScoreDesc(bag)
    ensures SortedByScoreDesc(r)
    ensures |r| == if limit <= 0 then 0 else Min(limit, |bag|)
    ensures multiset(r) <= multiset(bag)
  {
    var sorted := SortByScoreDesc(bag);
    var r := Take(sorted, limit);
    PrefixMultiset(r, sorted);
    r
  }

  /**
   * No item left out of the ranking scores higher than any item in it
   * (ties at the cut may go either way).
   */
  lemma TopStoriesIsTopK(bag: seq<HackerNewsItem>, limit: int, x: HackerNewsItem, y: HackerNewsItem)
    requires x in multiset(bag) - multiset(TopStories(bag, limit))
    requires y in TopStories(bag, limit)
    ensures x.score <= y.score
  {
    var sorted := SortByScoreDesc(bag);
    var r := TopStories(bag, limit);
    PrefixMultiset(r, sorted);
    assert x in multiset(sorted[|r|..]);
    var j :| |r| <= j < |sorted| && sorted[j] == x;
    var i :| 0 <= i < |r| && r[i] == y;
    assert sorted[i] == y;
  }

  /** Every ranked item comes from the bag, so whatever the bag excludes the ranking excludes. */
  lemma TopStoriesFromBag(bag: seq<HackerNewsItem>, limit: int, y: HackerNewsItem)
    requires y in TopStories(bag, limit)
    ensures y in bag
  {
    var r := TopStories(bag, limit);
    assert y in multiset(r);
  }
}
