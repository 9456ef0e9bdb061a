/**
 * The mapping from a fetched item to the outward story record
 * (TempletonTestApi/Extensions/Mappers/HackerStoryMapper.cs).
 * The ISO-8601 rendering of the timestamp is a library call; it is the
 * parameter `formatUtc`, a function of the Unix seconds alone.
 */
module HackerStoryMapper {
  import opened Models

  /** Renames the item's fields into a story record. */
  function MapToDto(story: HackerNewsItem, formatUtc: int -> string): (dto: StoryDto)
    ensures dto.title == story.title
    ensures dto.uri == story.url
    ensures dto.postedBy == story.createdBy
    ensures dto.time == formatUtc(story.createdAt)
    ensures dto.score == story.score
    ensures dto.commentCount == story.descendants
  {
    StoryDto(
      title := story.title,
      uri := story.url,
      postedBy := story.createdBy,
      time := formatUtc(story.createdAt),
      score := story.score,
      commentCount := story.descendants)
  }

  /**
   * Two items map to the same record exactly when they agree on the six
   * copied fields, the timestamp compared through its rendering; the id,
   * kind and kids never reach the record.
   */
  lemma MapToDtoEqual(a: HackerNewsItem, b: HackerNewsItem, formatUtc: int -> string)
    ensures MapToDto(a, formatUtc) == MapToDto(b, formatUtc) <==>
      && a.title == b.title
      && a.url == b.url
      && a.createdBy == b.createdBy
      && formatUtc(a.createdAt) == formatUtc(b.createdAt)
      && a.score == b.score
      && a.descendants == b.descendants
  {
  }

  /** The rendered time depends on `createdAt` only. */
  lemma TimeDependsOnlyOnCreatedAt(a: HackerNewsItem, b: HackerNewsItem, formatUtc: int -> string)
    requires a.createdAt == b.createdAt
    ensures MapToDto(a, formatUtc).time == MapToDto(b, formatUtc).time
  {
  }

  /** Maps every item of a ranked sequence, keeping the order (LINQ `Select`). */
  function MapAll(stories: seq<HackerNewsItem>, formatUtc: int -> string): (dtos: seq<StoryDto>)
    ensures |dtos| == |stories|
    ensures forall i :: 0 <= i < |stories| ==> dtos[i] == MapToDto(stories[i], formatUtc)
  {
    if stories == [] then []
    else [MapToDto(stories[0], formatUtc)] + MapAll(stories[1..], formatUtc)
  }
}
