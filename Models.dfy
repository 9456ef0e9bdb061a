/**
 * The records the pipeline works on: the item fetched from Hacker News
 * (TempletonTestApi/Clients/Models/HackerNewsItem.cs) and the story record
 * returned to callers (TempletonTestApi/Contracts/Dtos/StoryDto.cs).
 * The source's 32- and 64-bit integer fields are unbounded here: the core
 * only compares and copies them, so no width matters.
 */
module Models {
  import opened ItemTypes

  /** An item as the client deserialises it; `createdAt` is Unix seconds ("time" on the wire). */
  datatype HackerNewsItem = HackerNewsItem(
    createdBy: string,
    descendants: int,
    id: int,
    kids: seq<int>,
    score: int,
    createdAt: int,
    title: string,
    itemType: ItemType,
    url: string)

  /** The outward story record. */
  datatype StoryDto = StoryDto(
    title: string,
    uri: string,
    postedBy: string,
    time: string,
    score: int,
    commentCount: int)
}
