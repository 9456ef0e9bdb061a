/** The kinds of Hacker News item (TempletonTestApi/Clients/Enums/ItemType.cs). */
module ItemTypes {
  import opened Wrappers

  /** The enum's members, in declaration order; Unknown (= 0) is the default. */
  datatype ItemType = Unknown | Story | Comment | Job | Poll | PollOption

  /** The `EnumMember` value declared on each member; Unknown carries none. */
  function EnumMemberValue(t: ItemType): (v: Option<string>)
    ensures v.None? <==> t == Unknown
  {
    match t
    case Unknown => None
    case Story => Some("story")
    case Comment => Some("comment")
    case Job => Some("job")
    case Poll => Some("poll")
    case PollOption => Some("pollopt")
  }
}
