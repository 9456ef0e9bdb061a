/**
 * The JSON converter for item kinds (TempletonTestApi/Clients/Converters/ItemTypeConverter.cs):
 * a case-insensitive reader from the wire string and a writer back to it.
 * The JSON reader and writer themselves are not modelled: Read takes the
 * string the reader produced (None for a JSON null) and Write returns the
 * string it would write.
 */
module ItemTypeConverter {
  import opened Wrappers
  import opened ItemTypes

  /** Lower-casing of one character, restricted to ASCII letters. */
  function ToLowerChar(c: char): (l: char)
    ensures 'A' <= c <= 'Z' ==> 'a' <= l <= 'z' && l as int - c as int == 32
    ensures !('A' <= c <= 'Z') ==> l == c
  {
    if 'A' <= c <= 'Z' then (c as int + 32) as char else c
  }

  /** `ToLowerInvariant`, character by character. */
  function ToLowerInvariant(s: string): (r: string)
    ensures |r| == |s|
    ensures forall i :: 0 <= i < |s| ==> r[i] == ToLowerChar(s[i])
  {
    if s == [] then [] else [ToLowerChar(s[0])] + ToLowerInvariant(s[1..])
  }

  /** Reads a kind: null or empty is Unknown, otherwise the lower-cased text is matched. */
  function Read(s: Option<string>): (r: ItemType)
    ensures (s.None? || s.value == "") ==> r == Unknown
    ensures r != Unknown ==> s.Some? && ToLowerInvariant(s.value) == Write(r)
  {
    if s.None? || s.value == "" then Unknown
    else
      var lower := ToLowerInvariant(s.value);
      if lower == "story" then Story
      else if lower == "comment" then Comment
      else if lower == "job" then Job
      else if lower == "poll" then Poll
      else if lower == "pollopt" then PollOption
      else Unknown
  }

  /**
   * Writes a kind as its wire name: a non-empty word of lower-case letters,
   * the enum's `EnumMember` name, and "unknown" for Unknown, which has none.
   */
  function Write(t: ItemType): (w: string)
    ensures |w| > 0
    ensures forall i :: 0 <= i < |w| ==> 'a' <= w[i] <= 'z'
    ensures EnumMemberValue(t).Some? ==> w == EnumMemberValue(t).value
    ensures EnumMemberValue(t).None? ==> w == "unknown"
  {
    match t
    case Story => "story"
    case Comment => "comment"
    case Job => "job"
    case Poll => "poll"
    case PollOption => "pollopt"
    case Unknown => "unknown"
  }

  /** Text without upper-case ASCII letters is left alone by lower-casing. */
  lemma LowerCaseUnchanged(s: string)
    requires forall i :: 0 <= i < |s| ==> !('A' <= s[i] <= 'Z')
    ensures ToLowerInvariant(s) == s
  {
  }

  /** Every name Write produces is already lower case and non-empty. */
  lemma WriteIsLowerCase(t: ItemType)
    ensures Write(t) != ""
    ensures ToLowerInvariant(Write(t)) == Write(t)
  {
    LowerCaseUnchanged(Write(t));
  }

  /** Reading what was written gives back the kind, Unknown included. */
  lemma ReadWriteRoundTrip(t: ItemType)
    ensures Read(Some(Write(t))) == t
  {
    WriteIsLowerCase(t);
  }

  /** Different kinds are written differently. */
  lemma WriteInjective(a: ItemType, b: ItemType)
    ensures Write(a) == Write(b) <==> a == b
  {
  }

  /** Null and empty input read as Unknown. */
  lemma ReadNullOrEmpty()
    ensures Read(None) == Unknown
    ensures Read(Some("")) == Unknown
  {
  }

  /** Reading depends only on the lower-cased text. */
  lemma ReadCaseInsensitive(s: string, u: string)
    requires ToLowerInvariant(s) == ToLowerInvariant(u)
    ensures Read(Some(s)) == Read(Some(u))
  {
    assert |s| == |ToLowerInvariant(s)| == |ToLowerInvariant(u)| == |u|;
    assert s == "" <==> u == "";
  }

  /**
   * A known kind is read exactly from the strings that lower-case to its
   * name; everything else, "unknown" among them, reads as Unknown.
   */
  lemma ReadCharacterisation(s: string, t: ItemType)
    requires t != Unknown
    ensures Read(Some(s)) == t <==> ToLowerInvariant(s) == Write(t)
  {
    WriteIsLowerCase(t);
    if ToLowerInvariant(s) == Write(t) {
      assert s != "";
    }
  }

  /** Any spelling whose letters lower-case to a known kind's name reads as that kind. */
  lemma ReadAnyCasing(s: string, t: ItemType)
    requires t != Unknown
    requires |s| == |Write(t)|
    requires forall i :: 0 <= i < |s| ==> ToLowerChar(s[i]) == Write(t)[i]
    ensures Read(Some(s)) == t
  {
    assert ToLowerInvariant(s) == Write(t);
    ReadCharacterisation(s, t);
  }

  /** "Story", "STORY" and "story" all read as Story; "pollopt" reads as PollOption. */
  lemma ReadExamples()
    ensures Read(Some("Story")) == Story
    ensures Read(Some("STORY")) == Story
    ensures Read(Some("story")) == Story
    ensures Read(Some("pollopt")) == PollOption
  {
    ReadAnyCasing("Story", Story);
    ReadAnyCasing("STORY", Story);
    ReadAnyCasing("story", Story);
    ReadAnyCasing("pollopt", PollOption);
  }

  /** The written name of Unknown reads back as Unknown. */
  lemma ReadUnknownName()
    ensures Read(Some("unknown")) == Unknown
  {
    WriteIsLowerCase(Unknown);
  }

  /** A word that is not a kind's name, in any casing, reads as Unknown. */
  lemma ReadUnrecognised()
    ensures Read(Some("stories")) == Unknown
    ensures Read(Some("Stories")) == Unknown
  {
    LowerCaseUnchanged("stories");
    ReadCaseInsensitive("Stories", "stories");
  }
}
