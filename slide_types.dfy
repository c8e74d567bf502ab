/**
 * The slide record of the deck (types.ts).  Optional string and list fields
 * are `Option`s; optional boolean flags are plain `bool`s, an absent flag
 * being read as `false`, which is how the viewer's truthiness tests treat it.
 */
module SlideTypes {
  import opened Wrappers

  datatype SlideContent = SlideContent(
    id: int,
    section: string,
    title: string,
    subtitle: Option<string>,
    content: Option<seq<string>>,
    code: Option<string>,
    codeOutput: Option<string>,
    businessApplication: Option<string>,
    isTitleSlide: bool,
    isSectionTitle: bool,
    isJoinDiagram: bool,
    isFinalChallenge: bool)

  /**
   * JavaScript truthiness of an optional string: an absent string and the
   * empty string are falsy, every other string is truthy.
   */
  predicate Truthy(s: Option<string>): (b: bool)
    ensures s == None ==> !b
    ensures s == Some("") ==> !b
    ensures s.Some? && |s.value| > 0 ==> b
  {
    s.Some? && s.value != ""
  }
}
