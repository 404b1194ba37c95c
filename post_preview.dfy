/** The values the post preview card derives from its props. */
module PostPreview {
  import opened Wrappers

  datatype Mode = Create | Edit

  /** The optional props are None when the caller leaves them out (their defaults then apply). */
  datatype PreviewProps = PreviewProps(title: string, content: string, imageUrl: string,
                                       authorName: Option<string>, mode: Option<Mode>,
                                       isImageError: Option<bool>)

  const TitlePlaceholder := "Your post title will appear here"
  const ContentPlaceholder := "Your post content will appear here..."
  const DefaultAuthorName := "Your Name"
  /** The number of characters of content the card shows. */
  const PreviewLength := 200

  function Min(a: int, b: int): int { if a <= b then a else b }

  /** `title || placeholder`: the heading is never blank. */
  function DisplayTitle(title: string): (r: string)
    ensures r != ""
    ensures title != "" ==> r == title
    ensures title == "" ==> r == TitlePlaceholder
  {
    Or(Some(title), TitlePlaceholder)
  }

  /** `content || placeholder`. */
  function DisplayContent(content: string): (r: string)
    ensures r != ""
    ensures content != "" ==> r == content
    ensures content == "" ==> r == ContentPlaceholder
  {
    Or(Some(content), ContentPlaceholder)
  }

  /** `displayContent.slice(0, 200)`: the first 200 characters, or all of them when there are fewer. */
  function TruncatedContent(content: string): (r: string)
    ensures r <= DisplayContent(content)
    ensures |r| == Min(PreviewLength, |DisplayContent(content)|)
  {
    var d := DisplayContent(content);
    if |d| <= PreviewLength then d else d[..PreviewLength]
  }

  /** `displayContent.length > 200`. */
  function ShowEllipsis(content: string): (r: bool)
    ensures r <==> TruncatedContent(content) != DisplayContent(content)
    ensures r <==> |DisplayContent(content)| > PreviewLength
  {
    |DisplayContent(content)| > PreviewLength
  }

  /** The text of the content paragraph: the truncated content, then "..." when something was cut. */
  function ContentText(content: string): (r: string)
    ensures !ShowEllipsis(content) ==> r == DisplayContent(content)
    ensures ShowEllipsis(content) ==> |r| == PreviewLength + 3 && r[..PreviewLength] <= DisplayContent(content)
    ensures ShowEllipsis(content) ==> r[PreviewLength..] == "..."
  {
    TruncatedContent(content) + (if ShowEllipsis(content) then "..." else "")
  }

  /** `imageUrl && !isImageError`, the error flag defaulting to false. */
  function ShowImage(props: PreviewProps): bool {
    var isImageError := if props.isImageError.Some? then props.isImageError.value else false;
    Truthy(Some(props.imageUrl)) && !isImageError
  }

  /** The `authorName = "Your Name"` default parameter. */
  function AuthorLabel(props: PreviewProps): string {
    if props.authorName.Some? then props.authorName.value else DefaultAuthorName
  }

  /** The `mode = "create"` default parameter. */
  function EffectiveMode(props: PreviewProps): Mode {
    if props.mode.Some? then props.mode.value else Create
  }

  /** The label before the date. */
  function DateLabel(props: PreviewProps): string {
    if EffectiveMode(props) == Edit then "Updated" else "Published"
  }

  /** The card's description. */
  function Description(props: PreviewProps): string {
    "See how your " + (if EffectiveMode(props) == Edit then "updated " else "") + "post will look"
  }

  /** Leaving an optional prop out renders the same card as passing its default value. */
  lemma PropDefaults(props: PreviewProps)
    ensures AuthorLabel(props.(authorName := None)) == AuthorLabel(props.(authorName := Some(DefaultAuthorName)))
    ensures DateLabel(props.(mode := None)) == DateLabel(props.(mode := Some(Create)))
    ensures Description(props.(mode := None)) == Description(props.(mode := Some(Create)))
    ensures ShowImage(props.(isImageError := None)) == ShowImage(props.(isImageError := Some(false)))
  {
  }

  /**
   * What the optional props decide: a default applies only to a prop left
   * out, so an empty author name stays empty; the two mode texts switch
   * together; an image needs a URL and is hidden by a reported error.
   */
  lemma PropsMeaning(props: PreviewProps)
    ensures AuthorLabel(props) == DefaultAuthorName <==> props.authorName in {None, Some(DefaultAuthorName)}
    ensures props.authorName == Some("") ==> AuthorLabel(props) == ""
    ensures DateLabel(props) == "Updated" <==> props.mode == Some(Edit)
    ensures DateLabel(props) == "Updated" <==> Description(props) == "See how your updated post will look"
    ensures ShowImage(props) ==> props.imageUrl != ""
    ensures props.isImageError == Some(true) ==> !ShowImage(props)
    ensures props.imageUrl != "" && props.isImageError != Some(true) ==> ShowImage(props)
  {
  }

  /** The placeholder is shorter than the cut, so an empty content shows it whole, without "...". */
  lemma EmptyContentShowsPlaceholder()
    ensures ContentText("") == ContentPlaceholder
    ensures !ShowEllipsis("")
  {
  }

  /** Content of at most 200 characters is shown as it is; longer content shows its first 200. */
  lemma {:induction false} TruncationMeaning(content: string)
    requires content != ""
    ensures |content| <= PreviewLength ==> ContentText(content) == content
    ensures |content| > PreviewLength ==> ContentText(content) == content[..PreviewLength] + "..."
  {
    assert DisplayContent(content) == content;
    if |content| > PreviewLength {
      assert TruncatedContent(content) == content[..PreviewLength];
    }
  }
}
