/** `postFormSchema`: the validation of the post form (title, content, image URL). */
module PostValidation {
  import opened Wrappers
  import opened Schema

  /** An object schema with the three fields of a post form. */
  datatype PostSchema = PostSchema(title: seq<Rule>, content: seq<Rule>, imageUrl: seq<Rule>)

  /** The message of each field, or None where the field is accepted. */
  datatype PostErrors = PostErrors(title: Option<string>, content: Option<string>, imageUrl: Option<string>)

  const NoErrors := PostErrors(None, None, None)

  const TitleRequired := "Title is required"
  const TitleTooShort := "Title must be at least 5 characters"
  const TitleTooLong := "Title must be less than 100 characters"
  const ContentRequired := "Content is required"
  const ContentTooShort := "Content must be at least 20 characters"
  const ContentTooLong := "Content must be less than 5000 characters"
  const ImageUrlRequired := "Image URL is required"
  const ImageUrlInvalid := "Please enter a valid URL"

  const PostFormSchema := PostSchema(
    [Required(TitleRequired), Min(5, TitleTooShort), Max(100, TitleTooLong)],
    [Required(ContentRequired), Min(20, ContentTooShort), Max(5000, ContentTooLong)],
    [Required(ImageUrlRequired), Url(ImageUrlInvalid)])

  function Validate(schema: PostSchema, title: string, content: string, imageUrl: string, f: Formats): PostErrors {
    PostErrors(FieldError(schema.title, title, f),
               FieldError(schema.content, content, f),
               FieldError(schema.imageUrl, imageUrl, f))
  }

  // The accepted values, stated directly; both bounds are inclusive.

  predicate ValidTitle(title: string) {
    title != "" && 5 <= |title| <= 100
  }

  predicate ValidContent(content: string) {
    content != "" && 20 <= |content| <= 5000
  }

  predicate ValidImageUrl(imageUrl: string, f: Formats) {
    imageUrl != "" && f.isUrl(imageUrl)
  }

  predicate ValidPost(title: string, content: string, imageUrl: string, f: Formats) {
    ValidTitle(title) && ValidContent(content) && ValidImageUrl(imageUrl, f)
  }

  /** The title's message: required, then the lower bound, then the upper bound. */
  lemma TitleMessages(title: string, f: Formats)
    ensures FieldError(PostFormSchema.title, title, f) ==
            if title == "" then Some(TitleRequired)
            else if |title| < 5 then Some(TitleTooShort)
            else if |title| > 100 then Some(TitleTooLong)
            else None
    ensures FieldError(PostFormSchema.title, title, f) == None <==> ValidTitle(title)
  {
    var required, min, max := Required(TitleRequired), Min(5, TitleTooShort), Max(100, TitleTooLong);
    assert RunOrder(PostFormSchema.title) == PostFormSchema.title;
    assert PostFormSchema.title == [required] + ([min] + ([max] + []));
    FirstErrorCons(required, [min] + ([max] + []), title, f);
    FirstErrorCons(min, [max] + [], title, f);
    FirstErrorCons(max, [], title, f);
  }

  lemma ContentMessages(content: string, f: Formats)
    ensures FieldError(PostFormSchema.content, content, f) ==
            if content == "" then Some(ContentRequired)
            else if |content| < 20 then Some(ContentTooShort)
            else if |content| > 5000 then Some(ContentTooLong)
            else None
    ensures FieldError(PostFormSchema.content, content, f) == None <==> ValidContent(content)
  {
    var required, min, max := Required(ContentRequired), Min(20, ContentTooShort), Max(5000, ContentTooLong);
    assert RunOrder(PostFormSchema.content) == PostFormSchema.content;
    assert PostFormSchema.content == [required] + ([min] + ([max] + []));
    FirstErrorCons(required, [min] + ([max] + []), content, f);
    FirstErrorCons(min, [max] + [], content, f);
    FirstErrorCons(max, [], content, f);
  }

  lemma ImageUrlMessages(imageUrl: string, f: Formats)
    ensures FieldError(PostFormSchema.imageUrl, imageUrl, f) ==
            if imageUrl == "" then Some(ImageUrlRequired)
            else if !f.isUrl(imageUrl) then Some(ImageUrlInvalid)
            else None
    ensures FieldError(PostFormSchema.imageUrl, imageUrl, f) == None <==> ValidImageUrl(imageUrl, f)
  {
    var required, url := Required(ImageUrlRequired), Url(ImageUrlInvalid);
    assert RunOrder(PostFormSchema.imageUrl) == PostFormSchema.imageUrl;
    assert PostFormSchema.imageUrl == [required] + ([url] + []);
    FirstErrorCons(required, [url] + [], imageUrl, f);
    FirstErrorCons(url, [], imageUrl, f);
  }

  /** The form is accepted exactly when each of its three fields is. */
  lemma ValidateMeaning(title: string, content: string, imageUrl: string, f: Formats)
    ensures Validate(PostFormSchema, title, content, imageUrl, f) == NoErrors
            <==> ValidPost(title, content, imageUrl, f)
  {
    TitleMessages(title, f);
    ContentMessages(content, f);
    ImageUrlMessages(imageUrl, f);
  }

  /** Both bounds are inclusive: 5 and 100 characters are accepted, 4 and 101 are not. */
  lemma TitleBoundaries(f: Formats)
    ensures FieldError(PostFormSchema.title, seq(4, _ => 'a'), f) == Some(TitleTooShort)
    ensures FieldError(PostFormSchema.title, seq(5, _ => 'a'), f) == None
    ensures FieldError(PostFormSchema.title, seq(100, _ => 'a'), f) == None
    ensures FieldError(PostFormSchema.title, seq(101, _ => 'a'), f) == Some(TitleTooLong)
  {
    TitleMessages(seq(4, _ => 'a'), f);
    TitleMessages(seq(5, _ => 'a'), f);
    TitleMessages(seq(100, _ => 'a'), f);
    TitleMessages(seq(101, _ => 'a'), f);
  }

  /** 19 characters of content are rejected, 20 and 5000 accepted, 5001 rejected. */
  lemma ContentBoundaries(f: Formats)
    ensures FieldError(PostFormSchema.content, seq(19, _ => 'a'), f) == Some(ContentTooShort)
    ensures FieldError(PostFormSchema.content, seq(20, _ => 'a'), f) == None
    ensures FieldError(PostFormSchema.content, seq(5000, _ => 'a'), f) == None
    ensures FieldError(PostFormSchema.content, seq(5001, _ => 'a'), f) == Some(ContentTooLong)
  {
    ContentMessages(seq(19, _ => 'a'), f);
    ContentMessages(seq(20, _ => 'a'), f);
    ContentMessages(seq(5000, _ => 'a'), f);
    ContentMessages(seq(5001, _ => 'a'), f);
  }
}
