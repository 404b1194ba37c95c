/**
 * The create-post page: its own copy of the post schema, the inline preview
 * it renders from the watched form values, and the state it keeps between
 * renders (`isLoading`, `previewImage` and the form's values).
 */
module CreatePage {
  import opened Wrappers
  import opened Schema
  import PostValidation
  import PostPreview
  import opened PostTable
  import opened Actions

  /** `createPostSchema`, declared by the page beside the shared one. */
  const CreatePostSchema := PostValidation.PostSchema(
    [Required("Title is required"), Min(5, "Title must be at least 5 characters"),
     Max(100, "Title must be less than 100 characters")],
    [Required("Content is required"), Min(20, "Content must be at least 20 characters"),
     Max(5000, "Content must be less than 5000 characters")],
    [Required("Image URL is required"), Url("Please enter a valid URL")])

  /** The page's schema gives every input the same messages as `postFormSchema`, so it accepts the same inputs. */
  lemma CreateSchemaAgrees(title: string, content: string, imageUrl: string, f: Formats)
    ensures PostValidation.Validate(CreatePostSchema, title, content, imageUrl, f)
            == PostValidation.Validate(PostValidation.PostFormSchema, title, content, imageUrl, f)
    ensures PostValidation.Validate(CreatePostSchema, title, content, imageUrl, f) == PostValidation.NoErrors
            <==> PostValidation.ValidPost(title, content, imageUrl, f)
  {
    PostValidation.ValidateMeaning(title, content, imageUrl, f);
  }

  /** What `watch` returns for each input; None until the input holds a value. */
  datatype FormValues = FormValues(title: Option<string>, content: Option<string>, imageUrl: Option<string>)

  const Unfilled := FormValues(None, None, None)

  /** `watch("title") || placeholder`: the heading is never blank, and a typed title shows as is. */
  function InlineTitle(values: FormValues): (r: string)
    ensures r != ""
    ensures Truthy(values.title) ==> r == values.title.value
  {
    Or(values.title, PostPreview.TitlePlaceholder)
  }

  /** `watch("content")?.slice(0, 200) || placeholder`: the cut comes before the fallback. */
  function InlineContent(values: FormValues): (r: string)
    ensures Truthy(values.content) ==>
              r <= values.content.value && |r| == PostPreview.Min(200, |values.content.value|)
    ensures !Truthy(values.content) ==> r == PostPreview.ContentPlaceholder
  {
    var cut := if values.content.Some? then
                 Some(if |values.content.value| <= 200 then values.content.value else values.content.value[..200])
               else None;
    Or(cut, PostPreview.ContentPlaceholder)
  }

  /** `watch("content")?.length > 200`: the ellipsis shows exactly when the cut dropped some of the content. */
  function InlineEllipsis(values: FormValues): (r: bool)
    ensures r <==> Truthy(values.content) && InlineContent(values) != values.content.value
  {
    values.content.Some? && |values.content.value| > 200
  }

  /** The inline preview shows what `PostPreview` shows, an unset input counting as empty. */
  lemma InlinePreviewAgrees(values: FormValues)
    ensures InlineContent(values) == PostPreview.TruncatedContent(if values.content.Some? then values.content.value else "")
    ensures InlineEllipsis(values) == PostPreview.ShowEllipsis(if values.content.Some? then values.content.value else "")
    ensures InlineTitle(values) == PostPreview.DisplayTitle(if values.title.Some? then values.title.value else "")
  {
    var c := if values.content.Some? then values.content.value else "";
    if c == "" {
      assert |PostPreview.ContentPlaceholder| <= 200;
    } else {
      assert PostPreview.DisplayContent(c) == c;
    }
  }

  class CreatePostPage {
    var isLoading: bool
    var previewImage: string
    var values: FormValues

    constructor ()
      ensures !isLoading && previewImage == "" && values == Unfilled
    {
      isLoading := false;
      previewImage := "";
      values := Unfilled;
    }

    /** The inputs bound with `register`: the user's typing replaces the watched values. */
    method Edit(newValues: FormValues)
      modifies this`values
      ensures values == newValues
    {
      values := newValues;
    }

    /** The effect on `imageUrl`: only a non-empty URL without a URL error replaces the preview. */
    method SyncPreviewImage(imageUrlHasError: bool)
      modifies this`previewImage
      ensures Truthy(values.imageUrl) && !imageUrlHasError ==> previewImage == values.imageUrl.value && ShowsPreviewImage()
      ensures !(Truthy(values.imageUrl) && !imageUrlHasError) ==> previewImage == old(previewImage)
    {
      if Truthy(values.imageUrl) && !imageUrlHasError {
        previewImage := values.imageUrl.value;
      }
    }

    /** The image's `onError`: the preview falls back to the placeholder. */
    method OnPreviewImageError()
      modifies this`previewImage
      ensures previewImage == "" && !ShowsPreviewImage()
    {
      previewImage := "";
    }

    /** The "Clear" button: `reset()`. */
    method Clear()
      modifies this`values
      ensures values == Unfilled
    {
      values := Unfilled;
    }

    /** Whether the preview card renders an image rather than the placeholder box. */
    function ShowsPreviewImage(): bool
      reads this
    {
      Truthy(Some(previewImage))
    }

    /**
     * `onSubmit`: calls `addNewPost`, and whatever it yields the `finally`
     * block stops loading, resets the form, clears the preview and
     * redirects to the dashboard.
     */
    method OnSubmit(store: PostStore, caller: Caller, data: CreatePostFormData, freshId: Id)
      returns (added: Outcome<()>, o: Outcome<()>)
      requires store.Valid() && freshId !in store.posts
      modifies this, store
      ensures store.Valid()
      ensures !isLoading && values == Unfilled && previewImage == "" && !ShowsPreviewImage()
      ensures o == Redirect(DashboardUrl)
      ensures !caller.isAuthenticated ==>
                added == Redirect(RegisterUrl) && store.posts == old(store.posts) && store.clock == old(store.clock)
      ensures caller.isAuthenticated ==>
                && added == Return(())
                && store.posts == old(store.posts)[freshId := NewPost(caller, data, freshId, old(store.clock))]
                && store.clock == old(store.clock) + 1
    {
      isLoading := true;
      added := store.AddNewPost(caller, data, freshId);
      isLoading := false;
      values := Unfilled;
      previewImage := "";
      o := Redirect(DashboardUrl);
    }
  }
}
