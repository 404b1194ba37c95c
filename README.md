# Blog posts app: a verified model of its actions, validators and previews

This project models the logic of a small blog application built on Next.js:
the five server actions that create, list, read, update and delete blog posts
behind the identity provider's session; the yup schemas that validate the post
form and the signup form; and the text the post preview derives from the form.

- `wrappers.dfy` (`Wrappers`): `Option` for `T | undefined`, and JavaScript's
  `||` on such a string (`Or`), where an empty string counts as absent.
- `schema.dfy` (`Schema`): a yup string field as a list of `Rule`s. A value is
  accepted when every rule passes. yup runs the whitelist checks (`oneOf`)
  before the ordinary tests, whatever their place in the chain, and runs the
  ordinary tests only when every whitelist check passes; `RunOrder` puts the
  rules in that order, and the message shown (`FieldError`) is that of the
  first failing rule in it. `required` rejects the empty string;
  `min`/`max` bound the length inclusively; `url()`/`email()` let the empty
  string through and otherwise call a format check carried in `Formats`; a
  `matches(/^(?=.*[a-z])…/)` lookahead is satisfied by a character of the
  class that comes before the first line terminator.
- `post_validation.dfy` (`PostValidation`): `postFormSchema` and its meaning.
  A title is accepted iff it has 5 to 100 characters, content iff it has 20
  to 5000, an image URL iff it is non-empty and a URL. The title's message
  says "less than 100 characters", yet 100 are accepted.
- `signup.dfy` (`Signup`): `signupSchema`. The name needs at least 2
  characters, the password at least 8 and one lower-case letter, one
  upper-case letter and one digit before any line break. The confirmation
  must be non-empty and equal to the password; a confirmation that differs
  gets "Passwords must match" even when it is empty. Terms must be exactly
  `true`.
- `post_preview.dfy` (`PostPreview`): the values `PostPreview` computes from
  its props: placeholders, the 200-character cut, the ellipsis flag, when the
  image shows, and the default author name, mode and labels.
- `post_table.dfy` (`PostTable`): the `blogPost` row and the query by author
  ordered newest first (`FindManyByAuthor`), proved to return exactly the
  author's rows, without repeats, in non-increasing `createdAt` order.
- `actions.dfy` (`Actions`): `PostStore`, a class holding the table as a
  `map` from id to post plus the database's clock, with one method per server
  action. The session is an explicit `Caller`. `redirect`, `notFound` and
  `throw` are variants of `Outcome`. Three chained client methods,
  `PublishAndList`, `ReviseAndRead` and `RefuseThenDelete`, take one post
  through create, list, update, another user's refused delete, the author's
  delete, and a final read.
- `create_page.dfy` (`CreatePage`): the create page's own copy of the post
  schema (proved to agree with `postFormSchema`), its inline preview
  (proved to agree with `PostPreview`, an unset input counting as empty), and
  `CreatePostPage`, a class with the page's state: `isLoading`,
  `previewImage` and the form values.

Some behaviour of the code is easy to miss. `addNewPost` validates nothing itself: validation happens in the form
before the action is called. `updatePost` writes without checking that the
caller is the author. `deletePost` reports a missing post with the same
error as a post of another author.

Verify with `dafny verify *.dfy`.

## Model

| member | source | states |
|---|---|---|
| `Wrappers.Or` | app/actions.ts:30-32 | `v \|\| fallback` is one of its operands; it is truthy iff either operand is; a truthy left operand is the result |
| `Schema.FirstLine` | app/signup/page.tsx:35 | the longest prefix that `.*` matches: a prefix free of line terminators, followed by a terminator or the end |
| `Schema.FirstError` | lib/validations/post.ts:3-18 | None iff every rule of the field passes; otherwise the message of a failing rule all of whose predecessors pass |
| `Schema.RunOrder` | app/signup/page.tsx:38-41 | the same rules as declared, every `oneOf` check before every ordinary test; a field without `oneOf` keeps its declared order |
| `Schema.FieldError` | app/signup/page.tsx:21-46 | None iff every declared rule passes; otherwise the message of a failing rule; when a `oneOf` check fails, the message is that of a `oneOf` check; a field without `oneOf` shows the message of its first failing rule in declaration order |
| `Schema.WhitelistsKeepOrder` | app/signup/page.tsx:38-41 | the `oneOf` checks of a field keep their declaration order: the group of a joined list is the joined groups |
| `Schema.OrdinaryKeepsOrder` | lib/validations/post.ts:3-18 | the ordinary tests of a field keep their declaration order in the same sense |
| `Schema.LookaheadMeaning` | app/signup/page.tsx:34-37 | `^(?=.*k)` holds iff some character of class k occurs at an index before which there is no line terminator |
| `PostValidation.TitleMessages` | lib/validations/post.ts:4-8 | the title's message is "required" when empty, "at least 5" below 5, "less than 100" above 100, none otherwise; accepted iff non-empty and 5 ≤ length ≤ 100 |
| `PostValidation.ContentMessages` | lib/validations/post.ts:9-13 | the same for content with bounds 20 and 5000, both inclusive |
| `PostValidation.ImageUrlMessages` | lib/validations/post.ts:14-17 | "required" when empty, "valid URL" when not a URL, none otherwise; accepted iff non-empty and a URL |
| `PostValidation.ValidateMeaning` | lib/validations/post.ts:3-18 | the form has no error iff title, content and image URL are each valid |
| `PostValidation.TitleBoundaries` | lib/validations/post.ts:7-8 | titles of 4 and 101 characters get the min and max messages, 5 and 100 are accepted |
| `PostValidation.ContentBoundaries` | lib/validations/post.ts:12-13 | content of 19 and 5001 characters is rejected, 20 and 5000 accepted |
| `Signup.TermsError` | app/signup/page.tsx:42-45 | from the two tests of the boolean field: no error iff terms is exactly true; unset fails `required` ("must accept the terms"), false fails `oneOf([true])` ("terms and privacy policy") |
| `Signup.NameMessages` | app/signup/page.tsx:22-25 | "required" when empty, "at least 2" when shorter, none otherwise |
| `Signup.EmailMessages` | app/signup/page.tsx:26-29 | "required" when empty, "valid email" when the format check fails, none otherwise |
| `Signup.PasswordMessages` | app/signup/page.tsx:30-37 | "required", then "at least 8", then the character-class message unless a lower-case letter, an upper-case letter and a digit each occur before the first line break |
| `Signup.ConfirmMessages` | app/signup/page.tsx:38-41 | "must match" whenever the confirmation differs from the password, even when it is empty; "please confirm" when both are empty; none otherwise |
| `Signup.ValidateSignupMeaning` | app/signup/page.tsx:21-46 | the signup form has no error iff every field meets its condition |
| `Signup.DigitAfterLineBreakRejected` | app/signup/page.tsx:34-37 | "Password\n1" is refused with the character-class message: its only digit follows a line break |
| `Signup.MixedPasswordAccepted` | app/signup/page.tsx:30-37 | "Password1" passes every password rule |
| `PostPreview.DisplayTitle` | components/post/PostPreview.tsx:30 | never blank: the title when non-empty, else the title placeholder |
| `PostPreview.DisplayContent` | components/post/PostPreview.tsx:31 | never blank: the content when non-empty, else the content placeholder |
| `PostPreview.TruncatedContent` | components/post/PostPreview.tsx:32 | a prefix of the displayed content of length min(200, its length) |
| `PostPreview.ShowEllipsis` | components/post/PostPreview.tsx:33 | true iff the displayed content is longer than 200, iff the cut dropped something |
| `PostPreview.ContentText` | components/post/PostPreview.tsx:76-79 | without ellipsis the paragraph is the whole displayed content; with it, a 200-character prefix of it followed by "..." |
| `PostPreview.PropDefaults` | components/post/PostPreview.tsx:25-27 | leaving out `authorName`, `mode` or `isImageError` renders what passing "Your Name", "create" or false renders |
| `PostPreview.PropsMeaning` | components/post/PostPreview.tsx:25-89 | the label is "Your Name" only for an absent name or that name itself, and an empty name stays empty; "Updated" iff the mode is edit iff the description says "updated"; an image renders iff the URL is non-empty and no error was reported |
| `PostPreview.EmptyContentShowsPlaceholder` | components/post/PostPreview.tsx:31-33 | an empty content shows the whole placeholder, without ellipsis |
| `PostPreview.TruncationMeaning` | components/post/PostPreview.tsx:32-33 | non-empty content of at most 200 characters is shown as is; longer content as its first 200 and "..." |
| `PostTable.InsertNewestFirst` | app/actions.ts:40 | keeps the rows newest first, one row longer, holding the old rows and the new one, and free of repeats when the input was |
| `PostTable.InsertAddsOneRow` | app/actions.ts:40 | the rows after the insertion are the old rows plus exactly the new one, as multisets, repeats included |
| `PostTable.FindManyByAuthor` | app/actions.ts:38-41 | exactly the rows whose authorId is the given one, no row twice, createdAt non-increasing |
| `PostTable.NewestFirstUnique` | app/actions.ts:40 | two strictly newest-first sequences with the same rows are equal, so the query's answer is determined when no two posts share a creation time |
| `Actions.NewPost` | app/actions.ts:25-34 | the new row has the form's title, content and imageUrl; authorImage is the picture or ""; authorName the given name, else the email, else "Unknown"; authorId the id, else "unknown" |
| `Actions.Revised` | app/actions.ts:69-76 | the update writes title, content and imageUrl and keeps id, author fields and createdAt |
| `Actions.AnonymousAuthorCannotDelete` | app/actions.ts:32 | a caller with no id or an empty one creates posts under "unknown" and cannot delete them |
| `Actions.AuthorMayDeleteOwnPost` | app/actions.ts:95 | a caller with a non-empty id passes the authorship check on the posts it creates |
| `Actions.PostStore.AddNewPost` | app/actions.ts:14-35 | unauthenticated: redirect to /api/auth/register, store unchanged; otherwise exactly one new row under the fresh id, every other row unchanged |
| `Actions.PostStore.GetRecentPosts` | app/actions.ts:37-44 | exactly the user's posts (empty when there are none), strictly newest first |
| `Actions.PostStore.GetPostById` | app/actions.ts:46-56 | the stored post when the id is present, the NotFound outcome otherwise |
| `Actions.PostStore.UpdatePost` | app/actions.ts:58-79 | unauthenticated: redirect to register, store unchanged; otherwise only the three fields of that row change, without an authorship check, then redirect to /dashboard |
| `Actions.PostStore.DeletePost` | app/actions.ts:81-104 | unauthenticated: redirect, unchanged; missing or not the caller's post: throws "Unauthorized to delete this post", unchanged; otherwise exactly that row is removed and the result is a redirect to /dashboard |
| `Actions.PublishAndList` | app/actions.ts:14-44 | after its author creates a post, the author's recent posts are exactly the author's rows and the new post is the first of them |
| `Actions.ReviseAndRead` | app/actions.ts:46-79 | after the author's update, reading the post back gives the new title with the authorId unchanged, and only that row changed |
| `Actions.RefuseThenDelete` | app/actions.ts:81-104 | another user's delete throws, and reading the post then returns it unchanged; the author's delete removes it; it is then not found and absent from the author's recent posts |
| `CreatePage.CreateSchemaAgrees` | app/dashboard/create/page.tsx:281-296 | the page's schema reports the same errors as `postFormSchema` on every input, so it accepts exactly the valid posts |
| `CreatePage.InlineTitle` | app/dashboard/create/page.tsx:223 | the heading is never blank, and a typed non-empty title is shown as is |
| `CreatePage.InlineContent` | app/dashboard/create/page.tsx:230-231 | a prefix of length min(200, length) of a non-empty content, else the content placeholder |
| `CreatePage.InlineEllipsis` | app/dashboard/create/page.tsx:232 | "..." shows iff the content is non-empty and the cut dropped some of it |
| `CreatePage.InlinePreviewAgrees` | app/dashboard/create/page.tsx:223-232 | the inline title, content and ellipsis are what `PostPreview` shows, an unset input counting as empty |
| `CreatePage.CreatePostPage.constructor` | app/dashboard/create/page.tsx:34-35 | not loading, no preview image, no form values |
| `CreatePage.CreatePostPage.Edit` | app/dashboard/create/page.tsx:47 | the inputs' new values become the watched values |
| `CreatePage.CreatePostPage.SyncPreviewImage` | app/dashboard/create/page.tsx:50-54 | the preview becomes the URL, and the image shows, when the URL is non-empty and has no URL error; otherwise the preview keeps its value |
| `CreatePage.CreatePostPage.OnPreviewImageError` | app/dashboard/create/page.tsx:206 | an image load error resets the preview to "", so the card shows the placeholder box instead of the image |
| `CreatePage.CreatePostPage.Clear` | app/dashboard/create/page.tsx:176 | the Clear button resets the form values |
| `CreatePage.CreatePostPage.OnSubmit` | app/dashboard/create/page.tsx:56-67 | whatever `addNewPost` yields: not loading, form reset, preview cleared, redirect to /dashboard; the store's rows and clock change as `addNewPost` says |

## Left out

- The database client and the identity provider are not modelled. The table is a `map`, and the session is a `Caller` value passed to each action.
- Ids are generated by the database: `AddNewPost` receives one as `freshId`, required to be unused.
- Timestamps come from a counter, `PostStore.clock`, which the store advances on every create and update. Real clocks, and ties between equal timestamps, are not modelled. The model refreshes `updatedAt` on every update, standing for the database's update timestamp; the database schema file is not part of this model.
- Actions.PostStore.UpdatePost: on a missing id the outcome is only `StoreError` with the store unchanged. What the database client actually reports there is not modelled.
- Database failures of create, find and delete are not modelled. Those calls always succeed in the model.
- The format checks of `url()` and `email()` are yup's own regular expressions. They are the uninterpreted functions of `Formats`.
- Lengths count Dafny characters (Unicode scalar values). JavaScript counts UTF-16 code units, so characters outside the Basic Multilingual Plane count once here and twice there.
- The whitelist-first order of `Schema.RunOrder` is that of yup 1.x. yup 0.x ran `oneOf` after the ordinary tests, which would show "Please confirm your password" for an empty confirmation. The pinned yup version is not part of this model.
- Each server action is one atomic step on the store. Concurrent requests are not modelled. For example, `deletePost`'s `findUnique` and `delete` cannot interleave with another request here.
- String fields are always present values; yup's handling of `undefined` and `null` is modelled only for `terms`. yup's type coercion is left out.
- `handleSubmit`, which calls `onSubmit` only after the schema accepts the form, belongs to react-hook-form and is not modelled. `OnSubmit` takes the submitted data.
- CreatePage.CreatePostPage.OnSubmit: `isLoading` is true only while `addNewPost` runs. The disabled button and overlapping submits are not modelled. A redirect raised inside `addNewPost` leaves its `Outcome` in `added`. The page's own redirect to /dashboard is taken as the final outcome.
- Rendering, styling, icons and date formatting (`toLocaleDateString`) are not modelled. This covers the dashboard and home pages, the skeleton, the tips card, `FormField`, the navigation bar and the mobile menu.
- `PostForm.tsx` and the edit and post pages are not modelled. They are UI around the same actions and preview.
- The signup page's `onSubmit` only logs, waits and shows alerts. It is not modelled.
