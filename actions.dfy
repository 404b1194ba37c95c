/**
 * The server actions over the post table. The identity provider's session is
 * an explicit `Caller`, the table a map held by `PostStore`, and the
 * framework's `redirect`, `notFound` and `throw` are variants of `Outcome`.
 */
module Actions {
  import opened Wrappers
  import opened PostTable

  datatype CreatePostFormData = CreatePostFormData(title: string, content: string, imageUrl: string)

  /** What the session yields: `isAuthenticated()` and the fields of `getUser()`, each possibly absent. */
  datatype Caller = Caller(isAuthenticated: bool, id: Option<string>, givenName: Option<string>,
                           email: Option<string>, picture: Option<string>)

  datatype Outcome<+T> =
    | Return(value: T)
    | Redirect(url: string)
    | NotFound
    | Throw(message: string)
      /** The database client failed; what it reports is not part of this model. */
    | StoreError

  const RegisterUrl := "/api/auth/register"
  const DashboardUrl := "/dashboard"
  const UnauthorizedToDelete := "Unauthorized to delete this post"

  /** The row `addNewPost` asks the database to create, at time `now`. */
  function NewPost(caller: Caller, data: CreatePostFormData, id: Id, now: nat): (p: Post)
    ensures p.id == id && p.title == data.title && p.content == data.content && p.imageUrl == data.imageUrl
    ensures p.createdAt == now && p.updatedAt == now
    ensures p.authorImage == (if Truthy(caller.picture) then caller.picture.value else "")
    ensures p.authorName == (if Truthy(caller.givenName) then caller.givenName.value
                             else if Truthy(caller.email) then caller.email.value
                             else "Unknown")
    ensures p.authorId == (if Truthy(caller.id) then caller.id.value else "unknown")
    ensures p.authorName != "" && p.authorId != ""
  {
    Post(id, data.title, data.content, data.imageUrl,
         Or(caller.id, "unknown"),
         Or(caller.givenName, Or(caller.email, "Unknown")),
         Or(caller.picture, ""),
         now, now)
  }

  /** The row after `updatePost` wrote the three form fields at time `now`. */
  function Revised(p: Post, data: CreatePostFormData, now: nat): (q: Post)
    ensures q.title == data.title && q.content == data.content && q.imageUrl == data.imageUrl
    ensures q.id == p.id && q.authorId == p.authorId && q.authorName == p.authorName
    ensures q.authorImage == p.authorImage && q.createdAt == p.createdAt
    ensures q.updatedAt == now
  {
    p.(title := data.title, content := data.content, imageUrl := data.imageUrl, updatedAt := now)
  }

  /** `post.authorId !== user?.id` fails: the caller's id is present and equals the author's. */
  predicate MayDelete(p: Post, caller: Caller) {
    caller.id == Some(p.authorId)
  }

  /** A caller whose id is absent or empty has its posts filed under "unknown" and cannot delete them. */
  lemma AnonymousAuthorCannotDelete(caller: Caller, data: CreatePostFormData, id: Id, now: nat)
    requires !Truthy(caller.id)
    ensures NewPost(caller, data, id, now).authorId == "unknown"
    ensures !MayDelete(NewPost(caller, data, id, now), caller)
  {
  }

  /** A caller with a non-empty id may delete the posts it creates. */
  lemma AuthorMayDeleteOwnPost(caller: Caller, data: CreatePostFormData, id: Id, now: nat)
    requires Truthy(caller.id)
    ensures MayDelete(NewPost(caller, data, id, now), caller)
  {
  }

  /**
   * What the table guarantees: rows are keyed by id, times come from a clock
   * that has passed them all, and no two rows were created at the same time.
   */
  predicate TableInvariant(posts: map<Id, Post>, clock: nat) {
    && KeyedById(posts)
    && (forall k :: k in posts ==> posts[k].createdAt <= posts[k].updatedAt < clock)
    && (forall a, b :: a in posts && b in posts && a != b ==> posts[a].createdAt != posts[b].createdAt)
  }

  /** In a strictly newest-first sequence, the newest element is at its head. */
  lemma NewestComesFirst(r: seq<Post>, p: Post)
    requires p in r
    requires StrictlyNewestFirst(r)
    requires forall q :: q in r ==> q.createdAt <= p.createdAt
    ensures r[0] == p
  {
    assert r[0] in r;
  }

  class PostStore {
    var posts: map<Id, Post>
    /** The database's clock: the next `createdAt` or `updatedAt` it hands out. */
    var clock: nat

    ghost predicate Valid()
      reads this
    {
      TableInvariant(posts, clock)
    }

    constructor ()
      ensures Valid() && posts == map[] && clock == 0
    {
      posts := map[];
      clock := 0;
    }

    /** `addNewPost`. The id is the one the database generates, unused by any row. */
    method AddNewPost(caller: Caller, formData: CreatePostFormData, freshId: Id) returns (o: Outcome<()>)
      requires Valid() && freshId !in posts
      modifies this
      ensures Valid()
      ensures !caller.isAuthenticated ==>
                o == Redirect(RegisterUrl) && posts == old(posts) && clock == old(clock)
      ensures caller.isAuthenticated ==>
                && o == Return(())
                && posts == old(posts)[freshId := NewPost(caller, formData, freshId, old(clock))]
                && clock == old(clock) + 1
    {
      if !caller.isAuthenticated {
        return Redirect(RegisterUrl);
      }
      var p := NewPost(caller, formData, freshId, clock);
      posts := posts[freshId := p];
      clock := clock + 1;
      o := Return(());
    }

    /** `getRecentPosts`: the caller's posts, newest first; none is an empty answer, not an error. */
    method GetRecentPosts(userId: string) returns (r: seq<Post>)
      requires Valid()
      ensures forall p :: p in r <==> p in posts.Values && p.authorId == userId
      ensures StrictlyNewestFirst(r)
    {
      r := FindManyByAuthor(posts, userId);
      forall i, j | 0 <= i < j < |r| ensures r[i].createdAt > r[j].createdAt {
        assert r[i] in r && r[j] in r;
        assert r[i].id in posts && r[j].id in posts;
      }
    }

    /** `getPostById`: the stored row, or the not-found outcome. */
    method GetPostById(postId: Id) returns (o: Outcome<Post>)
      ensures postId in posts ==> o == Return(posts[postId])
      ensures postId !in posts ==> o == NotFound
    {
      if postId !in posts {
        return NotFound;
      }
      o := Return(posts[postId]);
    }

    /** `updatePost`: overwrites the three form fields; it checks no authorship. */
    method UpdatePost(caller: Caller, postId: Id, formData: CreatePostFormData) returns (o: Outcome<()>)
      requires Valid()
      modifies this
      ensures Valid()
      ensures !caller.isAuthenticated ==>
                o == Redirect(RegisterUrl) && posts == old(posts) && clock == old(clock)
      ensures caller.isAuthenticated && postId !in old(posts) ==>
                o == StoreError && posts == old(posts) && clock == old(clock)
      ensures caller.isAuthenticated && postId in old(posts) ==>
                && o == Redirect(DashboardUrl)
                && posts == old(posts)[postId := Revised(old(posts)[postId], formData, old(clock))]
                && clock == old(clock) + 1
    {
      if !caller.isAuthenticated {
        return Redirect(RegisterUrl);
      }
      if postId !in posts {
        return StoreError;
      }
      posts := posts[postId := Revised(posts[postId], formData, clock)];
      clock := clock + 1;
      o := Redirect(DashboardUrl);
    }

    /** `deletePost`: only the author may delete; a missing post is refused the same way. */
    method DeletePost(caller: Caller, postId: Id) returns (o: Outcome<()>)
      requires Valid()
      modifies this
      ensures Valid() && clock == old(clock)
      ensures !caller.isAuthenticated ==> o == Redirect(RegisterUrl) && posts == old(posts)
      ensures caller.isAuthenticated && (postId !in old(posts) || !MayDelete(old(posts)[postId], caller)) ==>
                o == Throw(UnauthorizedToDelete) && posts == old(posts)
      ensures caller.isAuthenticated && postId in old(posts) && MayDelete(old(posts)[postId], caller) ==>
                o == Redirect(DashboardUrl) && posts == old(posts) - {postId}
    {
      if !caller.isAuthenticated {
        return Redirect(RegisterUrl);
      }
      if postId !in posts || !MayDelete(posts[postId], caller) {
        return Throw(UnauthorizedToDelete);
      }
      posts := posts - {postId};
      o := Redirect(DashboardUrl);
    }
  }

  // A post's life, in three steps that chain (each one's ensures meet the next one's requires):
  // its author creates it and finds it first among its recent posts, revises it and reads the
  // revision back; another user's delete is refused and leaves it in place; the author deletes it,
  // and it is gone.

  /** Creates a post and lists its author's posts: the new one comes first. */
  method PublishAndList(store: PostStore, author: Caller, id: Id, draft: CreatePostFormData)
    returns (newest: Post, recent: seq<Post>)
    requires store.Valid() && id !in store.posts
    requires author.isAuthenticated && Truthy(author.id)
    modifies store
    ensures store.Valid()
    ensures store.posts == old(store.posts)[id := newest]
    ensures newest.id == id && newest.title == draft.title && newest.authorId == author.id.value
    ensures recent != [] && recent[0] == newest
    ensures forall p :: p in recent <==> p in store.posts.Values && p.authorId == author.id.value
  {
    var created := store.AddNewPost(author, draft, id);
    recent := store.GetRecentPosts(author.id.value);
    var p := store.posts[id];
    assert p in recent by { assert p in store.posts.Values; }
    forall q | q in recent ensures q.createdAt <= p.createdAt {
      var k :| k in store.posts && store.posts[k] == q;
    }
    NewestComesFirst(recent, p);
    newest := recent[0];
  }

  /** The author revises a post and reads it back. */
  method ReviseAndRead(store: PostStore, author: Caller, id: Id, revision: CreatePostFormData)
    returns (fetched: Outcome<Post>)
    requires store.Valid() && id in store.posts
    requires author.isAuthenticated
    modifies store
    ensures store.Valid()
    ensures fetched.Return? && store.posts == old(store.posts)[id := fetched.value]
    ensures fetched.value.title == revision.title && fetched.value.authorId == old(store.posts)[id].authorId
  {
    var updated := store.UpdatePost(author, id, revision);
    fetched := store.GetPostById(id);
  }

  /** Another user's delete is refused and leaves the post; the author's removes it. */
  method RefuseThenDelete(store: PostStore, author: Caller, other: Caller, id: Id)
    returns (refused: Outcome<()>, stillThere: Outcome<Post>, deleted: Outcome<()>, gone: Outcome<Post>,
             remaining: seq<Post>)
    requires store.Valid() && id in store.posts
    requires author.isAuthenticated && author.id == Some(store.posts[id].authorId)
    requires other.isAuthenticated && other.id != author.id
    modifies store
    ensures store.Valid() && store.posts == old(store.posts) - {id}
    ensures refused == Throw(UnauthorizedToDelete)
    ensures stillThere == Return(old(store.posts)[id])
    ensures deleted == Redirect(DashboardUrl)
    ensures gone == NotFound
    ensures forall p :: p in remaining ==> p.id != id
  {
    refused := store.DeletePost(other, id);
    stillThere := store.GetPostById(id);
    deleted := store.DeletePost(author, id);
    gone := store.GetPostById(id);
    remaining := store.GetRecentPosts(author.id.value);
  }
}
