/**
 * The `blogPost` table as the actions see it through the database client:
 * rows keyed by id, and the ordered query by author.
 */
module PostTable {

  type Id = string

  datatype Post = Post(id: Id, title: string, content: string, imageUrl: string,
                       authorId: string, authorName: string, authorImage: string,
                       createdAt: nat, updatedAt: nat)

  /** Every row is stored under its own primary key. */
  predicate KeyedById(posts: map<Id, Post>) {
    forall k :: k in posts ==> posts[k].id == k
  }

  /** `orderBy: { createdAt: "desc" }`. */
  predicate NewestFirst(s: seq<Post>) {
    forall i, j :: 0 <= i < j < |s| ==> s[i].createdAt >= s[j].createdAt
  }

  predicate Distinct(s: seq<Post>) {
    forall i, j :: 0 <= i < j < |s| ==> s[i] != s[j]
  }

  /** Places `p` before the first row that is not newer than it. */
  function InsertNewestFirst(s: seq<Post>, p: Post): (r: seq<Post>)
    requires NewestFirst(s)
    ensures NewestFirst(r)
    ensures |r| == |s| + 1
    ensures forall x :: x in r <==> x in s || x == p
    ensures Distinct(s) && p !in s ==> Distinct(r)
  {
    if s == [] || s[0].createdAt <= p.createdAt then
      [p] + s
    else
      HeadIsNewest(s);
      var rest := InsertNewestFirst(s[1..], p);
      assert forall x :: x in s[1..] ==> x in s;
      TailDistinct(s);
      ConsDistinct(s[0], rest);
      ConsNewestFirst(s[0], rest);
      [s[0]] + rest
  }

  /** The insertion adds exactly `p` to the rows, repeats included. */
  lemma {:induction false} InsertAddsOneRow(s: seq<Post>, p: Post)
    requires NewestFirst(s)
    ensures multiset(InsertNewestFirst(s, p)) == multiset(s) + multiset{p}
  {
    if s == [] || s[0].createdAt <= p.createdAt {
      assert InsertNewestFirst(s, p) == [p] + s;
    } else {
      HeadIsNewest(s);
      InsertAddsOneRow(s[1..], p);
      assert InsertNewestFirst(s, p) == [s[0]] + InsertNewestFirst(s[1..], p);
      assert s == [s[0]] + s[1..];
    }
  }

  lemma HeadIsNewest(s: seq<Post>)
    requires s != [] && NewestFirst(s)
    ensures NewestFirst(s[1..])
    ensures forall y :: y in s[1..] ==> y.createdAt <= s[0].createdAt
  {
    forall y | y in s[1..] ensures y.createdAt <= s[0].createdAt {
      var k :| 0 <= k < |s| - 1 && s[1..][k] == y;
      assert s[k + 1] == y;
    }
  }

  lemma ConsNewestFirst(x: Post, rest: seq<Post>)
    ensures NewestFirst(rest) && (forall y :: y in rest ==> y.createdAt <= x.createdAt)
            ==> NewestFirst([x] + rest)
  {
    if NewestFirst(rest) && (forall y :: y in rest ==> y.createdAt <= x.createdAt) {
      var r := [x] + rest;
      forall i, j | 0 <= i < j < |r| ensures r[i].createdAt >= r[j].createdAt {
        assert r[j] == rest[j - 1];
        assert r[j] in rest;
        if i > 0 { assert r[i] == rest[i - 1]; }
      }
    }
  }

  lemma TailDistinct(s: seq<Post>)
    requires s != []
    ensures Distinct(s) ==> Distinct(s[1..]) && s[0] !in s[1..]
  {
    if Distinct(s) {
      forall j | 0 <= j < |s| - 1 ensures s[1..][j] != s[0] {
        assert s[1..][j] == s[j + 1];
      }
    }
  }

  lemma ConsDistinct(x: Post, rest: seq<Post>)
    ensures Distinct(rest) && x !in rest ==> Distinct([x] + rest)
  {
    if Distinct(rest) && x !in rest {
      var r := [x] + rest;
      forall i, j | 0 <= i < j < |r| ensures r[i] != r[j] {
        assert r[j] == rest[j - 1];
        if i > 0 { assert r[i] == rest[i - 1]; }
      }
    }
  }

  /** `findMany({ where: { authorId }, orderBy: { createdAt: "desc" } })`. */
  method FindManyByAuthor(posts: map<Id, Post>, authorId: string) returns (r: seq<Post>)
    requires KeyedById(posts)
    ensures forall p :: p in r <==> p in posts.Values && p.authorId == authorId
    ensures NewestFirst(r)
    ensures Distinct(r)
  {
    r := [];
    var todo := posts.Keys;
    while todo != {}
      invariant todo <= posts.Keys
      invariant forall p :: p in r <==>
                  p.id in posts && posts[p.id] == p && p.authorId == authorId && p.id !in todo
      invariant NewestFirst(r)
      invariant Distinct(r)
      decreases |todo|
    {
      var k :| k in todo;
      var p := posts[k];
      if p.authorId == authorId {
        assert p !in r;
        r := InsertNewestFirst(r, p);
      }
      todo := todo - {k};
    }
    forall p ensures p in r <==> p in posts.Values && p.authorId == authorId {
      if p in posts.Values {
        var k :| k in posts && posts[k] == p;
        assert p.id == k;
      }
    }
  }

  /** Newest first with no two rows created at the same time. */
  predicate StrictlyNewestFirst(s: seq<Post>) {
    forall i, j :: 0 <= i < j < |s| ==> s[i].createdAt > s[j].createdAt
  }

  /** Without ties the newest-first answer is unique: the rows alone fix their order. */
  lemma {:induction false} NewestFirstUnique(a: seq<Post>, b: seq<Post>)
    requires StrictlyNewestFirst(a) && StrictlyNewestFirst(b)
    requires forall p :: p in a <==> p in b
    ensures a == b
    decreases |a|
  {
    assert a != [] ==> a[0] in b;
    assert b != [] ==> b[0] in a;
    if a != [] {
      SameHead(a, b);
      SameTail(a, b);
      NewestFirstUnique(a[1..], b[1..]);
      assert a == [a[0]] + a[1..] && b == [b[0]] + b[1..];
    }
  }

  lemma SameHead(a: seq<Post>, b: seq<Post>)
    requires a != [] && b != [] && StrictlyNewestFirst(a) && StrictlyNewestFirst(b)
    requires forall p :: p in a <==> p in b
    ensures a[0] == b[0]
  {
    assert a[0] in b && b[0] in a;
    var i :| 0 <= i < |a| && a[i] == b[0];
    var j :| 0 <= j < |b| && b[j] == a[0];
    assert a[0].createdAt >= a[i].createdAt;
    assert b[0].createdAt >= b[j].createdAt;
  }

  lemma SameTail(a: seq<Post>, b: seq<Post>)
    requires a != [] && b != [] && a[0] == b[0]
    requires StrictlyNewestFirst(a) && StrictlyNewestFirst(b)
    requires forall p :: p in a <==> p in b
    ensures StrictlyNewestFirst(a[1..]) && StrictlyNewestFirst(b[1..])
    ensures forall p :: p in a[1..] <==> p in b[1..]
  {
    forall p | p in a[1..] ensures p in b[1..] {
      var i :| 0 <= i < |a| - 1 && a[1..][i] == p;
      assert a[i + 1] == p && p != a[0];
      assert p in b;
      var j :| 0 <= j < |b| && b[j] == p;
      assert b[1..][j - 1] == p;
    }
    forall p | p in b[1..] ensures p in a[1..] {
      var j :| 0 <= j < |b| - 1 && b[1..][j] == p;
      assert b[j + 1] == p && p != b[0];
      assert p in a;
      var i :| 0 <= i < |a| && a[i] == p;
      assert a[1..][i - 1] == p;
    }
  }
}
