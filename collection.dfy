/**
 * The pure derivations the blog list controller applies to its collection:
 * the view ordered by likes, the id-keyed replace after a like, the id-keyed
 * filter after a delete, and the payload of a like request.
 */
module Collection {
  import opened BlogTypes

  /** Blogs appear with non-increasing `likes`. */
  ghost predicate NonIncreasing(s: seq<Blog>) {
    forall i, j :: 0 <= i < j < |s| ==> s[i].likes >= s[j].likes
  }

  /** No two blogs share an `id`. */
  ghost predicate UniqueIds(s: seq<Blog>) {
    forall i, j :: 0 <= i < j < |s| ==> s[i].id != s[j].id
  }

  /** Does some blog of `s` carry this `id`? */
  ghost predicate HasId(s: seq<Blog>, id: string) {
    exists i :: 0 <= i < |s| && s[i].id == id
  }

  /** The blogs of `s` with exactly `k` likes, in their order in `s`. */
  ghost function WithLikes(s: seq<Blog>, k: int): seq<Blog> {
    if s == [] then []
    else (if s[0].likes == k then [s[0]] else []) + WithLikes(s[1..], k)
  }

  // ---------------------------------------------------------------------------
  // The sorted view: `[...blogs].sort((a, b) => b.likes - a.likes)`.
  // The comparator orders by likes, descending; the sort is stable.
  // ---------------------------------------------------------------------------

  /** Places `b` before the first blog of `t` that does not have more likes than it. */
  function Insert(b: Blog, t: seq<Blog>): (r: seq<Blog>)
    ensures multiset(r) == multiset(t) + multiset{b}
    ensures |r| == |t| + 1
  {
    if t == [] || b.likes >= t[0].likes then [b] + t
    else
      assert t == [t[0]] + t[1..];
      [t[0]] + Insert(b, t[1..])
  }

  /** The list as the page shows it: a copy of `blogs` ordered by likes, descending. */
  function SortByLikes(blogs: seq<Blog>): (r: seq<Blog>)
    ensures multiset(r) == multiset(blogs)
    ensures |r| == |blogs|
    ensures NonIncreasing(r)
  {
    if blogs == [] then []
    else
      assert blogs == [blogs[0]] + blogs[1..];
      InsertKeepsOrder(blogs[0], SortByLikes(blogs[1..]));
      Insert(blogs[0], SortByLikes(blogs[1..]))
  }

  lemma {:induction false} InsertKeepsOrder(b: Blog, t: seq<Blog>)
    requires NonIncreasing(t)
    ensures NonIncreasing(Insert(b, t))
  {
    if t == [] || b.likes >= t[0].likes {
    } else {
      var rest := Insert(b, t[1..]);
      InsertKeepsOrder(b, t[1..]);
      forall j | 0 <= j < |rest| ensures rest[j].likes <= t[0].likes {
        assert rest[j] in multiset(rest);
        if rest[j] != b {
          assert rest[j] in multiset(t[1..]);
        }
      }
      assert Insert(b, t) == [t[0]] + rest;
    }
  }

  lemma {:induction false} InsertStable(b: Blog, t: seq<Blog>, k: int)
    ensures WithLikes(Insert(b, t), k) == (if b.likes == k then [b] else []) + WithLikes(t, k)
  {
    if t == [] || b.likes >= t[0].likes {
      assert ([b] + t)[1..] == t;
    } else {
      var rest := Insert(b, t[1..]);
      InsertStable(b, t[1..], k);
      assert ([t[0]] + rest)[1..] == rest;
    }
  }

  /**
   * The sort is stable: among blogs with the same number of likes the view
   * keeps the order they have in the collection.
   */
  lemma {:induction false} SortByLikesStable(blogs: seq<Blog>, k: int)
    ensures WithLikes(SortByLikes(blogs), k) == WithLikes(blogs, k)
  {
    if blogs != [] {
      SortByLikesStable(blogs[1..], k);
      InsertStable(blogs[0], SortByLikes(blogs[1..]), k);
    }
  }

  /** A collection already in view order is shown as it is. */
  lemma {:induction false} SortByLikesOfSorted(blogs: seq<Blog>)
    requires NonIncreasing(blogs)
    ensures SortByLikes(blogs) == blogs
  {
    if blogs != [] {
      SortByLikesOfSorted(blogs[1..]);
      assert blogs[1..] == [] || blogs[0].likes >= blogs[1..][0].likes;
    }
  }

  // ---------------------------------------------------------------------------
  // Like: `blogs.map(b => (b.id === blog.id ? returnedBlog : b))`.
  // ---------------------------------------------------------------------------

  /** Every blog whose `id` is `id` becomes `nb`; every other blog stays where it is. */
  function ReplaceById(blogs: seq<Blog>, id: string, nb: Blog): (r: seq<Blog>)
    ensures |r| == |blogs|
    ensures forall i :: 0 <= i < |blogs| && blogs[i].id == id ==> r[i] == nb
    ensures forall i :: 0 <= i < |blogs| && blogs[i].id != id ==> r[i] == blogs[i]
  {
    if blogs == [] then []
    else [if blogs[0].id == id then nb else blogs[0]] + ReplaceById(blogs[1..], id, nb)
  }

  /** When the server keeps the id, replacing by id keeps the ids unique. */
  lemma ReplaceKeepsIds(blogs: seq<Blog>, id: string, nb: Blog)
    requires nb.id == id
    ensures forall i :: 0 <= i < |blogs| ==> ReplaceById(blogs, id, nb)[i].id == blogs[i].id
    ensures UniqueIds(blogs) ==> UniqueIds(ReplaceById(blogs, id, nb))
  {
    var r := ReplaceById(blogs, id, nb);
    assert forall i :: 0 <= i < |blogs| ==> r[i].id == blogs[i].id;
  }

  /** A like on an id that is not in the collection changes nothing. */
  lemma ReplaceAbsentId(blogs: seq<Blog>, id: string, nb: Blog)
    requires !HasId(blogs, id)
    ensures ReplaceById(blogs, id, nb) == blogs
  {
  }

  // ---------------------------------------------------------------------------
  // Delete: `blogs.filter(b => b.id !== blog.id)`.
  // ---------------------------------------------------------------------------

  /** The blogs whose `id` differs from `id`, in their original order. */
  function RemoveById(blogs: seq<Blog>, id: string): (r: seq<Blog>)
    ensures |r| <= |blogs|
    ensures forall b :: b in r <==> b in blogs && b.id != id
  {
    if blogs == [] then []
    else
      assert blogs == [blogs[0]] + blogs[1..];
      (if blogs[0].id == id then [] else [blogs[0]]) + RemoveById(blogs[1..], id)
  }

  /** Filtering distributes over concatenation, so surviving blogs keep their relative order. */
  lemma {:induction false} RemoveByIdConcat(a: seq<Blog>, b: seq<Blog>, id: string)
    ensures RemoveById(a + b, id) == RemoveById(a, id) + RemoveById(b, id)
  {
    if a == [] {
      assert a + b == b;
    } else {
      assert (a + b)[0] == a[0];
      assert (a + b)[1..] == a[1..] + b;
      RemoveByIdConcat(a[1..], b, id);
    }
  }

  /** Filtering changes the collection exactly when some blog carries the id. */
  lemma {:induction false} RemoveByIdNoOp(blogs: seq<Blog>, id: string)
    ensures RemoveById(blogs, id) == blogs <==> !HasId(blogs, id)
  {
    if blogs == [] {
    } else {
      RemoveByIdNoOp(blogs[1..], id);
      if HasId(blogs, id) {
        var i :| 0 <= i < |blogs| && blogs[i].id == id;
        assert blogs[i] in blogs;
        assert blogs[i] !in RemoveById(blogs, id);
      } else {
        assert blogs[0].id != id;
        assert !HasId(blogs[1..], id) by {
          forall i | 0 <= i < |blogs[1..]| ensures blogs[1..][i].id != id {
            assert blogs[1..][i] == blogs[i + 1];
          }
        }
      }
    }
  }

  /** Filtering keeps the ids unique. */
  lemma {:induction false} RemoveKeepsUnique(blogs: seq<Blog>, id: string)
    requires UniqueIds(blogs)
    ensures UniqueIds(RemoveById(blogs, id))
  {
    if blogs != [] {
      var tail := blogs[1..];
      assert UniqueIds(tail) by {
        forall i, j | 0 <= i < j < |tail| ensures tail[i].id != tail[j].id {
          assert tail[i] == blogs[i + 1] && tail[j] == blogs[j + 1];
        }
      }
      RemoveKeepsUnique(tail, id);
      var rest := RemoveById(tail, id);
      if blogs[0].id != id {
        forall j | 0 <= j < |rest| ensures rest[j].id != blogs[0].id {
          assert rest[j] in tail;
          var m :| 0 <= m < |tail| && tail[m] == rest[j];
          assert tail[m] == blogs[m + 1];
        }
        assert RemoveById(blogs, id) == [blogs[0]] + rest;
      }
    }
  }

  /** Appending the created blog keeps the ids unique exactly when its id is new. */
  lemma AppendKeepsUnique(blogs: seq<Blog>, created: Blog)
    requires UniqueIds(blogs)
    ensures UniqueIds(blogs + [created]) <==> !HasId(blogs, created.id)
  {
    var r := blogs + [created];
    if HasId(blogs, created.id) {
      var i :| 0 <= i < |blogs| && blogs[i].id == created.id;
      assert r[i].id == r[|blogs|].id;
    }
  }

  // ---------------------------------------------------------------------------
  // The body of the update request a like sends.
  // ---------------------------------------------------------------------------

  datatype LikeUpdate = LikeUpdate(user: Option<string>, likes: int, author: string, title: string, url: string)

  /**
   * `owner.id || owner._id`: the owner's identifier, preferring `id` and
   * falling back to `_id` when `id` is absent or empty.
   */
  function OwnerRef(owner: Owner): (r: Option<string>)
    ensures r == owner.id || r == owner.dbId
    ensures Truthy(owner.id) ==> r == owner.id
    ensures !Truthy(owner.id) ==> r == owner.dbId
    ensures Truthy(r) <==> Truthy(owner.id) || Truthy(owner.dbId)
  {
    if Truthy(owner.id) then owner.id else owner.dbId
  }

  /**
   * The update payload for one like of `blog`, or `None` when `blog.user` is
   * absent: reading `blog.user.id` then throws before any request is sent.
   */
  function LikePayload(blog: Blog): (r: Option<LikeUpdate>)
    ensures r.Some? <==> blog.user.Some?
    ensures r.Some? ==> r.value.likes == blog.likes + 1
    ensures r.Some? ==> r.value.title == blog.title && r.value.author == blog.author && r.value.url == blog.url
    ensures r.Some? ==> r.value.user == OwnerRef(blog.user.value)
  {
    match blog.user
    case None => None
    case Some(owner) => Some(LikeUpdate(OwnerRef(owner), blog.likes + 1, blog.author, blog.title, blog.url))
  }
}
