/**
 * The post store of mini-blog/src/context/PostContext.tsx: the provider's
 * `posts` and `loading` state cells, the `"posts"` storage slot, the
 * delayed initial load, the persistence effect and the two mutators.
 */
module PostContext {
  import opened Wrappers

  /** One post. `createdAt` is the ISO-8601 text the pages produce; it is
      never interpreted, only stored and shown. `content` may be absent. */
  datatype Post = Post(
    id: int,
    title: string,
    description: string,
    content: Option<string>,
    createdAt: string)

  // ---------------------------------------------------------------------
  // the pure updaters
  // ---------------------------------------------------------------------

  /** How many posts of `ps` carry the id `id`. */
  function Count(ps: seq<Post>, id: int): (n: nat)
    ensures n <= |ps|
    ensures n == 0 <==> forall q :: q in ps ==> q.id != id
  {
    if ps == [] then 0 else (if ps[0].id == id then 1 else 0) + Count(ps[1..], id)
  }

  /** `prev.filter((p) => p.id !== id)`: the posts whose id is not `id`. */
  function Without(ps: seq<Post>, id: int): (r: seq<Post>)
    ensures |r| <= |ps|
    ensures forall q :: q in r ==> q in ps && q.id != id
  {
    if ps == [] then []
    else if ps[0].id != id then [ps[0]] + Without(ps[1..], id)
    else Without(ps[1..], id)
  }

  lemma {:induction false} CountAppend(a: seq<Post>, b: seq<Post>, id: int)
    ensures Count(a + b, id) == Count(a, id) + Count(b, id)
  {
    if a == [] {
      assert a + b == b;
    } else {
      assert (a + b)[1..] == a[1..] + b;
      CountAppend(a[1..], b, id);
    }
  }

  /** Filtering distributes over concatenation: every post is kept or
      dropped on its own and the kept ones stay in their order. */
  lemma {:induction false} WithoutAppend(a: seq<Post>, b: seq<Post>, id: int)
    ensures Without(a + b, id) == Without(a, id) + Without(b, id)
  {
    if a == [] {
      assert a + b == b;
    } else {
      assert (a + b)[1..] == a[1..] + b;
      WithoutAppend(a[1..], b, id);
    }
  }

  /** Removing an id drops exactly the posts that carry it. */
  lemma {:induction false} WithoutLength(ps: seq<Post>, id: int)
    ensures |Without(ps, id)| == |ps| - Count(ps, id)
  {
    if ps != [] {
      WithoutLength(ps[1..], id);
    }
  }

  /** A post whose id differs from `id` is kept as often as it occurs. */
  lemma {:induction false} WithoutKeepsOthers(ps: seq<Post>, id: int, q: Post)
    requires q.id != id
    ensures multiset(Without(ps, id))[q] == multiset(ps)[q]
  {
    if ps != [] {
      WithoutKeepsOthers(ps[1..], id, q);
      assert ps == [ps[0]] + ps[1..];
    }
  }

  /** Deleting an id that no post carries changes nothing. */
  lemma {:induction false} WithoutAbsent(ps: seq<Post>, id: int)
    requires Count(ps, id) == 0
    ensures Without(ps, id) == ps
  {
    if ps != [] {
      assert ps[0] in ps;
      assert forall q :: q in ps[1..] ==> q in ps;
      WithoutAbsent(ps[1..], id);
    }
  }

  /** `deletePost` is idempotent. */
  lemma WithoutIdempotent(ps: seq<Post>, id: int)
    ensures Without(Without(ps, id), id) == Without(ps, id)
  {
    WithoutAbsent(Without(ps, id), id);
  }

  /** Deleting an id leaves none of its posts. */
  lemma WithoutRemovesAll(ps: seq<Post>, id: int)
    ensures Count(Without(ps, id), id) == 0
  {
  }

  /** Deleting right after adding removes the added post with the rest of its id;
      when the id was new, the list is back to what it was. */
  lemma AddThenDelete(ps: seq<Post>, p: Post)
    ensures Without([p] + ps, p.id) == Without(ps, p.id)
    ensures Count(ps, p.id) == 0 ==> Without([p] + ps, p.id) == ps
  {
    assert ([p] + ps)[1..] == ps;
    if Count(ps, p.id) == 0 {
      WithoutAbsent(ps, p.id);
    }
  }

  // ---------------------------------------------------------------------
  // the provider
  // ---------------------------------------------------------------------

  /**
   * `PostProvider`'s state: the in-memory list, the loading flag and the
   * storage slot `"posts"`, which holds the list itself (serialisation is
   * not modelled). `None` is a slot that was never written.
   */
  class PostStore {
    var posts: seq<Post>
    var loading: bool
    var storage: Option<seq<Post>>

    /** Once loaded, storage mirrors memory. */
    ghost predicate Valid()
      reads this
    {
      !loading ==> storage == Some(posts)
    }

    /** Mounting the provider over what the slot holds from earlier sessions. */
    constructor (saved: Option<seq<Post>>)
      ensures posts == [] && loading && storage == saved
      ensures Valid()
    {
      posts := [];
      loading := true;
      storage := saved;
    }

    /** The persistence effect, run after each committed change of `posts`
        or `loading`: it overwrites the slot only once loading is over. */
    method Persist()
      modifies this`storage
      ensures storage == (if loading then old(storage) else Some(posts))
      ensures Valid()
    {
      if !loading {
        storage := Some(posts);
      }
    }

    /** The load timeout's callback: the stored list, or `[]`, replaces the
        whole in-memory list (posts added meanwhile are lost), loading ends
        and the effect writes the slot back. */
    method FinishLoad()
      modifies this
      ensures posts == old(storage).GetOr([])
      ensures !loading && storage == Some(posts)
      ensures Valid()
    {
      posts := storage.GetOr([]);
      loading := false;
      Persist();
    }

    /** `addPost`: the new post goes in front; no check for a duplicate id. */
    method AddPost(post: Post)
      modifies this
      ensures posts == [post] + old(posts)
      ensures loading == old(loading)
      ensures storage == (if loading then old(storage) else Some(posts))
      ensures Valid()
    {
      posts := [post] + posts;
      Persist();
    }

    /** `deletePost`: every post with the id goes. */
    method DeletePost(id: int)
      modifies this
      ensures posts == Without(old(posts), id)
      ensures loading == old(loading)
      ensures storage == (if loading then old(storage) else Some(posts))
      ensures Valid()
    {
      posts := Without(posts, id);
      Persist();
    }
  }

  /** Reloading the page after the store has loaded: a fresh provider over
      the same slot shows, after its load, exactly the list it had. */
  method Reload(s: PostStore) returns (t: PostStore)
    requires s.Valid() && !s.loading
    ensures !t.loading && t.posts == s.posts && t.storage == s.storage
  {
    t := new PostStore(s.storage);
    t.FinishLoad();
  }

  /** The error `usePosts` throws outside a `PostProvider`. */
  datatype UsageError = OutsideProvider

  /** `usePosts`: the enclosing provider's store, or the thrown error. */
  function UsePosts(context: Option<PostStore>): (r: Result<PostStore, UsageError>)
    ensures r.Success? <==> context.Some?
    ensures r.Success? ==> r.value == context.value
  {
    match context
    case Some(s) => Success(s)
    case None => Failure(OutsideProvider)
  }
}
