/**
 * The edit screen of mini-blog/src/pages/PostEdit.tsx: the form's state
 * cells, the prefill effect and the submit handler, which replaces a post
 * by deleting its id and adding a new post under the same id.
 */
module PostEdit {
  import opened Wrappers
  import opened JsText
  import opened PostContext
  import opened PageCommon

  class EditPage {
    const store: PostStore
    const routeId: string
    var title: string
    var content: string
    var description: string
    var loading: bool
    var navigatedTo: Option<string>

    /** Rendering the screen at `/post/edit/:id` inside the provider. */
    constructor (context: Option<PostStore>, routeId: string)
      requires context.Some?
      ensures store == context.value && this.routeId == routeId
      ensures title == "" && content == "" && description == ""
      ensures loading && navigatedTo == None
    {
      store := UsePosts(context).value;
      this.routeId := routeId;
      title, content, description := "", "", "";
      loading := true;
      navigatedTo := None;
    }

    /** The prefill effect, run whenever the route or the posts change: the
        post the route names fills the form (absent content as `""`); with no
        such post the fields stay as they were. Loading ends either way. */
    method Prefill()
      modifies this`title, this`content, this`description, this`loading
      ensures FindByRoute(store.posts, routeId).Some? ==>
        var p := FindByRoute(store.posts, routeId).value;
        title == p.title && description == p.description && content == p.content.GetOr("")
      ensures FindByRoute(store.posts, routeId).None? ==>
        title == old(title) && description == old(description) && content == old(content)
      ensures !loading
    {
      var post := FindByRoute(store.posts, routeId);
      if post.Some? {
        title := post.value.title;
        description := post.value.description;
        content := post.value.content.GetOr("");
      }
      loading := false;
    }

    /** `handleSubmit`: a rejected form changes nothing; an accepted one
        deletes every post with id `Number(id)`, puts in front a post with
        that id, the form's fields and the new time, and moves to the
        detail screen. Nothing checks that the id existed. */
    method HandleSubmit(createdAt: string)
      requires store.Valid()
      requires ParseId(routeId).Some?
      modifies this`navigatedTo, store
      ensures FormAccepted(title, description) ==>
        store.posts == [Post(ParseId(routeId).value, title, description, Some(content), createdAt)] +
          Without(old(store.posts), ParseId(routeId).value) &&
        navigatedTo == Some("/post/" + routeId)
      ensures !FormAccepted(title, description) ==>
        store.posts == old(store.posts) && store.storage == old(store.storage) &&
        navigatedTo == old(navigatedTo)
      ensures store.loading == old(store.loading) && store.Valid()
      ensures store.loading ==> store.storage == old(store.storage)
    {
      if !FormAccepted(title, description) {
        return;
      }
      var id := ParseId(routeId).value;
      store.DeletePost(id);
      var updated := Post(id, title, description, Some(content), createdAt);
      store.AddPost(updated);
      navigatedTo := Some("/post/" + routeId);
    }
  }

  /** What an accepted edit leaves: the new post first, the only one with
      its id; the others in their old order; one post more than the old
      number minus the posts of that id. An id nobody had just gains a post. */
  lemma EditOutcome(ps: seq<Post>, p: Post)
    ensures var r := [p] + Without(ps, p.id);
      r[0] == p &&
      Count(r, p.id) == 1 &&
      |r| == |ps| - Count(ps, p.id) + 1 &&
      Without(r, p.id) == Without(ps, p.id) &&
      (Count(ps, p.id) == 0 ==> r == [p] + ps)
  {
    var r := [p] + Without(ps, p.id);
    CountAppend([p], Without(ps, p.id), p.id);
    WithoutLength(ps, p.id);
    AddThenDelete(Without(ps, p.id), p);
    if Count(ps, p.id) == 0 {
      WithoutAbsent(ps, p.id);
    }
  }

  /** Editing the older of two posts moves it in front with its new time:
      with `b` added after `a` the list is `[b, a]`, and editing `a` yields
      `[a', b]`. */
  lemma EditMovesToFront(a: Post, b: Post, a': Post)
    requires a.id == 1 && b.id == 2 && a'.id == a.id
    ensures [a'] + Without([b, a], a.id) == [a', b]
  {
    assert [b, a][1..] == [a];
    assert [a][1..] == [];
  }

  /** The route built by the detail screen's edit button parses back to
      the post's id, and the prefill lookup on it finds a post with that id. */
  lemma EditRouteRoundTrip(ps: seq<Post>, post: Post)
    requires post in ps
    ensures ParseId(IntToString(post.id)) == Some(post.id)
    ensures FindByRoute(ps, IntToString(post.id)).Some?
    ensures FindByRoute(ps, IntToString(post.id)).value.id == post.id
  {
    ParseIdOfIntToString(post.id);
    FindById(ps, post.id);
  }

  /** A route with leading zeros, such as `007`, converts to the id 7 but
      matches no post by its string: the form stays empty while a submit
      still replaces every post with id 7. */
  lemma LeadingZeroRoute(ps: seq<Post>)
    ensures ParseId("007") == Some(7)
    ensures FindByRoute(ps, "007").None?
  {
    assert AllDigits("007");
    assert "007"[..2] == "00" && "00"[..1] == "0" && "0"[..0] == "";
    forall n: int ensures IntToString(n) != "007" {
    }
  }
}
