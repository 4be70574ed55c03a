/**
 * The detail screen of mini-blog/src/pages/PostDetail.tsx: the post the
 * route names, its delete-confirmation flag, the handlers and the title
 * as the confirmation shows it.
 */
module PostDetail {
  import opened Wrappers
  import opened JsText
  import opened PostContext
  import opened PageCommon

  /** The title as the confirmation quotes it: up to 15 characters as they
      are, a longer one cut to its first 15 and followed by `...`. */
  function ShownTitle(title: string): (shown: string)
    ensures |shown| <= 18
    ensures |title| <= 15 ==> shown == title
    ensures |title| > 15 ==> |shown| == 18 && shown[..15] == title[..15] && shown[15..] == "..."
  {
    if |title| > 15 then title[..15] + "..." else title
  }

  /** The shown title begins with the first `min(|title|, 15)` characters of the title. */
  lemma ShownTitlePrefix(title: string)
    ensures var n := if |title| < 15 then |title| else 15;
      n <= |ShownTitle(title)| && ShownTitle(title)[..n] == title[..n]
  {
  }

  /** A title is shown unchanged exactly when it has at most 15 characters
      or already is 15 characters followed by `...`. */
  lemma ShownTitleUnchanged(title: string)
    ensures ShownTitle(title) == title <==> |title| <= 15 || (|title| == 18 && title[15..] == "...")
  {
    if |title| == 18 && title[15..] == "..." {
      assert title[..15] + title[15..] == title;
    }
  }

  class DetailPage {
    const store: PostStore
    const routeId: string
    var showDeleteModal: bool
    var navigatedTo: Option<string>

    /** Rendering the screen at `/post/:id` inside the provider. */
    constructor (context: Option<PostStore>, routeId: string)
      requires context.Some?
      ensures store == context.value && this.routeId == routeId
      ensures !showDeleteModal && navigatedTo == None
    {
      store := UsePosts(context).value;
      this.routeId := routeId;
      showDeleteModal := false;
      navigatedTo := None;
    }

    /** The post the screen shows; `None` renders "not found" and no handlers. */
    function CurrentPost(): (r: Option<Post>)
      reads this, store
      ensures r.Some? ==> r.value in store.posts && IntToString(r.value.id) == routeId
      ensures r.None? <==> forall q :: q in store.posts ==> IntToString(q.id) != routeId
    {
      FindByRoute(store.posts, routeId)
    }

    /** `handleDeleteClick`: the confirmation opens. */
    method HandleDeleteClick()
      requires CurrentPost().Some?
      modifies this`showDeleteModal
      ensures showDeleteModal
    {
      showDeleteModal := true;
    }

    /** `handleConfirmDelete`: every post with the shown post's id goes, the
        confirmation closes and the screen moves to the list. */
    method HandleConfirmDelete()
      requires store.Valid()
      requires CurrentPost().Some?
      modifies this`showDeleteModal, this`navigatedTo, store
      ensures store.posts == Without(old(store.posts), old(CurrentPost()).value.id)
      ensures store.loading == old(store.loading) && store.Valid()
      ensures store.loading ==> store.storage == old(store.storage)
      ensures CurrentPost().None?
      ensures !showDeleteModal && navigatedTo == Some("/")
    {
      var post := CurrentPost().value;
      store.DeletePost(post.id);
      DeletedRouteNotFound(old(store.posts), routeId, post);
      showDeleteModal := false;
      navigatedTo := Some("/");
    }

    /** `handleCancelDelete`: the confirmation closes; the posts are untouched. */
    method HandleCancelDelete()
      modifies this`showDeleteModal
      ensures !showDeleteModal
    {
      showDeleteModal := false;
    }

    /** `handleEdit`: the screen moves to the edit form of the shown post. */
    method HandleEdit()
      requires CurrentPost().Some?
      modifies this`navigatedTo
      ensures navigatedTo == Some("/post/edit/" + IntToString(CurrentPost().value.id))
    {
      navigatedTo := Some("/post/edit/" + IntToString(CurrentPost().value.id));
    }
  }

  /** After the shown post's id is deleted, its route finds nothing. */
  lemma DeletedRouteNotFound(ps: seq<Post>, route: string, post: Post)
    requires FindByRoute(ps, route) == Some(post)
    ensures FindByRoute(Without(ps, post.id), route).None?
  {
    var rest := Without(ps, post.id);
    forall i | 0 <= i < |rest| ensures IntToString(rest[i].id) != route {
      assert rest[i] in rest;
      IntToStringInjective(rest[i].id, post.id);
    }
  }
}
