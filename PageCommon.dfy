/**
 * What the three pages share: finding a post by the `:id` route
 * parameter and the title/description check of the two forms.
 */
module PageCommon {
  import opened Wrappers
  import opened JsText
  import opened PostContext

  /** Position `k` holds the first post whose id reads as `route`. */
  ghost predicate IsFirstMatch(posts: seq<Post>, k: int, route: string) {
    0 <= k < |posts| && IntToString(posts[k].id) == route &&
    forall j :: 0 <= j < k ==> IntToString(posts[j].id) != route
  }

  /** `posts.find((p) => p.id.toString() === id)`: the first post whose id,
      written as a string, is the route parameter. */
  function FindByRoute(posts: seq<Post>, route: string): (r: Option<Post>)
    ensures r.None? <==> forall i :: 0 <= i < |posts| ==> IntToString(posts[i].id) != route
    ensures r.Some? ==> exists k :: IsFirstMatch(posts, k, route) && posts[k] == r.value
  {
    if posts == [] then None
    else if IntToString(posts[0].id) == route then
      assert IsFirstMatch(posts, 0, route);
      Some(posts[0])
    else
      var r := FindByRoute(posts[1..], route);
      assert r.Some? ==> exists k :: IsFirstMatch(posts, k, route) && posts[k] == r.value by {
        if r.Some? {
          var k :| IsFirstMatch(posts[1..], k, route) && posts[1..][k] == r.value;
          assert IsFirstMatch(posts, k + 1, route);
        }
      }
      r
  }

  /** Looking a post up by the string form of an id finds a post with that
      id, the first one in the list, and fails only when no post has it. */
  lemma {:induction false} FindById(posts: seq<Post>, id: int)
    ensures FindByRoute(posts, IntToString(id)).None? <==> Count(posts, id) == 0
    ensures FindByRoute(posts, IntToString(id)).Some? ==>
      FindByRoute(posts, IntToString(id)).value.id == id &&
      exists k :: IsFirstMatch(posts, k, IntToString(id)) && posts[k] == FindByRoute(posts, IntToString(id)).value &&
        forall j :: 0 <= j < k ==> posts[j].id != id
  {
    forall a: int {
      IntToStringInjective(a, id);
    }
  }

  /** The check both forms make: neither title nor description is empty
      after trimming, that is, both hold a visible character. */
  predicate FormAccepted(title: string, description: string): (b: bool)
    ensures b <==> HasVisible(title) && HasVisible(description)
  {
    !IsBlank(title) && !IsBlank(description)
  }
}
