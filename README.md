# mini-blog post store, modelled in Dafny

mini-blog is a single-user blog client: three screens (list and create,
detail, edit) over one shared list of posts that a React context provider
keeps in memory and mirrors to the browser's local storage under the key
`"posts"`. This project models that provider and the handlers of the three
screens, and proves what they do to the list, to the storage slot and to
each screen's own state.

- `Wrappers.dfy`: `Option` and `Result`.
- `JsText.dfy`: `String.prototype.trim`, integer `toString` and `Number(s)`
  on decimal integer strings, with the round trip between the last two.
- `PostContext.dfy`: the `Post` record, the pure updaters (`Without` is the
  `filter` of `deletePost`), the `PostStore` class (fields `posts`,
  `loading`, `storage`), the reload round trip and `usePosts`.
- `PageCommon.dfy`: the lookup of a post by the route parameter and the
  title/description check, shared by the screens.
- `PostList.dfy`, `PostDetail.dfy`, `PostEdit.dfy`: one class per screen
  whose fields are the screen's state cells and whose methods are its
  handlers, calling the store.

The store is a two-phase machine. While `loading` holds, mutations change
`posts` but never `storage`. `FinishLoad` (the 300 ms timeout's callback)
replaces `posts` wholesale with the stored list, or `[]`, so posts added
during loading are lost. From then on `PostStore.Valid()` holds:
`storage == Some(posts)` after every mutation. No method sets `loading`
back to true.

Three facts about the code the model keeps. `JSON.parse` at
PostContext.tsx line 28 has no `try`, so a malformed stored value is not
handled. `content` is always stored, possibly as `""`. `addPost` does not
check for duplicate ids.

Two observations the model makes precise, neither treated as a defect.
The list screen deletes only when the modal's id is truthy, so a post
with id `0` cannot be deleted from there (ids are `Date.now()` values in
practice). A hand-written edit route with leading zeros such as `007`
converts to id 7 but matches no post by its string form, so the prefill
leaves the form empty (`PostEdit.LeadingZeroRoute`). If the user then types
a title and a description, the submit replaces every post with id 7
(`PostEdit.EditPage.HandleSubmit`).

## Model

| member | source | states |
|---|---|---|
| `JsText.Trim` | mini-blog/src/pages/PostList.tsx:24 | `trim` yields a contiguous piece of the text with only white space outside it; the piece is empty exactly when every character is white space, and otherwise neither starts nor ends with white space |
| `JsText.IsBlank` | mini-blog/src/pages/PostEdit.tsx:46 | `!x.trim()` holds exactly when the text has no visible character |
| `JsText.ParseId` | mini-blog/src/pages/PostEdit.tsx:52 | `Number(id)` converts a string exactly when it is a decimal integer numeral (digits, optionally after `-`); the value is negative only after a `-` |
| `JsText.IntToStringOfParseId` | mini-blog/src/pages/PostEdit.tsx:56 | for a numeral written as `toString` writes it, converting and printing again gives the same string |
| `JsText.IntToString` | mini-blog/src/pages/PostDetail.tsx:20 | the string form of an id is non-empty and starts with `-` exactly for negative ids |
| `JsText.ParseIdOfIntToString` | mini-blog/src/pages/PostEdit.tsx:52 | `Number(n.toString()) == n`: an id written into a route converts back to the same id |
| `JsText.IntToStringInjective` | mini-blog/src/pages/PostDetail.tsx:20 | two ids have the same string form exactly when they are equal, so comparing strings is comparing ids |
| `PostContext.Without` | mini-blog/src/context/PostContext.tsx:50 | the filtered list is no longer than the input and holds only input posts whose id differs from the deleted one |
| `PostContext.WithoutAppend` | mini-blog/src/context/PostContext.tsx:50 | filtering distributes over concatenation: each post is kept or dropped on its own and the kept ones keep their relative order |
| `PostContext.WithoutLength` | mini-blog/src/context/PostContext.tsx:50 | deleting an id shortens the list by exactly the number of posts that carry it |
| `PostContext.WithoutKeepsOthers` | mini-blog/src/context/PostContext.tsx:50 | every post with a different id is kept, as many times as it occurred |
| `PostContext.WithoutRemovesAll` | mini-blog/src/context/PostContext.tsx:50 | after deleting an id, no post carries it |
| `PostContext.WithoutAbsent` | mini-blog/src/context/PostContext.tsx:48-51 | deleting an id no post carries leaves the list unchanged |
| `PostContext.WithoutIdempotent` | mini-blog/src/context/PostContext.tsx:48-51 | deleting the same id twice is deleting it once |
| `PostContext.AddThenDelete` | mini-blog/src/context/PostContext.tsx:43-51 | deleting the id of a just-added post removes it with the rest of its id; for a new id the list is back to what it was |
| `PostContext.PostStore.constructor` | mini-blog/src/context/PostContext.tsx:22-23 | the provider starts with an empty list, `loading` true and the slot as earlier sessions left it |
| `PostContext.PostStore.Persist` | mini-blog/src/context/PostContext.tsx:35-41 | the effect leaves the slot alone while loading and otherwise overwrites it with the whole list |
| `PostContext.PostStore.FinishLoad` | mini-blog/src/context/PostContext.tsx:25-30 | the stored list, or `[]` when the slot is empty, replaces the whole list; loading ends and the slot then equals the list |
| `PostContext.PostStore.AddPost` | mini-blog/src/context/PostContext.tsx:43-46 | the list becomes `[post] + old list`; `loading` is unchanged; the slot is untouched while loading and equals the new list once loaded |
| `PostContext.PostStore.DeletePost` | mini-blog/src/context/PostContext.tsx:48-51 | the list becomes the old list without the id's posts; `loading` is unchanged; the slot is untouched while loading and equals the new list once loaded |
| `PostContext.Reload` | mini-blog/src/context/PostContext.tsx:25-41 | a fresh provider over a loaded store's slot shows, once its load finishes, exactly the same list |
| `PostContext.UsePosts` | mini-blog/src/context/PostContext.tsx:61-69 | `usePosts` returns the provider's store when there is one and fails with `OutsideProvider` exactly when there is none |
| `PageCommon.FindByRoute` | mini-blog/src/pages/PostDetail.tsx:20 | the lookup finds nothing exactly when no id reads as the route parameter; otherwise it returns the first post whose id does |
| `PageCommon.FindById` | mini-blog/src/pages/PostEdit.tsx:31 | looking up the string form of an id finds the first post with that id, and finds nothing exactly when no post has it |
| `PageCommon.FormAccepted` | mini-blog/src/pages/PostList.tsx:24-27 | a form passes the check exactly when both title and description contain a visible character |
| `PostList.IsTruthy` | mini-blog/src/pages/PostList.tsx:54 | the modal's id counts as true exactly when it is neither `null` nor `0` |
| `PostList.NewPost` | mini-blog/src/pages/PostList.tsx:29-35 | the new post carries the given id and time, the typed title and description, and the typed content, present even when `""` |
| `PostList.ListPage.constructor` | mini-blog/src/pages/PostList.tsx:7-19 | the screen uses the provider's store and starts with empty fields and a closed modal |
| `PostList.ListPage.HandleSubmit` | mini-blog/src/pages/PostList.tsx:21-43 | a rejected form changes no post, no storage and no field; an accepted one prepends exactly one post with the given id, time and typed fields (content as typed) and empties all three fields |
| `PostList.ListPage.HandleDeleteClick` | mini-blog/src/pages/PostList.tsx:45-51 | the modal is shown with that id and title |
| `PostList.ListPage.HandleConfirmDelete` | mini-blog/src/pages/PostList.tsx:53-58 | the modal's id is deleted only when it is non-null and non-zero, otherwise nothing in the store changes; the modal is closed either way |
| `PostList.ListPage.HandleCancelDelete` | mini-blog/src/pages/PostList.tsx:60-66 | the modal is hidden, with no id and an empty title; the posts are untouched |
| `PostDetail.ShownTitle` | mini-blog/src/pages/PostDetail.tsx:121-123 | the shown title is at most 18 long; up to 15 characters it is the title, beyond that its first 15 characters followed by `...` |
| `PostDetail.ShownTitlePrefix` | mini-blog/src/pages/PostDetail.tsx:121-123 | the shown title starts with the first `min(length, 15)` characters of the title |
| `PostDetail.ShownTitleUnchanged` | mini-blog/src/pages/PostDetail.tsx:121-123 | a title is shown unchanged exactly when it has at most 15 characters or is 15 characters followed by `...` |
| `PostDetail.DetailPage.constructor` | mini-blog/src/pages/PostDetail.tsx:15-18 | the screen uses the provider's store and the route parameter, with the confirmation closed |
| `PostDetail.DetailPage.CurrentPost` | mini-blog/src/pages/PostDetail.tsx:20-24 | the shown post is a listed post whose id reads as the route parameter; there is none exactly when no listed id does |
| `PostDetail.DetailPage.HandleDeleteClick` | mini-blog/src/pages/PostDetail.tsx:26-28 | the confirmation opens |
| `PostDetail.DetailPage.HandleConfirmDelete` | mini-blog/src/pages/PostDetail.tsx:30-34 | every post with the shown post's id is deleted, the route then finds nothing, the confirmation closes and the screen goes to `/` |
| `PostDetail.DetailPage.HandleCancelDelete` | mini-blog/src/pages/PostDetail.tsx:36-38 | the confirmation closes; the posts are untouched |
| `PostDetail.DetailPage.HandleEdit` | mini-blog/src/pages/PostDetail.tsx:40-42 | the screen goes to `/post/edit/` followed by the shown post's id |
| `PostDetail.DeletedRouteNotFound` | mini-blog/src/pages/PostDetail.tsx:20-34 | once the id of the post a route found is deleted, that route finds no post |
| `PostEdit.EditPage.constructor` | mini-blog/src/pages/PostEdit.tsx:16-26 | the screen uses the provider's store and the route parameter, with empty fields and its own `loading` true |
| `PostEdit.EditPage.Prefill` | mini-blog/src/pages/PostEdit.tsx:29-39 | the found post's title and description fill the form, and its content or `""`; with no match the fields stay as they were; `loading` is false either way |
| `PostEdit.EditPage.HandleSubmit` | mini-blog/src/pages/PostEdit.tsx:42-65 | a rejected form changes nothing; an accepted one leaves `[new post] + old list without Number(id)`, the new post carrying that id, the form's fields and the given time, and goes to the detail route |
| `PostEdit.EditOutcome` | mini-blog/src/pages/PostEdit.tsx:51-63 | after an edit the new post is first and the only one with its id, the others keep their order, the length is old length minus that id's posts plus one, and an absent id simply gains a post in front |
| `PostEdit.EditMovesToFront` | mini-blog/src/pages/PostEdit.tsx:52-63 | editing `a` in `[b, a]` gives `[a', b]` |
| `PostEdit.EditRouteRoundTrip` | mini-blog/src/pages/PostDetail.tsx:41 | the edit route built from a listed post converts back to its id, and the prefill lookup on it finds a post with that id |
| `PostEdit.LeadingZeroRoute` | mini-blog/src/pages/PostEdit.tsx:31-52 | the route `007` converts to id 7 but the lookup by string finds no post |

## Left out

- JSX rendering, Tailwind classes, `<style>` keyframes and the empty-list and loading screens: presentation only.
- The route table in `mini-blog/src/App.tsx` and react-router's matching: a library not part of this model. Navigation is recorded as the target path in `navigatedTo`.
- The 300 ms `setTimeout` and its `clearTimeout` cleanup: timer plumbing. The callback is the explicit `FinishLoad` step; an unmount before it fires is not modelled.
- `Date.now()`, `new Date().toISOString()` and `toLocaleString("tr-TR")`: clock and locale calls. The id and `createdAt` are method inputs, and `createdAt` is opaque text.
- `JSON.parse`, `JSON.stringify` and `localStorage`: foreign calls. The slot holds the list itself, so a malformed stored value, which the code would not catch, is not representable.
- React batching and effect scheduling: each updater is applied in turn, and the persistence effect runs after every committed change (inside each store method).
- `alert(...)`: a user-facing side effect. A rejected form is modelled as no state change.
- UTF-16 code units: `length`, `substring` and `trim` work on code points here, so a title with characters outside the Basic Multilingual Plane is measured differently.
- Ids are JavaScript numbers (doubles), but the model takes them as unbounded integers. The model is exact only for integers of magnitude below 2^53, such as `Date.now()` values. Beyond that, `Number` rounds and `toString` prints exponent forms (`1e+21`). For example, a route `9007199254740993` converts to 9007199254740992, so in the program the detail route the edit screen moves to no longer finds the edited post. `ParseId` and `IntToString` do not capture this.
- `PostEdit.EditPage.HandleSubmit`: requires the route parameter to be a decimal integer numeral (an optional `-` and digits). `Number(id)` on other strings is not modelled: empty, white space, `+`, exponents, hexadecimal, fractions, text giving `NaN`. Nor is it modelled on numerals longer than a double holds exactly (see the line above). The screen's own edit button only builds routes of the first kind (`PostEdit.EditRouteRoundTrip`).
- Input `onChange` handlers that copy typed text into the form fields: plain assignments of the field values, which the models take as their current field values.
