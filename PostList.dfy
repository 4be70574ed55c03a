/**
 * The list-and-create screen of mini-blog/src/pages/PostList.tsx: the
 * create form's three state cells, the delete-confirmation record and the
 * handlers that change them and call the store.
 */
module PostList {
  import opened Wrappers
  import opened PostContext
  import opened PageCommon

  /** The `deleteModal` state: shown or not, the post it asks about. */
  datatype DeleteModal = DeleteModal(show: bool, postId: Option<int>, postTitle: string)

  /** The closed modal the screen starts with and returns to. */
  const Closed := DeleteModal(false, None, "")

  /** JavaScript truthiness of a `number | null`: `null` and `0` are falsy. */
  predicate IsTruthy(id: Option<int>): (b: bool)
    ensures b <==> !(id == None || id == Some(0))
  {
    id.Some? && id.value != 0
  }

  /** The post the create form builds from its fields, a fresh id and a time. */
  function NewPost(id: int, title: string, description: string, content: string, createdAt: string): (p: Post)
    ensures p.id == id && p.createdAt == createdAt
    ensures p.title == title && p.description == description
    ensures p.content == Some(content)
  {
    Post(id, title, description, Some(content), createdAt)
  }

  class ListPage {
    const store: PostStore
    var title: string
    var content: string
    var description: string
    var deleteModal: DeleteModal

    /** Rendering the screen inside the provider (`usePosts` throws outside it). */
    constructor (context: Option<PostStore>)
      requires context.Some?
      ensures store == context.value
      ensures title == "" && content == "" && description == ""
      ensures deleteModal == Closed
    {
      store := UsePosts(context).value;
      title, content, description := "", "", "";
      deleteModal := Closed;
    }

    /** `handleSubmit`: a rejected form changes nothing; an accepted one
        puts a post with the given id and time in front and empties the
        form. */
    method HandleSubmit(now: int, createdAt: string)
      requires store.Valid()
      modifies this, store
      ensures FormAccepted(old(title), old(description)) ==>
        store.posts == [NewPost(now, old(title), old(description), old(content), createdAt)] + old(store.posts) &&
        title == "" && content == "" && description == ""
      ensures !FormAccepted(old(title), old(description)) ==>
        store.posts == old(store.posts) && store.storage == old(store.storage) &&
        title == old(title) && content == old(content) && description == old(description)
      ensures store.loading == old(store.loading) && store.Valid()
      ensures store.loading ==> store.storage == old(store.storage)
      ensures deleteModal == old(deleteModal)
    {
      if !FormAccepted(title, description) {
        return;
      }
      var post := NewPost(now, title, description, content, createdAt);
      store.AddPost(post);
      title := "";
      content := "";
      description := "";
    }

    /** `handleDeleteClick`: the modal opens on that post. */
    method HandleDeleteClick(id: int, postTitle: string)
      modifies this`deleteModal
      ensures deleteModal == DeleteModal(true, Some(id), postTitle)
    {
      deleteModal := DeleteModal(true, Some(id), postTitle);
    }

    /** `handleConfirmDelete`: deletes the modal's post when its id is
        truthy (so never id 0), then closes the modal. */
    method HandleConfirmDelete()
      requires store.Valid()
      modifies this`deleteModal, store
      ensures IsTruthy(old(deleteModal).postId) ==>
        store.posts == Without(old(store.posts), old(deleteModal).postId.value)
      ensures !IsTruthy(old(deleteModal).postId) ==>
        store.posts == old(store.posts) && store.storage == old(store.storage)
      ensures store.loading == old(store.loading) && store.Valid()
      ensures store.loading ==> store.storage == old(store.storage)
      ensures deleteModal == Closed
    {
      if IsTruthy(deleteModal.postId) {
        store.DeletePost(deleteModal.postId.value);
      }
      HandleCancelDelete();
    }

    /** `handleCancelDelete`: the modal closes; the posts are untouched. */
    method HandleCancelDelete()
      modifies this`deleteModal
      ensures deleteModal == Closed
    {
      deleteModal := Closed;
    }
  }
}
