/** The client's posts state and the reducers that answer the post requests'
    lifecycle actions. The reducers change the state in place: the list is
    reassigned, prepended to or updated at one index, and the flags are
    assigned. The requests themselves are not part of this module. */
module PostSlice {

  import opened Model

  /** The list after the entry for `p` is swapped in: the first entry with
      `p`'s id becomes `p`, every other entry stays where and what it was, and
      a list without that id is left as it is. */
  function ReplaceFirstById(posts: seq<Post>, p: Post): (r: seq<Post>)
    ensures |r| == |posts|
    ensures forall k :: 0 <= k < |posts| ==> r[k] == (if IsFirstMatch(posts, k, p.id) then p else posts[k])
    ensures (forall k :: 0 <= k < |posts| ==> posts[k].id != p.id) ==> r == posts
  {
    var i := FindIndex(posts, p.id);
    if i == -1 then posts else posts[i := p]
  }

  /** The message a failed feed request leaves in `error`: the server's message
      when there is a non-empty one, otherwise the error's own message; nothing
      when the action carries no error. */
  function RejectedMessage(payload: Option<HttpError>): (m: Option<string>)
    ensures payload.None? ==> m == None
    ensures payload.Some? && Truthy(payload.value.responseMessage) ==> m == payload.value.responseMessage
    ensures payload.Some? && !Truthy(payload.value.responseMessage) ==> m == payload.value.message
  {
    match payload
    case None => None
    case Some(e) => ErrorMessage(e)
  }

  /** The actions the reducer has cases for; any other action is `Other`. */
  datatype PostAction =
    | GetPostsPending
    | GetPostsFulfilled(posts: seq<Post>)
    | GetPostsRejected(payload: Option<HttpError>)
    | CreatePostFulfilled(post: Post)
    | LikePostFulfilled(post: Post)
    | CommentPostFulfilled(post: Post)
    | Other

  class PostsState {
    var posts: seq<Post>
    var loading: bool
    /** `null` and `undefined` are both `None`. */
    var error: Option<string>
    var createPostError: Option<string>
    /** Not in the initial state; the pending case sets it to `true`. */
    var status: Option<bool>

    /** The initial state: no posts, not loading, no errors. */
    constructor ()
      ensures posts == [] && !loading && error == None && createPostError == None && status == None
    {
      posts := [];
      loading := false;
      error := None;
      createPostError := None;
      status := None;
    }

    /** getPosts.pending: sets `status` and clears `error`; `posts` and
        `loading` are left as they were. */
    method GetPostsPending()
      modifies this
      ensures status == Some(true) && error == None
      ensures posts == old(posts) && loading == old(loading) && createPostError == old(createPostError)
    {
      status := Some(true);
      error := None;
    }

    /** getPosts.fulfilled: the payload replaces the list wholesale. */
    method GetPostsFulfilled(payload: seq<Post>)
      modifies this
      ensures posts == payload && !loading && error == None
      ensures createPostError == old(createPostError) && status == old(status)
    {
      posts := payload;
      loading := false;
      error := None;
    }

    /** getPosts.rejected: the list is kept and the failure's message recorded. */
    method GetPostsRejected(payload: Option<HttpError>)
      modifies this
      ensures !loading && error == RejectedMessage(payload)
      ensures posts == old(posts) && createPostError == old(createPostError) && status == old(status)
    {
      loading := false;
      error := RejectedMessage(payload);
    }

    /** createPost.fulfilled: the new post goes in front of the old ones. */
    method CreatePostFulfilled(payload: Post)
      modifies this
      ensures posts == [payload] + old(posts)
      ensures loading == old(loading) && error == old(error)
      ensures createPostError == old(createPostError) && status == old(status)
    {
      posts := [payload] + posts;
    }

    /** The shared body of likePost.fulfilled and commentPost.fulfilled. */
    method ReplaceById(payload: Post)
      modifies this
      ensures posts == ReplaceFirstById(old(posts), payload)
      ensures loading == old(loading) && error == old(error)
      ensures createPostError == old(createPostError) && status == old(status)
    {
      var index := FindIndex(posts, payload.id);
      if index != -1 {
        posts := posts[index := payload];
      }
    }

    /** likePost.fulfilled: the liked post replaces its entry. */
    method LikePostFulfilled(payload: Post)
      modifies this
      ensures posts == ReplaceFirstById(old(posts), payload)
      ensures loading == old(loading) && error == old(error)
      ensures createPostError == old(createPostError) && status == old(status)
    {
      ReplaceById(payload);
    }

    /** commentPost.fulfilled: the commented post replaces its entry. */
    method CommentPostFulfilled(payload: Post)
      modifies this
      ensures posts == ReplaceFirstById(old(posts), payload)
      ensures loading == old(loading) && error == old(error)
      ensures createPostError == old(createPostError) && status == old(status)
    {
      ReplaceById(payload);
    }

    /** The slice reducer: each action goes to its case and produces that
        case's new state; an action without a case changes nothing. No action sets `loading`, and none touches
        `createPostError`, so from the initial state `loading` stays false and
        `createPostError` stays null. */
    method Dispatch(action: PostAction)
      modifies this
      ensures loading ==> old(loading)
      ensures createPostError == old(createPostError)
      ensures |posts| == match action
        case GetPostsFulfilled(payload) => |payload|
        case CreatePostFulfilled(_) => |old(posts)| + 1
        case _ => |old(posts)|
      ensures action.GetPostsPending? ==>
        posts == old(posts) && loading == old(loading) && error == None && status == Some(true)
      ensures action.GetPostsFulfilled? ==>
        posts == action.posts && !loading && error == None && status == old(status)
      ensures action.GetPostsRejected? ==>
        posts == old(posts) && !loading && error == RejectedMessage(action.payload) && status == old(status)
      ensures action.CreatePostFulfilled? ==>
        posts == [action.post] + old(posts) && loading == old(loading) && error == old(error) && status == old(status)
      ensures action.LikePostFulfilled? || action.CommentPostFulfilled? ==>
        posts == ReplaceFirstById(old(posts), action.post) && loading == old(loading) && error == old(error) && status == old(status)
      ensures action.Other? ==>
        posts == old(posts) && loading == old(loading) && error == old(error) && status == old(status)
    {
      match action
      case GetPostsPending => GetPostsPending();
      case GetPostsFulfilled(payload) => GetPostsFulfilled(payload);
      case GetPostsRejected(payload) => GetPostsRejected(payload);
      case CreatePostFulfilled(p) => CreatePostFulfilled(p);
      case LikePostFulfilled(p) => LikePostFulfilled(p);
      case CommentPostFulfilled(p) => CommentPostFulfilled(p);
      case Other =>
    }
  }
}
