/** Values shared by the server and the browser client: users, posts and
    comments as the post store keeps them and the client receives them as
    JSON, and the JavaScript conventions (truthiness, `a || b`, `findIndex`)
    the code relies on. Populated user objects are represented by their ids. */
module Model {

  datatype Option<+T> = None | Some(value: T)

  /** The identity-provider subject id a session user carries as `_id`. */
  type UserId = string

  /** Post ids are handed out by the store; they are compared only for equality. */
  type PostId = nat

  datatype User = User(id: UserId, name: string, email: string)

  /** A comment embedded in a post: its author and the `text` field of the
      request body, which the server does not check (it may be absent or empty). */
  datatype Comment = Comment(user: UserId, text: Option<string>)

  datatype Post = Post(
    id: PostId,
    user: UserId,
    text: Option<string>,
    mediaUrl: Option<string>,
    mediaType: string,
    likes: seq<UserId>,
    comments: seq<Comment>,
    createdAt: int)

  /** A file as the memory-storage upload parser hands it over. */
  datatype UploadedFile = UploadedFile(originalname: string, mimetype: string, buffer: seq<bv8>)

  /** A string field is truthy in JavaScript when it is present and not empty. */
  predicate Truthy(s: Option<string>) {
    s.Some? && s.value != ""
  }

  /** An error as thrown by an HTTP client: the message the server put in the
      response body, if any, and the error's own message, if any. */
  datatype HttpError = HttpError(responseMessage: Option<string>, message: Option<string>)

  /** `err.response?.data?.message || err?.message`: the upstream message when it
      is a non-empty string, otherwise the error's own message, whatever it is. */
  function ErrorMessage(e: HttpError): (m: Option<string>)
    ensures Truthy(e.responseMessage) ==> m == e.responseMessage
    ensures !Truthy(e.responseMessage) ==> m == e.message
  {
    if Truthy(e.responseMessage) then e.responseMessage else e.message
  }

  /** `posts[k]` is the first entry whose id is `id`. */
  predicate IsFirstMatch(posts: seq<Post>, k: nat, id: PostId)
    requires k < |posts|
  {
    posts[k].id == id && forall j :: 0 <= j < k ==> posts[j].id != id
  }

  /** `posts.findIndex(post => post._id === id)`: the index of the first entry
      with that id, or -1 when there is none. */
  function FindIndex(posts: seq<Post>, id: PostId): (i: int)
    ensures -1 <= i < |posts|
    ensures i == -1 <==> forall k :: 0 <= k < |posts| ==> posts[k].id != id
    ensures 0 <= i ==> IsFirstMatch(posts, i, id)
  {
    if posts == [] then -1
    else if posts[0].id == id then 0
    else
      var j := FindIndex(posts[1..], id);
      if j == -1 then -1 else j + 1
  }
}
