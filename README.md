# Social media posts: moderated publishing, feed, likes and comments

This project models the core of a small social-media application in Dafny.
Users sign in through an identity provider and then create posts (text, one
media file, or both), like them and comment on them. Before a post is
published, its content is screened by an outside classifier. The model covers:

- **The post controller** (`PostController`): the create pipeline, the feed,
  the like toggle and the comment append.
  - The create pipeline classifies the content. It rejects on the label
    `cyberbullying` and e-mails the author. Otherwise it uploads the file, if
    there is one, and stores the post.
  - The feed lists the posts newest first.
  - The like toggle adds or removes the session user's id.
  - The comment append adds one comment at the end.
- **The post store** (`PostRepository`): a class holding the post collection.
  It can create a post, find one by id and save a changed one.
- **The authentication gate and upload parser** (`AuthMiddleware`).
- **The post route table** (`PostRoutes`): which chain of gate, parser and
  handler each endpoint runs. It also proves that every mutating handler acts
  for the authenticated session user.
- **The client reducers** (`PostSlice`, `AuthSlice`): classes whose methods
  update the state in place, one method per action case.

Three outside services stay outside the model: the classifier, the media
store and the mailer. The classifier's verdict and the upload's result are
inputs of the pipeline. The requests the pipeline makes are recorded in the
`Plan` it computes: the form sent to the classifier, the address of the
violation e-mail, and the bytes sent for upload. The clock is a parameter
(`now`). Post ids are handed out by the store from a counter. Populated user
objects are reduced to user ids.

Some behaviour of the server and the client is easy to miss:

- The server does not require a post to have text or media. Only the client
  form checks this. `PostController.EmptyPostIsAccepted` shows that a post
  with neither is stored.
- The server does not require comment text either. Only the client checks
  this, so a comment's text is `Option<string>` and may be empty.
- The like list is a list, not a set. An unlike followed by a like moves the
  user's id to the end (`PostController.ToggleTwiceCanReorder`). Read as a
  set, the likes are restored (`PostController.ToggleTwiceRestoresSet`).
- The `getPosts.pending` reducer sets a `status` field, not `loading`. No
  reducer ever sets `loading` to true, so from the initial state it stays
  false (`PostSlice.PostsState.Dispatch`).

## Model

| member | source | states |
|---|---|---|
| `Model.ErrorMessage` | backend/src/controllers/postController.js:79-83 | The error text is the upstream response's message when it is non-empty; otherwise it is the error's own message, whatever that is. |
| `Model.FindIndex` | frontend/src/features/postSlice.js:99-101 | The result is -1 exactly when no entry has the id. Otherwise it is the index of the first entry with that id. |
| `AuthMiddleware.EnsureAuthenticated` | backend/src/middleware/auth.js:1-4 | The gate passes on exactly the authenticated requests. Every other request gets 401 "Unauthorized". |
| `AuthMiddleware.ParseSingleFile` | backend/src/middleware/auth.js:6-9 | With no file part, the parser passes on with no file. A file under another field is an error. So is a file over 50 MiB. Otherwise the file is handed on unchanged. |
| `AuthMiddleware.FileSizeLimitBoundary` | backend/src/middleware/auth.js:8 | The limit is 52,428,800 bytes. A file of exactly that size is accepted, and one byte more is refused. |
| `PostRoutes.FirstRoute` | backend/src/routes/postRoutes.js:9-17 | The route found is in the table, has the request's verb and matches the path. No route is found only when none matches. |
| `PostRoutes.RunChain` | backend/src/routes/postRoutes.js:9-17 | When a chain reaches its handler, the handler gets the session's user and the path parameters. A chain that answers before its handler answers 401 "Unauthorized", and only for an anonymous session. |
| `PostRoutes.Dispatch` | backend/src/routes/postRoutes.js:9-17 | A request no route matches is unrouted. A request that reaches a handler reaches it with the session's user and the path parameters of the first matching route. A request answered before its handler is an anonymous one, answered 401 "Unauthorized". |
| `PostRoutes.GatedChainSeesSessionUser` | backend/src/middleware/auth.js:2-3 | In a chain with the gate before the handler, the handler is reached only for an authenticated session, and it acts for that session's user. |
| `PostRoutes.OnlyFeedReadIsUngated` | backend/src/routes/postRoutes.js:9-17 | Every POST route is gated. The only ungated route is `GET /`. |
| `PostRoutes.MutatingHandlersSeeSessionUser` | backend/src/routes/postRoutes.js:9-17 | For any request, a handler other than the feed read is reached only with an authenticated session, and it acts for the session user. |
| `PostRoutes.AnonymousGetsUnauthorized` | backend/src/routes/postRoutes.js:9-17 | An anonymous POST is either unrouted or answered 401 "Unauthorized". |
| `PostRoutes.CreateRoute` | backend/src/routes/postRoutes.js:9-14 | `POST /create` runs the gate, then the "media" file parser, then `createPost`. An anonymous request is refused before any file is parsed. |
| `PostRoutes.FeedRoute` | backend/src/routes/postRoutes.js:15 | `GET /` reaches `getPosts` for any session, with no gate. |
| `PostRoutes.LikeAndCommentRoutes` | backend/src/routes/postRoutes.js:16-17 | `POST /:id/like` and `POST /:id/comment` reach their handler with the id, but only after the gate; anonymous requests get 401. |
| `PostRepository.PostStore.Create` | backend/src/controllers/postController.js:61-66 | The new post gets an id no stored post has. It has no likes and no comments and is added after the unchanged existing posts. |
| `PostRepository.PostStore.FindById` | backend/src/controllers/postController.js:106-109 | The lookup finds nothing exactly when no stored post has the id. Otherwise it returns a stored post with that id. |
| `PostRepository.PostStore.Save` | backend/src/controllers/postController.js:121 | Saving replaces the stored post with the same id. Nothing else changes. |
| `PostController.AnalyzeContent` | backend/src/controllers/postController.js:14-24 | Non-empty text is classified, and then the file is never sent. The file is sent only when the text is absent or empty. With neither, an empty form is sent. |
| `PostController.LeadingToken` | backend/src/controllers/postController.js:65 | `split("/")[0]` gives a prefix that contains no "/". It ends at the first "/", or at the end of the string when there is none. |
| `PostController.MediaType` | backend/src/controllers/postController.js:65 | With a file, `mediaType` is the mimetype's leading token (the part before the first "/"). Without a file, it is "text". |
| `PostController.PlanCreate` | backend/src/controllers/postController.js:26-84 | Rejection happens on exactly the "cyberbullying" label; only then is the user's e-mail notified, and nothing is uploaded or persisted. A classifier error fails with its message. Only a passing verdict with a file causes an upload, of that file's bytes; an upload error fails with its message. Otherwise a draft is persisted with the session user as author, the request text, the upload's URL (none without a file) and the media type. |
| `PostController.CreatePost` | backend/src/controllers/postController.js:26-84 | A violation answers 400 with the guidelines message. A failure answers 500 with the error's message. In both cases the store is unchanged. Otherwise exactly one post is stored from the draft and returned with 201. |
| `PostController.EmptyPostIsAccepted` | backend/src/controllers/postController.js:17-23 | With neither text nor file, an empty form is classified. Unless the content is flagged, a post with no text and no media is stored. |
| `PostController.SortNewestFirst` | backend/src/controllers/postController.js:97 | The feed holds each stored post exactly once (a permutation), and creation times never increase along it. |
| `PostController.GetPosts` | backend/src/controllers/postController.js:86-98 | The answer is 200 with every stored post exactly once, newest first. |
| `PostController.RemoveAll` | backend/src/controllers/postController.js:114-116 | The filter removes every copy of the id and keeps every other id as often as it was there. |
| `PostController.RemoveAllAppend` | backend/src/controllers/postController.js:114-116 | The filter works piece by piece, so the ids that remain keep their order. |
| `PostController.RemoveAllAbsent` | backend/src/controllers/postController.js:114-116 | Filtering out an id that is not in the list leaves the list unchanged. |
| `PostController.ToggleLikes` | backend/src/controllers/postController.js:113-119 | The user ends up in the likes exactly when it was not there before. An absent user is appended once, a present one is removed everywhere, and other ids keep their counts. |
| `PostController.ToggleTwiceRestores` | backend/src/controllers/postController.js:113-119 | Starting from a list without the user, two toggles restore the list exactly. |
| `PostController.ToggleTwiceMovesToEnd` | backend/src/controllers/postController.js:113-119 | Starting from a list with the user, two toggles move the user's id to the end. |
| `PostController.ToggleTwiceCanReorder` | backend/src/controllers/postController.js:113-119 | As a concrete case, two toggles by "a" turn ["a", "b"] into ["b", "a"]. |
| `PostController.ToggleTwiceRestoresSet` | backend/src/controllers/postController.js:113-119 | As a set, the likes are always restored by two toggles. |
| `PostController.ToggleKeepsNoDuplicates` | backend/src/controllers/postController.js:113-119 | If the likes have no duplicates, they still have none after a toggle. |
| `PostController.LikePost` | backend/src/controllers/postController.js:104-130 | An unknown id gets 404 "Post not found" and nothing changes. Otherwise only that post changes: its likes are toggled for the session user, and it is returned. |
| `PostController.AddComment` | backend/src/controllers/postController.js:132-160 | An unknown id gets 404 and no comment is created. Otherwise one comment `{session user, text}` is appended after the unchanged earlier ones, only that post changes, and it is returned with 201. |
| `PostSlice.ReplaceFirstById` | frontend/src/features/postSlice.js:98-113 | Only the first entry with the payload's id is replaced. The length and every other entry are unchanged, and a list without the id is left as it is. |
| `PostSlice.RejectedMessage` | frontend/src/features/postSlice.js:90-94 | The error is the server's message when it is non-empty. Otherwise it is the payload's own message, or nothing when there is no payload. |
| `PostSlice.PostsState.constructor` | frontend/src/features/postSlice.js:77 | The initial state has no posts, `loading` false, `error` and `createPostError` null, and no `status`. |
| `PostSlice.PostsState.GetPostsPending` | frontend/src/features/postSlice.js:81-84 | Pending sets `status` and clears `error`. It leaves `posts` and `loading` untouched. |
| `PostSlice.PostsState.GetPostsFulfilled` | frontend/src/features/postSlice.js:85-89 | The payload replaces `posts` wholesale, `loading` becomes false and `error` null. |
| `PostSlice.PostsState.GetPostsRejected` | frontend/src/features/postSlice.js:90-94 | `posts` is kept, `loading` becomes false and `error` gets the rejection's message. |
| `PostSlice.PostsState.CreatePostFulfilled` | frontend/src/features/postSlice.js:95-97 | The new post is at index 0 and the old posts follow in their order. |
| `PostSlice.PostsState.ReplaceById` | frontend/src/features/postSlice.js:99-104 | The list becomes the one with the first matching entry replaced. |
| `PostSlice.PostsState.LikePostFulfilled` | frontend/src/features/postSlice.js:98-105 | Only the first entry with the liked post's id is replaced. |
| `PostSlice.PostsState.CommentPostFulfilled` | frontend/src/features/postSlice.js:106-113 | Only the first entry with the commented post's id is replaced. |
| `PostSlice.PostsState.Dispatch` | frontend/src/features/postSlice.js:79-114 | Each action gives its case's whole new state. A pending fetch sets `status` and clears `error`. A fulfilled fetch replaces the list, clears `loading` and `error`. A rejected fetch keeps the list, clears `loading` and records the failure's message. A created post goes in front. A liked or commented post replaces the first entry with its id. No action sets `loading` to true and none touches `createPostError`. An action without a case changes nothing. |
| `AuthSlice.AuthState.constructor` | frontend/src/features/authSlice.js:18-22 | The initial state has no user, `status` "idle" and `initialized` false. |
| `AuthSlice.AuthState.Pending` | frontend/src/features/authSlice.js:26-28 | `status` becomes "loading". `user` and `initialized` are unchanged. |
| `AuthSlice.AuthState.Fulfilled` | frontend/src/features/authSlice.js:29-33 | `status` becomes "succeeded", the payload becomes the user and `initialized` becomes true. |
| `AuthSlice.AuthState.Rejected` | frontend/src/features/authSlice.js:34-38 | `status` becomes "failed", `user` becomes null and `initialized` becomes true. |
| `AuthSlice.AuthState.Dispatch` | frontend/src/features/authSlice.js:24-39 | Each action gives its case's whole new state. Pending sets "loading" and keeps the user and the flag. Fulfilled sets "succeeded", the payload user and `initialized`. Rejected sets "failed", no user and `initialized`. `status` stays one of idle, loading, succeeded and failed. Once `initialized` is true, it stays true. A user is set only by a successful check, and an action without a case changes nothing. |

## Left out

- The classifier call, the media upload stream and the violation e-mail are not modelled as services. They are represented by their results (inputs) and the requests made of them (the `Plan`). The e-mail is fire-and-forget, so its failure cannot affect the response.
- Store failures are not modelled: `Post.create`, `find`, `findById` and `save` never throw here. In the source, such a throw is answered 500 with the error's message.
- Malformed post ids are not modelled. Ids are numbers from the store's counter. In the source, an id string that is not a valid object id makes `findById` throw, which is answered 500.
- `populate` is not modelled: authors and commenters are kept as user ids. The post model's schema (defaults, comment ids and timestamps, validation) is not part of this model. A stored post starts with empty likes and comments and the given creation time.
- The store's sort is modelled by one particular newest-first order. Posts with equal creation times may come in another order in the source; the contract promises only the order and the permutation.
- The behaviour of the route matcher is simplified. Literal segments are compared exactly, with no case folding and no trailing-slash tolerance. The mount prefix `/posts` is dropped. What the framework's default error handler answers for a parser error is not modelled.
- Concurrency is not modelled: requests run one after another. The non-atomic read-modify-write in `likePost` and `addComment` is outside the model.
- The asynchronous request functions of the two client modules are not modelled; only the reducers are. Neither are the session and OAuth handshake, server wiring, the e-mail template, or any UI.
- Requests with more than one file part are not modelled. The parser accepts at most one file, under "media"; a request carries at most one file part here, so a second "media" file, which the parser refuses, cannot be expressed.
- `PostController.CreatePost`: the populated re-read after `Post.create` is modelled as returning the created post itself.
