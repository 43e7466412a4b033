/** The post controller: the moderated create pipeline, the feed, the like
    toggle and the comment append. The classifier, the media upload and the
    violation e-mail are outside services: the classifier's verdict and the
    upload's result are inputs, and the requests made to them are recorded in
    the plan the pipeline computes. Handlers receive the session user the gate
    let through (see PostRoutes.MutatingHandlersSeeSessionUser). */
module PostController {

  import opened Model
  import opened PostRepository

  /** The one classifier label that blocks publication. */
  const ViolationLabel := "cyberbullying"
  const ViolationMessage := "Content violates community guidelines"
  const NotFoundMessage := "Post not found"

  /** A JSON response: a `{message}` object (an absent message is left out),
      one post, or a list of posts. */
  datatype Body = Message(message: Option<string>) | One(post: Post) | Many(posts: seq<Post>)
  datatype Response = Response(status: int, body: Body)

  // ---------------------------------------------------------------------------
  // createPost

  /** The `text` field and the `media` file of a create request, with the
      session user. */
  datatype CreateRequest = CreateRequest(user: User, text: Option<string>, file: Option<UploadedFile>)

  /** The classifier's answer: its `predicted_label`, or the error the call threw. */
  datatype Classification = Classified(predictedLabel: string) | ClassifyFailed(error: HttpError)

  /** The media store's answer: the `secure_url` of the uploaded file, or the error. */
  datatype UploadResult = Uploaded(secureUrl: string) | UploadFailed(error: HttpError)

  /** What is sent to the classifier: a `{text}` object, a multipart form with
      the file under "file", or an empty form. */
  datatype ClassifierForm = TextForm(text: string) | FileForm(buffer: seq<bv8>, filename: string) | EmptyForm

  datatype Decision = Violation | Failure(message: Option<string>) | Persist(draft: Draft)

  /** The requests the pipeline makes of the outside services, and its decision:
      the classifier form, the address the violation e-mail goes to, the bytes
      sent to the media store. */
  datatype Plan = Plan(form: ClassifierForm, emailTo: Option<string>, uploadRequest: Option<seq<bv8>>, decision: Decision)

  /** `analyzeContent`: non-empty text is classified and the file is then never
      sent; the file is sent only when the text is absent or empty; with
      neither, an empty form is sent. */
  function AnalyzeContent(text: Option<string>, file: Option<UploadedFile>): (form: ClassifierForm)
    ensures form.TextForm? <==> Truthy(text)
    ensures form.TextForm? ==> text == Some(form.text)
    ensures form.FileForm? <==> !Truthy(text) && file.Some?
    ensures form.FileForm? ==> form.buffer == file.value.buffer && form.filename == file.value.originalname
  {
    if Truthy(text) then TextForm(text.value)
    else if file.Some? then FileForm(file.value.buffer, file.value.originalname)
    else EmptyForm
  }

  /** `s.split("/")[0]`: the longest prefix of `s` without a "/", which ends
      where the first "/" is. */
  function LeadingToken(s: string): (t: string)
    ensures t <= s
    ensures '/' !in t
    ensures |t| < |s| ==> s[|t|] == '/'
  {
    if s == [] || s[0] == '/' then [] else [s[0]] + LeadingToken(s[1..])
  }

  /** The `mediaType` of a new post: the primary token of the file's mimetype
      ("image" for "image/png"), or "text" when there is no file. */
  function MediaType(file: Option<UploadedFile>): (t: string)
    ensures file.None? ==> t == "text"
    ensures file.Some? ==> t <= file.value.mimetype && '/' !in t
    ensures file.Some? && |t| < |file.value.mimetype| ==> file.value.mimetype[|t|] == '/'
  {
    if file.Some? then LeadingToken(file.value.mimetype) else "text"
  }

  /** The createPost pipeline: classify, reject on the violation label, upload
      the file if there is one, then persist with the session user as author. */
  function PlanCreate(req: CreateRequest, verdict: Classification, upload: UploadResult): (p: Plan)
    ensures p.form == AnalyzeContent(req.text, req.file)
    // rejection happens on exactly the violation label, and only then is the user e-mailed
    ensures p.decision == Violation <==> verdict == Classified(ViolationLabel)
    ensures p.emailTo == (if p.decision == Violation then Some(req.user.email) else None)
    // the file is uploaded once, after a passing verdict, and never without a file
    ensures p.uploadRequest.Some? <==> verdict.Classified? && verdict.predictedLabel != ViolationLabel && req.file.Some?
    ensures p.uploadRequest.Some? ==> p.uploadRequest.value == req.file.value.buffer
    // moderation is fail-closed, and a failure carries the error's message
    ensures verdict.ClassifyFailed? ==> p.decision == Failure(ErrorMessage(verdict.error))
    ensures p.decision.Failure? && verdict.Classified? ==> upload.UploadFailed? && p.decision.message == ErrorMessage(upload.error)
    // anything else is persisted, authored by the session user
    ensures p.decision.Persist? <==> verdict.Classified? && verdict.predictedLabel != ViolationLabel && (req.file.None? || upload.Uploaded?)
    ensures p.decision.Persist? ==> p.decision.draft.user == req.user.id && p.decision.draft.text == req.text
    ensures p.decision.Persist? ==> p.decision.draft.mediaType == MediaType(req.file)
    ensures p.decision.Persist? ==> p.decision.draft.mediaUrl == (if req.file.Some? then Some(upload.secureUrl) else None)
  {
    var form := AnalyzeContent(req.text, req.file);
    match verdict
    case ClassifyFailed(e) => Plan(form, None, None, Failure(ErrorMessage(e)))
    case Classified(predicted) =>
      if predicted == ViolationLabel then Plan(form, Some(req.user.email), None, Violation)
      else if req.file.None? then Plan(form, None, None, Persist(Draft(req.user.id, req.text, None, MediaType(req.file))))
      else
        var sent := Some(req.file.value.buffer);
        match upload
        case UploadFailed(e) => Plan(form, None, sent, Failure(ErrorMessage(e)))
        case Uploaded(url) => Plan(form, None, sent, Persist(Draft(req.user.id, req.text, Some(url), MediaType(req.file))))
  }

  /** `createPost`: 400 with the guidelines message on a violation, 500 with the
      error's message on a failure, and in both cases no post is stored;
      otherwise exactly one post is stored from the draft and returned with 201. */
  method CreatePost(store: PostStore, req: CreateRequest, verdict: Classification, upload: UploadResult, now: int)
    returns (resp: Response)
    requires store.Valid()
    modifies store
    ensures store.Valid()
    ensures var plan := PlanCreate(req, verdict, upload);
      match plan.decision
      case Violation =>
        resp == Response(400, Message(Some(ViolationMessage))) &&
        store.posts == old(store.posts) && store.nextId == old(store.nextId)
      case Failure(m) =>
        resp == Response(500, Message(m)) &&
        store.posts == old(store.posts) && store.nextId == old(store.nextId)
      case Persist(d) =>
        resp == Response(201, One(NewPost(old(store.nextId), d, now))) &&
        store.posts == old(store.posts) + [resp.body.post]
  {
    var plan := PlanCreate(req, verdict, upload);
    match plan.decision
    case Violation =>
      resp := Response(400, Message(Some(ViolationMessage)));
    case Failure(m) =>
      resp := Response(500, Message(m));
    case Persist(d) =>
      var post := store.Create(d, now);
      resp := Response(201, One(post));
  }

  /** The server does not require content: with neither text nor file, an empty
      form is classified and, unless it is flagged, a post with no text and no
      media is stored. */
  lemma EmptyPostIsAccepted(user: User, predicted: string, upload: UploadResult)
    requires predicted != ViolationLabel
    ensures var p := PlanCreate(CreateRequest(user, None, None), Classified(predicted), upload);
      p.form == EmptyForm && p.decision == Persist(Draft(user.id, None, None, "text"))
  {
  }

  // ---------------------------------------------------------------------------
  // getPosts

  /** Creation times never increase along the feed. */
  predicate NewestFirst(feed: seq<Post>) {
    forall i, j :: 0 <= i < j < |feed| ==> feed[i].createdAt >= feed[j].createdAt
  }

  /** A post no older than the head of a newest-first feed can go in front of it. */
  lemma PrependNewestFirst(p: Post, feed: seq<Post>)
    requires NewestFirst(feed)
    requires feed == [] || p.createdAt >= feed[0].createdAt
    ensures NewestFirst([p] + feed)
  {
  }

  /** Inserts a post into a newest-first feed before the first older post. */
  function InsertByDate(p: Post, feed: seq<Post>): (r: seq<Post>)
    requires NewestFirst(feed)
    ensures NewestFirst(r)
    ensures multiset(r) == multiset(feed) + multiset{p}
    ensures r[0] == p || (feed != [] && r[0] == feed[0])
  {
    if feed == [] || p.createdAt >= feed[0].createdAt then
      PrependNewestFirst(p, feed);
      [p] + feed
    else
      var rest := InsertByDate(p, feed[1..]);
      assert feed == [feed[0]] + feed[1..];
      PrependNewestFirst(feed[0], rest);
      [feed[0]] + rest
  }

  /** The `sort("-createdAt")` the store applies to the feed. */
  function SortNewestFirst(posts: seq<Post>): (r: seq<Post>)
    ensures NewestFirst(r)
    ensures multiset(r) == multiset(posts)
  {
    if posts == [] then []
    else
      assert posts == [posts[0]] + posts[1..];
      InsertByDate(posts[0], SortNewestFirst(posts[1..]))
  }

  /** `getPosts`: every stored post, each exactly once, newest first. */
  method GetPosts(store: PostStore) returns (resp: Response)
    ensures resp.status == 200 && resp.body.Many?
    ensures NewestFirst(resp.body.posts)
    ensures multiset(resp.body.posts) == multiset(store.posts)
  {
    resp := Response(200, Many(SortNewestFirst(store.posts)));
  }

  // ---------------------------------------------------------------------------
  // likePost

  /** `likes.filter(id => id !== u)`: every copy of `u` dropped, the other ids
      kept with their multiplicity. */
  function RemoveAll(likes: seq<UserId>, u: UserId): (r: seq<UserId>)
    ensures u !in r
    ensures forall x :: x != u ==> multiset(r)[x] == multiset(likes)[x]
    ensures |r| == |likes| - multiset(likes)[u]
  {
    if likes == [] then []
    else
      assert likes == [likes[0]] + likes[1..];
      (if likes[0] == u then [] else [likes[0]]) + RemoveAll(likes[1..], u)
  }

  /** Removing an id works piece by piece, so the remaining ids keep their order. */
  lemma {:induction false} RemoveAllAppend(a: seq<UserId>, b: seq<UserId>, u: UserId)
    ensures RemoveAll(a + b, u) == RemoveAll(a, u) + RemoveAll(b, u)
  {
    if a == [] {
      assert a + b == b;
    } else {
      assert (a + b)[1..] == a[1..] + b;
      RemoveAllAppend(a[1..], b, u);
    }
  }

  /** Removing an id that is not there changes nothing. */
  lemma {:induction false} RemoveAllAbsent(likes: seq<UserId>, u: UserId)
    requires u !in likes
    ensures RemoveAll(likes, u) == likes
  {
    if likes != [] {
      RemoveAllAbsent(likes[1..], u);
    }
  }

  /** The like toggle on a list of user ids: a present id is removed (every
      copy of it), an absent one is appended once. */
  function ToggleLikes(likes: seq<UserId>, u: UserId): (r: seq<UserId>)
    ensures u in r <==> u !in likes
    ensures u !in likes ==> r == likes + [u]
    ensures u in likes ==> r == RemoveAll(likes, u)
    ensures forall x :: x != u ==> multiset(r)[x] == multiset(likes)[x]
  {
    if u in likes then RemoveAll(likes, u) else likes + [u]
  }

  /** From a list without the user, a like and an unlike restore the list exactly. */
  lemma ToggleTwiceRestores(likes: seq<UserId>, u: UserId)
    requires u !in likes
    ensures ToggleLikes(ToggleLikes(likes, u), u) == likes
  {
    RemoveAllAppend(likes, [u], u);
    RemoveAllAbsent(likes, u);
  }

  /** From a list with the user, an unlike and a like move the user's id to the end. */
  lemma ToggleTwiceMovesToEnd(likes: seq<UserId>, u: UserId)
    requires u in likes
    ensures ToggleLikes(ToggleLikes(likes, u), u) == RemoveAll(likes, u) + [u]
  {
  }

  /** So a toggle pair can reorder the likes: ["a", "b"] becomes ["b", "a"]. */
  lemma ToggleTwiceCanReorder()
    ensures ToggleLikes(ToggleLikes(["a", "b"], "a"), "a") == ["b", "a"]
  {
  }

  /** Read as a set, the likes are always restored by a toggle pair. */
  lemma ToggleTwiceRestoresSet(likes: seq<UserId>, u: UserId)
    ensures (set x | x in ToggleLikes(ToggleLikes(likes, u), u)) == (set x | x in likes)
  {
    if u !in likes {
      ToggleTwiceRestores(likes, u);
    } else {
      var once := ToggleLikes(likes, u);
      var twice := ToggleLikes(once, u);
      forall x
        ensures x in twice <==> x in likes
      {
        if x != u {
          assert multiset(twice)[x] == multiset(likes)[x];
        }
      }
    }
  }

  /** No user appears twice in the list. */
  predicate NoDuplicates(likes: seq<UserId>) {
    forall i, j :: 0 <= i < j < |likes| ==> likes[i] != likes[j]
  }

  /** A list without duplicates keeps that property under the toggle. */
  lemma {:induction false} ToggleKeepsNoDuplicates(likes: seq<UserId>, u: UserId)
    requires NoDuplicates(likes)
    ensures NoDuplicates(ToggleLikes(likes, u))
  {
    if u in likes {
      RemoveAllKeepsNoDuplicates(likes, u);
    }
  }

  lemma {:induction false} RemoveAllKeepsNoDuplicates(likes: seq<UserId>, u: UserId)
    requires NoDuplicates(likes)
    ensures NoDuplicates(RemoveAll(likes, u))
  {
    if likes != [] {
      RemoveAllKeepsNoDuplicates(likes[1..], u);
      var rest := RemoveAll(likes[1..], u);
      if likes[0] != u {
        assert likes[0] !in likes[1..];
        assert multiset(rest)[likes[0]] == 0;
        assert likes[0] !in rest;
      }
    }
  }

  /** `likePost`: an unknown id is answered 404 "Post not found" and nothing
      changes; otherwise the post's likes are toggled for the session user, only
      that post changes, and the updated post is returned. */
  method LikePost(store: PostStore, id: PostId, user: User) returns (resp: Response)
    requires store.Valid()
    modifies store
    ensures store.Valid() && store.nextId == old(store.nextId)
    ensures var i := FindIndex(old(store.posts), id);
      if i == -1 then
        resp == Response(404, Message(Some(NotFoundMessage))) && store.posts == old(store.posts)
      else
        var liked := old(store.posts)[i].(likes := ToggleLikes(old(store.posts)[i].likes, user.id));
        store.posts == old(store.posts)[i := liked] && resp == Response(200, One(liked))
  {
    var found := store.FindById(id);
    if found.None? {
      return Response(404, Message(Some(NotFoundMessage)));
    }
    UniqueIdsLocate(store.posts, found.value);
    var post := found.value;
    var userId := user.id;
    if userId in post.likes {
      post := post.(likes := RemoveAll(post.likes, userId));
    } else {
      post := post.(likes := post.likes + [userId]);
    }
    ghost var i := FindIndex(store.posts, id);
    store.Save(post);
    assert store.posts[i].id == id;
    var updated := store.FindById(id);
    UniqueIdsLocate(store.posts, updated.value);
    resp := Response(200, One(updated.value));
  }

  // ---------------------------------------------------------------------------
  // addComment

  /** `addComment`: an unknown id is answered 404 "Post not found" and no
      comment is created; otherwise one comment by the session user with the
      given text is appended after the existing ones, only that post changes,
      and the updated post is returned with 201. */
  method AddComment(store: PostStore, id: PostId, user: User, text: Option<string>) returns (resp: Response)
    requires store.Valid()
    modifies store
    ensures store.Valid() && store.nextId == old(store.nextId)
    ensures var i := FindIndex(old(store.posts), id);
      if i == -1 then
        resp == Response(404, Message(Some(NotFoundMessage))) && store.posts == old(store.posts)
      else
        var commented := old(store.posts)[i].(comments := old(store.posts)[i].comments + [Comment(user.id, text)]);
        store.posts == old(store.posts)[i := commented] && resp == Response(201, One(commented))
  {
    var found := store.FindById(id);
    if found.None? {
      return Response(404, Message(Some(NotFoundMessage)));
    }
    UniqueIdsLocate(store.posts, found.value);
    var post := found.value;
    post := post.(comments := post.comments + [Comment(user.id, text)]);
    ghost var i := FindIndex(store.posts, id);
    store.Save(post);
    assert store.posts[i].id == id;
    var updated := store.FindById(id);
    UniqueIdsLocate(store.posts, updated.value);
    resp := Response(201, One(updated.value));
  }
}
