/** The post router: which handler chain each post endpoint runs, how a request
    is matched against the table, and what a chain does with a request before
    the controller sees it. Paths are the segments after the `/posts` mount
    point. */
module PostRoutes {

  import opened Model
  import opened AuthMiddleware

  datatype Verb = GET | POST

  /** A path pattern segment: a literal, or a `:id` parameter. */
  datatype Segment = Lit(text: string) | Param

  datatype Handler = CreatePost | GetPosts | LikePost | AddComment

  /** One stage of a handler chain. */
  datatype Stage = Gate | MediaParser(field: string) | Handle(handler: Handler)

  datatype Route = Route(verb: Verb, pattern: seq<Segment>, chain: seq<Stage>)

  /** The route table, in registration order. */
  const Routes: seq<Route> := [
    Route(POST, [Lit("create")], [Gate, MediaParser("media"), Handle(CreatePost)]),
    Route(GET, [], [Handle(GetPosts)]),
    Route(POST, [Param, Lit("like")], [Gate, Handle(LikePost)]),
    Route(POST, [Param, Lit("comment")], [Gate, Handle(AddComment)])
  ]

  datatype Request = Request(verb: Verb, path: seq<string>, session: Session, part: Option<FilePart>)

  /** Where a request ends up: no route, an answer from a stage before the
      handler, a parser error, or the handler with the session user it reads,
      the parsed file and the path parameters. */
  datatype Outcome =
    | NoRoute
    | Answered(status: int, message: string)
    | ParserError(error: ParseResult)
    | Reached(handler: Handler, user: Option<User>, file: Option<UploadedFile>, params: seq<string>)

  /** A pattern matches a path of the same length whose literal segments are
      equal and whose parameter segments are non-empty. */
  predicate Matches(pattern: seq<Segment>, path: seq<string>) {
    |pattern| == |path| &&
    forall i :: 0 <= i < |pattern| ==>
      if pattern[i].Lit? then path[i] == pattern[i].text else path[i] != ""
  }

  /** The values of the parameter segments, in order. */
  function Params(pattern: seq<Segment>, path: seq<string>): seq<string>
    requires |pattern| == |path|
  {
    if pattern == [] then []
    else (if pattern[0].Param? then [path[0]] else []) + Params(pattern[1..], path[1..])
  }

  /** The first route of `routes` registered for the verb whose pattern matches. */
  function FirstRoute(routes: seq<Route>, verb: Verb, path: seq<string>): (r: Option<Route>)
    ensures r.Some? ==> r.value in routes && r.value.verb == verb && Matches(r.value.pattern, path)
    ensures r.None? <==> forall k :: 0 <= k < |routes| ==> !(routes[k].verb == verb && Matches(routes[k].pattern, path))
  {
    if routes == [] then None
    else if routes[0].verb == verb && Matches(routes[0].pattern, path) then Some(routes[0])
    else FirstRoute(routes[1..], verb, path)
  }

  function SessionUser(session: Session): Option<User> {
    if session.Authenticated? then Some(session.user) else None
  }

  /** Runs a handler chain: the gate either passes on or answers, the parser
      either hands on the file or fails, and the handler ends the chain. */
  function RunChain(chain: seq<Stage>, req: Request, file: Option<UploadedFile>, params: seq<string>): (r: Outcome)
    ensures r.Reached? ==> r.user == SessionUser(req.session) && r.params == params
    ensures r.Answered? ==> r == Answered(UnauthorizedStatus, UnauthorizedMessage) && req.session.Anonymous?
  {
    if chain == [] then NoRoute
    else match chain[0]
      case Gate =>
        (match EnsureAuthenticated(req.session)
         case Next => RunChain(chain[1..], req, file, params)
         case Reject(status, message) => Answered(status, message))
      case MediaParser(field) =>
        (match ParseSingleFile(field, req.part)
         case Parsed(f) => RunChain(chain[1..], req, f, params)
         case error => ParserError(error))
      case Handle(h) => Reached(h, SessionUser(req.session), file, params)
  }

  /** The router: the first matching route's chain, started with no file and
      with that route's path parameters. */
  function Dispatch(req: Request): (r: Outcome)
    ensures FirstRoute(Routes, req.verb, req.path).None? ==> r == NoRoute
    ensures r.Reached? ==> r.user == SessionUser(req.session)
    ensures r.Reached? ==>
      var route := FirstRoute(Routes, req.verb, req.path);
      route.Some? && r.params == Params(route.value.pattern, req.path)
    ensures r.Answered? ==> r == Answered(UnauthorizedStatus, UnauthorizedMessage) && req.session.Anonymous?
  {
    match FirstRoute(Routes, req.verb, req.path)
    case None => NoRoute
    case Some(route) => RunChain(route.chain, req, None, Params(route.pattern, req.path))
  }

  /** The gate comes before the first handler of the chain. */
  predicate GatedBefore(chain: seq<Stage>) {
    chain != [] && (chain[0] == Gate || (!chain[0].Handle? && GatedBefore(chain[1..])))
  }

  /** A chain with the gate before its handler only ever hands the handler an
      authenticated request, and the user it reads is the session's user. */
  lemma {:induction false} GatedChainSeesSessionUser(chain: seq<Stage>, req: Request, file: Option<UploadedFile>, params: seq<string>)
    requires GatedBefore(chain)
    ensures RunChain(chain, req, file, params).Reached? ==>
      req.session.Authenticated? && RunChain(chain, req, file, params).user == Some(req.session.user)
  {
    if chain[0] != Gate {
      match chain[0]
      case MediaParser(field) =>
        match ParseSingleFile(field, req.part)
        case Parsed(f) => GatedChainSeesSessionUser(chain[1..], req, f, params);
        case _ =>
    }
  }

  /** Every POST route of the table is gated; the only ungated route is the
      feed read `GET /`. */
  lemma OnlyFeedReadIsUngated()
    ensures forall r :: r in Routes ==> (r.verb == POST ==> GatedBefore(r.chain))
    ensures forall r :: r in Routes ==> (!GatedBefore(r.chain) <==> r.verb == GET && r.pattern == [])
  {
  }

  /** Whatever the request, a handler other than the feed read is reached only
      for an authenticated session, and the user it acts for is the session's
      user, never one named by the client. */
  lemma MutatingHandlersSeeSessionUser(req: Request)
    ensures Dispatch(req).Reached? && Dispatch(req).handler != GetPosts ==>
      req.session.Authenticated? && Dispatch(req).user == Some(req.session.user)
  {
    match FirstRoute(Routes, req.verb, req.path)
    case None =>
    case Some(route) =>
      OnlyFeedReadIsUngated();
      if GatedBefore(route.chain) {
        GatedChainSeesSessionUser(route.chain, req, None, Params(route.pattern, req.path));
      }
  }

  /** An anonymous request to a gated endpoint is answered 401 "Unauthorized"
      before anything else runs: in particular, before a file is parsed. */
  lemma AnonymousGetsUnauthorized(req: Request)
    requires req.session.Anonymous?
    requires req.verb == POST
    ensures Dispatch(req) == NoRoute || Dispatch(req) == Answered(401, "Unauthorized")
  {
  }

  /** `POST /create` runs the gate, then the single-file parser for field
      "media", then `createPost`, which gets the session user and the file. */
  lemma CreateRoute(session: Session, part: Option<FilePart>)
    ensures var out := Dispatch(Request(POST, ["create"], session, part));
      match EnsureAuthenticated(session)
      case Reject(status, message) => out == Answered(status, message)
      case Next =>
        match ParseSingleFile("media", part)
        case Parsed(f) => out == Reached(CreatePost, Some(session.user), f, [])
        case error => out == ParserError(error)
  {
    assert Matches(Routes[0].pattern, ["create"]);
    assert FirstRoute(Routes, POST, ["create"]) == Some(Routes[0]);
    var req := Request(POST, ["create"], session, part);
    var chain := Routes[0].chain;
    assert chain[1..] == [MediaParser("media"), Handle(CreatePost)];
    assert chain[1..][1..] == [Handle(CreatePost)];
    assert Params(Routes[0].pattern, ["create"]) == [];
    assert Dispatch(req) == RunChain(chain, req, None, []);
    if session.Authenticated? {
      assert RunChain(chain, req, None, []) == RunChain(chain[1..], req, None, []);
      if ParseSingleFile("media", part).Parsed? {
        var f := ParseSingleFile("media", part).file;
        assert RunChain(chain[1..], req, None, []) == RunChain(chain[1..][1..], req, f, []);
      }
    }
  }

  /** `GET /` runs `getPosts` with no gate, for any session. */
  lemma FeedRoute(session: Session, part: Option<FilePart>)
    ensures Dispatch(Request(GET, [], session, part)) == Reached(GetPosts, SessionUser(session), None, [])
  {
  }

  lemma IdParam(id: string, action: string)
    ensures Params([Param, Lit(action)], [id, action]) == [id]
  {
    assert [Param, Lit(action)][1..] == [Lit(action)];
    assert [id, action][1..] == [action];
    assert Params([Lit(action)], [action]) == [] + Params([], []);
  }

  /** `POST /:id/like` and `POST /:id/comment` run the gate, then their
      handler, with the id from the path. */
  lemma LikeAndCommentRoutes(id: string, session: Session, part: Option<FilePart>)
    requires id != ""
    ensures Dispatch(Request(POST, [id, "like"], session, part)) ==
      (if session.Authenticated? then Reached(LikePost, Some(session.user), None, [id]) else Answered(401, "Unauthorized"))
    ensures Dispatch(Request(POST, [id, "comment"], session, part)) ==
      (if session.Authenticated? then Reached(AddComment, Some(session.user), None, [id]) else Answered(401, "Unauthorized"))
  {
    assert |"comment"| != |"like"|;
    var like := Request(POST, [id, "like"], session, part);
    var comment := Request(POST, [id, "comment"], session, part);
    assert Matches(Routes[2].pattern, like.path);
    assert Matches(Routes[3].pattern, comment.path);
    // the two patterns differ only in their literal second segment
    assert like.path[1] != Routes[3].pattern[1].text;
    assert comment.path[1] != Routes[2].pattern[1].text;
    assert FirstRoute(Routes, POST, like.path) == Some(Routes[2]);
    assert FirstRoute(Routes, POST, comment.path) == Some(Routes[3]);
    IdParam(id, "like");
    IdParam(id, "comment");
    assert Dispatch(like) == RunChain([Gate, Handle(LikePost)], like, None, [id]);
    assert Dispatch(comment) == RunChain([Gate, Handle(AddComment)], comment, None, [id]);
    assert [Gate, Handle(LikePost)][1..] == [Handle(LikePost)];
    assert [Gate, Handle(AddComment)][1..] == [Handle(AddComment)];
    if session.Authenticated? {
      assert RunChain([Gate, Handle(LikePost)], like, None, [id]) == RunChain([Handle(LikePost)], like, None, [id]);
      assert RunChain([Gate, Handle(AddComment)], comment, None, [id]) == RunChain([Handle(AddComment)], comment, None, [id]);
    }
  }
}
