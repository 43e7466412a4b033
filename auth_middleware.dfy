/** The authentication gate put in front of every mutating post endpoint, and
    the upload parser that takes a single file into memory. */
module AuthMiddleware {

  import opened Model

  /** What the session library reports for a request: no logged-in user, or
      the user the session is bound to (`req.isAuthenticated()`, `req.user`). */
  datatype Session = Anonymous | Authenticated(user: User)

  /** The gate either calls the next handler, writing nothing, or answers. */
  datatype GateResult = Next | Reject(status: int, message: string)

  const UnauthorizedStatus := 401
  const UnauthorizedMessage := "Unauthorized"

  /** `ensureAuthenticated`: an authenticated request goes on to the next
      handler; any other request is answered 401 "Unauthorized" and the next
      handler is never called. */
  function EnsureAuthenticated(session: Session): (r: GateResult)
    ensures r == Next <==> session.Authenticated?
    ensures session.Anonymous? ==> r == Reject(UnauthorizedStatus, UnauthorizedMessage)
  {
    if session.Authenticated? then Next else Reject(UnauthorizedStatus, UnauthorizedMessage)
  }

  /** The upload parser's per-file size limit, 50 MiB, held in memory. */
  const MaxFileSize: nat := 50 * 1024 * 1024

  /** The file part of a multipart request: the form field it was sent under. */
  datatype FilePart = FilePart(field: string, file: UploadedFile)

  /** What the single-file parser hands on: the file, if one was sent under the
      expected field, or the parser's own error. */
  datatype ParseResult = Parsed(file: Option<UploadedFile>) | UnexpectedField(field: string) | FileTooLarge

  /** `uploadMiddleware.single(field)`: a request without a file part goes on
      with no file; a file under another field, or one over the limit, is an
      error; otherwise the file is handed on as it was sent. */
  function ParseSingleFile(field: string, part: Option<FilePart>): (r: ParseResult)
    ensures part.None? ==> r == Parsed(None)
    ensures r.Parsed? && part.Some? ==> r.file == Some(part.value.file)
    ensures r.Parsed? && part.Some? ==> part.value.field == field && |part.value.file.buffer| <= MaxFileSize
    ensures r.UnexpectedField? <==> part.Some? && part.value.field != field
    ensures r == FileTooLarge <==> part.Some? && part.value.field == field && |part.value.file.buffer| > MaxFileSize
  {
    match part
    case None => Parsed(None)
    case Some(p) =>
      if p.field != field then UnexpectedField(p.field)
      else if |p.file.buffer| > MaxFileSize then FileTooLarge
      else Parsed(Some(p.file))
  }

  /** The configured limit is 50 * 1024 * 1024 = 52,428,800 bytes: a file of
      exactly that size is accepted and one byte more is refused. */
  lemma FileSizeLimitBoundary(f: UploadedFile)
    ensures MaxFileSize == 52428800
    ensures |f.buffer| == 52428800 ==> ParseSingleFile("media", Some(FilePart("media", f))) == Parsed(Some(f))
    ensures |f.buffer| == 52428801 ==> ParseSingleFile("media", Some(FilePart("media", f))) == FileTooLarge
  {
  }
}
