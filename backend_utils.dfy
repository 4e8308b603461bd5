/** The envelope, status mapping and database-URL handling of the older SQLite revision
    (backend/src/utils.rs). Its `verify_apikey` and `BasicAuthEndpoint::call` are the same
    code as the newer revision's and are `Utils.VerifyApiKey` and `Utils.BasicAuthCall`. */
module BackendUtils {
  import opened Wrappers
  import Utils

  /** A file handed back as a download: its bytes and optional file name. */
  datatype Attachment = Attachment(content: seq<int>, fileName: Option<string>)

  /** `MyResponse<T>`: success and failure answers in one enum, with a file download. */
  datatype MyResponse<T> =
    | Ok(body: Utils.ResponseObject<T>)
    | FileResponse(attachment: Attachment)
    | Created(body: Utils.ResponseObject<T>)
    | BadRequest(body: Utils.ResponseObject<T>)
    | Unauthorized(body: Utils.ResponseObject<T>)
    | NotFound(body: Utils.ResponseObject<T>)
    | InternalServerError(body: Utils.ResponseObject<T>)

  function RespondOk<T>(data: T): (r: MyResponse<T>)
    ensures r.Ok? && r.body.data == Some(data) && Utils.OneOf(r.body)
  {
    Ok(Utils.ResponseObject(Some(data), None))
  }

  function RespondCreated<T>(data: T): (r: MyResponse<T>)
    ensures r.Created? && r.body.data == Some(data) && Utils.OneOf(r.body)
  {
    Created(Utils.ResponseObject(Some(data), None))
  }

  /** `Utils.ResponseObject::file_response`: the attachment is passed through untouched. */
  function RespondFile<T>(a: Attachment): MyResponse<T> {
    FileResponse(a)
  }

  function RespondBadRequest<T>(message: string): MyResponse<T> {
    BadRequest(Utils.ErrorBody(message))
  }

  function RespondUnauthorized<T>(message: string): MyResponse<T> {
    Unauthorized(Utils.ErrorBody(message))
  }

  function RespondNotFound<T>(message: string): MyResponse<T> {
    NotFound(Utils.ErrorBody(message))
  }

  function RespondInternalServerError<T>(message: string): MyResponse<T> {
    InternalServerError(Utils.ErrorBody(message))
  }

  /** The HTTP status of each answer. */
  function Status<T>(r: MyResponse<T>): (code: int)
    ensures code == 200 <==> r.Ok? || r.FileResponse?
    ensures r.Created? ==> code == 201
    ensures 200 <= code < 300 <==> r.Ok? || r.FileResponse? || r.Created?
    ensures 400 <= code < 500 <==> r.BadRequest? || r.Unauthorized? || r.NotFound?
    ensures code == 500 <==> r.InternalServerError?
  {
    match r
    case Ok(_) => 200
    case FileResponse(_) => 200
    case Created(_) => 201
    case BadRequest(_) => 400
    case Unauthorized(_) => 401
    case NotFound(_) => 404
    case InternalServerError(_) => 500
  }

  /** Every JSON answer the constructors build carries exactly one of data and error. */
  lemma EnvelopeHasOneOf<T>(data: T, message: string)
    ensures Utils.OneOf(RespondOk(data).body) && Utils.OneOf(RespondCreated(data).body)
    ensures Utils.OneOf(RespondBadRequest<T>(message).body) && Utils.OneOf(RespondUnauthorized<T>(message).body)
    ensures Utils.OneOf(RespondNotFound<T>(message).body) && Utils.OneOf(RespondInternalServerError<T>(message).body)
  {
  }

  /** The file answer is a 200 that passes the attachment through untouched; each error
      constructor answers with its own status, no data and exactly the message. */
  lemma FixedAnswers<T>(a: Attachment, message: string)
    ensures var f := RespondFile<T>(a); Status(f) == 200 && f.FileResponse? && f.attachment == a
    ensures var e := RespondBadRequest<T>(message);
            Status(e) == 400 && e.body.data.None? && e.body.error == Some(message)
    ensures var e := RespondUnauthorized<T>(message);
            Status(e) == 401 && e.body.data.None? && e.body.error == Some(message)
    ensures var e := RespondNotFound<T>(message);
            Status(e) == 404 && e.body.data.None? && e.body.error == Some(message)
    ensures var e := RespondInternalServerError<T>(message);
            Status(e) == 500 && e.body.data.None? && e.body.error == Some(message)
  {
  }

  /** `bad_request_handler`: the answer to an error the web framework raises before a handler runs. */
  function BadRequestHandler<T>(err: Utils.FrameworkError): MyResponse<T> {
    if err.kind == Utils.ParseRequestPayload then BadRequest(Utils.ErrorBody(err.text))
    else InternalServerError(Utils.ErrorBody(err.text))
  }

  /** A body that does not parse is 400, anything else 500; both carry the error's text and no data. */
  lemma BadRequestHandlerStatus<T>(err: Utils.FrameworkError)
    ensures Status(BadRequestHandler<T>(err)) == if err.kind == Utils.ParseRequestPayload then 400 else 500
    ensures BadRequestHandler<T>(err).body.data.None?
    ensures BadRequestHandler<T>(err).body.error == Some(err.text)
  {
  }

  /** `str::trim_start_matches` with a string pattern: every leading copy of `pat` is removed.
      An empty pattern removes nothing. */
  function TrimStartMatches(s: string, pat: string): (r: string)
    ensures |r| <= |s| && r == s[|s| - |r|..]
    ensures pat != [] ==> !(pat <= r)
    decreases |s|
  {
    if pat != [] && pat <= s then TrimStartMatches(s[|pat|..], pat) else s
  }

  /** `k` copies of `pat` one after the other. */
  function Repeat(pat: string, k: nat): string {
    if k == 0 then [] else pat + Repeat(pat, k - 1)
  }

  /** Whatever follows `k` leading copies of `pat` is exactly what trimming leaves,
      provided it does not itself start with `pat`. */
  lemma {:induction false} TrimStartMatchesRemovesRepeats(pat: string, k: nat, rest: string)
    requires pat != [] && !(pat <= rest)
    ensures TrimStartMatches(Repeat(pat, k) + rest, pat) == rest
  {
    if k == 0 {
      assert Repeat(pat, k) + rest == rest;
    } else {
      var tail := Repeat(pat, k - 1) + rest;
      assert Repeat(pat, k) + rest == pat + tail;
      TrimStartMatchesStep(pat, tail);
      TrimStartMatchesRemovesRepeats(pat, k - 1, rest);
    }
  }

  /** One leading copy of a non-empty pattern is removed and trimming goes on after it. */
  lemma TrimStartMatchesStep(pat: string, tail: string)
    requires pat != []
    ensures TrimStartMatches(pat + tail, pat) == TrimStartMatches(tail, pat)
  {
    DropPrefix(pat, tail);
  }

  lemma DropPrefix<T>(p: seq<T>, t: seq<T>)
    ensures p <= p + t && (p + t)[|p|..] == t
  {
  }

  const SqliteScheme: string := "sqlite:"

  /** The file name `connect` opens: the database URL with every leading "sqlite:" removed. */
  function DatabaseFileName(url: string): (name: string)
    ensures !(SqliteScheme <= name)
    ensures |name| <= |url| && name == url[|url| - |name|..]
  {
    TrimStartMatches(url, SqliteScheme)
  }

  /** "sqlite:sqlite:data.db" and "data.db" name the same file: any number of leading
      schemes is dropped, and nothing else. */
  lemma DatabaseFileNameDropsEveryScheme(k: nat, file: string)
    requires !(SqliteScheme <= file)
    ensures DatabaseFileName(Repeat(SqliteScheme, k) + file) == file
  {
    TrimStartMatchesRemovesRepeats(SqliteScheme, k, file);
  }
}
