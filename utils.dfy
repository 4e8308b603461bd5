/** The response envelope, status mapping and request checks shared by every
    endpoint of the service (src/utils.rs). */
module Utils {
  import opened Wrappers

  /** `ResponseObject<T>`: the JSON body of every answer. */
  datatype ResponseObject<T> = ResponseObject(data: Option<T>, error: Option<string>)

  /** Exactly one of `data` and `error` is present. */
  predicate OneOf<T>(o: ResponseObject<T>) {
    o.data.Some? != o.error.Some?
  }

  /** `JsonSuccess<T>`: the successful answers. */
  datatype JsonSuccess<T> = Ok(body: ResponseObject<T>) | Created(body: ResponseObject<T>)

  /** `JsonError<T>`: the failed answers. */
  datatype JsonError<T> =
    | BadRequest(body: ResponseObject<T>)
    | Unauthorized(body: ResponseObject<T>)
    | NotFound(body: ResponseObject<T>)
    | InternalServerError(body: ResponseObject<T>)

  /** What a handler of the service returns. */
  type Reply<T> = Result<JsonSuccess<T>, JsonError<string>>

  // ResponseObject::ok and ResponseObject::created

  function RespondOk<T>(data: T): (r: JsonSuccess<T>)
    ensures r.Ok? && r.body.data == Some(data) && OneOf(r.body)
  {
    Ok(ResponseObject(Some(data), None))
  }

  function RespondCreated<T>(data: T): (r: JsonSuccess<T>)
    ensures r.Created? && r.body.data == Some(data) && OneOf(r.body)
  {
    Created(ResponseObject(Some(data), None))
  }

  // ResponseObject::bad_request, unauthorized, not_found, internal_server_error

  function ErrorBody<T>(message: string): ResponseObject<T> {
    ResponseObject(None, Some(message))
  }

  function RespondBadRequest<T>(message: string): JsonError<T> {
    BadRequest(ErrorBody(message))
  }

  function RespondUnauthorized<T>(message: string): JsonError<T> {
    Unauthorized(ErrorBody(message))
  }

  function RespondNotFound<T>(message: string): JsonError<T> {
    NotFound(ErrorBody(message))
  }

  function RespondInternalServerError<T>(message: string): JsonError<T> {
    InternalServerError(ErrorBody(message))
  }

  /** The HTTP status of a successful answer. */
  function SuccessStatus<T>(r: JsonSuccess<T>): (code: int)
    ensures 200 <= code < 300
    ensures code == 200 <==> r.Ok?
    ensures r.Created? ==> code == 201
  {
    match r
    case Ok(_) => 200
    case Created(_) => 201
  }

  /** The HTTP status of a failed answer. */
  function ErrorStatus<T>(e: JsonError<T>): (code: int)
    ensures 400 <= code < 600
    ensures code < 500 <==> !e.InternalServerError?
  {
    match e
    case BadRequest(_) => 400
    case Unauthorized(_) => 401
    case NotFound(_) => 404
    case InternalServerError(_) => 500
  }

  /** Two failed answers carry the same status exactly when they are the same kind of failure. */
  lemma ErrorStatusDistinguishesKinds<T>(a: JsonError<T>, b: JsonError<T>)
    ensures ErrorStatus(a) == ErrorStatus(b) <==>
            (a.BadRequest? && b.BadRequest?) || (a.Unauthorized? && b.Unauthorized?) ||
            (a.NotFound? && b.NotFound?) || (a.InternalServerError? && b.InternalServerError?)
  {
  }

  /** Every envelope built by the six constructors carries exactly one of data and error. */
  lemma EnvelopeHasOneOf<T>(data: T, message: string)
    ensures OneOf(RespondOk(data).body) && OneOf(RespondCreated(data).body)
    ensures OneOf(RespondBadRequest<T>(message).body) && OneOf(RespondUnauthorized<T>(message).body)
    ensures OneOf(RespondNotFound<T>(message).body) && OneOf(RespondInternalServerError<T>(message).body)
  {
  }

  /** Each error constructor answers with its own status, no data and exactly the message. */
  lemma ErrorAnswers<T>(message: string)
    ensures var e := RespondBadRequest<T>(message);
            ErrorStatus(e) == 400 && e.body.data.None? && e.body.error == Some(message)
    ensures var e := RespondUnauthorized<T>(message);
            ErrorStatus(e) == 401 && e.body.data.None? && e.body.error == Some(message)
    ensures var e := RespondNotFound<T>(message);
            ErrorStatus(e) == 404 && e.body.data.None? && e.body.error == Some(message)
    ensures var e := RespondInternalServerError<T>(message);
            ErrorStatus(e) == 500 && e.body.data.None? && e.body.error == Some(message)
  {
  }

  /** The kind of error the web framework hands to `bad_request_handler`. */
  datatype ErrorKind = ParseRequestPayload | OtherError

  datatype FrameworkError = FrameworkError(kind: ErrorKind, text: string)

  /** `bad_request_handler`: the answer to an error the web framework raises before a handler runs. */
  function BadRequestHandler<T>(err: FrameworkError): JsonError<T> {
    if err.kind == ParseRequestPayload then BadRequest(ErrorBody(err.text))
    else InternalServerError(ErrorBody(err.text))
  }

  /** A request body that does not parse is the caller's fault (400); anything else is the
      server's (500). Both carry the error's text and no data. */
  lemma BadRequestHandlerStatus<T>(err: FrameworkError)
    ensures ErrorStatus(BadRequestHandler<T>(err)) == if err.kind == ParseRequestPayload then 400 else 500
    ensures BadRequestHandler<T>(err).body.data.None?
    ensures BadRequestHandler<T>(err).body.error == Some(err.text)
  {
  }

  /** `From<anyhow::Error> for JsonError<String>`: an internal failure is a 500 with its text. */
  function FromAnyhow(text: string): (r: JsonError<string>)
    ensures r.InternalServerError? && r.body.error == Some(text) && r.body.data.None?
  {
    InternalServerError(ErrorBody(text))
  }

  /** `verify_apikey`: `header` is the request's `API-Key` header (None when it is absent),
      `apiKey` the key the process was configured with. */
  function VerifyApiKey(header: Option<string>, apiKey: string): (r: Result<(), string>)
    ensures r.Success? <==> header == Some(apiKey)
    ensures header.None? ==> r == Failure("API-Key header is missing")
    ensures header.Some? && header.value != apiKey ==> r == Failure("Invalid API-Key")
  {
    match header
    case None => Failure("API-Key header is missing")
    case Some(key) => if apiKey != key then Failure("Invalid API-Key") else Success(())
  }

  /** The user name and password of an `Authorization: Basic` header. */
  datatype Credentials = Credentials(username: string, password: string)

  /** The 401 answer of the Basic-auth middleware. */
  datatype Challenge = Challenge(status: int, wwwAuthenticate: string)

  /** `BasicAuthEndpoint`: the inner endpoint guarded by a fixed user name and password. */
  datatype BasicAuthEndpoint = BasicAuthEndpoint(username: string, password: string)

  /** `BasicAuthEndpoint::call`: `header` is the parsed Basic header (None when absent or not
      Basic), `innerOutput` what the inner endpoint answers to this request. */
  function BasicAuthCall<O>(ep: BasicAuthEndpoint, header: Option<Credentials>, innerOutput: O): (r: Result<O, Challenge>)
    ensures r.Success? <==> header == Some(Credentials(ep.username, ep.password))
    ensures r.Success? ==> r.value == innerOutput
    ensures r.Failure? ==> r.error == Challenge(401, "Basic")
  {
    if header.Some? && header.value.username == ep.username && header.value.password == ep.password then
      Success(innerOutput)
    else
      Failure(Challenge(401, "Basic"))
  }

  /** `get_port`: the `PORT` environment variable, or "3000" when it is unset. */
  function GetPort(portVar: Option<string>): (port: string)
    ensures portVar.Some? ==> port == portVar.value
    ensures portVar.None? ==> port == "3000"
  {
    match portVar
    case Some(p) => p
    case None => "3000"
  }
}
