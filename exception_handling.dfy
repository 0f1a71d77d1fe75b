/** The global exception handler (`GlobalExceptionHandler`): every exception that escapes a
    controller becomes an HTTP status and an `ErrorResponse` body. */
module ExceptionHandling {
  import opened Wrappers
  import opened Errors
  import Lifecycle
  import Text

  /** The JSON body of every error response. */
  datatype ErrorResponse = ErrorResponse(
    timestamp: Lifecycle.Timestamp,
    status: int,
    error: string,
    message: string,
    path: string)

  /** `ResponseEntity<ErrorResponse>`: the HTTP status and the body. */
  datatype ResponseEntity = ResponseEntity(statusCode: int, body: ErrorResponse)

  const BadRequest := 400
  const NotFound := 404
  const InternalServerError := 500
  const BadGateway := 502

  const ExternalServiceErrorPrefix := "Error al comunicarse con servicio externo: "
  const ValidationErrorDefault := "Error de validación"
  const InternalErrorPrefix := "Error interno del servidor: "

  /** `HttpStatus.getReasonPhrase()` for the four statuses the handler uses. */
  function ReasonPhrase(code: int): string {
    if code == BadRequest then "Bad Request"
    else if code == NotFound then "Not Found"
    else if code == InternalServerError then "Internal Server Error"
    else if code == BadGateway then "Bad Gateway"
    else ""
  }

  /** The six `@ExceptionHandler` methods, by the class each declares. */
  datatype Handler =
    | NotFoundHandler        // ResourceNotFoundException
    | WebClientHandler       // WebClientResponseException
    | ValidationHandler      // WebExchangeBindException
    | IllegalArgumentHandler // IllegalArgumentException
    | RuntimeHandler         // RuntimeException
    | GeneralHandler         // Exception

  /** How many superclass steps lead from the exception's class up to the class the handler
      declares, or None when the handler does not apply. `Runtime` stands for RuntimeException
      and every subclass no handler declares (NullPointerException, DateTimeParseException, a
      data-access exception); their true depths are larger, but only the order of the distances
      matters and no nearer handler applies to any of them, so depth 0 is relative to that class. The chains are
      ResourceNotFoundException and IllegalArgumentException -> RuntimeException -> Exception;
      WebClientResponseException -> WebClientException -> NestedRuntimeException ->
      RuntimeException; WebExchangeBindException -> ServerWebInputException ->
      ResponseStatusException -> ErrorResponseException -> NestedRuntimeException ->
      RuntimeException. */
  function Distance(h: Handler, ex: Exception): Option<nat> {
    var toRuntime: nat := match ex
      case ResourceNotFound(_) => 1
      case IllegalArgument(_) => 1
      case WebClientResponse(_, _, _) => 3
      case WebExchangeBind(_, _) => 5
      case Runtime(_) => 0
      case Checked(_) => 0;
    match h
    case NotFoundHandler => if ex.ResourceNotFound? then Some(0) else None
    case WebClientHandler => if ex.WebClientResponse? then Some(0) else None
    case ValidationHandler => if ex.WebExchangeBind? then Some(0) else None
    case IllegalArgumentHandler => if ex.IllegalArgument? then Some(0) else None
    case RuntimeHandler => if ex.Checked? then None else Some(toRuntime)
    case GeneralHandler => if ex.Checked? then Some(0) else Some(toRuntime + 1)
  }

  /** The handler Spring invokes: the one whose declared class is closest to the exception's. */
  function SelectHandler(ex: Exception): (h: Handler)
    ensures Distance(h, ex).Some?
    ensures forall h' :: Distance(h', ex).Some? ==> Distance(h, ex).value <= Distance(h', ex).value
  {
    match ex
    case ResourceNotFound(_) => NotFoundHandler
    case IllegalArgument(_) => IllegalArgumentHandler
    case WebClientResponse(_, _, _) => WebClientHandler
    case WebExchangeBind(_, _) => ValidationHandler
    case Runtime(_) => RuntimeHandler
    case Checked(_) => GeneralHandler
  }

  /** One field error as the validation handler prints it. */
  function Render(e: FieldError): string {
    e.field + ": " + e.defaultMessage
  }

  /** The field errors rendered, in order. */
  function Rendered(errors: seq<FieldError>): (parts: seq<string>)
    ensures |parts| == |errors|
    ensures forall i :: 0 <= i < |errors| ==> parts[i] == Render(errors[i])
  {
    if errors == [] then [] else Rendered(errors[..|errors| - 1]) + [Render(errors[|errors| - 1])]
  }

  /** The validation handler's message: the rendered field errors joined by ", ", or a fixed
      text when there are none. */
  function ValidationMessage(errors: seq<FieldError>): (m: string)
    ensures errors == [] ==> m == ValidationErrorDefault
    ensures |errors| == 1 ==> m == errors[0].field + ": " + errors[0].defaultMessage
  {
    if errors == [] then ValidationErrorDefault else Text.Join(Rendered(errors), ", ")
  }

  /** The message of two batches of errors is the two messages joined by ", ". */
  lemma ValidationMessageAppend(a: seq<FieldError>, b: seq<FieldError>)
    requires a != [] && b != []
    ensures ValidationMessage(a + b) == ValidationMessage(a) + ", " + ValidationMessage(b)
  {
    assert Rendered(a + b) == Rendered(a) + Rendered(b);
    Text.JoinAppend(Rendered(a), Rendered(b), ", ");
  }

  /** The status and message each handler writes. */
  function StatusOf(h: Handler): int {
    match h
    case NotFoundHandler => NotFound
    case WebClientHandler => BadGateway
    case ValidationHandler => BadRequest
    case IllegalArgumentHandler => BadRequest
    case RuntimeHandler => InternalServerError
    case GeneralHandler => InternalServerError
  }

  function MessageOf(h: Handler, ex: Exception): string {
    match h
    case WebClientHandler => ExternalServiceErrorPrefix + ex.message
    case ValidationHandler => if ex.WebExchangeBind? then ValidationMessage(ex.fieldErrors) else ValidationErrorDefault
    case GeneralHandler => InternalErrorPrefix + ex.message
    case _ => ex.message
  }

  /** The response for an exception raised while serving `path` at time `now`. */
  function Handle(ex: Exception, path: string, now: Lifecycle.Timestamp): (r: ResponseEntity)
    ensures r.body.status == r.statusCode && r.body.error == ReasonPhrase(r.statusCode)
    ensures r.body.path == path && r.body.timestamp == now
    ensures r.body.error != ""
    ensures ex.ResourceNotFound? ==> r.statusCode == 404 && r.body.message == ex.message
    ensures ex.WebClientResponse? ==> r.statusCode == 502 && r.body.message == ExternalServiceErrorPrefix + ex.message
    ensures ex.WebExchangeBind? ==> r.statusCode == 400 && r.body.message == ValidationMessage(ex.fieldErrors)
    ensures ex.IllegalArgument? ==> r.statusCode == 400 && r.body.message == ex.message
    ensures ex.Runtime? ==> r.statusCode == 500 && r.body.message == ex.message
    ensures ex.Checked? ==> r.statusCode == 500 && r.body.message == InternalErrorPrefix + ex.message
  {
    var h := SelectHandler(ex);
    var status := StatusOf(h);
    ResponseEntity(status, ErrorResponse(now, status, ReasonPhrase(status), MessageOf(h, ex), path))
  }

  /** A resource-not-found exception is also a RuntimeException, so both the 404 and the 500
      handler apply to it; the 404 one is nearer and wins. */
  lemma NotFoundBeatsRuntime(message: string)
    ensures Distance(RuntimeHandler, ResourceNotFound(message)).Some?
    ensures SelectHandler(ResourceNotFound(message)) == NotFoundHandler
    ensures Handle(ResourceNotFound(message), "", 0).statusCode == 404
  {
  }

  /** Only a client-side fault (a bad argument, a failed validation) gives 400 and only a missing
      resource gives 404; everything else is a server-side 5xx. */
  lemma StatusClasses(ex: Exception, path: string, now: Lifecycle.Timestamp)
    ensures Handle(ex, path, now).statusCode == 400 <==> ex.IllegalArgument? || ex.WebExchangeBind?
    ensures Handle(ex, path, now).statusCode == 404 <==> ex.ResourceNotFound?
    ensures Handle(ex, path, now).statusCode >= 500 <==> ex.WebClientResponse? || ex.Runtime? || ex.Checked?
  {
  }
}
