/** The exception kinds the services raise or that reach the global handler, and the abstract
    outcome of one outbound HTTP exchange. */
module Errors {

  /** One rejected field of a bound request body. */
  datatype FieldError = FieldError(field: string, defaultMessage: string)

  /** An exception by the class the handlers tell apart; `message` is its getMessage(). */
  datatype Exception =
    | ResourceNotFound(message: string)
    | IllegalArgument(message: string)
    | WebClientResponse(statusCode: int, statusText: string, message: string)
    | WebExchangeBind(fieldErrors: seq<FieldError>, message: string)
      /** any other unchecked exception: a plain RuntimeException, a NullPointerException,
          a DateTimeParseException, a data-access failure */
    | Runtime(message: string)
      /** any other checked exception */
    | Checked(message: string)

  /** What one call to an external API produced: a decoded body, an HTTP error status
      (WebClientResponseException), or a failure of any other kind (connection, decoding). */
  datatype HttpOutcome<+T> =
    | Ok(body: T)
    | HttpError(statusCode: int, statusText: string, message: string)
    | OtherError(message: string)

  /** A body read as text and then parsed by the service itself: empty, not parsable, or parsed. */
  datatype RawBody<+T> = Empty | Unparsable | Parsed(json: T)
}
