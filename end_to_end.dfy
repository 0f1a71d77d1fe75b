/** How the services' failures surface as HTTP responses once the global handler maps them. */
module EndToEnd {
  import opened Wrappers
  import opened Errors
  import opened Lifecycle
  import opened Dates
  import NasaApiClient
  import Apods
  import Detections
  import ExceptionHandling

  /** Every failure of the NASA feed reaches the client as a 500 whose message carries the
      client's last prefix; the 502 handler for WebClientResponseException is never reached on
      this path, and a 404 from the feed is not a 404 for the client. */
  lemma FeedFailureIsServerError(date: Option<LocalDate>, today: LocalDate, upstream: HttpOutcome<NasaApiClient.NasaApiResponse>, path: string, now: Timestamp)
    requires NasaApiClient.ValidateRequestDate(date, today).Success? && !upstream.Ok?
    ensures var response := ExceptionHandling.Handle(NasaApiClient.GetApod(date, today, upstream).error, path, now);
            response.statusCode == 500
            && NasaApiClient.GeneralErrorPrefix <= response.body.message
            && ExceptionHandling.SelectHandler(NasaApiClient.GetApod(date, today, upstream).error) != ExceptionHandling.WebClientHandler
  {
  }

  /** A date outside the feed's range is a client error: 400 with the validation message. */
  lemma RejectedDateIsBadRequest(date: Option<LocalDate>, today: LocalDate, upstream: HttpOutcome<NasaApiClient.NasaApiResponse>, path: string, now: Timestamp)
    requires NasaApiClient.ValidateRequestDate(date, today).Failure?
    ensures var error := NasaApiClient.GetApod(date, today, upstream).error;
            var response := ExceptionHandling.Handle(error, path, now);
            response.statusCode == 400 && response.body.error == "Bad Request" && response.body.message == error.message
  {
  }

  /** A date string that does not parse is a client error too. */
  lemma MalformedDateIsBadRequest(dateStr: Option<string>, path: string, now: Timestamp)
    requires Apods.RequestDate(dateStr).Failure?
    ensures ExceptionHandling.Handle(Apods.RequestDate(dateStr).error, path, now) ==
            ExceptionHandling.ResponseEntity(400, ExceptionHandling.ErrorResponse(now, 400, "Bad Request", Apods.InvalidDateFormatMessage, path))
  {
  }

  /** An answer from the feed without a usable date (the APOD service parses it itself) is a
      server error. */
  lemma UnusablePayloadDateIsServerError(date: Option<string>, path: string, now: Timestamp)
    requires Apods.PayloadDate(date).Failure?
    ensures ExceptionHandling.Handle(Apods.PayloadDate(date).error, path, now).statusCode == 500
  {
  }

  /** Looking up an id that is absent or deleted is a 404 carrying the service's message. */
  lemma MissingDetectionIsNotFound(service: Detections.AiDetectionService, id: int, path: string, now: Timestamp)
    requires !service.Has(id, Lifecycle.Active)
    ensures var response := ExceptionHandling.Handle(service.FindById(id).error, path, now);
            response.statusCode == 404 && response.body.message == Detections.NotFoundMessage(id)
  {
  }

  lemma MissingApodIsNotFound(service: Apods.NasaApodService, id: int, path: string, now: Timestamp)
    requires !service.Has(id, Lifecycle.Active)
    ensures var response := ExceptionHandling.Handle(service.FindById(id).error, path, now);
            response.statusCode == 404 && response.body.message == Apods.NotFoundMessage(id)
  {
  }
}
