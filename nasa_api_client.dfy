/** The client of the NASA APOD API (`NasaApiClient`). It checks the requested date before any
    call and fails closed: every upstream failure reaches the caller as an error. */
module NasaApiClient {
  import opened Wrappers
  import opened Errors
  import opened Dates
  import Text

  /** The decoded APOD answer; every field may be missing from the JSON. */
  datatype NasaApiResponse = NasaApiResponse(
    title: Option<string>,
    explanation: Option<string>,
    url: Option<string>,
    hdurl: Option<string>,
    mediaType: Option<string>,
    date: Option<string>,
    copyright: Option<string>,
    serviceVersion: Option<string>)

  /** The first day the feed has data for. */
  const ApodStartDate: LocalDate := Date(1995, 6, 16)
  /** The latest date `getTodayApod` will ask for. */
  const MaxValidDate: LocalDate := Date(2024, 12, 31)

  const GeneralErrorPrefix := "Error inesperado al conectar con NASA API: "

  function FutureDateMessage(d: LocalDate, today: LocalDate): string {
    "La fecha solicitada (" + Format(d) + ") es futura. NASA APOD solo tiene datos hasta hoy (" + Format(today) + ")"
  }

  function TooEarlyMessage(d: LocalDate): string {
    "La fecha solicitada (" + Format(d) + ") es anterior al inicio de NASA APOD (" + Format(ApodStartDate) + ")"
  }

  function NotFoundMessage(dateText: string): string {
    "No se encontraron datos de NASA APOD para la fecha " + dateText + ". La fecha puede no tener datos disponibles."
  }

  function HttpErrorMessage(statusText: string, statusCode: int): string {
    "Error al obtener datos de NASA APOD: " + statusText + " (Status: " + Text.IntToString(statusCode) + ")"
  }

  /** The date `getApod` asks for: the given one, or today when it is null. */
  function EffectiveDate(date: Option<LocalDate>, today: LocalDate): LocalDate {
    date.GetOr(today)
  }

  /** The checks `getApod` makes before building a request, in the order it makes them. */
  function ValidateRequestDate(date: Option<LocalDate>, today: LocalDate): (r: Result<LocalDate, Exception>)
    ensures r.Success? <==>
              !After(EffectiveDate(date, today), today) && !Before(EffectiveDate(date, today), ApodStartDate)
    ensures r.Success? ==> r.value == EffectiveDate(date, today)
    ensures After(EffectiveDate(date, today), today) ==>
              r == Failure(IllegalArgument(FutureDateMessage(EffectiveDate(date, today), today)))
    ensures !After(EffectiveDate(date, today), today) && Before(EffectiveDate(date, today), ApodStartDate) ==>
              r == Failure(IllegalArgument(TooEarlyMessage(EffectiveDate(date, today))))
  {
    var d := EffectiveDate(date, today);
    if After(d, today) then Failure(IllegalArgument(FutureDateMessage(d, today)))
    else if Before(d, ApodStartDate) then Failure(IllegalArgument(TooEarlyMessage(d)))
    else Success(d)
  }

  /** The `date` query parameter: DATE_FORMATTER's `yyyy-MM-dd`, which agrees with toString()
      on every date the checks let through. */
  function DateParam(d: LocalDate): string {
    Format(d)
  }

  /** `retrieve().bodyToMono(...)`: an HTTP error status becomes a WebClientResponseException. */
  function Retrieve(upstream: HttpOutcome<NasaApiResponse>): Result<NasaApiResponse, Exception> {
    match upstream
    case Ok(body) => Success(body)
    case HttpError(code, text, message) => Failure(WebClientResponse(code, text, message))
    case OtherError(message) => Failure(Runtime(message))
  }

  /** First `onErrorResume`: a 404 becomes a RuntimeException naming the date. */
  function OnNotFound(r: Result<NasaApiResponse, Exception>, dateText: string): Result<NasaApiResponse, Exception> {
    if r.Failure? && r.error.WebClientResponse? && r.error.statusCode == 404
    then Failure(Runtime(NotFoundMessage(dateText)))
    else r
  }

  /** Second `onErrorResume`: any other HTTP error becomes a RuntimeException with its status. */
  function OnHttpError(r: Result<NasaApiResponse, Exception>): Result<NasaApiResponse, Exception> {
    if r.Failure? && r.error.WebClientResponse?
    then Failure(Runtime(HttpErrorMessage(r.error.statusText, r.error.statusCode)))
    else r
  }

  /** Third `onErrorResume`: every exception, including those the first two produced, is
      wrapped once more. */
  function OnAnyError(r: Result<NasaApiResponse, Exception>): Result<NasaApiResponse, Exception> {
    if r.Failure? then Failure(Runtime(GeneralErrorPrefix + r.error.message)) else r
  }

  /** `getApod(date)` with the clock reading `today` and the feed answering `upstream`. */
  function GetApod(date: Option<LocalDate>, today: LocalDate, upstream: HttpOutcome<NasaApiResponse>)
    : (r: Result<NasaApiResponse, Exception>)
    ensures ValidateRequestDate(date, today).Failure? ==>
              r == Failure(ValidateRequestDate(date, today).error) && r.error.IllegalArgument?
    ensures ValidateRequestDate(date, today).Success? && upstream.Ok? ==> r == Success(upstream.body)
    ensures ValidateRequestDate(date, today).Success? && !upstream.Ok? ==>
              r.Failure? && r.error.Runtime? && GeneralErrorPrefix <= r.error.message
    ensures ValidateRequestDate(date, today).Success? && upstream.OtherError? ==>
              r == Failure(Runtime(GeneralErrorPrefix + upstream.message))
  {
    match ValidateRequestDate(date, today)
    case Failure(e) => Failure(e)
    case Success(d) => OnAnyError(OnHttpError(OnNotFound(Retrieve(upstream), DateParam(d))))
  }

  /** A rejected date is decided before any request: the feed's answer makes no difference. */
  lemma RejectionPrecedesRequest(date: Option<LocalDate>, today: LocalDate, u1: HttpOutcome<NasaApiResponse>, u2: HttpOutcome<NasaApiResponse>)
    requires ValidateRequestDate(date, today).Failure?
    ensures GetApod(date, today, u1) == GetApod(date, today, u2)
  {
  }

  /** The future check runs first: a date both in the future and before the start date is
      reported as future. */
  lemma FutureCheckFirst(date: LocalDate, today: LocalDate)
    requires After(date, today) && Before(date, ApodStartDate)
    ensures GetApod(Some(date), today, OtherError("")) == Failure(IllegalArgument(FutureDateMessage(date, today)))
  {
  }

  /** Today and the start date are both accepted. */
  lemma BoundariesAccepted(today: LocalDate)
    requires !Before(today, ApodStartDate)
    ensures ValidateRequestDate(None, today) == Success(today)
    ensures ValidateRequestDate(Some(ApodStartDate), today) == Success(ApodStartDate)
  {
  }

  /** A 404 surfaces with the date it was asked for, wrapped by the last handler. */
  lemma NotFoundNamesDate(date: Option<LocalDate>, today: LocalDate, text: string, message: string)
    requires ValidateRequestDate(date, today).Success?
    ensures GetApod(date, today, HttpError(404, text, message)) ==
            Failure(Runtime(GeneralErrorPrefix + NotFoundMessage(DateParam(EffectiveDate(date, today)))))
  {
  }

  /** Any other HTTP error surfaces with its status text and code, wrapped by the last handler. */
  lemma HttpErrorNamesStatus(date: Option<LocalDate>, today: LocalDate, code: int, text: string, message: string)
    requires ValidateRequestDate(date, today).Success? && code != 404
    ensures GetApod(date, today, HttpError(code, text, message)) ==
            Failure(Runtime(GeneralErrorPrefix + HttpErrorMessage(text, code)))
  {
  }

  /** The query parameter of an accepted date is a well-formed full-date denoting that date. */
  lemma SentDateDenotesRequest(date: Option<LocalDate>, today: LocalDate)
    requires ValidateRequestDate(date, today).Success? && today.year <= 9999
    ensures Parse(DateParam(ValidateRequestDate(date, today).value)) == Some(ValidateRequestDate(date, today).value)
  {
    ParseFormat(ValidateRequestDate(date, today).value);
  }

  /** The date `getTodayApod` asks for: today, or 2024-12-31 when the clock is past it. */
  function TodayRequestDate(today: LocalDate): (d: LocalDate)
    ensures !After(d, MaxValidDate) && !After(d, today)
    ensures d == today || d == MaxValidDate
  {
    Min(today, MaxValidDate)
  }

  /** `getTodayApod()`: the clamped date never trips the future-date check, so the only
      rejection is a clock set before the start date; otherwise it behaves as `getApod`. */
  function GetTodayApod(today: LocalDate, upstream: HttpOutcome<NasaApiResponse>): (r: Result<NasaApiResponse, Exception>)
    ensures (r.Failure? && r.error.IllegalArgument?) <==> Before(today, ApodStartDate)
    ensures r.Failure? && r.error.IllegalArgument? ==> r.error == IllegalArgument(TooEarlyMessage(today))
    ensures !Before(today, ApodStartDate) && upstream.Ok? ==> r == Success(upstream.body)
    ensures !Before(today, ApodStartDate) && !upstream.Ok? ==>
              r.Failure? && r.error.Runtime? && GeneralErrorPrefix <= r.error.message
    ensures !Before(today, ApodStartDate) && upstream.HttpError? && upstream.statusCode == 404 ==>
              r == Failure(Runtime(GeneralErrorPrefix + NotFoundMessage(DateParam(TodayRequestDate(today)))))
  {
    var d := TodayRequestDate(today);
    TodayNeverFuture(today);
    assert EffectiveDate(Some(d), today) == d;
    GetApod(Some(d), today, upstream)
  }

  /** The clamp keeps `getTodayApod` clear of the future-date check; only a clock set before
      the start date makes it fail validation. */
  lemma TodayNeverFuture(today: LocalDate)
    ensures ValidateRequestDate(Some(TodayRequestDate(today)), today).Success? <==> !Before(today, ApodStartDate)
  {
  }
}
