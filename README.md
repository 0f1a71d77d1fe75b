# AI detection and NASA APOD services — a Dafny model

This project models the service layer of a Spring WebFlux back end with two features.

- **AI-content detection.** Text goes to a third-party detector (RapidAPI). The answer's flag
  and confidence are resolved into a label (AI_GENERATED, HUMAN_WRITTEN, MIXED_CONTENT or
  UNCERTAIN), and the analysis is stored.
- **NASA Astronomy Picture of the Day (APOD).** A date is checked, the picture for it is
  fetched from NASA, and the result is stored. The two fetch operations upsert by APOD date.

Both stores use a soft-delete lifecycle: status `A` is Active and `I` is Inactive. Only
Active records are visible. Delete moves a record from A to I and restore moves it from I to A.
A record in the wrong state is reported exactly like a missing one.

The older `apis_ai_demos` package has a second pair of services. They read the raw JSON
themselves, never fail, and log every interpreted answer. A global exception handler turns
escaping exceptions into HTTP error responses.

Modules, one per source component:

- `Wrappers`: `Option` stands for a nullable reference and `Result` for a Mono that
  emits or fails.
- `Text`: decimal digits, `Long.toString`, Java's `trim`, and the stream reduce-join.
- `Dates`: `LocalDate` with its ordering, `toString` and `parse` (the four-digit-year
  form), proved to be inverse to each other.
- `Errors`: the exception kinds, and the abstract outcome of one HTTP exchange (`Ok`,
  `HttpError` or `OtherError`).
- `Lifecycle`: timestamps and the `A`/`I` status.
- `Classification`: the detection labels and `determineClassification`.
- `RapidApiClient`: the detector client. It fails open.
- `NasaApiClient`: the APOD client. It checks the date before the request and fails closed.
- `Detections`: the AI-detection store as a class.
- `Apods`: the APOD store as a class, with the by-date upsert. The at-most-one-Active-record-
  per-date invariant is proved for the fetch operations, and shown breakable by
  `create`, `update` and `restore`.
- `ExceptionHandling`: handler selection (the most specific class wins), status codes and
  messages.
- `DemoAiDetection` and `DemoNasaApod`: the older services.
- `EndToEnd`: how each service failure surfaces as an HTTP status.

External inputs are parameters:

- the clock, as `today` and `now`;
- the outcome of each HTTP exchange, as `upstream`;
- the configured NASA API key.

Timestamps are opaque numbers that are only copied. Confidences and scores are mathematical
reals.

## Model

| member | source | states |
|---|---|---|
| Classification.DetermineClassification | src/main/java/pe/edu/vallegrande/Ai_detection/service/AiDetectionService.java:205-219 | Always one of the four verdict labels. A null flag or confidence gives UNCERTAIN. AI_GENERATED iff the flag is true and confidence ≥ 0.7; HUMAN_WRITTEN iff the flag is false and confidence ≥ 0.7; MIXED_CONTENT iff both are present and 0.5 ≤ confidence < 0.7 |
| Classification.BandsOverrideFlag | src/main/java/pe/edu/vallegrande/Ai_detection/service/AiDetectionService.java:210-213 | Below 0.7 the flag does not change the label, and the label is never a hard verdict |
| Classification.Boundaries | src/main/java/pe/edu/vallegrande/Ai_detection/service/AiDetectionService.java:210-217 | 0.5 itself is MIXED_CONTENT; at 0.7 the flag decides |
| Classification.FirmnessMonotone | src/main/java/pe/edu/vallegrande/Ai_detection/service/AiDetectionService.java:210-218 | With the flag fixed, raising the confidence never makes the verdict less firm (none < mixed < hard verdict) |
| Text.BlankIffAllControlOrSpace | src/main/java/pe/edu/vallegrande/Ai_detection/service/AiDetectionService.java:175 | `trim().isEmpty()` holds exactly when every character is at or below U+0020 |
| Dates.ParseFormat | src/main/java/pe/edu/vallegrande/Ai_detection/service/NasaApiClient.java:63 | Every date with a year from 0 to 9999, printed as yyyy-MM-dd, parses back to itself |
| Dates.FormatParse | src/main/java/pe/edu/vallegrande/Ai_detection/service/NasaApodService.java:234 | Every string that `LocalDate.parse` accepts is exactly the toString() of the date it denotes |
| Dates.Min | src/main/java/pe/edu/vallegrande/Ai_detection/service/NasaApiClient.java:117-124 | The result is one of the two dates and is after neither |
| RapidApiClient.RequestBody | src/main/java/pe/edu/vallegrande/Ai_detection/service/RapidApiClient.java:39 | The body has exactly one key, "text", and it carries the input unchanged |
| RapidApiClient.DetectAiContent | src/main/java/pe/edu/vallegrande/Ai_detection/service/RapidApiClient.java:33-64 | A success passes the payload through unchanged. Every failure gives flag false and confidence 0.0, with no details. The message starts "Error al procesar la solicitud: " for an HTTP error and "Error inesperado: " for any other failure. No error is emitted |
| RapidApiClient.FallbackIsUncertain | src/main/java/pe/edu/vallegrande/Ai_detection/service/RapidApiClient.java:50-53 | The fallback answer, given to the resolver, is always UNCERTAIN |
| RapidApiClient.OutageLooksLikeZeroConfidence | src/main/java/pe/edu/vallegrande/Ai_detection/service/RapidApiClient.java:47-63 | An outage and a genuine "false, 0.0" answer agree on both numeric fields and differ only in the message |
| NasaApiClient.ValidateRequestDate | src/main/java/pe/edu/vallegrande/Ai_detection/service/NasaApiClient.java:42-61 | Null means today. The request is accepted iff the date is neither after today nor before 1995-06-16, and the accepted date is the effective date. A future date gives IllegalArgument with the "es futura" message naming both dates. Otherwise a too-early date gives the "anterior al inicio" message |
| NasaApiClient.GetApod | src/main/java/pe/edu/vallegrande/Ai_detection/service/NasaApiClient.java:40-104 | A validation failure is returned as it is (IllegalArgument). Otherwise a success returns the payload, and every upstream failure becomes a RuntimeException whose message starts "Error inesperado al conectar con NASA API: ". A failure without an HTTP status has exactly that prefix followed by its own message |
| NasaApiClient.RejectionPrecedesRequest | src/main/java/pe/edu/vallegrande/Ai_detection/service/NasaApiClient.java:45-61 | A rejected date gives the same result whatever the upstream would have answered |
| NasaApiClient.FutureCheckFirst | src/main/java/pe/edu/vallegrande/Ai_detection/service/NasaApiClient.java:45-61 | A date that is both future and too early is reported as future |
| NasaApiClient.BoundariesAccepted | src/main/java/pe/edu/vallegrande/Ai_detection/service/NasaApiClient.java:42-61 | Today (given as null) and 1995-06-16 are both accepted |
| NasaApiClient.NotFoundNamesDate | src/main/java/pe/edu/vallegrande/Ai_detection/service/NasaApiClient.java:83-103 | A 404 reaches the caller as the "No se encontraron datos…" message for the sent date, re-wrapped by the last handler |
| NasaApiClient.HttpErrorNamesStatus | src/main/java/pe/edu/vallegrande/Ai_detection/service/NasaApiClient.java:90-103 | Any other HTTP error reaches the caller as "Error al obtener datos…: <text> (Status: <code>)", re-wrapped by the last handler |
| NasaApiClient.SentDateDenotesRequest | src/main/java/pe/edu/vallegrande/Ai_detection/service/NasaApiClient.java:63-71 | The date query parameter of an accepted request is a yyyy-MM-dd string that parses back to the accepted date |
| NasaApiClient.TodayRequestDate | src/main/java/pe/edu/vallegrande/Ai_detection/service/NasaApiClient.java:113-126 | getTodayApod asks for today or 2024-12-31, and never for a date after either of them |
| NasaApiClient.GetTodayApod | src/main/java/pe/edu/vallegrande/Ai_detection/service/NasaApiClient.java:113-126 | Fails with IllegalArgument iff the clock is before 1995-06-16, and then always with the "anterior al inicio" message for today; it never raises the future-date error. Otherwise a success returns the payload, and every upstream failure is a RuntimeException with the "Error inesperado al conectar con NASA API: " prefix. A 404 names the clamped date min(today, 2024-12-31), so the request is for that date |
| NasaApiClient.TodayNeverFuture | src/main/java/pe/edu/vallegrande/Ai_detection/service/NasaApiClient.java:113-126 | The clamped date passes validation iff today is not before 1995-06-16 |
| Detections.Analysis | src/main/java/pe/edu/vallegrande/Ai_detection/service/AiDetectionService.java:43-55 | A new record is Active. It carries the text, the language and the client's flag and confidence. Its label is the resolver's verdict and its probability equals its confidence |
| Detections.Reanalysis | src/main/java/pe/edu/vallegrande/Ai_detection/service/AiDetectionService.java:103-114 | The updated record keeps its id, creation time and status. It takes the new text, and the old language when the request has none. It is consistent with the new answer |
| Detections.ToResponseDTO | src/main/java/pe/edu/vallegrande/Ai_detection/service/AiDetectionService.java:224-238 | Every column is copied unchanged: id, text, language, flag, probability, confidence, analysis date and both timestamps. The label and the status appear as their stored codes ("AI_GENERATED", "A") |
| Detections.ToResponseDTOInjective | src/main/java/pe/edu/vallegrande/Ai_detection/service/AiDetectionService.java:224-238 | Two records with equal responses are equal: the conversion loses nothing |
| Detections.TextError | src/main/java/pe/edu/vallegrande/Ai_detection/service/AiDetectionService.java:175-177 | The text is refused with IllegalArgument("El texto no puede estar vacío") iff it is null or every character is at or below U+0020 |
| Detections.AiDetectionService.FindAll | src/main/java/pe/edu/vallegrande/Ai_detection/service/AiDetectionService.java:69-74 | Exactly the Active records are returned, each converted, each with status "A" |
| Detections.AiDetectionService.FindById | src/main/java/pe/edu/vallegrande/Ai_detection/service/AiDetectionService.java:82-88 | Succeeds iff the id holds an Active record. Otherwise it fails with ResourceNotFound("Análisis no encontrado con ID: <id>") |
| Detections.AiDetectionService.Create | src/main/java/pe/edu/vallegrande/Ai_detection/service/AiDetectionService.java:36-62 | Inserts exactly one new Active record under the next id, built by Analysis with language "en" when the request has none. The text is not checked. The record is then visible through FindById |
| Detections.AiDetectionService.Update | src/main/java/pe/edu/vallegrande/Ai_detection/service/AiDetectionService.java:97-121 | A non-Active id gives not-found and no change. An Active id is replaced by its Reanalysis, and nothing else changes |
| Detections.AiDetectionService.Delete | src/main/java/pe/edu/vallegrande/Ai_detection/service/AiDetectionService.java:129-142 | Only an Active record can be deleted: it becomes Inactive with a new update time and drops out of FindAll/FindById. Otherwise: not-found and no change |
| Detections.AiDetectionService.Restore | src/main/java/pe/edu/vallegrande/Ai_detection/service/AiDetectionService.java:150-164 | Only an Inactive record can be restored: it becomes Active with a new update time. Otherwise: "Análisis eliminado no encontrado" and no change |
| Detections.AiDetectionService.AnalyzeTextDirectly | src/main/java/pe/edu/vallegrande/Ai_detection/service/AiDetectionService.java:172-200 | Blank or null text fails with no change to the store. Otherwise one new Active record is inserted in language "en" |
| Detections.RestoreUndoesDelete | src/main/java/pe/edu/vallegrande/Ai_detection/service/AiDetectionService.java:135-158 | Delete followed by restore changes nothing but the update time |
| Apods.PayloadDate | src/main/java/pe/edu/vallegrande/Ai_detection/service/NasaApodService.java:180 | Parsing the answer's date succeeds iff it is present and parses. The result prints back as the given string. A failure is a RuntimeException |
| Apods.RequestDate | src/main/java/pe/edu/vallegrande/Ai_detection/service/NasaApodService.java:233-284 | Succeeds iff the string is present and parses, and then prints back as the string. Every failure is IllegalArgument("Formato de fecha inválido. Use YYYY-MM-DD") |
| Apods.NewApod | src/main/java/pe/edu/vallegrande/Ai_detection/service/NasaApodService.java:43-57 | An inserted record is Active with query status SUCCESS. It carries the answer's seven columns, the requested-date text and the given APOD date |
| Apods.Refreshed | src/main/java/pe/edu/vallegrande/Ai_detection/service/NasaApodService.java:185-194 | The fetch update rewrites the answer's columns, the requested date, the query status and the update time. It keeps id, APOD date, status and creation time |
| Apods.Revised | src/main/java/pe/edu/vallegrande/Ai_detection/service/NasaApodService.java:108-118 | The update write does the same and also rewrites the APOD date |
| Apods.RestoreUndoesDelete | src/main/java/pe/edu/vallegrande/Ai_detection/service/NasaApodService.java:139-162 | Delete followed by restore changes nothing but the update time |
| Apods.ToResponseDTO | src/main/java/pe/edu/vallegrande/Ai_detection/service/NasaApodService.java:290-307 | Every column is copied unchanged: id, requested date, the seven answer columns, APOD date, query status and both timestamps. The status appears as its code |
| Apods.ToResponseDTOInjective | src/main/java/pe/edu/vallegrande/Ai_detection/service/NasaApodService.java:290-307 | Two records with equal responses are equal |
| Apods.ActiveOn | src/main/java/pe/edu/vallegrande/Ai_detection/repository/NasaApodRepository.java:43 | Gives exactly the Active records stored under their own id with the given APOD date |
| Apods.UniqueMeansAtMostOne | src/main/java/pe/edu/vallegrande/Ai_detection/service/NasaApodService.java:181 | Under the uniqueness invariant, a date matches at most one Active record |
| Apods.Upserted | src/main/java/pe/edu/vallegrande/Ai_detection/service/NasaApodService.java:181-217 | Several matches give the single-row query's error. No match inserts one new Active record under the next id. One match updates that record in place (Refreshed), keeping the next id. Either way the written record is Active for the key and carries the answer |
| Apods.UpsertKeepsUniqueActiveDates | src/main/java/pe/edu/vallegrande/Ai_detection/service/NasaApodService.java:181-217 | From a store with at most one Active record per date, the upsert succeeds, keeps that invariant, and leaves exactly the written record Active for its key |
| Apods.UpsertTwiceReusesRecord | src/main/java/pe/edu/vallegrande/Ai_detection/service/NasaApodService.java:238-274 | A second fetch of the same date updates the record the first one wrote: same id, no new id, same set of ids |
| Apods.CreateCanBreakUniqueness | src/main/java/pe/edu/vallegrande/Ai_detection/service/NasaApodService.java:37-59 | create inserts without a lookup, so a date that already has an Active record gets a second one |
| Apods.UpdateCanBreakUniqueness | src/main/java/pe/edu/vallegrande/Ai_detection/service/NasaApodService.java:114 | update rewrites the APOD date, so it can move a record onto a date another Active record holds |
| Apods.RestoreCanBreakUniqueness | src/main/java/pe/edu/vallegrande/Ai_detection/service/NasaApodService.java:157-163 | restore does not check dates, so reviving a record whose date is held again gives two Active records |
| Apods.NasaApodService.FindAll | src/main/java/pe/edu/vallegrande/Ai_detection/service/NasaApodService.java:71-76 | Exactly the Active records are returned, each with status "A" |
| Apods.NasaApodService.FindById | src/main/java/pe/edu/vallegrande/Ai_detection/service/NasaApodService.java:84-90 | Succeeds iff the id holds an Active record. Otherwise it fails with ResourceNotFound("Registro APOD no encontrado con ID: <id>") |
| Apods.NasaApodService.FindByApodDate | src/main/java/pe/edu/vallegrande/Ai_detection/repository/NasaApodRepository.java:43 | Several matches give an error, no match gives an empty result, and one match gives that record |
| Apods.NasaApodService.Create | src/main/java/pe/edu/vallegrande/Ai_detection/service/NasaApodService.java:37-64 | Fetches the date (today when absent). An upstream error and an unusable answer date fail with no change. Otherwise one NewApod is inserted, with requestedDate = toString() of the date |
| Apods.NasaApodService.Update | src/main/java/pe/edu/vallegrande/Ai_detection/service/NasaApodService.java:99-125 | A non-Active id gives not-found. Otherwise the record is fetched again for the request's date, or for its own APOD date when there is none, and overwritten by Revised. Every failure leaves the store unchanged |
| Apods.NasaApodService.Delete | src/main/java/pe/edu/vallegrande/Ai_detection/service/NasaApodService.java:133-146 | Active goes to Inactive and drops out of FindAll/FindById. Otherwise: not-found and no change. The uniqueness invariant is kept |
| Apods.NasaApodService.Restore | src/main/java/pe/edu/vallegrande/Ai_detection/service/NasaApodService.java:154-168 | Inactive goes to Active. Otherwise: "Registro APOD eliminado no encontrado" and no change |
| Apods.NasaApodService.Upsert | src/main/java/pe/edu/vallegrande/Ai_detection/service/NasaApodService.java:181-217 | Performs exactly Upserted on the store and keeps the uniqueness invariant |
| Apods.NasaApodService.FetchTodayApodFromApi | src/main/java/pe/edu/vallegrande/Ai_detection/service/NasaApodService.java:175-222 | Calls getTodayApod, then upserts under the answer's own date, storing that date's toString() as the requested date. Failures leave the store unchanged. The invariant is kept |
| Apods.NasaApodService.FetchApodFromApiByDate | src/main/java/pe/edu/vallegrande/Ai_detection/service/NasaApodService.java:231-285 | A malformed date fails before any request. Otherwise the requested date is fetched and upserted under that date, storing the string as submitted, which equals the date's toString(). The invariant is kept |
| ExceptionHandling.SelectHandler | src/main/java/pe/edu/vallegrande/Ai_detection/exception/GlobalExceptionHandler.java:28-168 | The chosen handler applies to the exception, and no applicable handler's class is nearer to the exception's class |
| ExceptionHandling.Rendered | src/main/java/pe/edu/vallegrande/Ai_detection/exception/GlobalExceptionHandler.java:84 | Each field error is rendered as "field: message", in order |
| ExceptionHandling.ValidationMessage | src/main/java/pe/edu/vallegrande/Ai_detection/exception/GlobalExceptionHandler.java:81-86 | No errors give "Error de validación"; one error gives its rendering |
| ExceptionHandling.ValidationMessageAppend | src/main/java/pe/edu/vallegrande/Ai_detection/exception/GlobalExceptionHandler.java:85 | The message for two batches is the two messages joined by ", " |
| ExceptionHandling.Handle | src/main/java/pe/edu/vallegrande/Ai_detection/exception/GlobalExceptionHandler.java:28-168 | The body's status equals the response code, error is that code's reason phrase, and path and timestamp are the request's. The codes are: not-found 404 with its message; WebClientResponse 502 with "Error al comunicarse con servicio externo: " + message; validation 400 with the joined field errors; IllegalArgument 400 with its message; other runtime 500 with its message; checked 500 with "Error interno del servidor: " + message |
| ExceptionHandling.NotFoundBeatsRuntime | src/main/java/pe/edu/vallegrande/Ai_detection/exception/GlobalExceptionHandler.java:28-46 | The RuntimeException handler also applies to ResourceNotFoundException, but the 404 handler is chosen |
| ExceptionHandling.StatusClasses | src/main/java/pe/edu/vallegrande/Ai_detection/exception/GlobalExceptionHandler.java:28-168 | 400 iff bad argument or validation, 404 iff not-found, 5xx iff anything else |
| DemoAiDetection.SummaryLabel | src/main/java/pe/edu/vallegrande/apis_ai_demos/service/AiDetectionService.java:70-85 | Missing scores count as 0. AI_GENERATED iff ai beats both others strictly; HUMAN_WRITTEN iff human does. Otherwise MIXED_CONTENT iff mixed > 0, and UNCERTAIN otherwise |
| DemoAiDetection.SummarySymmetric | src/main/java/pe/edu/vallegrande/apis_ai_demos/service/AiDetectionService.java:76-83 | Swapping the ai and human scores swaps the two hard verdicts and keeps the others |
| DemoAiDetection.Interpret | src/main/java/pe/edu/vallegrande/apis_ai_demos/service/AiDetectionService.java:59-91 | A missing ai_score gives (0.0, PARSE_ERROR), overriding any summary. Otherwise the probability is ai_score/100 and the label is the summary's verdict, or UNKNOWN without a summary |
| DemoAiDetection.DetectionResponse | src/main/java/pe/edu/vallegrande/apis_ai_demos/service/AiDetectionService.java:26-113 | The Mono is empty iff the body is empty. Otherwise the response echoes the text and language, and its label is CONNECTION_ERROR iff the exchange failed. A failed exchange gives exactly (text, 0.0, CONNECTION_ERROR, language). An unparsable body gives (0.0, PARSE_ERROR), and a parsed one gives Interpret's probability and label |
| DemoAiDetection.QueryOf | src/main/java/pe/edu/vallegrande/apis_ai_demos/service/AiDetectionService.java:98 | The logged query carries the response's text, language, probability and label, with the time of the call as its creation time |
| DemoAiDetection.AiDetectionService.DetectAi | src/main/java/pe/edu/vallegrande/apis_ai_demos/service/AiDetectionService.java:26-113 | Returns DetectionResponse. Exactly one query, matching the response, is logged iff the body parsed |
| DemoAiDetection.AiDetectionService.DetectAiInDefaultLanguage | src/main/java/pe/edu/vallegrande/apis_ai_demos/service/AiDetectionService.java:115-117 | Behaves as DetectAi with "en" |
| DemoNasaApod.QueryParams | src/main/java/pe/edu/vallegrande/apis_ai_demos/service/NasaApodService.java:33-40 | api_key comes first. A date parameter follows iff the date is non-null and has a character above U+0020, and it is passed untrimmed |
| DemoNasaApod.CreateErrorResponse | src/main/java/pe/edu/vallegrande/apis_ai_demos/service/NasaApodService.java:103-107 | Status ERROR and title "<type> - Could not connect to NASA APOD API"; every other field null |
| DemoNasaApod.ParseErrorResponse | src/main/java/pe/edu/vallegrande/apis_ai_demos/service/NasaApodService.java:90-93 | Status PARSE_ERROR and title "Error parsing response"; every other field null |
| DemoNasaApod.ApodResponse | src/main/java/pe/edu/vallegrande/apis_ai_demos/service/NasaApodService.java:28-97 | The Mono is empty iff the body is empty. A parsed answer is returned with status SUCCESS, an unparsable one gives the parse-error response, and a failed exchange gives the CONNECTION_ERROR response |
| DemoNasaApod.StatusIdentifiesOutcome | src/main/java/pe/edu/vallegrande/apis_ai_demos/service/NasaApodService.java:57-96 | The status tag alone tells success, parse error and connection error apart |
| DemoNasaApod.QueryOf | src/main/java/pe/edu/vallegrande/apis_ai_demos/service/NasaApodService.java:68-77 | requestedDate ← date, imageUrl ← url, hdImageUrl ← hdUrl, status "SUCCESS"; the other columns are copied |
| DemoNasaApod.NasaApodService.GetApod | src/main/java/pe/edu/vallegrande/apis_ai_demos/service/NasaApodService.java:28-97 | Sends QueryParams and returns ApodResponse. Exactly one query is logged iff the body parsed |
| DemoNasaApod.NasaApodService.GetTodayApod | src/main/java/pe/edu/vallegrande/apis_ai_demos/service/NasaApodService.java:99-101 | The request carries only the API key, and the result is that of getApod(null) |
| EndToEnd.FeedFailureIsServerError | src/main/java/pe/edu/vallegrande/Ai_detection/service/NasaApiClient.java:83-103 | Every NASA upstream failure reaches the client as a 500 with the client's last prefix, never through the 502 handler, and a feed 404 is not a client 404 |
| EndToEnd.RejectedDateIsBadRequest | src/main/java/pe/edu/vallegrande/Ai_detection/service/NasaApiClient.java:45-61 | An out-of-range date reaches the client as a 400 with the validation message |
| EndToEnd.MalformedDateIsBadRequest | src/main/java/pe/edu/vallegrande/Ai_detection/service/NasaApodService.java:281-284 | A malformed date string reaches the client as a 400 with the format message |
| EndToEnd.UnusablePayloadDateIsServerError | src/main/java/pe/edu/vallegrande/Ai_detection/service/NasaApodService.java:180 | An answer with a missing or unparsable date reaches the client as a 500 |
| EndToEnd.MissingDetectionIsNotFound | src/main/java/pe/edu/vallegrande/Ai_detection/service/AiDetectionService.java:82-88 | A missing or deleted analysis reaches the client as a 404 with the service's message |
| EndToEnd.MissingApodIsNotFound | src/main/java/pe/edu/vallegrande/Ai_detection/service/NasaApodService.java:84-90 | A missing or deleted APOD record reaches the client as a 404 with the service's message |

## Left out

- Controllers, configuration classes, logging, OpenAPI wiring and the SQL of the demo repositories are not part of this model.
- Asynchrony is not modelled: every operation runs sequentially, so concurrent upserts for the same date are not modelled. The demo services' fire-and-forget saves are modelled as appends that always succeed. A failed save is not modelled, and neither is a failure of any other repository call.
- Clock: each call reads the clock through one `today`/`now` parameter. The source calls `LocalDate.now()`/`LocalDateTime.now()` several times within one call. Two `LocalDate` reads differ only across midnight. Separate `LocalDateTime` reads almost always differ: the three in `create` and the two in `update` give different analysis, creation and update times. So the equalities between those timestamps (`Detections.Analysis`, `Detections.Reanalysis`, `Apods.NewApod`) are a choice of the model, not a promise of the source.
- Order: `findAll` is modelled as a map from id to response; the order of the Flux is not modelled.
- Null text: `Map.of("text", null)` in the RapidAPI client and `text.substring` in the demo detector throw before any Mono exists. The model takes the text as a non-null string.
- Empty body from the RapidAPI or NASA client in the Ai_detection package: the `doOnSuccess` logger dereferences the missing response, and the exception takes the general-failure path. The model covers this case as `OtherError` with the exception's message as an input; the JDK wording of that message is not modelled. The demo services complete empty on an empty body, modelled as `None`.
- JSON decoding: payloads are records of optional fields. Jackson's `asDouble` coercion of non-numeric `ai_score`/summary values is not modelled, and neither is the rejection of unknown properties. Both are folded into "parsed" or "unparsable".
- Floating point: confidences and scores are reals, so IEEE rounding, NaN and infinities are not modelled.
- Dates.Parse: accepts only the four-digit-year form of `LocalDate.parse`. Signed and extended years ("+10000-01-01") parse in Java but are rejected here.
- Apods.PayloadDate: the message of a parse failure is "Text '<s>' could not be parsed". Every suffix the JDK appends is left out: the error index, and the cause such as ": Invalid date 'FEBRUARY 30'" for a well-shaped but impossible date. The JDK's shortening of texts over 64 characters is left out too.
- Apods.NonUniqueResultMessage: stands for the message of the data-access exception raised when a single-row query matches several rows; the exact wording comes from the persistence library, which is not part of this model.
- The configured NASA API key and base URLs are parameters or constants. The detector's request body in the demo service is not modelled.
