/** The older APOD service (`apis_ai_demos` `NasaApodService`): it reads the feed's raw JSON
    itself, tags every answer with a status instead of failing, and logs parsed answers. */
module DemoNasaApod {
  import opened Wrappers
  import opened Errors
  import opened Lifecycle
  import Text

  /** The decoded APOD answer plus the service's own `status` tag. */
  datatype NasaApodResponse = NasaApodResponse(
    copyright: Option<string>,
    date: Option<string>,
    explanation: Option<string>,
    hdUrl: Option<string>,
    mediaType: Option<string>,
    serviceVersion: Option<string>,
    title: Option<string>,
    url: Option<string>,
    status: Option<string>)

  /** The `nasa_apod_queries` row written for each parsed answer. */
  datatype NasaApodQuery = NasaApodQuery(
    requestedDate: Option<string>,
    title: Option<string>,
    explanation: Option<string>,
    imageUrl: Option<string>,
    hdImageUrl: Option<string>,
    mediaType: Option<string>,
    copyright: Option<string>,
    status: string,
    createdAt: Timestamp)

  const SuccessStatus := "SUCCESS"
  const ParseErrorStatus := "PARSE_ERROR"
  const ErrorStatus := "ERROR"

  const Blank := NasaApodResponse(None, None, None, None, None, None, None, None, None)

  /** The query string of the request: the key, then `date` exactly when one is given and is not
      blank, passed on as written. */
  function QueryParams(apiKey: string, date: Option<string>): (params: seq<(string, string)>)
    ensures |params| >= 1 && params[0] == ("api_key", apiKey)
    ensures |params| == 2 <==> date.Some? && exists i :: 0 <= i < |date.value| && date.value[i] > ' '
    ensures |params| == 2 ==> params[1] == ("date", date.value)
    ensures |params| <= 2
  {
    if date.None? then [("api_key", apiKey)]
    else
      Text.BlankIffAllControlOrSpace(date.value);
      [("api_key", apiKey)] + if Text.IsBlank(date.value) then [] else [("date", date.value)]
  }

  /** `createErrorResponse(errorType)`: status ERROR and a title naming the error. */
  function CreateErrorResponse(errorType: string): (r: NasaApodResponse)
    ensures r.status == Some(ErrorStatus)
    ensures r.title == Some(errorType + " - Could not connect to NASA APOD API")
    ensures r.(status := None, title := None) == Blank
  {
    Blank.(status := Some(ErrorStatus), title := Some(errorType + " - Could not connect to NASA APOD API"))
  }

  /** The response for a body that does not parse: status PARSE_ERROR, a fixed title, nothing else. */
  function ParseErrorResponse(): (r: NasaApodResponse)
    ensures r.status == Some(ParseErrorStatus) && r.title == Some("Error parsing response")
    ensures r.(status := None, title := None) == Blank
  {
    Blank.(status := Some(ParseErrorStatus), title := Some("Error parsing response"))
  }

  /** The Mono `getApod` returns for one exchange: empty for an empty body, otherwise a response
      whose status says what happened. */
  function ApodResponse(upstream: HttpOutcome<RawBody<NasaApodResponse>>): (r: Option<NasaApodResponse>)
    ensures r.None? <==> upstream == Ok(Empty)
    ensures upstream.Ok? && upstream.body.Parsed? ==> r == Some(upstream.body.json.(status := Some(SuccessStatus)))
    ensures upstream == Ok(Unparsable) ==> r == Some(ParseErrorResponse())
    ensures !upstream.Ok? ==> r == Some(CreateErrorResponse("CONNECTION_ERROR"))
  {
    match upstream
    case Ok(Empty) => None
    case Ok(Unparsable) => Some(ParseErrorResponse())
    case Ok(Parsed(json)) => Some(json.(status := Some(SuccessStatus)))
    case _ => Some(CreateErrorResponse("CONNECTION_ERROR"))
  }

  /** The status tag alone tells a caller which of the three outcomes occurred. */
  lemma StatusIdentifiesOutcome(upstream: HttpOutcome<RawBody<NasaApodResponse>>)
    requires upstream != Ok(Empty)
    ensures ApodResponse(upstream).value.status == Some(SuccessStatus) <==> upstream.Ok? && upstream.body.Parsed?
    ensures ApodResponse(upstream).value.status == Some(ParseErrorStatus) <==> upstream == Ok(Unparsable)
    ensures ApodResponse(upstream).value.status == Some(ErrorStatus) <==> !upstream.Ok?
  {
  }

  /** The query row logged for a parsed answer: the answer's date as the requested date, the
      urls under their column names, status SUCCESS. */
  function QueryOf(json: NasaApodResponse, now: Timestamp): (q: NasaApodQuery)
    ensures q.requestedDate == json.date && q.imageUrl == json.url && q.hdImageUrl == json.hdUrl
    ensures q.title == json.title && q.explanation == json.explanation && q.mediaType == json.mediaType
    ensures q.copyright == json.copyright && q.status == SuccessStatus && q.createdAt == now
  {
    NasaApodQuery(json.date, json.title, json.explanation, json.url, json.hdUrl, json.mediaType,
                  json.copyright, SuccessStatus, now)
  }

  /** The service, its configured key, and the query log it appends to. */
  class NasaApodService {
    const apiKey: string
    var queries: seq<NasaApodQuery>

    constructor (apiKey: string)
      ensures this.apiKey == apiKey && queries == []
    {
      this.apiKey := apiKey;
      queries := [];
    }

    /** `getApod(date)`: the request it sends, and the response, logging parsed answers. */
    method GetApod(date: Option<string>, upstream: HttpOutcome<RawBody<NasaApodResponse>>, now: Timestamp)
      returns (request: seq<(string, string)>, r: Option<NasaApodResponse>)
      modifies this
      ensures request == QueryParams(apiKey, date)
      ensures r == ApodResponse(upstream)
      ensures upstream.Ok? && upstream.body.Parsed? ==> queries == old(queries) + [QueryOf(upstream.body.json, now)]
      ensures !(upstream.Ok? && upstream.body.Parsed?) ==> queries == old(queries)
    {
      request := QueryParams(apiKey, date);
      match upstream {
        case Ok(body) =>
          match body {
            case Empty =>
              r := None;
            case Unparsable =>
              r := Some(ParseErrorResponse());
            case Parsed(json) =>
              var response := json.(status := Some(SuccessStatus));
              queries := queries + [QueryOf(response, now)];
              r := Some(response);
          }
        case _ =>
          r := Some(CreateErrorResponse("CONNECTION_ERROR"));
      }
    }

    /** `getTodayApod()`: `getApod(null)`, so the request carries no date. */
    method GetTodayApod(upstream: HttpOutcome<RawBody<NasaApodResponse>>, now: Timestamp)
      returns (request: seq<(string, string)>, r: Option<NasaApodResponse>)
      modifies this
      ensures request == [("api_key", apiKey)]
      ensures r == ApodResponse(upstream)
      ensures upstream.Ok? && upstream.body.Parsed? ==> queries == old(queries) + [QueryOf(upstream.body.json, now)]
      ensures !(upstream.Ok? && upstream.body.Parsed?) ==> queries == old(queries)
    {
      request, r := GetApod(None, upstream, now);
    }
  }
}
