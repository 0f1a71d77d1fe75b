/** The older AI-detection service (`apis_ai_demos` `AiDetectionService.detectAi`): it reads the
    detector's raw JSON itself, never fails, and logs each interpreted answer as a query. */
module DemoAiDetection {
  import opened Wrappers
  import opened Errors
  import opened Lifecycle
  import opened Classification

  /** The `summary` object of the detector's answer; each score may be missing. */
  datatype Summary = Summary(ai: Option<real>, human: Option<real>, mixed: Option<real>)

  /** The parts of the detector's JSON the service reads: `ai_score` (0 to 100) and `summary`. */
  datatype DetectionJson = DetectionJson(aiScore: Option<real>, summary: Option<Summary>)

  /** The body returned to clients. */
  datatype AiDetectionResponse = AiDetectionResponse(text: string, aiProbability: real, classification: Label, lang: string)

  /** The `ai_detection_queries` row written for each interpreted answer. */
  datatype AiDetectionQuery = AiDetectionQuery(text: string, lang: string, aiProbability: real, classification: Label, createdAt: Timestamp)

  const DefaultLanguage := "en"

  /** The summary's verdict, missing scores counting as 0: a strict winner among ai and human
      decides; otherwise any positive mixed score gives MIXED_CONTENT, and nothing gives
      UNCERTAIN. */
  function SummaryLabel(s: Summary): (l: Label)
    ensures var ai, human, mixed := s.ai.GetOr(0.0), s.human.GetOr(0.0), s.mixed.GetOr(0.0);
            && (l == AiGenerated <==> ai > human && ai > mixed)
            && (l == HumanWritten <==> human > ai && human > mixed)
            && (l == MixedContent <==> !(ai > human && ai > mixed) && !(human > ai && human > mixed) && mixed > 0.0)
            && (l == Uncertain <==> !(ai > human && ai > mixed) && !(human > ai && human > mixed) && mixed <= 0.0)
  {
    var ai, human, mixed := s.ai.GetOr(0.0), s.human.GetOr(0.0), s.mixed.GetOr(0.0);
    if ai > human && ai > mixed then AiGenerated
    else if human > ai && human > mixed then HumanWritten
    else if mixed > 0.0 then MixedContent
    else Uncertain
  }

  /** Swapping the ai and human scores swaps the two hard verdicts and keeps the others. */
  lemma SummarySymmetric(s: Summary)
    ensures var swapped := SummaryLabel(Summary(s.human, s.ai, s.mixed));
            && (SummaryLabel(s) == AiGenerated <==> swapped == HumanWritten)
            && (SummaryLabel(s) == HumanWritten <==> swapped == AiGenerated)
            && (SummaryLabel(s) == MixedContent <==> swapped == MixedContent)
            && (SummaryLabel(s) == Uncertain <==> swapped == Uncertain)
  {
  }

  /** The probability and label read from a parsed answer: `ai_score / 100` and the summary's
      verdict (UNKNOWN without a summary), unless `ai_score` is missing, which gives 0.0 and
      PARSE_ERROR whatever the summary says. */
  function Interpret(json: DetectionJson): (r: (real, Label))
    ensures json.aiScore.None? ==> r == (0.0, ParseError)
    ensures json.aiScore.Some? ==> r.0 == json.aiScore.value / 100.0
    ensures json.aiScore.Some? && json.summary.None? ==> r.1 == Unknown
    ensures json.aiScore.Some? && json.summary.Some? ==> r.1 == SummaryLabel(json.summary.value)
    ensures r.1 != ConnectionError
  {
    var probability := if json.aiScore.Some? then Some(json.aiScore.value / 100.0) else None;
    var verdict := if json.summary.Some? then SummaryLabel(json.summary.value) else Unknown;
    if probability.None? then (0.0, ParseError) else (probability.value, verdict)
  }

  /** The Mono `detectAi(text, language)` returns for one exchange with the detector: empty for an
      empty body, and otherwise always a response echoing the text and language. */
  function DetectionResponse(text: string, language: string, upstream: HttpOutcome<RawBody<DetectionJson>>)
    : (r: Option<AiDetectionResponse>)
    ensures r.None? <==> upstream == Ok(Empty)
    ensures r.Some? ==> r.value.text == text && r.value.lang == language
    ensures r.Some? ==> (r.value.classification == ConnectionError <==> !upstream.Ok?)
    ensures !upstream.Ok? ==> r == Some(AiDetectionResponse(text, 0.0, ConnectionError, language))
    ensures upstream == Ok(Unparsable) ==> r == Some(AiDetectionResponse(text, 0.0, ParseError, language))
    ensures upstream.Ok? && upstream.body.Parsed? ==>
              r == Some(AiDetectionResponse(text, Interpret(upstream.body.json).0, Interpret(upstream.body.json).1, language))
  {
    match upstream
    case Ok(Empty) => None
    case Ok(Unparsable) => Some(AiDetectionResponse(text, 0.0, ParseError, language))
    case Ok(Parsed(json)) =>
      var (probability, verdict) := Interpret(json);
      Some(AiDetectionResponse(text, probability, verdict, language))
    case _ => Some(AiDetectionResponse(text, 0.0, ConnectionError, language))
  }

  /** The query row logged for a response. */
  function QueryOf(r: AiDetectionResponse, now: Timestamp): (q: AiDetectionQuery)
    ensures q.text == r.text && q.lang == r.lang && q.aiProbability == r.aiProbability && q.classification == r.classification
    ensures q.createdAt == now
  {
    AiDetectionQuery(r.text, r.lang, r.aiProbability, r.classification, now)
  }

  /** The service and the query log it appends to. */
  class AiDetectionService {
    var queries: seq<AiDetectionQuery>

    constructor ()
      ensures queries == []
    {
      queries := [];
    }

    /** `detectAi(text, language)`: interpret the answer and log it when the body parsed. */
    method DetectAi(text: string, language: string, upstream: HttpOutcome<RawBody<DetectionJson>>, now: Timestamp)
      returns (r: Option<AiDetectionResponse>)
      modifies this
      ensures r == DetectionResponse(text, language, upstream)
      ensures upstream.Ok? && upstream.body.Parsed? ==> queries == old(queries) + [QueryOf(r.value, now)]
      ensures !(upstream.Ok? && upstream.body.Parsed?) ==> queries == old(queries)
    {
      match upstream {
        case Ok(body) =>
          match body {
            case Empty =>
              r := None;
            case Unparsable =>
              r := Some(AiDetectionResponse(text, 0.0, ParseError, language));
            case Parsed(json) =>
              var (probability, verdict) := Interpret(json);
              var response := AiDetectionResponse(text, probability, verdict, language);
              queries := queries + [QueryOf(response, now)];
              r := Some(response);
          }
        case _ =>
          r := Some(AiDetectionResponse(text, 0.0, ConnectionError, language));
      }
    }

    /** `detectAi(text)`: the same call in English. */
    method DetectAiInDefaultLanguage(text: string, upstream: HttpOutcome<RawBody<DetectionJson>>, now: Timestamp)
      returns (r: Option<AiDetectionResponse>)
      modifies this
      ensures r == DetectionResponse(text, DefaultLanguage, upstream)
      ensures upstream.Ok? && upstream.body.Parsed? ==> queries == old(queries) + [QueryOf(r.value, now)]
      ensures !(upstream.Ok? && upstream.body.Parsed?) ==> queries == old(queries)
    {
      r := DetectAi(text, DefaultLanguage, upstream, now);
    }
  }
}
