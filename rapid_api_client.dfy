/** The client of the third-party AI-detection API (`RapidApiClient.detectAiContent`).
    It fails open: whatever happens upstream, the caller receives a response value. */
module RapidApiClient {
  import opened Wrappers
  import opened Errors
  import Classification

  /** The decoded answer; every field may be missing from the JSON. */
  datatype RapidApiResponse = RapidApiResponse(
    isAiGenerated: Option<bool>,
    confidence: Option<real>,
    message: Option<string>,
    details: Option<string>)

  const HttpErrorPrefix := "Error al procesar la solicitud: "
  const GeneralErrorPrefix := "Error inesperado: "

  /** The JSON object posted to the API. */
  function RequestBody(text: string): (body: map<string, string>)
    ensures body.Keys == {"text"} && body["text"] == text
  {
    map["text" := text]
  }

  /** The default answer that stands in for the classifier when the call fails. */
  function Fallback(message: string): RapidApiResponse {
    RapidApiResponse(Some(false), Some(0.0), Some(message), None)
  }

  /** The response the client emits for one upstream outcome. */
  function DetectAiContent(upstream: HttpOutcome<RapidApiResponse>): (r: RapidApiResponse)
    ensures upstream.Ok? ==> r == upstream.body
    ensures !upstream.Ok? ==>
              r.isAiGenerated == Some(false) && r.confidence == Some(0.0) && r.details.None?
    ensures upstream.HttpError? ==> r.message == Some(HttpErrorPrefix + upstream.message)
    ensures upstream.OtherError? ==> r.message == Some(GeneralErrorPrefix + upstream.message)
  {
    match upstream
    case Ok(body) => body
    case HttpError(_, _, message) => Fallback(HttpErrorPrefix + message)
    case OtherError(message) => Fallback(GeneralErrorPrefix + message)
  }

  /** A failed call always resolves to UNCERTAIN, since its confidence 0.0 is below 0.5. */
  lemma FallbackIsUncertain(upstream: HttpOutcome<RapidApiResponse>)
    requires !upstream.Ok?
    ensures var r := DetectAiContent(upstream);
            Classification.DetermineClassification(r.isAiGenerated, r.confidence) == Classification.Uncertain
  {
  }

  /** An outage and a genuine "human, zero confidence" answer agree on both numeric fields;
      only the message tells them apart. */
  lemma OutageLooksLikeZeroConfidence(upstream: HttpOutcome<RapidApiResponse>, genuine: RapidApiResponse)
    requires !upstream.Ok?
    requires genuine.isAiGenerated == Some(false) && genuine.confidence == Some(0.0) && genuine.message.None?
    ensures DetectAiContent(upstream).isAiGenerated == DetectAiContent(Ok(genuine)).isAiGenerated
    ensures DetectAiContent(upstream).confidence == DetectAiContent(Ok(genuine)).confidence
    ensures DetectAiContent(upstream).message != DetectAiContent(Ok(genuine)).message
  {
  }
}
