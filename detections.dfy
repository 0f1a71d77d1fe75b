/** The stored AI-detection analyses and their service (`Ai_detection` `AiDetectionService`):
    a keyed store of records with a soft-delete status, filled from the RapidAPI client. */
module Detections {
  import opened Wrappers
  import opened Errors
  import opened Lifecycle
  import opened Classification
  import RapidApiClient
  import Text

  /** The `ai_detections` row. */
  datatype AiDetection = AiDetection(
    id: int,
    textContent: string,
    lang: string,
    isAiGenerated: Option<bool>,
    aiProbability: Option<real>,
    confidenceScore: Option<real>,
    classification: Label,
    analysisDate: Timestamp,
    status: Status,
    createdAt: Timestamp,
    updatedAt: Timestamp)

  /** The body returned to clients. */
  datatype AiDetectionResponseDTO = AiDetectionResponseDTO(
    id: int,
    textContent: string,
    lang: string,
    isAiGenerated: Option<bool>,
    aiProbability: Option<real>,
    confidenceScore: Option<real>,
    classification: string,
    analysisDate: Timestamp,
    status: string,
    createdAt: Timestamp,
    updatedAt: Timestamp)

  /** The body clients send to `create` and `update`. */
  datatype AiDetectionRequestDTO = AiDetectionRequestDTO(textContent: string, lang: Option<string>)

  const DefaultLang := "en"
  const EmptyTextMessage := "El texto no puede estar vacío"

  function NotFoundMessage(id: int): string {
    "Análisis no encontrado con ID: " + Text.IntToString(id)
  }

  function DeletedNotFoundMessage(id: int): string {
    "Análisis eliminado no encontrado con ID: " + Text.IntToString(id)
  }

  /** A record agrees with the answer it was built from: the label is the resolver's verdict on
      the stored flag and confidence, and the probability column repeats the confidence. */
  predicate Consistent(e: AiDetection) {
    e.classification == DetermineClassification(e.isAiGenerated, e.confidenceScore)
    && e.aiProbability == e.confidenceScore
  }

  /** The record `create` and `analyzeTextDirectly` build from one client answer. */
  function Analysis(id: int, text: string, lang: string, api: RapidApiClient.RapidApiResponse, now: Timestamp)
    : (e: AiDetection)
    ensures Consistent(e)
    ensures e.id == id && e.textContent == text && e.lang == lang && e.status == Active
    ensures e.isAiGenerated == api.isAiGenerated && e.confidenceScore == api.confidence
    ensures e.analysisDate == e.createdAt == e.updatedAt == now
  {
    AiDetection(id, text, lang, api.isAiGenerated, api.confidence, api.confidence,
                DetermineClassification(api.isAiGenerated, api.confidence), now, Active, now, now)
  }

  /** The record `update` writes back: a fresh analysis of the new text that keeps the id, the
      creation time and the status, and keeps the old language when the request has none. */
  function Reanalysis(e: AiDetection, request: AiDetectionRequestDTO, api: RapidApiClient.RapidApiResponse, now: Timestamp)
    : (e': AiDetection)
    ensures Consistent(e')
    ensures e'.id == e.id && e'.createdAt == e.createdAt && e'.status == e.status
    ensures e'.textContent == request.textContent
    ensures e'.lang == (if request.lang.Some? then request.lang.value else e.lang)
    ensures e'.isAiGenerated == api.isAiGenerated && e'.confidenceScore == api.confidence
    ensures e'.analysisDate == e'.updatedAt == now
  {
    Analysis(e.id, request.textContent, request.lang.GetOr(e.lang), api, now).(createdAt := e.createdAt, status := e.status)
  }

  /** `toResponseDTO`: every column, with the label and status as their stored codes. */
  function ToResponseDTO(e: AiDetection): (dto: AiDetectionResponseDTO)
    ensures dto.id == e.id && dto.textContent == e.textContent && dto.lang == e.lang
    ensures dto.isAiGenerated == e.isAiGenerated && dto.aiProbability == e.aiProbability
    ensures dto.confidenceScore == e.confidenceScore && dto.analysisDate == e.analysisDate
    ensures dto.classification == e.classification.Name() && dto.status == e.status.Code()
    ensures dto.createdAt == e.createdAt && dto.updatedAt == e.updatedAt
  {
    AiDetectionResponseDTO(e.id, e.textContent, e.lang, e.isAiGenerated, e.aiProbability, e.confidenceScore,
                           e.classification.Name(), e.analysisDate, e.status.Code(), e.createdAt, e.updatedAt)
  }

  /** The conversion loses nothing: two records with the same response are the same record. */
  lemma ToResponseDTOInjective(a: AiDetection, b: AiDetection)
    requires ToResponseDTO(a) == ToResponseDTO(b)
    ensures a == b
  {
    assert a.classification.Name() == b.classification.Name();
    assert a.status.Code() == b.status.Code();
  }

  /** The precondition of `analyzeTextDirectly`: null or whitespace-only text is refused. */
  function TextError(text: Option<string>): (r: Option<Exception>)
    ensures r.Some? <==> text.None? || forall i :: 0 <= i < |text.value| ==> text.value[i] <= ' '
    ensures r.Some? ==> r.value == IllegalArgument(EmptyTextMessage)
  {
    if text.None? then Some(IllegalArgument(EmptyTextMessage))
    else
      Text.BlankIffAllControlOrSpace(text.value);
      if Text.IsBlank(text.value) then Some(IllegalArgument(EmptyTextMessage)) else None
  }

  /** `delete`'s write: status Inactive, nothing else but the update time. */
  function SoftDeleted(e: AiDetection, now: Timestamp): AiDetection {
    e.(status := Inactive, updatedAt := now)
  }

  /** `restore`'s write: status Active, nothing else but the update time. */
  function Restored(e: AiDetection, now: Timestamp): AiDetection {
    e.(status := Active, updatedAt := now)
  }

  /** Restoring a deleted record gives it back as it was, apart from the update time. */
  lemma RestoreUndoesDelete(e: AiDetection, t1: Timestamp, t2: Timestamp)
    requires e.status == Active
    ensures Restored(SoftDeleted(e, t1), t2) == e.(updatedAt := t2)
  {
  }

  /** The repository: the analyses by id, and the next id the database will assign. */
  class AiDetectionService {
    var records: map<int, AiDetection>
    var nextId: int

    /** Every record is filed under its own id, below the next id, and agrees with its answer. */
    ghost predicate Valid()
      reads this
    {
      1 <= nextId
      && forall id :: id in records ==> records[id].id == id && id < nextId && Consistent(records[id])
    }

    constructor ()
      ensures Valid() && records == map[]
    {
      records := map[];
      nextId := 1;
    }

    /** `findByIdAndStatus(id, status)` */
    predicate Has(id: int, status: Status)
      reads this
    {
      id in records && records[id].status == status
    }

    /** `findAll`: the Active records, keyed by id. */
    function FindAll(): (r: map<int, AiDetectionResponseDTO>)
      reads this
      ensures forall id :: id in r <==> Has(id, Active)
      ensures forall id :: id in r ==> id in records && r[id] == ToResponseDTO(records[id]) && r[id].status == "A"
    {
      map id | id in records && records[id].status == Active :: ToResponseDTO(records[id])
    }

    /** `findById`: an Active record, or not-found for an absent or Inactive one. */
    function FindById(id: int): (r: Result<AiDetectionResponseDTO, Exception>)
      reads this
      ensures r.Success? <==> Has(id, Active)
      ensures r.Success? ==> r.value == ToResponseDTO(records[id]) && r.value.status == "A"
      ensures r.Failure? ==> r.error == ResourceNotFound(NotFoundMessage(id))
    {
      if Has(id, Active) then Success(ToResponseDTO(records[id])) else Failure(ResourceNotFound(NotFoundMessage(id)))
    }

    /** `repository.save` of a new entity: the database assigns the next id. */
    method Insert(e: AiDetection) returns (saved: AiDetection)
      requires Valid() && Consistent(e)
      modifies this
      ensures Valid()
      ensures saved == e.(id := old(nextId)) && old(nextId) !in old(records)
      ensures records == old(records)[old(nextId) := saved] && nextId == old(nextId) + 1
    {
      saved := e.(id := nextId);
      records := records[nextId := saved];
      nextId := nextId + 1;
    }

    /** `create`: analyse the text and store a new Active record, whatever the client answered. */
    method Create(request: AiDetectionRequestDTO, upstream: HttpOutcome<RapidApiClient.RapidApiResponse>, now: Timestamp)
      returns (dto: AiDetectionResponseDTO)
      requires Valid()
      modifies this
      ensures Valid() && nextId == old(nextId) + 1
      ensures records == old(records)[old(nextId) :=
                Analysis(old(nextId), request.textContent, request.lang.GetOr(DefaultLang),
                         RapidApiClient.DetectAiContent(upstream), now)]
      ensures dto == ToResponseDTO(records[old(nextId)]) && FindById(dto.id) == Success(dto)
    {
      var lang := if request.lang.Some? then request.lang.value else DefaultLang;
      var api := RapidApiClient.DetectAiContent(upstream);
      var saved := Insert(Analysis(0, request.textContent, lang, api, now));
      dto := ToResponseDTO(saved);
    }

    /** `update`: re-analyse an Active record in place. */
    method Update(id: int, request: AiDetectionRequestDTO, upstream: HttpOutcome<RapidApiClient.RapidApiResponse>, now: Timestamp)
      returns (r: Result<AiDetectionResponseDTO, Exception>)
      requires Valid()
      modifies this
      ensures Valid() && nextId == old(nextId)
      ensures !old(Has(id, Active)) ==> r == Failure(ResourceNotFound(NotFoundMessage(id))) && records == old(records)
      ensures old(Has(id, Active)) ==>
                records == old(records)[id := Reanalysis(old(records)[id], request, RapidApiClient.DetectAiContent(upstream), now)]
                && r == Success(ToResponseDTO(records[id]))
    {
      if !Has(id, Active) {
        return Failure(ResourceNotFound(NotFoundMessage(id)));
      }
      var existing := records[id];
      var api := RapidApiClient.DetectAiContent(upstream);
      existing := Reanalysis(existing, request, api, now);
      records := records[id := existing];
      r := Success(ToResponseDTO(existing));
    }

    /** `delete`: an Active record becomes Inactive. */
    method Delete(id: int, now: Timestamp) returns (r: Result<(), Exception>)
      requires Valid()
      modifies this
      ensures Valid() && nextId == old(nextId)
      ensures !old(Has(id, Active)) ==> r == Failure(ResourceNotFound(NotFoundMessage(id))) && records == old(records)
      ensures old(Has(id, Active)) ==>
                r == Success(()) && records == old(records)[id := SoftDeleted(old(records)[id], now)]
                && FindById(id).Failure? && id !in FindAll()
    {
      if !Has(id, Active) {
        return Failure(ResourceNotFound(NotFoundMessage(id)));
      }
      records := records[id := SoftDeleted(records[id], now)];
      r := Success(());
    }

    /** `restore`: an Inactive record becomes Active again. */
    method Restore(id: int, now: Timestamp) returns (r: Result<AiDetectionResponseDTO, Exception>)
      requires Valid()
      modifies this
      ensures Valid() && nextId == old(nextId)
      ensures !old(Has(id, Inactive)) ==> r == Failure(ResourceNotFound(DeletedNotFoundMessage(id))) && records == old(records)
      ensures old(Has(id, Inactive)) ==>
                records == old(records)[id := Restored(old(records)[id], now)]
                && r == Success(ToResponseDTO(records[id])) && FindById(id) == r
    {
      if !Has(id, Inactive) {
        return Failure(ResourceNotFound(DeletedNotFoundMessage(id)));
      }
      var entity := Restored(records[id], now);
      records := records[id := entity];
      r := Success(ToResponseDTO(entity));
    }

    /** `analyzeTextDirectly`: refuse blank text before calling the client, otherwise store a new
        Active record in language "en". */
    method AnalyzeTextDirectly(text: Option<string>, upstream: HttpOutcome<RapidApiClient.RapidApiResponse>, now: Timestamp)
      returns (r: Result<AiDetectionResponseDTO, Exception>)
      requires Valid()
      modifies this
      ensures Valid()
      ensures TextError(text).Some? ==>
                r == Failure(TextError(text).value) && records == old(records) && nextId == old(nextId)
      ensures TextError(text).None? ==>
                nextId == old(nextId) + 1
                && records == old(records)[old(nextId) :=
                     Analysis(old(nextId), text.value, DefaultLang, RapidApiClient.DetectAiContent(upstream), now)]
                && r == Success(ToResponseDTO(records[old(nextId)]))
    {
      var error := TextError(text);
      if error.Some? {
        return Failure(error.value);
      }
      var api := RapidApiClient.DetectAiContent(upstream);
      var saved := Insert(Analysis(0, text.value, DefaultLang, api, now));
      r := Success(ToResponseDTO(saved));
    }
  }
}
