/** The stored APOD records and their service (`Ai_detection` `NasaApodService`): the same
    soft-delete store as the detections, plus the two fetch operations that upsert by date. */
module Apods {
  import opened Wrappers
  import opened Errors
  import opened Lifecycle
  import opened Dates
  import NasaApiClient
  import Text

  /** The `nasa_apod` row. */
  datatype NasaApod = NasaApod(
    id: int,
    requestedDate: string,
    title: Option<string>,
    explanation: Option<string>,
    url: Option<string>,
    hdurl: Option<string>,
    mediaType: Option<string>,
    apodDate: LocalDate,
    copyright: Option<string>,
    serviceVersion: Option<string>,
    queryStatus: string,
    status: Status,
    createdAt: Timestamp,
    updatedAt: Timestamp)

  /** The body returned to clients. */
  datatype NasaApodResponseDTO = NasaApodResponseDTO(
    id: int,
    requestedDate: string,
    title: Option<string>,
    explanation: Option<string>,
    url: Option<string>,
    hdurl: Option<string>,
    mediaType: Option<string>,
    apodDate: LocalDate,
    copyright: Option<string>,
    serviceVersion: Option<string>,
    queryStatus: string,
    status: string,
    createdAt: Timestamp,
    updatedAt: Timestamp)

  /** The body clients send to `create` and `update`. */
  datatype NasaApodRequestDTO = NasaApodRequestDTO(date: Option<LocalDate>)

  type Payload = NasaApiClient.NasaApiResponse

  const SuccessStatus := "SUCCESS"
  const InvalidDateFormatMessage := "Formato de fecha inválido. Use YYYY-MM-DD"
  /** The message of the data-access error raised when a single-row query matches several rows. */
  const NonUniqueResultMessage := "Query returned non unique result."

  function NotFoundMessage(id: int): string {
    "Registro APOD no encontrado con ID: " + Text.IntToString(id)
  }

  function DeletedNotFoundMessage(id: int): string {
    "Registro APOD eliminado no encontrado con ID: " + Text.IntToString(id)
  }

  /** `LocalDate.parse(payload.getDate())`: a null date or an unparsable one throws. */
  function PayloadDate(date: Option<string>): (r: Result<LocalDate, Exception>)
    ensures r.Success? <==> date.Some? && Parse(date.value).Some?
    ensures r.Success? ==> Format(r.value) == date.value
    ensures r.Failure? ==> r.error.Runtime?
  {
    if date.None? then Failure(Runtime("text"))
    else match Parse(date.value)
      case None => Failure(Runtime("Text '" + date.value + "' could not be parsed"))
      case Some(d) => FormatParse(date.value); Success(d)
  }

  /** The parse at the head of `fetchApodFromApiByDate`: any failure, a null string included,
      becomes the one format message. */
  function RequestDate(dateStr: Option<string>): (r: Result<LocalDate, Exception>)
    ensures r.Success? <==> dateStr.Some? && Parse(dateStr.value).Some?
    ensures r.Success? ==> Format(r.value) == dateStr.value
    ensures r.Failure? ==> r.error == IllegalArgument(InvalidDateFormatMessage)
  {
    if dateStr.None? then Failure(IllegalArgument(InvalidDateFormatMessage))
    else match Parse(dateStr.value)
      case None => Failure(IllegalArgument(InvalidDateFormatMessage))
      case Some(d) => FormatParse(dateStr.value); Success(d)
  }

  /** The seven columns every write copies from the feed's answer. */
  predicate CarriesPayload(e: NasaApod, p: Payload) {
    e.title == p.title && e.explanation == p.explanation && e.url == p.url && e.hdurl == p.hdurl
    && e.mediaType == p.mediaType && e.copyright == p.copyright && e.serviceVersion == p.serviceVersion
  }

  /** The record `create` and both fetch operations insert. */
  function NewApod(id: int, requested: string, p: Payload, apodDate: LocalDate, now: Timestamp): (e: NasaApod)
    ensures CarriesPayload(e, p) && e.id == id && e.requestedDate == requested && e.apodDate == apodDate
    ensures e.queryStatus == SuccessStatus && e.status == Active && e.createdAt == e.updatedAt == now
  {
    NasaApod(id, requested, p.title, p.explanation, p.url, p.hdurl, p.mediaType, apodDate,
             p.copyright, p.serviceVersion, SuccessStatus, Active, now, now)
  }

  /** The in-place write of the fetch operations: the answer's columns, the requested date, the
      query status and the update time change; id, APOD date, status and creation time do not. */
  function Refreshed(e: NasaApod, requested: string, p: Payload, now: Timestamp): (e': NasaApod)
    ensures CarriesPayload(e', p) && e'.requestedDate == requested
    ensures e'.queryStatus == SuccessStatus && e'.updatedAt == now
    ensures e'.id == e.id && e'.apodDate == e.apodDate && e'.status == e.status && e'.createdAt == e.createdAt
  {
    e.(requestedDate := requested, title := p.title, explanation := p.explanation, url := p.url,
       hdurl := p.hdurl, mediaType := p.mediaType, copyright := p.copyright,
       serviceVersion := p.serviceVersion, queryStatus := SuccessStatus, updatedAt := now)
  }

  /** `update`'s write: the fetch write, and the APOD date read from the answer as well. */
  function Revised(e: NasaApod, requested: string, p: Payload, apodDate: LocalDate, now: Timestamp): (e': NasaApod)
    ensures CarriesPayload(e', p) && e'.requestedDate == requested && e'.apodDate == apodDate
    ensures e'.queryStatus == SuccessStatus && e'.updatedAt == now
    ensures e'.id == e.id && e'.status == e.status && e'.createdAt == e.createdAt
  {
    Refreshed(e, requested, p, now).(apodDate := apodDate)
  }

  function SoftDeleted(e: NasaApod, now: Timestamp): NasaApod {
    e.(status := Inactive, updatedAt := now)
  }

  function Restored(e: NasaApod, now: Timestamp): NasaApod {
    e.(status := Active, updatedAt := now)
  }

  /** Deleting and then restoring a record changes nothing but its update time. */
  lemma RestoreUndoesDelete(e: NasaApod, t1: Timestamp, t2: Timestamp)
    requires e.status == Active
    ensures Restored(SoftDeleted(e, t1), t2) == e.(updatedAt := t2)
  {
  }

  /** `toResponseDTO`: every column, with the status as its stored code. */
  function ToResponseDTO(e: NasaApod): (dto: NasaApodResponseDTO)
    ensures dto.id == e.id && dto.requestedDate == e.requestedDate && dto.apodDate == e.apodDate
    ensures dto.title == e.title && dto.explanation == e.explanation && dto.url == e.url && dto.hdurl == e.hdurl
    ensures dto.mediaType == e.mediaType && dto.copyright == e.copyright && dto.serviceVersion == e.serviceVersion
    ensures dto.queryStatus == e.queryStatus && dto.status == e.status.Code()
    ensures dto.createdAt == e.createdAt && dto.updatedAt == e.updatedAt
  {
    NasaApodResponseDTO(e.id, e.requestedDate, e.title, e.explanation, e.url, e.hdurl, e.mediaType,
                        e.apodDate, e.copyright, e.serviceVersion, e.queryStatus, e.status.Code(),
                        e.createdAt, e.updatedAt)
  }

  /** The conversion loses nothing. */
  lemma ToResponseDTOInjective(a: NasaApod, b: NasaApod)
    requires ToResponseDTO(a) == ToResponseDTO(b)
    ensures a == b
  {
    assert a.status.Code() == b.status.Code();
  }

  /** Every record is filed under its own id. */
  predicate KeyedById(records: map<int, NasaApod>) {
    forall id :: id in records ==> records[id].id == id
  }

  /** `findByApodDateAndStatus(date, "A")`: the Active records for a date. */
  function ActiveOn(records: map<int, NasaApod>, date: Date): (hits: set<NasaApod>)
    requires KeyedById(records)
    ensures forall e :: e in hits <==>
              e.id in records && records[e.id] == e && e.status == Active && e.apodDate == date
  {
    set id | id in records && records[id].status == Active && records[id].apodDate == date :: records[id]
  }

  /** At most one Active record per APOD date. */
  predicate UniqueActiveDates(records: map<int, NasaApod>) {
    forall i, j :: i in records && j in records && i != j && records[i].status == Active && records[j].status == Active
      ==> records[i].apodDate != records[j].apodDate
  }

  /** The single member of a one-element set. */
  lemma SingletonMember<T>(s: set<T>, a: T, b: T)
    requires |s| == 1 && a in s && b in s
    ensures a == b
  {
    assert |s - {a}| == 0;
    assert b !in s - {a};
  }

  /** Under the uniqueness invariant a date has at most one Active record. */
  lemma UniqueMeansAtMostOne(records: map<int, NasaApod>, date: Date)
    requires KeyedById(records) && UniqueActiveDates(records)
    ensures |ActiveOn(records, date)| <= 1
  {
    var hits := ActiveOn(records, date);
    if hits != {} {
      var a :| a in hits;
      assert hits == {a};
    }
  }

  /** What a store write leaves behind: the rows, the next id, and the row written. */
  datatype Saved = Saved(records: map<int, NasaApod>, nextId: int, entity: NasaApod)

  /** The upsert both fetch operations perform: look up the Active record for `key`; update it
      in place when there is one, insert a new Active record when there is none, and fail as the
      single-row query does when there are several. */
  ghost function Upserted(records: map<int, NasaApod>, nextId: int, key: LocalDate, requested: string, p: Payload, now: Timestamp)
    : (r: Result<Saved, Exception>)
    requires KeyedById(records)
    ensures r.Failure? <==> |ActiveOn(records, key)| > 1
    ensures r.Failure? ==> r.error == Runtime(NonUniqueResultMessage)
    ensures r.Success? ==>
              var e := r.value.entity;
              CarriesPayload(e, p) && e.requestedDate == requested && e.queryStatus == SuccessStatus
              && e.apodDate == key && e.status == Active && e.updatedAt == now
              && r.value.records == records[e.id := e]
    ensures ActiveOn(records, key) == {} ==>
              r.Success? && r.value.entity.id == nextId && r.value.nextId == nextId + 1 && r.value.entity.createdAt == now
    ensures |ActiveOn(records, key)| == 1 ==>
              r.Success? && r.value.nextId == nextId && r.value.entity.id in records
              && ActiveOn(records, key) == {records[r.value.entity.id]}
              && r.value.entity == Refreshed(records[r.value.entity.id], requested, p, now)
  {
    var hits := ActiveOn(records, key);
    if |hits| > 1 then Failure(Runtime(NonUniqueResultMessage))
    else if hits == {} then
      var e := NewApod(nextId, requested, p, key, now);
      Success(Saved(records[nextId := e], nextId + 1, e))
    else
      var existing :| existing in hits;
      assert hits == {existing} by {
        forall other | other in hits ensures other == existing { SingletonMember(hits, other, existing); }
      }
      var e := Refreshed(existing, requested, p, now);
      Success(Saved(records[existing.id := e], nextId, e))
  }

  /** The upsert keeps at most one Active record per date and leaves exactly one for its key. */
  lemma UpsertKeepsUniqueActiveDates(records: map<int, NasaApod>, nextId: int, key: LocalDate, requested: string, p: Payload, now: Timestamp)
    requires KeyedById(records) && UniqueActiveDates(records) && nextId !in records
    ensures var r := Upserted(records, nextId, key, requested, p, now);
            r.Success? && KeyedById(r.value.records) && UniqueActiveDates(r.value.records)
            && ActiveOn(r.value.records, key) == {r.value.entity}
  {
    UniqueMeansAtMostOne(records, key);
    var before := ActiveOn(records, key);
    var r := Upserted(records, nextId, key, requested, p, now);
    var after := r.value.records;
    var e := r.value.entity;
    forall i, j | i in after && j in after && i != j && after[i].status == Active && after[j].status == Active
      ensures after[i].apodDate != after[j].apodDate
    {
      if i == e.id || j == e.id {
        var other := if i == e.id then j else i;
        assert other in records && records[other].id != e.id;
        assert records[other] !in before;
      }
    }
    forall x | x in ActiveOn(after, key) ensures x == e {
      assert x.id != e.id ==> x in before;
    }
  }

  /** Fetching the same date twice updates the record the first fetch wrote: no second record
      appears and the next id does not move. */
  lemma UpsertTwiceReusesRecord(records: map<int, NasaApod>, nextId: int, key: LocalDate,
                                req1: string, p1: Payload, t1: Timestamp, req2: string, p2: Payload, t2: Timestamp)
    requires KeyedById(records) && UniqueActiveDates(records) && forall id :: id in records ==> id < nextId
    ensures var first := Upserted(records, nextId, key, req1, p1, t1);
            first.Success? &&
            var second := Upserted(first.value.records, first.value.nextId, key, req2, p2, t2);
            second.Success? && second.value.entity.id == first.value.entity.id
            && second.value.nextId == first.value.nextId && second.value.records.Keys == first.value.records.Keys
  {
    UpsertKeepsUniqueActiveDates(records, nextId, key, req1, p1, t1);
    var first := Upserted(records, nextId, key, req1, p1, t1).value;
    assert |ActiveOn(first.records, key)| == 1;
  }

  /** `create` inserts without a lookup, so it adds a second Active record for a date that
      already has one. */
  lemma CreateCanBreakUniqueness(records: map<int, NasaApod>, n: int, requested: string, p: Payload, date: LocalDate, now: Timestamp)
    requires KeyedById(records) && n !in records && ActiveOn(records, date) != {}
    ensures !UniqueActiveDates(records[n := NewApod(n, requested, p, date, now)])
  {
    var other :| other in ActiveOn(records, date);
    var after := records[n := NewApod(n, requested, p, date, now)];
    assert other.id in after && other.id != n && after[other.id].apodDate == after[n].apodDate;
  }

  /** `update` rewrites the APOD date from the answer, so it can move a record onto a date that
      another Active record already holds. */
  lemma UpdateCanBreakUniqueness(records: map<int, NasaApod>, id: int, other: int, requested: string, p: Payload, now: Timestamp)
    requires id in records && other in records && id != other
    requires records[id].status == Active && records[other].status == Active
    ensures !UniqueActiveDates(records[id := Revised(records[id], requested, p, records[other].apodDate, now)])
  {
    var after := records[id := Revised(records[id], requested, p, records[other].apodDate, now)];
    assert after[id].apodDate == after[other].apodDate;
  }

  /** `restore` does not look at dates either: reviving a record whose date has since been
      fetched again gives two Active records for it. */
  lemma RestoreCanBreakUniqueness(records: map<int, NasaApod>, id: int, other: int, now: Timestamp)
    requires id in records && other in records && id != other
    requires records[id].status == Inactive && records[other].status == Active
    requires records[id].apodDate == records[other].apodDate
    ensures !UniqueActiveDates(records[id := Restored(records[id], now)])
  {
    var after := records[id := Restored(records[id], now)];
    assert after[id].apodDate == after[other].apodDate;
  }

  /** The repository: the APOD records by id, and the next id the database will assign. */
  class NasaApodService {
    var records: map<int, NasaApod>
    var nextId: int

    ghost predicate Valid()
      reads this
    {
      1 <= nextId && KeyedById(records) && forall id :: id in records ==> id < nextId
    }

    constructor ()
      ensures Valid() && records == map[]
    {
      records := map[];
      nextId := 1;
    }

    /** `findByIdAndStatus(id, status)` */
    predicate Has(id: int, status: Status)
      reads this
    {
      id in records && records[id].status == status
    }

    /** `findAll`: the Active records, keyed by id. */
    function FindAll(): (r: map<int, NasaApodResponseDTO>)
      reads this
      ensures forall id :: id in r <==> Has(id, Active)
      ensures forall id :: id in r ==> id in records && r[id] == ToResponseDTO(records[id]) && r[id].status == "A"
    {
      map id | id in records && records[id].status == Active :: ToResponseDTO(records[id])
    }

    /** `findById`: an Active record, or not-found for an absent or Inactive one. */
    function FindById(id: int): (r: Result<NasaApodResponseDTO, Exception>)
      reads this
      ensures r.Success? <==> Has(id, Active)
      ensures r.Success? ==> r.value == ToResponseDTO(records[id]) && r.value.status == "A"
      ensures r.Failure? ==> r.error == ResourceNotFound(NotFoundMessage(id))
    {
      if Has(id, Active) then Success(ToResponseDTO(records[id])) else Failure(ResourceNotFound(NotFoundMessage(id)))
    }

    /** `findByApodDateAndStatus(date, "A")` as a single-row query: nothing, the one match, or
        an error when several rows match. */
    method FindByApodDate(date: LocalDate) returns (r: Result<Option<NasaApod>, Exception>)
      requires Valid()
      ensures r.Failure? <==> |ActiveOn(records, date)| > 1
      ensures r.Failure? ==> r.error == Runtime(NonUniqueResultMessage)
      ensures r == Success(None) <==> ActiveOn(records, date) == {}
      ensures r.Success? && r.value.Some? ==>
                ActiveOn(records, date) == {r.value.value}
    {
      var hits := set id | id in records && records[id].status == Active && records[id].apodDate == date :: records[id];
      assert hits == ActiveOn(records, date);
      if |hits| > 1 {
        return Failure(Runtime(NonUniqueResultMessage));
      }
      if hits == {} {
        return Success(None);
      }
      var existing :| existing in hits;
      assert hits == {existing} by {
        forall other | other in hits ensures other == existing { SingletonMember(hits, other, existing); }
      }
      r := Success(Some(existing));
    }

    /** `repository.save` of a new entity: the database assigns the next id. */
    method Insert(e: NasaApod) returns (saved: NasaApod)
      requires Valid()
      modifies this
      ensures Valid()
      ensures saved == e.(id := old(nextId)) && old(nextId) !in old(records)
      ensures records == old(records)[old(nextId) := saved] && nextId == old(nextId) + 1
    {
      saved := e.(id := nextId);
      records := records[nextId := saved];
      nextId := nextId + 1;
    }

    /** `create`: fetch the date asked for (today when none) and insert a new Active record,
        without looking for one that already holds the date. */
    method Create(request: NasaApodRequestDTO, today: LocalDate, upstream: HttpOutcome<Payload>, now: Timestamp)
      returns (r: Result<NasaApodResponseDTO, Exception>)
      requires Valid()
      modifies this
      ensures Valid()
      ensures var date := request.date.GetOr(today);
              var api := NasaApiClient.GetApod(Some(date), today, upstream);
              if api.Failure? then
                r == Failure(api.error) && records == old(records) && nextId == old(nextId)
              else if PayloadDate(api.value.date).Failure? then
                r == Failure(PayloadDate(api.value.date).error) && records == old(records) && nextId == old(nextId)
              else
                nextId == old(nextId) + 1
                && records == old(records)[old(nextId) :=
                     NewApod(old(nextId), Format(date), api.value, PayloadDate(api.value.date).value, now)]
                && r == Success(ToResponseDTO(records[old(nextId)]))
    {
      var date := if request.date.Some? then request.date.value else today;
      var api := NasaApiClient.GetApod(Some(date), today, upstream);
      if api.Failure? {
        return Failure(api.error);
      }
      var apodDate := PayloadDate(api.value.date);
      if apodDate.Failure? {
        return Failure(apodDate.error);
      }
      var saved := Insert(NewApod(0, Format(date), api.value, apodDate.value, now));
      r := Success(ToResponseDTO(saved));
    }

    /** `update`: re-fetch an Active record (for the date asked for, or its own APOD date when
        none) and overwrite it in place, the APOD date included. */
    method Update(id: int, request: NasaApodRequestDTO, today: LocalDate, upstream: HttpOutcome<Payload>, now: Timestamp)
      returns (r: Result<NasaApodResponseDTO, Exception>)
      requires Valid()
      modifies this
      ensures Valid() && nextId == old(nextId)
      ensures !old(Has(id, Active)) ==> r == Failure(ResourceNotFound(NotFoundMessage(id))) && records == old(records)
      ensures old(Has(id, Active)) ==>
                var existing := old(records)[id];
                var date := request.date.GetOr(existing.apodDate);
                var api := NasaApiClient.GetApod(Some(date), today, upstream);
                if api.Failure? then
                  r == Failure(api.error) && records == old(records)
                else if PayloadDate(api.value.date).Failure? then
                  r == Failure(PayloadDate(api.value.date).error) && records == old(records)
                else
                  records == old(records)[id := Revised(existing, Format(date), api.value, PayloadDate(api.value.date).value, now)]
                  && r == Success(ToResponseDTO(records[id]))
    {
      if !Has(id, Active) {
        return Failure(ResourceNotFound(NotFoundMessage(id)));
      }
      var existing := records[id];
      var date := if request.date.Some? then request.date.value else existing.apodDate;
      var api := NasaApiClient.GetApod(Some(date), today, upstream);
      if api.Failure? {
        return Failure(api.error);
      }
      var apodDate := PayloadDate(api.value.date);
      if apodDate.Failure? {
        return Failure(apodDate.error);
      }
      existing := Revised(existing, Format(date), api.value, apodDate.value, now);
      records := records[id := existing];
      r := Success(ToResponseDTO(existing));
    }

    /** `delete`: an Active record becomes Inactive. */
    method Delete(id: int, now: Timestamp) returns (r: Result<(), Exception>)
      requires Valid()
      modifies this
      ensures Valid() && nextId == old(nextId)
      ensures !old(Has(id, Active)) ==> r == Failure(ResourceNotFound(NotFoundMessage(id))) && records == old(records)
      ensures old(Has(id, Active)) ==>
                r == Success(()) && records == old(records)[id := SoftDeleted(old(records)[id], now)]
                && FindById(id).Failure? && id !in FindAll()
      ensures old(UniqueActiveDates(records)) ==> UniqueActiveDates(records)
    {
      if !Has(id, Active) {
        return Failure(ResourceNotFound(NotFoundMessage(id)));
      }
      records := records[id := SoftDeleted(records[id], now)];
      r := Success(());
    }

    /** `restore`: an Inactive record becomes Active again, whatever else holds its date. */
    method Restore(id: int, now: Timestamp) returns (r: Result<NasaApodResponseDTO, Exception>)
      requires Valid()
      modifies this
      ensures Valid() && nextId == old(nextId)
      ensures !old(Has(id, Inactive)) ==> r == Failure(ResourceNotFound(DeletedNotFoundMessage(id))) && records == old(records)
      ensures old(Has(id, Inactive)) ==>
                records == old(records)[id := Restored(old(records)[id], now)]
                && r == Success(ToResponseDTO(records[id])) && FindById(id) == r
    {
      if !Has(id, Inactive) {
        return Failure(ResourceNotFound(DeletedNotFoundMessage(id)));
      }
      var entity := Restored(records[id], now);
      records := records[id := entity];
      r := Success(ToResponseDTO(entity));
    }

    /** The find-then-update-or-insert step shared by the two fetch operations. */
    method Upsert(key: LocalDate, requested: string, p: Payload, now: Timestamp)
      returns (r: Result<NasaApodResponseDTO, Exception>)
      requires Valid()
      modifies this
      ensures Valid()
      ensures var u := Upserted(old(records), old(nextId), key, requested, p, now);
              if u.Failure? then r == Failure(u.error) && records == old(records) && nextId == old(nextId)
              else records == u.value.records && nextId == u.value.nextId && r == Success(ToResponseDTO(u.value.entity))
      ensures old(UniqueActiveDates(records)) ==> UniqueActiveDates(records)
    {
      ghost var before, next := records, nextId;
      if UniqueActiveDates(records) {
        UpsertKeepsUniqueActiveDates(records, nextId, key, requested, p, now);
      }
      var found := FindByApodDate(key);
      if found.Failure? {
        return Failure(found.error);
      }
      if found.value.Some? {
        var existing := Refreshed(found.value.value, requested, p, now);
        records := records[existing.id := existing];
        return Success(ToResponseDTO(existing));
      }
      var saved := Insert(NewApod(0, requested, p, key, now));
      r := Success(ToResponseDTO(saved));
    }

    /** `fetchTodayApodFromApi`: fetch today's picture and upsert it under the date the answer
        carries. */
    method FetchTodayApodFromApi(today: LocalDate, upstream: HttpOutcome<Payload>, now: Timestamp)
      returns (r: Result<NasaApodResponseDTO, Exception>)
      requires Valid()
      modifies this
      ensures Valid()
      ensures var api := NasaApiClient.GetTodayApod(today, upstream);
              if api.Failure? then
                r == Failure(api.error) && records == old(records) && nextId == old(nextId)
              else if PayloadDate(api.value.date).Failure? then
                r == Failure(PayloadDate(api.value.date).error) && records == old(records) && nextId == old(nextId)
              else
                var key := PayloadDate(api.value.date).value;
                var u := Upserted(old(records), old(nextId), key, Format(key), api.value, now);
                if u.Failure? then r == Failure(u.error) && records == old(records) && nextId == old(nextId)
                else records == u.value.records && nextId == u.value.nextId && r == Success(ToResponseDTO(u.value.entity))
      ensures old(UniqueActiveDates(records)) ==> UniqueActiveDates(records)
      ensures r.Success? ==> r.value.requestedDate == Format(r.value.apodDate)
    {
      var api := NasaApiClient.GetTodayApod(today, upstream);
      if api.Failure? {
        return Failure(api.error);
      }
      var date := PayloadDate(api.value.date);
      if date.Failure? {
        return Failure(date.error);
      }
      r := Upsert(date.value, Format(date.value), api.value, now);
    }

    /** `fetchApodFromApiByDate`: parse the date, fetch it, and upsert it under the requested
        date, storing the string as submitted. */
    method FetchApodFromApiByDate(dateStr: Option<string>, today: LocalDate, upstream: HttpOutcome<Payload>, now: Timestamp)
      returns (r: Result<NasaApodResponseDTO, Exception>)
      requires Valid()
      modifies this
      ensures Valid()
      ensures RequestDate(dateStr).Failure? ==>
                r == Failure(IllegalArgument(InvalidDateFormatMessage)) && records == old(records) && nextId == old(nextId)
      ensures RequestDate(dateStr).Success? ==>
                var date := RequestDate(dateStr).value;
                var api := NasaApiClient.GetApod(Some(date), today, upstream);
                if api.Failure? then
                  r == Failure(api.error) && records == old(records) && nextId == old(nextId)
                else
                  var u := Upserted(old(records), old(nextId), date, dateStr.value, api.value, now);
                  if u.Failure? then r == Failure(u.error) && records == old(records) && nextId == old(nextId)
                  else records == u.value.records && nextId == u.value.nextId && r == Success(ToResponseDTO(u.value.entity))
      ensures old(UniqueActiveDates(records)) ==> UniqueActiveDates(records)
      ensures r.Success? ==> r.value.requestedDate == Format(r.value.apodDate)
    {
      var date := RequestDate(dateStr);
      if date.Failure? {
        return Failure(date.error);
      }
      var api := NasaApiClient.GetApod(Some(date.value), today, upstream);
      if api.Failure? {
        return Failure(api.error);
      }
      r := Upsert(date.value, dateStr.value, api.value, now);
    }
  }
}
