/**
 * The queue worker: it projects one raw record onto the canonical schema,
 * upserts it keyed by `ocmId`, and classifies what the store reports as
 * `created`, `updated` or `no_change`. Store errors are re-thrown unchanged.
 */
module Jobs {
  import opened Wrappers
  import opened Schemas
  import opened OcmRecord
  import opened PoiStore
  import opened JobQueue

  datatype ProcessStatus = Created | Updated | NoChange

  /** What `handleImport` returns. */
  datatype ProcessOutcome = ProcessOutcome(status: ProcessStatus, ocmId: int)

  /** `x?.Title`: absent when the object or its title is. */
  function TitleOf(x: Option<Titled>): (r: Option<string>)
    ensures r.Some? <==> x.Some? && x.value.Title.Some?
    ensures r.Some? ==> r.value == x.value.Title.value
  {
    match x
    case None => None
    case Some(t) => t.Title
  }

  /** The address subdocument: each field is the matching `AddressInfo`
      field, `country` is `AddressInfo.Country.Title`. */
  function ToPoiAddress(a: Option<RawAddressInfo>): (r: PoiAddress)
    ensures a.None? ==> r == NoAddress
    ensures a.Some? ==>
              && r.title == a.value.Title
              && r.addressLine1 == a.value.AddressLine1
              && r.town == a.value.Town
              && r.stateOrProvince == a.value.StateOrProvince
              && r.postcode == a.value.Postcode
              && r.country == TitleOf(a.value.Country)
              && r.latitude == a.value.Latitude
              && r.longitude == a.value.Longitude
  {
    match a
    case None => NoAddress
    case Some(info) =>
      PoiAddress(info.Title, info.AddressLine1, info.Town, info.StateOrProvince,
                 info.Postcode, TitleOf(info.Country), info.Latitude, info.Longitude)
  }

  function ToPoiConnection(c: RawConnection): (r: PoiConnection)
    ensures r.connectionType == TitleOf(c.ConnectionType)
    ensures r.powerKW == c.PowerKW
    ensures r.currentType == TitleOf(c.CurrentType)
    ensures r.quantity == c.Quantity
  {
    PoiConnection(TitleOf(c.ConnectionType), c.PowerKW, TitleOf(c.CurrentType), c.Quantity)
  }

  /** `cs.map(...)`: same length, same order, each element mapped. */
  function ToPoiConnections(cs: seq<RawConnection>): (r: seq<PoiConnection>)
    ensures |r| == |cs|
    ensures forall i :: 0 <= i < |cs| ==> r[i] == ToPoiConnection(cs[i])
  {
    if cs == [] then [] else [ToPoiConnection(cs[0])] + ToPoiConnections(cs[1..])
  }

  /** The projection of a raw record onto the canonical fields. It is total:
      every missing object or field becomes absent, missing connections
      become the empty list. */
  function ToPoiUpdate(raw: RawPoi): (u: PoiUpdate)
    ensures u.ocmId == raw.ID
    ensures u.status == TitleOf(raw.StatusType)
    ensures u.dateLastStatusUpdate == raw.DateLastStatusUpdate
    ensures u.address == ToPoiAddress(raw.AddressInfo)
    ensures raw.Connections.None? ==> u.connections == []
    ensures raw.Connections.Some? ==>
              && |u.connections| == |raw.Connections.value|
              && forall i :: 0 <= i < |u.connections| ==>
                   u.connections[i] == ToPoiConnection(raw.Connections.value[i])
  {
    var connections := match raw.Connections
      case None => []
      case Some(cs) => ToPoiConnections(cs);
    PoiUpdate(raw.ID, TitleOf(raw.StatusType), raw.DateLastStatusUpdate,
              ToPoiAddress(raw.AddressInfo), connections)
  }

  /** Exactly one status: an insert wins over a modification. */
  function Classify(result: UpdateResult): (s: ProcessStatus)
    ensures s == Created <==> result.upsertedCount > 0
    ensures s == Updated <==> result.upsertedCount == 0 && result.modifiedCount > 0
    ensures s == NoChange <==> result.upsertedCount == 0 && result.modifiedCount == 0
  {
    if result.upsertedCount > 0 then Created
    else if result.modifiedCount > 0 then Updated
    else NoChange
  }

  /** The collection after one job, and what the job returns. */
  datatype Processed = Processed(docs: map<int, Poi>, outcome: ProcessOutcome)

  /**
   * One job against a collection: project, upsert, classify. The status
   * tells exactly what happened to the record keyed by the raw `ID`.
   */
  function Process(docs: map<int, Poi>, raw: RawPoi, freshId: string, fault: Option<StoreError>)
    : (r: Result<Processed, StoreError>)
    ensures raw.ID.None? && fault.None? ==> r == Err(ValidationError("ocmId"))
    ensures r.Err? ==> Upsert(docs, ToPoiUpdate(raw), freshId, fault) == Err(r.error)
    ensures r.Ok? ==>
              && raw.ID.Some?
              && var k := raw.ID.value;
              && r.value.outcome.ocmId == k
              && k in r.value.docs
              && r.value.docs == docs[k := r.value.docs[k]]
              && Carries(r.value.docs[k], ToPoiUpdate(raw))
              && (r.value.outcome.status == Created <==> k !in docs)
              && (r.value.outcome.status == Updated <==> k in docs && docs[k] != r.value.docs[k])
              && (r.value.outcome.status == NoChange <==> k in docs && docs[k] == r.value.docs[k])
  {
    match Upsert(docs, ToPoiUpdate(raw), freshId, fault)
    case Err(e) => Err(e)
    case Ok(w) =>
      var k := raw.ID.value;
      assert w.docs == docs[k := w.docs[k]];
      Ok(Processed(w.docs, ProcessOutcome(Classify(w.result), k)))
  }

  /**
   * Idempotence: a job that succeeded, delivered again (the queue delivers
   * at least once), reports `no_change` and leaves the collection as it was.
   */
  lemma ProcessAgainIsNoChange(docs: map<int, Poi>, raw: RawPoi, freshId: string, freshId': string)
    requires Process(docs, raw, freshId, None).Ok?
    ensures var p := Process(docs, raw, freshId, None).value;
            Process(p.docs, raw, freshId', None) == Ok(Processed(p.docs, ProcessOutcome(NoChange, p.outcome.ocmId)))
  {
    UpsertIdempotent(docs, ToPoiUpdate(raw), freshId, freshId');
  }

  /** The first delivery of a record whose `ID` is new creates it; a second
      delivery reports no change. */
  lemma CreatedThenNoChange(docs: map<int, Poi>, raw: RawPoi, freshId: string, freshId': string)
    requires raw.ID.Some? && raw.ID.value !in docs && freshId !in Ids(docs)
    ensures Process(docs, raw, freshId, None).Ok?
    ensures var p := Process(docs, raw, freshId, None).value;
            && p.outcome == ProcessOutcome(Created, raw.ID.value)
            && p.docs[raw.ID.value].id == freshId
            && Process(p.docs, raw, freshId', None).value.outcome.status == NoChange
  {
    ProcessAgainIsNoChange(docs, raw, freshId, freshId');
  }

  /** The record of the worker's unit test: a fully populated station. */
  const SampleStation := RawPoi(
    Some(12345),
    Some(Titled(Some("Operational"))),
    Some("2025-01-01T00:00:00Z"),
    Some(RawAddressInfo(Some("Test Station"), Some("1 Test Street"), Some("Testville"),
                        Some("Testland"), Some("12345"), Some(Titled(Some("Test Country"))),
                        Some(50.0), Some(10.0))),
    Some([RawConnection(Some(Titled(Some("Type 2"))), Some(22.0),
                        Some(Titled(Some("AC (3-Phase)"))), Some(2.0))]))

  /** Against an empty collection the sample station is created under its
      `ID`, with every field projected. */
  lemma SampleStationIsCreated(freshId: string)
    ensures Process(map[], SampleStation, freshId, None) ==
              Ok(Processed(
                map[12345 := Poi(freshId, 12345, Some("Operational"), Some("2025-01-01T00:00:00Z"),
                                 PoiAddress(Some("Test Station"), Some("1 Test Street"), Some("Testville"),
                                            Some("Testland"), Some("12345"), Some("Test Country"),
                                            Some(50.0), Some(10.0)),
                                 [PoiConnection(Some("Type 2"), Some(22.0), Some("AC (3-Phase)"), Some(2.0))])],
                ProcessOutcome(Created, 12345)))
  {
    assert ToPoiUpdate(SampleStation).connections ==
             [PoiConnection(Some("Type 2"), Some(22.0), Some("AC (3-Phase)"), Some(2.0))];
  }

  /** A record with only an `ID` and an address title, and null connections:
      every other field is absent, the connections list is empty. */
  lemma PartialRecordIsTolerated(docs: map<int, Poi>, freshId: string)
    requires 54321 !in docs && freshId !in Ids(docs)
    ensures var raw := RawPoi(Some(54321), None, None,
                              Some(RawAddressInfo(Some("Partial Station"), None, None, None, None, None, None, None)),
                              None);
            Process(docs, raw, freshId, None) ==
              Ok(Processed(docs[54321 := Poi(freshId, 54321, None, None,
                                             NoAddress.(title := Some("Partial Station")), [])],
                           ProcessOutcome(Created, 54321)))
  {
  }

  /** The worker; `poiModel` is the injected collection. */
  class ImporterProcessor {
    const poiModel: PoiModel

    constructor (poiModel: PoiModel)
      ensures this.poiModel == poiModel
    {
      this.poiModel := poiModel;
    }

    /** `handleImport(job)`: `freshId` is the `_id` the schema default would
        generate, `fault` a store failure the environment injects. */
    method HandleImport(job: Job, freshId: string, fault: Option<StoreError>)
      returns (r: Result<ProcessOutcome, StoreError>)
      requires poiModel.Valid()
      modifies poiModel
      ensures poiModel.Valid()
      ensures match Process(old(poiModel.docs), job.data, freshId, fault)
              case Ok(p) => r == Ok(p.outcome) && poiModel.docs == p.docs
              case Err(e) => r == Err(e) && poiModel.docs == old(poiModel.docs)
    {
      var poiData := job.data;
      var ocmId := poiData.ID;
      var poiToUpdate := ToPoiUpdate(poiData);
      var result := poiModel.UpdateOne(poiToUpdate, freshId, fault);
      match result {
        case Err(e) =>
          // logged, then re-thrown for the queue's retry policy
          r := Err(e);
        case Ok(counts) =>
          r := Ok(ProcessOutcome(Classify(counts), ocmId.value));
      }
    }
  }
}
