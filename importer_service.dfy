/**
 * The import orchestration: fetch the catalog's records for one country,
 * then submit one job per record, sequentially. A refused submission is
 * logged and skipped; the reported count is the number of records fetched.
 */
module Importer {
  import opened Wrappers
  import opened OcmRecord
  import opened JobQueue

  /** The body of the catalog's answer: an array of records, or anything else
      (missing, null, an object, a string). */
  datatype ResponseBody = ArrayBody(items: seq<RawPoi>) | NonArrayBody

  /** The HTTP exchange, supplied from outside: an answer, or a transport
      failure (timeout, connection error, error status). */
  datatype HttpResponse = Responded(data: ResponseBody) | TransportFailure(message: string)

  datatype ImportError = ImportError(message: string)

  datatype ImportStatus = Success | NoData

  /** What `importPoisByCountry` returns. */
  datatype ImportOutcome = ImportOutcome(status: ImportStatus, queued: nat)

  /** The options of every import job: three attempts, discarded on success. */
  const ImportJobOptions := JobOptions(3, true)

  function FetchFailureMessage(countryCode: string): string {
    "Failed to process country " + countryCode
  }

  /**
   * `fetchPoisByCountry`: an array body is returned as it is (possibly
   * empty), any other body gives the empty list, and a transport failure
   * becomes an error naming the country.
   */
  function FetchPoisByCountry(countryCode: string, response: HttpResponse)
    : (r: Result<seq<RawPoi>, ImportError>)
    ensures r.Err? <==> response.TransportFailure?
    ensures r.Err? ==> r.error.message == FetchFailureMessage(countryCode)
    ensures r.Ok? && response.data.ArrayBody? ==> r.value == response.data.items
    ensures r.Ok? && response.data.NonArrayBody? ==> r.value == []
  {
    match response
    case TransportFailure(_) => Err(ImportError(FetchFailureMessage(countryCode)))
    case Responded(ArrayBody(items)) => Ok(items)
    case Responded(NonArrayBody) => Ok([])
  }

  /** The broker refuses the submission at position `i` of the loop. */
  predicate RefusedAt(refusals: seq<bool>, i: nat) {
    i < |refusals| && refusals[i]
  }

  /** One import job per record, in order. */
  function JobsFor(pois: seq<RawPoi>): (r: seq<Job>)
    ensures |r| == |pois|
    ensures forall i :: 0 <= i < |pois| ==> r[i] == Job(pois[i], ImportJobOptions)
  {
    if pois == [] then []
    else JobsFor(pois[..|pois| - 1]) + [Job(pois[|pois| - 1], ImportJobOptions)]
  }

  /** The jobs the broker accepts: the records at positions it does not
      refuse, in order. */
  function Admitted(pois: seq<RawPoi>, refusals: seq<bool>): (r: seq<Job>)
    ensures |r| <= |pois|
    ensures forall j :: 0 <= j < |r| ==> r[j].opts == ImportJobOptions && r[j].data in pois
  {
    if pois == [] then []
    else
      var i := |pois| - 1;
      Admitted(pois[..i], refusals) + (if RefusedAt(refusals, i) then [] else [Job(pois[i], ImportJobOptions)])
  }

  /** The number of refused positions among the first `n`. */
  function RefusedCount(refusals: seq<bool>, n: nat): (c: nat)
    ensures c <= n
  {
    if n == 0 then 0 else RefusedCount(refusals, n - 1) + (if RefusedAt(refusals, n - 1) then 1 else 0)
  }

  /** Every refusal loses exactly one record: the accepted jobs number the
      fetched records minus the refused submissions. */
  lemma {:induction false} AdmittedCount(pois: seq<RawPoi>, refusals: seq<bool>)
    ensures |Admitted(pois, refusals)| == |pois| - RefusedCount(refusals, |pois|)
  {
    if pois != [] {
      AdmittedCount(pois[..|pois| - 1], refusals);
    }
  }

  /** Without refusals every record becomes a job, in order. */
  lemma {:induction false} AdmittedWithoutRefusals(pois: seq<RawPoi>, refusals: seq<bool>)
    requires forall i :: 0 <= i < |pois| ==> !RefusedAt(refusals, i)
    ensures Admitted(pois, refusals) == JobsFor(pois)
  {
    if pois != [] {
      AdmittedWithoutRefusals(pois[..|pois| - 1], refusals);
    }
  }

  /** The positions among the first `n` that the broker does not refuse,
      in increasing order. */
  function KeptPositions(refusals: seq<bool>, n: nat): (ps: seq<nat>)
    ensures forall j :: 0 <= j < |ps| ==> ps[j] < n && !RefusedAt(refusals, ps[j])
    ensures forall j, j' :: 0 <= j < j' < |ps| ==> ps[j] < ps[j']
    ensures forall i :: 0 <= i < n && !RefusedAt(refusals, i) ==> i in ps
  {
    if n == 0 then [] else KeptPositions(refusals, n - 1) + (if RefusedAt(refusals, n - 1) then [] else [n - 1])
  }

  /** The j-th accepted job carries the record at the j-th unrefused
      position: the accepted jobs are the unrefused records, in their order,
      with the import options. */
  lemma {:induction false} AdmittedAreFetched(pois: seq<RawPoi>, refusals: seq<bool>)
    ensures |Admitted(pois, refusals)| == |KeptPositions(refusals, |pois|)|
    ensures forall j :: 0 <= j < |Admitted(pois, refusals)| ==>
              Admitted(pois, refusals)[j] == Job(pois[KeptPositions(refusals, |pois|)[j]], ImportJobOptions)
  {
    if pois != [] {
      var i := |pois| - 1;
      AdmittedAreFetched(pois[..i], refusals);
      var prev := Admitted(pois[..i], refusals);
      var ps := KeptPositions(refusals, i);
      forall j | 0 <= j < |prev|
        ensures prev[j] == Job(pois[ps[j]], ImportJobOptions)
      {
        assert pois[..i][ps[j]] == pois[ps[j]];
      }
    }
  }

  /** One refused submission loses that record only: the others are still
      submitted, before and after it. */
  lemma {:induction false} OneRefusalSkipsOne(pois: seq<RawPoi>, refusals: seq<bool>, k: nat)
    requires k < |pois|
    requires forall i :: 0 <= i < |pois| ==> (RefusedAt(refusals, i) <==> i == k)
    ensures Admitted(pois, refusals) == JobsFor(pois[..k]) + JobsFor(pois[k + 1..])
    decreases |pois|
  {
    var i := |pois| - 1;
    if i == k {
      assert pois[..i] == pois[..k];
      AdmittedWithoutRefusals(pois[..i], refusals);
      assert pois[k + 1..] == [];
    } else {
      OneRefusalSkipsOne(pois[..i], refusals, k);
      assert pois[..i][..k] == pois[..k];
      assert pois[..i][k + 1..] == pois[k + 1..i];
      assert pois[k + 1..] == pois[k + 1..i] + [pois[i]];
      assert pois[k + 1..][..|pois[k + 1..]| - 1] == pois[k + 1..i];
    }
  }

  /** The reported count `queued == |pois|` equals the number of accepted
      jobs if and only if the broker refused nothing. */
  lemma QueuedIsExactIffNoRefusal(pois: seq<RawPoi>, refusals: seq<bool>)
    ensures |Admitted(pois, refusals)| == |pois| <==>
              forall i :: 0 <= i < |pois| ==> !RefusedAt(refusals, i)
  {
    AdmittedCount(pois, refusals);
    NoRefusalIffZeroCount(refusals, |pois|);
  }

  lemma {:induction false} NoRefusalIffZeroCount(refusals: seq<bool>, n: nat)
    ensures RefusedCount(refusals, n) == 0 <==> forall i :: 0 <= i < n ==> !RefusedAt(refusals, i)
  {
    if n > 0 {
      NoRefusalIffZeroCount(refusals, n - 1);
    }
  }

  class ImporterService {
    const ocmApiUrl: string
    const ocmApiKey: string
    const poiImportQueue: Queue

    /** The catalog's URL and key come from configuration. */
    constructor (ocmApiUrl: string, ocmApiKey: string, poiImportQueue: Queue)
      ensures this.ocmApiUrl == ocmApiUrl && this.ocmApiKey == ocmApiKey
      ensures this.poiImportQueue == poiImportQueue
    {
      this.ocmApiUrl := ocmApiUrl;
      this.ocmApiKey := ocmApiKey;
      this.poiImportQueue := poiImportQueue;
    }

    /** `addPoiToQueue`: submit one job; a refusal is caught and logged. */
    method AddPoiToQueue(poiData: RawPoi, refused: bool)
      modifies poiImportQueue
      ensures poiImportQueue.requests == old(poiImportQueue.requests) + [Job(poiData, ImportJobOptions)]
      ensures poiImportQueue.jobs ==
                old(poiImportQueue.jobs) + (if refused then [] else [Job(poiData, ImportJobOptions)])
    {
      var refusal := if refused then Some(BrokerError("enqueue failed")) else None;
      var job := poiImportQueue.Add(poiData, ImportJobOptions, refusal);
      // a refused job is logged and otherwise ignored
    }

    /**
     * `importPoisByCountry`: `response` is what the catalog answers and
     * `refusals[i]` whether the broker refuses the i-th submission.
     */
    method ImportPoisByCountry(countryCode: string, response: HttpResponse, refusals: seq<bool>)
      returns (r: Result<ImportOutcome, ImportError>)
      modifies poiImportQueue
      ensures response.TransportFailure? ==>
                && r == Err(ImportError(FetchFailureMessage(countryCode)))
                && unchanged(poiImportQueue)
      ensures response.Responded? ==>
                var pois := FetchPoisByCountry(countryCode, response).value;
                if pois == [] then
                  && r == Ok(ImportOutcome(NoData, 0))
                  && unchanged(poiImportQueue)
                else
                  && r == Ok(ImportOutcome(Success, |pois|))
                  && poiImportQueue.requests == old(poiImportQueue.requests) + JobsFor(pois)
                  && poiImportQueue.jobs == old(poiImportQueue.jobs) + Admitted(pois, refusals)
    {
      var fetched := FetchPoisByCountry(countryCode, response);
      if fetched.Err? {
        return Err(fetched.error);
      }
      var poisToImport := fetched.value;
      if |poisToImport| == 0 {
        return Ok(ImportOutcome(NoData, 0));
      }
      var i := 0;
      while i < |poisToImport|
        invariant 0 <= i <= |poisToImport|
        invariant poiImportQueue.requests == old(poiImportQueue.requests) + JobsFor(poisToImport[..i])
        invariant poiImportQueue.jobs == old(poiImportQueue.jobs) + Admitted(poisToImport[..i], refusals)
      {
        assert poisToImport[..i + 1][..i] == poisToImport[..i];
        AddPoiToQueue(poisToImport[i], RefusedAt(refusals, i));
        i := i + 1;
      }
      assert poisToImport[..i] == poisToImport;
      r := Ok(ImportOutcome(Success, |poisToImport|));
    }
  }
}
