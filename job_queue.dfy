/**
 * The `poi-import` job queue as the importer and the worker see it: `add`
 * appends a job carrying one raw record, or the broker refuses it. Delivery,
 * retries and the worker pool belong to the broker and are not modelled.
 */
module JobQueue {
  import opened Wrappers
  import opened OcmRecord

  /** Options of one job: how many delivery attempts, and whether the job is
      discarded once it completes. */
  datatype JobOptions = JobOptions(attempts: nat, removeOnComplete: bool)

  datatype Job = Job(data: RawPoi, opts: JobOptions)

  datatype BrokerError = BrokerError(reason: string)

  class Queue {
    /** Every `add` call, in call order, whether or not the broker took it. */
    var requests: seq<Job>
    /** The jobs the broker accepted, in submission order. */
    var jobs: seq<Job>

    constructor ()
      ensures requests == [] && jobs == []
    {
      requests, jobs := [], [];
    }

    /** `queue.add(data, opts)`; `refusal` is the broker's answer when it
        throws instead of accepting the job. */
    method Add(data: RawPoi, opts: JobOptions, refusal: Option<BrokerError>)
      returns (r: Result<Job, BrokerError>)
      modifies this
      ensures requests == old(requests) + [Job(data, opts)]
      ensures refusal.Some? ==> r == Err(refusal.value) && jobs == old(jobs)
      ensures refusal.None? ==> r == Ok(Job(data, opts)) && jobs == old(jobs) + [Job(data, opts)]
    {
      var job := Job(data, opts);
      requests := requests + [job];
      if refusal.Some? {
        r := Err(refusal.value);
      } else {
        jobs := jobs + [job];
        r := Ok(job);
      }
    }
  }
}
