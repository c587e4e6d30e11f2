/** A call of the job store as its caller sees it.

A write may be applied, lost, or applied although its caller sees an error. The recovery
loop and the gateway handlers go through these calls.
*/
module StoreCalls {
  import opened JobStore
  import opened JobMachine

  /** What the environment does to one attempt: the fate and time of both writes, and the dispatch result. */
  datatype Attempt = Attempt(
    mark: WriteOutcome, markedAt: Time, result: DispatchResult, record: WriteOutcome, recordedAt: Time)

  function Written(jobs: Jobs, id: string, w: Write, clock: Time, o: WriteOutcome): Jobs {
    if o.Lost? then jobs else Mark(jobs, id, w, UnixMilli(clock))
  }

  method Update(store: SQLiteJobStore, id: string, w: Write, clock: Time, o: WriteOutcome) returns (ok: bool)
    modifies store
    ensures store.jobs == Written(old(store.jobs), id, w, clock, o)
    ensures ok <==> o.Applied? && id in old(store.jobs)
  {
    if o.Lost? {
      return false;
    }
    var updated;
    match w {
      case ToQueued(reason) => updated := store.MarkQueued(id, reason, clock);
      case ToDispatching(workerID, leaseUntil) => updated := store.MarkDispatching(id, workerID, leaseUntil, clock);
      case ToSucceeded(response) => updated := store.MarkSucceeded(id, response, clock);
      case ToFailed(reason) => updated := store.MarkFailed(id, reason, clock);
      case ToAmbiguous(reason) => updated := store.MarkAmbiguous(id, reason, clock);
    }
    return o.Applied? && updated;
  }
}
