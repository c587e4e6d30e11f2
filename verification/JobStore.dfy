/** The durable job table.

Models internal/master/sqlite_job_store.go as a map from request ID to row, each
SQL statement being one atomic update, together with the row constructor of
internal/master/job.go. JSON encoding is assumed to round-trip, so rows hold
requests and responses as values.
*/
module JobStore {
  import opened Text

  // ---------------------------------------------------------------------------
  // Time
  // ---------------------------------------------------------------------------

  const NANOS_PER_MILLI: int := 1_000_000

  /** time.Time: the zero value, or nanoseconds since the Unix epoch. */
  datatype Time = Zero | At(ns: int)

  function UnixMilli(t: Time): int {
    if t.Zero? then 0 else t.ns / NANOS_PER_MILLI
  }

  function TimeFromUnixMilli(ms: int): Time {
    if ms == 0 then Zero else At(ms * NANOS_PER_MILLI)
  }

  predicate After(a: Time, b: Time) {
    a.At? && (b.Zero? || a.ns > b.ns)
  }

  // ---------------------------------------------------------------------------
  // Rows
  // ---------------------------------------------------------------------------

  datatype Identity = Identity(
    moduleName: string, payload: string, moduleURL: string, moduleRegistryURL: string,
    moduleDigest: string, moduleABI: string, userLat: real, userLon: real)

  /** The bearer token is not part of the identity. */
  datatype ExecutionRequest = ExecutionRequest(requestID: string, identity: Identity, jitBearerToken: string)

  datatype ExecutionResponse = ExecutionResponse(requestID: string, result: string, executedOnNodeID: string)

  /** JSON encoding followed by hex SHA-256. */
  type Hash = Identity -> string

  function Fingerprint(hash: Hash, r: ExecutionRequest): string {
    hash(r.identity)
  }

  /** No two identities collide, as SHA-256 is relied on for. */
  ghost predicate Injective(hash: Hash) {
    forall a, b :: hash(a) == hash(b) ==> a == b
  }

  /** The same module, payload, source, digest, ABI and user location. */
  predicate SameExecution(a: ExecutionRequest, b: ExecutionRequest) {
    && a.identity.moduleName == b.identity.moduleName
    && a.identity.payload == b.identity.payload
    && a.identity.moduleURL == b.identity.moduleURL
    && a.identity.moduleRegistryURL == b.identity.moduleRegistryURL
    && a.identity.moduleDigest == b.identity.moduleDigest
    && a.identity.moduleABI == b.identity.moduleABI
    && a.identity.userLat == b.identity.userLat
    && a.identity.userLon == b.identity.userLon
  }

  /** A fingerprint tells two requests apart exactly when one of the eight identity fields does, whatever the request
  ID and the bearer token. */
  lemma FingerprintSeparates(hash: Hash, a: ExecutionRequest, b: ExecutionRequest)
    requires Injective(hash)
    ensures Fingerprint(hash, a) == Fingerprint(hash, b) <==> SameExecution(a, b)
    ensures forall id, token :: Fingerprint(hash, a.(requestID := id, jitBearerToken := token)) == Fingerprint(hash, a)
  {
    if Fingerprint(hash, a) == Fingerprint(hash, b) {
      assert hash(a.identity) == hash(b.identity);
    }
  }

  datatype Status = Queued | Dispatching | Running | Succeeded | Failed | Ambiguous

  /** A row; times are milliseconds, and a zero lease means none. */
  datatype Job = Job(
    fingerprint: string,
    request: ExecutionRequest,
    status: Status,
    workerID: string,
    attempt: nat,
    maxAttempts: int,
    leaseUntil: int,
    lastError: string,
    response: Option<ExecutionResponse>,
    createdAt: int,
    updatedAt: int)

  type Jobs = map<string, Job>

  const DEFAULT_MAX_ATTEMPTS: int := 3

  /** The row that `Create` inserts for a new record. */
  function NewJob(r: ExecutionRequest, fingerprint: string, maxAttempts: int, now: Time): (job: Job)
    ensures job.request == r && job.fingerprint == fingerprint
    ensures job.attempt == 0 && job.maxAttempts == if maxAttempts > 0 then maxAttempts else 3
    ensures job.status.Queued? && job.leaseUntil == 0 && job.response.None?
    ensures job.createdAt == job.updatedAt == UnixMilli(now)
    ensures job.workerID == "" && job.lastError == ""
  {
    var attempts := if maxAttempts <= 0 then DEFAULT_MAX_ATTEMPTS else maxAttempts;
    Job(fingerprint, r, Queued, "", 0, attempts, 0, "", None, UnixMilli(now), UnixMilli(now))
  }

  /** The five status updates. */
  datatype Write =
    | ToQueued(reason: string)
    | ToDispatching(workerID: string, leaseUntil: Time)
    | ToSucceeded(response: ExecutionResponse)
    | ToFailed(reason: string)
    | ToAmbiguous(reason: string)

  function Apply(job: Job, w: Write, now: int): Job {
    match w
    case ToQueued(reason) =>
      job.(status := Queued, workerID := "", leaseUntil := 0, lastError := reason, updatedAt := now)
    case ToDispatching(workerID, leaseUntil) =>
      job.(status := Dispatching, workerID := workerID, attempt := job.attempt + 1,
           leaseUntil := UnixMilli(leaseUntil), lastError := "", updatedAt := now)
    case ToSucceeded(response) =>
      job.(status := Succeeded, leaseUntil := 0, lastError := "", response := Some(response), updatedAt := now)
    case ToFailed(reason) =>
      job.(status := Failed, leaseUntil := 0, lastError := reason, updatedAt := now)
    case ToAmbiguous(reason) =>
      job.(status := Ambiguous, leaseUntil := 0, lastError := reason, updatedAt := now)
  }

  function Mark(jobs: Jobs, id: string, w: Write, now: int): Jobs {
    if id in jobs then jobs[id := Apply(jobs[id], w, now)] else jobs
  }

  // ---------------------------------------------------------------------------
  // The recovery query
  // ---------------------------------------------------------------------------

  predicate Recoverable(job: Job, now: int) {
    job.status.Queued? || ((job.status.Dispatching? || job.status.Running?) && 0 < job.leaseUntil <= now)
  }

  function RecoverableIds(jobs: Jobs, now: int): set<string> {
    set id | id in jobs && Recoverable(jobs[id], now)
  }

  predicate Distinct(ids: seq<string>) {
    forall i, j :: 0 <= i < j < |ids| ==> ids[i] != ids[j]
  }

  /** `ids` answers the query: recoverable rows, oldest update first, at most `limit`, none skipped. */
  ghost predicate IsBatch(jobs: Jobs, now: int, limit: nat, ids: seq<string>) {
    && Distinct(ids)
    && (forall i :: 0 <= i < |ids| ==> ids[i] in jobs && Recoverable(jobs[ids[i]], now))
    && |ids| <= limit
    && (forall i, j :: 0 <= i < j < |ids| ==> jobs[ids[i]].updatedAt <= jobs[ids[j]].updatedAt)
    && (forall id :: id in jobs && Recoverable(jobs[id], now) && id !in ids ==>
          |ids| == limit && forall i :: 0 <= i < |ids| ==> jobs[ids[i]].updatedAt <= jobs[id].updatedAt)
  }

  /** A row is listed only when it is queued or its lease has ended, and then always while there is room. */
  lemma BatchMeaning(jobs: Jobs, ms: int, limit: nat, ids: seq<string>)
    requires IsBatch(jobs, ms, limit, ids)
    ensures forall id :: id in jobs ==>
      var due := jobs[id].status == Queued
                 || ((jobs[id].status == Dispatching || jobs[id].status == Running) && 0 < jobs[id].leaseUntil <= ms);
      (id in ids ==> due) && (due && |ids| < limit ==> id in ids)
  {
  }

  /** What the in-memory guard of `recoverJob` skips. */
  predicate GuardSkips(job: Job, now: Time) {
    var lease := TimeFromUnixMilli(job.leaseUntil);
    lease.Zero? || After(lease, now)
  }

  /** The guard never skips a dispatching row that the query listed, despite the truncation to milliseconds. */
  lemma GuardNeverSkipsListed(job: Job, now: Time)
    requires (job.status.Dispatching? || job.status.Running?) && Recoverable(job, UnixMilli(now))
    ensures !GuardSkips(job, now)
  {
  }

  /** A stored lease is expired exactly when the clock has reached the lease's own millisecond. */
  lemma LeaseExpiry(leaseUntil: int, now: int)
    requires leaseUntil >= NANOS_PER_MILLI
    ensures var stored := UnixMilli(At(leaseUntil));
      0 < stored <= UnixMilli(At(now)) <==> leaseUntil - leaseUntil % NANOS_PER_MILLI <= now
  {
    var q, r := leaseUntil / NANOS_PER_MILLI, leaseUntil % NANOS_PER_MILLI;
    var p, t := now / NANOS_PER_MILLI, now % NANOS_PER_MILLI;
    assert leaseUntil == q * NANOS_PER_MILLI + r && now == p * NANOS_PER_MILLI + t;
  }

  // ---------------------------------------------------------------------------
  // The store object
  // ---------------------------------------------------------------------------

  class SQLiteJobStore {
    var jobs: Jobs

    constructor ()
      ensures jobs == map[]
    {
      jobs := map[];
    }

    /** Inserts a row; false is ErrJobExists. */
    method Create(id: string, job: Job) returns (created: bool)
      modifies this
      ensures created <==> id !in old(jobs)
      ensures jobs == if created then old(jobs)[id := job] else old(jobs)
    {
      if id in jobs {
        return false;
      }
      jobs := jobs[id := job];
      return true;
    }

    /** The row, or None for ErrJobNotFound. */
    method Get(id: string) returns (job: Option<Job>)
      ensures job == if id in jobs then Some(jobs[id]) else None
    {
      if id in jobs {
        return Some(jobs[id]);
      }
      return None;
    }

    method MarkQueued(id: string, reason: string, now: Time) returns (updated: bool)
      modifies this
      ensures updated == (id in old(jobs)) && jobs == Mark(old(jobs), id, ToQueued(reason), UnixMilli(now))
      ensures updated ==>
                jobs == old(jobs)[id := old(jobs)[id].(
                  status := Queued, workerID := "", leaseUntil := 0, lastError := reason,
                  updatedAt := (if now.Zero? then 0 else now.ns / 1_000_000))]
      ensures !updated ==> jobs == old(jobs)
    {
      updated := id in jobs;
      if updated {
        jobs := jobs[id := jobs[id].(status := Queued, workerID := "", leaseUntil := 0, lastError := reason,
                                     updatedAt := UnixMilli(now))];
      }
    }

    method MarkDispatching(id: string, workerID: string, leaseUntil: Time, now: Time) returns (updated: bool)
      modifies this
      ensures updated == (id in old(jobs))
      ensures jobs == Mark(old(jobs), id, ToDispatching(workerID, leaseUntil), UnixMilli(now))
      ensures updated ==>
                jobs == old(jobs)[id := old(jobs)[id].(
                  status := Dispatching, workerID := workerID, attempt := old(jobs)[id].attempt + 1, lastError := "",
                  leaseUntil := (if leaseUntil.Zero? then 0 else leaseUntil.ns / 1_000_000),
                  updatedAt := (if now.Zero? then 0 else now.ns / 1_000_000))]
      ensures !updated ==> jobs == old(jobs)
    {
      updated := id in jobs;
      if updated {
        jobs := jobs[id := jobs[id].(status := Dispatching, workerID := workerID, attempt := jobs[id].attempt + 1,
                                     leaseUntil := UnixMilli(leaseUntil), lastError := "",
                                     updatedAt := UnixMilli(now))];
      }
    }

    method MarkSucceeded(id: string, response: ExecutionResponse, now: Time) returns (updated: bool)
      modifies this
      ensures updated == (id in old(jobs)) && jobs == Mark(old(jobs), id, ToSucceeded(response), UnixMilli(now))
      ensures updated ==>
                jobs == old(jobs)[id := old(jobs)[id].(
                  status := Succeeded, leaseUntil := 0, lastError := "", response := Some(response),
                  updatedAt := (if now.Zero? then 0 else now.ns / 1_000_000))]
      ensures !updated ==> jobs == old(jobs)
    {
      updated := id in jobs;
      if updated {
        jobs := jobs[id := jobs[id].(status := Succeeded, leaseUntil := 0, lastError := "",
                                     response := Some(response), updatedAt := UnixMilli(now))];
      }
    }

    method MarkFailed(id: string, reason: string, now: Time) returns (updated: bool)
      modifies this
      ensures updated == (id in old(jobs)) && jobs == Mark(old(jobs), id, ToFailed(reason), UnixMilli(now))
      ensures updated ==>
                jobs == old(jobs)[id := old(jobs)[id].(
                  status := Failed, leaseUntil := 0, lastError := reason,
                  updatedAt := (if now.Zero? then 0 else now.ns / 1_000_000))]
      ensures !updated ==> jobs == old(jobs)
    {
      updated := id in jobs;
      if updated {
        jobs := jobs[id := jobs[id].(status := Failed, leaseUntil := 0, lastError := reason,
                                     updatedAt := UnixMilli(now))];
      }
    }

    method MarkAmbiguous(id: string, reason: string, now: Time) returns (updated: bool)
      modifies this
      ensures updated == (id in old(jobs)) && jobs == Mark(old(jobs), id, ToAmbiguous(reason), UnixMilli(now))
      ensures updated ==>
                jobs == old(jobs)[id := old(jobs)[id].(
                  status := Ambiguous, leaseUntil := 0, lastError := reason,
                  updatedAt := (if now.Zero? then 0 else now.ns / 1_000_000))]
      ensures !updated ==> jobs == old(jobs)
    {
      updated := id in jobs;
      if updated {
        jobs := jobs[id := jobs[id].(status := Ambiguous, leaseUntil := 0, lastError := reason,
                                     updatedAt := UnixMilli(now))];
      }
    }

    /** One row of the ordered result: the least recently updated of `ids`. */
    method Earliest(ids: set<string>) returns (first: string)
      requires ids != {} && ids <= jobs.Keys
      ensures first in ids && forall id :: id in ids ==> jobs[first].updatedAt <= jobs[id].updatedAt
    {
      first :| first in ids;
      var rest := ids - {first};
      while rest != {}
        invariant rest <= ids && first in ids
        invariant forall id :: id in ids && id !in rest ==> jobs[first].updatedAt <= jobs[id].updatedAt
        decreases rest
      {
        var id :| id in rest;
        rest := rest - {id};
        if jobs[id].updatedAt < jobs[first].updatedAt {
          first := id;
        }
      }
    }

    /** The ordered and limited query. */
    method SelectRecoverable(now: Time, bound: nat) returns (ids: seq<string>)
      ensures IsBatch(jobs, UnixMilli(now), bound, ids)
    {
      var rest := RecoverableIds(jobs, UnixMilli(now));
      ids := [];
      while |ids| < bound && rest != {}
        invariant |ids| <= bound && rest <= RecoverableIds(jobs, UnixMilli(now))
        invariant Distinct(ids)
        invariant forall i :: 0 <= i < |ids| ==>
              ids[i] in jobs && Recoverable(jobs[ids[i]], UnixMilli(now)) && ids[i] !in rest
        invariant forall i, j :: 0 <= i < j < |ids| ==> jobs[ids[i]].updatedAt <= jobs[ids[j]].updatedAt
        invariant forall i, id :: 0 <= i < |ids| && id in rest ==> jobs[ids[i]].updatedAt <= jobs[id].updatedAt
        invariant forall id :: id in jobs && Recoverable(jobs[id], UnixMilli(now)) ==> id in rest || id in ids
        decreases rest
      {
        var id := Earliest(rest);
        rest := rest - {id};
        ids := ids + [id];
      }
    }

    method ListRecoverable(now: Time, limit: int) returns (ids: seq<string>)
      ensures IsBatch(jobs, UnixMilli(now), if limit <= 0 then 32 else limit, ids)
      ensures var ms := if now.Zero? then 0 else now.ns / 1_000_000;
        forall id :: id in jobs ==>
          var due := jobs[id].status == Queued
                     || ((jobs[id].status == Dispatching || jobs[id].status == Running)
                         && 0 < jobs[id].leaseUntil <= ms);
          && (id in ids ==> due)
          && (due && |ids| < (if limit <= 0 then 32 else limit) ==> id in ids)
    {
      var bound: nat := if limit <= 0 then 32 else limit;
      ids := SelectRecoverable(now, bound);
      BatchMeaning(jobs, UnixMilli(now), bound, ids);
    }
  }
}
