/** The recovery loop as the sequential code it is.

Models internal/master/job_recovery.go. The rows of the batch are snapshots: the table may
hold anything by the time a job is recovered, and every write may fail. `HeadRuns` shows
that the treatment of one job is a run of the job machine, in which everything else may
touch the table between any two of its steps.
*/
module JobRecovery {
  import opened Text
  import opened JobStore
  import opened JobMachine
  import opened StoreCalls

  // ---------------------------------------------------------------------------
  // What recovery does to the table
  // ---------------------------------------------------------------------------

  /** The table after recovering one queued snapshot. */
  function RecoveredQueued(jobs: Jobs, snap: Snapshot, leaseUntil: Time, a: Attempt): Jobs {
    var marked := Written(jobs, snap.id, ToDispatching("", leaseUntil), a.markedAt, a.mark);
    if a.mark.Applied? && snap.id in jobs
    then Written(marked, snap.id, RecoveryOutcome(snap.job, a.result), a.recordedAt, a.record)
    else marked
  }

  /** The table after recovering one snapshot in any status. */
  function Recovered(jobs: Jobs, snap: Snapshot, now: Time, leaseUntil: Time, a: Attempt): Jobs {
    if snap.job.status.Queued? then RecoveredQueued(jobs, snap, leaseUntil, a)
    else if (snap.job.status.Dispatching? || snap.job.status.Running?) && !GuardSkips(snap.job, now) then
      Written(jobs, snap.id, ToAmbiguous(LEASE_EXPIRED), a.markedAt, a.mark)
    else jobs
  }

  /** The table after recovering the first `n` snapshots of a batch, the k-th under `env(k)`. */
  function RecoveredAll(jobs: Jobs, todo: seq<Snapshot>, now: Time, leaseUntil: Time, env: nat -> Attempt, n: nat): Jobs
    requires n <= |todo|
  {
    if n == 0 then jobs
    else Recovered(RecoveredAll(jobs, todo, now, leaseUntil, env, n - 1), todo[n - 1], now, leaseUntil, env(n - 1))
  }

  // ---------------------------------------------------------------------------
  // The loop
  // ---------------------------------------------------------------------------

  method RecoverQueuedJob(store: SQLiteJobStore, id: string, job: Job, leaseUntil: Time, a: Attempt) returns (ok: bool)
    modifies store
    ensures store.jobs == RecoveredQueued(old(store.jobs), Snapshot(id, job), leaseUntil, a)
    ensures ok <==> id in old(store.jobs) && a.mark.Applied? && a.record.Applied?
  {
    var marked := Update(store, id, ToDispatching("", leaseUntil), a.markedAt, a.mark);
    if !marked {
      return false;
    }
    match a.result {
      case Returned(response) =>
        ok := Update(store, id, ToSucceeded(response), a.recordedAt, a.record);
      case Errored(reason) =>
        var nextAttempt := job.attempt + 1;
        if job.maxAttempts > 0 && nextAttempt >= job.maxAttempts {
          ok := Update(store, id, ToFailed(reason), a.recordedAt, a.record);
        } else {
          ok := Update(store, id, ToQueued(reason), a.recordedAt, a.record);
        }
    }
  }

  method RecoverJob(store: SQLiteJobStore, id: string, job: Job, now: Time, leaseUntil: Time, a: Attempt)
    returns (ok: bool)
    modifies store
    ensures store.jobs == Recovered(old(store.jobs), Snapshot(id, job), now, leaseUntil, a)
    ensures job.status != Queued && now.At? && (job.leaseUntil == 0 || job.leaseUntil * 1_000_000 > now.ns) ==>
              store.jobs == old(store.jobs)
  {
    ok := true;
    match job.status {
      case Queued =>
        ok := RecoverQueuedJob(store, id, job, leaseUntil, a);
      case Dispatching | Running =>
        var lease := TimeFromUnixMilli(job.leaseUntil);
        if lease.Zero? || After(lease, now) {
          return;
        }
        ok := Update(store, id, ToAmbiguous(LEASE_EXPIRED), a.markedAt, a.mark);
      case _ =>
    }
  }

  /** One scan: the listed snapshots are recovered one after the other, whatever fails in between. */
  method RecoverOnce(store: SQLiteJobStore, now: Time, batchSize: int, leaseUntil: Time, listed: bool,
                     env: nat -> Attempt)
    returns (ids: seq<string>)
    modifies store
    ensures listed ==> IsBatch(old(store.jobs), UnixMilli(now), if batchSize <= 0 then 32 else batchSize, ids)
    ensures !listed ==> ids == []
    ensures store.jobs ==
            RecoveredAll(old(store.jobs), Snapshots(old(store.jobs), ids), now, leaseUntil, env, |ids|)
  {
    ids := [];
    if !listed {
      return;
    }
    ids := store.ListRecoverable(now, batchSize);
    var todo := Snapshots(store.jobs, ids);
    for i := 0 to |ids|
      invariant store.jobs == RecoveredAll(old(store.jobs), todo, now, leaseUntil, env, i)
    {
      var ok := RecoverJob(store, todo[i].id, todo[i].job, now, leaseUntil, env(i));
    }
  }

  // ---------------------------------------------------------------------------
  // What a scan achieves when its writes are applied
  // ---------------------------------------------------------------------------

  /** The row a recovered job ends up with. */
  function Settled(job: Job, leaseUntil: Time, a: Attempt): Job {
    if job.status.Queued? then
      Apply(Apply(job, ToDispatching("", leaseUntil), UnixMilli(a.markedAt)), RecoveryOutcome(job, a.result),
            UnixMilli(a.recordedAt))
    else
      Apply(job, ToAmbiguous(LEASE_EXPIRED), UnixMilli(a.markedAt))
  }

  /** A listed row that nothing else has touched is settled, never skipped. */
  lemma ListedIsSettled(jobs: Jobs, id: string, now: Time, leaseUntil: Time, a: Attempt)
    requires id in jobs && Recoverable(jobs[id], UnixMilli(now)) && a.mark.Applied? && a.record.Applied?
    ensures Recovered(jobs, Snapshot(id, jobs[id]), now, leaseUntil, a) == jobs[id := Settled(jobs[id], leaseUntil, a)]
  {
    if !jobs[id].status.Queued? {
      GuardNeverSkipsListed(jobs[id], now);
    }
  }

  /** The table with the first `n` of the listed rows settled. */
  function SettledAll(jobs: Jobs, ids: seq<string>, leaseUntil: Time, env: nat -> Attempt, n: nat): Jobs
    requires n <= |ids| && forall k :: 0 <= k < |ids| ==> ids[k] in jobs
  {
    if n == 0 then jobs
    else SettledAll(jobs, ids, leaseUntil, env, n - 1)[ids[n - 1] := Settled(jobs[ids[n - 1]], leaseUntil, env(n - 1))]
  }

  /** Rows that are not, or not yet, settled are as they were. */
  lemma {:induction false} OtherRowsKept(jobs: Jobs, ids: seq<string>, leaseUntil: Time, env: nat -> Attempt, n: nat,
                                         id: string)
    requires n <= |ids| && (forall k :: 0 <= k < |ids| ==> ids[k] in jobs)
    requires id in jobs && forall k :: 0 <= k < n ==> ids[k] != id
    ensures var after := SettledAll(jobs, ids, leaseUntil, env, n); id in after && after[id] == jobs[id]
    decreases n
  {
    if n > 0 {
      OtherRowsKept(jobs, ids, leaseUntil, env, n - 1, id);
    }
  }

  lemma {:induction false} RowSettled(jobs: Jobs, ids: seq<string>, leaseUntil: Time,
                                      env: nat -> Attempt, n: nat, k: nat)
    requires k < n <= |ids| && (forall k :: 0 <= k < |ids| ==> ids[k] in jobs) && Distinct(ids)
    ensures var after := SettledAll(jobs, ids, leaseUntil, env, n);
      ids[k] in after && after[ids[k]] == Settled(jobs[ids[k]], leaseUntil, env(k))
    decreases n
  {
    if k < n - 1 {
      RowSettled(jobs, ids, leaseUntil, env, n - 1, k);
    }
  }

  /** An undisturbed scan whose writes are applied settles the listed rows and does nothing else. */
  lemma {:induction false} ScanSettles(jobs: Jobs, ids: seq<string>, now: Time, leaseUntil: Time, env: nat -> Attempt,
                                       n: nat)
    requires n <= |ids| && Distinct(ids)
    requires forall k :: 0 <= k < |ids| ==> ids[k] in jobs && Recoverable(jobs[ids[k]], UnixMilli(now))
    requires forall k :: env(k).mark.Applied? && env(k).record.Applied?
    ensures RecoveredAll(jobs, Snapshots(jobs, ids), now, leaseUntil, env, n) ==
            SettledAll(jobs, ids, leaseUntil, env, n)
    decreases n
  {
    if n > 0 {
      ScanSettles(jobs, ids, now, leaseUntil, env, n - 1);
      var before := SettledAll(jobs, ids, leaseUntil, env, n - 1);
      OtherRowsKept(jobs, ids, leaseUntil, env, n - 1, ids[n - 1]);
      ListedIsSettled(before, ids[n - 1], now, leaseUntil, env(n - 1));
    }
  }

  /** What settling means for the next scan: the job is finished, ambiguous, or queued with an attempt left. */
  lemma SettledMeaning(job: Job, leaseUntil: Time, a: Attempt)
    requires job.maxAttempts > 0
    ensures var after := Settled(job, leaseUntil, a);
      && after.updatedAt == UnixMilli(if job.status.Queued? then a.recordedAt else a.markedAt)
      && (job.status.Queued? ==> after.attempt == job.attempt + 1)
      && match after.status
         case Succeeded => a.result.Returned? && after.response == Some(a.result.response)
         case Failed => a.result.Errored? && after.attempt >= after.maxAttempts
         case Queued => a.result.Errored? && after.attempt < after.maxAttempts
         case Ambiguous => !job.status.Queued? && after.attempt == job.attempt
         case _ => false
  {
  }

  // ---------------------------------------------------------------------------
  // The same in the machine
  // ---------------------------------------------------------------------------

  /** Both writes happen at the machine's clock. */
  function AttemptNow(s: State, mark: WriteOutcome, result: DispatchResult, record: WriteOutcome): Attempt {
    Attempt(mark, At(s.clock), result, record, At(s.clock))
  }

  /** A head whose mark went through: the dispatcher is called, returns, and the outcome is recorded. */
  lemma MarkedHeadRuns(cfg: Config, steps: seq<Step>, states: seq<State>, result: DispatchResult, record: WriteOutcome)
    returns (steps': seq<Step>, states': seq<State>)
    requires Continues(cfg, steps, states) && RecoveryAt(states[|steps|], TCall)
    ensures Continues(cfg, steps', states') && steps <= steps' && states <= states' && |steps'| == |steps| + 3
    ensures forall k :: |steps| <= k < |steps'| ==> !steps'[k].CallbackStep?
    ensures var s, s', head := states[|steps|], states'[|steps'|], states[|steps|].recovery.todo[0];
      && s'.jobs == Written(s.jobs, head.id, RecoveryOutcome(head.job, result), At(s.clock), record)
      && s'.recovery == Scan(s.recovery.now, s.recovery.todo[1..], TPick)
      && s'.handlers == s.handlers && s'.clock == s.clock
  {
    var s := states[|steps|];
    var s1 := Turned(CallDispatcher(s, s.recovery.todo[0].job.request), TAwait);
    ContinuesLonger(cfg, steps, states, RecoveryCallStep, s1);
    var w := RecoveryOutcome(s.recovery.todo[0].job, result);
    var s2 := Turned(s1, TRecord(w));
    ContinuesLonger(cfg, steps + [RecoveryCallStep], states + [s1], RecoveryReturnStep(result), s2);
    var s3 := DropHead(Put(s2, s.recovery.todo[0].id, w, record));
    ContinuesLonger(cfg, steps + [RecoveryCallStep] + [RecoveryReturnStep(result)], states + [s1] + [s2],
                    RecoveryRecordStep(record), s3);
    steps' := steps + [RecoveryCallStep] + [RecoveryReturnStep(result)] + [RecoveryRecordStep(record)];
    states' := states + [s1] + [s2] + [s3];
  }

  /** The sequential treatment of a head, whatever its status and whatever fails, is a run of the machine. */
  lemma HeadRuns(cfg: Config, steps: seq<Step>, states: seq<State>,
                 mark: WriteOutcome, result: DispatchResult, record: WriteOutcome)
    returns (steps': seq<Step>, states': seq<State>)
    requires Continues(cfg, steps, states) && RecoveryAt(states[|steps|], TPick)
    ensures Continues(cfg, steps', states') && steps <= steps' && states <= states'
    ensures forall k :: |steps| <= k < |steps'| ==> !steps'[k].CallbackStep?
    ensures var s, s' := states[|steps|], states'[|steps'|];
      && s'.jobs == Recovered(s.jobs, s.recovery.todo[0], At(s.recovery.now), At(s.recovery.now + cfg.leaseTTL),
                              AttemptNow(s, mark, result, record))
      && s'.recovery == Scan(s.recovery.now, s.recovery.todo[1..], TPick)
      && s'.handlers == s.handlers && s'.clock == s.clock
  {
    var s := states[|steps|];
    var s1 := PickEffect(cfg, s, mark);
    ContinuesLonger(cfg, steps, states, PickStep(mark), s1);
    steps', states' := steps + [PickStep(mark)], states + [s1];
    if s.recovery.todo[0].job.status.Queued? && Sees(s, s.recovery.todo[0].id, mark) {
      steps', states' := MarkedHeadRuns(cfg, steps', states', result, record);
    }
  }
}
