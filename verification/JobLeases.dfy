/** Leases: how long a dispatched job is left alone.

`Latest` is read off the run itself: the time from which the latest applied mark of each ID
counts its lease. Times are nanoseconds, stored leases are milliseconds.
*/
module JobLeases {
  import opened Text
  import opened JobStore
  import opened JobMachine
  import opened StoreCalls
  import opened JobRecovery

  /** The ID that a step marks dispatching, and the time its lease counts from. */
  function MarkOf(s: State, step: Step): Option<(string, int)> {
    match step
    case MarkStep(h, from, o) =>
      if h in s.handlers && !o.Lost? && s.handlers[h].request.requestID in s.jobs
      then Some((s.handlers[h].request.requestID, from)) else None
    case PickStep(o) =>
      if s.recovery.Scan? && s.recovery.todo != [] && s.recovery.todo[0].job.status == Queued && !o.Lost?
         && s.recovery.todo[0].id in s.jobs
      then Some((s.recovery.todo[0].id, s.recovery.now)) else None
    case _ => None
  }

  /** For every ID ever marked, when the lease of its latest mark began. */
  function Latest(steps: seq<Step>, states: seq<State>, i: nat): map<string, int>
    requires |states| == |steps| + 1 && i <= |steps|
  {
    if i == 0 then map[]
    else match MarkOf(states[i - 1], steps[i - 1])
      case None => Latest(steps, states, i - 1)
      case Some((id, from)) => Latest(steps, states, i - 1)[id := from]
  }

  /** The stored form of a lease that began at `from`. */
  function LeaseEnd(cfg: Config, from: int): int {
    (from + cfg.leaseTTL) / 1_000_000
  }

  predicate RowLeased(cfg: Config, latest: map<string, int>, id: string, job: Job) {
    job.status == Dispatching ==> id in latest && job.leaseUntil == LeaseEnd(cfg, latest[id])
  }

  /** A snapshot of an unfinished dispatch knows the lease of the latest mark, unless the row was marked since. */
  predicate SnapshotLeased(cfg: Config, jobs: Jobs, latest: map<string, int>, snap: Snapshot) {
    && snap.id in jobs && snap.job.attempt <= jobs[snap.id].attempt
    && (snap.job.attempt == jobs[snap.id].attempt ==> RowLeased(cfg, latest, snap.id, snap.job))
  }

  ghost predicate LeasesOk(cfg: Config, s: State, latest: map<string, int>) {
    && (forall id :: id in s.jobs ==> RowLeased(cfg, latest, id, s.jobs[id]))
    && (s.recovery.Scan? ==>
          forall i :: 0 <= i < |s.recovery.todo| ==> SnapshotLeased(cfg, s.jobs, latest, s.recovery.todo[i]))
  }

  // ---------------------------------------------------------------------------
  // Every step keeps the leases
  // ---------------------------------------------------------------------------

  /** The effect of a step on the table, and what it does to the latest marks. */
  ghost predicate MarkFits(cfg: Config, e: Effect, mark: Option<(string, int)>) {
    match mark
    case Some((id, from)) => e == Updates(id, ToDispatching("", At(from + cfg.leaseTTL)))
    case None => e.Updates? ==> !e.write.ToDispatching?
  }

  lemma NextMarkFits(cfg: Config, s: State, step: Step, s': State)
    requires BindingOk(cfg, s) && Next(cfg, s, step, s')
    ensures MarkFits(cfg, EffectOf(cfg, s, step), MarkOf(s, step))
  {
    if step.RecordStep? {
      assert HandlerOk(cfg, s.jobs, s.handlers[step.h]);
    }
  }

  function After(latest: map<string, int>, mark: Option<(string, int)>): map<string, int> {
    match mark
    case None => latest
    case Some((id, from)) => latest[id := from]
  }

  lemma RowsStayLeased(cfg: Config, jobs: Jobs, latest: map<string, int>, e: Effect, mark: Option<(string, int)>,
                       now: int)
    requires forall id :: id in jobs ==> RowLeased(cfg, latest, id, jobs[id])
    requires MarkFits(cfg, e, mark) && (e.Inserts? ==> e.job.status == Queued)
    ensures var jobs' := AfterEffect(jobs, e, now);
      forall id :: id in jobs' ==> RowLeased(cfg, After(latest, mark), id, jobs'[id])
  {
  }

  lemma SnapshotStaysLeased(cfg: Config, jobs: Jobs, latest: map<string, int>, e: Effect, mark: Option<(string, int)>,
                            now: int, snap: Snapshot)
    requires SnapshotLeased(cfg, jobs, latest, snap) && MarkFits(cfg, e, mark) && (e.Inserts? ==> e.id !in jobs)
    ensures SnapshotLeased(cfg, AfterEffect(jobs, e, now), After(latest, mark), snap)
  {
  }

  lemma ScanLeased(cfg: Config, jobs: Jobs, latest: map<string, int>, ids: seq<string>)
    requires forall id :: id in jobs ==> RowLeased(cfg, latest, id, jobs[id])
    requires forall i :: 0 <= i < |ids| ==> ids[i] in jobs
    ensures forall i :: 0 <= i < |ids| ==> SnapshotLeased(cfg, jobs, latest, Snapshots(jobs, ids)[i])
  {
  }

  lemma InsertsQueued(cfg: Config, s: State, step: Step)
    ensures var e := EffectOf(cfg, s, step); e.Inserts? ==> e.job.status == Queued
  {
  }

  lemma NextKeepsLeases(cfg: Config, s: State, step: Step, s': State, latest: map<string, int>)
    requires Inv(cfg, s) && LeasesOk(cfg, s, latest) && Next(cfg, s, step, s')
    ensures LeasesOk(cfg, s', After(latest, MarkOf(s, step)))
  {
    var e, mark := EffectOf(cfg, s, step), MarkOf(s, step);
    NextEffect(cfg, s, step, s');
    NextMarkFits(cfg, s, step, s');
    InsertsQueued(cfg, s, step);
    RowsStayLeased(cfg, s.jobs, latest, e, mark, Now(s));
    if step.ScanStep? {
      ScanLeased(cfg, s.jobs, latest, step.ids);
    } else if s'.recovery.Scan? {
      BatchStaysLeased(cfg, s, step, s', latest);
    }
  }

  /** A batch that stays, or drops its head, across an effect. */
  lemma TodoStaysLeased(cfg: Config, jobs: Jobs, latest: map<string, int>, e: Effect, mark: Option<(string, int)>,
                        now: int, todo: seq<Snapshot>, todo': seq<Snapshot>)
    requires forall i :: 0 <= i < |todo| ==> SnapshotLeased(cfg, jobs, latest, todo[i])
    requires MarkFits(cfg, e, mark) && (e.Inserts? ==> e.id !in jobs)
    requires todo' == todo || (todo != [] && todo' == todo[1..])
    ensures forall i :: 0 <= i < |todo'| ==>
              SnapshotLeased(cfg, AfterEffect(jobs, e, now), After(latest, mark), todo'[i])
  {
    forall i | 0 <= i < |todo'|
      ensures SnapshotLeased(cfg, AfterEffect(jobs, e, now), After(latest, mark), todo'[i])
    {
      assert todo'[i] == todo[i + |todo| - |todo'|];
      SnapshotStaysLeased(cfg, jobs, latest, e, mark, now, todo'[i]);
    }
  }

  lemma BatchStaysLeased(cfg: Config, s: State, step: Step, s': State, latest: map<string, int>)
    requires Inv(cfg, s) && LeasesOk(cfg, s, latest) && Next(cfg, s, step, s') && !step.ScanStep? && s'.recovery.Scan?
    ensures forall i :: 0 <= i < |s'.recovery.todo| ==>
              SnapshotLeased(cfg, s'.jobs, After(latest, MarkOf(s, step)), s'.recovery.todo[i])
  {
    NextBatchShape(cfg, s, step, s');
    NextEffect(cfg, s, step, s');
    NextMarkFits(cfg, s, step, s');
    TodoStaysLeased(cfg, s.jobs, latest, EffectOf(cfg, s, step), MarkOf(s, step), Now(s), s.recovery.todo,
                    s'.recovery.todo);
  }

  lemma {:induction false} RunKeepsLeases(cfg: Config, steps: seq<Step>, states: seq<State>, i: nat)
    requires ValidConfig(cfg) && Run(cfg, steps, states) && i < |states|
    ensures LeasesOk(cfg, states[i], Latest(steps, states, i))
  {
    if i > 0 {
      RunKeepsLeases(cfg, steps, states, i - 1);
      StepKeepsLeases(cfg, steps, states, i);
    }
  }

  lemma StepKeepsLeases(cfg: Config, steps: seq<Step>, states: seq<State>, i: nat)
    requires ValidConfig(cfg) && Run(cfg, steps, states) && 0 < i < |states|
    requires LeasesOk(cfg, states[i - 1], Latest(steps, states, i - 1))
    ensures LeasesOk(cfg, states[i], Latest(steps, states, i))
  {
    RunKeepsInv(cfg, steps, states, i - 1);
    StepOf(cfg, steps, states, i - 1);
    NextKeepsLeases(cfg, states[i - 1], steps[i - 1], states[i], Latest(steps, states, i - 1));
  }

  // ---------------------------------------------------------------------------
  // What every run guarantees
  // ---------------------------------------------------------------------------

  /** The lease of a dispatching row ends leaseTTL after its latest mark began. */
  lemma LeaseIsLatestMark(cfg: Config, steps: seq<Step>, states: seq<State>, i: nat, id: string)
    requires ValidConfig(cfg) && Run(cfg, steps, states) && i < |states|
    requires id in states[i].jobs && states[i].jobs[id].status == Dispatching
    ensures id in Latest(steps, states, i)
    ensures states[i].jobs[id].leaseUntil == (Latest(steps, states, i)[id] + cfg.leaseTTL) / 1_000_000
  {
    RunKeepsLeases(cfg, steps, states, i);
  }

  /** No scan lists a dispatching row before its lease has ended. */
  lemma NotListedEarly(cfg: Config, steps: seq<Step>, states: seq<State>, i: nat, id: string)
    requires ValidConfig(cfg) && Run(cfg, steps, states) && i < |steps| && steps[i].ScanStep? && id in steps[i].ids
    requires id in states[i].jobs && states[i].jobs[id].status == Dispatching
    ensures id in Latest(steps, states, i)
    ensures (Latest(steps, states, i)[id] + cfg.leaseTTL) / 1_000_000 <= steps[i].now / 1_000_000
  {
    RunKeepsLeases(cfg, steps, states, i);
    StepOf(cfg, steps, states, i);
    var k :| 0 <= k < |steps[i].ids| && steps[i].ids[k] == id;
  }

  /** The row of `id` becomes ambiguous. */
  predicate TurnsAmbiguous(s: State, s': State, id: string) {
    && id in s.jobs && s.jobs[id].status != Ambiguous
    && id in s'.jobs && s'.jobs[id].status == Ambiguous
  }

  lemma AmbiguousByWrite(jobs: Jobs, e: Effect, now: int, id: string)
    requires id in jobs && jobs[id].status != Ambiguous && (e.Inserts? ==> e.id !in jobs)
    requires id in AfterEffect(jobs, e, now) && AfterEffect(jobs, e, now)[id].status == Ambiguous
    ensures e.Updates? && e.id == id && e.write.ToAmbiguous?
  {
  }

  lemma AmbiguousByPick(cfg: Config, s: State, step: Step, s': State)
    requires BindingOk(cfg, s) && Next(cfg, s, step, s')
    ensures var e := EffectOf(cfg, s, step);
      e.Updates? && e.write.ToAmbiguous? ==>
        && step.PickStep? && RecoveryAt(s, TPick) && s.recovery.todo[0].id == e.id
        && s.recovery.todo[0].job.status == Dispatching
  {
    if step.RecordStep? {
      assert HandlerOk(cfg, s.jobs, s.handlers[step.h]);
    } else if step.PickStep? {
      assert SnapshotOk(s.jobs, s.recovery.todo[0], s.recovery.now);
    }
  }

  lemma AmbiguityCause(cfg: Config, s: State, step: Step, s': State, id: string)
    requires BindingOk(cfg, s) && Next(cfg, s, step, s') && TurnsAmbiguous(s, s', id)
    ensures step.PickStep? && RecoveryAt(s, TPick) && s.recovery.todo[0].id == id
    ensures s.recovery.todo[0].job.status == Dispatching
  {
    NextEffect(cfg, s, step, s');
    AmbiguousByWrite(s.jobs, EffectOf(cfg, s, step), Now(s), id);
    AmbiguousByPick(cfg, s, step, s');
  }

  /** Only recovery makes a job ambiguous, and not before the end of its latest lease, unless the row was marked again
  after the scan that listed it, which shows in its attempt. */
  lemma NotAmbiguousEarly(cfg: Config, steps: seq<Step>, states: seq<State>, i: nat, id: string)
    requires ValidConfig(cfg) && Run(cfg, steps, states) && i < |steps| && TurnsAmbiguous(states[i], states[i + 1], id)
    ensures steps[i].PickStep? && RecoveryAt(states[i], TPick) && states[i].recovery.todo[0].id == id
    ensures states[i].jobs[id].attempt == states[i].recovery.todo[0].job.attempt ==>
      && id in Latest(steps, states, i)
      && (Latest(steps, states, i)[id] + cfg.leaseTTL) / 1_000_000 <= states[i].clock / 1_000_000
  {
    RunKeepsInv(cfg, steps, states, i);
    RunKeepsLeases(cfg, steps, states, i);
    StepOf(cfg, steps, states, i);
    AmbiguityCause(cfg, states[i], steps[i], states[i + 1], id);
    var s := states[i];
    assert SnapshotOk(s.jobs, s.recovery.todo[0], s.recovery.now);
    assert SnapshotLeased(cfg, s.jobs, Latest(steps, states, i), s.recovery.todo[0]);
    MillisMonotone(s.recovery.now, s.clock);
  }

  lemma MillisMonotone(a: int, b: int)
    requires a <= b
    ensures a / 1_000_000 <= b / 1_000_000
  {
  }

  /** For an ID that is never sent to /api/v1/execute: never before the end of its latest lease. */
  lemma AsyncNotAmbiguousEarly(cfg: Config, steps: seq<Step>, states: seq<State>, i: nat, id: string)
    requires ValidConfig(cfg) && Run(cfg, steps, states) && i < |steps| && TurnsAmbiguous(states[i], states[i + 1], id)
    requires id !in states[i].executed
    ensures id in Latest(steps, states, i)
    ensures (Latest(steps, states, i)[id] + cfg.leaseTTL) / 1_000_000 <= states[i].clock / 1_000_000
  {
    NotAmbiguousEarly(cfg, steps, states, i, id);
    RunKeepsInv(cfg, steps, states, i);
    assert AsyncSnapshotOk(states[i], states[i].recovery.todo[0], false);
  }

  // ---------------------------------------------------------------------------
  // The condition is needed
  // ---------------------------------------------------------------------------

  lemma OnlyRowIsListed(jobs: Jobs, id: string, now: int, limit: nat)
    requires jobs.Keys == {id} && Recoverable(jobs[id], now) && limit > 0
    ensures IsBatch(jobs, now, limit, [id])
  {
  }

  /** The only row is that of `r`, left dispatching by a recovery whose second write was lost; an execute handler that
  created it has yet to mark it. */
  ghost predicate Stranded(cfg: Config, r: ExecutionRequest, s: State) {
    && s.clock == NANOS_PER_MILLI && s.recovery.Idle? && s.handlers == map[0 := Handler(Execute, r, HMark)]
    && s.jobs.Keys == {r.requestID}
    && s.jobs[r.requestID].status == Dispatching
    && s.jobs[r.requestID].leaseUntil == LeaseEnd(cfg, NANOS_PER_MILLI)
  }

  /** An execute of `r` has created its row and not yet marked it. */
  lemma CreatedRun(cfg: Config, r: ExecutionRequest) returns (steps: seq<Step>, states: seq<State>)
    ensures Run(cfg, steps, states)
    ensures var s := states[|steps|];
      && s.clock == NANOS_PER_MILLI && s.recovery.Idle? && s.handlers == map[0 := Handler(Execute, r, HMark)]
      && s.jobs == map[r.requestID := NewJob(r, Fingerprint(cfg.hash, r), cfg.jobMaxAttempts, At(s.clock))]
  {
    var s0 := State(map[], NANOS_PER_MILLI, map[], Idle, multiset{}, multiset{}, [], {}, {});
    var s1 := Arrive(s0, 0, Execute, r);
    ContinuesLonger(cfg, [], [s0], ArriveStep(0, Execute, r), s1);
    var s2 := CreateEffect(cfg, s1, 0, Applied);
    steps, states := [] + [ArriveStep(0, Execute, r)], [s0] + [s1];
    ContinuesLonger(cfg, steps, states, CreateStep(0, Applied), s2);
    steps, states := steps + [CreateStep(0, Applied)], states + [s2];
  }

  lemma StrandedRun(cfg: Config, r: ExecutionRequest) returns (steps: seq<Step>, states: seq<State>)
    requires ValidConfig(cfg)
    ensures Run(cfg, steps, states) && Stranded(cfg, r, states[|steps|])
  {
    var id := r.requestID;
    steps, states := CreatedRun(cfg, r);
    var s := states[|steps|];
    OnlyRowIsListed(s.jobs, id, 1, cfg.batchSize);
    var s1 := s.(recovery := Scan(NANOS_PER_MILLI, Snapshots(s.jobs, [id]), TPick));
    ContinuesLonger(cfg, steps, states, ScanStep(NANOS_PER_MILLI, [id]), s1);
    steps, states := steps + [ScanStep(NANOS_PER_MILLI, [id])], states + [s1];
    steps, states := HeadRuns(cfg, steps, states, Applied, Errored(""), Lost);
    var s2 := states[|steps|];
    ContinuesLonger(cfg, steps, states, EndScanStep, s2.(recovery := Idle));
    steps, states := steps + [EndScanStep], states + [s2.(recovery := Idle)];
  }

  /** A clock at the last nanosecond of a millisecond, after the lease of the stranded row. */
  function LateClock(cfg: Config): int
    requires ValidConfig(cfg)
  {
    (NANOS_PER_MILLI + cfg.leaseTTL) * 1_000_000 + 999_999
  }

  lemma LateClockIsLate(cfg: Config)
    requires ValidConfig(cfg)
    ensures LateClock(cfg) >= NANOS_PER_MILLI && 0 < LeaseEnd(cfg, NANOS_PER_MILLI) <= LateClock(cfg) / 1_000_000
    ensures LateClock(cfg) / 1_000_000 < LeaseEnd(cfg, LateClock(cfg))
  {
    var n := NANOS_PER_MILLI + cfg.leaseTTL;
    assert LateClock(cfg) / 1_000_000 == n && n / 1_000_000 <= n;
    MillisMonotone((n + 1) * 1_000_000, LateClock(cfg) + cfg.leaseTTL);
  }

  /** The expired row is listed, its handler then marks it anew, and recovery works from its stale snapshot. */
  lemma StrandedIsOverrun(cfg: Config, steps: seq<Step>, states: seq<State>, r: ExecutionRequest)
    returns (steps': seq<Step>, states': seq<State>)
    requires ValidConfig(cfg) && Continues(cfg, steps, states) && Stranded(cfg, r, states[|steps|])
    ensures Continues(cfg, steps', states') && states <= states' && |steps'| == |steps| + 3
    ensures var s := states'[|steps'|];
      && s.clock == LateClock(cfg) && RecoveryAt(s, TPick) && s.recovery.todo[0].id == r.requestID
      && r.requestID in s.jobs && s.jobs[r.requestID].status == Dispatching
          && s.recovery.todo[0].job.status == Dispatching
      && !GuardSkips(s.recovery.todo[0].job, At(s.recovery.now))
    ensures MarkOf(states'[|steps'| - 1], steps'[|steps'| - 1]) == Some((r.requestID, LateClock(cfg)))
  {
    var id, late, s := r.requestID, LateClock(cfg), states[|steps|];
    LateClockIsLate(cfg);
    var s1 := s.(clock := late);
    ContinuesLonger(cfg, steps, states, TickStep(late), s1);
    OnlyRowIsListed(s1.jobs, id, UnixMilli(At(late)), cfg.batchSize);
    var s2 := s1.(recovery := Scan(late, Snapshots(s1.jobs, [id]), TPick));
    ContinuesLonger(cfg, steps + [TickStep(late)], states + [s1], ScanStep(late, [id]), s2);
    GuardNeverSkipsListed(s1.jobs[id], At(late));
    var s3 := Move(Put(s2, id, ToDispatching("", At(late + cfg.leaseTTL)), Applied), 0, HCall);
    ContinuesLonger(cfg, steps + [TickStep(late)] + [ScanStep(late, [id])], states + [s1] + [s2],
                    MarkStep(0, late, Applied), s3);
    steps' := steps + [TickStep(late)] + [ScanStep(late, [id])] + [MarkStep(0, late, Applied)];
    states' := states + [s1] + [s2] + [s3];
  }

  /** The condition of `NotAmbiguousEarly` is needed, for every configuration and every request: a row marked again
  after it was listed turns ambiguous before the end of its latest lease. */
  lemma MarkedAgainIsAmbiguousEarly(cfg: Config, r: ExecutionRequest) returns (steps: seq<Step>, states: seq<State>)
    requires ValidConfig(cfg)
    ensures Run(cfg, steps, states) && |steps| > 0
    ensures var i := |steps| - 1;
      && TurnsAmbiguous(states[i], states[i + 1], r.requestID)
      && r.requestID in Latest(steps, states, i)
      && states[i].clock / 1_000_000 < (Latest(steps, states, i)[r.requestID] + cfg.leaseTTL) / 1_000_000
  {
    LateClockIsLate(cfg);
    steps, states := StrandedRun(cfg, r);
    steps, states := StrandedIsOverrun(cfg, steps, states, r);
    var n, s := |steps|, states[|steps|];
    assert Latest(steps, states, n)[r.requestID] == LateClock(cfg);
    var s' := PickEffect(cfg, s, Applied);
    LatestExtends(steps, states, PickStep(Applied), s', n);
    ContinuesLonger(cfg, steps, states, PickStep(Applied), s');
    steps, states := steps + [PickStep(Applied)], states + [s'];
  }

  lemma {:induction false} LatestExtends(steps: seq<Step>, states: seq<State>, step: Step, s': State, i: nat)
    requires |states| == |steps| + 1 && i <= |steps|
    ensures Latest(steps + [step], states + [s'], i) == Latest(steps, states, i)
  {
    if i > 0 {
      LatestExtends(steps, states, step, s', i - 1);
    }
  }
}
