/** Where the guarantees of the job machine end, and exactly when they hold.

`Succeeded` is final exactly when no one is still driving the job; the attempt bound that
holds for jobs submitted only to /api/v1/jobs fails for every configuration and request
once the ID is also sent to /api/v1/execute.
*/
module JobLimits {
  import opened Text
  import opened JobStore
  import opened JobMachine
  import opened StoreCalls
  import opened JobRecovery
  import opened Gateway

  // ---------------------------------------------------------------------------
  // Who may still write
  // ---------------------------------------------------------------------------

  /** The handler will, or may, write something other than success to the row of `id`. */
  predicate HandlerDrives(hd: Handler, id: string) {
    && hd.request.requestID == id
    && (hd.pc.HMark? || hd.pc.HCall? || hd.pc.HAwait? || (hd.pc.HRecord? && !hd.pc.write.ToSucceeded?))
  }

  /** The batch holds `id` at `j`, other than as a head about to record success. */
  predicate DrivesAt(r: Recovery, id: string, j: nat) {
    && r.Scan? && j < |r.todo| && r.todo[j].id == id
    && !(j == 0 && r.turn.TRecord? && r.turn.write.ToSucceeded?)
  }

  ghost predicate Driven(s: State, id: string) {
    || (exists h :: h in s.handlers && HandlerDrives(s.handlers[h], id))
    || (exists j: nat :: DrivesAt(s.recovery, id, j))
  }

  predicate HasSucceeded(s: State, id: string) {
    id in s.jobs && s.jobs[id].status.Succeeded?
  }

  /** A worker reports a failure of `id`, and the report reaches the table. */
  predicate FailingReport(step: Step, id: string) {
    step.CallbackStep? && step.id == id && step.result.Errored? && !step.outcome.Lost?
  }

  // ---------------------------------------------------------------------------
  // Without a driver, succeeded is final
  // ---------------------------------------------------------------------------

  /** Only success is written to a row that no one drives. */
  lemma UndrivenEffect(cfg: Config, s: State, step: Step, s': State, id: string)
    requires Next(cfg, s, step, s') && !Driven(s, id) && !FailingReport(step, id)
    ensures var e := EffectOf(cfg, s, step); e.Updates? && e.id == id ==> e.write.ToSucceeded?
  {
    if step.MarkStep? || step.RecordStep? {
      assert !HandlerDrives(s.handlers[step.h], id);
    } else if step.PickStep? || step.RecoveryRecordStep? {
      assert !DrivesAt(s.recovery, id, 0);
    }
  }

  lemma UndrivenRowStays(cfg: Config, s: State, step: Step, s': State, id: string)
    requires Next(cfg, s, step, s') && HasSucceeded(s, id) && !Driven(s, id) && !FailingReport(step, id)
    ensures HasSucceeded(s', id)
  {
    NextEffect(cfg, s, step, s');
    UndrivenEffect(cfg, s, step, s', id);
  }

  lemma HandlersStayIdle(cfg: Config, s: State, step: Step, s': State, id: string, h: nat)
    requires Next(cfg, s, step, s') && Moves(step) && HasSucceeded(s, id) && !Driven(s, id)
    requires h in s'.handlers
    ensures !HandlerDrives(s'.handlers[h], id)
  {
    if h in s.handlers {
      assert !HandlerDrives(s.handlers[h], id);
    }
  }

  lemma BatchStaysIdle(cfg: Config, s: State, step: Step, s': State, id: string, j: nat)
    requires Next(cfg, s, step, s') && !Moves(step) && HasSucceeded(s, id) && !Driven(s, id)
    ensures !DrivesAt(s'.recovery, id, j)
  {
    assert !DrivesAt(s.recovery, id, j) && !DrivesAt(s.recovery, id, j + 1);
  }

  lemma OthersKept(cfg: Config, s: State, step: Step, s': State)
    requires Next(cfg, s, step, s')
    ensures Moves(step) ==> s'.recovery == s.recovery
    ensures !Moves(step) ==> forall h :: h in s'.handlers ==> h in s.handlers && s'.handlers[h] == s.handlers[h]
  {
  }

  lemma UndrivenStays(cfg: Config, s: State, step: Step, s': State, id: string)
    requires Next(cfg, s, step, s') && HasSucceeded(s, id) && !Driven(s, id)
    ensures !Driven(s', id)
  {
    OthersKept(cfg, s, step, s');
    forall h | h in s'.handlers
      ensures !HandlerDrives(s'.handlers[h], id)
    {
      if Moves(step) {
        HandlersStayIdle(cfg, s, step, s', id, h);
      }
    }
    forall j: nat
      ensures !DrivesAt(s'.recovery, id, j)
    {
      if !Moves(step) {
        BatchStaysIdle(cfg, s, step, s', id, j);
      }
    }
  }

  ghost predicate NoFailingReport(steps: seq<Step>, id: string) {
    forall step :: step in steps ==> !FailingReport(step, id)
  }

  /** A succeeded row that no one drives stays succeeded, and undriven, until a failing report for it arrives. */
  lemma {:induction false} SucceededStays(cfg: Config, steps: seq<Step>, states: seq<State>, i: nat, id: string)
    requires Continues(cfg, steps, states) && i < |states| && NoFailingReport(steps, id)
    requires HasSucceeded(states[0], id) && !Driven(states[0], id)
    ensures HasSucceeded(states[i], id) && !Driven(states[i], id)
  {
    if i > 0 {
      SucceededStays(cfg, steps, states, i - 1, id);
      StepOf(cfg, steps, states, i - 1);
      assert steps[i - 1] in steps;
      UndrivenRowStays(cfg, states[i - 1], steps[i - 1], states[i], id);
      UndrivenStays(cfg, states[i - 1], steps[i - 1], states[i], id);
    }
  }

  // ---------------------------------------------------------------------------
  // A driver can always overwrite
  // ---------------------------------------------------------------------------

  /** `steps'` continues `steps` without any report from a worker. */
  ghost predicate Prolongs(cfg: Config, steps: seq<Step>, states: seq<State>, steps': seq<Step>, states': seq<State>) {
    && Continues(cfg, steps', states') && steps <= steps' && states <= states'
    && forall k :: |steps| <= k < |steps'| ==> !steps'[k].CallbackStep?
  }

  lemma ProlongsOne(cfg: Config, steps: seq<Step>, states: seq<State>, step: Step, s': State)
    requires Continues(cfg, steps, states) && Next(cfg, states[|steps|], step, s') && !step.CallbackStep?
    ensures Prolongs(cfg, steps, states, steps + [step], states + [s'])
  {
    ContinuesLonger(cfg, steps, states, step, s');
  }

  lemma ProlongsTwice(cfg: Config, steps: seq<Step>, states: seq<State>, steps1: seq<Step>, states1: seq<State>,
                      steps2: seq<Step>, states2: seq<State>)
    requires Prolongs(cfg, steps, states, steps1, states1) && Prolongs(cfg, steps1, states1, steps2, states2)
    ensures Prolongs(cfg, steps, states, steps2, states2)
  {
    forall k | |steps| <= k < |steps2|
      ensures !steps2[k].CallbackStep?
    {
      if k < |steps1| {
        assert steps2[k] == steps1[k];
      }
    }
  }

  lemma MarkOverwrites(cfg: Config, steps: seq<Step>, states: seq<State>, h: nat)
    returns (steps': seq<Step>, states': seq<State>)
    requires Continues(cfg, steps, states) && HandlerAt(states[|steps|], h, HMark)
    requires states[|steps|].clock >= NANOS_PER_MILLI
    requires states[|steps|].handlers[h].request.requestID in states[|steps|].jobs
    ensures Prolongs(cfg, steps, states, steps', states')
    ensures !HasSucceeded(states'[|steps'|], states[|steps|].handlers[h].request.requestID)
  {
    var s := states[|steps|];
    var id, mark := s.handlers[h].request.requestID, MarkStep(h, s.clock, Applied);
    var s1 := Move(Put(s, id, ToDispatching("", At(s.clock + cfg.leaseTTL)), Applied), h, HCall);
    ProlongsOne(cfg, steps, states, mark, s1);
    steps', states' := steps + [mark], states + [s1];
  }

  lemma AwaitOverwrites(cfg: Config, steps: seq<Step>, states: seq<State>, h: nat)
    returns (steps': seq<Step>, states': seq<State>)
    requires Continues(cfg, steps, states) && HandlerAt(states[|steps|], h, HAwait)
    requires states[|steps|].handlers[h].request.requestID in states[|steps|].jobs
    ensures Prolongs(cfg, steps, states, steps', states')
    ensures !HasSucceeded(states'[|steps'|], states[|steps|].handlers[h].request.requestID)
  {
    var back := ReturnStep(h, Errored(""));
    var s1 := Move(states[|steps|], h, HRecord(ToFailed("")));
    ProlongsOne(cfg, steps, states, back, s1);
    steps', states' := RecordRuns(cfg, steps + [back], states + [s1], h, Applied);
    ProlongsTwice(cfg, steps, states, steps + [back], states + [s1], steps', states');
  }

  /** A handler that drives the job can overwrite its row. */
  lemma HandlerOverwrites(cfg: Config, steps: seq<Step>, states: seq<State>, h: nat, id: string)
    returns (steps': seq<Step>, states': seq<State>)
    requires Continues(cfg, steps, states) && BindingOk(cfg, states[|steps|]) && HasSucceeded(states[|steps|], id)
    requires h in states[|steps|].handlers && HandlerDrives(states[|steps|].handlers[h], id)
    ensures Prolongs(cfg, steps, states, steps', states') && !HasSucceeded(states'[|steps'|], id)
  {
    assert HandlerOk(cfg, states[|steps|].jobs, states[|steps|].handlers[h]);
    match states[|steps|].handlers[h].pc
    case HMark => steps', states' := MarkOverwrites(cfg, steps, states, h);
    case HCall => steps', states' := CallRuns(cfg, steps, states, h, Errored(""), Applied);
    case HAwait => steps', states' := AwaitOverwrites(cfg, steps, states, h);
    case HRecord(_) => steps', states' := RecordRuns(cfg, steps, states, h, Applied);
  }

  /** The loop records what it has decided for its head, or loses the write. */
  lemma RecordRunsInLoop(cfg: Config, steps: seq<Step>, states: seq<State>, record: WriteOutcome)
    returns (steps': seq<Step>, states': seq<State>)
    requires Continues(cfg, steps, states)
    requires var r := states[|steps|].recovery; r.Scan? && r.todo != [] && r.turn.TRecord?
    ensures Prolongs(cfg, steps, states, steps', states')
    ensures var s, s' := states[|steps|], states'[|steps'|];
      && s'.jobs == Written(s.jobs, s.recovery.todo[0].id, s.recovery.turn.write, At(s.clock), record)
      && s'.recovery == Scan(s.recovery.now, s.recovery.todo[1..], TPick)
  {
    var s := states[|steps|];
    var s1 := DropHead(Put(s, s.recovery.todo[0].id, s.recovery.turn.write, record));
    ProlongsOne(cfg, steps, states, RecoveryRecordStep(record), s1);
    steps', states' := steps + [RecoveryRecordStep(record)], states + [s1];
  }

  /** From any turn after the pick, the loop can fail the dispatch of its head and record it, or lose the write. */
  lemma TurnRuns(cfg: Config, steps: seq<Step>, states: seq<State>, record: WriteOutcome)
    returns (steps': seq<Step>, states': seq<State>)
    requires Continues(cfg, steps, states) && Inv(cfg, states[|steps|])
    requires var r := states[|steps|].recovery; r.Scan? && r.todo != [] && !r.turn.TPick?
    ensures Prolongs(cfg, steps, states, steps', states')
    ensures var s, s' := states[|steps|], states'[|steps'|];
      && s'.recovery == Scan(s.recovery.now, s.recovery.todo[1..], TPick)
      && exists w: Write ::
           && s'.jobs == Written(s.jobs, s.recovery.todo[0].id, w, At(s.clock), record)
           && (w.ToSucceeded? ==> s.recovery.turn == TRecord(w))
  {
    var s := states[|steps|];
    var w := RecoveryOutcome(s.recovery.todo[0].job, Errored(""));
    match s.recovery.turn
    case TCall =>
      steps', states' := MarkedHeadRuns(cfg, steps, states, Errored(""), record);
    case TAwait =>
      var s1 := Turned(s, TRecord(w));
      ProlongsOne(cfg, steps, states, RecoveryReturnStep(Errored("")), s1);
      steps', states' := RecordRunsInLoop(cfg, steps + [RecoveryReturnStep(Errored(""))], states + [s1], record);
      ProlongsTwice(cfg, steps, states, steps + [RecoveryReturnStep(Errored(""))], states + [s1], steps', states');
    case TRecord(_) =>
      steps', states' := RecordRunsInLoop(cfg, steps, states, record);
  }

  /** The loop can drop its head without changing the table. */
  lemma HeadDrops(cfg: Config, steps: seq<Step>, states: seq<State>) returns (steps': seq<Step>, states': seq<State>)
    requires Continues(cfg, steps, states) && Inv(cfg, states[|steps|])
    requires states[|steps|].recovery.Scan? && states[|steps|].recovery.todo != []
    ensures Prolongs(cfg, steps, states, steps', states')
    ensures var s, s' := states[|steps|], states'[|steps'|];
      s'.jobs == s.jobs && s'.recovery == Scan(s.recovery.now, s.recovery.todo[1..], TPick)
  {
    var s := states[|steps|];
    if s.recovery.turn.TPick? {
      var s1 := PickEffect(cfg, s, Lost);
      ProlongsOne(cfg, steps, states, PickStep(Lost), s1);
      steps', states' := steps + [PickStep(Lost)], states + [s1];
    } else {
      steps', states' := TurnRuns(cfg, steps, states, Lost);
    }
  }

  lemma HeadOverwrites(cfg: Config, steps: seq<Step>, states: seq<State>, id: string)
    returns (steps': seq<Step>, states': seq<State>)
    requires Continues(cfg, steps, states) && Inv(cfg, states[|steps|]) && HasSucceeded(states[|steps|], id)
    requires DrivesAt(states[|steps|].recovery, id, 0)
    ensures Prolongs(cfg, steps, states, steps', states') && !HasSucceeded(states'[|steps'|], id)
  {
    var s := states[|steps|];
    if s.recovery.turn.TPick? {
      var s1 := PickEffect(cfg, s, Applied);
      ProlongsOne(cfg, steps, states, PickStep(Applied), s1);
      PickRewrites(cfg, s, PickStep(Applied), s1);
      steps', states' := steps + [PickStep(Applied)], states + [s1];
    } else {
      steps', states' := TurnRuns(cfg, steps, states, Applied);
    }
  }

  /** A batch that holds the job can overwrite its row, after dropping the heads before it. */
  lemma {:induction false} BatchOverwrites(cfg: Config, steps: seq<Step>, states: seq<State>, id: string, j: nat)
    returns (steps': seq<Step>, states': seq<State>)
    requires ValidConfig(cfg) && Continues(cfg, steps, states) && Inv(cfg, states[0])
    requires HasSucceeded(states[|steps|], id) && DrivesAt(states[|steps|].recovery, id, j)
    ensures Prolongs(cfg, steps, states, steps', states') && !HasSucceeded(states'[|steps'|], id)
    decreases j
  {
    ContinuesKeepsInv(cfg, steps, states, |steps|);
    if j == 0 {
      steps', states' := HeadOverwrites(cfg, steps, states, id);
    } else {
      var steps1, states1 := HeadDrops(cfg, steps, states);
      assert states1[0] == states[0];
      steps', states' := BatchOverwrites(cfg, steps1, states1, id, j - 1);
      ProlongsTwice(cfg, steps, states, steps1, states1, steps', states');
    }
  }

  /** A driver can always overwrite a succeeded row, without any report from a worker. */
  lemma DrivenCanOverwrite(cfg: Config, s: State, id: string) returns (steps: seq<Step>, states: seq<State>)
    requires ValidConfig(cfg) && Inv(cfg, s) && HasSucceeded(s, id) && Driven(s, id)
    ensures Continues(cfg, steps, states) && states[0] == s && NoFailingReport(steps, id)
    ensures !HasSucceeded(states[|steps|], id)
  {
    if h :| h in s.handlers && HandlerDrives(s.handlers[h], id) {
      steps, states := HandlerOverwrites(cfg, [], [s], h, id);
    } else {
      var j: nat :| DrivesAt(s.recovery, id, j);
      steps, states := BatchOverwrites(cfg, [], [s], id, j);
    }
  }

  /** Whatever happens next, short of a failing report, the row stays succeeded. */
  ghost predicate IsFinal(cfg: Config, s: State, id: string) {
    forall steps, states ::
      Continues(cfg, steps, states) && states[0] == s && NoFailingReport(steps, id) ==>
          HasSucceeded(states[|steps|], id)
  }

  /** In every reachable state: a succeeded row is final exactly when no handler and no batch still drives its job. */
  lemma SucceededIsFinalIff(cfg: Config, before: seq<Step>, run: seq<State>, i: nat, id: string)
    requires ValidConfig(cfg) && Run(cfg, before, run) && i < |run| && HasSucceeded(run[i], id)
    ensures IsFinal(cfg, run[i], id) <==> !Driven(run[i], id)
  {
    if Driven(run[i], id) {
      RunKeepsInv(cfg, before, run, i);
      var steps, states := DrivenCanOverwrite(cfg, run[i], id);
    } else {
      forall steps, states: seq<State> | Continues(cfg, steps, states) && states[0] == run[i]
          && NoFailingReport(steps, id)
        ensures HasSucceeded(states[|steps|], id)
      {
        SucceededStays(cfg, steps, states, |steps|, id);
      }
    }
  }

  /** A failing report that reaches the table always overwrites, driven or not. */
  lemma FailingReportOverwrites(cfg: Config, s: State, step: Step, s': State, id: string)
    requires Next(cfg, s, step, s') && FailingReport(step, id) && HasSucceeded(s, id)
    ensures id in s'.jobs && s'.jobs[id].status.Failed? && s'.jobs[id].response == s.jobs[id].response
  {
  }

  // ---------------------------------------------------------------------------
  // A run that overwrites success
  // ---------------------------------------------------------------------------

  /** One request is stored, and recovery lists it before anything else happens. */
  lemma StoredAndListed(cfg: Config, route: Route, r: ExecutionRequest)
    returns (steps: seq<Step>, states: seq<State>)
    requires ValidConfig(cfg)
    ensures Run(cfg, steps, states) && |steps| == 3
    ensures var s, job := states[3], NewJob(r, Fingerprint(cfg.hash, r), cfg.jobMaxAttempts, At(NANOS_PER_MILLI));
      && s.jobs == map[r.requestID := job] && s.clock == NANOS_PER_MILLI
      && s.recovery == Scan(NANOS_PER_MILLI, [Snapshot(r.requestID, job)], TPick)
      && s.handlers == map[0 := Handler(route, r, if route.Execute? then HMark else HDone(Accepted))]
      && s.executed == if route.Execute? then {r.requestID} else {}
  {
    var job := NewJob(r, Fingerprint(cfg.hash, r), cfg.jobMaxAttempts, At(NANOS_PER_MILLI));
    var s0 := State(map[], NANOS_PER_MILLI, map[], Idle, multiset{}, multiset{}, [], {}, {});
    var s1 := Arrive(s0, 0, route, r);
    var s2 := CreateEffect(cfg, s1, 0, Applied);
    assert s2.jobs == map[r.requestID := job];
    assert IsBatch(s2.jobs, 1, cfg.batchSize, [r.requestID]);
    var s3 := s2.(recovery := Scan(NANOS_PER_MILLI, Snapshots(s2.jobs, [r.requestID]), TPick));
    steps, states := [], [s0];
    ContinuesLonger(cfg, steps, states, ArriveStep(0, route, r), s1);
    steps, states := [ArriveStep(0, route, r)], [s0, s1];
    ContinuesLonger(cfg, steps, states, CreateStep(0, Applied), s2);
    steps, states := steps + [CreateStep(0, Applied)], states + [s2];
    ContinuesLonger(cfg, steps, states, ScanStep(NANOS_PER_MILLI, [r.requestID]), s3);
    steps, states := steps + [ScanStep(NANOS_PER_MILLI, [r.requestID])], states + [s3];
  }

  /** Succeeded is not absorbing: status updates carry no status guard, so recovery's stale
  snapshot overwrites a completion callback. The response survives (`RunGrows`). */
  lemma SucceededIsOverwritten(cfg: Config, r: ExecutionRequest, response: ExecutionResponse)
    returns (steps: seq<Step>, states: seq<State>)
    requires ValidConfig(cfg)
    ensures Run(cfg, steps, states) && |steps| == 5
    ensures r.requestID in states[4].jobs && states[4].jobs[r.requestID].status.Succeeded?
    ensures r.requestID in states[5].jobs && states[5].jobs[r.requestID].status.Dispatching?
    ensures states[5].jobs[r.requestID].response == Some(response)
  {
    steps, states := StoredAndListed(cfg, Submit, r);
    var s4 := Put(states[3], r.requestID, ToSucceeded(response), Applied);
    assert Next(cfg, states[3], CallbackStep(r.requestID, Returned(response), Applied), s4);
    ContinuesLonger(cfg, steps, states, CallbackStep(r.requestID, Returned(response), Applied), s4);
    steps, states := steps + [CallbackStep(r.requestID, Returned(response), Applied)], states + [s4];
    var s5 := PickEffect(cfg, s4, Applied);
    ContinuesLonger(cfg, steps, states, PickStep(Applied), s5);
    steps, states := steps + [PickStep(Applied)], states + [s5];
  }

  // ---------------------------------------------------------------------------
  // The attempt bound
  // ---------------------------------------------------------------------------

  /** The only row is that of `r`, after `n` failed recoveries; its execute handler has yet to mark it. */
  ghost predicate Parked(cfg: Config, r: ExecutionRequest, n: nat, s: State) {
    && s.clock == NANOS_PER_MILLI && s.recovery.Idle? && s.handlers == map[0 := Handler(Execute, r, HMark)]
    && s.jobs.Keys == {r.requestID}
    && var job := s.jobs[r.requestID];
       && job.attempt == n <= job.maxAttempts
       && job.maxAttempts == NewJob(r, "", cfg.jobMaxAttempts, Zero).maxAttempts
       && job.status == if n < job.maxAttempts then Queued else Failed
  }

  lemma OnlyRowIsBatch(jobs: Jobs, id: string, limit: nat)
    requires jobs.Keys == {id} && jobs[id].status.Queued? && limit > 0
    ensures IsBatch(jobs, 1, limit, [id])
  {
  }

  /** One recovery scan whose dispatch fails. */
  lemma FailedScan(cfg: Config, steps: seq<Step>, states: seq<State>, r: ExecutionRequest, n: nat)
    returns (steps': seq<Step>, states': seq<State>)
    requires ValidConfig(cfg) && Continues(cfg, steps, states) && Parked(cfg, r, n, states[|steps|])
    requires states[|steps|].jobs[r.requestID].status.Queued?
    ensures Continues(cfg, steps', states') && states <= states' && Parked(cfg, r, n + 1, states'[|steps'|])
  {
    var s := states[|steps|];
    var id := r.requestID;
    OnlyRowIsBatch(s.jobs, id, cfg.batchSize);
    var s1 := s.(recovery := Scan(s.clock, Snapshots(s.jobs, [id]), TPick));
    ContinuesLonger(cfg, steps, states, ScanStep(s.clock, [id]), s1);
    steps', states' := HeadRuns(cfg, steps + [ScanStep(s.clock, [id])], states + [s1], Applied, Errored(""), Applied);
    var s2 := states'[|steps'|];
    ListedIsSettled(s.jobs, id, At(s.clock), At(s.clock + cfg.leaseTTL), AttemptNow(s1, Applied, Errored(""), Applied));
    ContinuesLonger(cfg, steps', states', EndScanStep, s2.(recovery := Idle));
    steps', states' := steps' + [EndScanStep], states' + [s2.(recovery := Idle)];
  }

  lemma {:induction false} FailedScans(cfg: Config, r: ExecutionRequest, n: nat)
    returns (steps: seq<Step>, states: seq<State>)
    requires ValidConfig(cfg) && n <= NewJob(r, "", cfg.jobMaxAttempts, Zero).maxAttempts
    ensures Run(cfg, steps, states) && Parked(cfg, r, n, states[|steps|])
  {
    if n == 0 {
      var s0 := State(map[], NANOS_PER_MILLI, map[], Idle, multiset{}, multiset{}, [], {}, {});
      var s1 := Arrive(s0, 0, Execute, r);
      var s2 := CreateEffect(cfg, s1, 0, Applied);
      ContinuesLonger(cfg, [], [s0], ArriveStep(0, Execute, r), s1);
      ContinuesLonger(cfg, [] + [ArriveStep(0, Execute, r)], [s0] + [s1], CreateStep(0, Applied), s2);
      steps, states := [] + [ArriveStep(0, Execute, r)] + [CreateStep(0, Applied)], [s0] + [s1] + [s2];
    } else {
      steps, states := FailedScans(cfg, r, n - 1);
      steps, states := FailedScan(cfg, steps, states, r, n - 1);
    }
  }

  /** The attempt bound needs its condition, for every configuration and every request: an ID sent to /api/v1/execute
  is visible to recovery before its handler marks it, recovery may use up every attempt, and the handler then takes
  one more. */
  lemma MixedDriversExceedMax(cfg: Config, r: ExecutionRequest) returns (steps: seq<Step>, states: seq<State>)
    requires ValidConfig(cfg)
    ensures Run(cfg, steps, states)
    ensures var id, s := r.requestID, states[|steps|];
      id in s.jobs && s.jobs[id].attempt > s.jobs[id].maxAttempts
  {
    steps, states := FailedScans(cfg, r, NewJob(r, "", cfg.jobMaxAttempts, Zero).maxAttempts);
    var s := states[|steps|];
    var mark := MarkStep(0, s.clock, Applied);
    var s' := Move(Put(s, r.requestID, ToDispatching("", At(s.clock + cfg.leaseTTL)), Applied), 0, HCall);
    ContinuesLonger(cfg, steps, states, mark, s');
    steps, states := steps + [mark], states + [s'];
  }
}
