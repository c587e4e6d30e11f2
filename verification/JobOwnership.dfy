/** Who may execute a job: what a repeated execute does while the job is unfinished, and what tells requests apart.

The lemmas speak of runs of the job machine, of statuses and of request fields, and not of
the functions that decide.
*/
module JobOwnership {
  import opened Text
  import opened JobStore
  import opened JobMachine

  // ---------------------------------------------------------------------------
  // Unfinished jobs
  // ---------------------------------------------------------------------------

  /** Not yet finished, or of unknown outcome. */
  predicate Unfinished(job: Job) {
    job.status == Queued || job.status == Dispatching || job.status == Running || job.status == Ambiguous
  }

  /** Reading an unfinished row ends the handler; an equal execute request is told that it is in progress. */
  lemma UnfinishedRefuses(cfg: Config, s: State, h: nat, ok: bool, s': State)
    requires Next(cfg, s, ReadStep(h, ok), s')
    requires var id := s.handlers[h].request.requestID; id in s.jobs && Unfinished(s.jobs[id])
    ensures s'.jobs == s.jobs && s'.dispatches == s.dispatches && s'.dispatched == s.dispatched
    ensures h in s'.handlers && s'.handlers[h].pc.HDone?
    ensures var hd := s.handlers[h];
      ok && hd.route.Execute? && s.jobs[hd.request.requestID].fingerprint == Fingerprint(cfg.hash, hd.request) ==>
        s'.handlers[h].pc == HDone(InProgress)
  {
  }

  lemma DoneStays(cfg: Config, s: State, step: Step, s': State, h: nat)
    requires Next(cfg, s, step, s') && h in s.handlers && s.handlers[h].pc.HDone?
    ensures !(Moves(step) && step.h == h)
    ensures !step.CrashStep? ==> h in s'.handlers && s'.handlers[h] == s.handlers[h]
  {
  }

  /** A handler that reads an unfinished row changes no row and dispatches nothing, then or at any later time. */
  lemma {:induction false} UnfinishedReaderIsInert(cfg: Config, steps: seq<Step>, states: seq<State>, i: nat, j: nat,
                                                   h: nat)
    requires Continues(cfg, steps, states) && i <= j < |steps| && steps[i].ReadStep? && steps[i].h == h
    requires h in states[i].handlers
    requires var id := states[i].handlers[h].request.requestID; id in states[i].jobs && Unfinished(states[i].jobs[id])
    requires forall k :: i < k <= j ==> !steps[k].CrashStep?
    ensures states[i + 1].jobs == states[i].jobs && states[i + 1].dispatches == states[i].dispatches
    ensures h in states[j + 1].handlers && states[j + 1].handlers[h].pc.HDone?
    ensures i < j ==> !(Moves(steps[j]) && steps[j].h == h)
    decreases j
  {
    StepOf(cfg, steps, states, j);
    if i == j {
      UnfinishedRefuses(cfg, states[i], h, steps[i].ok, states[i + 1]);
    } else {
      UnfinishedReaderIsInert(cfg, steps, states, i, j - 1, h);
      DoneStays(cfg, states[j], steps[j], states[j + 1], h);
    }
  }

  /** The handler is about to mark the row and dispatch. */
  predicate TakesOver(s: State, h: nat) {
    h in s.handlers && s.handlers[h].pc.HMark?
  }

  /** A handler takes over a new ID, or the failed row of an equal request that has an attempt left. */
  lemma TakeoverCause(cfg: Config, s: State, step: Step, s': State, h: nat)
    requires Next(cfg, s, step, s') && TakesOver(s', h) && !TakesOver(s, h)
    requires forall id :: id in s.jobs ==> s.jobs[id].maxAttempts > 0
    ensures var r := s'.handlers[h].request;
      || r.requestID !in s.jobs
      || (var job := s.jobs[r.requestID];
          && job.status == Failed && job.attempt < job.maxAttempts && job.fingerprint == Fingerprint(cfg.hash, r))
  {
    assert step.CreateStep? || step.ReadStep?;
  }

  /** In every run: once an ID has a row, a handler takes it over only at a moment when the row has failed with an
  attempt left. So between a handler's mark and its record no other handler takes over, unless the row failed in
  between. */
  lemma TakeoverNeedsFailure(cfg: Config, steps: seq<Step>, states: seq<State>, i: nat, j: nat, h: nat, id: string)
    requires ValidConfig(cfg) && Run(cfg, steps, states) && i <= j < |steps| && id in states[i].jobs
    requires TakesOver(states[j + 1], h) && !TakesOver(states[j], h)
          && states[j + 1].handlers[h].request.requestID == id
    ensures id in states[j].jobs && states[j].jobs[id].status == Failed
    ensures states[j].jobs[id].attempt < states[j].jobs[id].maxAttempts
  {
    RunKeepsInv(cfg, steps, states, j);
    RunGrows(cfg, steps, states, i, j);
    StepOf(cfg, steps, states, j);
    assert forall id :: id in states[j].jobs ==> RowOk(cfg, id, states[j].jobs[id]);
    TakeoverCause(cfg, states[j], steps[j], states[j + 1], h);
  }

  // ---------------------------------------------------------------------------
  // Different requests under one ID
  // ---------------------------------------------------------------------------

  /** In every run: a handler whose request differs from its ID's row in any identity field changes no row and
  dispatches nothing. */
  lemma ForeignRequestIsInert(cfg: Config, steps: seq<Step>, states: seq<State>, i: nat)
    requires ValidConfig(cfg) && Run(cfg, steps, states) && i < |steps| && Injective(cfg.hash)
    requires Moves(steps[i]) && steps[i].h in states[i].handlers
    requires var r := states[i].handlers[steps[i].h].request;
      r.requestID in states[i].jobs && !SameExecution(r, states[i].jobs[r.requestID].request)
    ensures states[i + 1].jobs == states[i].jobs && states[i + 1].dispatches == states[i].dispatches
  {
    RunKeepsInv(cfg, steps, states, i);
    StepOf(cfg, steps, states, i);
    var s := states[i];
    var r := s.handlers[steps[i].h].request;
    assert RowOk(cfg, r.requestID, s.jobs[r.requestID]);
    FingerprintSeparates(cfg.hash, r, s.jobs[r.requestID].request);
    ForeignFingerprintIsInert(cfg, s, steps[i], states[i + 1]);
  }

  /** In every run: whatever was ever dispatched under an ID agrees with the ID's row in every identity field. */
  lemma DispatchesAreSameExecution(cfg: Config, steps: seq<Step>, states: seq<State>, i: nat, k: nat)
    requires ValidConfig(cfg) && Run(cfg, steps, states) && i < |states| && Injective(cfg.hash)
    requires k < |states[i].dispatched|
    ensures var r := states[i].dispatched[k];
      r.requestID in states[i].jobs && SameExecution(r, states[i].jobs[r.requestID].request)
  {
    RunKeepsInv(cfg, steps, states, i);
    var s, r := states[i], states[i].dispatched[k];
    assert Bound(cfg, s.jobs, r);
    assert RowOk(cfg, r.requestID, s.jobs[r.requestID]);
    FingerprintSeparates(cfg.hash, r, s.jobs[r.requestID].request);
  }
}
