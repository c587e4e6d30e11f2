/** The execute, submit and completion handlers as the sequential code they are.

Models the decisions and store or tracker calls of internal/master/gateway.go. Every store
call may fail. `UndisturbedExecute` shows that the durable path is a run of the job
machine, in which everything else may touch the table between any two of its steps.
*/
module Gateway {
  import opened Text
  import opened JobStore
  import opened JobMachine
  import opened StoreCalls
  import RequestTracker
  import TrackerProtocol

  // ---------------------------------------------------------------------------
  // With a job store
  // ---------------------------------------------------------------------------

  /** What the environment does to the first half of a handler: whether the fingerprint can be computed, the fate of
  the insertion, and whether an existing row can be read. */
  datatype Start = Start(fingerprinted: bool, create: WriteOutcome, read: bool)

  /** What a handler does first: own the attempt (HMark), or answer. */
  function FirstDecision(cfg: Config, jobs: Jobs, route: Route, r: ExecutionRequest, b: Start): HandlerPc {
    if !b.fingerprinted then HDone(BadRequest)
    else if !b.create.Applied? then HDone(Unavailable)
    else if r.requestID !in jobs then (if route.Execute? then HMark else HDone(Accepted))
    else if !b.read then HDone(Unavailable)
    else AfterRead(cfg, Handler(route, r, HRead), jobs[r.requestID])
  }

  function Created(cfg: Config, jobs: Jobs, r: ExecutionRequest, now: Time, b: Start): Jobs {
    if !b.fingerprinted || b.create.Lost? || r.requestID in jobs then jobs
    else jobs[r.requestID := NewJob(r, Fingerprint(cfg.hash, r), cfg.jobMaxAttempts, now)]
  }

  /** What Create reports. */
  datatype CreateResult = Inserted | Exists | CreateError

  method TryCreate(store: SQLiteJobStore, id: string, job: Job, o: WriteOutcome) returns (result: CreateResult)
    modifies store
    ensures store.jobs == if o.Lost? || id in old(store.jobs) then old(store.jobs) else old(store.jobs)[id := job]
    ensures result == if !o.Applied? then CreateError else if id in old(store.jobs) then Exists else Inserted
  {
    if o.Lost? {
      return CreateError;
    }
    var created := store.Create(id, job);
    return if !o.Applied? then CreateError else if created then Inserted else Exists;
  }

  method BeginDurableJob(store: SQLiteJobStore, cfg: Config, r: ExecutionRequest, now: Time, b: Start)
    returns (pc: HandlerPc)
    modifies store
    ensures store.jobs == Created(cfg, old(store.jobs), r, now, b)
    ensures pc == FirstDecision(cfg, old(store.jobs), Execute, r, b)
    ensures b == Start(true, Applied, true) && r.requestID in old(store.jobs) ==>
      && store.jobs == old(store.jobs)
      && var row := old(store.jobs)[r.requestID];
         if row.fingerprint != Fingerprint(cfg.hash, r) then pc == HDone(IdConflict)
         else
           && (row.status in {Queued, Dispatching, Running, Ambiguous} ==> pc == HDone(InProgress))
           && (row.status == Succeeded && row.response.Some? ==> pc == HDone(Replayed(row.response.value)))
           && (row.status == Failed && row.maxAttempts > 0 ==>
                 pc == if row.attempt >= row.maxAttempts then HDone(OutOfAttempts) else HMark)
  {
    if !b.fingerprinted {
      return HDone(BadRequest);
    }
    var fingerprint := Fingerprint(cfg.hash, r);
    var created := TryCreate(store, r.requestID, NewJob(r, fingerprint, cfg.jobMaxAttempts, now), b.create);
    if created.Inserted? {
      return HMark;
    } else if created.CreateError? {
      return HDone(Unavailable);
    }
    var found := store.Get(r.requestID);
    if !b.read {
      return HDone(Unavailable);
    }
    var existing := found.value;
    if existing.fingerprint != fingerprint {
      return HDone(IdConflict);
    }
    match existing.status {
      case Succeeded =>
        if existing.response.None? {
          return HDone(NoStoredResponse);
        }
        return HDone(Replayed(existing.response.value));
      case Queued | Dispatching | Running =>
        return HDone(InProgress);
      case Failed =>
        if existing.maxAttempts > 0 && existing.attempt >= existing.maxAttempts {
          return HDone(OutOfAttempts);
        }
        return HMark;
      case Ambiguous =>
        return HDone(InProgress);
    }
  }

  method CreateQueuedJob(store: SQLiteJobStore, cfg: Config, r: ExecutionRequest, now: Time, b: Start)
    returns (pc: HandlerPc)
    modifies store
    ensures store.jobs == Created(cfg, old(store.jobs), r, now, b)
    ensures pc == FirstDecision(cfg, old(store.jobs), Submit, r, b)
    ensures b == Start(true, Applied, true) ==>
              pc == if r.requestID !in old(store.jobs) then HDone(Accepted)
                    else if old(store.jobs)[r.requestID].fingerprint == Fingerprint(cfg.hash, r) then HDone(Existing)
                    else HDone(IdConflict)
  {
    if !b.fingerprinted {
      return HDone(BadRequest);
    }
    var fingerprint := Fingerprint(cfg.hash, r);
    var created := TryCreate(store, r.requestID, NewJob(r, fingerprint, cfg.jobMaxAttempts, now), b.create);
    if created.Inserted? {
      return HDone(Accepted);
    } else if created.CreateError? {
      return HDone(Unavailable);
    }
    var existing := store.Get(r.requestID);
    if !b.read {
      return HDone(Unavailable);
    }
    if existing.value.fingerprint != fingerprint {
      return HDone(IdConflict);
    }
    return HDone(Existing);
  }

  /** The table after an attempt on a row that exists. */
  function Attempted(jobs: Jobs, id: string, leaseUntil: Time, a: Attempt): Jobs {
    var marked := Written(jobs, id, ToDispatching("", leaseUntil), a.markedAt, a.mark);
    if a.mark.Applied? then Written(marked, id, HandlerOutcome(a.result), a.recordedAt, a.record) else marked
  }

  function AttemptReply(a: Attempt): Reply {
    if a.mark.Applied? then AfterRecord(HandlerOutcome(a.result), a.record.Applied?) else Unavailable
  }

  /** The table after a whole execute call that nothing else disturbs. */
  function Executed(cfg: Config, jobs: Jobs, r: ExecutionRequest, now: Time, b: Start, leaseUntil: Time,
                    a: Attempt): Jobs
  {
    var created := Created(cfg, jobs, r, now, b);
    if FirstDecision(cfg, jobs, Execute, r, b) == HMark then Attempted(created, r.requestID, leaseUntil, a) else created
  }

  function FinalReply(cfg: Config, jobs: Jobs, r: ExecutionRequest, b: Start, a: Attempt): HandlerPc {
    var first := FirstDecision(cfg, jobs, Execute, r, b);
    if first == HMark then HDone(AttemptReply(a)) else first
  }

  method HandleDurableExecute(store: SQLiteJobStore, cfg: Config, r: ExecutionRequest, now: Time, b: Start,
                              leaseUntil: Time, a: Attempt)
    returns (pc: HandlerPc)
    modifies store
    ensures store.jobs == Executed(cfg, old(store.jobs), r, now, b, leaseUntil, a)
    ensures pc == FinalReply(cfg, old(store.jobs), r, b, a)
    ensures b == Start(true, Applied, true) && r.requestID !in old(store.jobs) ==>
              pc == if a.mark.Applied? && a.result.Returned? && a.record.Applied?
                    then HDone(Answered(a.result.response)) else HDone(Unavailable)
  {
    pc := BeginDurableJob(store, cfg, r, now, b);
    if pc != HMark {
      return;
    }
    var ok := Update(store, r.requestID, ToDispatching("", leaseUntil), a.markedAt, a.mark);
    if !ok {
      return HDone(Unavailable);
    }
    match a.result {
      case Errored(reason) =>
        ok := Update(store, r.requestID, ToFailed(reason), a.recordedAt, a.record);
        return HDone(Unavailable);
      case Returned(response) =>
        ok := Update(store, r.requestID, ToSucceeded(response), a.recordedAt, a.record);
        if !ok {
          return HDone(Unavailable);
        }
        return HDone(Answered(response));
    }
  }

  method HandleJobCompletion(store: SQLiteJobStore, id: string, workerID: string, report: DispatchResult, clock: Time,
                             o: WriteOutcome)
    returns (ok: bool)
    modifies store
    ensures ok <==> o.Applied? && id in old(store.jobs)
    ensures store.jobs == Written(old(store.jobs), id, HandlerOutcome(Reported(id, workerID, report)), clock, o)
  {
    match report {
      case Returned(reported) =>
        var response := reported.(requestID := id);
        if response.executedOnNodeID == "" {
          response := response.(executedOnNodeID := workerID);
        }
        ok := Update(store, id, ToSucceeded(response), clock, o);
      case Errored(reason) =>
        ok := Update(store, id, ToFailed(reason), clock, o);
    }
  }

  /** A worker's report as it is stored: the ID is the job's, and the node defaults to the reporting worker. */
  function Reported(id: string, workerID: string, report: DispatchResult): (r: DispatchResult)
    ensures r.Returned? <==> report.Returned?
    ensures r.Returned? ==> r.response.requestID == id && r.response.result == report.response.result
    ensures r.Returned? && report.response.executedOnNodeID != "" ==>
              r.response.executedOnNodeID == report.response.executedOnNodeID
    ensures r.Returned? && report.response.executedOnNodeID == "" ==> r.response.executedOnNodeID == workerID
    ensures r.Errored? ==> r == report
  {
    match report
    case Errored(_) => report
    case Returned(reported) =>
      var node := if reported.executedOnNodeID == "" then workerID else reported.executedOnNodeID;
      Returned(reported.(requestID := id, executedOnNodeID := node))
  }

  // ---------------------------------------------------------------------------
  // Repeating a request
  // ---------------------------------------------------------------------------

  /** Repeating a request that succeeded replays its response, whatever the token, and a request under the same ID that
  differs in any identity field is refused; neither changes anything, whatever fails. */
  lemma RepeatReplays(cfg: Config, jobs: Jobs, r: ExecutionRequest, now: Time, b: Start, leaseUntil: Time, a: Attempt,
                      again: ExecutionRequest, now2: Time, b2: Start, leaseUntil2: Time, a2: Attempt)
    requires r.requestID == again.requestID && FirstDecision(cfg, jobs, Execute, r, b) == HMark
    requires a.mark.Applied? && a.result.Returned? && !a.record.Lost? && Injective(cfg.hash)
    ensures var after := Executed(cfg, jobs, r, now, b, leaseUntil, a);
      && Executed(cfg, after, again, now2, b2, leaseUntil2, a2) == after
      && (b2 == Start(true, Applied, true) ==>
            FinalReply(cfg, after, again, b2, a2) ==
              if SameExecution(again, r) then HDone(Replayed(a.result.response)) else HDone(IdConflict))
  {
    FingerprintSeparates(cfg.hash, again, r);
  }

  /** A failed execute may be repeated exactly until its attempts are used up, and each repeat costs one. */
  lemma RepeatAfterFailure(cfg: Config, jobs: Jobs, r: ExecutionRequest, now: Time, b: Start, leaseUntil: Time,
                           a: Attempt)
    requires FirstDecision(cfg, jobs, Execute, r, b) == HMark
    requires a.mark.Applied? && a.result.Errored? && !a.record.Lost?
    requires forall id :: id in jobs ==> jobs[id].maxAttempts > 0
    ensures var id, after := r.requestID, Executed(cfg, jobs, r, now, b, leaseUntil, a);
      && id in after && after[id].status == Failed
      && after[id].attempt == (if id in jobs then jobs[id].attempt else 0) + 1 <= after[id].maxAttempts
      && FirstDecision(cfg, after, Execute, r, Start(true, Applied, true)) ==
           if after[id].attempt == after[id].maxAttempts then HDone(OutOfAttempts) else HMark
  {
  }

  // ---------------------------------------------------------------------------
  // The same in the machine
  // ---------------------------------------------------------------------------

  /** A handler that owns the attempt marks it and, if that went through, calls the dispatcher and records. */
  lemma AttemptRuns(cfg: Config, steps: seq<Step>, states: seq<State>, h: nat, a: Attempt)
    returns (steps': seq<Step>, states': seq<State>)
    requires Continues(cfg, steps, states) && HandlerAt(states[|steps|], h, HMark)
    requires states[|steps|].clock >= NANOS_PER_MILLI
    requires states[|steps|].handlers[h].request.requestID in states[|steps|].jobs
    requires a.markedAt == a.recordedAt == At(states[|steps|].clock)
    ensures Continues(cfg, steps', states') && states <= states'
    ensures var s, s' := states[|steps|], states'[|steps'|];
      && s'.jobs == Attempted(s.jobs, s.handlers[h].request.requestID, At(s.clock + cfg.leaseTTL), a)
      && HandlerAt(s', h, HDone(AttemptReply(a)))
  {
    var s := states[|steps|];
    var id := s.handlers[h].request.requestID;
    var mark := MarkStep(h, s.clock, a.mark);
    var s1 := Move(Put(s, id, ToDispatching("", At(s.clock + cfg.leaseTTL)), a.mark), h,
                   if a.mark.Applied? then HCall else HDone(Unavailable));
    ContinuesLonger(cfg, steps, states, mark, s1);
    steps', states' := steps + [mark], states + [s1];
    if a.mark.Applied? {
      steps', states' := CallRuns(cfg, steps', states', h, a.result, a.record);
    }
  }

  lemma CallRuns(cfg: Config, steps: seq<Step>, states: seq<State>, h: nat, result: DispatchResult,
                 record: WriteOutcome)
    returns (steps': seq<Step>, states': seq<State>)
    requires Continues(cfg, steps, states) && HandlerAt(states[|steps|], h, HCall)
    requires states[|steps|].handlers[h].request.requestID in states[|steps|].jobs
    ensures Continues(cfg, steps', states') && states <= states' && steps <= steps'
    ensures forall k :: |steps| <= k < |steps'| ==> !steps'[k].CallbackStep?
    ensures var s, s' := states[|steps|], states'[|steps'|];
      && s'.jobs == Written(s.jobs, s.handlers[h].request.requestID, HandlerOutcome(result), At(s.clock), record)
      && HandlerAt(s', h, HDone(AfterRecord(HandlerOutcome(result), record.Applied?)))
  {
    var s := states[|steps|];
    var s1 := Move(CallDispatcher(s, s.handlers[h].request), h, HAwait);
    ContinuesLonger(cfg, steps, states, CallStep(h), s1);
    var s2 := Move(s1, h, HRecord(HandlerOutcome(result)));
    ContinuesLonger(cfg, steps + [CallStep(h)], states + [s1], ReturnStep(h, result), s2);
    steps', states' := RecordRuns(cfg, steps + [CallStep(h)] + [ReturnStep(h, result)], states + [s1] + [s2], h,
                                  record);
  }

  lemma RecordRuns(cfg: Config, steps: seq<Step>, states: seq<State>, h: nat, record: WriteOutcome)
    returns (steps': seq<Step>, states': seq<State>)
    requires Continues(cfg, steps, states) && h in states[|steps|].handlers && states[|steps|].handlers[h].pc.HRecord?
    requires states[|steps|].handlers[h].request.requestID in states[|steps|].jobs
    ensures Continues(cfg, steps', states') && states <= states' && steps <= steps'
    ensures forall k :: |steps| <= k < |steps'| ==> !steps'[k].CallbackStep?
    ensures var s, s', hd := states[|steps|], states'[|steps'|], states[|steps|].handlers[h];
      && s'.jobs == Written(s.jobs, hd.request.requestID, hd.pc.write, At(s.clock), record)
      && HandlerAt(s', h, HDone(AfterRecord(hd.pc.write, record.Applied?)))
  {
    var s := states[|steps|];
    var id, w := s.handlers[h].request.requestID, s.handlers[h].pc.write;
    var s1 := Move(Put(s, id, w, record), h, HDone(AfterRecord(w, Sees(s, id, record))));
    ContinuesLonger(cfg, steps, states, RecordStep(h, record), s1);
    steps', states' := steps + [RecordStep(h, record)], states + [s1];
  }

  /** Arrival and creation, then a read if the row existed: the handler reaches its first decision. */
  lemma DecisionReached(cfg: Config, s: State, h: nat, r: ExecutionRequest, b: Start)
    returns (steps: seq<Step>, states: seq<State>)
    requires h !in s.handlers && b.fingerprinted
    ensures Continues(cfg, steps, states) && states[0] == s
    ensures var s' := states[|steps|];
      && h in s'.handlers && s'.handlers[h] == Handler(Execute, r, FirstDecision(cfg, s.jobs, Execute, r, b))
      && s'.jobs == Created(cfg, s.jobs, r, At(s.clock), b) && s'.clock == s.clock
  {
    var s1 := Arrive(s, h, Execute, r);
    ContinuesLonger(cfg, [], [s], ArriveStep(h, Execute, r), s1);
    var s2 := CreateEffect(cfg, s1, h, b.create);
    ContinuesLonger(cfg, [] + [ArriveStep(h, Execute, r)], [s] + [s1], CreateStep(h, b.create), s2);
    steps, states := [] + [ArriveStep(h, Execute, r)] + [CreateStep(h, b.create)], [s] + [s1] + [s2];
    if r.requestID in s.jobs && b.create.Applied? {
      var s3 := Move(s2, h, if b.read then AfterRead(cfg, s2.handlers[h], s2.jobs[r.requestID])
                     else HDone(Unavailable));
      ContinuesLonger(cfg, steps, states, ReadStep(h, b.read), s3);
      steps, states := steps + [ReadStep(h, b.read)], states + [s3];
    }
  }

  /** The sequential execute, whatever it decides and whatever fails, is a run of the machine. */
  lemma UndisturbedExecute(cfg: Config, s: State, h: nat, r: ExecutionRequest, b: Start, a: Attempt)
    returns (steps: seq<Step>, states: seq<State>)
    requires h !in s.handlers && s.clock >= NANOS_PER_MILLI && b.fingerprinted
    requires a.markedAt == a.recordedAt == At(s.clock)
    ensures Continues(cfg, steps, states) && states[0] == s
    ensures states[|steps|].jobs == Executed(cfg, s.jobs, r, At(s.clock), b, At(s.clock + cfg.leaseTTL), a)
    ensures HandlerAt(states[|steps|], h, FinalReply(cfg, s.jobs, r, b, a))
  {
    steps, states := DecisionReached(cfg, s, h, r, b);
    if FirstDecision(cfg, s.jobs, Execute, r, b) == HMark {
      steps, states := AttemptRuns(cfg, steps, states, h, a);
    }
  }

  // ---------------------------------------------------------------------------
  // Without a job store
  // ---------------------------------------------------------------------------

  /** The in-memory path: Begin, at most one dispatch, then Complete or Forget. */
  method HandleExecute(t: RequestTracker.ExecutionRequestTracker, id: string, fingerprint: Option<string>, now: int,
                       result: DispatchResult, later: int)
    returns (reply: TrackerProtocol.Reply, ghost answer: Option<RequestTracker.Decision>,
             ghost mid: RequestTracker.Tracker)
    requires t.Valid()
    modifies t
    ensures t.Valid() && RequestTracker.Begins(t.limits, old(t.State()), id, fingerprint, now, mid, answer)
    ensures answer != Some(RequestTracker.BeginStarted) ==> t.State() == mid
    ensures answer == Some(RequestTracker.BeginStarted) ==>
              match result
              case Returned(response) => RequestTracker.Completes(t.limits, mid, id, response, later, t.State())
              case Errored(_) => t.State() == RequestTracker.Forgets(mid, id)
    ensures match answer
            case Some(BeginStarted) =>
              reply == if result.Returned? then TrackerProtocol.Executed(result.response)
                  else TrackerProtocol.DispatchFailed
            case Some(BeginCompleted(response)) => reply == TrackerProtocol.Replayed(response)
            case Some(BeginInFlight) => reply == TrackerProtocol.InProgress
            case Some(BeginConflict) => reply == TrackerProtocol.Conflict
            case None => reply == TrackerProtocol.Invalid
  {
    var decision := t.Begin(id, fingerprint, now);
    answer, mid := decision, t.State();
    match decision {
      case None => return TrackerProtocol.Invalid, answer, mid;
      case Some(BeginCompleted(response)) => return TrackerProtocol.Replayed(response), answer, mid;
      case Some(BeginInFlight) => return TrackerProtocol.InProgress, answer, mid;
      case Some(BeginConflict) => return TrackerProtocol.Conflict, answer, mid;
      case Some(BeginStarted) =>
    }
    match result {
      case Errored(_) =>
        t.Forget(id);
        return TrackerProtocol.DispatchFailed, answer, mid;
      case Returned(response) =>
        t.Complete(id, response, later);
        return TrackerProtocol.Executed(response), answer, mid;
    }
  }
}
