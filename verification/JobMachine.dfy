/** The durable job machine: handlers, recovery loop, completion callbacks, crashes.

Each SQL statement of the job store is one atomic step (`JobStore.Mark` and row
insertion). Handlers of /api/v1/execute and /api/v1/jobs run concurrently; the
recovery loop is sequential but works from a stale snapshot of its batch; workers
may report any completion at any time; a crash of the one master loses every
handler and the batch. A write may also be lost, or be applied although its caller
sees an error. The clock is monotone.
*/
module JobMachine {
  import opened Bags
  import opened Text
  import opened JobStore

  datatype Config = Config(hash: Hash, jobMaxAttempts: int, leaseTTL: int, batchSize: nat)

  predicate ValidConfig(cfg: Config) {
    cfg.leaseTTL > 0 && cfg.batchSize > 0
  }

  datatype Route = Execute | Submit

  datatype Reply =
    | Accepted | Existing | Replayed(response: ExecutionResponse) | InProgress | IdConflict
    | OutOfAttempts | NoStoredResponse | Unavailable | BadRequest | Answered(response: ExecutionResponse)

  datatype HandlerPc =
    | HCreate(sampled: int)    // about to insert a row stamped with the time sampled on arrival
    | HRead                    // the row exists, about to read it
    | HMark                    // owns the attempt, about to mark it dispatching
    | HCall                    // marked, about to call the dispatcher
    | HAwait                   // the dispatcher is running
    | HRecord(write: Write)    // about to record the outcome
    | HDone(reply: Reply)

  datatype Handler = Handler(route: Route, request: ExecutionRequest, pc: HandlerPc)

  datatype Snapshot = Snapshot(id: string, job: Job)

  /** Where the recovery loop is with the head of its batch. */
  datatype Turn = TPick | TCall | TAwait | TRecord(write: Write)

  datatype Recovery = Idle | Scan(now: int, todo: seq<Snapshot>, turn: Turn)

  /** `marks` counts applied dispatching marks, `dispatches` counts dispatcher calls and
  `dispatched` keeps their requests; `executed` holds the IDs ever sent to
  /api/v1/execute and `ambiguous` the IDs ever marked ambiguous. */
  datatype State = State(
    jobs: Jobs,
    clock: int,
    handlers: map<nat, Handler>,
    recovery: Recovery,
    marks: multiset<string>,
    dispatches: multiset<string>,
    dispatched: seq<ExecutionRequest>,
    executed: set<string>,
    ambiguous: set<string>)

  predicate Init(s: State) {
    && s == State(map[], s.clock, map[], Idle, multiset{}, multiset{}, [], {}, {})
    && s.clock >= NANOS_PER_MILLI
  }

  // ---------------------------------------------------------------------------
  // Steps
  // ---------------------------------------------------------------------------

  datatype WriteOutcome = Applied | Lost | AppliedButFailed

  datatype DispatchResult = Returned(response: ExecutionResponse) | Errored(reason: string)

  datatype Step =
    | ArriveStep(h: nat, route: Route, request: ExecutionRequest)
    | CreateStep(h: nat, outcome: WriteOutcome)
    | ReadStep(h: nat, ok: bool)
    | MarkStep(h: nat, leaseFrom: int, outcome: WriteOutcome)
    | CallStep(h: nat)
    | ReturnStep(h: nat, result: DispatchResult)
    | RecordStep(h: nat, outcome: WriteOutcome)
    | ScanStep(now: int, ids: seq<string>)
    | PickStep(outcome: WriteOutcome)
    | RecoveryCallStep
    | RecoveryReturnStep(result: DispatchResult)
    | RecoveryRecordStep(outcome: WriteOutcome)
    | EndScanStep
    | CallbackStep(id: string, result: DispatchResult, outcome: WriteOutcome)
    | CrashStep
    | TickStep(clock: int)

  function Now(s: State): int {
    UnixMilli(At(s.clock))
  }

  /** A status update as the store performs it. */
  function Put(s: State, id: string, w: Write, o: WriteOutcome): State {
    if o.Lost? || id !in s.jobs then s
    else s.(jobs := Mark(s.jobs, id, w, Now(s)),
            marks := if w.ToDispatching? then s.marks + multiset{id} else s.marks,
            ambiguous := if w.ToAmbiguous? then s.ambiguous + {id} else s.ambiguous)
  }

  /** Whether the caller of the update sees success. */
  predicate Sees(s: State, id: string, o: WriteOutcome) {
    o.Applied? && id in s.jobs
  }

  function Move(s: State, h: nat, pc: HandlerPc): State
    requires h in s.handlers
  {
    s.(handlers := s.handlers[h := s.handlers[h].(pc := pc)])
  }

  function Arrive(s: State, h: nat, route: Route, r: ExecutionRequest): State {
    s.(handlers := s.handlers[h := Handler(route, r, HCreate(s.clock))],
       executed := if route.Execute? then s.executed + {r.requestID} else s.executed)
  }

  function CreateEffect(cfg: Config, s: State, h: nat, o: WriteOutcome): State
    requires h in s.handlers && s.handlers[h].pc.HCreate?
  {
    var r := s.handlers[h].request;
    if r.requestID in s.jobs then Move(s, h, if o.Applied? then HRead else HDone(Unavailable))
    else
      var job := NewJob(r, Fingerprint(cfg.hash, r), cfg.jobMaxAttempts, At(s.handlers[h].pc.sampled));
      var s1 := if o.Lost? then s else s.(jobs := s.jobs[r.requestID := job]);
      Move(s1, h, if !o.Applied? then HDone(Unavailable)
                  else if s.handlers[h].route.Execute? then HMark else HDone(Accepted))
  }

  /** What a handler does with the row that already exists. */
  function AfterRead(cfg: Config, hd: Handler, existing: Job): HandlerPc {
    if existing.fingerprint != Fingerprint(cfg.hash, hd.request) then HDone(IdConflict)
    else if hd.route.Submit? then HDone(Existing)
    else match existing.status
      case Succeeded => HDone(if existing.response.None? then NoStoredResponse else Replayed(existing.response.value))
      case Queued => HDone(InProgress)
      case Dispatching => HDone(InProgress)
      case Running => HDone(InProgress)
      case Failed =>
        if existing.maxAttempts > 0 && existing.attempt >= existing.maxAttempts then HDone(OutOfAttempts) else HMark
      case Ambiguous => HDone(InProgress)
  }

  function CallDispatcher(s: State, r: ExecutionRequest): State {
    s.(dispatches := s.dispatches + multiset{r.requestID}, dispatched := s.dispatched + [r])
  }

  function HandlerOutcome(result: DispatchResult): Write {
    match result
    case Returned(response) => ToSucceeded(response)
    case Errored(reason) => ToFailed(reason)
  }

  /** A response is returned only once it is stored; a failed dispatch is reported whether it is stored or not. */
  function AfterRecord(w: Write, stored: bool): Reply {
    if w.ToSucceeded? && stored then Answered(w.response) else Unavailable
  }

  /** What recovery records, decided from the stale snapshot. */
  function RecoveryOutcome(job: Job, result: DispatchResult): Write {
    match result
    case Returned(response) => ToSucceeded(response)
    case Errored(reason) =>
      if job.maxAttempts > 0 && job.attempt + 1 >= job.maxAttempts then ToFailed(reason) else ToQueued(reason)
  }

  function Snapshots(jobs: Jobs, ids: seq<string>): seq<Snapshot>
    requires forall i :: 0 <= i < |ids| ==> ids[i] in jobs
  {
    seq(|ids|, i requires 0 <= i < |ids| => Snapshot(ids[i], jobs[ids[i]]))
  }

  function Turned(s: State, turn: Turn): State
    requires s.recovery.Scan?
  {
    s.(recovery := s.recovery.(turn := turn))
  }

  function DropHead(s: State): State
    requires s.recovery.Scan? && s.recovery.todo != []
  {
    s.(recovery := s.recovery.(todo := s.recovery.todo[1..], turn := TPick))
  }

  const LEASE_EXPIRED: string := "job lease expired"

  function PickEffect(cfg: Config, s: State, o: WriteOutcome): State
    requires s.recovery.Scan? && s.recovery.todo != []
  {
    var head := s.recovery.todo[0];
    if head.job.status.Queued? then
      var s1 := Put(s, head.id, ToDispatching("", At(s.recovery.now + cfg.leaseTTL)), o);
      if Sees(s, head.id, o) then Turned(s1, TCall) else DropHead(s1)
    else if head.job.status.Dispatching? || head.job.status.Running? then
      if GuardSkips(head.job, At(s.recovery.now)) then DropHead(s)
      else DropHead(Put(s, head.id, ToAmbiguous(LEASE_EXPIRED), o))
    else DropHead(s)
  }

  predicate HandlerAt(s: State, h: nat, pc: HandlerPc) {
    h in s.handlers && s.handlers[h].pc == pc
  }

  predicate RecoveryAt(s: State, turn: Turn) {
    s.recovery.Scan? && s.recovery.todo != [] && s.recovery.turn == turn
  }

  ghost predicate Next(cfg: Config, s: State, step: Step, s': State) {
    match step
    case ArriveStep(h, route, r) => h !in s.handlers && s' == Arrive(s, h, route, r)
    case CreateStep(h, o) => h in s.handlers && s.handlers[h].pc.HCreate? && s' == CreateEffect(cfg, s, h, o)
    case ReadStep(h, ok) =>
      && HandlerAt(s, h, HRead)
      && var id := s.handlers[h].request.requestID;
         s' == Move(s, h, if ok && id in s.jobs then AfterRead(cfg, s.handlers[h], s.jobs[id]) else HDone(Unavailable))
    case MarkStep(h, leaseFrom, o) =>
      && HandlerAt(s, h, HMark) && NANOS_PER_MILLI <= leaseFrom <= s.clock
      && var id := s.handlers[h].request.requestID;
         s' == Move(Put(s, id, ToDispatching("", At(leaseFrom + cfg.leaseTTL)), o), h,
                    if Sees(s, id, o) then HCall else HDone(Unavailable))
    case CallStep(h) =>
      HandlerAt(s, h, HCall) && s' == Move(CallDispatcher(s, s.handlers[h].request), h, HAwait)
    case ReturnStep(h, result) => HandlerAt(s, h, HAwait) && s' == Move(s, h, HRecord(HandlerOutcome(result)))
    case RecordStep(h, o) =>
      && h in s.handlers && s.handlers[h].pc.HRecord?
      && var id, w := s.handlers[h].request.requestID, s.handlers[h].pc.write;
         s' == Move(Put(s, id, w, o), h, HDone(AfterRecord(w, Sees(s, id, o))))
    case ScanStep(now, ids) =>
      && s.recovery.Idle? && NANOS_PER_MILLI <= now <= s.clock
      && IsBatch(s.jobs, UnixMilli(At(now)), cfg.batchSize, ids)
      && s' == s.(recovery := Scan(now, Snapshots(s.jobs, ids), TPick))
    case PickStep(o) => RecoveryAt(s, TPick) && s' == PickEffect(cfg, s, o)
    case RecoveryCallStep =>
      RecoveryAt(s, TCall) && s' == Turned(CallDispatcher(s, s.recovery.todo[0].job.request), TAwait)
    case RecoveryReturnStep(result) =>
      RecoveryAt(s, TAwait) && s' == Turned(s, TRecord(RecoveryOutcome(s.recovery.todo[0].job, result)))
    case RecoveryRecordStep(o) =>
      && s.recovery.Scan? && s.recovery.todo != [] && s.recovery.turn.TRecord?
      && s' == DropHead(Put(s, s.recovery.todo[0].id, s.recovery.turn.write, o))
    case EndScanStep => s.recovery.Scan? && s.recovery.todo == [] && s' == s.(recovery := Idle)
    case CallbackStep(id, result, o) => s' == Put(s, id, HandlerOutcome(result), o)
    case CrashStep => s' == s.(handlers := map[], recovery := Idle)
    case TickStep(clock) => clock >= s.clock && s' == s.(clock := clock)
  }

  ghost predicate StepAt(cfg: Config, steps: seq<Step>, states: seq<State>, i: int)
    requires |states| == |steps| + 1 && 0 <= i < |steps|
  {
    Next(cfg, states[i], steps[i], states[i + 1])
  }

  /** `steps` lead through `states`. */
  ghost predicate Continues(cfg: Config, steps: seq<Step>, states: seq<State>) {
    |states| == |steps| + 1 && forall i :: 0 <= i < |steps| ==> StepAt(cfg, steps, states, i)
  }

  ghost predicate Run(cfg: Config, steps: seq<Step>, states: seq<State>) {
    Continues(cfg, steps, states) && Init(states[0])
  }

  lemma StepOf(cfg: Config, steps: seq<Step>, states: seq<State>, i: nat)
    requires Continues(cfg, steps, states) && i < |steps|
    ensures Next(cfg, states[i], steps[i], states[i + 1])
  {
    assert StepAt(cfg, steps, states, i);
  }

  lemma ContinuesLonger(cfg: Config, steps: seq<Step>, states: seq<State>, step: Step, s': State)
    requires Continues(cfg, steps, states) && Next(cfg, states[|steps|], step, s')
    ensures Continues(cfg, steps + [step], states + [s'])
  {
    forall i | 0 <= i <= |steps|
      ensures StepAt(cfg, steps + [step], states + [s'], i)
    {
      if i < |steps| {
        assert StepAt(cfg, steps, states, i);
      }
    }
  }

  // ---------------------------------------------------------------------------
  // The one effect a step has on the table
  // ---------------------------------------------------------------------------

  datatype Effect = Quiet | Inserts(id: string, job: Job) | Updates(id: string, write: Write)

  function UpdateOf(s: State, id: string, w: Write, o: WriteOutcome): Effect {
    if o.Lost? || id !in s.jobs then Quiet else Updates(id, w)
  }

  function PickEffectOf(cfg: Config, s: State, o: WriteOutcome): Effect {
    if s.recovery.Idle? || s.recovery.todo == [] then Quiet
    else
      var head := s.recovery.todo[0];
      if head.job.status.Queued? then
        UpdateOf(s, head.id, ToDispatching("", At(s.recovery.now + cfg.leaseTTL)), o)
      else if (head.job.status.Dispatching? || head.job.status.Running?)
          && !GuardSkips(head.job, At(s.recovery.now)) then
        UpdateOf(s, head.id, ToAmbiguous(LEASE_EXPIRED), o)
      else Quiet
  }

  function EffectOf(cfg: Config, s: State, step: Step): Effect {
    match step
    case CreateStep(h, o) =>
      if h in s.handlers && s.handlers[h].pc.HCreate? && !o.Lost? && s.handlers[h].request.requestID !in s.jobs then
        var r := s.handlers[h].request;
        Inserts(r.requestID, NewJob(r, Fingerprint(cfg.hash, r), cfg.jobMaxAttempts, At(s.handlers[h].pc.sampled)))
      else Quiet
    case MarkStep(h, leaseFrom, o) =>
      if h in s.handlers then
        UpdateOf(s, s.handlers[h].request.requestID, ToDispatching("", At(leaseFrom + cfg.leaseTTL)), o)
      else Quiet
    case RecordStep(h, o) =>
      if h in s.handlers && s.handlers[h].pc.HRecord? then
        UpdateOf(s, s.handlers[h].request.requestID, s.handlers[h].pc.write, o)
      else Quiet
    case PickStep(o) => PickEffectOf(cfg, s, o)
    case RecoveryRecordStep(o) =>
      if s.recovery.Scan? && s.recovery.todo != [] && s.recovery.turn.TRecord? then
        UpdateOf(s, s.recovery.todo[0].id, s.recovery.turn.write, o)
      else Quiet
    case CallbackStep(id, result, o) => UpdateOf(s, id, HandlerOutcome(result), o)
    case _ => Quiet
  }

  function AfterEffect(jobs: Jobs, e: Effect, now: int): Jobs {
    match e
    case Quiet => jobs
    case Inserts(id, job) => jobs[id := job]
    case Updates(id, w) => Mark(jobs, id, w, now)
  }

  ghost predicate EffectFits(s: State, e: Effect, s': State) {
    && s'.jobs == AfterEffect(s.jobs, e, Now(s))
    && s'.marks == (if e.Updates? && e.write.ToDispatching? then s.marks + multiset{e.id} else s.marks)
    && s'.ambiguous == (if e.Updates? && e.write.ToAmbiguous? then s.ambiguous + {e.id} else s.ambiguous)
    && (e.Updates? ==> e.id in s.jobs)
    && (e.Inserts? ==> e.id !in s.jobs)
  }

  lemma HandlerEffect(cfg: Config, s: State, step: Step, s': State)
    requires Next(cfg, s, step, s') && (step.CreateStep? || step.MarkStep? || step.RecordStep?)
    ensures EffectFits(s, EffectOf(cfg, s, step), s')
  {
  }

  lemma RecoveryEffect(cfg: Config, s: State, step: Step, s': State)
    requires Next(cfg, s, step, s') && (step.PickStep? || step.RecoveryRecordStep? || step.CallbackStep?)
    ensures EffectFits(s, EffectOf(cfg, s, step), s')
  {
  }

  predicate Writes(step: Step) {
    || step.CreateStep? || step.MarkStep? || step.RecordStep?
    || step.PickStep? || step.RecoveryRecordStep? || step.CallbackStep?
  }

  lemma NoEffect(cfg: Config, s: State, step: Step, s': State)
    requires Next(cfg, s, step, s') && !Writes(step)
    ensures EffectFits(s, EffectOf(cfg, s, step), s')
  {
  }

  lemma NextEffect(cfg: Config, s: State, step: Step, s': State)
    requires Next(cfg, s, step, s')
    ensures EffectFits(s, EffectOf(cfg, s, step), s')
  {
    if step.CreateStep? || step.MarkStep? || step.RecordStep? {
      HandlerEffect(cfg, s, step, s');
    } else if Writes(step) {
      RecoveryEffect(cfg, s, step, s');
    } else {
      NoEffect(cfg, s, step, s');
    }
  }

  lemma EffectGrows(jobs: Jobs, e: Effect, now: int)
    requires e.Inserts? ==> e.id !in jobs
    ensures Grows(jobs, AfterEffect(jobs, e, now))
  {
  }

  // ---------------------------------------------------------------------------
  // What no step changes, and what every step only adds to
  // ---------------------------------------------------------------------------

  /** The contract a request ID is bound to. */
  predicate SameBinding(a: Job, b: Job) {
    a.fingerprint == b.fingerprint && a.request == b.request && a.maxAttempts == b.maxAttempts
  }

  /** Rows stay, keep their binding and their response, and never lose an attempt. */
  ghost predicate Grows(jobs: Jobs, jobs': Jobs) {
    forall id :: id in jobs ==>
      && id in jobs' && SameBinding(jobs[id], jobs'[id])
      && jobs[id].attempt <= jobs'[id].attempt
      && (jobs[id].response.Some? ==> jobs'[id].response.Some?)
  }

  lemma NextGrows(cfg: Config, s: State, step: Step, s': State)
    requires Next(cfg, s, step, s')
    ensures Grows(s.jobs, s'.jobs)
  {
    NextEffect(cfg, s, step, s');
    EffectGrows(s.jobs, EffectOf(cfg, s, step), Now(s));
  }

  lemma GrowsTransitive(a: Jobs, b: Jobs, c: Jobs)
    requires Grows(a, b) && Grows(b, c)
    ensures Grows(a, c)
  {
  }

  /** In all interleavings and across crashes, a request ID is bound to one fingerprint,
  request and maximum forever, its attempts never fall and a stored response is never cleared. */
  lemma {:induction false} RunGrows(cfg: Config, steps: seq<Step>, states: seq<State>, i: nat, j: nat)
    requires Run(cfg, steps, states) && i <= j < |states|
    ensures Grows(states[i].jobs, states[j].jobs)
    decreases j
  {
    if i < j {
      RunGrows(cfg, steps, states, i, j - 1);
      StepOf(cfg, steps, states, j - 1);
      NextGrows(cfg, states[j - 1], steps[j - 1], states[j]);
      GrowsTransitive(states[i].jobs, states[j - 1].jobs, states[j].jobs);
    }
  }

  // ---------------------------------------------------------------------------
  // Binding
  // ---------------------------------------------------------------------------

  predicate RowOk(cfg: Config, id: string, job: Job) {
    job.request.requestID == id && job.fingerprint == Fingerprint(cfg.hash, job.request) && job.maxAttempts > 0
  }

  predicate Bound(cfg: Config, jobs: Jobs, r: ExecutionRequest) {
    r.requestID in jobs && Fingerprint(cfg.hash, r) == jobs[r.requestID].fingerprint
  }

  predicate HandlerOk(cfg: Config, jobs: Jobs, hd: Handler) {
    match hd.pc
    case HCreate(sampled) => sampled >= NANOS_PER_MILLI
    case HRead => hd.request.requestID in jobs
    case HMark => Bound(cfg, jobs, hd.request) && hd.route.Execute?
    case HCall => Bound(cfg, jobs, hd.request) && hd.route.Execute?
    case HAwait => Bound(cfg, jobs, hd.request) && hd.route.Execute?
    case HRecord(w) => Bound(cfg, jobs, hd.request) && hd.route.Execute? && (w.ToSucceeded? || w.ToFailed?)
    case HDone(_) => true
  }

  predicate SnapshotOk(jobs: Jobs, snap: Snapshot, now: int) {
    && snap.id in jobs && SameBinding(snap.job, jobs[snap.id])
    && Recoverable(snap.job, UnixMilli(At(now))) && snap.job.status != Running
  }

  predicate TurnOk(jobs: Jobs, head: Snapshot, turn: Turn) {
    && (!turn.TPick? ==> head.job.status.Queued?)
    && (turn.TRecord? ==> turn.write.ToSucceeded? || turn.write.ToFailed? || turn.write.ToQueued?)
  }

  ghost predicate RecoveryOk(s: State, batchSize: nat) {
    s.recovery.Scan? ==>
      && NANOS_PER_MILLI <= s.recovery.now <= s.clock
      && |s.recovery.todo| <= batchSize
      && (forall i :: 0 <= i < |s.recovery.todo| ==> SnapshotOk(s.jobs, s.recovery.todo[i], s.recovery.now))
      && (forall i, j :: 0 <= i < j < |s.recovery.todo| ==> s.recovery.todo[i].id != s.recovery.todo[j].id)
      && (if s.recovery.todo == [] then s.recovery.turn.TPick? else TurnOk(s.jobs, s.recovery.todo[0], s.recovery.turn))
  }

  /** Rows, running handlers, the batch and every dispatch ever made agree on the binding. */
  ghost predicate BindingOk(cfg: Config, s: State) {
    && s.clock >= NANOS_PER_MILLI
    && (forall id :: id in s.jobs ==> RowOk(cfg, id, s.jobs[id]))
    && (forall h :: h in s.handlers ==> HandlerOk(cfg, s.jobs, s.handlers[h]))
    && (forall i :: 0 <= i < |s.dispatched| ==> Bound(cfg, s.jobs, s.dispatched[i]))
    && RecoveryOk(s, cfg.batchSize)
  }

  /** Record shape. */
  predicate ShapeOk(job: Job) {
    && job.status != Running
    && (job.status.Succeeded? ==> job.response.Some?)
    && (job.leaseUntil > 0 <==> job.status.Dispatching?)
    && job.leaseUntil >= 0
  }

  ghost predicate ShapesOk(s: State) {
    forall id :: id in s.jobs ==> ShapeOk(s.jobs[id])
  }

  // --- preservation ----------------------------------------------------------

  lemma HandlerOkGrows(cfg: Config, jobs: Jobs, jobs': Jobs, hd: Handler)
    requires Grows(jobs, jobs') && HandlerOk(cfg, jobs, hd)
    ensures HandlerOk(cfg, jobs', hd)
  {
  }

  /** The step's own effect never breaks the row contract. */
  lemma EffectKeepsRows(cfg: Config, s: State, step: Step, s': State)
    requires BindingOk(cfg, s) && Next(cfg, s, step, s')
    ensures forall id :: id in s'.jobs ==> RowOk(cfg, id, s'.jobs[id])
  {
    NextEffect(cfg, s, step, s');
    var e := EffectOf(cfg, s, step);
    assert e.Inserts? ==> RowOk(cfg, e.id, e.job);
    AfterEffectKeepsRows(cfg, s.jobs, e, Now(s));
  }

  lemma AfterEffectKeepsRows(cfg: Config, jobs: Jobs, e: Effect, now: int)
    requires forall id :: id in jobs ==> RowOk(cfg, id, jobs[id])
    requires e.Inserts? ==> RowOk(cfg, e.id, e.job)
    ensures forall id :: id in AfterEffect(jobs, e, now) ==> RowOk(cfg, id, AfterEffect(jobs, e, now)[id])
  {
  }

  /** Every handler that a step does not move, and the handler it does move. */
  predicate Moves(step: Step) {
    step.ArriveStep? || step.CreateStep? || step.ReadStep? || step.MarkStep?
    || step.CallStep? || step.ReturnStep? || step.RecordStep?
  }

  lemma MovedHandlerOk(cfg: Config, s: State, step: Step, s': State)
    requires BindingOk(cfg, s) && Next(cfg, s, step, s') && Moves(step)
    ensures step.h in s'.handlers && HandlerOk(cfg, s'.jobs, s'.handlers[step.h])
    ensures s'.handlers == s.handlers[step.h := s'.handlers[step.h]]
  {
    NextEffect(cfg, s, step, s');
    if !step.ArriveStep? {
      assert HandlerOk(cfg, s.jobs, s.handlers[step.h]);
    }
  }

  lemma NextKeepsHandlers(cfg: Config, s: State, step: Step, s': State)
    requires BindingOk(cfg, s) && Next(cfg, s, step, s')
    ensures forall h :: h in s'.handlers ==> HandlerOk(cfg, s'.jobs, s'.handlers[h])
  {
    NextGrows(cfg, s, step, s');
    if Moves(step) {
      MovedHandlerOk(cfg, s, step, s');
    }
    forall h | h in s'.handlers
      ensures HandlerOk(cfg, s'.jobs, s'.handlers[h])
    {
      if !(Moves(step) && step.h == h) {
        assert h in s.handlers && s'.handlers[h] == s.handlers[h];
        HandlerOkGrows(cfg, s.jobs, s'.jobs, s.handlers[h]);
      }
    }
  }

  lemma NextKeepsDispatched(cfg: Config, s: State, step: Step, s': State)
    requires BindingOk(cfg, s) && Next(cfg, s, step, s')
    ensures forall i :: 0 <= i < |s'.dispatched| ==> Bound(cfg, s'.jobs, s'.dispatched[i])
  {
    NextGrows(cfg, s, step, s');
    forall i | 0 <= i < |s'.dispatched|
      ensures Bound(cfg, s'.jobs, s'.dispatched[i])
    {
      if i < |s.dispatched| {
        assert s'.dispatched[i] == s.dispatched[i] && Bound(cfg, s.jobs, s.dispatched[i]);
      } else if step.CallStep? {
        assert HandlerOk(cfg, s.jobs, s.handlers[step.h]);
      } else {
        assert SnapshotOk(s.jobs, s.recovery.todo[0], s.recovery.now);
        assert RowOk(cfg, s.recovery.todo[0].id, s.jobs[s.recovery.todo[0].id]);
      }
    }
  }

  lemma ScanStartsOk(cfg: Config, s: State, now: int, ids: seq<string>)
    requires ShapesOk(s) && NANOS_PER_MILLI <= now <= s.clock
    requires IsBatch(s.jobs, UnixMilli(At(now)), cfg.batchSize, ids)
    ensures RecoveryOk(s.(recovery := Scan(now, Snapshots(s.jobs, ids), TPick)), cfg.batchSize)
  {
    var todo := Snapshots(s.jobs, ids);
    forall i | 0 <= i < |todo|
      ensures SnapshotOk(s.jobs, todo[i], now)
    {
      assert ShapeOk(s.jobs[ids[i]]);
    }
  }

  /** Rows only grow, and the batch keeps its snapshots or drops its head. */
  lemma BatchKeepsOk(s: State, s': State, batchSize: nat)
    requires RecoveryOk(s, batchSize) && s.recovery.Scan? && s'.recovery.Scan? && Grows(s.jobs, s'.jobs)
    requires s'.recovery.now == s.recovery.now && s'.clock >= s.clock
    requires || s'.recovery.todo == s.recovery.todo
             || (s.recovery.todo != [] && s'.recovery.todo == s.recovery.todo[1..])
    requires if s'.recovery.todo == [] then s'.recovery.turn.TPick?
             else TurnOk(s'.jobs, s'.recovery.todo[0], s'.recovery.turn)
    ensures RecoveryOk(s', batchSize)
  {
    var shift := |s.recovery.todo| - |s'.recovery.todo|;
    forall i | 0 <= i < |s'.recovery.todo|
      ensures SnapshotOk(s'.jobs, s'.recovery.todo[i], s'.recovery.now)
    {
      assert s'.recovery.todo[i] == s.recovery.todo[i + shift];
      assert SnapshotOk(s.jobs, s.recovery.todo[i + shift], s.recovery.now);
    }
  }

  /** Handlers, callbacks and the clock leave the batch alone. */
  predicate LeavesBatch(step: Step) {
    Moves(step) || step.CallbackStep? || step.TickStep?
  }

  lemma BatchLeft(cfg: Config, s: State, step: Step, s': State)
    requires Next(cfg, s, step, s') && LeavesBatch(step)
    ensures s'.recovery == s.recovery && s'.clock >= s.clock
  {
  }

  lemma LoopBatchShape(cfg: Config, s: State, step: Step, s': State)
    requires RecoveryOk(s, cfg.batchSize) && Next(cfg, s, step, s') && !step.ScanStep? && !LeavesBatch(step)
    requires s'.recovery.Scan?
    ensures s.recovery.Scan? && s'.recovery.now == s.recovery.now && s'.clock >= s.clock
    ensures || s'.recovery.todo == s.recovery.todo
            || (s.recovery.todo != [] && s'.recovery.todo == s.recovery.todo[1..])
    ensures if s'.recovery.todo == [] then s'.recovery.turn.TPick?
            else TurnOk(s'.jobs, s'.recovery.todo[0], s'.recovery.turn)
  {
  }

  lemma NextBatchShape(cfg: Config, s: State, step: Step, s': State)
    requires RecoveryOk(s, cfg.batchSize) && Next(cfg, s, step, s') && !step.ScanStep? && s'.recovery.Scan?
    ensures s.recovery.Scan? && s'.recovery.now == s.recovery.now && s'.clock >= s.clock
    ensures || s'.recovery.todo == s.recovery.todo
            || (s.recovery.todo != [] && s'.recovery.todo == s.recovery.todo[1..])
    ensures if s'.recovery.todo == [] then s'.recovery.turn.TPick?
            else TurnOk(s'.jobs, s'.recovery.todo[0], s'.recovery.turn)
  {
    if LeavesBatch(step) {
      BatchLeft(cfg, s, step, s');
    } else {
      LoopBatchShape(cfg, s, step, s');
    }
  }

  lemma NextKeepsRecovery(cfg: Config, s: State, step: Step, s': State)
    requires BindingOk(cfg, s) && ShapesOk(s) && Next(cfg, s, step, s')
    ensures RecoveryOk(s', cfg.batchSize)
  {
    NextGrows(cfg, s, step, s');
    if step.ScanStep? {
      ScanStartsOk(cfg, s, step.now, step.ids);
    } else if s'.recovery.Scan? {
      NextBatchShape(cfg, s, step, s');
      BatchKeepsOk(s, s', cfg.batchSize);
    }
  }

  lemma NextKeepsBinding(cfg: Config, s: State, step: Step, s': State)
    requires BindingOk(cfg, s) && ShapesOk(s) && Next(cfg, s, step, s')
    ensures BindingOk(cfg, s')
  {
    EffectKeepsRows(cfg, s, step, s');
    NextKeepsHandlers(cfg, s, step, s');
    NextKeepsDispatched(cfg, s, step, s');
    NextKeepsRecovery(cfg, s, step, s');
  }

  /** Every dispatching mark stores a positive lease. */
  lemma LeasesArePositive(cfg: Config, s: State, step: Step, s': State)
    requires ValidConfig(cfg) && BindingOk(cfg, s) && Next(cfg, s, step, s')
    ensures var e := EffectOf(cfg, s, step);
      e.Updates? && e.write.ToDispatching? ==> UnixMilli(e.write.leaseUntil) > 0
  {
    if step.RecordStep? {
      assert HandlerOk(cfg, s.jobs, s.handlers[step.h]);
    }
  }

  lemma NextKeepsShapes(cfg: Config, s: State, step: Step, s': State)
    requires ValidConfig(cfg) && BindingOk(cfg, s) && ShapesOk(s) && Next(cfg, s, step, s')
    ensures ShapesOk(s')
  {
    NextEffect(cfg, s, step, s');
    LeasesArePositive(cfg, s, step, s');
    var e := EffectOf(cfg, s, step);
    assert e.Inserts? ==> ShapeOk(e.job);
    EffectKeepsShapes(s, e, s');
  }

  lemma EffectKeepsShapes(s: State, e: Effect, s': State)
    requires ShapesOk(s) && EffectFits(s, e, s') && (e.Inserts? ==> ShapeOk(e.job))
    requires e.Updates? && e.write.ToDispatching? ==> UnixMilli(e.write.leaseUntil) > 0
    ensures ShapesOk(s')
  {
    assert e.Updates? ==> ShapeOk(s.jobs[e.id]);
  }

  // ---------------------------------------------------------------------------
  // Attempts and dispatcher calls
  // ---------------------------------------------------------------------------

  /** A row's attempt is the number of dispatching marks applied to it. */
  ghost predicate MarksOk(s: State) {
    && (forall id :: id in s.jobs ==> s.marks[id] == s.jobs[id].attempt)
    && (forall id :: id !in s.jobs ==> s.marks[id] == 0)
  }

  lemma NextKeepsMarks(cfg: Config, s: State, step: Step, s': State)
    requires MarksOk(s) && Next(cfg, s, step, s')
    ensures MarksOk(s')
  {
    NextEffect(cfg, s, step, s');
    InsertsFresh(cfg, s, step);
    EffectKeepsMarks(s, EffectOf(cfg, s, step), s');
  }

  lemma InsertsFresh(cfg: Config, s: State, step: Step)
    ensures var e := EffectOf(cfg, s, step); e.Inserts? ==> e.job.attempt == 0
  {
  }

  lemma EffectKeepsMarks(s: State, e: Effect, s': State)
    requires MarksOk(s) && EffectFits(s, e, s') && (e.Inserts? ==> e.job.attempt == 0)
    ensures MarksOk(s')
  {
  }

  /** A handler that has its mark and not yet called the dispatcher. */
  function Pending(hd: Handler): multiset<string> {
    if hd.pc.HCall? then multiset{hd.request.requestID} else multiset{}
  }

  function PendingRecovery(r: Recovery): multiset<string> {
    if r.Scan? && r.todo != [] && r.turn.TCall? then multiset{r.todo[0].id} else multiset{}
  }

  ghost function Claims(s: State): multiset<string> {
    (Bag(s.handlers, Pending) + PendingRecovery(s.recovery)) + s.dispatches
  }

  /** Every dispatcher call, made or about to be made, has its own applied mark. */
  ghost predicate CountOk(s: State) {
    Claims(s) <= s.marks
  }

  lemma SwapHandler(handlers: map<nat, Handler>, h: nat, hd: Handler)
    ensures Bag(handlers[h := hd], Pending) == Pending(hd) + Bag(handlers - {h}, Pending)
    ensures Bag(handlers, Pending) ==
      (if h in handlers then Pending(handlers[h]) else multiset{}) + Bag(handlers - {h}, Pending)
  {
    BagUpdate(handlers, Pending, h, hd);
    if h in handlers {
      BagRemove(handlers, Pending, h);
    }
  }

  function HandlerClaim(handlers: map<nat, Handler>, h: nat, id: string): nat {
    if h in handlers && handlers[h].pc.HCall? && handlers[h].request.requestID == id then 1 else 0
  }

  function RecoveryClaim(r: Recovery, id: string): nat {
    if r.Scan? && r.todo != [] && r.turn.TCall? && r.todo[0].id == id then 1 else 0
  }

  /** A handler's step claims at most one call more than it marks. */
  lemma HandlerClaimsFit(cfg: Config, s: State, step: Step, s': State, id: string)
    requires Next(cfg, s, step, s') && Moves(step)
    ensures s'.handlers == s.handlers[step.h := s'.handlers[step.h]] && s'.recovery == s.recovery
    ensures HandlerClaim(s'.handlers, step.h, id) + s'.dispatches[id] + s.marks[id]
         <= HandlerClaim(s.handlers, step.h, id) + s.dispatches[id] + s'.marks[id]
  {
  }

  lemma OtherClaimsFit(cfg: Config, s: State, step: Step, s': State, id: string)
    requires BindingOk(cfg, s) && Next(cfg, s, step, s') && !Moves(step)
    ensures s'.handlers == if step.CrashStep? then map[] else s.handlers
    ensures RecoveryClaim(s'.recovery, id) + s'.dispatches[id] + s.marks[id]
         <= RecoveryClaim(s.recovery, id) + s.dispatches[id] + s'.marks[id]
  {
    if step.RecoveryCallStep? {
      assert SnapshotOk(s.jobs, s.recovery.todo[0], s.recovery.now);
      assert RowOk(cfg, s.recovery.todo[0].id, s.jobs[s.recovery.todo[0].id]);
    }
  }

  lemma NextHandlersShape(cfg: Config, s: State, step: Step, s': State)
    requires Next(cfg, s, step, s')
    ensures s.executed <= s'.executed
    ensures if !Moves(step) then s'.handlers.Keys <= s.handlers.Keys && forall h :: h in s'.handlers ==>
          s'.handlers[h] == s.handlers[h]
            else
              && step.h in s'.handlers && s'.handlers == s.handlers[step.h := s'.handlers[step.h]]
              && (if step.ArriveStep? then
                    s'.handlers[step.h].route.Execute? ==> s'.handlers[step.h].request.requestID in s'.executed
                  else
                    && step.h in s.handlers && s'.handlers[step.h].route == s.handlers[step.h].route
                    && s'.handlers[step.h].request == s.handlers[step.h].request)
  {
  }

  lemma ClaimsCount(s: State, id: string)
    ensures Claims(s)[id] == Bag(s.handlers, Pending)[id] + RecoveryClaim(s.recovery, id) + s.dispatches[id]
  {
  }

  lemma SwapCount(handlers: map<nat, Handler>, h: nat, hd: Handler, id: string)
    ensures Bag(handlers[h := hd], Pending)[id] + HandlerClaim(handlers, h, id)
         == Bag(handlers, Pending)[id] + HandlerClaim(handlers[h := hd], h, id)
  {
    SwapHandler(handlers, h, hd);
  }

  lemma NextKeepsCountOf(cfg: Config, s: State, step: Step, s': State, id: string)
    requires BindingOk(cfg, s) && Claims(s)[id] <= s.marks[id] && Next(cfg, s, step, s')
    ensures Claims(s')[id] <= s'.marks[id]
  {
    ClaimsCount(s, id);
    ClaimsCount(s', id);
    if Moves(step) {
      HandlerClaimsFit(cfg, s, step, s', id);
      SwapCount(s.handlers, step.h, s'.handlers[step.h], id);
    } else {
      OtherClaimsFit(cfg, s, step, s', id);
    }
  }

  lemma NextKeepsCount(cfg: Config, s: State, step: Step, s': State)
    requires BindingOk(cfg, s) && CountOk(s) && Next(cfg, s, step, s')
    ensures CountOk(s')
  {
    forall id
      ensures Claims(s')[id] <= s'.marks[id]
    {
      assert Claims(s)[id] <= s.marks[id];
      NextKeepsCountOf(cfg, s, step, s', id);
    }
  }

  // ---------------------------------------------------------------------------
  // Request IDs submitted only through POST /api/v1/jobs
  // ---------------------------------------------------------------------------

  predicate AsyncRowOk(s: State, id: string)
    requires id in s.jobs
  {
    var job := s.jobs[id];
    && job.attempt <= job.maxAttempts
    && (job.status.Queued? ==> job.attempt < job.maxAttempts)
    && (id in s.ambiguous ==> job.status.Ambiguous? || job.status.Succeeded? || job.status.Failed?)
  }

  /** The stale snapshot of an async-only ID still knows its attempt. */
  predicate AsyncSnapshotOk(s: State, snap: Snapshot, begun: bool) {
    && snap.id in s.jobs
    && s.jobs[snap.id].attempt == snap.job.attempt + (if begun then 1 else 0)
    && (snap.job.status.Queued? ==> snap.job.attempt < snap.job.maxAttempts)
    && snap.id !in s.ambiguous
  }

  ghost predicate AsyncOk(s: State) {
    && s.ambiguous <= s.jobs.Keys
    && (forall h :: h in s.handlers && s.handlers[h].route.Execute? ==> s.handlers[h].request.requestID in s.executed)
    && (forall id :: id in s.jobs && id !in s.executed ==> AsyncRowOk(s, id))
    && (s.recovery.Scan? ==>
          && (forall i :: 0 <= i < |s.recovery.todo| && s.recovery.todo[i].id !in s.executed ==>
                AsyncSnapshotOk(s, s.recovery.todo[i], i == 0 && !s.recovery.turn.TPick?))
          && (s.recovery.todo != [] && s.recovery.turn.TRecord? && s.recovery.turn.write.ToQueued? ==>
                s.recovery.todo[0].job.attempt + 1 < s.recovery.todo[0].job.maxAttempts))
  }

  /** What can rewrite the row of an async-only ID: a callback, or recovery working on its head. */
  ghost predicate AsyncCause(s: State, e: Effect) {
    e.Updates? && e.id !in s.executed ==>
      || e.write.ToSucceeded? || e.write.ToFailed?
      || (&& s.recovery.Scan? && s.recovery.todo != [] && e.id == s.recovery.todo[0].id
          && if e.write.ToQueued? then s.recovery.turn == TRecord(e.write)
             else s.recovery.turn.TPick? && (e.write.ToDispatching? ==> s.recovery.todo[0].job.status.Queued?))
  }

  /** How the batch can change, given the step's effect on the table. */
  ghost predicate BatchFits(s: State, e: Effect, s': State) {
    s'.recovery.Scan? ==>
      if s.recovery.Idle? then
        && e.Quiet? && s'.recovery.turn.TPick?
        && (forall i :: 0 <= i < |s'.recovery.todo| ==>
              var snap := s'.recovery.todo[i];
              snap.id in s.jobs && snap.job == s.jobs[snap.id]
                  && (snap.job.status.Queued? || snap.job.status.Dispatching?))
      else if s'.recovery.todo == s.recovery.todo then
        || (s'.recovery.turn == s.recovery.turn
            && (e.Updates? ==> e.write.ToSucceeded? || e.write.ToFailed? || e.id in s.executed))
        || (s.recovery.turn.TPick? && s'.recovery.turn.TCall? && s.recovery.todo != []
            && e.Updates? && e.write.ToDispatching? && e.id == s.recovery.todo[0].id)
        || (e.Quiet? && s.recovery.todo != [] && !s.recovery.turn.TPick? && !s'.recovery.turn.TPick?
            && (s'.recovery.turn.TRecord? && s'.recovery.turn.write.ToQueued? ==>
                  s.recovery.todo[0].job.attempt + 1 < s.recovery.todo[0].job.maxAttempts))
      else s.recovery.todo != [] && s'.recovery.todo == s.recovery.todo[1..] && s'.recovery.turn.TPick?
  }

  ghost predicate ExecutedFits(s: State, s': State) {
    && s.executed <= s'.executed
    && (forall h :: h in s'.handlers && s'.handlers[h].route.Execute? ==>
        s'.handlers[h].request.requestID in s'.executed)
  }

  lemma NextAsyncCause(cfg: Config, s: State, step: Step, s': State)
    requires BindingOk(cfg, s) && AsyncOk(s) && Next(cfg, s, step, s')
    ensures AsyncCause(s, EffectOf(cfg, s, step))
  {
    if Moves(step) && !step.ArriveStep? {
      assert HandlerOk(cfg, s.jobs, s.handlers[step.h]);
    }
  }

  lemma NextExecutedFits(cfg: Config, s: State, step: Step, s': State)
    requires Next(cfg, s, step, s')
    requires forall h :: h in s.handlers && s.handlers[h].route.Execute? ==>
          s.handlers[h].request.requestID in s.executed
    ensures ExecutedFits(s, s')
  {
    NextHandlersShape(cfg, s, step, s');
  }

  lemma ReturnKeepsQueueOk(cfg: Config, s: State, step: Step, s': State)
    requires BindingOk(cfg, s) && Next(cfg, s, step, s') && step.RecoveryReturnStep?
    ensures BatchFits(s, Quiet, s')
  {
    var head := s.recovery.todo[0];
    assert SnapshotOk(s.jobs, head, s.recovery.now);
    assert RowOk(cfg, head.id, s.jobs[head.id]);
  }

  lemma ScanFits(s: State, now: int, ids: seq<string>, limit: nat)
    requires ShapesOk(s) && s.recovery.Idle? && IsBatch(s.jobs, UnixMilli(At(now)), limit, ids)
    ensures BatchFits(s, Quiet, s.(recovery := Scan(now, Snapshots(s.jobs, ids), TPick)))
  {
    assert forall i :: 0 <= i < |ids| ==> ShapeOk(s.jobs[ids[i]]);
  }

  lemma HandlerBatchFits(cfg: Config, s: State, step: Step, s': State)
    requires BindingOk(cfg, s) && AsyncOk(s) && Next(cfg, s, step, s') && Moves(step)
    ensures BatchFits(s, EffectOf(cfg, s, step), s')
  {
    if !step.ArriveStep? {
      assert HandlerOk(cfg, s.jobs, s.handlers[step.h]);
    }
  }

  lemma NextBatchFits(cfg: Config, s: State, step: Step, s': State)
    requires BindingOk(cfg, s) && ShapesOk(s) && AsyncOk(s) && Next(cfg, s, step, s')
    ensures BatchFits(s, EffectOf(cfg, s, step), s')
  {
    if step.RecoveryReturnStep? {
      ReturnKeepsQueueOk(cfg, s, step, s');
    } else if step.ScanStep? {
      ScanFits(s, step.now, step.ids, cfg.batchSize);
    } else if Moves(step) {
      HandlerBatchFits(cfg, s, step, s');
    }
  }

  lemma AsyncRowStays(s: State, e: Effect, s': State, id: string)
    requires AsyncOk(s) && EffectFits(s, e, s') && AsyncCause(s, e) && ExecutedFits(s, s')
    requires e.Inserts? ==> e.job.status.Queued? && e.job.attempt < e.job.maxAttempts
    requires id in s'.jobs && id !in s'.executed
    requires s.recovery.Scan? ==> forall i :: 0 <= i < |s.recovery.todo| ==>
      s.recovery.todo[i].id in s.jobs && SameBinding(s.recovery.todo[i].job, s.jobs[s.recovery.todo[i].id])
    ensures AsyncRowOk(s', id)
  {
    if id in s.jobs {
      assert AsyncRowOk(s, id);
      if e.Updates? && e.id == id && !e.write.ToSucceeded? && !e.write.ToFailed? {
        assert AsyncSnapshotOk(s, s.recovery.todo[0], !s.recovery.turn.TPick?);
      }
    }
  }

  lemma AsyncSnapshotStays(s: State, e: Effect, s': State, snap: Snapshot)
    requires AsyncOk(s) && EffectFits(s, e, s') && AsyncCause(s, e) && ExecutedFits(s, s')
    requires snap.id !in s'.executed && AsyncSnapshotOk(s, snap, false)
    requires s.recovery.Scan? && s.recovery.todo != [] ==> snap.id != s.recovery.todo[0].id
    ensures AsyncSnapshotOk(s', snap, false)
  {
  }

  lemma AsyncHeadStays(s: State, e: Effect, s': State)
    requires AsyncOk(s) && EffectFits(s, e, s') && AsyncCause(s, e) && ExecutedFits(s, s') && BatchFits(s, e, s')
    requires s'.recovery.Scan? && s.recovery.Scan? && s.recovery.todo != [] && s'.recovery.todo == s.recovery.todo
    requires s.recovery.todo[0].id !in s'.executed
    ensures AsyncSnapshotOk(s', s.recovery.todo[0], !s'.recovery.turn.TPick?)
  {
    assert AsyncSnapshotOk(s, s.recovery.todo[0], !s.recovery.turn.TPick?);
  }

  lemma AsyncBatchStays(s: State, e: Effect, s': State, i: nat)
    requires AsyncOk(s) && EffectFits(s, e, s') && AsyncCause(s, e) && ExecutedFits(s, s') && BatchFits(s, e, s')
    requires s.recovery.Scan? ==>
      forall j, k :: 0 <= j < k < |s.recovery.todo| ==> s.recovery.todo[j].id != s.recovery.todo[k].id
    requires s'.recovery.Scan? && i < |s'.recovery.todo| && s'.recovery.todo[i].id !in s'.executed
    ensures AsyncSnapshotOk(s', s'.recovery.todo[i], i == 0 && !s'.recovery.turn.TPick?)
  {
    var snap := s'.recovery.todo[i];
    if s.recovery.Idle? {
      assert AsyncRowOk(s, snap.id);
    } else if s'.recovery.todo == s.recovery.todo && i == 0 {
      AsyncHeadStays(s, e, s');
    } else {
      var j := if s'.recovery.todo == s.recovery.todo then i else i + 1;
      assert snap == s.recovery.todo[j] && AsyncSnapshotOk(s, s.recovery.todo[j], false);
      AsyncSnapshotStays(s, e, s', snap);
    }
  }

  lemma EffectKeepsAsync(s: State, e: Effect, s': State)
    requires AsyncOk(s) && EffectFits(s, e, s') && AsyncCause(s, e) && ExecutedFits(s, s') && BatchFits(s, e, s')
    requires e.Inserts? ==> e.job.status.Queued? && e.job.attempt < e.job.maxAttempts
    requires s.recovery.Scan? ==>
      && (forall i :: 0 <= i < |s.recovery.todo| ==>
            s.recovery.todo[i].id in s.jobs && SameBinding(s.recovery.todo[i].job, s.jobs[s.recovery.todo[i].id]))
      && (forall j, k :: 0 <= j < k < |s.recovery.todo| ==> s.recovery.todo[j].id != s.recovery.todo[k].id)
    ensures AsyncOk(s')
  {
    forall id | id in s'.jobs && id !in s'.executed
      ensures AsyncRowOk(s', id)
    {
      AsyncRowStays(s, e, s', id);
    }
    if s'.recovery.Scan? {
      forall i | 0 <= i < |s'.recovery.todo| && s'.recovery.todo[i].id !in s'.executed
        ensures AsyncSnapshotOk(s', s'.recovery.todo[i], i == 0 && !s'.recovery.turn.TPick?)
      {
        AsyncBatchStays(s, e, s', i);
      }
    }
  }

  lemma NextKeepsAsync(cfg: Config, s: State, step: Step, s': State)
    requires BindingOk(cfg, s) && ShapesOk(s) && AsyncOk(s) && Next(cfg, s, step, s')
    ensures AsyncOk(s')
  {
    NextEffect(cfg, s, step, s');
    NextAsyncCause(cfg, s, step, s');
    NextExecutedFits(cfg, s, step, s');
    NextBatchFits(cfg, s, step, s');
    assert s.recovery.Scan? ==>
      forall i :: 0 <= i < |s.recovery.todo| ==> SnapshotOk(s.jobs, s.recovery.todo[i], s.recovery.now);
    EffectKeepsAsync(s, EffectOf(cfg, s, step), s');
  }

  // ---------------------------------------------------------------------------
  // What every run guarantees
  // ---------------------------------------------------------------------------

  ghost predicate Inv(cfg: Config, s: State) {
    BindingOk(cfg, s) && ShapesOk(s) && MarksOk(s) && CountOk(s) && AsyncOk(s)
  }

  lemma InitInv(cfg: Config, s: State)
    requires Init(s)
    ensures Inv(cfg, s)
  {
  }

  lemma NextKeepsInv(cfg: Config, s: State, step: Step, s': State)
    requires ValidConfig(cfg) && Inv(cfg, s) && Next(cfg, s, step, s')
    ensures Inv(cfg, s')
  {
    NextKeepsBinding(cfg, s, step, s');
    NextKeepsShapes(cfg, s, step, s');
    NextKeepsMarks(cfg, s, step, s');
    NextKeepsCount(cfg, s, step, s');
    NextKeepsAsync(cfg, s, step, s');
  }

  lemma StepKeepsInv(cfg: Config, steps: seq<Step>, states: seq<State>, i: nat)
    requires ValidConfig(cfg) && Continues(cfg, steps, states) && 0 < i < |states| && Inv(cfg, states[i - 1])
    ensures Inv(cfg, states[i])
  {
    StepOf(cfg, steps, states, i - 1);
    NextKeepsInv(cfg, states[i - 1], steps[i - 1], states[i]);
  }

  lemma {:induction false} ContinuesKeepsInv(cfg: Config, steps: seq<Step>, states: seq<State>, i: nat)
    requires ValidConfig(cfg) && Continues(cfg, steps, states) && i < |states| && Inv(cfg, states[0])
    ensures Inv(cfg, states[i])
  {
    if i > 0 {
      ContinuesKeepsInv(cfg, steps, states, i - 1);
      StepKeepsInv(cfg, steps, states, i);
    }
  }

  lemma RunKeepsInv(cfg: Config, steps: seq<Step>, states: seq<State>, i: nat)
    requires ValidConfig(cfg) && Run(cfg, steps, states) && i < |states|
    ensures Inv(cfg, states[i])
  {
    InitInv(cfg, states[0]);
    ContinuesKeepsInv(cfg, steps, states, i);
  }

  /** Every dispatch ever made, by execute, failed retry or recovery, carries the fingerprint
  its request ID is bound to; a row's attempt counts its applied dispatching marks; and the
  dispatcher was called at most that often. */
  lemma DispatchesAreBound(cfg: Config, steps: seq<Step>, states: seq<State>, i: nat)
    requires ValidConfig(cfg) && Run(cfg, steps, states) && i < |states|
    ensures var s := states[i];
      && (forall k :: 0 <= k < |s.dispatched| ==> Bound(cfg, s.jobs, s.dispatched[k]))
      && (forall id :: id in s.jobs ==> s.jobs[id].attempt == s.marks[id])
      && (forall id :: id in s.jobs ==> s.dispatches[id] <= s.jobs[id].attempt)
  {
    RunKeepsInv(cfg, steps, states, i);
    var s := states[i];
    assert BindingOk(cfg, s) && MarksOk(s);
    forall id | id in s.jobs
      ensures s.dispatches[id] <= s.jobs[id].attempt
    {
      ClaimsCount(s, id);
      assert Claims(s)[id] <= s.marks[id];
    }
  }

  /** A request whose fingerprint differs from its ID's row never changes any row. */
  lemma ForeignFingerprintIsInert(cfg: Config, s: State, step: Step, s': State)
    requires BindingOk(cfg, s) && Next(cfg, s, step, s') && Moves(step) && !step.ArriveStep?
    requires var r := s.handlers[step.h].request;
      r.requestID in s.jobs && s.jobs[r.requestID].fingerprint != Fingerprint(cfg.hash, r)
    ensures s'.jobs == s.jobs && s'.dispatches == s.dispatches
  {
    assert HandlerOk(cfg, s.jobs, s.handlers[step.h]);
  }

  /** Record shape: never running, succeeded only with a response, and leased exactly while
  dispatching; so the "succeeded without a stored response" reply is never given. */
  lemma RecordShape(cfg: Config, steps: seq<Step>, states: seq<State>, i: nat)
    requires ValidConfig(cfg) && Run(cfg, steps, states) && i < |states|
    ensures forall id :: id in states[i].jobs ==> ShapeOk(states[i].jobs[id])
    ensures forall id, hd :: id in states[i].jobs && AfterRead(cfg, hd, states[i].jobs[id]).HDone? ==>
              AfterRead(cfg, hd, states[i].jobs[id]).reply != NoStoredResponse
  {
    RunKeepsInv(cfg, steps, states, i);
    forall id, hd | id in states[i].jobs && AfterRead(cfg, hd, states[i].jobs[id]).HDone?
      ensures AfterRead(cfg, hd, states[i].jobs[id]).reply != NoStoredResponse
    {
      assert ShapeOk(states[i].jobs[id]);
    }
  }

  /** The recovery loop's guard never skips: what it picks it rewrites, unless the write is lost. */
  lemma PickUpdates(cfg: Config, s: State, o: WriteOutcome)
    requires BindingOk(cfg, s) && RecoveryAt(s, TPick) && !o.Lost?
    ensures var head := s.recovery.todo[0];
      && head.id in s.jobs
      && EffectOf(cfg, s, PickStep(o)) ==
           Updates(head.id, if head.job.status.Queued? then ToDispatching("", At(s.recovery.now + cfg.leaseTTL))
                            else ToAmbiguous(LEASE_EXPIRED))
  {
    var head := s.recovery.todo[0];
    assert SnapshotOk(s.jobs, head, s.recovery.now);
    if !head.job.status.Queued? {
      GuardNeverSkipsListed(head.job, At(s.recovery.now));
    }
  }

  lemma PickRewrites(cfg: Config, s: State, step: Step, s': State)
    requires Inv(cfg, s) && Next(cfg, s, step, s') && step.PickStep? && !step.outcome.Lost?
    ensures var head := s.recovery.todo[0];
      head.id in s'.jobs && s'.jobs[head.id].updatedAt == Now(s)
      && s'.jobs[head.id].status == if head.job.status.Queued? then Dispatching else Ambiguous
  {
    PickUpdates(cfg, s, step.outcome);
    RecoveryEffect(cfg, s, step, s');
  }

  /** For an ID submitted only through POST /api/v1/jobs: attempts stay within the maximum, a
  queued job has an attempt left, and the dispatcher is called at most `attempt` times. */
  lemma AsyncAttemptsBounded(cfg: Config, steps: seq<Step>, states: seq<State>, i: nat, id: string)
    requires ValidConfig(cfg) && Run(cfg, steps, states) && i < |states|
    requires id in states[i].jobs && id !in states[i].executed
    ensures var s := states[i];
      && s.dispatches[id] <= s.jobs[id].attempt <= s.jobs[id].maxAttempts
      && (s.jobs[id].status.Queued? ==> s.jobs[id].attempt < s.jobs[id].maxAttempts)
  {
    RunKeepsInv(cfg, steps, states, i);
    DispatchesAreBound(cfg, steps, states, i);
    assert AsyncRowOk(states[i], id);
  }

  lemma HeadNotAmbiguous(s: State)
    requires AsyncOk(s)
    ensures s.recovery.Scan? && s.recovery.todo != [] ==>
      s.recovery.todo[0].id in s.executed || s.recovery.todo[0].id !in s.ambiguous
  {
    if s.recovery.Scan? && s.recovery.todo != [] && s.recovery.todo[0].id !in s.executed {
      assert AsyncSnapshotOk(s, s.recovery.todo[0], !s.recovery.turn.TPick?);
    }
  }

  /** Who calls the dispatcher: an execute handler, or recovery for the head of its batch. */
  lemma DispatchCause(cfg: Config, s: State, step: Step, s': State)
    requires BindingOk(cfg, s) && Next(cfg, s, step, s')
    ensures
      || s'.dispatches == s.dispatches
      || (step.CallStep? && step.h in s.handlers && s.handlers[step.h].route.Execute?
          && s'.dispatches == s.dispatches + multiset{s.handlers[step.h].request.requestID})
      || (RecoveryAt(s, TCall) && s'.dispatches == s.dispatches + multiset{s.recovery.todo[0].id})
  {
    if step.CallStep? {
      assert HandlerOk(cfg, s.jobs, s.handlers[step.h]);
    } else if step.RecoveryCallStep? {
      assert SnapshotOk(s.jobs, s.recovery.todo[0], s.recovery.now);
      assert RowOk(cfg, s.recovery.todo[0].id, s.jobs[s.recovery.todo[0].id]);
    }
  }

  lemma AmbiguousNotDispatched(cfg: Config, s: State, step: Step, s': State, id: string)
    requires BindingOk(cfg, s) && AsyncOk(s) && Next(cfg, s, step, s')
    requires id in s.ambiguous && id !in s.executed
    ensures s'.dispatches[id] == s.dispatches[id]
  {
    DispatchCause(cfg, s, step, s');
    HeadNotAmbiguous(s);
  }

  lemma AmbiguousNotMarked(cfg: Config, s: State, step: Step, s': State, id: string)
    requires BindingOk(cfg, s) && AsyncOk(s) && Next(cfg, s, step, s')
    requires id in s.ambiguous && id !in s.executed
    ensures s'.marks[id] == s.marks[id] && id in s'.ambiguous
  {
    NextEffect(cfg, s, step, s');
    NextAsyncCause(cfg, s, step, s');
    HeadNotAmbiguous(s);
  }

  lemma QuietStep(cfg: Config, steps: seq<Step>, states: seq<State>, k: nat, id: string)
    requires ValidConfig(cfg) && Run(cfg, steps, states) && k < |steps| && id !in states[k + 1].executed
    ensures id !in states[k].executed
    ensures id in states[k].ambiguous ==>
      && states[k + 1].dispatches[id] == states[k].dispatches[id]
      && states[k + 1].marks[id] == states[k].marks[id]
      && id in states[k + 1].ambiguous
  {
    StepOf(cfg, steps, states, k);
    RunKeepsInv(cfg, steps, states, k);
    NextHandlersShape(cfg, states[k], steps[k], states[k + 1]);
    if id in states[k].ambiguous {
      AmbiguousNotDispatched(cfg, states[k], steps[k], states[k + 1], id);
      AmbiguousNotMarked(cfg, states[k], steps[k], states[k + 1], id);
    }
  }

  /** Once ambiguous, an async-only job is never marked or dispatched again. */
  lemma {:induction false} AmbiguousNeverRedispatched(
    cfg: Config, steps: seq<Step>, states: seq<State>, i: nat, j: nat, id: string)
    requires ValidConfig(cfg) && Run(cfg, steps, states) && i <= j < |states|
    requires id in states[i].ambiguous && id !in states[j].executed
    ensures states[j].dispatches[id] == states[i].dispatches[id]
    ensures states[j].marks[id] == states[i].marks[id]
    ensures id in states[j].ambiguous
    decreases j
  {
    if i < j {
      QuietStep(cfg, steps, states, j - 1, id);
      AmbiguousNeverRedispatched(cfg, steps, states, i, j - 1, id);
    }
  }
}
