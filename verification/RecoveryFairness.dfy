/** The recovery loop starves no queued job.

A queued job waits with `updated_at` u. Every scan that misses it lists a full batch of
other rows that are at least as old, and the loop rewrites each of them to a later
time. So the number of missing scans is bounded by the number of older rows. The
bound is proved over all interleavings of the job machine; crashes and lost
writes of the recovery loop each cost what they drop.
*/
module RecoveryFairness {
  import opened JobStore
  import opened JobMachine

  predicate Waits(s: State, id: string, u: int) {
    id in s.jobs && s.jobs[id].status.Queued? && s.jobs[id].updatedAt == u
  }

  /** The other rows whose update is not later than u. */
  function Older(s: State, id: string, u: int): set<string> {
    set k | k in s.jobs && k != id && s.jobs[k].updatedAt <= u
  }

  /** Handlers that sampled their creation time no later than u and have not inserted yet. */
  function OldArrivals(s: State, u: int): set<nat> {
    set h | h in s.handlers && s.handlers[h].pc.HCreate? && UnixMilli(At(s.handlers[h].pc.sampled)) <= u
  }

  /** The listed rows that the loop has still to rewrite. */
  function Unserved(s: State): set<string> {
    if s.recovery.Idle? then {}
    else
      var first := if s.recovery.turn.TPick? then 0 else 1;
      set i | first <= i < |s.recovery.todo| :: s.recovery.todo[i].id
  }

  ghost function Backlog(s: State, id: string, u: int): nat {
    |Older(s, id, u) - Unserved(s)| + |OldArrivals(s, u)|
  }

  predicate MissesJob(step: Step, id: string) {
    step.ScanStep? && id !in step.ids
  }

  predicate LosesPick(step: Step) {
    step.PickStep? && step.outcome.Lost?
  }

  // ---------------------------------------------------------------------------
  // One step
  // ---------------------------------------------------------------------------

  lemma SubsetSize<T>(a: set<T>, b: set<T>)
    requires a <= b
    ensures |a| <= |b|
  {
    var rest := b - a;
    assert b == a + rest;
  }

  lemma UnionSize<T>(a: set<T>, b: set<T>)
    ensures |a + b| <= |a| + |b|
  {
    assert a + b == a + (b - a);
    SubsetSize(b - a, b);
  }

  /** Handlers grow no older: only an insertion consumes an old arrival. */
  lemma ArrivalsShrink(cfg: Config, s: State, step: Step, s': State, u: int)
    requires Next(cfg, s, step, s') && Now(s) > u
    ensures OldArrivals(s', u) <= OldArrivals(s, u)
    ensures step.CreateStep? ==> step.h !in OldArrivals(s', u)
  {
  }

  /** A row is older afterwards only if it was, or if an old arrival inserted it just now. */
  lemma OlderShrinks(cfg: Config, s: State, step: Step, s': State, id: string, u: int)
    requires Next(cfg, s, step, s') && Now(s) > u && id in s.jobs
    ensures var e := EffectOf(cfg, s, step);
      && (e.Updates? ==> Older(s', id, u) <= Older(s, id, u) - {e.id})
      && (e.Inserts? ==> Older(s', id, u) <= Older(s, id, u) + {e.id})
      && (e.Quiet? ==> Older(s', id, u) == Older(s, id, u))
      && (e.Inserts? && e.id in Older(s', id, u) ==> step.CreateStep? && step.h in OldArrivals(s, u))
  {
    NextEffect(cfg, s, step, s');
  }

  lemma TailIds(todo: seq<Snapshot>)
    requires todo != []
    ensures (set i | 0 <= i < |todo| :: todo[i].id) == {todo[0].id} + (set i | 1 <= i < |todo| :: todo[i].id)
    ensures (set i | 1 <= i < |todo| :: todo[i].id) == (set i | 0 <= i < |todo[1..]| :: todo[1..][i].id)
  {
    forall i | 1 <= i < |todo|
      ensures todo[i].id in (set j | 0 <= j < |todo[1..]| :: todo[1..][j].id)
    {
      assert todo[i] == todo[1..][i - 1];
    }
  }

  lemma PickServesHead(cfg: Config, s: State, step: Step, s': State)
    requires Inv(cfg, s) && Next(cfg, s, step, s') && step.PickStep?
    ensures Unserved(s) <= Unserved(s') + {s.recovery.todo[0].id}
    ensures !step.outcome.Lost? ==>
          EffectOf(cfg, s, step).Updates? && EffectOf(cfg, s, step).id == s.recovery.todo[0].id
  {
    var head := s.recovery.todo[0];
    assert SnapshotOk(s.jobs, head, s.recovery.now);
    if !head.job.status.Queued? {
      GuardNeverSkipsListed(head.job, At(s.recovery.now));
    }
    TailIds(s.recovery.todo);
  }

  predicate IsRecovery(step: Step) {
    step.RecoveryCallStep? || step.RecoveryReturnStep? || step.RecoveryRecordStep? || step.EndScanStep?
  }

  lemma RecoveryKeepsUnserved(cfg: Config, s: State, step: Step, s': State)
    requires RecoveryOk(s, cfg.batchSize) && Next(cfg, s, step, s') && IsRecovery(step)
    ensures Unserved(s') == Unserved(s)
  {
    if step.RecoveryRecordStep? {
      TailIds(s.recovery.todo);
    }
  }

  lemma OthersKeepRecovery(cfg: Config, s: State, step: Step, s': State)
    requires Next(cfg, s, step, s') && !IsRecovery(step) && !step.ScanStep? && !step.CrashStep? && !step.PickStep?
    ensures s'.recovery == s.recovery
  {
  }

  /** Outside scans, crashes and lost picks, a row leaves the unserved only when it is rewritten. */
  lemma UnservedStays(cfg: Config, s: State, step: Step, s': State)
    requires Inv(cfg, s) && Next(cfg, s, step, s')
    requires !step.ScanStep? && !step.CrashStep? && !LosesPick(step)
    ensures var e := EffectOf(cfg, s, step);
      Unserved(s) <= Unserved(s') + (if e.Updates? then {e.id} else {})
  {
    if step.PickStep? {
      PickServesHead(cfg, s, step, s');
    } else if IsRecovery(step) {
      RecoveryKeepsUnserved(cfg, s, step, s');
    } else {
      OthersKeepRecovery(cfg, s, step, s');
    }
  }

  lemma InsertedCount(before: set<string>, after: set<string>, id: string, due: set<nat>, due': set<nat>, h: nat)
    requires after <= before + {id} && due' <= due && h in due && h !in due'
    ensures |after| + |due'| <= |before| + |due|
  {
    SubsetSize(after, before + {id});
    UnionSize(before, {id});
    SubsetSize(due', due - {h});
  }

  lemma OrdinaryStep(cfg: Config, s: State, step: Step, s': State, id: string, u: int)
    requires Inv(cfg, s) && Next(cfg, s, step, s') && Now(s) > u && id in s.jobs
    requires !step.ScanStep? && !step.CrashStep? && !LosesPick(step)
    ensures Backlog(s', id, u) <= Backlog(s, id, u)
  {
    ArrivalsShrink(cfg, s, step, s', u);
    OlderShrinks(cfg, s, step, s', id, u);
    UnservedStays(cfg, s, step, s');
    var e := EffectOf(cfg, s, step);
    var before, after := Older(s, id, u) - Unserved(s), Older(s', id, u) - Unserved(s');
    if e.Inserts? && e.id in Older(s', id, u) {
      InsertedCount(before, after, e.id, OldArrivals(s, u), OldArrivals(s', u), step.h);
    } else {
      SubsetSize(after, before);
      SubsetSize(OldArrivals(s', u), OldArrivals(s, u));
    }
  }

  lemma LostPickStep(cfg: Config, s: State, step: Step, s': State, id: string, u: int)
    requires Inv(cfg, s) && Next(cfg, s, step, s') && Now(s) > u && id in s.jobs && LosesPick(step)
    ensures Backlog(s', id, u) <= Backlog(s, id, u) + 1
  {
    ArrivalsShrink(cfg, s, step, s', u);
    OlderShrinks(cfg, s, step, s', id, u);
    PickServesHead(cfg, s, step, s');
    var head := s.recovery.todo[0].id;
    var before, after := Older(s, id, u) - Unserved(s), Older(s', id, u) - Unserved(s');
    assert EffectOf(cfg, s, step).Quiet?;
    SubsetSize(OldArrivals(s', u), OldArrivals(s, u));
    SubsetSize(after, before + {head});
    UnionSize(before, {head});
  }

  lemma {:induction false} IdsAtMost(todo: seq<Snapshot>, first: nat)
    requires first <= |todo|
    ensures |set i | first <= i < |todo| :: todo[i].id| <= |todo| - first
    decreases |todo| - first
  {
    var ids := set i | first <= i < |todo| :: todo[i].id;
    if first < |todo| {
      IdsAtMost(todo, first + 1);
      var rest := set i | first + 1 <= i < |todo| :: todo[i].id;
      assert ids == rest + {todo[first].id};
      UnionSize(rest, {todo[first].id});
    }
  }

  lemma CrashedStep(cfg: Config, s: State, step: Step, s': State, id: string, u: int)
    requires Inv(cfg, s) && Next(cfg, s, step, s') && step.CrashStep?
    ensures Backlog(s', id, u) <= Backlog(s, id, u) + cfg.batchSize
  {
    var older := Older(s, id, u);
    assert Older(s', id, u) == older && Unserved(s') == {} && OldArrivals(s', u) == {};
    if s.recovery.Scan? {
      IdsAtMost(s.recovery.todo, if s.recovery.turn.TPick? || s.recovery.todo == [] then 0 else 1);
      assert |Unserved(s)| <= cfg.batchSize;
    }
    assert older - {} == older;
    SubsetSize(older, (older - Unserved(s)) + Unserved(s));
    UnionSize(older - Unserved(s), Unserved(s));
  }

  lemma {:induction false} DistinctIds(todo: seq<Snapshot>, n: nat)
    requires n <= |todo| && forall i, j :: 0 <= i < j < |todo| ==> todo[i].id != todo[j].id
    ensures |set i | 0 <= i < n :: todo[i].id| == n
  {
    var ids := set i | 0 <= i < n :: todo[i].id;
    if n > 0 {
      DistinctIds(todo, n - 1);
      assert ids == (set i | 0 <= i < n - 1 :: todo[i].id) + {todo[n - 1].id};
    }
  }

  /** A missing scan lists a full batch of older rows. */
  lemma MissingScanListsOlder(cfg: Config, s: State, step: Step, s': State, id: string, u: int)
    requires Inv(cfg, s) && Next(cfg, s, step, s') && Waits(s, id, u) && MissesJob(step, id)
    ensures Unserved(s) == {} && Unserved(s') <= Older(s, id, u) && |Unserved(s')| == cfg.batchSize
  {
    assert Recoverable(s.jobs[id], UnixMilli(At(step.now)));
    var todo := s'.recovery.todo;
    assert |todo| == cfg.batchSize;
    DistinctIds(todo, |todo|);
  }

  lemma ScanningStep(cfg: Config, s: State, step: Step, s': State, id: string, u: int)
    requires Inv(cfg, s) && Next(cfg, s, step, s') && Waits(s, id, u) && step.ScanStep?
    ensures Backlog(s', id, u) + (if MissesJob(step, id) then cfg.batchSize else 0) <= Backlog(s, id, u)
  {
    var older := Older(s, id, u);
    assert Older(s', id, u) == older && OldArrivals(s', u) == OldArrivals(s, u);
    assert Unserved(s) == {} && older - {} == older;
    if MissesJob(step, id) {
      MissingScanListsOlder(cfg, s, step, s', id, u);
      assert older == (older - Unserved(s')) + Unserved(s');
    } else {
      SubsetSize(older - Unserved(s'), older);
    }
  }

  /** What a step gains on the backlog, and what it may cost. */
  function Gain(step: Step, id: string, batch: nat): nat {
    if MissesJob(step, id) then batch else 0
  }

  function Cost(step: Step, batch: nat): nat {
    if step.CrashStep? then batch else if LosesPick(step) then 1 else 0
  }

  lemma AnyStep(cfg: Config, s: State, step: Step, s': State, id: string, u: int)
    requires Inv(cfg, s) && Next(cfg, s, step, s') && Now(s) > u && Waits(s, id, u)
    ensures Backlog(s', id, u) + Gain(step, id, cfg.batchSize) <= Backlog(s, id, u) + Cost(step, cfg.batchSize)
  {
    if step.ScanStep? {
      ScanningStep(cfg, s, step, s', id, u);
    } else if step.CrashStep? {
      CrashedStep(cfg, s, step, s', id, u);
    } else if LosesPick(step) {
      LostPickStep(cfg, s, step, s', id, u);
    } else {
      OrdinaryStep(cfg, s, step, s', id, u);
    }
  }

  // ---------------------------------------------------------------------------
  // Whole runs
  // ---------------------------------------------------------------------------

  function Scans(steps: seq<Step>): nat {
    if steps == [] then 0 else Scans(steps[..|steps| - 1]) + if steps[|steps| - 1].ScanStep? then 1 else 0
  }

  function Misses(steps: seq<Step>, id: string): nat {
    if steps == [] then 0 else Misses(steps[..|steps| - 1], id) + if MissesJob(steps[|steps| - 1], id) then 1 else 0
  }

  function Gains(steps: seq<Step>, id: string, batch: nat): nat {
    if steps == [] then 0 else Gains(steps[..|steps| - 1], id, batch) + Gain(steps[|steps| - 1], id, batch)
  }

  /** One batch for each crash and one row for each lost write of the loop. */
  function Costs(steps: seq<Step>, batch: nat): nat {
    if steps == [] then 0 else Costs(steps[..|steps| - 1], batch) + Cost(steps[|steps| - 1], batch)
  }

  lemma {:induction false} GainsAreMisses(steps: seq<Step>, id: string, batch: nat)
    ensures Gains(steps, id, batch) == batch * Misses(steps, id)
    decreases |steps|
  {
    if steps != [] {
      var init := steps[..|steps| - 1];
      GainsAreMisses(init, id, batch);
      assert Misses(steps, id) == Misses(init, id) + if MissesJob(steps[|steps| - 1], id) then 1 else 0;
    }
  }

  /** A stretch of a run that starts in a reachable state. */
  ghost predicate Stretch(cfg: Config, steps: seq<Step>, states: seq<State>) {
    && ValidConfig(cfg)
    && Continues(cfg, steps, states)
    && Inv(cfg, states[0])   // as in every reachable state, by RunKeepsInv
  }

  lemma ClockStep(cfg: Config, s: State, step: Step, s': State)
    requires Next(cfg, s, step, s')
    ensures Now(s') >= Now(s)
  {
  }

  lemma {:induction false} StretchKeeps(cfg: Config, steps: seq<Step>, states: seq<State>, k: nat)
    requires Stretch(cfg, steps, states) && k < |states|
    ensures Inv(cfg, states[k]) && Now(states[k]) >= Now(states[0])
  {
    if k > 0 {
      StretchKeeps(cfg, steps, states, k - 1);
      StepOf(cfg, steps, states, k - 1);
      NextKeepsInv(cfg, states[k - 1], steps[k - 1], states[k]);
      ClockStep(cfg, states[k - 1], steps[k - 1], states[k]);
    }
  }

  /** The backlogs of a stretch. */
  ghost function Trace(states: seq<State>, id: string, u: int): seq<int> {
    seq(|states|, i requires 0 <= i < |states| => Backlog(states[i], id, u))
  }

  predicate DescendsAt(back: seq<int>, steps: seq<Step>, id: string, batch: nat, k: nat) {
    k < |steps| && k + 1 < |back| && back[k + 1] + Gain(steps[k], id, batch) <= back[k] + Cost(steps[k], batch)
  }

  predicate Descends(back: seq<int>, steps: seq<Step>, id: string, batch: nat) {
    |back| == |steps| + 1 && forall k: nat :: k < |steps| ==> DescendsAt(back, steps, id, batch, k)
  }

  lemma StepDescends(cfg: Config, s: State, step: Step, s': State, id: string, u: int, back: seq<int>,
                     steps: seq<Step>, k: nat)
    requires Inv(cfg, s) && Next(cfg, s, step, s') && Now(s) > u && Waits(s, id, u)
    requires k < |steps| && k + 1 < |back| && steps[k] == step
    requires back[k] == Backlog(s, id, u) && back[k + 1] == Backlog(s', id, u)
    ensures DescendsAt(back, steps, id, cfg.batchSize, k)
  {
    AnyStep(cfg, s, step, s', id, u);
  }

  lemma StepInStretch(cfg: Config, steps: seq<Step>, states: seq<State>, k: nat, id: string, u: int)
    requires Stretch(cfg, steps, states) && k < |steps|
    requires Now(states[0]) > u && Waits(states[k], id, u)
    ensures DescendsAt(Trace(states, id, u), steps, id, cfg.batchSize, k)
  {
    StepOf(cfg, steps, states, k);
    StretchKeeps(cfg, steps, states, k);
    StepDescends(cfg, states[k], steps[k], states[k + 1], id, u, Trace(states, id, u), steps, k);
  }

  lemma {:induction false} Telescope(back: seq<int>, steps: seq<Step>, id: string, batch: nat)
    requires Descends(back, steps, id, batch)
    ensures back[|steps|] + Gains(steps, id, batch) <= back[0] + Costs(steps, batch)
    decreases |steps|
  {
    if steps != [] {
      var n := |steps| - 1;
      var shorter, init := back[..n + 1], steps[..n];
      forall k: nat | k < |init|
        ensures DescendsAt(shorter, init, id, batch, k)
      {
        assert DescendsAt(back, steps, id, batch, k);
      }
      Telescope(shorter, init, id, batch);
      assert DescendsAt(back, steps, id, batch, n);
    }
  }

  lemma TraceDescends(cfg: Config, steps: seq<Step>, states: seq<State>, id: string, u: int)
    requires Stretch(cfg, steps, states) && Now(states[0]) > u && forall s :: s in states ==> Waits(s, id, u)
    ensures Descends(Trace(states, id, u), steps, id, cfg.batchSize)
  {
    forall k: nat | k < |steps|
      ensures DescendsAt(Trace(states, id, u), steps, id, cfg.batchSize, k)
    {
      StepInStretch(cfg, steps, states, k, id, u);
    }
  }

  /** Over any stretch of any run in which a queued job waits with `updated_at` u and the clock
  has passed u, the scans that miss it are paid for by the rows (and pending insertions) at
  least as old, plus one batch for each crash and one row for each lost write. */
  lemma MissedScansBounded(cfg: Config, steps: seq<Step>, states: seq<State>, id: string, u: int)
    requires Stretch(cfg, steps, states) && Now(states[0]) > u && forall s :: s in states ==> Waits(s, id, u)
    ensures cfg.batchSize * Misses(steps, id)
         <= |Older(states[0], id, u)| + |OldArrivals(states[0], u)| + Costs(steps, cfg.batchSize)
  {
    TraceDescends(cfg, steps, states, id, u);
    Telescope(Trace(states, id, u), steps, id, cfg.batchSize);
    GainsAreMisses(steps, id, cfg.batchSize);
    SubsetSize(Older(states[0], id, u) - Unserved(states[0]), Older(states[0], id, u));
  }

  lemma {:induction false} NeverListedMeansMissed(steps: seq<Step>, id: string)
    requires forall step :: step in steps && step.ScanStep? ==> id !in step.ids
    ensures Misses(steps, id) == Scans(steps)
    decreases |steps|
  {
    if steps != [] {
      NeverListedMeansMissed(steps[..|steps| - 1], id);
    }
  }

  lemma UnlistedScans(cfg: Config, steps: seq<Step>, states: seq<State>, id: string, u: int)
    requires Stretch(cfg, steps, states) && Now(states[0]) > u && forall s :: s in states ==> Waits(s, id, u)
    requires Costs(steps, cfg.batchSize) == 0
    requires forall step :: step in steps && step.ScanStep? ==> id !in step.ids
    ensures cfg.batchSize * Scans(steps) <= |Older(states[0], id, u)| + |OldArrivals(states[0], u)|
  {
    NeverListedMeansMissed(steps, id);
    MissedScansBounded(cfg, steps, states, id, u);
  }

  /** With no crash and no lost write, ceil((N + 1) / batchSize) scans list the job. */
  lemma ListedWithinBound(cfg: Config, steps: seq<Step>, states: seq<State>, id: string, u: int)
    requires Stretch(cfg, steps, states) && Now(states[0]) > u && forall s :: s in states ==> Waits(s, id, u)
    requires Costs(steps, cfg.batchSize) == 0
    requires var n := |Older(states[0], id, u)| + |OldArrivals(states[0], u)|;
      Scans(steps) >= (n + 1 + cfg.batchSize - 1) / cfg.batchSize
    ensures exists step :: step in steps && step.ScanStep? && id in step.ids
  {
    CeilingExceeds(|Older(states[0], id, u)| + |OldArrivals(states[0], u)|, cfg.batchSize, Scans(steps));
    if forall step :: step in steps && step.ScanStep? ==> id !in step.ids {
      UnlistedScans(cfg, steps, states, id, u);
    }
  }

  lemma CeilingExceeds(n: nat, limit: nat, scans: nat)
    requires limit > 0 && scans >= (n + 1 + limit - 1) / limit
    ensures limit * scans > n
  {
    var q := (n + limit) / limit;
    assert n + limit == q * limit + (n + limit) % limit;
    assert limit * scans >= limit * q;
  }
}
