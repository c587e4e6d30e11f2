/** Handlers of POST /api/v1/execute sharing one tracker.

Models the decisions of `handleExecute` (internal/master/gateway.go) without a job
store: Begin, then one Dispatch, then Complete or Forget. Every tracker call is one
atomic step; dispatch outcomes, the interleaving and the monotone clock are arbitrary.
The tracker steps are the specifications that `RequestTracker.ExecutionRequestTracker`
is proved against.
*/
module TrackerProtocol {
  import opened Bags
  import opened Text
  import opened JobStore
  import opened RequestTracker

  datatype Pc =
    | Arrived
    | Dispatching
    | Completing(response: ExecutionResponse)
    | Forgetting
    | Done(reply: Reply)

  datatype Reply =
    | Executed(response: ExecutionResponse)
    | DispatchFailed
    | Replayed(response: ExecutionResponse)
    | InProgress
    | Conflict
    | Invalid

  datatype Handler = Handler(id: string, fingerprint: Option<string>, pc: Pc)

  /** The unbounded reference map remembers the latest Complete of every ID. */
  datatype Past = Past(fingerprint: string, response: ExecutionResponse, at: int)

  /** Which IDs were inserted, and how each one that is gone went. */
  datatype Log = Log(started: multiset<string>, evicted: multiset<string>, lapsed: multiset<string>,
                     forgotten: multiset<string>)

  datatype State = State(tracker: Tracker, handlers: map<nat, Handler>, clock: int, latest: map<string, Past>, log: Log)

  function Initial(clock: int): State {
    State(Tracker(map[], 0, 0, 0), map[], clock, map[], Log(multiset{}, multiset{}, multiset{}, multiset{}))
  }

  datatype Step =
    | ArriveStep(p: nat, id: string, fingerprint: Option<string>)
    | BeginStep(p: nat, answer: Option<Decision>)
    | DispatchOkStep(p: nat, response: ExecutionResponse)
    | DispatchFailStep(p: nat)
    | CompleteStep(p: nat)
    | ForgetStep(p: nat)
    | StatsStep
    | TickStep(now: int)

  // ---------------------------------------------------------------------------
  // Steps
  // ---------------------------------------------------------------------------

  function AfterBegin(answer: Option<Decision>): Pc {
    match answer
    case None => Done(Invalid)
    case Some(BeginCompleted(response)) => Done(Replayed(response))
    case Some(BeginInFlight) => Done(InProgress)
    case Some(BeginConflict) => Done(Conflict)
    case Some(BeginStarted) => Pc.Dispatching
  }

  function SetPc(s: State, p: nat, pc: Pc): State
    requires p in s.handlers
  {
    s.(handlers := s.handlers[p := s.handlers[p].(pc := pc)])
  }

  ghost function LapseLog(log: Log, l: Limits, m: Entries, now: int): Log {
    log.(lapsed := log.lapsed + multiset(m.Keys - Fresh(l, m, now).Keys))
  }

  ghost function EvictLog(log: Log, before: set<string>, after: Entries): Log {
    log.(evicted := log.evicted + multiset(before - after.Keys))
  }

  ghost function BeginLog(log: Log, l: Limits, t: Tracker, h: Handler, now: int, answer: Option<Decision>,
                          t': Tracker): Log
  {
    if h.id == "" || h.fingerprint.None? then log
    else
      var lapsed := LapseLog(log, l, t.entries, now);
      if answer != Some(BeginStarted) then lapsed
      else EvictLog(lapsed.(started := lapsed.started + multiset{h.id}), Fresh(l, t.entries, now).Keys + {h.id},
                    t'.entries)
  }

  function Remember(latest: map<string, Past>, h: Handler, response: ExecutionResponse, now: int): map<string, Past> {
    if h.id == "" || h.fingerprint.None? then latest else latest[h.id := Past(h.fingerprint.value, response, now)]
  }

  ghost predicate Next(l: Limits, s: State, step: Step, s': State) {
    match step
    case ArriveStep(p, id, fp) =>
      p !in s.handlers && s' == s.(handlers := s.handlers[p := Handler(id, fp, Arrived)])
    case BeginStep(p, answer) =>
      && p in s.handlers && s.handlers[p].pc.Arrived?
      && var h := s.handlers[p];
         && Begins(l, s.tracker, h.id, h.fingerprint, s.clock, s'.tracker, answer)
         && s' == SetPc(s, p, AfterBegin(answer)).(tracker := s'.tracker,
                   log := BeginLog(s.log, l, s.tracker, h, s.clock, answer, s'.tracker))
    case DispatchOkStep(p, response) =>
      p in s.handlers && s.handlers[p].pc.Dispatching? && s' == SetPc(s, p, Completing(response))
    case DispatchFailStep(p) =>
      p in s.handlers && s.handlers[p].pc.Dispatching? && s' == SetPc(s, p, Forgetting)
    case CompleteStep(p) =>
      && p in s.handlers && s.handlers[p].pc.Completing?
      && var h := s.handlers[p];
         && Completes(l, s.tracker, h.id, h.pc.response, s.clock, s'.tracker)
         && s' == SetPc(s, p, Done(Executed(h.pc.response))).(tracker := s'.tracker,
                   latest := Remember(s.latest, h, h.pc.response, s.clock),
                   log := EvictLog(s.log, s.tracker.entries.Keys, s'.tracker.entries))
    case ForgetStep(p) =>
      && p in s.handlers && s.handlers[p].pc.Forgetting?
      && var id := s.handlers[p].id;
         s' == SetPc(s, p, Done(DispatchFailed)).(tracker := Forgets(s.tracker, id),
                 log := if id in s.tracker.entries then s.log.(forgotten := s.log.forgotten + multiset{id}) else s.log)
    case StatsStep =>
      s' == s.(tracker := Expire(l, s.tracker, s.clock), log := LapseLog(s.log, l, s.tracker.entries, s.clock))
    case TickStep(now) => s.clock <= now && s' == s.(clock := now)
  }

  ghost predicate Run(l: Limits, states: seq<State>, steps: seq<Step>) {
    && |states| == |steps| + 1
    && states[0] == Initial(states[0].clock)
    && forall i :: 0 <= i < |steps| ==> StepAt(l, states, steps, i)
  }

  ghost predicate StepAt(l: Limits, states: seq<State>, steps: seq<Step>, i: int)
    requires |states| == |steps| + 1 && 0 <= i < |steps|
  {
    Next(l, states[i], steps[i], states[i + 1])
  }

  // ---------------------------------------------------------------------------
  // Invariants
  // ---------------------------------------------------------------------------

  /** The handler dispatches, or has dispatched, a tracked ID that it has yet to settle. */
  predicate Owns(h: Handler, id: string) {
    id != "" && h.id == id && (h.pc.Dispatching? || h.pc.Completing? || h.pc.Forgetting?)
  }

  predicate Owner(hs: map<nat, Handler>, p: nat, id: string) {
    p in hs && Owns(hs[p], id)
  }

  predicate IsStarted(m: Entries, id: string) {
    id in m && m[id].progress.Started?
  }

  ghost predicate OwnersOk(hs: map<nat, Handler>, m: Entries) {
    && (forall p, id :: Owner(hs, p, id) ==> IsStarted(m, id) && hs[p].fingerprint == Some(m[id].fingerprint))
    && (forall id :: IsStarted(m, id) ==> exists p :: Owner(hs, p, id))
    && (forall p, q, id :: Owner(hs, p, id) && Owner(hs, q, id) ==> p == q)
  }

  ghost predicate ReplayOk(m: Entries, latest: map<string, Past>) {
    forall id :: id in m && m[id].progress.Completed? ==>
      id in latest && latest[id] == Past(m[id].fingerprint, m[id].progress.response, m[id].progress.completedAt)
  }

  /** Over the limit only when everything tracked is in flight. */
  ghost predicate FullOk(l: Limits, m: Entries) {
    |m| <= l.maxEntries || forall k :: k in m ==> m[k].progress.Started?
  }

  ghost predicate LedgerOk(log: Log, t: Tracker) {
    && log.started == multiset(t.entries.Keys) + log.evicted + log.lapsed + log.forgotten
    && |log.evicted| == t.evictions
    && |log.lapsed| == t.expired
  }

  ghost predicate Inv(l: Limits, s: State) {
    && SeenOk(s.tracker)
    && OwnersOk(s.handlers, s.tracker.entries)
    && ReplayOk(s.tracker.entries, s.latest)
    && FullOk(l, s.tracker.entries)
    && LedgerOk(s.log, s.tracker)
  }

  // ---------------------------------------------------------------------------
  // What a tracker call does to other IDs
  // ---------------------------------------------------------------------------

  /** Other IDs are untouched apart from the order of use, or are completed and dropped. */
  ghost predicate OthersKept(m: Entries, m': Entries, id: string) {
    && (forall k :: k in m' && k != id ==>
        k in m && m'[k].fingerprint == m[k].fingerprint && m'[k].progress == m[k].progress)
    && (forall k :: IsStarted(m, k) && k != id ==> k in m')
  }

  lemma TrimShape(max: int, m: Entries, kept: Entries, id: string)
    requires Trims(max, m, kept)
    ensures OthersKept(m, kept, id)
    ensures id in kept ==> kept[id] == m[id]
    ensures IsStarted(m, id) ==> id in kept
  {
  }

  lemma FreshShape(l: Limits, m: Entries, now: int, id: string)
    ensures OthersKept(m, Fresh(l, m, now), id)
    ensures id in Fresh(l, m, now) ==> id in m && Fresh(l, m, now)[id] == m[id]
    ensures IsStarted(m, id) ==> id in Fresh(l, m, now)
  {
  }

  lemma OthersKeptTwice(m: Entries, mid: Entries, m': Entries, id: string)
    requires OthersKept(m, mid, id) && OthersKept(mid, m', id)
    ensures OthersKept(m, m', id)
  {
  }

  lemma OthersKeptAll(m: Entries, m': Entries, id: string)
    requires OthersKept(m, m', id)
    requires id in m' ==> id in m && m'[id].fingerprint == m[id].fingerprint && m'[id].progress == m[id].progress
    requires IsStarted(m, id) ==> id in m'
    ensures OthersKept(m, m', "")
  {
  }

  lemma PutShape(t: Tracker, id: string, e: Entry)
    ensures OthersKept(t.entries, Put(t, id, e).entries, id)
  {
  }

  /** An answer other than Started: no entry gains or loses an owner. */
  lemma AnswerShape(l: Limits, t: Tracker, id: string, fp: Option<string>, now: int, t': Tracker,
                    answer: Option<Decision>)
    requires Begins(l, t, id, fp, now, t', answer) && answer != Some(BeginStarted)
    ensures OthersKept(t.entries, t'.entries, "")
  {
    if fp.Some? {
      var live := Expire(l, t, now);
      FreshShape(l, t.entries, now, id);
      PutShape(live, id, live.entries[id]);
      OthersKeptTwice(t.entries, live.entries, t'.entries, id);
      OthersKeptAll(t.entries, t'.entries, id);
    }
  }

  lemma StartShape(l: Limits, t: Tracker, id: string, fp: Option<string>, now: int, t': Tracker)
    requires Begins(l, t, id, fp, now, t', Some(BeginStarted)) && id != ""
    ensures fp.Some? && OthersKept(t.entries, t'.entries, id) && !IsStarted(t.entries, id)
    ensures IsStarted(t'.entries, id) && t'.entries[id].fingerprint == fp.value
  {
    var live := Expire(l, t, now);
    FreshShape(l, t.entries, now, id);
    var mid := Put(live, id, Entry(fp.value, Started, 0));
    PutShape(live, id, Entry(fp.value, Started, 0));
    TrimShape(l.maxEntries, mid.entries, t'.entries, id);
    OthersKeptTwice(t.entries, live.entries, mid.entries, id);
    OthersKeptTwice(t.entries, mid.entries, t'.entries, id);
  }

  lemma CompleteShape(l: Limits, t: Tracker, id: string, response: ExecutionResponse, now: int, t': Tracker)
    requires Completes(l, t, id, response, now, t') && id != ""
    ensures OthersKept(t.entries, t'.entries, id)
    ensures id in t'.entries ==>
              && id in t.entries && t'.entries[id].fingerprint == t.entries[id].fingerprint
              && t'.entries[id].progress == Completed(response, now)
  {
    if id in t.entries {
      var e := t.entries[id].(progress := Completed(response, now));
      PutShape(t, id, e);
      TrimShape(l.maxEntries, Put(t, id, e).entries, t'.entries, id);
      OthersKeptTwice(t.entries, Put(t, id, e).entries, t'.entries, id);
    }
  }

  // ---------------------------------------------------------------------------
  // Ownership
  // ---------------------------------------------------------------------------

  /** `h` replaces or extends the handlers without taking or settling ownership. */
  lemma IdleKeepsOwners(hs: map<nat, Handler>, m: Entries, p: nat, h: Handler, m': Entries)
    requires OwnersOk(hs, m) && OthersKept(m, m', "") && "" !in m'
    requires forall id :: Owns(h, id) <==> Owner(hs, p, id)
    requires p in hs ==> h.fingerprint == hs[p].fingerprint
    ensures OwnersOk(hs[p := h], m')
  {
    var hs' := hs[p := h];
    assert forall q, id :: Owner(hs', q, id) <==> Owner(hs, q, id);
    forall id | IsStarted(m', id)
      ensures exists q :: Owner(hs', q, id)
    {
      assert IsStarted(m, id);
      var q :| Owner(hs, q, id);
      assert Owner(hs', q, id);
    }
  }

  lemma TakeKeepsOwners(hs: map<nat, Handler>, m: Entries, p: nat, h: Handler, id: string, m': Entries)
    requires OwnersOk(hs, m) && OthersKept(m, m', id)
    requires !IsStarted(m, id) && IsStarted(m', id)
    requires Owns(h, id) && h.fingerprint == Some(m'[id].fingerprint)
    requires forall k :: !Owner(hs, p, k)
    ensures OwnersOk(hs[p := h], m')
  {
    var hs' := hs[p := h];
    assert forall q, k :: Owner(hs', q, k) <==> Owner(hs, q, k) || (q == p && k == id);
    forall k | IsStarted(m', k)
      ensures exists q :: Owner(hs', q, k)
    {
      if k == id {
        assert Owner(hs', p, k);
      } else {
        assert IsStarted(m, k);
        var q :| Owner(hs, q, k);
        assert Owner(hs', q, k);
      }
    }
  }

  lemma SettleKeepsOwners(hs: map<nat, Handler>, m: Entries, p: nat, h: Handler, id: string, m': Entries)
    requires OwnersOk(hs, m) && OthersKept(m, m', id)
    requires Owner(hs, p, id) && !IsStarted(m', id)
    requires forall k :: !Owns(h, k)
    ensures OwnersOk(hs[p := h], m')
  {
    var hs' := hs[p := h];
    assert forall q, k :: Owner(hs', q, k) <==> Owner(hs, q, k) && q != p;
    forall k | IsStarted(m', k)
      ensures exists q :: Owner(hs', q, k)
    {
      assert IsStarted(m, k);
      var q :| Owner(hs, q, k);
      assert Owner(hs', q, k);
    }
  }

  lemma SameHandlersKeepOwners(hs: map<nat, Handler>, m: Entries, m': Entries)
    requires OwnersOk(hs, m) && OthersKept(m, m', "") && "" !in m'
    ensures OwnersOk(hs, m')
  {
    forall id | IsStarted(m', id)
      ensures exists q :: Owner(hs, q, id)
    {
      assert IsStarted(m, id);
    }
  }

  /** What a step means for ownership: handler `p` moves to `h`, and takes, settles or does neither. */
  ghost predicate Idles(hs: map<nat, Handler>, m: Entries, p: nat, h: Handler, m': Entries) {
    && OthersKept(m, m', "")
    && (forall id :: Owns(h, id) <==> Owner(hs, p, id))
    && (p in hs ==> h.fingerprint == hs[p].fingerprint)
  }

  ghost predicate Takes(hs: map<nat, Handler>, m: Entries, p: nat, h: Handler, m': Entries) {
    && OthersKept(m, m', h.id)
    && !IsStarted(m, h.id) && IsStarted(m', h.id)
    && Owns(h, h.id) && h.fingerprint == Some(m'[h.id].fingerprint)
    && forall id :: !Owner(hs, p, id)
  }

  ghost predicate Settles(hs: map<nat, Handler>, m: Entries, p: nat, h: Handler, m': Entries) {
    && OthersKept(m, m', h.id)
    && Owner(hs, p, h.id) && !IsStarted(m', h.id)
    && forall id :: !Owns(h, id)
  }

  ghost predicate Shape(hs: map<nat, Handler>, m: Entries, p: nat, h: Handler, m': Entries) {
    Idles(hs, m, p, h, m') || Takes(hs, m, p, h, m') || Settles(hs, m, p, h, m')
  }

  lemma IdleShape(hs: map<nat, Handler>, m: Entries, p: nat, pc: Pc, m': Entries)
    requires p in hs && OthersKept(m, m', "")
    requires hs[p].id == "" || (!hs[p].pc.Dispatching? && !hs[p].pc.Completing? && !hs[p].pc.Forgetting? && pc.Done?)
    ensures Shape(hs, m, p, hs[p].(pc := pc), m')
  {
    assert Idles(hs, m, p, hs[p].(pc := pc), m');
  }

  lemma TakeShape(hs: map<nat, Handler>, m: Entries, p: nat, m': Entries)
    requires p in hs && hs[p].pc.Arrived? && hs[p].id != "" && OthersKept(m, m', hs[p].id) && !IsStarted(m, hs[p].id)
    requires IsStarted(m', hs[p].id) && Some(m'[hs[p].id].fingerprint) == hs[p].fingerprint
    ensures Shape(hs, m, p, hs[p].(pc := Pc.Dispatching), m')
  {
    assert Takes(hs, m, p, hs[p].(pc := Pc.Dispatching), m');
  }

  lemma SettleShape(hs: map<nat, Handler>, m: Entries, p: nat, reply: Reply, m': Entries)
    requires p in hs && (hs[p].pc.Completing? || hs[p].pc.Forgetting?) && hs[p].id != ""
    requires OthersKept(m, m', hs[p].id) && !IsStarted(m', hs[p].id)
    ensures Shape(hs, m, p, hs[p].(pc := Done(reply)), m')
  {
    assert Settles(hs, m, p, hs[p].(pc := Done(reply)), m');
  }

  lemma BeginStepShape(l: Limits, s: State, p: nat, answer: Option<Decision>, s': State)
    requires Next(l, s, BeginStep(p, answer), s')
    ensures Shape(s.handlers, s.tracker.entries, p, s.handlers[p].(pc := AfterBegin(answer)), s'.tracker.entries)
  {
    var h := s.handlers[p];
    if answer != Some(BeginStarted) {
      AnswerShape(l, s.tracker, h.id, h.fingerprint, s.clock, s'.tracker, answer);
      IdleShape(s.handlers, s.tracker.entries, p, AfterBegin(answer), s'.tracker.entries);
    } else if h.id == "" {
      IdleShape(s.handlers, s.tracker.entries, p, AfterBegin(answer), s'.tracker.entries);
    } else {
      StartShape(l, s.tracker, h.id, h.fingerprint, s.clock, s'.tracker);
      TakeShape(s.handlers, s.tracker.entries, p, s'.tracker.entries);
    }
  }

  lemma CompleteStepShape(l: Limits, s: State, p: nat, s': State)
    requires Next(l, s, CompleteStep(p), s')
    ensures Shape(s.handlers, s.tracker.entries, p, s'.handlers[p], s'.tracker.entries)
  {
    var h := s.handlers[p];
    if h.id == "" {
      IdleShape(s.handlers, s.tracker.entries, p, Done(Executed(h.pc.response)), s'.tracker.entries);
    } else {
      CompleteShape(l, s.tracker, h.id, h.pc.response, s.clock, s'.tracker);
      SettleShape(s.handlers, s.tracker.entries, p, Executed(h.pc.response), s'.tracker.entries);
    }
  }

  lemma ForgetStepShape(l: Limits, s: State, p: nat, s': State)
    requires Next(l, s, ForgetStep(p), s')
    ensures Shape(s.handlers, s.tracker.entries, p, s'.handlers[p], s'.tracker.entries)
  {
    if s.handlers[p].id == "" {
      IdleShape(s.handlers, s.tracker.entries, p, Done(DispatchFailed), s'.tracker.entries);
    } else {
      SettleShape(s.handlers, s.tracker.entries, p, DispatchFailed, s'.tracker.entries);
    }
  }

  lemma ShapeKeepsOwners(hs: map<nat, Handler>, m: Entries, p: nat, h: Handler, m': Entries)
    requires OwnersOk(hs, m) && Shape(hs, m, p, h, m') && "" !in m'
    ensures OwnersOk(hs[p := h], m')
  {
    if Idles(hs, m, p, h, m') {
      IdleKeepsOwners(hs, m, p, h, m');
    } else if Takes(hs, m, p, h, m') {
      TakeKeepsOwners(hs, m, p, h, h.id, m');
    } else {
      SettleKeepsOwners(hs, m, p, h, h.id, m');
    }
  }

  lemma NextShape(l: Limits, s: State, step: Step, s': State)
    requires Next(l, s, step, s')
    ensures step.StatsStep? || step.TickStep? ==>
          s'.handlers == s.handlers && OthersKept(s.tracker.entries, s'.tracker.entries, "")
    ensures !step.StatsStep? && !step.TickStep? ==>
              && step.p in s'.handlers && s'.handlers == s.handlers[step.p := s'.handlers[step.p]]
              && Shape(s.handlers, s.tracker.entries, step.p, s'.handlers[step.p], s'.tracker.entries)
  {
    match step
    case BeginStep(p, answer) => BeginStepShape(l, s, p, answer, s');
    case CompleteStep(p) => CompleteStepShape(l, s, p, s');
    case ForgetStep(p) => ForgetStepShape(l, s, p, s');
    case ArriveStep(p, _, _) =>
    case DispatchOkStep(p, _) =>
    case DispatchFailStep(p) =>
    case StatsStep => FreshShape(l, s.tracker.entries, s.clock, "");
    case TickStep(_) =>
  }

  lemma NextKeepsOwners(l: Limits, s: State, step: Step, s': State)
    requires Next(l, s, step, s') && OwnersOk(s.handlers, s.tracker.entries) && "" !in s'.tracker.entries
    ensures OwnersOk(s'.handlers, s'.tracker.entries)
  {
    NextShape(l, s, step, s');
    if step.StatsStep? || step.TickStep? {
      SameHandlersKeepOwners(s.handlers, s.tracker.entries, s'.tracker.entries);
    } else {
      ShapeKeepsOwners(s.handlers, s.tracker.entries, step.p, s'.handlers[step.p], s'.tracker.entries);
    }
  }

  // ---------------------------------------------------------------------------
  // Replay
  // ---------------------------------------------------------------------------

  lemma OthersKeepReplay(m: Entries, latest: map<string, Past>, id: string, m': Entries)
    requires ReplayOk(m, latest) && OthersKept(m, m', id) && (id in m' ==> IsStarted(m', id))
    ensures ReplayOk(m', latest)
  {
  }

  lemma CompleteKeepsReplay(m: Entries, latest: map<string, Past>, id: string, past: Past, m': Entries)
    requires ReplayOk(m, latest) && OthersKept(m, m', id)
    requires id in m' ==> m'[id].fingerprint == past.fingerprint && m'[id].progress == Completed(past.response, past.at)
    ensures ReplayOk(m', latest[id := past])
  {
  }

  lemma CompleteStepKeepsReplay(l: Limits, s: State, p: nat, s': State)
    requires Next(l, s, CompleteStep(p), s') && "" !in s.tracker.entries
    requires ReplayOk(s.tracker.entries, s.latest) && OwnersOk(s.handlers, s.tracker.entries)
    ensures ReplayOk(s'.tracker.entries, s'.latest)
  {
    var h := s.handlers[p];
    if h.id != "" {
      assert Owner(s.handlers, p, h.id);
      CompleteShape(l, s.tracker, h.id, h.pc.response, s.clock, s'.tracker);
      CompleteKeepsReplay(s.tracker.entries, s.latest, h.id,
                          Past(h.fingerprint.value, h.pc.response, s.clock), s'.tracker.entries);
    }
  }

  lemma NextKeepsReplay(l: Limits, s: State, step: Step, s': State)
    requires Next(l, s, step, s') && "" !in s.tracker.entries && "" !in s'.tracker.entries
    requires ReplayOk(s.tracker.entries, s.latest) && OwnersOk(s.handlers, s.tracker.entries)
    ensures ReplayOk(s'.tracker.entries, s'.latest)
  {
    match step
    case BeginStep(p, answer) =>
      var h := s.handlers[p];
      if answer != Some(BeginStarted) {
        AnswerShape(l, s.tracker, h.id, h.fingerprint, s.clock, s'.tracker, answer);
        OthersKeepReplay(s.tracker.entries, s.latest, "", s'.tracker.entries);
      } else if h.id != "" {
        StartShape(l, s.tracker, h.id, h.fingerprint, s.clock, s'.tracker);
        OthersKeepReplay(s.tracker.entries, s.latest, h.id, s'.tracker.entries);
      }
    case CompleteStep(p) => CompleteStepKeepsReplay(l, s, p, s');
    case _ =>
  }

  // ---------------------------------------------------------------------------
  // Order of use and size
  // ---------------------------------------------------------------------------

  lemma BeginKeepsSeen(l: Limits, t: Tracker, id: string, fp: Option<string>, now: int, t': Tracker,
                       answer: Option<Decision>)
    requires Begins(l, t, id, fp, now, t', answer) && SeenOk(t)
    ensures SeenOk(t')
  {
    if id != "" && fp.Some? {
      var live := Expire(l, t, now);
      ExpireKeepsSeen(l, t, now);
      if id !in live.entries {
        var e := Entry(fp.value, Started, 0);
        PutKeepsSeen(live, id, e);
        EvictKeepsSeen(l.maxEntries, Put(live, id, e), t');
      } else if answer.value.BeginCompleted? {
        PutKeepsSeen(live, id, live.entries[id]);
      }
    }
  }

  lemma CompleteKeepsSeen(l: Limits, t: Tracker, id: string, response: ExecutionResponse, now: int, t': Tracker)
    requires Completes(l, t, id, response, now, t') && SeenOk(t)
    ensures SeenOk(t')
  {
    if id != "" && id in t.entries {
      var e := t.entries[id].(progress := Completed(response, now));
      PutKeepsSeen(t, id, e);
      EvictKeepsSeen(l.maxEntries, Put(t, id, e), t');
    }
  }

  lemma NextKeepsSeen(l: Limits, s: State, step: Step, s': State)
    requires Next(l, s, step, s') && SeenOk(s.tracker)
    ensures SeenOk(s'.tracker)
  {
    match step
    case BeginStep(p, answer) =>
      BeginKeepsSeen(l, s.tracker, s.handlers[p].id, s.handlers[p].fingerprint, s.clock, s'.tracker, answer);
    case CompleteStep(p) =>
      CompleteKeepsSeen(l, s.tracker, s.handlers[p].id, s.handlers[p].pc.response, s.clock, s'.tracker);
    case StatsStep => ExpireKeepsSeen(l, s.tracker, s.clock);
    case _ =>
  }

  lemma SubsetKeepsFull(l: Limits, m: Entries, m': Entries)
    requires FullOk(l, m) && m'.Keys <= m.Keys && forall k :: k in m' ==> m'[k].progress == m[k].progress
    ensures FullOk(l, m')
  {
    assert m.Keys == m'.Keys + (m.Keys - m'.Keys);
  }

  lemma NextKeepsFull(l: Limits, s: State, step: Step, s': State)
    requires Next(l, s, step, s') && FullOk(l, s.tracker.entries)
    ensures FullOk(l, s'.tracker.entries)
  {
    match step
    case BeginStep(p, answer) =>
      if answer != Some(BeginStarted) {
        SubsetKeepsFull(l, s.tracker.entries, s'.tracker.entries);
      }
    case CompleteStep(p) =>
    case ForgetStep(p) => SubsetKeepsFull(l, s.tracker.entries, s'.tracker.entries);
    case StatsStep => SubsetKeepsFull(l, s.tracker.entries, s'.tracker.entries);
    case _ =>
  }

  // ---------------------------------------------------------------------------
  // Conservation of entries
  // ---------------------------------------------------------------------------

  lemma DropKeepsSum(all: set<string>, kept: set<string>, total: multiset<string>, a: multiset<string>,
                     b: multiset<string>, c: multiset<string>)
    requires kept <= all && total == multiset(all) + a + b + c
    ensures total == multiset(kept) + (a + multiset(all - kept)) + b + c
    ensures |a + multiset(all - kept)| == |a| + |all - kept|
  {
    KeptAndGoneKeys(all, kept);
  }

  lemma LapseKeepsLedger(l: Limits, log: Log, t: Tracker, now: int)
    requires LedgerOk(log, t)
    ensures LedgerOk(LapseLog(log, l, t.entries, now), Expire(l, t, now))
  {
    DropKeepsSum(t.entries.Keys, Fresh(l, t.entries, now).Keys, log.started, log.lapsed, log.evicted, log.forgotten);
  }

  lemma EvictKeepsLedger(max: int, log: Log, before: Tracker, after: Tracker)
    requires LedgerOk(log, before) && Evicts(max, before, after)
    ensures LedgerOk(EvictLog(log, before.entries.Keys, after.entries), after)
  {
    DropKeepsSum(before.entries.Keys, after.entries.Keys, log.started, log.evicted, log.lapsed, log.forgotten);
  }

  lemma InsertKeepsLedger(log: Log, t: Tracker, id: string, e: Entry)
    requires LedgerOk(log, t) && id !in t.entries
    ensures Put(t, id, e).entries.Keys == t.entries.Keys + {id}
    ensures LedgerOk(log.(started := log.started + multiset{id}), Put(t, id, e))
  {
    assert Put(t, id, e).entries.Keys == t.entries.Keys + {id};
    assert multiset(t.entries.Keys + {id}) == multiset(t.entries.Keys) + multiset{id};
  }

  lemma RefreshKeepsLedger(log: Log, t: Tracker, id: string, e: Entry)
    requires LedgerOk(log, t) && id in t.entries
    ensures Put(t, id, e).entries.Keys == t.entries.Keys
    ensures LedgerOk(log, Put(t, id, e))
  {
    assert Put(t, id, e).entries.Keys == t.entries.Keys;
  }

  lemma ForgetKeepsLedger(log: Log, t: Tracker, id: string)
    requires LedgerOk(log, t) && id in t.entries
    ensures LedgerOk(log.(forgotten := log.forgotten + multiset{id}), Forgets(t, id))
  {
    assert Forgets(t, id).entries.Keys == t.entries.Keys - {id};
    assert multiset(t.entries.Keys) == multiset(t.entries.Keys - {id}) + multiset{id};
  }

  lemma BeginKeepsLedger(l: Limits, log: Log, t: Tracker, h: Handler, now: int, answer: Option<Decision>, t': Tracker)
    requires LedgerOk(log, t) && Begins(l, t, h.id, h.fingerprint, now, t', answer)
    ensures LedgerOk(BeginLog(log, l, t, h, now, answer, t'), t')
  {
    if h.id != "" && h.fingerprint.Some? {
      var live := Expire(l, t, now);
      var lapsed := LapseLog(log, l, t.entries, now);
      LapseKeepsLedger(l, log, t, now);
      if h.id !in live.entries {
        var e := Entry(h.fingerprint.value, Started, 0);
        InsertKeepsLedger(lapsed, live, h.id, e);
        EvictKeepsLedger(l.maxEntries, lapsed.(started := lapsed.started + multiset{h.id}), Put(live, h.id, e), t');
      } else if answer.value.BeginCompleted? {
        RefreshKeepsLedger(lapsed, live, h.id, live.entries[h.id]);
      }
    }
  }

  lemma CompleteKeepsLedger(l: Limits, log: Log, t: Tracker, id: string, response: ExecutionResponse, now: int,
                            t': Tracker)
    requires LedgerOk(log, t) && Completes(l, t, id, response, now, t')
    ensures LedgerOk(EvictLog(log, t.entries.Keys, t'.entries), t')
  {
    if id != "" && id in t.entries {
      var e := t.entries[id].(progress := Completed(response, now));
      RefreshKeepsLedger(log, t, id, e);
      EvictKeepsLedger(l.maxEntries, log, Put(t, id, e), t');
    } else {
      assert EvictLog(log, t.entries.Keys, t'.entries) == log;
    }
  }

  lemma NextKeepsLedger(l: Limits, s: State, step: Step, s': State)
    requires Next(l, s, step, s') && LedgerOk(s.log, s.tracker)
    ensures LedgerOk(s'.log, s'.tracker)
  {
    match step
    case BeginStep(p, answer) => BeginKeepsLedger(l, s.log, s.tracker, s.handlers[p], s.clock, answer, s'.tracker);
    case CompleteStep(p) =>
      CompleteKeepsLedger(l, s.log, s.tracker, s.handlers[p].id, s.handlers[p].pc.response, s.clock, s'.tracker);
    case ForgetStep(p) =>
      if s.handlers[p].id in s.tracker.entries {
        ForgetKeepsLedger(s.log, s.tracker, s.handlers[p].id);
      } else {
        assert Forgets(s.tracker, s.handlers[p].id) == s.tracker;
      }
    case StatsStep => LapseKeepsLedger(l, s.log, s.tracker, s.clock);
    case _ =>
  }

  // ---------------------------------------------------------------------------
  // Runs
  // ---------------------------------------------------------------------------

  lemma NextKeepsInv(l: Limits, s: State, step: Step, s': State)
    requires Inv(l, s) && Next(l, s, step, s')
    ensures Inv(l, s')
  {
    NextKeepsSeen(l, s, step, s');
    NextKeepsOwners(l, s, step, s');
    NextKeepsReplay(l, s, step, s');
    NextKeepsFull(l, s, step, s');
    NextKeepsLedger(l, s, step, s');
  }

  lemma StepOfRun(l: Limits, states: seq<State>, steps: seq<Step>, i: nat)
    requires Run(l, states, steps) && i < |steps|
    ensures Next(l, states[i], steps[i], states[i + 1])
  {
    assert StepAt(l, states, steps, i);
  }

  lemma {:induction false} RunKeepsInv(l: Limits, states: seq<State>, steps: seq<Step>, i: nat)
    requires Run(l, states, steps) && ValidLimits(l) && i <= |steps|
    ensures Inv(l, states[i])
  {
    if i > 0 {
      RunKeepsInv(l, states, steps, i - 1);
      StepOfRun(l, states, steps, i - 1);
      NextKeepsInv(l, states[i - 1], steps[i - 1], states[i]);
    }
  }

  // ---------------------------------------------------------------------------
  // Main results
  // ---------------------------------------------------------------------------

  /** A tracked ID is in flight exactly when one handler owns it, and that handler's Complete finds the entry. */
  lemma AtMostOneDispatch(l: Limits, states: seq<State>, steps: seq<Step>, i: nat, id: string)
    requires Run(l, states, steps) && ValidLimits(l) && i <= |steps| && id != ""
    ensures var s := states[i];
            && (IsStarted(s.tracker.entries, id) <==> exists p :: Owner(s.handlers, p, id))
            && (forall p, q :: Owner(s.handlers, p, id) && Owner(s.handlers, q, id) ==> p == q)
            && (forall p :: Owner(s.handlers, p, id) ==>
                  IsStarted(s.tracker.entries, id)
                      && Some(s.tracker.entries[id].fingerprint) == s.handlers[p].fingerprint)
  {
    RunKeepsInv(l, states, steps, i);
  }

  /** A replayed response is the one of the latest Complete of that ID, from an equal request, at most ttl old. */
  lemma ReplayIsLatest(l: Limits, states: seq<State>, steps: seq<Step>, i: nat, p: nat, response: ExecutionResponse)
    requires Run(l, states, steps) && ValidLimits(l)
    requires i < |steps| && steps[i] == BeginStep(p, Some(BeginCompleted(response)))
    ensures p in states[i].handlers
    ensures var s, h := states[i], states[i].handlers[p];
            && h.id in s.latest && h.fingerprint == Some(s.latest[h.id].fingerprint)
            && s.latest[h.id].response == response && s.clock - s.latest[h.id].at <= l.ttl
    ensures p in states[i + 1].handlers && states[i + 1].handlers[p].pc == Done(Replayed(response))
  {
    RunKeepsInv(l, states, steps, i);
    StepOfRun(l, states, steps, i);
  }

  /** Each answer has its reply. */
  lemma AnswerHasReply(l: Limits, s: State, p: nat, answer: Option<Decision>, s': State)
    requires Next(l, s, BeginStep(p, answer), s')
    ensures p in s'.handlers
    ensures match answer
            case None => s'.handlers[p].pc == Done(Invalid)
            case Some(BeginInFlight) => s'.handlers[p].pc == Done(InProgress)
            case Some(BeginConflict) => s'.handlers[p].pc == Done(Conflict)
            case Some(BeginCompleted(response)) => s'.handlers[p].pc == Done(Replayed(response))
            case Some(BeginStarted) => s'.handlers[p].pc.Dispatching?
  {
  }

  /** A refusal is justified: someone else owns the ID, or it completed recently for a different request. */
  lemma RefusalIsJustified(l: Limits, states: seq<State>, steps: seq<Step>, i: nat, p: nat, answer: Decision)
    requires Run(l, states, steps) && ValidLimits(l)
    requires i < |steps| && steps[i] == BeginStep(p, Some(answer)) && (answer.BeginInFlight? || answer.BeginConflict?)
    ensures p in states[i].handlers && Justified(l, states[i], p, answer)
    ensures p in states[i + 1].handlers
    ensures states[i + 1].handlers[p].pc == if answer.BeginInFlight? then Done(InProgress) else Done(Conflict)
  {
    RunKeepsInv(l, states, steps, i);
    StepOfRun(l, states, steps, i);
    AnswerHasReply(l, states[i], p, Some(answer), states[i + 1]);
    RefusalCause(l, states[i], p, answer, states[i + 1]);
  }

  /** In progress: someone else owns the ID for an equal request. Conflict: someone else owns it for a different one, or
  it completed for a different one at most ttl ago. */
  ghost predicate Justified(l: Limits, s: State, p: nat, answer: Decision)
    requires p in s.handlers
  {
    var h := s.handlers[p];
    && (answer.BeginInFlight? ==>
          exists q :: q != p && Owner(s.handlers, q, h.id) && s.handlers[q].fingerprint == h.fingerprint)
    && (answer.BeginConflict? ==>
          || (exists q :: q != p && Owner(s.handlers, q, h.id) && s.handlers[q].fingerprint != h.fingerprint)
          || (h.id in s.latest && h.fingerprint != Some(s.latest[h.id].fingerprint)
              && s.clock - s.latest[h.id].at <= l.ttl))
  }

  lemma RefusalCause(l: Limits, s: State, p: nat, answer: Decision, s': State)
    requires OwnersOk(s.handlers, s.tracker.entries) && ReplayOk(s.tracker.entries, s.latest)
    requires Next(l, s, BeginStep(p, Some(answer)), s') && (answer.BeginInFlight? || answer.BeginConflict?)
    ensures Justified(l, s, p, answer)
  {
    var h, m := s.handlers[p], s.tracker.entries;
    assert h.id in m && m[h.id] == Fresh(l, m, s.clock)[h.id];
    if IsStarted(m, h.id) {
      var q :| Owner(s.handlers, q, h.id);
    }
  }

  /** All the ways an ID's entry can have gone. */
  function Removals(log: Log): multiset<string> {
    log.evicted + log.lapsed + log.forgotten
  }

  ghost predicate StartsAt(states: seq<State>, steps: seq<Step>, i: nat, id: string)
    requires |states| == |steps| + 1
  {
    && i < |steps| && steps[i].BeginStep? && steps[i].answer == Some(BeginStarted)
    && steps[i].p in states[i].handlers && states[i].handlers[steps[i].p].id == id
  }

  lemma {:induction false} StartedGrows(l: Limits, states: seq<State>, steps: seq<Step>, i: nat, j: nat, id: string)
    requires Run(l, states, steps) && i <= j <= |steps|
    ensures states[i].log.started[id] <= states[j].log.started[id]
  {
    if i < j {
      StartedGrows(l, states, steps, i, j - 1, id);
      StepOfRun(l, states, steps, j - 1);
    }
  }

  lemma StartInserts(l: Limits, states: seq<State>, steps: seq<Step>, i: nat, id: string)
    requires Run(l, states, steps) && ValidLimits(l) && id != "" && StartsAt(states, steps, i, id)
    ensures states[i + 1].log.started[id] == states[i].log.started[id] + 1
    ensures states[i + 1].log.started[id] == 1 + Removals(states[i + 1].log)[id]
  {
    RunKeepsInv(l, states, steps, i + 1);
    StepOfRun(l, states, steps, i);
    var h := states[i].handlers[steps[i].p];
    StartShape(l, states[i].tracker, id, h.fingerprint, states[i].clock, states[i + 1].tracker);
  }

  /** Between two Started answers for one ID, that ID's entry was forgotten, expired or evicted. */
  lemma RestartNeedsRemoval(l: Limits, states: seq<State>, steps: seq<Step>, i: nat, j: nat, id: string)
    requires Run(l, states, steps) && ValidLimits(l) && id != ""
    requires i < j && StartsAt(states, steps, i, id) && StartsAt(states, steps, j, id)
    ensures Removals(states[i + 1].log)[id] < Removals(states[j + 1].log)[id]
  {
    StartInserts(l, states, steps, i, id);
    StartInserts(l, states, steps, j, id);
    StartedGrows(l, states, steps, i + 1, j, id);
    MoreStartsMoreRemovals(states[i + 1].log, states[j].log, states[j + 1].log, id);
  }

  lemma MoreStartsMoreRemovals(first: Log, between: Log, last: Log, id: string)
    requires first.started[id] == 1 + Removals(first)[id] && last.started[id] == 1 + Removals(last)[id]
    requires first.started[id] <= between.started[id] < last.started[id]
    ensures Removals(first)[id] < Removals(last)[id]
  {
  }

  /** Inserts == entries + evictions + expired + forgotten, ID by ID and in total. */
  lemma EntriesConserved(l: Limits, states: seq<State>, steps: seq<Step>, i: nat)
    requires Run(l, states, steps) && ValidLimits(l) && i <= |steps|
    ensures var t, log := states[i].tracker, states[i].log;
            && log.started == multiset(t.entries.Keys) + Removals(log)
            && |log.started| == |t.entries| + t.evictions + t.expired + |log.forgotten|
  {
    RunKeepsInv(l, states, steps, i);
    var t, log := states[i].tracker, states[i].log;
    SumOfFour(log.started, t.entries.Keys, log.evicted, log.lapsed, log.forgotten);
  }

  lemma SumOfFour(total: multiset<string>, keys: set<string>, a: multiset<string>, b: multiset<string>,
                  c: multiset<string>)
    requires total == multiset(keys) + a + b + c
    ensures total == multiset(keys) + (a + b + c) && |total| == |keys| + |a| + |b| + |c|
  {
  }

  /** The table holds at most max(maxEntries, IDs in flight); order-of-use stamps are distinct and bounded. */
  lemma TableBounded(l: Limits, states: seq<State>, steps: seq<Step>, i: nat)
    requires Run(l, states, steps) && ValidLimits(l) && i <= |steps|
    ensures var t := states[i].tracker;
            && (|t.entries| <= l.maxEntries || |t.entries| <= |InFlight(t.entries)|)
            && (forall id :: id in InFlight(t.entries) <==> exists p :: Owner(states[i].handlers, p, id))
            && SeenOk(t)
  {
    RunKeepsInv(l, states, steps, i);
    var t := states[i].tracker;
    if |t.entries| > l.maxEntries {
      assert InFlight(t.entries) == t.entries.Keys;
    }
    forall id
      ensures id in InFlight(t.entries) <==> exists p :: Owner(states[i].handlers, p, id)
    {
      assert id in InFlight(t.entries) <==> IsStarted(t.entries, id);
    }
  }

  /** No handler is ever stuck: each one that is not done has a next step. */
  lemma HandlerCanStep(l: Limits, states: seq<State>, steps: seq<Step>, i: nat, p: nat)
    returns (step: Step, s': State)
    requires Run(l, states, steps) && ValidLimits(l) && i <= |steps|
    requires p in states[i].handlers && !states[i].handlers[p].pc.Done?
    ensures Next(l, states[i], step, s') && !step.ArriveStep? && !step.StatsStep? && !step.TickStep? && step.p == p
  {
    RunKeepsInv(l, states, steps, i);
    var s := states[i];
    var h := s.handlers[p];
    match h.pc
    case Arrived =>
      var t', answer := BeginExists(l, s.tracker, h.id, h.fingerprint, s.clock);
      step := BeginStep(p, answer);
      s' := SetPc(s, p, AfterBegin(answer)).(tracker := t',
                                             log := BeginLog(s.log, l, s.tracker, h, s.clock, answer, t'));
    case Dispatching =>
      step, s' := DispatchFailStep(p), SetPc(s, p, Forgetting);
    case Completing(response) =>
      var t' := CompleteExists(l, s.tracker, h.id, response, s.clock);
      step := CompleteStep(p);
      s' := SetPc(s, p, Done(Executed(response))).(tracker := t', latest := Remember(s.latest, h, response, s.clock),
                  log := EvictLog(s.log, s.tracker.entries.Keys, t'.entries));
    case Forgetting =>
      step := ForgetStep(p);
      s' := SetPc(s, p, Done(DispatchFailed)).(tracker := Forgets(s.tracker, h.id),
              log := if h.id in s.tracker.entries then s.log.(forgotten := s.log.forgotten + multiset{h.id})
                  else s.log);
  }

  lemma EvictExists(l: Limits, t: Tracker) returns (t': Tracker)
    requires SeenOk(t)
    ensures Evicts(l.maxEntries, t, t')
  {
    var kept := TrimsExists(l.maxEntries, t.entries);
    t' := t.(entries := kept, evictions := t.evictions + Gone(t.entries, kept));
  }

  lemma BeginExists(l: Limits, t: Tracker, id: string, fp: Option<string>, now: int)
    returns (t': Tracker, answer: Option<Decision>)
    requires SeenOk(t)
    ensures Begins(l, t, id, fp, now, t', answer)
  {
    if id == "" {
      t', answer := t, Some(BeginStarted);
    } else if fp.None? {
      t', answer := t, None;
    } else {
      var live := Expire(l, t, now);
      if id !in live.entries {
        var e := Entry(fp.value, Started, 0);
        ExpireKeepsSeen(l, t, now);
        PutKeepsSeen(live, id, e);
        t' := EvictExists(l, Put(live, id, e));
        answer := Some(BeginStarted);
      } else {
        var e := live.entries[id];
        t' := if e.fingerprint == fp.value && e.progress.Completed? then Put(live, id, e) else live;
        answer := Some(if e.fingerprint != fp.value then BeginConflict
                       else if e.progress.Started? then BeginInFlight else BeginCompleted(e.progress.response));
      }
    }
  }

  lemma CompleteExists(l: Limits, t: Tracker, id: string, response: ExecutionResponse, now: int) returns (t': Tracker)
    requires SeenOk(t)
    ensures Completes(l, t, id, response, now, t')
  {
    if id == "" || id !in t.entries {
      t' := t;
    } else {
      var e := t.entries[id].(progress := Completed(response, now));
      PutKeepsSeen(t, id, e);
      t' := EvictExists(l, Put(t, id, e));
    }
  }

  // ---------------------------------------------------------------------------
  // One handler from beginning to end
  // ---------------------------------------------------------------------------

  lemma RunExtends(l: Limits, states: seq<State>, steps: seq<Step>, step: Step, s': State)
    requires Run(l, states, steps) && Next(l, states[|steps|], step, s')
    ensures Run(l, states + [s'], steps + [step])
  {
    forall i | 0 <= i <= |steps|
      ensures StepAt(l, states + [s'], steps + [step], i)
    {
      if i < |steps| {
        assert StepAt(l, states, steps, i);
      }
    }
  }

  /** A request arrives and begins. */
  lemma BeginRuns(l: Limits, states: seq<State>, steps: seq<Step>, p: nat, id: string, fp: Option<string>)
    returns (states': seq<State>, steps': seq<Step>, answer: Option<Decision>)
    requires Run(l, states, steps) && ValidLimits(l) && p !in states[|steps|].handlers
    ensures Run(l, states', steps') && states <= states'
    ensures var s, s' := states[|steps|], states'[|steps'|];
      && Begins(l, s.tracker, id, fp, s.clock, s'.tracker, answer) && s'.clock == s.clock
      && p in s'.handlers && s'.handlers[p] == Handler(id, fp, AfterBegin(answer))
  {
    RunKeepsInv(l, states, steps, |steps|);
    var s := states[|steps|];
    var h := Handler(id, fp, Arrived);
    var s1 := s.(handlers := s.handlers[p := h]);
    RunExtends(l, states, steps, ArriveStep(p, id, fp), s1);
    var t';
    t', answer := BeginExists(l, s.tracker, id, fp, s.clock);
    var s2 := SetPc(s1, p, AfterBegin(answer)).(
      tracker := t', log := BeginLog(s1.log, l, s1.tracker, h, s1.clock, answer, t'));
    RunExtends(l, states + [s1], steps + [ArriveStep(p, id, fp)], BeginStep(p, answer), s2);
    states', steps' := states + [s1] + [s2], steps + [ArriveStep(p, id, fp)] + [BeginStep(p, answer)];
  }

  /** It dispatches, and completes or forgets. */
  lemma DispatchRuns(l: Limits, states: seq<State>, steps: seq<Step>, p: nat, result: Option<ExecutionResponse>)
    returns (states': seq<State>, steps': seq<Step>)
    requires Run(l, states, steps) && ValidLimits(l)
    requires p in states[|steps|].handlers && states[|steps|].handlers[p].pc.Dispatching?
    ensures Run(l, states', steps') && states <= states' && p in states'[|steps'|].handlers
    ensures var s, s', id := states[|steps|], states'[|steps'|], states[|steps|].handlers[p].id;
      match result
      case Some(response) =>
        Completes(l, s.tracker, id, response, s.clock, s'.tracker) && s'.handlers[p].pc == Done(Executed(response))
      case None => s'.tracker == Forgets(s.tracker, id) && s'.handlers[p].pc == Done(DispatchFailed)
  {
    RunKeepsInv(l, states, steps, |steps|);
    var s := states[|steps|];
    var pc := if result.Some? then Completing(result.value) else Forgetting;
    var back := if result.Some? then DispatchOkStep(p, result.value) else DispatchFailStep(p);
    var s1 := SetPc(s, p, pc);
    RunExtends(l, states, steps, back, s1);
    var h := s1.handlers[p];
    var step, s2;
    if result.Some? {
      var t' := CompleteExists(l, s1.tracker, h.id, result.value, s1.clock);
      step := CompleteStep(p);
      s2 := SetPc(s1, p, Done(Executed(result.value))).(
        tracker := t', latest := Remember(s1.latest, h, result.value, s1.clock),
        log := EvictLog(s1.log, s1.tracker.entries.Keys, t'.entries));
    } else {
      step := ForgetStep(p);
      s2 := SetPc(s1, p, Done(DispatchFailed)).(
        tracker := Forgets(s1.tracker, h.id),
        log := if h.id in s1.tracker.entries then s1.log.(forgotten := s1.log.forgotten + multiset{h.id}) else s1.log);
    }
    RunExtends(l, states + [s1], steps + [back], step, s2);
    states', steps' := states + [s1] + [s2], steps + [back] + [step];
  }

  /** The sequential handler, whatever Begin answers and however the dispatch ends, is a run of the protocol. */
  lemma UndisturbedHandle(l: Limits, states: seq<State>, steps: seq<Step>, p: nat, id: string, fp: Option<string>,
                          result: Option<ExecutionResponse>)
    returns (states': seq<State>, steps': seq<Step>, answer: Option<Decision>, mid: Tracker)
    requires Run(l, states, steps) && ValidLimits(l) && p !in states[|steps|].handlers
    ensures Run(l, states', steps') && states <= states' && p in states'[|steps'|].handlers
    ensures var s, s' := states[|steps|], states'[|steps'|];
      && Begins(l, s.tracker, id, fp, s.clock, mid, answer)
      && match answer
         case Some(BeginStarted) =>
           (match result
            case Some(response) =>
              Completes(l, mid, id, response, s.clock, s'.tracker) && s'.handlers[p].pc == Done(Executed(response))
            case None => s'.tracker == Forgets(mid, id) && s'.handlers[p].pc == Done(DispatchFailed))
         case _ => s'.tracker == mid && s'.handlers[p].pc == AfterBegin(answer)
  {
    states', steps', answer := BeginRuns(l, states, steps, p, id, fp);
    mid := states'[|steps'|].tracker;
    if answer == Some(BeginStarted) {
      states', steps' := DispatchRuns(l, states', steps', p, result);
    }
  }
}
