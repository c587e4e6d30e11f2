/** What the tracker keeps: recent completions are replayed, and eviction follows the order of use.

Ages are differences of clock values of the run, and the order of use is the order of the
steps that stamped an ID.
*/
module TrackerRetention {
  import opened Text
  import opened JobStore
  import opened RequestTracker
  import opened TrackerProtocol

  // ---------------------------------------------------------------------------
  // Recent completions
  // ---------------------------------------------------------------------------

  /** The table holds this completion. */
  predicate Holds(m: Entries, id: string, fp: string, response: ExecutionResponse, at: int) {
    id in m && m[id].fingerprint == fp && m[id].progress == Completed(response, at)
  }

  lemma ExpireHolds(l: Limits, m: Entries, now: int, id: string, fp: string, response: ExecutionResponse, at: int)
    requires Holds(m, id, fp, response, at) && now - at <= l.ttl
    ensures Holds(Fresh(l, m, now), id, fp, response, at)
  {
  }

  /** A Begin that does not evict the ID keeps its recent completion. */
  lemma BeginHolds(l: Limits, log: Log, t: Tracker, h: Handler, now: int, answer: Option<Decision>, t': Tracker,
                   id: string, fp: string, response: ExecutionResponse, at: int)
    requires Begins(l, t, h.id, h.fingerprint, now, t', answer)
    requires Holds(t.entries, id, fp, response, at) && now - at <= l.ttl
    requires BeginLog(log, l, t, h, now, answer, t').evicted[id] == log.evicted[id]
    ensures Holds(t'.entries, id, fp, response, at)
  {
    if h.id != "" && h.fingerprint.Some? {
      ExpireHolds(l, t.entries, now, id, fp, response, at);
      var live := Expire(l, t, now);
      if h.id !in live.entries {
        var mid := Put(live, h.id, Entry(h.fingerprint.value, Started, 0));
        EvictHolds(l.maxEntries, mid.entries, t'.entries, id);
        NotEvicted(Fresh(l, t.entries, now).Keys + {h.id}, t'.entries, LapseLog(log, l, t.entries, now), id);
      }
    }
  }

  /** An ID that the log does not count as evicted is still there. */
  lemma NotEvicted(all: set<string>, kept: Entries, log: Log, id: string)
    requires id in all
    ensures EvictLog(log, all, kept).evicted[id] == log.evicted[id] + if id in kept then 0 else 1
  {
    assert id in all - kept.Keys <==> id !in kept;
  }

  lemma EvictHolds(max: int, m: Entries, kept: Entries, id: string)
    requires Trims(max, m, kept)
    ensures id in kept ==> id in m && kept[id] == m[id]
  {
  }

  /** Completing another ID, without evicting this one. */
  lemma OtherCompleteHolds(l: Limits, log: Log, t: Tracker, other: string, r: ExecutionResponse, now: int, t': Tracker,
                           id: string, fp: string, response: ExecutionResponse, at: int)
    requires Completes(l, t, other, r, now, t') && other != id && Holds(t.entries, id, fp, response, at)
    requires EvictLog(log, t.entries.Keys, t'.entries).evicted[id] == log.evicted[id]
    ensures Holds(t'.entries, id, fp, response, at)
  {
    if other != "" && other in t.entries {
      var mid := Put(t, other, t.entries[other].(progress := Completed(r, now)));
      EvictHolds(l.maxEntries, mid.entries, t'.entries, id);
      NotEvicted(t.entries.Keys, t'.entries, log, id);
    }
  }

  /** The completion itself, unless it evicts what it completes. */
  lemma OwnCompleteHolds(l: Limits, log: Log, t: Tracker, id: string, r: ExecutionResponse, now: int, t': Tracker)
    requires Completes(l, t, id, r, now, t') && id != "" && id in t.entries
    requires EvictLog(log, t.entries.Keys, t'.entries).evicted[id] == log.evicted[id]
    ensures Holds(t'.entries, id, t.entries[id].fingerprint, r, now)
  {
    var mid := Put(t, id, t.entries[id].(progress := Completed(r, now)));
    EvictHolds(l.maxEntries, mid.entries, t'.entries, id);
    NotEvicted(t.entries.Keys, t'.entries, log, id);
  }

  /** A handler that completes or forgets a tracked ID owns it, so the ID has no completion to lose. */
  lemma SettlesAnother(s: State, p: nat, id: string, fp: string, response: ExecutionResponse, at: int)
    requires OwnersOk(s.handlers, s.tracker.entries) && p in s.handlers && id != ""
    requires s.handlers[p].pc.Completing? || s.handlers[p].pc.Forgetting?
    requires Holds(s.tracker.entries, id, fp, response, at)
    ensures s.handlers[p].id != id
  {
    assert s.handlers[p].id == id ==> Owner(s.handlers, p, id);
  }

  /** A step that does not evict the ID keeps its recent completion. */
  lemma NextHolds(l: Limits, s: State, step: Step, s': State, id: string, fp: string, response: ExecutionResponse,
                  at: int)
    requires OwnersOk(s.handlers, s.tracker.entries) && id != ""
    requires Next(l, s, step, s') && Holds(s.tracker.entries, id, fp, response, at)
    requires s.clock - at <= l.ttl && s'.log.evicted[id] == s.log.evicted[id]
    ensures Holds(s'.tracker.entries, id, fp, response, at)
  {
    match step
    case BeginStep(p, answer) =>
      BeginHolds(l, s.log, s.tracker, s.handlers[p], s.clock, answer, s'.tracker, id, fp, response, at);
    case CompleteStep(p) =>
      SettlesAnother(s, p, id, fp, response, at);
      OtherCompleteHolds(l, s.log, s.tracker, s.handlers[p].id, s.handlers[p].pc.response, s.clock, s'.tracker,
                         id, fp, response, at);
    case ForgetStep(p) => SettlesAnother(s, p, id, fp, response, at);
    case StatsStep => ExpireHolds(l, s.tracker.entries, s.clock, id, fp, response, at);
    case _ =>
  }

  lemma {:induction false} HistoryGrows(l: Limits, states: seq<State>, steps: seq<Step>, i: nat, j: nat, id: string)
    requires Run(l, states, steps) && i <= j <= |steps|
    ensures states[i].clock <= states[j].clock && states[i].log.evicted[id] <= states[j].log.evicted[id]
  {
    if i < j {
      HistoryGrows(l, states, steps, i, j - 1, id);
      StepOfRun(l, states, steps, j - 1);
    }
  }

  lemma StepHolds(l: Limits, states: seq<State>, steps: seq<Step>, j: nat, id: string, fp: string,
                  response: ExecutionResponse, at: int)
    requires Run(l, states, steps) && ValidLimits(l) && 0 < j <= |steps| && id != ""
    requires Holds(states[j - 1].tracker.entries, id, fp, response, at) && states[j - 1].clock - at <= l.ttl
    requires states[j].log.evicted[id] == states[j - 1].log.evicted[id]
    ensures Holds(states[j].tracker.entries, id, fp, response, at)
  {
    RunKeepsInv(l, states, steps, j - 1);
    StepOfRun(l, states, steps, j - 1);
    NextHolds(l, states[j - 1], steps[j - 1], states[j], id, fp, response, at);
  }

  lemma CompletionHolds(l: Limits, states: seq<State>, steps: seq<Step>, i: nat, p: nat)
    requires Run(l, states, steps) && ValidLimits(l) && i < |steps| && steps[i] == CompleteStep(p)
    requires p in states[i].handlers && states[i].handlers[p].id != "" && states[i].handlers[p].pc.Completing?
    requires var id := states[i].handlers[p].id; states[i + 1].log.evicted[id] == states[i].log.evicted[id]
    ensures var h := states[i].handlers[p];
      && h.fingerprint.Some?
      && Holds(states[i + 1].tracker.entries, h.id, h.fingerprint.value, h.pc.response, states[i].clock)
  {
    var h := states[i].handlers[p];
    RunKeepsInv(l, states, steps, i);
    StepOfRun(l, states, steps, i);
    assert Owner(states[i].handlers, p, h.id);
    OwnCompleteHolds(l, states[i].log, states[i].tracker, h.id, h.pc.response, states[i].clock, states[i + 1].tracker);
  }

  lemma {:induction false} CompletionRetained(l: Limits, states: seq<State>, steps: seq<Step>, i: nat, j: nat, p: nat)
    requires Run(l, states, steps) && ValidLimits(l) && i < j <= |steps| && steps[i] == CompleteStep(p)
    requires p in states[i].handlers && states[i].handlers[p].id != "" && states[i].handlers[p].pc.Completing?
    requires states[j].clock - states[i].clock <= l.ttl
    requires var id := states[i].handlers[p].id; states[j].log.evicted[id] == states[i].log.evicted[id]
    ensures var h := states[i].handlers[p];
      && h.fingerprint.Some?
      && Holds(states[j].tracker.entries, h.id, h.fingerprint.value, h.pc.response, states[i].clock)
    decreases j
  {
    var h := states[i].handlers[p];
    HistoryGrows(l, states, steps, i, j - 1, h.id);
    HistoryGrows(l, states, steps, j - 1, j, h.id);
    if i == j - 1 {
      CompletionHolds(l, states, steps, i, p);
    } else {
      CompletionRetained(l, states, steps, i, j - 1, p);
      StepHolds(l, states, steps, j, h.id, h.fingerprint.value, h.pc.response, states[i].clock);
    }
  }

  /** In every run: after a Complete, an equal request that begins at most ttl later is answered with that response,
  unless the entry was evicted in between. */
  lemma RecentIsReplayed(l: Limits, states: seq<State>, steps: seq<Step>, i: nat, j: nat, p: nat, q: nat)
    requires Run(l, states, steps) && ValidLimits(l) && i < j < |steps|
    requires steps[i] == CompleteStep(p) && p in states[i].handlers && states[i].handlers[p].pc.Completing?
    requires steps[j].BeginStep? && steps[j].p == q && q in states[j].handlers
    requires states[j].handlers[q].id == states[i].handlers[p].id != ""
    requires states[j].handlers[q].fingerprint == states[i].handlers[p].fingerprint
    requires states[j].clock - states[i].clock <= l.ttl
    requires var id := states[i].handlers[p].id; states[j].log.evicted[id] == states[i].log.evicted[id]
    ensures steps[j].answer == Some(BeginCompleted(states[i].handlers[p].pc.response))
  {
    CompletionRetained(l, states, steps, i, j, p);
    StepOfRun(l, states, steps, j);
    var h := states[i].handlers[p];
    ExpireHolds(l, states[j].tracker.entries, states[j].clock, h.id, h.fingerprint.value, h.pc.response,
                states[i].clock);
  }

  // ---------------------------------------------------------------------------
  // Order of use
  // ---------------------------------------------------------------------------

  /** The tracked ID that a step uses: started, replayed or completed. */
  function UseOf(s: State, step: Step): Option<string> {
    match step
    case BeginStep(p, Some(BeginStarted)) =>
      if p in s.handlers && s.handlers[p].id != "" && s.handlers[p].fingerprint.Some?
      then Some(s.handlers[p].id) else None
    case BeginStep(p, Some(BeginCompleted(_))) => if p in s.handlers then Some(s.handlers[p].id) else None
    case CompleteStep(p) =>
      if p in s.handlers && s.handlers[p].id in s.tracker.entries then Some(s.handlers[p].id) else None
    case _ => None
  }

  /** For every ID ever used, the number of the step after its latest use. */
  function LastUse(steps: seq<Step>, states: seq<State>, i: nat): map<string, nat>
    requires |states| == |steps| + 1 && i <= |steps|
  {
    if i == 0 then map[] else Used(LastUse(steps, states, i - 1), UseOf(states[i - 1], steps[i - 1]), i)
  }

  function Used(use: map<string, nat>, id: Option<string>, n: nat): map<string, nat> {
    if id.Some? then use[id.value := n] else use
  }

  /** Stamps are ordered as the uses are. */
  ghost predicate UseOk(m: Entries, use: map<string, nat>, n: nat) {
    && (forall k :: k in m ==> k in use && use[k] <= n)
    && (forall j, k :: j in m && k in m ==> (m[j].lastSeen < m[k].lastSeen <==> use[j] < use[k]))
  }

  lemma DropKeepsUse(m: Entries, m': Entries, use: map<string, nat>, n: nat)
    requires UseOk(m, use, n) && m'.Keys <= m.Keys && forall k :: k in m' ==> m'[k].lastSeen == m[k].lastSeen
    ensures UseOk(m', use, n) && UseOk(m', use, n + 1)
  {
  }

  lemma StampKeepsUse(t: Tracker, id: string, e: Entry, use: map<string, nat>, n: nat)
    requires UseOk(t.entries, use, n) && SeenOk(t)
    ensures UseOk(Put(t, id, e).entries, use[id := n + 1], n + 1)
  {
  }

  lemma BeginKeepsUse(l: Limits, t: Tracker, h: Handler, now: int, t': Tracker, answer: Option<Decision>,
                      use: map<string, nat>, n: nat)
    requires Begins(l, t, h.id, h.fingerprint, now, t', answer) && SeenOk(t) && UseOk(t.entries, use, n)
    ensures UseOk(t'.entries,
                  if h.id != "" && h.fingerprint.Some? && answer.Some?
                     && (answer.value.BeginStarted? || answer.value.BeginCompleted?) then use[h.id := n + 1] else use,
                  n + 1)
  {
    if h.id == "" || h.fingerprint.None? {
      DropKeepsUse(t.entries, t'.entries, use, n);
    } else {
      var live := Expire(l, t, now);
      ExpireKeepsSeen(l, t, now);
      DropKeepsUse(t.entries, live.entries, use, n);
      if h.id !in live.entries {
        var e := Entry(h.fingerprint.value, Started, 0);
        StampKeepsUse(live, h.id, e, use, n);
        DropKeepsUse(Put(live, h.id, e).entries, t'.entries, use[h.id := n + 1], n + 1);
      } else if answer.value.BeginCompleted? {
        StampKeepsUse(live, h.id, live.entries[h.id], use, n);
      }
    }
  }

  lemma CompleteKeepsUse(l: Limits, t: Tracker, id: string, response: ExecutionResponse, now: int, t': Tracker,
                         use: map<string, nat>, n: nat)
    requires Completes(l, t, id, response, now, t') && SeenOk(t) && UseOk(t.entries, use, n)
    ensures UseOk(t'.entries, if id in t.entries then use[id := n + 1] else use, n + 1)
  {
    if id in t.entries {
      var e := t.entries[id].(progress := Completed(response, now));
      StampKeepsUse(t, id, e, use, n);
      DropKeepsUse(Put(t, id, e).entries, t'.entries, use[id := n + 1], n + 1);
    } else {
      DropKeepsUse(t.entries, t'.entries, use, n);
    }
  }

  lemma NextKeepsUse(l: Limits, s: State, step: Step, s': State, use: map<string, nat>, n: nat)
    requires SeenOk(s.tracker) && Next(l, s, step, s') && UseOk(s.tracker.entries, use, n)
    ensures UseOk(s'.tracker.entries, Used(use, UseOf(s, step), n + 1), n + 1)
  {
    match step
    case BeginStep(p, answer) => BeginKeepsUse(l, s.tracker, s.handlers[p], s.clock, s'.tracker, answer, use, n);
    case CompleteStep(p) =>
      CompleteKeepsUse(l, s.tracker, s.handlers[p].id, s.handlers[p].pc.response, s.clock, s'.tracker, use, n);
    case _ => DropKeepsUse(s.tracker.entries, s'.tracker.entries, use, n);
  }

  /** In every run: stamps are ordered as the latest uses are, so eviction drops the least recently used completions. */
  lemma {:induction false} StampsFollowUse(l: Limits, states: seq<State>, steps: seq<Step>, i: nat)
    requires Run(l, states, steps) && ValidLimits(l) && i <= |steps|
    ensures UseOk(states[i].tracker.entries, LastUse(steps, states, i), i)
  {
    if i > 0 {
      StampsFollowUse(l, states, steps, i - 1);
      StepKeepsUse(l, states, steps, i);
    }
  }

  lemma ReachableSeen(l: Limits, states: seq<State>, steps: seq<Step>, i: nat)
    requires Run(l, states, steps) && ValidLimits(l) && i <= |steps|
    ensures SeenOk(states[i].tracker)
  {
    RunKeepsInv(l, states, steps, i);
  }

  lemma StepKeepsUse(l: Limits, states: seq<State>, steps: seq<Step>, i: nat)
    requires Run(l, states, steps) && ValidLimits(l) && 0 < i <= |steps|
    requires UseOk(states[i - 1].tracker.entries, LastUse(steps, states, i - 1), i - 1)
    ensures UseOk(states[i].tracker.entries, LastUse(steps, states, i), i)
  {
    ReachableSeen(l, states, steps, i - 1);
    StepOfRun(l, states, steps, i - 1);
    NextKeepsUse(l, states[i - 1], steps[i - 1], states[i], LastUse(steps, states, i - 1), i - 1);
  }
}
