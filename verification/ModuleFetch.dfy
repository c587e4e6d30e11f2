/** `FetchAndCacheWithDigest` as the sequential code it is.

Models internal/worker/engine.go when no other caller runs in between; all interleavings
are in `SingleFlight`. When someone else already leads the key, the call can then only wait
until its own context ends. What the download yields, and the clock at each lookup, are
parameters: None stands for a download or a compile that fails.
*/
module ModuleFetch {
  import opened Text
  import opened ModuleIdentity
  import opened ModuleCache
  import opened SingleFlight

  /** The clock at the first lookup, at the leader's own lookup, and at the insertion. */
  datatype Times = Times(first: int, second: int, insert: int)

  /** The cache and the result of one undisturbed fetch; `led` says that someone else leads the key. */
  ghost predicate Fetches(cfg: Config, before: Cache, led: bool, r: Request, t: Times, download: Option<Bytes>,
                          handle: nat, after: Cache, ok: bool)
  {
    var slot := KeyString(KeyOf(r));
    var (looked, hit) := Touch(cfg.limits, before, slot, t.first);
    if hit.Some? then after == looked && ok
    else if r.moduleURL == "" || led || download.None?
        || !Acceptable(cfg, NewCaller(r), download.value) then after == looked && !ok
    else ok && Inserts(cfg.limits, looked, KeyOf(r), Compiled(handle, download.value), t.insert, after)
  }

  /** What the leader does between beginCompile and finishCompile, given that the first lookup missed. */
  method CompileAsLeader(e: WasmEngine, hash: HexSha256, r: Request, t: Times, download: Option<Bytes>, handle: nat)
    returns (ok: bool)
    requires e.Valid() && KeyString(KeyOf(r)) !in e.cache
    modifies e`cache, e`cacheBytes, e`cacheClock, e`closed, e`removed
    ensures e.Valid()
    ensures ok <==> download.Some? && Acceptable(Config(e.limits, hash), NewCaller(r), download.value)
    ensures ok <==>
              && download.Some? && Trim(r.moduleURL, IsSpace) != "" && |download.value| <= e.limits.maxModuleBytes
              && VerifyDigest(hash, download.value, r.digest) == Accepted
    ensures !ok ==> e.State() == old(e.State())
    ensures ok ==> Inserts(e.limits, old(e.State()), KeyOf(r), Compiled(handle, download.value), t.insert, e.State())
  {
    var hit := e.CachedCompiledModule(KeyString(KeyOf(r)), t.second);
    assert hit.None?;
    ok := download.Some? && Acceptable(Config(e.limits, hash), NewCaller(r), download.value);
    if ok {
      e.InsertCompiled(KeyOf(r), Compiled(handle, download.value), t.insert);
    }
  }

  /** The rest of a fetch whose first lookup missed. */
  method FetchMissing(e: WasmEngine, hash: HexSha256, r: Request, t: Times, download: Option<Bytes>, handle: nat)
    returns (ok: bool)
    requires e.Valid() && KeyString(KeyOf(r)) !in e.cache
    modifies e
    ensures e.Valid() && e.inflight == old(e.inflight)
    ensures ok <==>
              && r.moduleURL != "" && KeyString(KeyOf(r)) !in old(e.inflight) && download.Some?
              && Acceptable(Config(e.limits, hash), NewCaller(r), download.value)
    ensures !ok ==> e.State() == old(e.State())
    ensures ok ==> Inserts(e.limits, old(e.State()), KeyOf(r), Compiled(handle, download.value), t.insert, e.State())
  {
    if r.moduleURL == "" {
      return false;
    }
    ghost var before := e.State();
    var done, leader := e.BeginCompile(KeyString(KeyOf(r)));
    assert e.State() == before;
    if !leader {
      return false;
    }
    ok := CompileAsLeader(e, hash, r, t, download, handle);
    ghost var after := e.State();
    e.FinishCompile(KeyString(KeyOf(r)));
    assert e.State() == after;
  }

  method FetchAndCacheWithDigest(e: WasmEngine, hash: HexSha256, r: Request, t: Times, download: Option<Bytes>,
                                 handle: nat)
    returns (ok: bool)
    requires e.Valid()
    modifies e
    ensures e.Valid() && e.inflight == old(e.inflight)
    ensures Fetches(Config(e.limits, hash), old(e.State()), KeyString(KeyOf(r)) in old(e.inflight), r, t, download,
                    handle, e.State(), ok)
  {
    MissMeansAbsent(e.limits, e.State(), KeyString(KeyOf(r)), t.first);
    var hit := e.CachedCompiledModule(KeyString(KeyOf(r)), t.first);
    if hit.Some? {
      return true;
    }
    ok := FetchMissing(e, hash, r, t, download, handle);
  }

  lemma MissMeansAbsent(l: Limits, c: Cache, k: string, now: int)
    ensures Touch(l, c, k, now).1.None? ==> k !in Touch(l, c, k, now).0.entries
  {
  }

  /** A successful fetch leaves the module cached, unless it was just downloaded and exceeds the cache's byte budget. */
  lemma FetchedIsCached(cfg: Config, before: Cache, led: bool, r: Request, t: Times, download: Option<Bytes>,
                        handle: nat, after: Cache)
    requires Normalized(cfg.limits) && LedgerOk(before)
    requires Fetches(cfg, before, led, r, t, download, handle, after, true)
    ensures var slot := KeyString(KeyOf(r));
            slot in after.entries <==>
            Touch(cfg.limits, before, slot, t.first).1.Some? || |download.value| <= cfg.limits.maxCacheBytes
  {
    var slot := KeyString(KeyOf(r));
    var (looked, hit) := Touch(cfg.limits, before, slot, t.first);
    TouchKeepsLedger(cfg.limits, before, slot, t.first);
    if hit.None? {
      NewEntrySurvives(cfg.limits, looked, KeyOf(r), Compiled(handle, download.value), t.insert, after);
    }
  }

  /** Until it expires, a cached module answers every later fetch of its key: nothing is downloaded, compiled or
  dropped. */
  lemma RepeatIsHit(cfg: Config, c: Cache, led: bool, r: Request, t: Times, download: Option<Bytes>, handle: nat,
                    after: Cache, ok: bool)
    requires KeyString(KeyOf(r)) in c.entries && !Expired(cfg.limits, c.entries[KeyString(KeyOf(r))], t.first)
    requires Fetches(cfg, c, led, r, t, download, handle, after, ok)
    ensures ok && after.entries.Keys == c.entries.Keys && after.bytes == c.bytes && after.closed == c.closed
    ensures forall k :: k in c.entries ==> after.entries[k].compiled == c.entries[k].compiled
  {
  }

  // ---------------------------------------------------------------------------
  // The same in the protocol
  // ---------------------------------------------------------------------------

  /** A run with one more step. */
  ghost predicate Prolongs(cfg: Config, steps: seq<Step>, states: seq<State>, steps': seq<Step>, states': seq<State>) {
    Run(cfg, steps', states') && steps <= steps' && states <= states'
  }

  lemma OneMore(cfg: Config, steps: seq<Step>, states: seq<State>, step: Step, s': State)
    requires Run(cfg, steps, states) && Next(cfg, states[|steps|], step, s')
    ensures Prolongs(cfg, steps, states, steps + [step], states + [s'])
  {
    RunExtends(cfg, steps, states, step, s');
  }

  /** A caller arrives and looks up its slot. */
  lemma FirstLookupRuns(cfg: Config, steps: seq<Step>, states: seq<State>, p: nat, r: Request, now: int)
    returns (steps': seq<Step>, states': seq<State>)
    requires Run(cfg, steps, states) && p !in states[|steps|].callers
    ensures Prolongs(cfg, steps, states, steps', states')
    ensures var s, s' := states[|steps|], states'[|steps'|];
      && s'.cache == Touch(cfg.limits, s.cache, KeyString(KeyOf(r)), now).0
      && s'.inflight == s.inflight && s'.nextHandle == s.nextHandle
      && p in s'.callers && s'.callers[p] ==
           NewCaller(r).(pc := if Touch(cfg.limits, s.cache, KeyString(KeyOf(r)), now).1.Some? then Done(true)
                               else if r.moduleURL == "" then Done(false) else Begin)
  {
    var s1 := states[|steps|].(callers := states[|steps|].callers[p := NewCaller(r)]);
    OneMore(cfg, steps, states, SpawnStep(p, r), s1);
    var (cache, found) := Touch(cfg.limits, s1.cache, NewCaller(r).slot, now);
    var s2 := SetPc(s1.(cache := cache), p,
                    if found.Some? then Done(true) else if r.moduleURL == "" then Done(false) else Begin);
    OneMore(cfg, steps + [SpawnStep(p, r)], states + [s1], CheckStep(p, now), s2);
    steps', states' := steps + [SpawnStep(p, r)] + [CheckStep(p, now)], states + [s1] + [s2];
  }

  /** It becomes the leader and misses again. */
  lemma LeadRuns(cfg: Config, steps: seq<Step>, states: seq<State>, p: nat, now: int)
    returns (steps': seq<Step>, states': seq<State>)
    requires Run(cfg, steps, states) && At(states[|steps|], p, Begin)
    requires var slot := states[|steps|].callers[p].slot;
      slot !in states[|steps|].inflight && slot !in states[|steps|].cache.entries
    ensures Prolongs(cfg, steps, states, steps', states')
    ensures var s, s' := states[|steps|], states'[|steps'|];
      && s'.cache == s.cache && s'.nextHandle == s.nextHandle && s.callers[p].slot in s'.inflight
      && s'.inflight - {s.callers[p].slot} == s.inflight
      && p in s'.callers && s'.callers[p] == s.callers[p].(pc := Compile)
  {
    var s := states[|steps|];
    var s1 := BeginEffect(s, p);
    OneMore(cfg, steps, states, BeginStep(p), s1);
    var s2 := SetPc(s1, p, Compile);
    OneMore(cfg, steps + [BeginStep(p)], states + [s1], LeaderCheckStep(p, now), s2);
    steps', states' := steps + [BeginStep(p)] + [LeaderCheckStep(p, now)], states + [s1] + [s2];
  }

  lemma FinishRuns(cfg: Config, steps: seq<Step>, states: seq<State>, p: nat, ok: bool)
    returns (steps': seq<Step>, states': seq<State>)
    requires Run(cfg, steps, states) && At(states[|steps|], p, Finish(ok))
    ensures Prolongs(cfg, steps, states, steps', states')
    ensures var s, s' := states[|steps|], states'[|steps'|];
      s'.cache == s.cache && s'.inflight == s.inflight - {s.callers[p].slot} && At(s', p, Done(ok))
  {
    var s1 := FinishEffect(states[|steps|], p);
    OneMore(cfg, steps, states, FinishStep(p), s1);
    steps', states' := steps + [FinishStep(p)], states + [s1];
  }

  /** It inserts what it compiled, and finishes. */
  lemma StoreRuns(cfg: Config, steps: seq<Step>, states: seq<State>, p: nat, now: int)
    returns (steps': seq<Step>, states': seq<State>)
    requires Normalized(cfg.limits) && Run(cfg, steps, states)
    requires p in states[|steps|].callers && states[|steps|].callers[p].pc.Insert?
    ensures Prolongs(cfg, steps, states, steps', states')
    ensures var s, s' := states[|steps|], states'[|steps'|];
      && s'.inflight == s.inflight - {s.callers[p].slot} && At(s', p, Done(true))
      && Inserts(cfg.limits, s.cache, s.callers[p].key, s.callers[p].pc.compiled, now, s'.cache)
  {
    var s := states[|steps|];
    var cache := InsertExists(cfg, steps, states, p, now);
    var s1 := SetPc(s.(cache := cache), p, Finish(true));
    OneMore(cfg, steps, states, InsertStep(p, now), s1);
    steps', states' := FinishRuns(cfg, steps + [InsertStep(p, now)], states + [s1], p, true);
  }

  /** It compiles and inserts what it downloaded, or fails, and finishes. */
  lemma CompileRuns(cfg: Config, steps: seq<Step>, states: seq<State>, p: nat, download: Option<Bytes>, now: int)
    returns (steps': seq<Step>, states': seq<State>, ok: bool)
    requires Normalized(cfg.limits) && Run(cfg, steps, states) && At(states[|steps|], p, Compile)
    ensures Prolongs(cfg, steps, states, steps', states')
    ensures ok <==> download.Some? && Acceptable(cfg, states[|steps|].callers[p], download.value)
    ensures var s, s' := states[|steps|], states'[|steps'|];
      && s'.inflight == s.inflight - {s.callers[p].slot} && At(s', p, Done(ok))
      && (!ok ==> s'.cache == s.cache)
      && (ok ==> Inserts(cfg.limits, s.cache, s.callers[p].key, Compiled(s.nextHandle, download.value), now, s'.cache))
  {
    var s := states[|steps|];
    ok := download.Some? && Acceptable(cfg, s.callers[p], download.value);
    if ok {
      var step, s1 := CompileOkStep(p, download.value), CompileEffect(s, p, download.value);
      OneMore(cfg, steps, states, step, s1);
      steps', states' := StoreRuns(cfg, steps + [step], states + [s1], p, now);
    } else {
      var s1 := SetPc(s, p, Finish(false));
      OneMore(cfg, steps, states, CompileFailStep(p), s1);
      steps', states' := FinishRuns(cfg, steps + [CompileFailStep(p)], states + [s1], p, false);
    }
  }

  lemma InsertExists(cfg: Config, steps: seq<Step>, states: seq<State>, p: nat, now: int) returns (cache: Cache)
    requires Normalized(cfg.limits) && Run(cfg, steps, states)
    requires p in states[|steps|].callers && states[|steps|].callers[p].pc.Insert?
    ensures var s := states[|steps|]; Inserts(cfg.limits, s.cache, s.callers[p].key, s.callers[p].pc.compiled,
                                              now, cache)
  {
    RunKeepsInv(cfg, steps, states, |steps|);
    var s := states[|steps|];
    assert CallerOk(cfg, s.callers[p]);
    WithEntryKeepsLedger(s.cache, s.callers[p].key, s.callers[p].pc.compiled, now);
    cache := EvictsExists(cfg.limits, WithEntry(s.cache, s.callers[p].key, s.callers[p].pc.compiled, now), now);
  }

  /** The sequential fetch of a key that no one leads, whatever it finds and downloads, is a run of the protocol. */
  lemma UndisturbedFetch(cfg: Config, steps: seq<Step>, states: seq<State>, p: nat, r: Request, t: Times,
                         download: Option<Bytes>)
    returns (steps': seq<Step>, states': seq<State>, ok: bool)
    requires Normalized(cfg.limits) && Run(cfg, steps, states)
    requires p !in states[|steps|].callers && KeyString(KeyOf(r)) !in states[|steps|].inflight
    ensures Prolongs(cfg, steps, states, steps', states')
    ensures var s, s' := states[|steps|], states'[|steps'|];
      && Fetches(cfg, s.cache, false, r, t, download, s.nextHandle, s'.cache, ok)
      && s'.inflight == s.inflight && At(s', p, Done(ok))
  {
    var s := states[|steps|];
    MissMeansAbsent(cfg.limits, s.cache, KeyString(KeyOf(r)), t.first);
    steps', states' := FirstLookupRuns(cfg, steps, states, p, r, t.first);
    var looked := states'[|steps'|];
    ok := looked.callers[p].pc == Done(true);
    if looked.callers[p].pc == Begin {
      steps', states' := LeadRuns(cfg, steps', states', p, t.second);
      steps', states', ok := CompileRuns(cfg, steps', states', p, download, t.insert);
    }
  }
}
