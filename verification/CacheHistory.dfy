/** The cache as the history of the engine explains it.

When an entry was stored, whether it was removed since, and when its slot was last used are
read off the run itself. A lookup hits exactly what was stored recently enough, and the use
stamps follow the order of use.
*/
module CacheHistory {
  import opened Text
  import opened ModuleIdentity
  import opened ModuleCache
  import opened SingleFlight

  // ---------------------------------------------------------------------------
  // The one effect a step has on the cache
  // ---------------------------------------------------------------------------

  datatype Effect =
    | Leaves
    | Looks(slot: string, now: int)
    | Stores(key: CacheKey, compiled: Compiled, now: int)
    | Clears

  function EffectOf(s: State, step: Step): Effect {
    match step
    case CheckStep(p, now) => if p in s.callers then Looks(s.callers[p].slot, now) else Leaves
    case RecheckStep(p, now) => if p in s.callers then Looks(s.callers[p].slot, now) else Leaves
    case LeaderCheckStep(p, now) => if p in s.callers then Looks(s.callers[p].slot, now) else Leaves
    case LookupStep(slot, now) => Looks(slot, now)
    case InsertStep(p, now) =>
      if p in s.callers && s.callers[p].pc.Insert?
      then Stores(s.callers[p].key, s.callers[p].pc.compiled, now) else Leaves
    case ClearStep => Clears
    case _ => Leaves
  }

  ghost predicate EffectFits(l: Limits, c: Cache, e: Effect, c': Cache) {
    match e
    case Leaves => c' == c
    case Looks(slot, now) => c' == Touch(l, c, slot, now).0
    case Stores(key, compiled, now) =>
      KeyString(key) !in c.entries && Evicts(l, WithEntry(c, key, compiled, now), now, c')
    case Clears => c' == ClearAll(c)
  }

  /** What the effect of an insertion needs from the invariant. */
  predicate InserterOk(s: State) {
    forall p :: p in s.callers && s.callers[p].pc.Insert? ==> KeyString(s.callers[p].key) !in s.cache.entries
  }

  lemma NextEffectFits(cfg: Config, s: State, step: Step, s': State)
    requires InserterOk(s) && Next(cfg, s, step, s')
    ensures EffectFits(cfg.limits, s.cache, EffectOf(s, step), s'.cache)
  {
  }

  lemma ReachableCache(cfg: Config, steps: seq<Step>, states: seq<State>, i: nat)
    requires Normalized(cfg.limits) && Run(cfg, steps, states) && i <= |steps|
    ensures InserterOk(states[i]) && OrdersOk(states[i].cache)
  {
    RunKeepsInv(cfg, steps, states, i);
    forall p | p in states[i].callers && states[i].callers[p].pc.Insert?
      ensures KeyString(states[i].callers[p].key) !in states[i].cache.entries
    {
      assert CallerOk(cfg, states[i].callers[p]);
    }
  }

  lemma StepEffect(cfg: Config, steps: seq<Step>, states: seq<State>, i: nat)
    requires Normalized(cfg.limits) && Run(cfg, steps, states) && 0 < i <= |steps|
    ensures EffectFits(cfg.limits, states[i - 1].cache, EffectOf(states[i - 1], steps[i - 1]), states[i].cache)
  {
    ReachableCache(cfg, steps, states, i - 1);
    StepOfRun(cfg, steps, states, i - 1);
    NextEffectFits(cfg, states[i - 1], steps[i - 1], states[i]);
  }

  // ---------------------------------------------------------------------------
  // Age
  // ---------------------------------------------------------------------------

  /** The latest insertion of a slot: its time, and how often the slot had been removed before. */
  datatype Insertion = Insertion(at: int, removals: nat)

  function Recorded(h: map<string, Insertion>, c: Cache, e: Effect): map<string, Insertion> {
    if e.Stores? then h[KeyString(e.key) := Insertion(e.now, c.removed[KeyString(e.key)])] else h
  }

  /** For every slot ever stored, its latest insertion. */
  function Insertions(steps: seq<Step>, states: seq<State>, i: nat): map<string, Insertion>
    requires |states| == |steps| + 1 && i <= |steps|
  {
    if i == 0 then map[]
    else Recorded(Insertions(steps, states, i - 1), states[i - 1].cache, EffectOf(states[i - 1], steps[i - 1]))
  }

  /** The slot was stored and not removed since. */
  predicate StillStored(c: Cache, h: map<string, Insertion>, slot: string) {
    slot in h && c.removed[slot] == h[slot].removals
  }

  predicate SlotOk(c: Cache, h: map<string, Insertion>, slot: string) {
    && (slot in c.entries <==> StillStored(c, h, slot))
    && (slot in c.entries && slot in h ==> c.entries[slot].createdAt == h[slot].at)
    && (slot in h ==> h[slot].removals <= c.removed[slot])
  }

  lemma LookKeepsSlot(l: Limits, c: Cache, h: map<string, Insertion>, looked: string, now: int, slot: string)
    requires SlotOk(c, h, slot)
    ensures SlotOk(Touch(l, c, looked, now).0, h, slot)
  {
  }

  /** Dropping entries counts a removal for each. */
  lemma ShrinkKeepsSlot(c: Cache, c': Cache, h: map<string, Insertion>, slot: string)
    requires SlotOk(c, h, slot) && Shrinks(c, c')
    ensures SlotOk(c', h, slot)
  {
    assert slot in c.entries.Keys - c'.entries.Keys <==> slot in c.entries && slot !in c'.entries;
  }

  lemma StoreKeepsSlot(l: Limits, c: Cache, h: map<string, Insertion>, key: CacheKey, compiled: Compiled, now: int,
                       c': Cache, slot: string)
    requires SlotOk(c, h, slot) && KeyString(key) !in c.entries && Shrinks(WithEntry(c, key, compiled, now), c')
    ensures SlotOk(c', Recorded(h, c, Stores(key, compiled, now)), slot)
  {
    var added, h' := WithEntry(c, key, compiled, now), Recorded(h, c, Stores(key, compiled, now));
    assert SlotOk(added, h', slot);
    ShrinkKeepsSlot(added, c', h', slot);
  }

  lemma EffectKeepsSlot(l: Limits, c: Cache, e: Effect, c': Cache, h: map<string, Insertion>, slot: string)
    requires SlotOk(c, h, slot) && EffectFits(l, c, e, c')
    ensures SlotOk(c', Recorded(h, c, e), slot)
  {
    match e
    case Leaves =>
    case Looks(looked, now) => LookKeepsSlot(l, c, h, looked, now, slot);
    case Stores(key, compiled, now) => StoreKeepsSlot(l, c, h, key, compiled, now, c', slot);
    case Clears =>
      ClearAllShrinks(c);
      ShrinkKeepsSlot(c, c', h, slot);
  }

  lemma StepKeepsSlot(cfg: Config, steps: seq<Step>, states: seq<State>, i: nat, slot: string)
    requires Normalized(cfg.limits) && Run(cfg, steps, states) && 0 < i <= |steps|
    requires SlotOk(states[i - 1].cache, Insertions(steps, states, i - 1), slot)
    ensures SlotOk(states[i].cache, Insertions(steps, states, i), slot)
  {
    StepEffect(cfg, steps, states, i);
    EffectKeepsSlot(cfg.limits, states[i - 1].cache, EffectOf(states[i - 1], steps[i - 1]), states[i].cache,
                    Insertions(steps, states, i - 1), slot);
  }

  lemma {:induction false} RunKeepsSlot(cfg: Config, steps: seq<Step>, states: seq<State>, i: nat, slot: string)
    requires Normalized(cfg.limits) && Run(cfg, steps, states) && i <= |steps|
    ensures SlotOk(states[i].cache, Insertions(steps, states, i), slot)
  {
    if i > 0 {
      RunKeepsSlot(cfg, steps, states, i - 1, slot);
      StepKeepsSlot(cfg, steps, states, i, slot);
    }
  }

  /** The slot was stored at most the TTL before `now`, and not removed since. */
  predicate RecentlyStored(cfg: Config, steps: seq<Step>, states: seq<State>, i: nat, slot: string, now: int)
    requires |states| == |steps| + 1 && i <= |steps|
  {
    var h := Insertions(steps, states, i);
    slot in h && now - h[slot].at <= cfg.limits.moduleCacheTTL && states[i].cache.removed[slot] == h[slot].removals
  }

  /** In every run: a lookup hits exactly when its slot was stored by an insertion at most the TTL ago and was not
  removed since. Lookups do not move that time. */
  lemma HitIffRecentlyStored(cfg: Config, steps: seq<Step>, states: seq<State>, i: nat, slot: string, now: int)
    requires Normalized(cfg.limits) && Run(cfg, steps, states) && i <= |steps|
    ensures Touch(cfg.limits, states[i].cache, slot, now).1.Some? <==> RecentlyStored(cfg, steps, states, i, slot, now)
  {
    RunKeepsSlot(cfg, steps, states, i, slot);
  }

  /** The same, as the callers of the fetch protocol see it. */
  lemma CallerHitsIff(cfg: Config, steps: seq<Step>, states: seq<State>, i: nat)
    requires Normalized(cfg.limits) && Run(cfg, steps, states) && i < |steps| && IsLookup(steps[i])
    ensures steps[i].p in states[i].callers && steps[i].p in states[i + 1].callers
    ensures var p, pc := steps[i].p, states[i + 1].callers[steps[i].p].pc;
      (pc == Done(true) || pc == Finish(true)) <==>
      RecentlyStored(cfg, steps, states, i, states[i].callers[p].slot, steps[i].now)
  {
    StepOfRun(cfg, steps, states, i);
    HitIffRecentlyStored(cfg, steps, states, i, states[i].callers[steps[i].p].slot, steps[i].now);
  }

  // ---------------------------------------------------------------------------
  // Order of use
  // ---------------------------------------------------------------------------

  /** The slot that an effect uses: stored, or looked up and found. */
  function UseOf(l: Limits, c: Cache, e: Effect): Option<string> {
    match e
    case Looks(slot, now) => if Touch(l, c, slot, now).1.Some? then Some(slot) else None
    case Stores(key, _, _) => Some(KeyString(key))
    case _ => None
  }

  function Used(use: map<string, nat>, slot: Option<string>, n: nat): map<string, nat> {
    if slot.Some? then use[slot.value := n] else use
  }

  /** For every slot ever used, the number of the step after its latest use. */
  function LastUse(cfg: Config, steps: seq<Step>, states: seq<State>, i: nat): map<string, nat>
    requires |states| == |steps| + 1 && i <= |steps|
  {
    if i == 0 then map[]
    else Used(LastUse(cfg, steps, states, i - 1),
              UseOf(cfg.limits, states[i - 1].cache, EffectOf(states[i - 1], steps[i - 1])), i)
  }

  /** Stamps are ordered as the uses are. */
  ghost predicate UseOk(m: map<string, Entry>, use: map<string, nat>, n: nat) {
    && (forall k :: k in m ==> k in use && use[k] <= n)
    && (forall j, k :: j in m && k in m ==> (m[j].usedOrder < m[k].usedOrder <==> use[j] < use[k]))
  }

  lemma DropKeepsUse(m: map<string, Entry>, m': map<string, Entry>, use: map<string, nat>, n: nat, n': nat)
    requires UseOk(m, use, n) && n <= n'
    requires m'.Keys <= m.Keys && forall k :: k in m' ==> m'[k].usedOrder == m[k].usedOrder
    ensures UseOk(m', use, n')
  {
  }

  lemma StampKeepsUse(c: Cache, slot: string, e: Entry, use: map<string, nat>, n: nat, n': nat)
    requires UseOk(c.entries, use, n) && n < n' && OrdersOk(c) && e.usedOrder == c.clock + 1
    ensures UseOk(c.entries[slot := e], use[slot := n'], n')
  {
  }

  lemma EffectKeepsUse(l: Limits, c: Cache, e: Effect, c': Cache, use: map<string, nat>, n: nat, n': nat)
    requires EffectFits(l, c, e, c') && OrdersOk(c) && UseOk(c.entries, use, n) && n < n'
    ensures UseOk(c'.entries, Used(use, UseOf(l, c, e), n'), n')
  {
    match e
    case Leaves => DropKeepsUse(c.entries, c'.entries, use, n, n');
    case Clears => DropKeepsUse(c.entries, c'.entries, use, n, n');
    case Looks(slot, now) =>
      if Touch(l, c, slot, now).1.Some? {
        StampKeepsUse(c, slot, c'.entries[slot], use, n, n');
      } else {
        DropKeepsUse(c.entries, c'.entries, use, n, n');
      }
    case Stores(key, compiled, now) =>
      var added := WithEntry(c, key, compiled, now);
      StampKeepsUse(c, KeyString(key), added.entries[KeyString(key)], use, n, n');
      DropKeepsUse(added.entries, c'.entries, use[KeyString(key) := n'], n', n');
  }

  lemma StepKeepsUse(cfg: Config, steps: seq<Step>, states: seq<State>, i: nat, use: map<string, nat>)
    requires Normalized(cfg.limits) && Run(cfg, steps, states) && 0 < i <= |steps|
    requires UseOk(states[i - 1].cache.entries, use, i - 1)
    ensures var e := EffectOf(states[i - 1], steps[i - 1]);
      UseOk(states[i].cache.entries, Used(use, UseOf(cfg.limits, states[i - 1].cache, e), i), i)
  {
    StepEffect(cfg, steps, states, i);
    ReachableCache(cfg, steps, states, i - 1);
    EffectKeepsUse(cfg.limits, states[i - 1].cache, EffectOf(states[i - 1], steps[i - 1]), states[i].cache, use,
                   i - 1, i);
  }

  /** In every run: use stamps are ordered as the latest uses are, so "least recently used" means what it says. */
  lemma {:induction false} StampsFollowUse(cfg: Config, steps: seq<Step>, states: seq<State>, i: nat)
    requires Normalized(cfg.limits) && Run(cfg, steps, states) && i <= |steps|
    ensures UseOk(states[i].cache.entries, LastUse(cfg, steps, states, i), i)
  {
    if i > 0 {
      StampsFollowUse(cfg, steps, states, i - 1);
      StepKeepsUse(cfg, steps, states, i, LastUse(cfg, steps, states, i - 1));
    }
  }
}
