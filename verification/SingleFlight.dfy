/** Coalesced cold compiles: any number of callers of `FetchAndCacheWithDigest`.

Every section that holds the engine's lock is one atomic step, and so is each
observation of a channel. The cache steps are the specifications that
`ModuleCache.WasmEngine` is proved against. Download outcomes, times and the
interleaving are arbitrary.
*/
module SingleFlight {
  import opened Bags
  import opened Text
  import opened ModuleIdentity
  import opened ModuleCache

  datatype Request = Request(moduleName: string, moduleURL: string, digest: string)

  function KeyOf(r: Request): CacheKey {
    CacheKey(Trim(r.moduleName, IsSpace), Trim(r.moduleURL, IsSpace), Trim(r.digest, IsSpace))
  }

  datatype Pc =
    | Check                        // first cache lookup
    | Begin                        // about to call beginCompile
    | Wait(ch: nat)                // follower, blocked on the leader's channel
    | Recheck                      // follower, woken, about to look up again
    | LeaderCheck                  // leader, about to look up again
    | Compile                      // leader, downloading and compiling
    | Insert(compiled: Compiled)   // leader, about to store
    | Finish(ok: bool)             // leader, about to call finishCompile
    | Done(ok: bool)

  predicate Leads(pc: Pc) {
    pc.LeaderCheck? || pc.Compile? || pc.Insert? || pc.Finish?
  }

  /** `key` and `slot` are the locals cacheKey and cacheKeyString. */
  datatype Caller = Caller(request: Request, key: CacheKey, slot: string, pc: Pc)

  datatype State = State(
    cache: Cache,
    inflight: map<string, nat>,
    closedChans: set<nat>,
    nextChan: nat,
    nextHandle: nat,
    compiles: multiset<string>,
    callers: map<nat, Caller>)

  const INITIAL := State(EMPTY_CACHE, map[], {}, 0, 0, multiset{}, map[])

  datatype Config = Config(limits: Limits, hash: HexSha256)

  // ---------------------------------------------------------------------------
  // Steps
  // ---------------------------------------------------------------------------

  datatype Step =
    | SpawnStep(p: nat, request: Request)
    | CheckStep(p: nat, now: int)
    | BeginStep(p: nat)
    | WakeStep(p: nat)
    | CancelStep(p: nat)
    | RecheckStep(p: nat, now: int)
    | LeaderCheckStep(p: nat, now: int)
    | CompileFailStep(p: nat)
    | CompileOkStep(p: nat, bytes: Bytes)
    | InsertStep(p: nat, now: int)
    | FinishStep(p: nat)
    | LookupStep(key: string, now: int)   // ExecuteWithDigestAndABI's own lookup
    | ClearStep

  function NewCaller(r: Request): Caller {
    Caller(r, KeyOf(r), KeyString(KeyOf(r)), Check)
  }

  function SetPc(s: State, p: nat, pc: Pc): State
    requires p in s.callers
  {
    s.(callers := s.callers[p := s.callers[p].(pc := pc)])
  }

  predicate At(s: State, p: nat, pc: Pc) {
    p in s.callers && s.callers[p].pc == pc
  }

  /** A lookup by `p`, which moves on to `hit` or `miss`. */
  predicate LooksUp(cfg: Config, s: State, p: nat, now: int, hit: Pc, miss: Pc, s': State)
    requires p in s.callers
  {
    var (cache, found) := Touch(cfg.limits, s.cache, s.callers[p].slot, now);
    s' == SetPc(s.(cache := cache), p, if found.Some? then hit else miss)
  }

  function BeginEffect(s: State, p: nat): State
    requires p in s.callers
  {
    var slot := s.callers[p].slot;
    if slot in s.inflight then SetPc(s, p, Wait(s.inflight[slot]))
    else SetPc(s.(inflight := s.inflight[slot := s.nextChan], nextChan := s.nextChan + 1), p, LeaderCheck)
  }

  function FinishEffect(s: State, p: nat): State
    requires p in s.callers && s.callers[p].pc.Finish?
  {
    var slot := s.callers[p].slot;
    var done := if slot in s.inflight then {s.inflight[slot]} else {};
    SetPc(s.(inflight := s.inflight - {slot}, closedChans := s.closedChans + done), p, Done(s.callers[p].pc.ok))
  }

  /** Bytes that pass every check between download and compile. */
  predicate Acceptable(cfg: Config, c: Caller, bytes: Bytes) {
    && c.key.moduleURL != ""   // a blank URL cannot be fetched
    && |bytes| <= cfg.limits.maxModuleBytes
    && VerifyDigest(cfg.hash, bytes, c.request.digest) == Accepted
  }

  function CompileEffect(s: State, p: nat, bytes: Bytes): State
    requires p in s.callers
  {
    SetPc(s.(nextHandle := s.nextHandle + 1, compiles := s.compiles + multiset{s.callers[p].slot}), p,
          Insert(Compiled(s.nextHandle, bytes)))
  }

  ghost predicate Next(cfg: Config, s: State, step: Step, s': State) {
    match step
    case SpawnStep(p, r) => p !in s.callers && s' == s.(callers := s.callers[p := NewCaller(r)])
    case CheckStep(p, now) =>
      && At(s, p, Check)
      && LooksUp(cfg, s, p, now, Done(true), if s.callers[p].request.moduleURL == "" then Done(false) else Begin, s')
    case BeginStep(p) => At(s, p, Begin) && s' == BeginEffect(s, p)
    case WakeStep(p) =>
      p in s.callers && s.callers[p].pc.Wait? && s.callers[p].pc.ch in s.closedChans && s' == SetPc(s, p, Recheck)
    case CancelStep(p) => p in s.callers && s.callers[p].pc.Wait? && s' == SetPc(s, p, Done(false))
    case RecheckStep(p, now) => At(s, p, Recheck) && LooksUp(cfg, s, p, now, Done(true), Begin, s')
    case LeaderCheckStep(p, now) => At(s, p, LeaderCheck) && LooksUp(cfg, s, p, now, Finish(true), Compile, s')
    case CompileFailStep(p) => At(s, p, Compile) && s' == SetPc(s, p, Finish(false))
    case CompileOkStep(p, bytes) =>
      At(s, p, Compile) && Acceptable(cfg, s.callers[p], bytes) && s' == CompileEffect(s, p, bytes)
    case InsertStep(p, now) =>
      && p in s.callers && s.callers[p].pc.Insert?
      && Inserts(cfg.limits, s.cache, s.callers[p].key, s.callers[p].pc.compiled, now, s'.cache)
      && s' == SetPc(s.(cache := s'.cache), p, Finish(true))
    case FinishStep(p) => p in s.callers && s.callers[p].pc.Finish? && s' == FinishEffect(s, p)
    case LookupStep(key, now) => s' == s.(cache := Touch(cfg.limits, s.cache, key, now).0)
    case ClearStep => s' == s.(cache := ClearAll(s.cache))
  }

  /** `states` is what `steps` does from the empty engine. */
  ghost predicate Run(cfg: Config, steps: seq<Step>, states: seq<State>) {
    && |states| == |steps| + 1
    && states[0] == INITIAL
    && forall i :: 0 <= i < |steps| ==> StepAt(cfg, steps, states, i)
  }

  ghost predicate StepAt(cfg: Config, steps: seq<Step>, states: seq<State>, i: int)
    requires |states| == |steps| + 1 && 0 <= i < |steps|
  {
    Next(cfg, states[i], steps[i], states[i + 1])
  }

  // ---------------------------------------------------------------------------
  // The invariant
  // ---------------------------------------------------------------------------

  predicate LeadsSlot(s: State, p: nat, slot: string) {
    p in s.callers && Leads(s.callers[p].pc) && s.callers[p].slot == slot
  }

  /** A slot is in flight exactly when one caller leads it. */
  ghost predicate LeadersOk(s: State) {
    && (forall p :: p in s.callers && Leads(s.callers[p].pc) ==> s.callers[p].slot in s.inflight)
    && (forall p, q, k :: LeadsSlot(s, p, k) && LeadsSlot(s, q, k) ==> p == q)
    && (forall k :: k in s.inflight ==> exists p :: LeadsSlot(s, p, k))
  }

  /** In-flight channels are open and distinct; a follower's channel is closed or still in flight. */
  ghost predicate ChannelsOk(s: State) {
    && (forall k :: k in s.inflight ==> s.inflight[k] < s.nextChan && s.inflight[k] !in s.closedChans)
    && (forall j, k :: j in s.inflight && k in s.inflight && j != k ==> s.inflight[j] != s.inflight[k])
    && (forall ch :: ch in s.closedChans ==> ch < s.nextChan)
    && (forall p :: p in s.callers && s.callers[p].pc.Wait? ==>
          var ch := s.callers[p].pc.ch;
          ch in s.closedChans || (s.callers[p].slot in s.inflight && s.inflight[s.callers[p].slot] == ch))
  }

  /** A leader that missed in its own lookup keeps missing until it inserts. */
  ghost predicate AbsentOk(s: State) {
    forall p :: p in s.callers && (s.callers[p].pc.Compile? || s.callers[p].pc.Insert?) ==>
      s.callers[p].slot !in s.cache.entries
  }

  predicate CallerOk(cfg: Config, c: Caller) {
    && c.key == KeyOf(c.request) && c.slot == KeyString(c.key)
    && (c.pc.Insert? ==> Acceptable(cfg, c, c.pc.compiled.source))
  }

  predicate EntryOk(cfg: Config, slot: string, e: Entry) {
    && KeyString(e.key) == slot && Insertable(e.key)
    && e.sizeBytes == |e.compiled.source| <= cfg.limits.maxModuleBytes
    && VerifyDigest(cfg.hash, e.compiled.source, e.key.digest) == Accepted
  }

  ghost predicate ContentOk(cfg: Config, s: State) {
    && (forall k :: k in s.cache.entries ==> EntryOk(cfg, k, s.cache.entries[k]))
    && (forall p :: p in s.callers ==> CallerOk(cfg, s.callers[p]))
  }

  /** The protocol half of the invariant. */
  ghost predicate FlightOk(cfg: Config, s: State) {
    LeadersOk(s) && ChannelsOk(s) && AbsentOk(s) && ContentOk(cfg, s)
  }

  /** The ledger is exact and both budgets hold. */
  ghost predicate CacheOk(l: Limits, c: Cache) {
    Normalized(l) && LedgerOk(c) && Fits(l, c.entries)
  }

  function Held(c: Caller): multiset<nat> {
    if c.pc.Insert? then multiset{c.pc.compiled.id} else multiset{}
  }

  function HeldSlot(c: Caller): multiset<string> {
    if c.pc.Insert? then multiset{c.slot} else multiset{}
  }

  ghost function Stored(c: Cache): multiset<nat> {
    Bag(c.entries, HandleOf) + c.closed
  }

  ghost function StoredSlots(c: Cache): multiset<string> {
    multiset(c.entries.Keys) + c.removed
  }

  function Below(n: nat): multiset<nat> {
    if n == 0 then multiset{} else Below(n - 1) + multiset{n - 1}
  }

  /** Every handle ever compiled is in the cache, or held by one leader, or closed: once in all. */
  ghost predicate HandlesOk(s: State) {
    Bag(s.callers, Held) + Stored(s.cache) == Below(s.nextHandle)
  }

  /** Every compile of a slot is cached, about to be inserted, or its entry was removed. */
  ghost predicate CompilesOk(s: State) {
    Bag(s.callers, HeldSlot) + StoredSlots(s.cache) == s.compiles
  }

  ghost predicate Inv(cfg: Config, s: State) {
    FlightOk(cfg, s) && CacheOk(cfg.limits, s.cache) && HandlesOk(s) && CompilesOk(s)
  }

  // ---------------------------------------------------------------------------
  // The protocol half
  // ---------------------------------------------------------------------------

  /** `c'` drops or refreshes entries of `c`. */
  ghost predicate Keeps(c: Cache, c': Cache) {
    && c'.entries.Keys <= c.entries.Keys
    && (forall k :: k in c'.entries ==>
          c'.entries[k].key == c.entries[k].key
          && c'.entries[k].compiled == c.entries[k].compiled
          && c'.entries[k].sizeBytes == c.entries[k].sizeBytes)
  }

  lemma TouchKeeps(l: Limits, c: Cache, k: string, now: int)
    ensures Keeps(c, Touch(l, c, k, now).0)
    ensures Touch(l, c, k, now).1.None? ==> k !in Touch(l, c, k, now).0.entries
  {
  }

  lemma KeepsContent(cfg: Config, s: State, cache: Cache)
    requires ContentOk(cfg, s) && Keeps(s.cache, cache)
    ensures ContentOk(cfg, s.(cache := cache))
  {
    forall k | k in cache.entries
      ensures EntryOk(cfg, k, cache.entries[k])
    {
      assert EntryOk(cfg, k, s.cache.entries[k]);
    }
  }

  lemma MoveKeepsLeaders(s: State, p: nat, cache: Cache, pc: Pc)
    requires LeadersOk(s) && ChannelsOk(s) && p in s.callers
    requires Leads(pc) == Leads(s.callers[p].pc) && !pc.Wait?
    ensures LeadersOk(SetPc(s.(cache := cache), p, pc)) && ChannelsOk(SetPc(s.(cache := cache), p, pc))
  {
    var s' := SetPc(s.(cache := cache), p, pc);
    assert forall q, k :: LeadsSlot(s', q, k) <==> LeadsSlot(s, q, k);
  }

  /** One caller changes to `c`; the cache content is judged separately. */
  lemma CallerKeepsContent(cfg: Config, s: State, p: nat, c: Caller, s': State)
    requires ContentOk(cfg, s) && s'.callers == s.callers[p := c] && CallerOk(cfg, c)
    requires forall k :: k in s'.cache.entries ==> EntryOk(cfg, k, s'.cache.entries[k])
    ensures ContentOk(cfg, s')
  {
  }

  lemma CallerKeepsAbsent(s: State, p: nat, c: Caller, s': State)
    requires AbsentOk(s) && s'.callers == s.callers[p := c] && s'.cache.entries.Keys <= s.cache.entries.Keys
    requires c.pc.Compile? || c.pc.Insert? ==> c.slot !in s'.cache.entries
    ensures AbsentOk(s')
  {
  }

  /** A caller moves within its role, possibly after a lookup. */
  lemma MoveKeepsFlight(cfg: Config, s: State, p: nat, cache: Cache, pc: Pc)
    requires FlightOk(cfg, s) && p in s.callers && Keeps(s.cache, cache)
    requires Leads(pc) == Leads(s.callers[p].pc) && !pc.Wait? && !pc.Insert?
    requires pc.Compile? ==> s.callers[p].slot !in cache.entries
    ensures FlightOk(cfg, SetPc(s.(cache := cache), p, pc))
  {
    var s' := SetPc(s.(cache := cache), p, pc);
    MoveKeepsLeaders(s, p, cache, pc);
    KeepsContent(cfg, s, cache);
    assert CallerOk(cfg, s.callers[p].(pc := pc));
    CallerKeepsContent(cfg, s, p, s.callers[p].(pc := pc), s');
    CallerKeepsAbsent(s, p, s.callers[p].(pc := pc), s');
  }

  /** A cache change by something other than a fetching caller. */
  lemma CacheChangeKeepsFlight(cfg: Config, s: State, cache: Cache)
    requires FlightOk(cfg, s) && Keeps(s.cache, cache)
    ensures FlightOk(cfg, s.(cache := cache))
  {
    var s' := s.(cache := cache);
    assert forall q, k :: LeadsSlot(s', q, k) <==> LeadsSlot(s, q, k);
    KeepsContent(cfg, s, cache);
  }

  lemma SpawnKeepsFlight(cfg: Config, s: State, p: nat, r: Request)
    requires FlightOk(cfg, s) && p !in s.callers
    ensures FlightOk(cfg, s.(callers := s.callers[p := NewCaller(r)]))
  {
    SpawnKeepsLeaders(s, p, NewCaller(r));
    assert CallerOk(cfg, NewCaller(r));
  }

  lemma SpawnKeepsLeaders(s: State, p: nat, c: Caller)
    requires LeadersOk(s) && ChannelsOk(s) && p !in s.callers && c.pc == Check
    ensures LeadersOk(s.(callers := s.callers[p := c])) && ChannelsOk(s.(callers := s.callers[p := c]))
  {
    var s' := s.(callers := s.callers[p := c]);
    assert forall q, k :: LeadsSlot(s', q, k) <==> LeadsSlot(s, q, k);
  }

  lemma FollowKeepsLeaders(s: State, p: nat)
    requires LeadersOk(s) && ChannelsOk(s) && At(s, p, Begin) && s.callers[p].slot in s.inflight
    ensures LeadersOk(BeginEffect(s, p)) && ChannelsOk(BeginEffect(s, p))
  {
    assert forall q, k :: LeadsSlot(BeginEffect(s, p), q, k) <==> LeadsSlot(s, q, k);
  }

  lemma LeadKeepsLeaders(s: State, p: nat)
    requires LeadersOk(s) && At(s, p, Begin) && s.callers[p].slot !in s.inflight
    ensures LeadersOk(BeginEffect(s, p))
  {
    var s' := BeginEffect(s, p);
    var slot := s.callers[p].slot;
    assert forall q, k :: LeadsSlot(s', q, k) <==> LeadsSlot(s, q, k) || (q == p && k == slot);
    assert LeadsSlot(s', p, slot);
  }

  lemma LeadKeepsChannels(s: State, p: nat)
    requires ChannelsOk(s) && At(s, p, Begin) && s.callers[p].slot !in s.inflight
    ensures ChannelsOk(BeginEffect(s, p))
  {
  }

  lemma BeginKeepsLeaders(s: State, p: nat)
    requires LeadersOk(s) && ChannelsOk(s) && At(s, p, Begin)
    ensures LeadersOk(BeginEffect(s, p)) && ChannelsOk(BeginEffect(s, p))
  {
    if s.callers[p].slot in s.inflight {
      FollowKeepsLeaders(s, p);
    } else {
      LeadKeepsLeaders(s, p);
      LeadKeepsChannels(s, p);
    }
  }

  lemma BeginKeepsFlight(cfg: Config, s: State, p: nat)
    requires FlightOk(cfg, s) && At(s, p, Begin)
    ensures FlightOk(cfg, BeginEffect(s, p))
  {
    BeginKeepsLeaders(s, p);
    var s' := BeginEffect(s, p);
    assert CallerOk(cfg, s.callers[p]);
    CallerKeepsContent(cfg, s, p, s'.callers[p], s');
    CallerKeepsAbsent(s, p, s'.callers[p], s');
  }

  lemma FinishKeepsLeaders(s: State, p: nat)
    requires LeadersOk(s) && p in s.callers && s.callers[p].pc.Finish?
    ensures LeadersOk(FinishEffect(s, p))
  {
    var s' := FinishEffect(s, p);
    assert LeadsSlot(s, p, s.callers[p].slot);
    assert forall q, k :: LeadsSlot(s', q, k) <==> LeadsSlot(s, q, k) && q != p;
    assert forall q :: q in s.callers && q != p && Leads(s.callers[q].pc) ==> LeadsSlot(s, q, s.callers[q].slot);
  }

  lemma FinishKeepsChannels(s: State, p: nat)
    requires LeadersOk(s) && ChannelsOk(s) && p in s.callers && s.callers[p].pc.Finish?
    ensures ChannelsOk(FinishEffect(s, p))
  {
  }

  lemma FinishKeepsFlight(cfg: Config, s: State, p: nat)
    requires FlightOk(cfg, s) && p in s.callers && s.callers[p].pc.Finish?
    ensures FlightOk(cfg, FinishEffect(s, p))
  {
    FinishKeepsLeaders(s, p);
    FinishKeepsChannels(s, p);
    assert CallerOk(cfg, FinishEffect(s, p).callers[p]);
  }

  lemma CompileKeepsFlight(cfg: Config, s: State, p: nat, bytes: Bytes)
    requires FlightOk(cfg, s) && At(s, p, Compile) && Acceptable(cfg, s.callers[p], bytes)
    ensures FlightOk(cfg, CompileEffect(s, p, bytes))
  {
    CompileKeepsLeaders(s, p, bytes);
    assert CallerOk(cfg, CompileEffect(s, p, bytes).callers[p]);
  }

  lemma CompileKeepsLeaders(s: State, p: nat, bytes: Bytes)
    requires LeadersOk(s) && ChannelsOk(s) && At(s, p, Compile)
    ensures LeadersOk(CompileEffect(s, p, bytes)) && ChannelsOk(CompileEffect(s, p, bytes))
  {
    var s' := CompileEffect(s, p, bytes);
    assert forall q, k :: LeadsSlot(s', q, k) <==> LeadsSlot(s, q, k);
  }

  /** Only the leader of a slot fills it. */
  lemma InsertKeepsAbsent(s: State, p: nat, cache: Cache)
    requires LeadersOk(s) && AbsentOk(s) && p in s.callers && s.callers[p].pc.Insert?
    requires cache.entries.Keys <= s.cache.entries.Keys + {s.callers[p].slot}
    ensures AbsentOk(SetPc(s.(cache := cache), p, Finish(true)))
  {
    assert LeadsSlot(s, p, s.callers[p].slot);
    assert forall q :: q in s.callers && q != p && Leads(s.callers[q].pc) ==> LeadsSlot(s, q, s.callers[q].slot);
  }

  /** A request whose bytes passed its digest has a key in the engine's own form. */
  lemma KeyOfIsInsertable(hash: HexSha256, r: Request, bytes: Bytes)
    requires KeyOf(r).moduleURL != "" && VerifyDigest(hash, bytes, r.digest) == Accepted
    ensures Insertable(KeyOf(r))
  {
    TrimIsTrimmed(r.moduleName, IsSpace);
    TrimIsTrimmed(r.moduleURL, IsSpace);
    TrimIsTrimmed(r.digest, IsSpace);
  }

  /** Whatever an insertion leaves in the cache was verified against its own key. */
  lemma InsertKeepsContent(cfg: Config, s: State, c: Caller, now: int, cache: Cache)
    requires forall k :: k in s.cache.entries ==> EntryOk(cfg, k, s.cache.entries[k])
    requires CallerOk(cfg, c) && c.pc.Insert? && c.slot !in s.cache.entries
    requires Inserts(cfg.limits, s.cache, c.key, c.pc.compiled, now, cache)
    ensures forall k :: k in cache.entries ==> EntryOk(cfg, k, cache.entries[k])
    ensures cache.entries.Keys <= s.cache.entries.Keys + {c.slot}
  {
    var added := WithEntry(s.cache, c.key, c.pc.compiled, now);
    VerifyTrimmed(cfg.hash, c.pc.compiled.source, c.request.digest);
    KeyOfIsInsertable(cfg.hash, c.request, c.pc.compiled.source);
    assert EntryOk(cfg, c.slot, added.entries[c.slot]);
    assert forall k :: k in cache.entries ==> cache.entries[k] == added.entries[k];
  }

  lemma InsertKeepsFlight(cfg: Config, s: State, p: nat, now: int, cache: Cache)
    requires FlightOk(cfg, s) && p in s.callers && s.callers[p].pc.Insert?
    requires Inserts(cfg.limits, s.cache, s.callers[p].key, s.callers[p].pc.compiled, now, cache)
    ensures FlightOk(cfg, SetPc(s.(cache := cache), p, Finish(true)))
  {
    MoveKeepsLeaders(s, p, cache, Finish(true));
    InsertKeepsContent(cfg, s, s.callers[p], now, cache);
    InsertKeepsAbsent(s, p, cache);
    assert CallerOk(cfg, s.callers[p].(pc := Finish(true)));
    CallerKeepsContent(cfg, s, p, s.callers[p].(pc := Finish(true)), SetPc(s.(cache := cache), p, Finish(true)));
  }

  predicate IsLookup(step: Step) {
    step.CheckStep? || step.RecheckStep? || step.LeaderCheckStep?
  }

  /** `p` moves within its role, the cache only drops or refreshes, and a miss leaves the slot empty. */
  ghost predicate MovesInRole(s: State, p: nat, pc: Pc, s': State) {
    && p in s.callers && s' == SetPc(s.(cache := s'.cache), p, pc) && Keeps(s.cache, s'.cache)
    && Leads(pc) == Leads(s.callers[p].pc) && !pc.Wait? && !pc.Insert?
    && (pc.Compile? ==> s.callers[p].slot !in s'.cache.entries)
  }

  lemma LookupMovesInRole(cfg: Config, s: State, step: Step, s': State)
    requires Next(cfg, s, step, s') && IsLookup(step)
    ensures step.p in s'.callers && MovesInRole(s, step.p, s'.callers[step.p].pc, s')
  {
    TouchKeeps(cfg.limits, s.cache, s.callers[step.p].slot, step.now);
  }

  lemma LookupStepKeepsFlight(cfg: Config, s: State, step: Step, s': State)
    requires FlightOk(cfg, s) && Next(cfg, s, step, s') && IsLookup(step)
    ensures FlightOk(cfg, s')
  {
    LookupMovesInRole(cfg, s, step, s');
    MoveKeepsFlight(cfg, s, step.p, s'.cache, s'.callers[step.p].pc);
  }

  lemma EnvironmentKeepsFlight(cfg: Config, s: State, step: Step, s': State)
    requires FlightOk(cfg, s) && Next(cfg, s, step, s') && (step.LookupStep? || step.ClearStep?)
    ensures FlightOk(cfg, s')
  {
    if step.LookupStep? {
      TouchKeeps(cfg.limits, s.cache, step.key, step.now);
    }
    CacheChangeKeepsFlight(cfg, s, s'.cache);
  }

  lemma EntryStepKeepsFlight(cfg: Config, s: State, step: Step, s': State)
    requires FlightOk(cfg, s) && Next(cfg, s, step, s') && (step.SpawnStep? || step.BeginStep?)
    ensures FlightOk(cfg, s')
  {
    if step.SpawnStep? {
      SpawnKeepsFlight(cfg, s, step.p, step.request);
    } else {
      BeginKeepsFlight(cfg, s, step.p);
    }
  }

  lemma PlainStepKeepsFlight(cfg: Config, s: State, step: Step, s': State)
    requires FlightOk(cfg, s) && Next(cfg, s, step, s')
    requires step.WakeStep? || step.CancelStep? || step.CompileFailStep?
    ensures FlightOk(cfg, s')
  {
    var pc := if step.WakeStep? then Recheck else if step.CancelStep? then Done(false) else Finish(false);
    assert s' == SetPc(s.(cache := s.cache), step.p, pc);
    MoveKeepsFlight(cfg, s, step.p, s.cache, pc);
  }

  lemma LeaderStepKeepsFlight(cfg: Config, s: State, step: Step, s': State)
    requires FlightOk(cfg, s) && Next(cfg, s, step, s')
    requires step.CompileOkStep? || step.InsertStep? || step.FinishStep?
    ensures FlightOk(cfg, s')
  {
    match step
    case CompileOkStep(p, bytes) => CompileKeepsFlight(cfg, s, p, bytes);
    case InsertStep(p, now) => InsertKeepsFlight(cfg, s, p, now, s'.cache);
    case FinishStep(p) => FinishKeepsFlight(cfg, s, p);
  }

  lemma NextKeepsFlight(cfg: Config, s: State, step: Step, s': State)
    requires FlightOk(cfg, s) && Next(cfg, s, step, s')
    ensures FlightOk(cfg, s')
  {
    if IsLookup(step) {
      LookupStepKeepsFlight(cfg, s, step, s');
    } else if step.LookupStep? || step.ClearStep? {
      EnvironmentKeepsFlight(cfg, s, step, s');
    } else if step.CompileOkStep? || step.InsertStep? || step.FinishStep? {
      LeaderStepKeepsFlight(cfg, s, step, s');
    } else if step.SpawnStep? || step.BeginStep? {
      EntryStepKeepsFlight(cfg, s, step, s');
    } else {
      PlainStepKeepsFlight(cfg, s, step, s');
    }
  }

  // ---------------------------------------------------------------------------
  // The accounts
  // ---------------------------------------------------------------------------

  /** A cache change that keeps the ledger and loses nothing. */
  ghost predicate Settles(l: Limits, c: Cache, c': Cache) {
    CacheOk(l, c') && Stored(c') == Stored(c) && StoredSlots(c') == StoredSlots(c)
  }

  lemma RemoveSettles(l: Limits, c: Cache, k: string)
    requires CacheOk(l, c) && k in c.entries
    ensures Settles(l, c, RemoveEntry(c, k))
  {
    var c' := RemoveEntry(c, k);
    ShrinksRefl(c);
    RemoveShrinks(c, c, k);
    ShrinksKeepsLedger(c, c');
    ShrinksConserves(c, c');
    assert |c'.entries| == |c.entries| - 1;
  }

  lemma RefreshSettles(l: Limits, c: Cache, k: string, now: int)
    requires CacheOk(l, c) && k in c.entries && !Expired(l, c.entries[k], now)
    ensures Settles(l, c, Touch(l, c, k, now).0)
  {
    var c' := Touch(l, c, k, now).0;
    TouchKeepsLedger(l, c, k, now);
    RefreshKeepsSums(c, k, c'.entries[k]);
    assert c'.entries.Keys == c.entries.Keys;
    assert |c'.entries| == |c'.entries.Keys| == |c.entries.Keys| == |c.entries|;
  }

  lemma RefreshKeepsSums(c: Cache, k: string, e: Entry)
    requires k in c.entries && e.sizeBytes == c.entries[k].sizeBytes && e.compiled == c.entries[k].compiled
    ensures Total(c.entries[k := e], SizeOf) == Total(c.entries, SizeOf)
    ensures Bag(c.entries[k := e], HandleOf) == Bag(c.entries, HandleOf)
  {
    TotalUpdate(c.entries, SizeOf, k, e);
    TotalRemove(c.entries, SizeOf, k);
    BagUpdate(c.entries, HandleOf, k, e);
    BagRemove(c.entries, HandleOf, k);
  }

  lemma TouchSettles(l: Limits, c: Cache, k: string, now: int)
    requires CacheOk(l, c)
    ensures Settles(l, c, Touch(l, c, k, now).0)
  {
    if k in c.entries {
      if Expired(l, c.entries[k], now) {
        RemoveSettles(l, c, k);
      } else {
        RefreshSettles(l, c, k, now);
      }
    }
  }

  lemma ClearSettles(l: Limits, c: Cache)
    requires CacheOk(l, c)
    ensures Settles(l, c, ClearAll(c))
  {
    ClearAllShrinks(c);
    ShrinksConserves(c, ClearAll(c));
  }

  lemma WithEntryStores(c: Cache, key: CacheKey, compiled: Compiled, now: int)
    requires KeyString(key) !in c.entries
    ensures Stored(WithEntry(c, key, compiled, now)) == multiset{compiled.id} + Stored(c)
    ensures StoredSlots(WithEntry(c, key, compiled, now)) == multiset{KeyString(key)} + StoredSlots(c)
  {
    var added := WithEntry(c, key, compiled, now);
    BagUpdate(c.entries, HandleOf, KeyString(key), added.entries[KeyString(key)]);
    assert added.entries.Keys == c.entries.Keys + {KeyString(key)};
  }

  /** An insertion into an empty slot adds one handle and one slot to the accounts. */
  lemma InsertsSettles(l: Limits, c: Cache, key: CacheKey, compiled: Compiled, now: int, c': Cache)
    requires CacheOk(l, c) && KeyString(key) !in c.entries
    requires Inserts(l, c, key, compiled, now, c')
    ensures CacheOk(l, c')
    ensures Stored(c') == multiset{compiled.id} + Stored(c)
    ensures StoredSlots(c') == multiset{KeyString(key)} + StoredSlots(c)
  {
    var added := WithEntry(c, key, compiled, now);
    WithEntryKeepsLedger(c, key, compiled, now);
    ShrinksKeepsLedger(added, c');
    ShrinksConserves(added, c');
    WithEntryStores(c, key, compiled, now);
  }

  lemma NextKeepsCache(cfg: Config, s: State, step: Step, s': State)
    requires FlightOk(cfg, s) && CacheOk(cfg.limits, s.cache) && Next(cfg, s, step, s')
    ensures CacheOk(cfg.limits, s'.cache)
    ensures StoresOnly(s, step, s')
  {
    match step
    case CheckStep(p, now) => TouchSettles(cfg.limits, s.cache, s.callers[p].slot, now);
    case RecheckStep(p, now) => TouchSettles(cfg.limits, s.cache, s.callers[p].slot, now);
    case LeaderCheckStep(p, now) => TouchSettles(cfg.limits, s.cache, s.callers[p].slot, now);
    case LookupStep(k, now) => TouchSettles(cfg.limits, s.cache, k, now);
    case ClearStep => ClearSettles(cfg.limits, s.cache);
    case InsertStep(p, now) =>
      InsertsSettles(cfg.limits, s.cache, s.callers[p].key, s.callers[p].pc.compiled, now, s'.cache);
    case _ =>
  }

  /** Replacing one caller replaces what that caller holds. */
  lemma SwapCaller<T>(callers: map<nat, Caller>, f: Caller -> multiset<T>, p: nat, c: Caller)
    ensures Bag(callers[p := c], f) == f(c) + Bag(callers - {p}, f)
    ensures Bag(callers, f) == (if p in callers then f(callers[p]) else multiset{}) + Bag(callers - {p}, f)
  {
    BagUpdate(callers, f, p, c);
    if p in callers {
      BagRemove(callers, f, p);
    }
  }

  /** The step changes the caller `p` to `c`, and what the cache stores by `gained`. */
  lemma ExchangeKeepsHandles(s: State, p: nat, c: Caller, s': State, gained: multiset<nat>)
    requires HandlesOk(s) && s'.callers == s.callers[p := c] && s'.nextHandle == s.nextHandle
    requires (if p in s.callers then Held(s.callers[p]) else multiset{}) == Held(c) + gained
    requires Stored(s'.cache) == gained + Stored(s.cache)
    ensures HandlesOk(s')
  {
    SwapCaller(s.callers, Held, p, c);
    Exchange(if p in s.callers then Held(s.callers[p]) else multiset{}, Held(c), gained,
             Bag(s.callers - {p}, Held), Stored(s.cache));
  }

  lemma ExchangeKeepsCompiles(s: State, p: nat, c: Caller, s': State, gained: multiset<string>)
    requires CompilesOk(s) && s'.callers == s.callers[p := c] && s'.compiles == s.compiles
    requires (if p in s.callers then HeldSlot(s.callers[p]) else multiset{}) == HeldSlot(c) + gained
    requires StoredSlots(s'.cache) == gained + StoredSlots(s.cache)
    ensures CompilesOk(s')
  {
    SwapCaller(s.callers, HeldSlot, p, c);
    Exchange(if p in s.callers then HeldSlot(s.callers[p]) else multiset{}, HeldSlot(c), gained,
             Bag(s.callers - {p}, HeldSlot), StoredSlots(s.cache));
  }

  lemma Exchange<T>(held: multiset<T>, kept: multiset<T>, given: multiset<T>, others: multiset<T>, stored: multiset<T>)
    requires held == kept + given
    ensures (kept + others) + (given + stored) == (held + others) + stored
  {
  }

  lemma CompileKeepsHandles(s: State, p: nat, bytes: Bytes)
    requires HandlesOk(s) && At(s, p, Compile)
    ensures HandlesOk(CompileEffect(s, p, bytes))
  {
    var c := CompileEffect(s, p, bytes).callers[p];
    SwapCaller(s.callers, Held, p, c);
    Gain(multiset{s.nextHandle}, Bag(s.callers - {p}, Held), Stored(s.cache));
  }

  lemma CompileKeepsCompiles(s: State, p: nat, bytes: Bytes)
    requires CompilesOk(s) && At(s, p, Compile)
    ensures CompilesOk(CompileEffect(s, p, bytes))
  {
    var c := CompileEffect(s, p, bytes).callers[p];
    SwapCaller(s.callers, HeldSlot, p, c);
    Gain(multiset{c.slot}, Bag(s.callers - {p}, HeldSlot), StoredSlots(s.cache));
  }

  lemma Gain<T>(gained: multiset<T>, others: multiset<T>, stored: multiset<T>)
    ensures (gained + others) + stored == ((multiset{} + others) + stored) + gained
  {
  }

  predicate MovesCaller(step: Step) {
    !step.LookupStep? && !step.ClearStep?
  }

  /** Which caller a step moves, and how what it holds changes. */
  ghost predicate MovesOnly(s: State, step: Step, s': State) {
    if !MovesCaller(step) then
      s'.callers == s.callers && s'.nextHandle == s.nextHandle && s'.compiles == s.compiles
    else if step.CompileOkStep? then
      At(s, step.p, Compile) && s' == CompileEffect(s, step.p, step.bytes)
    else
      && step.p in s'.callers && s'.callers == s.callers[step.p := s'.callers[step.p]]
      && s'.nextHandle == s.nextHandle && s'.compiles == s.compiles
      && !s'.callers[step.p].pc.Insert?
      && (if step.InsertStep? then step.p in s.callers && s.callers[step.p].pc.Insert?
          else step.p in s.callers ==> !s.callers[step.p].pc.Insert?)
  }

  lemma NextMovesOnly(cfg: Config, s: State, step: Step, s': State)
    requires Next(cfg, s, step, s')
    ensures MovesOnly(s, step, s')
  {
  }

  /** What a step adds to the accounts of the cache. */
  ghost predicate StoresOnly(s: State, step: Step, s': State) {
    if step.InsertStep? then
      && step.p in s.callers && s.callers[step.p].pc.Insert?
      && Stored(s'.cache) == multiset{s.callers[step.p].pc.compiled.id} + Stored(s.cache)
      && StoredSlots(s'.cache) == multiset{s.callers[step.p].slot} + StoredSlots(s.cache)
    else Stored(s'.cache) == Stored(s.cache) && StoredSlots(s'.cache) == StoredSlots(s.cache)
  }

  lemma StepKeepsHandles(s: State, step: Step, s': State)
    requires HandlesOk(s) && MovesOnly(s, step, s') && StoresOnly(s, step, s')
    ensures HandlesOk(s')
  {
    if step.CompileOkStep? {
      CompileKeepsHandles(s, step.p, step.bytes);
    } else if MovesCaller(step) {
      ExchangeKeepsHandles(s, step.p, s'.callers[step.p], s',
                           if step.InsertStep? then multiset{s.callers[step.p].pc.compiled.id} else multiset{});
    }
  }

  lemma StepKeepsCompiles(s: State, step: Step, s': State)
    requires CompilesOk(s) && MovesOnly(s, step, s') && StoresOnly(s, step, s')
    ensures CompilesOk(s')
  {
    if step.CompileOkStep? {
      CompileKeepsCompiles(s, step.p, step.bytes);
    } else if MovesCaller(step) {
      ExchangeKeepsCompiles(s, step.p, s'.callers[step.p], s',
                            if step.InsertStep? then multiset{s.callers[step.p].slot} else multiset{});
    }
  }

  lemma NextKeepsInv(cfg: Config, s: State, step: Step, s': State)
    requires Inv(cfg, s) && Next(cfg, s, step, s')
    ensures Inv(cfg, s')
  {
    NextKeepsFlight(cfg, s, step, s');
    NextKeepsCache(cfg, s, step, s');
    NextMovesOnly(cfg, s, step, s');
    StepKeepsHandles(s, step, s');
    StepKeepsCompiles(s, step, s');
  }

  lemma StepOfRun(cfg: Config, steps: seq<Step>, states: seq<State>, i: nat)
    requires Run(cfg, steps, states) && i < |steps|
    ensures Next(cfg, states[i], steps[i], states[i + 1])
  {
    assert StepAt(cfg, steps, states, i);
  }

  lemma InitialInv(cfg: Config)
    requires Normalized(cfg.limits)
    ensures Inv(cfg, INITIAL)
  {
    assert EMPTY_CACHE.entries.Keys == {};
  }

  lemma StepKeepsInv(cfg: Config, steps: seq<Step>, states: seq<State>, i: nat)
    requires Run(cfg, steps, states) && 0 < i < |states| && Inv(cfg, states[i - 1])
    ensures Inv(cfg, states[i])
  {
    StepOfRun(cfg, steps, states, i - 1);
    NextKeepsInv(cfg, states[i - 1], steps[i - 1], states[i]);
  }

  lemma StartInv(cfg: Config, steps: seq<Step>, states: seq<State>)
    requires Normalized(cfg.limits) && Run(cfg, steps, states)
    ensures Inv(cfg, states[0])
  {
    InitialInv(cfg);
  }

  lemma {:induction false} RunKeepsInv(cfg: Config, steps: seq<Step>, states: seq<State>, i: nat)
    requires Normalized(cfg.limits) && Run(cfg, steps, states) && i < |states|
    ensures Inv(cfg, states[i])
  {
    if i == 0 {
      StartInv(cfg, steps, states);
    } else {
      RunKeepsInv(cfg, steps, states, i - 1);
      StepKeepsInv(cfg, steps, states, i);
    }
  }

  // ---------------------------------------------------------------------------
  // What every run guarantees
  // ---------------------------------------------------------------------------

  /** Single flight: in every reachable state a slot is in flight exactly when one
  caller leads it, a follower's channel is closed or owned by such a leader, and a
  leader about to insert finds its slot empty. */
  lemma SingleFlightHolds(cfg: Config, steps: seq<Step>, states: seq<State>, i: nat)
    requires Normalized(cfg.limits) && Run(cfg, steps, states) && i < |states|
    ensures var s := states[i];
      && (forall k :: k in s.inflight <==> exists p :: LeadsSlot(s, p, k))
      && (forall p, q, k :: LeadsSlot(s, p, k) && LeadsSlot(s, q, k) ==> p == q)
      && (forall p :: p in s.callers && s.callers[p].pc.Wait? && s.callers[p].pc.ch !in s.closedChans ==>
            && s.callers[p].slot in s.inflight && s.inflight[s.callers[p].slot] == s.callers[p].pc.ch
            && exists q :: LeadsSlot(s, q, s.callers[p].slot))
      && (forall p :: p in s.callers && s.callers[p].pc.Insert? ==> s.callers[p].slot !in s.cache.entries)
  {
    RunKeepsInv(cfg, steps, states, i);
  }

  /** The accounts of every reachable state: the byte ledger is exact (so its clamp at
  zero never fires), LRU orders are distinct and at most the clock, both budgets hold,
  and each handle compiled so far is in one place. */
  lemma LedgerHolds(cfg: Config, steps: seq<Step>, states: seq<State>, i: nat)
    requires Normalized(cfg.limits) && Run(cfg, steps, states) && i < |states|
    ensures var s := states[i];
      && s.cache.bytes == Total(s.cache.entries, SizeOf) <= cfg.limits.maxCacheBytes
      && |s.cache.entries| <= cfg.limits.maxCachedModules
      && OrdersOk(s.cache)
      && HandlesOk(s)
  {
    RunKeepsInv(cfg, steps, states, i);
  }

  lemma {:induction false} BelowCounts(n: nat, h: nat)
    ensures Below(n)[h] == if h < n then 1 else 0
  {
    if n > 0 {
      BelowCounts(n - 1, h);
    }
  }

  /** No handle is closed twice, and a closed handle is neither cached nor held. */
  lemma ClosedOnce(s: State, h: nat)
    requires HandlesOk(s)
    ensures s.cache.closed[h] <= 1
    ensures h in s.cache.closed ==> forall k :: k in s.cache.entries ==> s.cache.entries[k].compiled.id != h
    ensures h in s.cache.closed ==> forall p :: p in s.callers && s.callers[p].pc.Insert? ==>
          s.callers[p].pc.compiled.id != h
    ensures h < s.nextHandle && h !in s.cache.closed ==>
      (exists k :: k in s.cache.entries && s.cache.entries[k].compiled.id == h)
      || (exists p :: p in s.callers && s.callers[p].pc.Insert? && s.callers[p].pc.compiled.id == h)
  {
    BelowCounts(s.nextHandle, h);
    assert Below(s.nextHandle)[h] ==
      Bag(s.callers, Held)[h] + Bag(s.cache.entries, HandleOf)[h] + s.cache.closed[h];
    forall k | k in s.cache.entries && s.cache.entries[k].compiled.id == h
      ensures h in Bag(s.cache.entries, HandleOf)
    {
      BagRemove(s.cache.entries, HandleOf, k);
    }
    forall p | p in s.callers && s.callers[p].pc.Insert? && s.callers[p].pc.compiled.id == h
      ensures h in Bag(s.callers, Held)
    {
      BagRemove(s.callers, Held, p);
    }
    if h in Bag(s.cache.entries, HandleOf) {
      var k := BagWitness(s.cache.entries, HandleOf, h);
    }
    if h in Bag(s.callers, Held) {
      var p := BagWitness(s.callers, Held, h);
    }
  }

  lemma HeldSlotAtMostOne(s: State, k: string)
    requires LeadersOk(s) && AbsentOk(s)
    ensures Bag(s.callers, HeldSlot)[k] <= if k in s.cache.entries then 0 else 1
  {
    if k in Bag(s.callers, HeldSlot) {
      var p := BagWitness(s.callers, HeldSlot, k);
      assert LeadsSlot(s, p, k);
      BagRemove(s.callers, HeldSlot, p);
      if k in Bag(s.callers - {p}, HeldSlot) {
        var q := BagWitness(s.callers - {p}, HeldSlot, k);
        assert LeadsSlot(s, q, k);
        assert false;
      }
    }
  }

  /** A slot is compiled again only after its entry was removed: bursts compile once. */
  lemma CompiledOnce(cfg: Config, steps: seq<Step>, states: seq<State>, i: nat, k: string)
    requires Normalized(cfg.limits) && Run(cfg, steps, states) && i < |states|
    ensures states[i].compiles[k] <= states[i].cache.removed[k] + 1
  {
    RunKeepsInv(cfg, steps, states, i);
    HeldSlotAtMostOne(states[i], k);
  }

  // --- progress --------------------------------------------------------------

  function Rank(pc: Pc): nat {
    match pc
    case LeaderCheck => 4
    case Compile => 3
    case Insert(_) => 2
    case Finish(_) => 1
    case _ => 0
  }

  lemma FinishCloses(s: State, p: nat)
    requires p in s.callers && s.callers[p].pc.Finish? && s.callers[p].slot in s.inflight
    ensures FinishEffect(s, p).callers[p].pc.Done?
    ensures s.inflight[s.callers[p].slot] in FinishEffect(s, p).closedChans
  {
  }

  lemma LeaderMoves(cfg: Config, s: State, step: Step, s': State)
    requires Next(cfg, s, step, s') && !step.FinishStep?
    requires MovesCaller(step) && step.p in s.callers && Leads(s.callers[step.p].pc)
    ensures Rank(s'.callers[step.p].pc) < Rank(s.callers[step.p].pc) && Leads(s'.callers[step.p].pc)
    ensures s'.inflight == s.inflight && s'.callers[step.p].slot == s.callers[step.p].slot
  {
  }

  /** A leader never waits: each of its own steps lowers its rank, and the last one closes its channel. */
  lemma LeaderStepsDescend(cfg: Config, s: State, step: Step, s': State)
    requires LeadersOk(s) && Next(cfg, s, step, s')
    requires MovesCaller(step) && step.p in s.callers && Leads(s.callers[step.p].pc)
    ensures Rank(s'.callers[step.p].pc) < Rank(s.callers[step.p].pc)
    ensures s'.callers[step.p].pc.Done? ==> s.inflight[s.callers[step.p].slot] in s'.closedChans
    ensures !s'.callers[step.p].pc.Done? ==>
      s'.inflight == s.inflight && s'.callers[step.p].slot == s.callers[step.p].slot && Leads(s'.callers[step.p].pc)
  {
    if step.FinishStep? {
      FinishCloses(s, step.p);
    } else {
      LeaderMoves(cfg, s, step, s');
    }
  }

  /** A leader can always take its next step. */
  lemma LeaderCanStep(cfg: Config, s: State, p: nat) returns (step: Step, s': State)
    requires Inv(cfg, s) && p in s.callers && Leads(s.callers[p].pc)
    ensures MovesCaller(step) && step.p == p && Next(cfg, s, step, s')
  {
    match s.callers[p].pc
    case LeaderCheck =>
      step := LeaderCheckStep(p, 0);
      var (cache, found) := Touch(cfg.limits, s.cache, s.callers[p].slot, 0);
      s' := SetPc(s.(cache := cache), p, if found.Some? then Finish(true) else Compile);
    case Compile =>
      step := CompileFailStep(p);
      s' := SetPc(s, p, Finish(false));
    case Insert(compiled) =>
      step := InsertStep(p, 0);
      var key := s.callers[p].key;
      assert CallerOk(cfg, s.callers[p]);
      WithEntryKeepsLedger(s.cache, key, compiled, 0);
      var cache := EvictsExists(cfg.limits, WithEntry(s.cache, key, compiled, 0), 0);
      s' := SetPc(s.(cache := cache), p, Finish(true));
    case Finish(_) =>
      step := FinishStep(p);
      s' := FinishEffect(s, p);
  }

  /** Some continuation of at most `n` steps closes the channel. */
  ghost predicate CanClose(cfg: Config, s: State, ch: nat, n: nat)
    decreases n
  {
    ch in s.closedChans
    || (n > 0 && exists step, s' :: Next(cfg, s, step, s') && CanClose(cfg, s', ch, n - 1))
  }

  lemma LeaderAdvances(cfg: Config, s: State, p: nat) returns (step: Step, s': State)
    requires Inv(cfg, s) && p in s.callers && Leads(s.callers[p].pc)
    ensures Next(cfg, s, step, s') && Inv(cfg, s')
    ensures p in s'.callers && Rank(s'.callers[p].pc) < Rank(s.callers[p].pc)
    ensures s.callers[p].slot in s.inflight
    ensures s.inflight[s.callers[p].slot] in s'.closedChans
         || (Leads(s'.callers[p].pc) && s'.callers[p].slot == s.callers[p].slot && s'.inflight == s.inflight)
  {
    step, s' := LeaderCanStep(cfg, s, p);
    LeaderStepsDescend(cfg, s, step, s');
    NextKeepsInv(cfg, s, step, s');
  }

  /** A leader's channel is closed within as many steps as the leader's rank. */
  lemma {:induction false} LeaderCloses(cfg: Config, s: State, p: nat)
    requires Inv(cfg, s) && p in s.callers && Leads(s.callers[p].pc)
    ensures s.callers[p].slot in s.inflight
    ensures CanClose(cfg, s, s.inflight[s.callers[p].slot], Rank(s.callers[p].pc))
    decreases Rank(s.callers[p].pc)
  {
    var step, s' := LeaderAdvances(cfg, s, p);
    var ch := s.inflight[s.callers[p].slot];
    if ch !in s'.closedChans {
      LeaderCloses(cfg, s', p);
      CanCloseWithin(cfg, s', ch, Rank(s'.callers[p].pc), Rank(s.callers[p].pc) - 1);
    }
    assert CanClose(cfg, s', ch, Rank(s.callers[p].pc) - 1);
  }

  lemma {:induction false} CanCloseWithin(cfg: Config, s: State, ch: nat, m: nat, n: nat)
    requires CanClose(cfg, s, ch, m) && m <= n
    ensures CanClose(cfg, s, ch, n)
    decreases m
  {
    if ch !in s.closedChans {
      var step, s' :| Next(cfg, s, step, s') && CanClose(cfg, s', ch, m - 1);
      CanCloseWithin(cfg, s', ch, m - 1, n - 1);
    }
  }

  /** No orphaned wait: from every reachable state some continuation of at most four steps wakes a follower. */
  lemma WaitersWake(cfg: Config, steps: seq<Step>, states: seq<State>, i: nat, p: nat)
    requires Normalized(cfg.limits) && Run(cfg, steps, states) && i < |states|
    requires p in states[i].callers && states[i].callers[p].pc.Wait?
    ensures CanClose(cfg, states[i], states[i].callers[p].pc.ch, 4)
  {
    RunKeepsInv(cfg, steps, states, i);
    var s := states[i];
    if s.callers[p].pc.ch !in s.closedChans {
      var q :| LeadsSlot(s, q, s.callers[p].slot);
      LeaderCloses(cfg, s, q);
      CanCloseWithin(cfg, s, s.callers[p].pc.ch, Rank(s.callers[q].pc), 4);
    }
  }

  /** The step is one of caller `p`. */
  predicate StepOf(step: Step, p: nat) {
    MovesCaller(step) && step.p == p
  }

  /** Other steps leave a leader where it is and its channel in flight; closed channels stay closed. */
  lemma OthersLeaveLeader(cfg: Config, s: State, step: Step, s': State, p: nat)
    requires LeadersOk(s) && Next(cfg, s, step, s') && p in s.callers && Leads(s.callers[p].pc) && !StepOf(step, p)
    ensures p in s'.callers && s'.callers[p] == s.callers[p]
    ensures s.callers[p].slot in s.inflight && s.callers[p].slot in s'.inflight
    ensures s'.inflight[s.callers[p].slot] == s.inflight[s.callers[p].slot]
  {
    if step.FinishStep? {
      assert LeadsSlot(s, p, s.callers[p].slot) && LeadsSlot(s, step.p, s.callers[step.p].slot);
    }
  }

  lemma ClosedStays(cfg: Config, s: State, step: Step, s': State)
    requires Next(cfg, s, step, s')
    ensures s.closedChans <= s'.closedChans
  {
  }

  /** How many of the steps from `i` to `j` are caller `p`'s. */
  function StepsTaken(steps: seq<Step>, p: nat, i: nat, j: nat): nat
    requires i <= j <= |steps|
  {
    if i == j then 0 else StepsTaken(steps, p, i, j - 1) + if StepOf(steps[j - 1], p) then 1 else 0
  }

  /** The leader `p` of `slot` still holds channel `ch` at rank at most `rank`, or `ch` is closed. */
  ghost predicate LeadsOrClosed(s: State, p: nat, slot: string, ch: nat, rank: int) {
    || ch in s.closedChans
    || (LeadsSlot(s, p, slot) && slot in s.inflight && s.inflight[slot] == ch && Rank(s.callers[p].pc) <= rank)
  }

  lemma LeadsOrClosedStep(cfg: Config, s: State, step: Step, s': State, p: nat, slot: string, ch: nat, rank: int)
    requires LeadersOk(s) && Next(cfg, s, step, s') && LeadsOrClosed(s, p, slot, ch, rank)
    ensures LeadsOrClosed(s', p, slot, ch, rank - if StepOf(step, p) then 1 else 0)
  {
    ClosedStays(cfg, s, step, s');
    if ch !in s.closedChans {
      if StepOf(step, p) {
        LeaderStepsDescend(cfg, s, step, s');
      } else {
        OthersLeaveLeader(cfg, s, step, s', p);
      }
    }
  }

  lemma ReachableLeaders(cfg: Config, steps: seq<Step>, states: seq<State>, i: nat)
    requires Normalized(cfg.limits) && Run(cfg, steps, states) && i < |states|
    ensures LeadersOk(states[i])
  {
    RunKeepsInv(cfg, steps, states, i);
  }

  lemma {:induction false} LeaderDescends(cfg: Config, steps: seq<Step>, states: seq<State>, i: nat, j: nat, p: nat)
    requires Normalized(cfg.limits) && Run(cfg, steps, states) && i <= j <= |steps|
    requires p in states[i].callers && Leads(states[i].callers[p].pc)
    ensures var slot := states[i].callers[p].slot;
      && slot in states[i].inflight
      && LeadsOrClosed(states[j], p, slot, states[i].inflight[slot],
                       Rank(states[i].callers[p].pc) - StepsTaken(steps, p, i, j))
    decreases j
  {
    if i == j {
      ReachableLeaders(cfg, steps, states, i);
    } else {
      LeaderDescends(cfg, steps, states, i, j - 1, p);
      ReachableLeaders(cfg, steps, states, j - 1);
      StepOfRun(cfg, steps, states, j - 1);
      var slot := states[i].callers[p].slot;
      LeadsOrClosedStep(cfg, states[j - 1], steps[j - 1], states[j], p, slot, states[i].inflight[slot],
                        Rank(states[i].callers[p].pc) - StepsTaken(steps, p, i, j - 1));
    }
  }

  /** In every schedule: once a leader has taken as many steps as its rank, whatever else was interleaved, its channel
  is closed. */
  lemma LeaderClosesInEveryRun(cfg: Config, steps: seq<Step>, states: seq<State>, i: nat, j: nat, p: nat)
    requires Normalized(cfg.limits) && Run(cfg, steps, states) && i <= j <= |steps|
    requires p in states[i].callers && Leads(states[i].callers[p].pc)
    requires StepsTaken(steps, p, i, j) >= Rank(states[i].callers[p].pc)
    ensures states[i].callers[p].slot in states[i].inflight
    ensures states[i].inflight[states[i].callers[p].slot] in states[j].closedChans
  {
    LeaderDescends(cfg, steps, states, i, j, p);
  }

  /** In every schedule: a follower that waits has an open channel only while one fixed leader has yet to take its
  four steps at most. */
  lemma WaitersWakeInEveryRun(cfg: Config, steps: seq<Step>, states: seq<State>, i: nat, p: nat) returns (q: nat)
    requires Normalized(cfg.limits) && Run(cfg, steps, states) && i <= |steps|
    requires p in states[i].callers && states[i].callers[p].pc.Wait?
    requires states[i].callers[p].pc.ch !in states[i].closedChans
    ensures LeadsSlot(states[i], q, states[i].callers[p].slot)
    ensures forall j :: i <= j <= |steps| && StepsTaken(steps, q, i, j) >= 4 ==>
              states[i].callers[p].pc.ch in states[j].closedChans
  {
    RunKeepsInv(cfg, steps, states, i);
    q :| LeadsSlot(states[i], q, states[i].callers[p].slot);
    forall j | i <= j <= |steps| && StepsTaken(steps, q, i, j) >= 4
      ensures states[i].callers[p].pc.ch in states[j].closedChans
    {
      LeaderClosesInEveryRun(cfg, steps, states, i, j, q);
    }
  }

  // --- integrity -------------------------------------------------------------

  /** A hit for a name and a digest is a module built from bytes with that digest, for every request whose slot
  holds no tag that another key could have put there. `HitHonestIff` shows that no weaker condition would do. */
  lemma HitHasDigest(cfg: Config, steps: seq<Step>, states: seq<State>, i: nat, r: Request)
    requires Normalized(cfg.limits) && Run(cfg, steps, states) && i < |states|
    requires KeyOf(r).digest != "" && !HasAlias(KeyOf(r))
    requires KeyString(KeyOf(r)) in states[i].cache.entries
    ensures var e := states[i].cache.entries[KeyString(KeyOf(r))];
      && VerifyDigest(cfg.hash, e.compiled.source, r.digest) == Accepted
      && e.key.moduleName == KeyOf(r).moduleName
      && |e.compiled.source| <= cfg.limits.maxModuleBytes
  {
    RunKeepsInv(cfg, steps, states, i);
    var k := KeyOf(r);
    var e := states[i].cache.entries[KeyString(k)];
    assert EntryOk(cfg, KeyString(k), e);
    if e.key.digest != k.digest {
      AliasTo(k, e.key);
    }
    SameDigestSameName(e.key, k);
    VerifyTrimmed(cfg.hash, e.compiled.source, r.digest);
  }

  lemma ColdInsert(l: Limits, key: CacheKey, compiled: Compiled) returns (cache: Cache)
    requires Normalized(l) && |compiled.source| <= l.maxCacheBytes
    ensures Inserts(l, EMPTY_CACHE, key, compiled, 0, cache)
    ensures KeyString(key) in cache.entries && cache.entries[KeyString(key)].compiled == compiled
  {
    WithEntryKeepsLedger(EMPTY_CACHE, key, compiled, 0);
    cache := EvictsExists(l, WithEntry(EMPTY_CACHE, key, compiled, 0), 0);
    NewEntrySurvives(l, EMPTY_CACHE, key, compiled, 0, cache);
  }

  lemma RunExtends(cfg: Config, steps: seq<Step>, states: seq<State>, step: Step, s': State)
    requires Run(cfg, steps, states) && Next(cfg, states[|steps|], step, s')
    ensures Run(cfg, steps + [step], states + [s'])
  {
    forall i | 0 <= i <= |steps|
      ensures StepAt(cfg, steps + [step], states + [s'], i)
    {
      if i < |steps| {
        assert StepAt(cfg, steps, states, i);
      }
    }
  }

  /** The engine with one caller, at `pc` and, from LeaderCheck on, leading. */
  function Alone(r: Request, pc: Pc): State {
    var s := INITIAL.(callers := map[0 := NewCaller(r).(pc := pc)]);
    if Leads(pc) then s.(inflight := map[NewCaller(r).slot := 0], nextChan := 1) else s
  }

  lemma ColdStart(cfg: Config, r: Request) returns (steps: seq<Step>, states: seq<State>)
    requires r.moduleURL != ""
    ensures Run(cfg, steps, states) && |steps| == 4 && states[4] == Alone(r, Compile)
  {
    steps, states := [], [INITIAL];
    assert Next(cfg, INITIAL, SpawnStep(0, r), Alone(r, Check));
    RunExtends(cfg, steps, states, SpawnStep(0, r), Alone(r, Check));
    steps, states := steps + [SpawnStep(0, r)], states + [Alone(r, Check)];
    assert Next(cfg, Alone(r, Check), CheckStep(0, 0), Alone(r, Begin));
    RunExtends(cfg, steps, states, CheckStep(0, 0), Alone(r, Begin));
    steps, states := steps + [CheckStep(0, 0)], states + [Alone(r, Begin)];
    assert Next(cfg, Alone(r, Begin), BeginStep(0), Alone(r, LeaderCheck));
    RunExtends(cfg, steps, states, BeginStep(0), Alone(r, LeaderCheck));
    steps, states := steps + [BeginStep(0)], states + [Alone(r, LeaderCheck)];
    assert Next(cfg, Alone(r, LeaderCheck), LeaderCheckStep(0, 0), Alone(r, Compile));
    RunExtends(cfg, steps, states, LeaderCheckStep(0, 0), Alone(r, Compile));
    steps, states := steps + [LeaderCheckStep(0, 0)], states + [Alone(r, Compile)];
  }

  /** An undisturbed cold fetch caches what it downloaded. */
  lemma ColdFetch(cfg: Config, r: Request, bytes: Bytes) returns (steps: seq<Step>, states: seq<State>)
    requires Normalized(cfg.limits) && r.moduleURL != ""
    requires Acceptable(cfg, NewCaller(r), bytes) && |bytes| <= cfg.limits.maxCacheBytes
    ensures Run(cfg, steps, states) && |steps| == 6
    ensures KeyString(KeyOf(r)) in states[6].cache.entries
    ensures states[6].cache.entries[KeyString(KeyOf(r))].compiled.source == bytes
  {
    steps, states := ColdStart(cfg, r);
    var s5 := CompileEffect(Alone(r, Compile), 0, bytes);
    assert Next(cfg, Alone(r, Compile), CompileOkStep(0, bytes), s5);
    RunExtends(cfg, steps, states, CompileOkStep(0, bytes), s5);
    steps, states := steps + [CompileOkStep(0, bytes)], states + [s5];
    var cache := ColdInsert(cfg.limits, KeyOf(r), Compiled(0, bytes));
    var s6 := SetPc(s5.(cache := cache), 0, Finish(true));
    assert Next(cfg, s5, InsertStep(0, 0), s6);
    RunExtends(cfg, steps, states, InsertStep(0, 0), s6);
    steps, states := steps + [InsertStep(0, 0)], states + [s6];
  }

  /** An alias is reachable: any bytes that pass the alias's own digest can come to answer for the request. */
  lemma ForeignHit(cfg: Config, k: CacheKey, other: CacheKey, bytes: Bytes)
    returns (steps: seq<Step>, states: seq<State>)
    requires Normalized(cfg.limits) && |bytes| <= cfg.limits.maxModuleBytes && |bytes| <= cfg.limits.maxCacheBytes
    requires k.digest != "" && Alias(k, other) && VerifyDigest(cfg.hash, bytes, other.digest) == Accepted
    ensures Run(cfg, steps, states) && |steps| == 6
    ensures KeyString(k) in states[6].cache.entries
    ensures states[6].cache.entries[KeyString(k)].compiled.source == bytes
  {
    var r := Request(other.moduleName, other.moduleURL, other.digest);
    TrimIsTrimmed(r.moduleName, IsSpace);
    TrimIsTrimmed(r.moduleURL, IsSpace);
    TrimIsTrimmed(r.digest, IsSpace);
    assert KeyOf(r) == other;
    steps, states := ColdFetch(cfg, r, bytes);
  }

  /** What is in the slot of `r` passes the digest of `r`. */
  predicate Honest(hash: HexSha256, r: Request, s: State) {
    var slot := KeyString(KeyOf(r));
    slot in s.cache.entries ==> VerifyDigest(hash, s.cache.entries[slot].compiled.source, r.digest) == Accepted
  }

  /** Whatever the hash function, every reachable state is honest. */
  ghost predicate AlwaysHonest(l: Limits, r: Request) {
    forall hash, steps, states, i ::
      Run(Config(l, hash), steps, states) && 0 <= i < |states| ==> Honest(hash, r, states[i])
  }

  /** With a hash that tells the empty module from the one-byte module, a "@url:" alias is all it takes. */
  lemma UrlAliasIsDishonest(cfg: Config, r: Request, i: nat) returns (steps: seq<Step>, states: seq<State>)
    requires Normalized(cfg.limits) && cfg.hash([]) != cfg.hash([0]) && KeyOf(r).digest != ""
    requires i <= |KeyString(KeyOf(r))| && UrlAliasAt(KeyString(KeyOf(r)), i)
    ensures Run(cfg, steps, states) && |steps| == 6 && !Honest(cfg.hash, r, states[6])
  {
    var other := AliasFrom(KeyOf(r), i);
    var bytes := if VerifyDigest(cfg.hash, [], r.digest) == Accepted then [0] else [];
    assert VerifyDigest(cfg.hash, bytes, r.digest) != Accepted;
    steps, states := ForeignHit(cfg, KeyOf(r), other, bytes);
  }

  /** A "@digest:" alias is dishonest as soon as some bytes have its digest: no bytes have the requested one. */
  lemma DigestAliasIsDishonest(cfg: Config, r: Request, i: nat, bytes: Bytes)
    returns (steps: seq<Step>, states: seq<State>)
    requires Normalized(cfg.limits) && |bytes| <= cfg.limits.maxModuleBytes && |bytes| <= cfg.limits.maxCacheBytes
    requires KeyOf(r).digest != "" && i <= |KeyString(KeyOf(r))|
    requires DigestAliasAt(KeyString(KeyOf(r)), i, KeyOf(r).digest)
    requires ParseDigest(KeyString(KeyOf(r))[i + 8..]) == Some(cfg.hash(bytes))
    ensures Run(cfg, steps, states) && |steps| == 6 && !Honest(cfg.hash, r, states[6])
  {
    var k := KeyOf(r);
    var other := CacheKey(KeyString(k)[..i], "u", KeyString(k)[i + 8..]);
    CutAtTag(KeyString(k), i, DIGEST_TAG);
    TrimIsTrimmed(other.digest, IsSpace);
    steps, states := ForeignHit(cfg, k, other, bytes);
    VerifyTrimmed(cfg.hash, bytes, r.digest);
    TrimIsTrimmed(r.digest, IsSpace);
    if VerifyDigest(cfg.hash, bytes, r.digest) == Accepted {
      AcceptedHasNoAt(cfg.hash, bytes, k.digest);
      DigestTagIsOwn(k, i);
      assert false;
    }
  }

  /** With the hash fixed: an "@url:" alias, or an "@digest:" alias whose digest some cacheable bytes have. */
  ghost predicate Exposed(cfg: Config, k: CacheKey) {
    exists i: nat :: i <= |KeyString(k)| && (UrlAliasAt(KeyString(k), i) || BackedDigestAlias(cfg, k, i))
  }

  ghost predicate BackedDigestAlias(cfg: Config, k: CacheKey, i: nat) {
    && DigestAliasAt(KeyString(k), i, k.digest)
    && exists bytes :: Cacheable(cfg, bytes) && ParseDigest(KeyString(k)[i + 8..]) == Some(cfg.hash(bytes))
  }

  predicate Cacheable(cfg: Config, bytes: Bytes) {
    |bytes| <= cfg.limits.maxModuleBytes && |bytes| <= cfg.limits.maxCacheBytes
  }

  ghost predicate HonestRuns(cfg: Config, r: Request) {
    forall steps, states, i :: Run(cfg, steps, states) && 0 <= i < |states| ==> Honest(cfg.hash, r, states[i])
  }

  /** An entry that was not checked against the digest exposes the request. */
  lemma ForeignEntryExposes(cfg: Config, k: CacheKey, e: Entry)
    requires k.digest != "" && EntryOk(cfg, KeyString(k), e) && e.key.digest != k.digest
    requires e.sizeBytes <= cfg.limits.maxCacheBytes
    ensures Exposed(cfg, k)
  {
    AliasTo(k, e.key);
    var i := |e.key.moduleName|;
    if e.key.digest == "" {
      TagAfter(e.key.moduleName, URL_TAG, e.key.moduleURL);
      assert UrlAliasAt(KeyString(k), i);
    } else {
      TagAfter(e.key.moduleName, DIGEST_TAG, e.key.digest);
      TrimIsTrimmed(e.key.digest, IsSpace);
      assert Cacheable(cfg, e.compiled.source);
      assert BackedDigestAlias(cfg, k, i);
    }
  }

  /** The exact condition for a given hash that tells the empty module from the one-byte module, as SHA-256 does. */
  lemma HonestRunsIff(cfg: Config, r: Request)
    requires Normalized(cfg.limits) && cfg.hash([]) != cfg.hash([0]) && KeyOf(r).digest != ""
    ensures HonestRuns(cfg, r) <==> !Exposed(cfg, KeyOf(r))
  {
    var k := KeyOf(r);
    if Exposed(cfg, k) {
      ExposedIsDishonest(cfg, r);
    } else {
      forall steps, states: seq<State>, i | Run(cfg, steps, states) && 0 <= i < |states|
        ensures Honest(cfg.hash, r, states[i])
      {
        RunKeepsInv(cfg, steps, states, i);
        UnexposedIsHonest(cfg, r, states[i]);
      }
    }
  }

  lemma UnexposedIsHonest(cfg: Config, r: Request, s: State)
    requires Inv(cfg, s) && KeyOf(r).digest != "" && !Exposed(cfg, KeyOf(r))
    ensures Honest(cfg.hash, r, s)
  {
    var slot := KeyString(KeyOf(r));
    if slot in s.cache.entries {
      var e := s.cache.entries[slot];
      assert EntryOk(cfg, slot, e);
      if e.key.digest != KeyOf(r).digest {
        TotalRemove(s.cache.entries, SizeOf, slot);
        ForeignEntryExposes(cfg, KeyOf(r), e);
      }
      VerifyTrimmed(cfg.hash, e.compiled.source, r.digest);
    }
  }

  lemma ExposedIsDishonest(cfg: Config, r: Request)
    requires Normalized(cfg.limits) && cfg.hash([]) != cfg.hash([0]) && KeyOf(r).digest != "" && Exposed(cfg, KeyOf(r))
    ensures !HonestRuns(cfg, r)
  {
    var k := KeyOf(r);
    var i: nat :| i <= |KeyString(k)| && (UrlAliasAt(KeyString(k), i) || BackedDigestAlias(cfg, k, i));
    if UrlAliasAt(KeyString(k), i) {
      var steps, states := UrlAliasIsDishonest(cfg, r, i);
      assert !Honest(cfg.hash, r, states[6]);
    } else {
      var bytes :| Cacheable(cfg, bytes) && ParseDigest(KeyString(k)[i + 8..]) == Some(cfg.hash(bytes));
      var steps, states := DigestAliasIsDishonest(cfg, r, i, bytes);
      assert !Honest(cfg.hash, r, states[6]);
    }
  }

  lemma AliasIsDishonest(l: Limits, r: Request)
    requires Normalized(l) && KeyOf(r).digest != "" && HasAlias(KeyOf(r))
    ensures !AlwaysHonest(l, r)
  {
    var k := KeyOf(r);
    var i: nat :| i <= |KeyString(k)| && AliasAt(k, i);
    if UrlAliasAt(KeyString(k), i) {
      var hash := (b: Bytes) => if b == [] then "" else "0";
      var steps, states := UrlAliasIsDishonest(Config(l, hash), r, i);
      assert !Honest(hash, r, states[6]);
    } else {
      var hex := ParseDigest(KeyString(k)[i + 8..]).value;
      var hash := (b: Bytes) => hex;
      var steps, states := DigestAliasIsDishonest(Config(l, hash), r, i, []);
      assert !Honest(hash, r, states[6]);
    }
  }

  /** The exact condition: with SHA-256 left open, a request for a digest only ever finds bytes that pass it if and
  only if its slot holds no tag that another key could have put there. */
  lemma HitHonestIff(l: Limits, r: Request)
    requires Normalized(l) && KeyOf(r).digest != ""
    ensures AlwaysHonest(l, r) <==> !HasAlias(KeyOf(r))
  {
    if HasAlias(KeyOf(r)) {
      AliasIsDishonest(l, r);
    } else {
      forall hash, steps, states: seq<State>, i | Run(Config(l, hash), steps, states) && 0 <= i < |states|
        ensures Honest(hash, r, states[i])
      {
        if KeyString(KeyOf(r)) in states[i].cache.entries {
          HitHasDigest(Config(l, hash), steps, states, i, r);
        }
      }
    }
  }
}
