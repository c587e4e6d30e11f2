/** The worker's compiled-module cache: byte ledger, LRU clock, TTL and two budgets.

Models the cache half of internal/worker/engine.go. `Cache` is the abstract state
that the specifications speak about; class `WasmEngine` is the mutable engine.
*/
module ModuleCache {
  import opened Bags
  import opened Text
  import opened ModuleIdentity

  /** A compiled module: a fresh handle and the bytes it was compiled from. */
  datatype Compiled = Compiled(id: nat, source: Bytes)

  datatype Entry = Entry(
    key: CacheKey,
    compiled: Compiled,
    sizeBytes: nat,
    createdAt: int,
    lastUsedAt: int,
    usedOrder: nat)

  datatype Limits = Limits(maxModuleBytes: int, maxCachedModules: int, maxCacheBytes: int, moduleCacheTTL: int)

  /** 10 MiB, 128 modules, 256 MiB, 30 minutes in nanoseconds. */
  const DEFAULT_LIMITS := Limits(10485760, 128, 268435456, 1800000000000)

  predicate Normalized(l: Limits) {
    l.maxModuleBytes > 0 && l.maxCachedModules > 0 && l.maxCacheBytes > 0 && l.moduleCacheTTL > 0
  }

  /** The cache limits an engine is built with: a missing or negative limit takes its default. */
  function NormalizeLimits(l: Limits): (r: Limits)
    ensures Normalized(r)
    ensures (l.maxModuleBytes > 0 ==> r.maxModuleBytes == l.maxModuleBytes)
         && (l.maxCachedModules > 0 ==> r.maxCachedModules == l.maxCachedModules)
         && (l.maxCacheBytes > 0 ==> r.maxCacheBytes == l.maxCacheBytes)
         && (l.moduleCacheTTL > 0 ==> r.moduleCacheTTL == l.moduleCacheTTL)
    ensures (l.maxModuleBytes <= 0 ==> r.maxModuleBytes == 10 * 1024 * 1024)
         && (l.maxCachedModules <= 0 ==> r.maxCachedModules == 128)
         && (l.maxCacheBytes <= 0 ==> r.maxCacheBytes == 256 * 1024 * 1024)
         && (l.moduleCacheTTL <= 0 ==> r.moduleCacheTTL == 30 * 60 * 1_000_000_000)
  {
    Limits(
      if l.maxModuleBytes <= 0 then DEFAULT_LIMITS.maxModuleBytes else l.maxModuleBytes,
      if l.maxCachedModules <= 0 then DEFAULT_LIMITS.maxCachedModules else l.maxCachedModules,
      if l.maxCacheBytes <= 0 then DEFAULT_LIMITS.maxCacheBytes else l.maxCacheBytes,
      if l.moduleCacheTTL <= 0 then DEFAULT_LIMITS.moduleCacheTTL else l.moduleCacheTTL)
  }

  /** `closed` logs the handles that were closed; `removed` logs the keys whose entry was dropped. */
  datatype Cache = Cache(
    entries: map<string, Entry>,
    bytes: int,
    clock: nat,
    closed: multiset<nat>,
    removed: multiset<string>)

  const EMPTY_CACHE := Cache(map[], 0, 0, multiset{}, multiset{})

  function SizeOf(e: Entry): nat {
    e.sizeBytes
  }

  function HandleOf(e: Entry): multiset<nat> {
    multiset{e.compiled.id}
  }

  predicate Expired(l: Limits, e: Entry, now: int) {
    l.moduleCacheTTL > 0 && now - e.createdAt > l.moduleCacheTTL
  }

  // ---------------------------------------------------------------------------
  // Invariants
  // ---------------------------------------------------------------------------

  /** `usedOrder` values are distinct and at most the clock. */
  ghost predicate OrdersOk(c: Cache) {
    && (forall k :: k in c.entries ==> c.entries[k].usedOrder <= c.clock)
    && (forall j, k :: j in c.entries && k in c.entries && j != k ==>
          c.entries[j].usedOrder != c.entries[k].usedOrder)
  }

  ghost predicate LedgerOk(c: Cache) {
    c.bytes == Total(c.entries, SizeOf) && OrdersOk(c)
  }

  /** `after` is `before` with some entries dropped, every one of them closed and accounted for. */
  ghost predicate Shrinks(before: Cache, after: Cache) {
    && after.entries.Keys <= before.entries.Keys
    && (forall k :: k in after.entries ==> after.entries[k] == before.entries[k])
    && after.clock == before.clock
    && after.bytes == Total(after.entries, SizeOf)
    && after.closed == before.closed + Bag(before.entries - after.entries.Keys, HandleOf)
    && after.removed == before.removed + multiset(before.entries.Keys - after.entries.Keys)
  }

  // ---------------------------------------------------------------------------
  // What the cache operations do
  // ---------------------------------------------------------------------------

  function RemoveEntry(c: Cache, k: string): Cache
    requires k in c.entries
  {
    var e := c.entries[k];
    var bytes := c.bytes - e.sizeBytes;
    Cache(c.entries - {k}, if bytes < 0 then 0 else bytes, c.clock,
          c.closed + multiset{e.compiled.id}, c.removed + multiset{k})
  }

  /** A lookup: drops an expired entry, refreshes a live one. */
  function Touch(l: Limits, c: Cache, k: string, now: int): (Cache, Option<Compiled>) {
    if k !in c.entries then (c, None)
    else
      var e := c.entries[k];
      if Expired(l, e, now) then (RemoveEntry(c, k), None)
      else
        (c.(clock := c.clock + 1,
            entries := c.entries[k := e.(lastUsedAt := now, usedOrder := c.clock + 1)]),
         Some(e.compiled))
  }

  ghost function ClearAll(c: Cache): Cache {
    Cache(map[], 0, c.clock, c.closed + Bag(c.entries, HandleOf), c.removed + multiset(c.entries.Keys))
  }

  function WithEntry(c: Cache, key: CacheKey, compiled: Compiled, now: int): Cache {
    c.(clock := c.clock + 1,
       entries := c.entries[KeyString(key) :=
         Entry(key, compiled, |compiled.source|, now, now, c.clock + 1)],
       bytes := c.bytes + |compiled.source|)
  }

  function Unexpired(l: Limits, m: map<string, Entry>, now: int): map<string, Entry> {
    map k | k in m && !Expired(l, m[k], now) :: m[k]
  }

  /** The entries still to be looked at, and those found fresh. */
  function PendingOrFresh(l: Limits, m: map<string, Entry>, pending: set<string>, now: int): map<string, Entry> {
    map k | k in m && (k in pending || !Expired(l, m[k], now)) :: m[k]
  }

  lemma PendingEnds(l: Limits, m: map<string, Entry>, now: int)
    ensures PendingOrFresh(l, m, m.Keys, now) == m
    ensures PendingOrFresh(l, m, {}, now) == Unexpired(l, m, now)
  {
  }

  lemma PendingStep(l: Limits, m: map<string, Entry>, pending: set<string>, k: string, now: int)
    requires k in pending && k in m
    ensures k in PendingOrFresh(l, m, pending, now)
    ensures PendingOrFresh(l, m, pending - {k}, now) ==
      if Expired(l, m[k], now) then PendingOrFresh(l, m, pending, now) - {k} else PendingOrFresh(l, m, pending, now)
  {
  }

  /** `part` holds, for some bound, exactly the entries of `all` used since that bound. */
  ghost predicate IsRecentSuffix(all: map<string, Entry>, part: map<string, Entry>) {
    && part.Keys <= all.Keys
    && (forall k :: k in part ==> part[k] == all[k])
    && (forall k, j :: k in part && j in all && all[k].usedOrder <= all[j].usedOrder ==> j in part)
  }

  ghost predicate Fits(l: Limits, m: map<string, Entry>) {
    |m| <= l.maxCachedModules && Total(m, SizeOf) <= l.maxCacheBytes
  }

  ghost predicate CoversFitting(l: Limits, all: map<string, Entry>, part: map<string, Entry>) {
    forall other :: IsRecentSuffix(all, other) && Fits(l, other) ==> other.Keys <= part.Keys
  }

  /** The longest most-recently-used suffix of `all` within both budgets. */
  ghost predicate IsLongestFittingSuffix(l: Limits, all: map<string, Entry>, part: map<string, Entry>) {
    IsRecentSuffix(all, part) && Fits(l, part) && CoversFitting(l, all, part)
  }

  /** What eviction must leave. */
  ghost predicate Evicts(l: Limits, before: Cache, now: int, after: Cache) {
    && Shrinks(before, after)
    && IsLongestFittingSuffix(l, Unexpired(l, before.entries, now), after.entries)
  }

  /** What inserting a freshly compiled module must do. */
  ghost predicate Inserts(l: Limits, before: Cache, key: CacheKey, compiled: Compiled, now: int, after: Cache) {
    if KeyString(key) in before.entries then
      after == before.(closed := before.closed + multiset{compiled.id})
    else
      Evicts(l, WithEntry(before, key, compiled, now), now, after)
  }

  // ---------------------------------------------------------------------------
  // Lemmas about the ledger
  // ---------------------------------------------------------------------------

  lemma ShrinksRefl(c: Cache)
    requires LedgerOk(c)
    ensures Shrinks(c, c)
  {
    assert c.entries - c.entries.Keys == map[];
    assert c.entries.Keys - c.entries.Keys == {};
  }

  lemma ShrinksKeepsLedger(before: Cache, after: Cache)
    requires OrdersOk(before) && Shrinks(before, after)
    ensures LedgerOk(after)
  {
  }

  lemma GoneGrows(all: map<string, Entry>, kept: map<string, Entry>, k: string)
    requires k in kept && k in all && kept[k] == all[k]
    ensures Bag(all - (kept - {k}).Keys, HandleOf) == Bag(all - kept.Keys, HandleOf) + multiset{kept[k].compiled.id}
  {
    var gone := all - (kept - {k}).Keys;
    assert gone - {k} == all - kept.Keys;
    BagRemove(gone, HandleOf, k);
  }

  lemma GoneKeysGrow(all: set<string>, kept: set<string>, k: string)
    requires k in kept && k in all
    ensures multiset(all - (kept - {k})) == multiset(all - kept) + multiset{k}
  {
    assert all - (kept - {k}) == (all - kept) + {k};
  }

  /** Removing one more entry keeps the accounts, and the clamp at zero never fires. */
  lemma RemoveShrinks(before: Cache, mid: Cache, k: string)
    requires LedgerOk(before) && Shrinks(before, mid) && k in mid.entries
    ensures Shrinks(before, RemoveEntry(mid, k))
    ensures RemoveEntry(mid, k).bytes == mid.bytes - mid.entries[k].sizeBytes
  {
    TotalRemove(mid.entries, SizeOf, k);
    GoneGrows(before.entries, mid.entries, k);
    GoneKeysGrow(before.entries.Keys, mid.entries.Keys, k);
    assert RemoveEntry(mid, k).entries.Keys == mid.entries.Keys - {k};
  }

  lemma WithEntryKeepsLedger(c: Cache, key: CacheKey, compiled: Compiled, now: int)
    requires LedgerOk(c) && KeyString(key) !in c.entries
    ensures LedgerOk(WithEntry(c, key, compiled, now))
  {
    TotalUpdate(c.entries, SizeOf, KeyString(key),
                Entry(key, compiled, |compiled.source|, now, now, c.clock + 1));
  }

  lemma TouchKeepsLedger(l: Limits, c: Cache, k: string, now: int)
    requires LedgerOk(c)
    ensures LedgerOk(Touch(l, c, k, now).0)
    ensures Touch(l, c, k, now).1.None? ==> k !in Touch(l, c, k, now).0.entries
  {
    if k in c.entries {
      if Expired(l, c.entries[k], now) {
        ShrinksRefl(c);
        RemoveShrinks(c, c, k);
        ShrinksKeepsLedger(c, RemoveEntry(c, k));
      } else {
        TotalUpdate(c.entries, SizeOf, k, c.entries[k].(lastUsedAt := now, usedOrder := c.clock + 1));
        TotalRemove(c.entries, SizeOf, k);
      }
    }
  }

  lemma SplitMap(all: map<string, Entry>, kept: map<string, Entry>)
    requires kept.Keys <= all.Keys && forall k :: k in kept ==> kept[k] == all[k]
    ensures kept + (all - kept.Keys) == all
  {
  }

  lemma KeptAndGone(all: map<string, Entry>, kept: map<string, Entry>)
    requires kept.Keys <= all.Keys && forall k :: k in kept ==> kept[k] == all[k]
    ensures Bag(kept, HandleOf) + Bag(all - kept.Keys, HandleOf) == Bag(all, HandleOf)
  {
    var gone := all - kept.Keys;
    assert kept + gone == all by {
      SplitMap(all, kept);
    }
    BagSplit(kept, HandleOf, gone);
  }

  /** Dropped handles are exactly the ones newly closed: nothing leaks and nothing is closed twice. */
  lemma ShrinksConserves(before: Cache, after: Cache)
    requires Shrinks(before, after)
    ensures Bag(after.entries, HandleOf) + after.closed == Bag(before.entries, HandleOf) + before.closed
    ensures multiset(after.entries.Keys) + after.removed == multiset(before.entries.Keys) + before.removed
  {
    KeptAndGone(before.entries, after.entries);
    KeptAndGoneKeys(before.entries.Keys, after.entries.Keys);
  }

  lemma ClearStep(m: map<string, Entry>, k: string, closed: multiset<nat>, removed: multiset<string>)
    requires k in m
    ensures closed + multiset{m[k].compiled.id} + Bag(m - {k}, HandleOf) == closed + Bag(m, HandleOf)
    ensures removed + multiset{k} + multiset((m - {k}).Keys) == removed + multiset(m.Keys)
  {
    BagRemove(m, HandleOf, k);
    KeptAndGoneKeys(m.Keys, {k});
    assert (m - {k}).Keys == m.Keys - {k};
  }

  lemma ClearAllShrinks(c: Cache)
    ensures Shrinks(c, ClearAll(c))
  {
    var none: set<string> := ClearAll(c).entries.Keys;
    assert none == {};
    assert c.entries - none == c.entries;
    assert c.entries.Keys - none == c.entries.Keys;
  }

  // ---------------------------------------------------------------------------
  // Lemmas about eviction
  // ---------------------------------------------------------------------------

  lemma SuffixWithOldestIsWhole(all: map<string, Entry>, cur: map<string, Entry>, other: map<string, Entry>, k: string)
    requires IsRecentSuffix(all, cur) && IsRecentSuffix(all, other) && other.Keys <= cur.Keys
    requires k in cur && k in other && forall j :: j in cur && j != k ==> cur[k].usedOrder < cur[j].usedOrder
    ensures other == cur
  {
    assert other.Keys == cur.Keys;
  }

  /** Dropping the least recently used entry of a suffix that does not fit loses no fitting suffix. */
  lemma DropOldest(l: Limits, all: map<string, Entry>, cur: map<string, Entry>, k: string)
    requires IsRecentSuffix(all, cur) && CoversFitting(l, all, cur) && !Fits(l, cur)
    requires k in cur && forall j :: j in cur && j != k ==> cur[k].usedOrder < cur[j].usedOrder
    ensures IsRecentSuffix(all, cur - {k}) && CoversFitting(l, all, cur - {k})
  {
    forall other | IsRecentSuffix(all, other) && Fits(l, other)
      ensures other.Keys <= (cur - {k}).Keys
    {
      if k in other {
        SuffixWithOldestIsWhole(all, cur, other, k);
        assert false;
      }
    }
  }

  lemma WholeIsSuffix(l: Limits, all: map<string, Entry>)
    ensures IsRecentSuffix(all, all) && CoversFitting(l, all, all)
  {
  }

  /** Eviction has exactly one possible outcome. */
  lemma LongestSuffixUnique(l: Limits, all: map<string, Entry>, a: map<string, Entry>, b: map<string, Entry>)
    requires IsLongestFittingSuffix(l, all, a) && IsLongestFittingSuffix(l, all, b)
    ensures a == b
  {
    assert a.Keys == b.Keys;
  }

  lemma Oldest(m: map<string, Entry>) returns (k: string)
    requires m != map[]
    requires forall i, j :: i in m && j in m && i != j ==> m[i].usedOrder != m[j].usedOrder
    ensures k in m && forall j :: j in m && j != k ==> m[k].usedOrder < m[j].usedOrder
    decreases |m|
  {
    k :| k in m;
    var rest := m - {k};
    if rest != map[] {
      var o := Oldest(rest);
      assert forall j :: j in m && j != k ==> j in rest;
      if m[o].usedOrder < m[k].usedOrder {
        k := o;
      }
    }
  }

  /** Eviction always has an outcome. */
  lemma {:induction false} LongestSuffixExists(l: Limits, all: map<string, Entry>, cur: map<string, Entry>)
    returns (part: map<string, Entry>)
    requires Normalized(l)
    requires forall i, j :: i in all && j in all && i != j ==> all[i].usedOrder != all[j].usedOrder
    requires IsRecentSuffix(all, cur) && CoversFitting(l, all, cur)
    ensures IsLongestFittingSuffix(l, all, part)
    decreases |cur|
  {
    if Fits(l, cur) {
      part := cur;
    } else {
      assert cur != map[];
      var k := Oldest(cur);
      DropOldest(l, all, cur, k);
      part := LongestSuffixExists(l, all, cur - {k});
    }
  }

  /** From any entries, eviction can reach `after` with its accounts settled. */
  lemma EvictsExists(l: Limits, c: Cache, now: int) returns (after: Cache)
    requires Normalized(l) && LedgerOk(c)
    ensures Evicts(l, c, now, after)
  {
    var all := Unexpired(l, c.entries, now);
    WholeIsSuffix(l, all);
    var part := LongestSuffixExists(l, all, all);
    after := Cache(part, Total(part, SizeOf), c.clock,
                   c.closed + Bag(c.entries - part.Keys, HandleOf),
                   c.removed + multiset(c.entries.Keys - part.Keys));
  }

  /** A newly inserted module survives its own insertion if and only if it fits the byte budget alone. */
  lemma NewEntrySurvives(l: Limits, c: Cache, key: CacheKey, compiled: Compiled, now: int, after: Cache)
    requires Normalized(l) && LedgerOk(c) && KeyString(key) !in c.entries
    requires Inserts(l, c, key, compiled, now, after)
    ensures KeyString(key) in after.entries <==> |compiled.source| <= l.maxCacheBytes
  {
    var k := KeyString(key);
    var added := WithEntry(c, key, compiled, now);
    var all := Unexpired(l, added.entries, now);
    if k in after.entries {
      TotalRemove(after.entries, SizeOf, k);
    }
    if |compiled.source| <= l.maxCacheBytes {
      var alone := map[k := added.entries[k]];
      TotalRemove(alone, SizeOf, k);
      assert alone - {k} == map[];
      assert IsRecentSuffix(all, alone);
      assert Fits(l, alone);
      assert k in alone.Keys;
    }
  }

  // ---------------------------------------------------------------------------
  // The engine object
  // ---------------------------------------------------------------------------

  class WasmEngine {
    const limits: Limits
    var cache: map<string, Entry>
    var inflight: map<string, nat>
    var cacheBytes: int
    var cacheClock: nat
    /** Channels made so far are 0 .. nextChan; `closedChans` are the closed ones. */
    var nextChan: nat
    var closedChans: set<nat>
    ghost var closed: multiset<nat>
    ghost var removed: multiset<string>

    ghost function State(): Cache
      reads this
    {
      Cache(cache, cacheBytes, cacheClock, closed, removed)
    }

    ghost predicate Valid()
      reads this
    {
      Normalized(limits) && LedgerOk(State())
    }

    constructor (given: Limits)
      ensures Valid() && limits == NormalizeLimits(given) && State() == EMPTY_CACHE
      ensures inflight == map[] && nextChan == 0 && closedChans == {}
    {
      limits := NormalizeLimits(given);
      cache, inflight, cacheBytes, cacheClock := map[], map[], 0, 0;
      nextChan, closedChans := 0, {};
      closed, removed := multiset{}, multiset{};
    }

    method RemoveEntryLocked(key: string)
      requires key in cache
      modifies this`cache, this`cacheBytes, this`closed, this`removed
      ensures State() == RemoveEntry(old(State()), key)
    {
      var entry := cache[key];
      cache := cache - {key};
      cacheBytes := cacheBytes - entry.sizeBytes;
      if cacheBytes < 0 {
        cacheBytes := 0;
      }
      closed := closed + multiset{entry.compiled.id};
      removed := removed + multiset{key};
    }

    method CachedCompiledModule(cacheKey: string, now: int) returns (compiled: Option<Compiled>)
      requires Valid()
      modifies this`cache, this`cacheBytes, this`cacheClock, this`closed, this`removed
      ensures Valid()
      ensures (State(), compiled) == Touch(limits, old(State()), cacheKey, now)
      ensures compiled.Some? <==>
                cacheKey in old(cache) && now - old(cache)[cacheKey].createdAt <= limits.moduleCacheTTL
      ensures compiled.Some? ==>
                && compiled.value == old(cache)[cacheKey].compiled && cache.Keys == old(cache).Keys
                && cache[cacheKey].createdAt == old(cache)[cacheKey].createdAt
    {
      TouchKeepsLedger(limits, State(), cacheKey, now);
      if cacheKey !in cache {
        return None;
      }
      var entry := cache[cacheKey];
      if Expired(limits, entry, now) {
        RemoveEntryLocked(cacheKey);
        return None;
      }
      cacheClock := cacheClock + 1;
      cache := cache[cacheKey := entry.(lastUsedAt := now, usedOrder := cacheClock)];
      return Some(entry.compiled);
    }

    method BeginCompile(cacheKey: string) returns (done: nat, leader: bool)
      modifies this`inflight, this`nextChan
      ensures leader <==> cacheKey !in old(inflight)
      ensures inflight == old(inflight)[cacheKey := done]
      ensures if leader then done == old(nextChan) && nextChan == done + 1
              else done == old(inflight)[cacheKey] && nextChan == old(nextChan)
    {
      if cacheKey in inflight {
        return inflight[cacheKey], false;
      }
      done := nextChan;
      nextChan := nextChan + 1;
      inflight := inflight[cacheKey := done];
      return done, true;
    }

    method FinishCompile(cacheKey: string)
      modifies this`inflight, this`closedChans
      ensures inflight == old(inflight) - {cacheKey}
      ensures closedChans == old(closedChans) + (if cacheKey in old(inflight) then {old(inflight)[cacheKey]} else {})
    {
      if cacheKey in inflight {
        closedChans := closedChans + {inflight[cacheKey]};
        inflight := inflight - {cacheKey};
      }
    }

    method OldestEntryLocked() returns (oldest: Option<string>)
      requires OrdersOk(State())
      ensures oldest.None? <==> cache == map[]
      ensures oldest.Some? ==> oldest.value in cache
      ensures oldest.Some? ==> forall j :: j in cache && j != oldest.value ==>
                cache[oldest.value].usedOrder < cache[j].usedOrder
    {
      oldest := None;
      var rest := cache.Keys;
      while rest != {}
        invariant rest <= cache.Keys
        invariant oldest.None? <==> rest == cache.Keys
        invariant oldest.Some? ==> oldest.value in cache && oldest.value !in rest
        invariant oldest.Some? ==> forall j :: j in cache && j !in rest && j != oldest.value ==>
                    cache[oldest.value].usedOrder < cache[j].usedOrder
        decreases rest
      {
        var key :| key in rest;
        rest := rest - {key};
        if oldest.None? || cache[key].usedOrder < cache[oldest.value].usedOrder {
          oldest := Some(key);
        }
      }
    }

    method RemoveIfExpiredLocked(key: string, now: int, ghost before: Cache)
      requires LedgerOk(before) && Shrinks(before, State()) && key in cache
      modifies this`cache, this`cacheBytes, this`closed, this`removed
      ensures Shrinks(before, State())
      ensures cache == if Expired(limits, before.entries[key], now) then old(cache) - {key} else old(cache)
    {
      if Expired(limits, cache[key], now) {
        RemoveShrinks(before, State(), key);
        RemoveEntryLocked(key);
      }
    }

    method RemoveExpiredLocked(now: int)
      requires Valid()
      modifies this`cache, this`cacheBytes, this`closed, this`removed
      ensures Valid() && Shrinks(old(State()), State())
      ensures cache == Unexpired(limits, old(cache), now)
      ensures forall k :: k in cache <==> k in old(cache) && now - old(cache)[k].createdAt <= limits.moduleCacheTTL
    {
      ghost var before := State();
      ShrinksRefl(before);
      PendingEnds(limits, cache, now);
      var rest := cache.Keys;
      while rest != {}
        invariant rest <= before.entries.Keys
        invariant Shrinks(before, State())
        invariant cache == PendingOrFresh(limits, before.entries, rest, now)
        decreases rest
      {
        var key :| key in rest;
        PendingStep(limits, before.entries, rest, key, now);
        rest := rest - {key};
        RemoveIfExpiredLocked(key, now, before);
      }
      ShrinksKeepsLedger(before, State());
    }

    /** Removes the oldest entry while a budget is exceeded. */
    method DropOldestLocked(ghost before: Cache, ghost all: map<string, Entry>)
      requires Normalized(limits) && LedgerOk(before) && Shrinks(before, State())
      requires IsRecentSuffix(all, cache) && CoversFitting(limits, all, cache) && !Fits(limits, cache)
      modifies this`cache, this`cacheBytes, this`closed, this`removed
      ensures Shrinks(before, State()) && |cache| < |old(cache)|
      ensures IsRecentSuffix(all, cache) && CoversFitting(limits, all, cache)
    {
      ShrinksKeepsLedger(before, State());
      var oldest := OldestEntryLocked();
      assert oldest.Some?;
      RemoveShrinks(before, State(), oldest.value);
      DropOldest(limits, all, cache, oldest.value);
      RemoveEntryLocked(oldest.value);
    }

    method EvictLocked(now: int)
      requires Valid()
      modifies this`cache, this`cacheBytes, this`closed, this`removed
      ensures Valid() && Evicts(limits, old(State()), now, State())
      ensures forall k :: k in cache ==> now - cache[k].createdAt <= limits.moduleCacheTTL
      ensures |cache| <= limits.maxCachedModules && cacheBytes <= limits.maxCacheBytes
    {
      ghost var before := State();
      RemoveExpiredLocked(now);
      ghost var all := cache;
      WholeIsSuffix(limits, all);
      while |cache| > limits.maxCachedModules
        invariant Shrinks(before, State())
        invariant IsRecentSuffix(all, cache) && CoversFitting(limits, all, cache)
        decreases |cache|
      {
        DropOldestLocked(before, all);
      }
      while cacheBytes > limits.maxCacheBytes
        invariant Shrinks(before, State()) && |cache| <= limits.maxCachedModules
        invariant IsRecentSuffix(all, cache) && CoversFitting(limits, all, cache)
        decreases |cache|
      {
        DropOldestLocked(before, all);
      }
      ShrinksKeepsLedger(before, State());
    }

    /** The locked section that stores a compiled module. */
    method InsertCompiled(key: CacheKey, compiled: Compiled, now: int)
      requires Valid()
      modifies this`cache, this`cacheBytes, this`cacheClock, this`closed, this`removed
      ensures Valid() && Inserts(limits, old(State()), key, compiled, now, State())
      ensures KeyString(key) !in old(cache) && KeyString(key) in cache ==>
                var e := cache[KeyString(key)];
                e.key == key && e.compiled == compiled && e.createdAt == now && e.sizeBytes == |compiled.source|
    {
      var cacheKeyString := KeyString(key);
      if cacheKeyString !in cache {
        WithEntryKeepsLedger(State(), key, compiled, now);
        cacheClock := cacheClock + 1;
        cache := cache[cacheKeyString := Entry(key, compiled, |compiled.source|, now, now, cacheClock)];
        cacheBytes := cacheBytes + |compiled.source|;
        EvictLocked(now);
      } else {
        closed := closed + multiset{compiled.id};
      }
    }

    /** Closes and deletes every entry. */
    method CloseAllLocked()
      modifies this`cache, this`closed, this`removed
      ensures cache == map[]
      ensures closed == old(closed) + Bag(old(cache), HandleOf)
      ensures removed == old(removed) + multiset(old(cache).Keys)
    {
      ghost var handles := closed + Bag(cache, HandleOf);
      ghost var keys := removed + multiset(cache.Keys);
      while cache != map[]
        invariant closed + Bag(cache, HandleOf) == handles
        invariant removed + multiset(cache.Keys) == keys
        decreases cache.Keys
      {
        var key :| key in cache;
        ClearStep(cache, key, closed, removed);
        closed := closed + multiset{cache[key].compiled.id};
        removed := removed + multiset{key};
        cache := cache - {key};
      }
    }

    method ClearCache()
      requires Valid()
      modifies this`cache, this`cacheBytes, this`closed, this`removed
      ensures Valid() && State() == ClearAll(old(State()))
    {
      CloseAllLocked();
      cacheBytes := 0;
    }
  }
}
