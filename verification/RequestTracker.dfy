/** The in-memory idempotency tracker.

Models internal/master/request_tracker.go: ownership, replay, conflict detection, TTL
expiry and LRU eviction that spares in-flight work. `Tracker` is the abstract state;
class `ExecutionRequestTracker` is the mutable object. A fingerprint is given, or is
None when computing it failed.
*/
module RequestTracker {
  import opened Text
  import opened JobStore

  datatype Progress = Started | Completed(response: ExecutionResponse, completedAt: int)

  datatype Entry = Entry(fingerprint: string, progress: Progress, lastSeen: nat)

  type Entries = map<string, Entry>

  datatype Tracker = Tracker(entries: Entries, sequence: nat, evictions: nat, expired: nat)

  datatype Limits = Limits(ttl: int, maxEntries: int)

  /** 5 minutes in nanoseconds, 4096 entries. */
  const DEFAULT_LIMITS := Limits(300000000000, 4096)

  predicate ValidLimits(l: Limits) {
    l.ttl > 0 && l.maxEntries > 0
  }

  function NormalizeLimits(ttl: int, maxEntries: int): (l: Limits)
    ensures ValidLimits(l)
    ensures (ttl > 0 ==> l.ttl == ttl) && (maxEntries > 0 ==> l.maxEntries == maxEntries)
    ensures (ttl <= 0 ==> l.ttl == 5 * 60 * 1_000_000_000) && (maxEntries <= 0 ==> l.maxEntries == 4096)
  {
    Limits(if ttl <= 0 then DEFAULT_LIMITS.ttl else ttl, if maxEntries <= 0 then DEFAULT_LIMITS.maxEntries
           else maxEntries)
  }

  datatype Decision =
    | BeginStarted
    | BeginInFlight
    | BeginCompleted(response: ExecutionResponse)
    | BeginConflict

  // ---------------------------------------------------------------------------
  // What the operations do
  // ---------------------------------------------------------------------------

  predicate Stale(l: Limits, e: Entry, now: int) {
    e.progress.Completed? && now - e.progress.completedAt > l.ttl
  }

  function Fresh(l: Limits, m: Entries, now: int): Entries {
    map k | k in m && !Stale(l, m[k], now) :: m[k]
  }

  /** How many of the entries `m` are gone from `kept`. */
  ghost function Gone(m: Entries, kept: Entries): nat {
    |m.Keys - kept.Keys|
  }

  ghost function Expire(l: Limits, t: Tracker, now: int): Tracker {
    t.(entries := Fresh(l, t.entries, now), expired := t.expired + Gone(t.entries, Fresh(l, t.entries, now)))
  }

  /** Eviction: only the least recently seen completed entries go, and only as many as the limit asks. */
  ghost predicate Trims(max: int, m: Entries, kept: Entries) {
    && kept.Keys <= m.Keys
    && (forall k :: k in kept ==> kept[k] == m[k])
    && (forall k :: k in m && k !in kept ==> m[k].progress.Completed?)
    && (forall k, j :: k in m && k !in kept && j in kept && kept[j].progress.Completed? ==>
        m[k].lastSeen < m[j].lastSeen)
    && (|kept| <= max || forall k :: k in kept ==> kept[k].progress.Started?)
    && (kept.Keys != m.Keys ==> |kept| >= max)
  }

  ghost predicate Evicts(max: int, before: Tracker, after: Tracker) {
    && Trims(max, before.entries, after.entries)
    && after.sequence == before.sequence && after.expired == before.expired
    && after.evictions == before.evictions + Gone(before.entries, after.entries)
  }

  function Put(t: Tracker, id: string, e: Entry): Tracker {
    t.(entries := t.entries[id := e.(lastSeen := t.sequence + 1)], sequence := t.sequence + 1)
  }

  ghost predicate Begins(l: Limits, t: Tracker, id: string, fp: Option<string>, now: int, t': Tracker,
                         answer: Option<Decision>)
  {
    if id == "" then t' == t && answer == Some(BeginStarted)
    else if fp.None? then t' == t && answer == None
    else
      var live := Expire(l, t, now);
      if id !in live.entries then
        && answer == Some(BeginStarted)
        && Evicts(l.maxEntries, Put(live, id, Entry(fp.value, Started, 0)), t')
      else
        var e := live.entries[id];
        if e.fingerprint != fp.value then t' == live && answer == Some(BeginConflict)
        else if e.progress.Started? then t' == live && answer == Some(BeginInFlight)
        else t' == Put(live, id, e) && answer == Some(BeginCompleted(e.progress.response))
  }

  /** The four answers, by what is tracked under the ID and is not older than `ttl`. */
  predicate Answers(ttl: int, m: Entries, id: string, fp: string, now: int, answer: Decision) {
    if id !in m || (m[id].progress.Completed? && now - m[id].progress.completedAt > ttl) then answer == BeginStarted
    else if m[id].fingerprint != fp then answer == BeginConflict
    else match m[id].progress
      case Started => answer == BeginInFlight
      case Completed(response, _) => answer == BeginCompleted(response)
  }

  ghost predicate Completes(l: Limits, t: Tracker, id: string, response: ExecutionResponse, now: int, t': Tracker) {
    if id == "" || id !in t.entries then t' == t
    else Evicts(l.maxEntries, Put(t, id, t.entries[id].(progress := Completed(response, now))), t')
  }

  function Forgets(t: Tracker, id: string): Tracker {
    t.(entries := t.entries - {id})
  }

  // ---------------------------------------------------------------------------
  // Invariant
  // ---------------------------------------------------------------------------

  /** `lastSeen` values are distinct and bounded by `sequence`; the empty ID is never tracked. */
  ghost predicate SeenOk(t: Tracker) {
    && "" !in t.entries
    && (forall k :: k in t.entries ==> t.entries[k].lastSeen <= t.sequence)
    && DistinctSeen(t.entries)
  }

  ghost predicate DistinctSeen(m: Entries) {
    forall j, k :: j in m && k in m && j != k ==> m[j].lastSeen != m[k].lastSeen
  }

  function InFlight(m: Entries): set<string> {
    set k | k in m && m[k].progress.Started?
  }

  /** Eviction has exactly one possible outcome. */
  lemma TrimsUnique(max: int, m: Entries, a: Entries, b: Entries)
    requires Trims(max, m, a) && Trims(max, m, b)
    ensures a == b
  {
    TrimsNested(max, m, a, b);
    TrimsNested(max, m, b, a);
  }

  lemma TrimsNested(max: int, m: Entries, a: Entries, b: Entries)
    requires Trims(max, m, a) && Trims(max, m, b)
    ensures b.Keys <= a.Keys
  {
    forall k | k in b
      ensures k in a
    {
      if k !in a {
        LargerByOne(a.Keys, b.Keys, k);
        assert false;
      }
    }
  }

  lemma LargerByOne(a: set<string>, b: set<string>, k: string)
    requires k in b && k !in a
    ensures a <= b ==> |a| < |b|
  {
    if a <= b {
      assert b == a + (b - a) && k in b - a;
    }
  }

  lemma EvictKeepsSeen(max: int, before: Tracker, after: Tracker)
    requires SeenOk(before) && Evicts(max, before, after)
    ensures SeenOk(after)
  {
  }

  lemma ExpireKeepsSeen(l: Limits, t: Tracker, now: int)
    requires SeenOk(t)
    ensures SeenOk(Expire(l, t, now))
  {
  }

  /** Exactly the completed entries older than the ttl go. */
  lemma ExpireMeaning(l: Limits, t: Tracker, now: int)
    ensures var m, after := t.entries, Expire(l, t, now).entries;
      && (forall k :: k in after <==> k in m && !(m[k].progress.Completed? && now - m[k].progress.completedAt > l.ttl))
      && (forall k :: k in after ==> after[k] == m[k])
  {
  }

  lemma PutKeepsSeen(t: Tracker, id: string, e: Entry)
    requires SeenOk(t) && id != ""
    ensures SeenOk(Put(t, id, e))
  {
  }

  // ---------------------------------------------------------------------------
  // The tracker object
  // ---------------------------------------------------------------------------

  class ExecutionRequestTracker {
    const limits: Limits
    var entries: Entries
    var evictions: nat
    var expired: nat
    var sequence: nat

    ghost function State(): Tracker
      reads this
    {
      Tracker(entries, sequence, evictions, expired)
    }

    ghost predicate Valid()
      reads this
    {
      ValidLimits(limits) && SeenOk(State())
    }

    constructor (ttl: int, maxEntries: int)
      ensures Valid() && limits == NormalizeLimits(ttl, maxEntries) && State() == Tracker(map[], 0, 0, 0)
    {
      limits := NormalizeLimits(ttl, maxEntries);
      entries, evictions, expired, sequence := map[], 0, 0, 0;
    }

    method RemoveIfExpiredLocked(id: string, now: int)
      requires id in entries
      modifies this`entries, this`expired
      ensures Stale(limits, old(entries[id]), now) ==> entries == old(entries) - {id} && expired == old(expired) + 1
      ensures !Stale(limits, old(entries[id]), now) ==> entries == old(entries) && expired == old(expired)
    {
      if Stale(limits, entries[id], now) {
        entries := entries - {id};
        expired := expired + 1;
      }
    }

    /** The loop over the entries. */
    method RemoveEachExpiredLocked(now: int)
      modifies this`entries, this`expired
      ensures State() == Expire(limits, old(State()), now)
    {
      ghost var before := State();
      PendingEnds(limits, before, now);
      var rest := entries.Keys;
      while rest != {}
        invariant rest <= before.entries.Keys
        invariant State() == ExpirePending(limits, before, rest, now)
        decreases rest
      {
        var id :| id in rest;
        PendingStep(limits, before, rest, id, now);
        rest := rest - {id};
        RemoveIfExpiredLocked(id, now);
      }
    }

    method RemoveExpiredCompletedLocked(now: int)
      requires Valid()
      modifies this`entries, this`expired
      ensures Valid() && State() == Expire(limits, old(State()), now)
      ensures forall k :: k in entries <==>
                && k in old(entries)
                && !(old(entries)[k].progress.Completed? && now - old(entries)[k].progress.completedAt > limits.ttl)
      ensures forall k :: k in entries ==> entries[k] == old(entries)[k]
    {
      ExpireKeepsSeen(limits, State(), now);
      ExpireMeaning(limits, State(), now);
      RemoveEachExpiredLocked(now);
    }

    method OldestCompletedLocked() returns (oldest: Option<string>)
      requires DistinctSeen(entries)
      ensures oldest.None? <==> forall k :: k in entries ==> entries[k].progress.Started?
      ensures oldest.Some? ==> oldest.value in entries && entries[oldest.value].progress.Completed?
      ensures oldest.Some? ==> forall k :: k in entries && entries[k].progress.Completed? && k != oldest.value ==>
                entries[oldest.value].lastSeen < entries[k].lastSeen
    {
      oldest := None;
      var rest := entries.Keys;
      while rest != {}
        invariant rest <= entries.Keys
        invariant oldest.None? <==> forall k :: k in entries && k !in rest ==> entries[k].progress.Started?
        invariant oldest.Some? ==> oldest.value in entries && oldest.value !in rest
        invariant oldest.Some? ==> entries[oldest.value].progress.Completed?
        invariant oldest.Some? ==>
                    forall k :: k in entries && k !in rest && entries[k].progress.Completed? && k != oldest.value ==>
                    entries[oldest.value].lastSeen < entries[k].lastSeen
        decreases rest
      {
        var id :| id in rest;
        rest := rest - {id};
        if entries[id].progress.Completed? && (oldest.None? || entries[id].lastSeen < entries[oldest.value].lastSeen) {
          oldest := Some(id);
        }
      }
    }

    /** One turn of the eviction loop. */
    method DropOldestLocked(ghost before: Entries) returns (dropped: bool)
      requires PartlyTrimmed(limits.maxEntries, before, entries) && DistinctSeen(before)
            && |entries| > limits.maxEntries
      modifies this`entries, this`evictions
      ensures !dropped ==> State() == old(State()) && forall k :: k in entries ==> entries[k].progress.Started?
      ensures dropped ==> PartlyTrimmed(limits.maxEntries, before, entries) && |entries| < |old(entries)|
      ensures evictions - Gone(before, entries) == old(evictions - Gone(before, entries))
    {
      DistinctWithin(before, entries);
      var oldest := OldestCompletedLocked();
      dropped := oldest.Some?;
      if dropped {
        DropCompleted(limits.maxEntries, before, entries, oldest.value);
        entries := entries - {oldest.value};
        evictions := evictions + 1;
      }
    }

    method EvictCompletedOverLimitLocked()
      requires Valid()
      modifies this`entries, this`evictions
      ensures Valid() && Evicts(limits.maxEntries, old(State()), State())
    {
      ghost var before := State();
      ghost var max := limits.maxEntries;
      while |entries| > limits.maxEntries
        invariant PartlyTrimmed(max, before.entries, entries)
        invariant evictions - Gone(before.entries, entries) == before.evictions
        decreases |entries|
      {
        var dropped := DropOldestLocked(before.entries);
        if !dropped {
          break;
        }
      }
      FullyTrimmed(max, before.entries, entries);
      EvictKeepsSeen(max, before, State());
    }

    /** Writes an entry stamped with the next sequence number. */
    method PutLocked(id: string, entry: Entry)
      requires Valid() && id != ""
      modifies this`entries, this`sequence
      ensures Valid() && State() == Put(old(State()), id, entry)
    {
      PutKeepsSeen(State(), id, entry);
      sequence := sequence + 1;
      entries := entries[id := entry.(lastSeen := sequence)];
    }

    method Begin(id: string, fingerprint: Option<string>, now: int) returns (answer: Option<Decision>)
      requires Valid()
      modifies this`entries, this`evictions, this`expired, this`sequence
      ensures Valid() && Begins(limits, old(State()), id, fingerprint, now, State(), answer)
      ensures id != "" && fingerprint.Some? ==>
                answer.Some? && Answers(limits.ttl, old(entries), id, fingerprint.value, now, answer.value)
      ensures id == "" ==> answer == Some(BeginStarted) && State() == old(State())
      ensures id != "" && fingerprint.None? ==> answer == None && State() == old(State())
    {
      if id == "" {
        return Some(BeginStarted);
      }
      if fingerprint.None? {
        return None;
      }
      RemoveExpiredCompletedLocked(now);
      if id !in entries {
        PutLocked(id, Entry(fingerprint.value, Started, 0));
        EvictCompletedOverLimitLocked();
        return Some(BeginStarted);
      }
      var entry := entries[id];
      if entry.fingerprint != fingerprint.value {
        return Some(BeginConflict);
      }
      match entry.progress
      case Started =>
        return Some(BeginInFlight);
      case Completed(response, _) =>
        PutLocked(id, entry);
        return Some(BeginCompleted(response));
    }

    method Complete(id: string, response: ExecutionResponse, now: int)
      requires Valid()
      modifies this`entries, this`evictions, this`sequence
      ensures Valid() && Completes(limits, old(State()), id, response, now, State())
    {
      if id == "" || id !in entries {
        return;
      }
      var entry := entries[id].(progress := Completed(response, now));
      PutLocked(id, entry);
      EvictCompletedOverLimitLocked();
    }

    method Forget(id: string)
      requires Valid()
      modifies this`entries
      ensures Valid() && State() == Forgets(old(State()), id)
    {
      if id == "" {
        return;
      }
      entries := entries - {id};
    }

    /** Entries, in-flight and completed counts after dropping what expired. */
    method Stats(now: int) returns (total: nat, inFlight: nat, completed: nat)
      requires Valid()
      modifies this`entries, this`expired
      ensures Valid() && State() == Expire(limits, old(State()), now)
      ensures total == |entries| && inFlight == |InFlight(entries)| && total == inFlight + completed
    {
      RemoveExpiredCompletedLocked(now);
      inFlight, completed := CountProgress(entries);
      total := |entries|;
    }
  }

  /** The counting loop of Stats. */
  method CountProgress(m: Entries) returns (inFlight: nat, completed: nat)
    ensures inFlight == |InFlight(m)| && |m| == inFlight + completed
  {
    inFlight, completed := 0, 0;
    var rest := m.Keys;
    ghost var seen: set<string>, started: set<string> := {}, {};
    while rest != {}
      invariant rest <= m.Keys && seen == m.Keys - rest
      invariant started == set k | k in seen && m[k].progress.Started?
      invariant inFlight == |started| && inFlight + completed == |seen|
      decreases rest
    {
      var id :| id in rest;
      rest := rest - {id};
      seen := seen + {id};
      if m[id].progress.Completed? {
        completed := completed + 1;
      } else {
        started := started + {id};
        inFlight := inFlight + 1;
      }
    }
    assert started == InFlight(m);
  }

  // ---------------------------------------------------------------------------
  // Loop lemmas
  // ---------------------------------------------------------------------------

  /** The entries still to be looked at, and those found fresh. */
  function PendingOrFresh(l: Limits, m: Entries, pending: set<string>, now: int): Entries {
    map k | k in m && (k in pending || !Stale(l, m[k], now)) :: m[k]
  }

  ghost function ExpirePending(l: Limits, t: Tracker, pending: set<string>, now: int): Tracker {
    var kept := PendingOrFresh(l, t.entries, pending, now);
    t.(entries := kept, expired := t.expired + Gone(t.entries, kept))
  }

  lemma PendingEnds(l: Limits, t: Tracker, now: int)
    ensures ExpirePending(l, t, t.entries.Keys, now) == t
    ensures ExpirePending(l, t, {}, now) == Expire(l, t, now)
  {
    assert PendingOrFresh(l, t.entries, t.entries.Keys, now) == t.entries;
    assert PendingOrFresh(l, t.entries, {}, now) == Fresh(l, t.entries, now);
  }

  lemma PendingStep(l: Limits, t: Tracker, pending: set<string>, k: string, now: int)
    requires k in pending && k in t.entries
    ensures var held := ExpirePending(l, t, pending, now);
            && k in held.entries
            && ExpirePending(l, t, pending - {k}, now) ==
               if Stale(l, held.entries[k], now) then held.(entries := held.entries - {k}, expired := held.expired + 1)
               else held
  {
    var held := PendingOrFresh(l, t.entries, pending, now);
    var next := PendingOrFresh(l, t.entries, pending - {k}, now);
    if Stale(l, held[k], now) {
      assert next == held - {k};
      GoneOneMore(t.entries, held, k);
    } else {
      assert next == held;
    }
  }

  lemma GoneOneMore(m: Entries, kept: Entries, k: string)
    requires k in kept && kept.Keys <= m.Keys
    ensures Gone(m, kept - {k}) == Gone(m, kept) + 1
  {
    assert m.Keys - (kept - {k}).Keys == (m.Keys - kept.Keys) + {k};
  }

  /** `Trims` without its stopping condition. */
  ghost predicate PartlyTrimmed(max: int, m: Entries, kept: Entries) {
    && kept.Keys <= m.Keys
    && (forall k :: k in kept ==> kept[k] == m[k])
    && (forall k :: k in m && k !in kept ==> m[k].progress.Completed?)
    && (forall k, j :: k in m && k !in kept && j in kept && kept[j].progress.Completed? ==>
        m[k].lastSeen < m[j].lastSeen)
    && (kept.Keys != m.Keys ==> |kept| >= max)
  }

  lemma FullyTrimmed(max: int, m: Entries, kept: Entries)
    requires PartlyTrimmed(max, m, kept)
    requires |kept| <= max || forall k :: k in kept ==> kept[k].progress.Started?
    ensures Trims(max, m, kept)
  {
  }

  lemma DistinctWithin(m: Entries, kept: Entries)
    requires DistinctSeen(m) && kept.Keys <= m.Keys && forall k :: k in kept ==> kept[k] == m[k]
    ensures DistinctSeen(kept)
  {
  }

  lemma DropCompleted(max: int, m: Entries, kept: Entries, k: string)
    requires PartlyTrimmed(max, m, kept) && |kept| > max
    requires k in kept && kept[k].progress.Completed?
    requires forall j :: j in kept && kept[j].progress.Completed? && j != k ==> kept[k].lastSeen < kept[j].lastSeen
    ensures PartlyTrimmed(max, m, kept - {k}) && |kept - {k}| == |kept| - 1
    ensures Gone(m, kept - {k}) == Gone(m, kept) + 1
  {
    GoneOneMore(m, kept, k);
    assert (kept - {k}).Keys == kept.Keys - {k};
    assert |kept - {k}| == |kept.Keys - {k}|;
  }

  lemma {:induction false} OldestAmong(m: Entries, keys: set<string>) returns (k: string)
    requires DistinctSeen(m) && keys <= m.Keys && keys != {}
    ensures k in keys && forall j :: j in keys && j != k ==> m[k].lastSeen < m[j].lastSeen
    decreases keys
  {
    var j :| j in keys;
    k := j;
    if keys != {j} {
      var rest := keys - {j};
      assert rest != {};
      var best := OldestAmong(m, rest);
      if m[best].lastSeen < m[j].lastSeen {
        k := best;
      }
    }
  }

  /** Eviction always has an outcome. */
  lemma TrimsExists(max: int, m: Entries) returns (kept: Entries)
    requires DistinctSeen(m)
    ensures Trims(max, m, kept)
  {
    kept := TrimsFrom(max, m, m);
  }

  lemma {:induction false} TrimsFrom(max: int, m: Entries, part: Entries) returns (kept: Entries)
    requires PartlyTrimmed(max, m, part) && DistinctSeen(m)
    ensures Trims(max, m, kept)
    decreases |part|
  {
    kept := part;
    var done := set k | k in part && part[k].progress.Completed?;
    if |part| <= max || done == {} {
      assert forall k :: k in part ==> k in done || part[k].progress.Started?;
      FullyTrimmed(max, m, part);
    } else {
      DistinctWithin(m, part);
      var k := OldestAmong(part, done);
      assert forall j :: j in part && part[j].progress.Completed? && j != k ==> j in done;
      DropCompleted(max, m, part, k);
      kept := TrimsFrom(max, m, part - {k});
    }
  }
}
