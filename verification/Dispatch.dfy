/** Nearest-worker selection and dispatch with rescheduling.

Models internal/master/scheduler.go and the Dispatch loop of internal/master/dispatcher.go.
The distance function is arbitrary; None stands for a distance that is not below the
start value of the search (math.MaxFloat64), such as NaN. What each worker does with a
forwarded request, and when the caller's context ends, are arbitrary.
*/
module Dispatch {
  import opened Text
  import opened JobStore
  import opened Registry

  type Distance = WorkerNode -> Option<real>

  /** The Go zero value. */
  const ZERO_WORKER := WorkerNode("", "", 0.0, 0.0, 0.0, 0.0, Zero, "")

  datatype Thresholds = Thresholds(minCPUFree: real, minRAMFreeMB: real)

  // ---------------------------------------------------------------------------
  // Selection
  // ---------------------------------------------------------------------------

  predicate IsEligible(t: Thresholds, w: WorkerNode) {
    w.state != DRAINING && w.cpuFree >= t.minCPUFree && w.ramFreeMB >= t.minRAMFreeMB
  }

  predicate SameWorker(a: WorkerNode, b: WorkerNode) {
    a.id == b.id && a.ipAddress == b.ipAddress
  }

  /** The elements that satisfy `keep`, in their order. */
  function Filter(ws: seq<WorkerNode>, keep: WorkerNode -> bool): seq<WorkerNode> {
    if ws == [] then []
    else Filter(ws[..|ws| - 1], keep) + (if keep(ws[|ws| - 1]) then [ws[|ws| - 1]] else [])
  }

  /** The workers other than `w`, told apart by ID and address. */
  function Without(ws: seq<WorkerNode>, w: WorkerNode): seq<WorkerNode> {
    Filter(ws, v => !SameWorker(v, w))
  }

  lemma {:induction false} FilterMembers(ws: seq<WorkerNode>, keep: WorkerNode -> bool)
    ensures forall w :: w in Filter(ws, keep) <==> w in ws && keep(w)
    ensures |Filter(ws, keep)| <= |ws|
    ensures DistinctIds(ws) ==> DistinctIds(Filter(ws, keep))
    decreases |ws|
  {
    if ws != [] {
      var init, last := ws[..|ws| - 1], ws[|ws| - 1];
      FilterMembers(init, keep);
      assert ws == init + [last];
      assert DistinctIds(ws) ==> forall w :: w in init ==> w.id != last.id;
    }
  }

  method FilterWorkersByCapacity(ws: seq<WorkerNode>, t: Thresholds) returns (eligible: seq<WorkerNode>)
    ensures eligible == Filter(ws, w => IsEligible(t, w))
    ensures forall w :: w in eligible <==>
              && w in ws && w.state != "draining"
              && w.cpuFree >= t.minCPUFree && w.ramFreeMB >= t.minRAMFreeMB
  {
    FilterMembers(ws, w => IsEligible(t, w));
    eligible := [];
    for i := 0 to |ws|
      invariant eligible == Filter(ws[..i], w => IsEligible(t, w))
    {
      assert ws[..i + 1][..i] == ws[..i];
      var w := ws[i];
      if w.state != DRAINING && !(w.cpuFree < t.minCPUFree) && !(w.ramFreeMB < t.minRAMFreeMB) {
        eligible := eligible + [w];
      }
    }
    assert ws[..|ws|] == ws;
  }

  method RemoveWorkerCandidate(ws: seq<WorkerNode>, selected: WorkerNode) returns (candidates: seq<WorkerNode>)
    ensures candidates == Without(ws, selected)
    ensures forall w :: w in candidates <==> w in ws && !(w.id == selected.id && w.ipAddress == selected.ipAddress)
  {
    FilterMembers(ws, w => !SameWorker(w, selected));
    candidates := [];
    for i := 0 to |ws|
      invariant candidates == Filter(ws[..i], w => !SameWorker(w, selected))
    {
      assert ws[..i + 1][..i] == ws[..i];
      if !(ws[i].id == selected.id && ws[i].ipAddress == selected.ipAddress) {
        candidates := candidates + [ws[i]];
      }
    }
    assert ws[..|ws|] == ws;
  }

  /** `w` is the first of the workers at the shortest distance, or the zero worker when no distance compares. */
  ghost predicate IsClosest(dist: Distance, ws: seq<WorkerNode>, w: WorkerNode) {
    || (w == ZERO_WORKER && forall i :: 0 <= i < |ws| ==> dist(ws[i]).None?)
    || exists k :: 0 <= k < |ws| && ws[k] == w && FirstShortest(dist, ws, k)
  }

  ghost predicate FirstShortest(dist: Distance, ws: seq<WorkerNode>, k: int)
    requires 0 <= k < |ws|
  {
    && dist(ws[k]).Some?
    && (forall i :: 0 <= i < |ws| && dist(ws[i]).Some? ==> dist(ws[k]).value <= dist(ws[i]).value)
    && (forall i :: 0 <= i < k && dist(ws[i]).Some? ==> dist(ws[k]).value < dist(ws[i]).value)
  }

  method FindClosestWorker(dist: Distance, ws: seq<WorkerNode>) returns (closest: Option<WorkerNode>)
    ensures closest.None? <==> ws == []
    ensures closest.Some? ==> IsClosest(dist, ws, closest.value)
  {
    if ws == [] {
      return None;
    }
    var best := ZERO_WORKER;
    var shortest: Option<real> := None;
    ghost var at := 0;
    for i := 0 to |ws|
      invariant shortest.None? ==> best == ZERO_WORKER && forall j :: 0 <= j < i ==> dist(ws[j]).None?
      invariant shortest.Some? ==> 0 <= at < i && ws[at] == best && dist(best) == shortest
      invariant shortest.Some? ==> forall j :: 0 <= j < i && dist(ws[j]).Some? ==> shortest.value <= dist(ws[j]).value
      invariant shortest.Some? ==> forall j :: 0 <= j < at && dist(ws[j]).Some? ==> shortest.value < dist(ws[j]).value
    {
      var distance := dist(ws[i]);
      if distance.Some? && (shortest.None? || distance.value < shortest.value) {
        shortest, best, at := distance, ws[i], i;
      }
    }
    assert shortest.Some? ==> FirstShortest(dist, ws, at);
    return Some(best);
  }

  method SelectWorker(t: Thresholds, dist: Distance, ws: seq<WorkerNode>) returns (selected: Option<WorkerNode>)
    ensures selected.None? <==> forall w :: w in ws ==> !IsEligible(t, w)
    ensures selected.Some? ==> IsClosest(dist, Filter(ws, w => IsEligible(t, w)), selected.value)
  {
    var eligible := FilterWorkersByCapacity(ws, t);
    FilterMembers(ws, w => IsEligible(t, w));
    if |eligible| == 0 {
      return None;
    }
    selected := FindClosestWorker(dist, eligible);
    assert eligible[0] in ws;
  }

  /** With comparable distances, a nearest eligible worker is selected. */
  lemma ClosestOfEligible(t: Thresholds, dist: Distance, ws: seq<WorkerNode>, w: WorkerNode)
    requires IsClosest(dist, Filter(ws, v => IsEligible(t, v)), w)
    requires exists v :: v in ws && IsEligible(t, v) && dist(v).Some?
    ensures w in ws && IsEligible(t, w) && dist(w).Some?
    ensures forall v :: v in ws && IsEligible(t, v) && dist(v).Some? ==> dist(w).value <= dist(v).value
  {
    var eligible := Filter(ws, v => IsEligible(t, v));
    FilterMembers(ws, v => IsEligible(t, v));
    forall v | v in ws && IsEligible(t, v) && dist(v).Some?
      ensures w in eligible && dist(w).Some? && dist(w).value <= dist(v).value
    {
      assert v in eligible;
    }
  }

  lemma {:induction false} FilterDrops(ws: seq<WorkerNode>, keep: WorkerNode -> bool, w: WorkerNode)
    requires w in ws && !keep(w)
    ensures |Filter(ws, keep)| < |ws|
    decreases |ws|
  {
    var n := |ws| - 1;
    FilterMembers(ws[..n], keep);
    if ws[n] != w {
      FilterDrops(ws[..n], keep, w);
    }
  }

  // ---------------------------------------------------------------------------
  // One forward
  // ---------------------------------------------------------------------------

  /** What happens on the wire: nothing sent, no response, or a response whose body may not decode. */
  datatype Exchange = NotSent | NoResponse | Responded(status: int, body: Option<ExecutionResponse>)

  datatype Forwarded = Answer(response: ExecutionResponse) | Failure(retryable: bool)

  predicate IsRetryableWorkerStatus(status: int) {
    status == 502 || status == 503 || status == 504
  }

  /** Only a lost exchange or a gateway status may be retried; an answer names the worker that gave it. */
  function ForwardToWorker(w: WorkerNode, requestID: string, x: Exchange): (r: Forwarded)
    ensures r == Failure(true) <==> x.NoResponse? || (x.Responded? && x.status in {502, 503, 504})
    ensures r.Answer? <==> x.Responded? && 200 <= x.status < 300 && x.body.Some?
    ensures r.Answer? ==> r.response.executedOnNodeID == w.id && r.response.result == x.body.value.result
    ensures r.Answer? ==>
              r.response.requestID == if x.body.value.requestID == "" then requestID else x.body.value.requestID
  {
    match x
    case NotSent => Failure(false)
    case NoResponse => Failure(true)
    case Responded(status, body) =>
      if status < 200 || status >= 300 then Failure(IsRetryableWorkerStatus(status))
      else if body.None? then Failure(false)
      else
        var b := body.value.(executedOnNodeID := w.id);
        Answer(if b.requestID == "" then b.(requestID := requestID) else b)
  }

  // ---------------------------------------------------------------------------
  // The rescheduling loop
  // ---------------------------------------------------------------------------

  /** The environment of one call: the k-th forward's exchange, and whether the context is done after it. */
  datatype Env = Env(
    requestID: string, t: Thresholds, dist: Distance, exchange: (nat, WorkerNode) -> Exchange, done: nat -> bool)

  datatype Outcome =
    | NoWorkers
    | NoCapacity
    | Answered(response: ExecutionResponse)
    | Aborted(retryable: bool)
    | Exhausted

  function ForwardAt(e: Env, k: nat, w: WorkerNode): Forwarded {
    ForwardToWorker(w, e.requestID, e.exchange(k, w))
  }

  /** The k-th forward went to `w` and lets the loop go on. */
  predicate Retried(e: Env, k: nat, w: WorkerNode) {
    ForwardAt(e, k, w) == Failure(true) && !e.done(k)
  }

  /** A distance that does not compare counts as farther than every one that does. */
  predicate Nearer(e: Env, a: WorkerNode, b: WorkerNode) {
    e.dist(a).Some? && (e.dist(b).Some? ==> e.dist(a).value <= e.dist(b).value)
  }

  ghost predicate Comparable(e: Env, ws: seq<WorkerNode>) {
    forall w :: w in ws && IsEligible(e.t, w) ==> e.dist(w).Some?
  }

  /** The contacted workers are a prefix of the eligible ones in nondecreasing distance, each once. */
  ghost predicate NearestFirst(e: Env, ws: seq<WorkerNode>, contacted: seq<WorkerNode>) {
    && DistinctIds(contacted)
    && (forall i :: 0 <= i < |contacted| ==> contacted[i] in ws && IsEligible(e.t, contacted[i]))
    && (forall i, j :: 0 <= i < j < |contacted| ==> Nearer(e, contacted[i], contacted[j]))
    && (forall i, w :: 0 <= i < |contacted| && w in ws && IsEligible(e.t, w) && w !in contacted ==>
        Nearer(e, contacted[i], w))
  }

  ghost predicate AllRetried(e: Env, contacted: seq<WorkerNode>, n: nat)
    requires n <= |contacted|
  {
    forall i :: 0 <= i < n ==> Retried(e, i, contacted[i])
  }

  /** What one Dispatch may report, given the workers it contacted. */
  ghost predicate Explains(e: Env, ws: seq<WorkerNode>, contacted: seq<WorkerNode>, outcome: Outcome) {
    match outcome
    case NoWorkers => ws == [] && contacted == []
    case NoCapacity =>
      && AllRetried(e, contacted, |contacted|)
      && (forall w :: w in ws && IsEligible(e.t, w) ==> w in contacted)
      && (exists w :: w in ws && w !in contacted)
    case Answered(response) =>
      && contacted != [] && AllRetried(e, contacted, |contacted| - 1)
      && ForwardAt(e, |contacted| - 1, contacted[|contacted| - 1]) == Answer(response)
    case Aborted(retryable) =>
      && contacted != [] && AllRetried(e, contacted, |contacted| - 1)
      && ForwardAt(e, |contacted| - 1, contacted[|contacted| - 1]) == Failure(retryable)
      && !Retried(e, |contacted| - 1, contacted[|contacted| - 1])
    case Exhausted =>
      && contacted != [] && AllRetried(e, contacted, |contacted|)
      && (forall w :: w in ws ==> w in contacted)
  }

  ghost predicate AnyEligible(e: Env, ws: seq<WorkerNode>) {
    exists w :: w in ws && IsEligible(e.t, w)
  }

  /** Workers are eligible, and the distance of none of them compares: the selection yields the zero worker. */
  ghost predicate Stuck(e: Env, ws: seq<WorkerNode>) {
    AnyEligible(e, ws) && forall w :: w in ws && IsEligible(e.t, w) ==> e.dist(w).None?
  }

  /** The first `n` forwards went to registered workers, nearest first; any later ones went to the zero worker,
  because no distance among the remaining eligible workers compares. */
  ghost predicate Reached(e: Env, ws: seq<WorkerNode>, n: nat, contacted: seq<WorkerNode>) {
    && n <= |contacted| && n <= |ws| && NearestFirst(e, ws, contacted[..n])
    && (forall i :: n <= i < |contacted| ==> contacted[i] == ZERO_WORKER)
    && (n < |contacted| ==> exists w :: w in ws && w !in contacted[..n] && IsEligible(e.t, w) && e.dist(w).None?)
    && (n < |contacted| ==> forall w :: w in ws && w !in contacted[..n] && IsEligible(e.t, w) ==> e.dist(w).None?)
  }

  /** The candidates are the workers that the `named` forwards have not tried. */
  ghost predicate Remaining(e: Env, ws: seq<WorkerNode>, named: seq<WorkerNode>, candidates: seq<WorkerNode>) {
    && DistinctIds(candidates) && |named| + |candidates| <= |ws|
    && (forall w :: w in ws <==> w in candidates || w in named)
    && (forall w :: w in candidates ==> w !in named)
    && NearestFirst(e, ws, named)
  }

  /** How far the loop has come: `named` forwards to registered workers, then `zeros` to the zero worker. */
  ghost predicate Midway(e: Env, ws: seq<WorkerNode>, named: seq<WorkerNode>, zeros: nat, contacted: seq<WorkerNode>,
                         candidates: seq<WorkerNode>)
  {
    && Remaining(e, ws, named, candidates)
    && contacted == named + Zeros(zeros) && (zeros > 0 ==> Stuck(e, candidates))
    && AllRetried(e, contacted, |contacted|)
  }

  function Zeros(n: nat): (zs: seq<WorkerNode>)
    ensures |zs| == n
  {
    seq(n, _ => ZERO_WORKER)
  }

  lemma ZerosGrow(named: seq<WorkerNode>, n: nat)
    ensures named + Zeros(n) + [ZERO_WORKER] == named + Zeros(n + 1)
  {
  }

  ghost predicate NoBlank(ws: seq<WorkerNode>) {
    forall w :: w in ws ==> !SameWorker(w, ZERO_WORKER)
  }

  /** The forward that ends the loop at the latest: every distance compares, or some forward to the zero worker is
  not retried. */
  ghost predicate EndsBy(e: Env, ws: seq<WorkerNode>, bound: nat) {
    || (Comparable(e, ws) && bound == |ws|)
    || (NoBlank(ws) && bound >= |ws| && !Retried(e, bound, ZERO_WORKER))
  }

  lemma SameIdSameWorker(ws: seq<WorkerNode>, a: WorkerNode, b: WorkerNode)
    requires DistinctIds(ws) && a in ws && b in ws && a.id == b.id
    ensures a == b
  {
    var i :| 0 <= i < |ws| && ws[i] == a;
    var j :| 0 <= j < |ws| && ws[j] == b;
    assert i == j;
  }

  /** A nearest remaining worker extends the prefix. */
  lemma ExtendsPrefix(e: Env, ws: seq<WorkerNode>, contacted: seq<WorkerNode>, w: WorkerNode)
    requires DistinctIds(ws) && NearestFirst(e, ws, contacted)
    requires w in ws && w !in contacted && IsEligible(e.t, w)
    requires forall v :: v in ws && v !in contacted && IsEligible(e.t, v) ==> Nearer(e, w, v)
    ensures NearestFirst(e, ws, contacted + [w])
  {
    var next := contacted + [w];
    forall i | 0 <= i < |contacted|
      ensures contacted[i].id != w.id
    {
      if contacted[i].id == w.id {
        SameIdSameWorker(ws, contacted[i], w);
        assert false;
      }
    }
    assert forall v :: v !in next ==> v !in contacted;
  }

  /** Among comparable candidates the selection is a registered worker that extends the prefix. */
  lemma Selected(e: Env, ws: seq<WorkerNode>, named: seq<WorkerNode>, candidates: seq<WorkerNode>, target: WorkerNode)
    requires DistinctIds(ws) && Remaining(e, ws, named, candidates) && AnyEligible(e, candidates)
          && !Stuck(e, candidates)
    requires IsClosest(e.dist, Filter(candidates, w => IsEligible(e.t, w)), target)
    ensures target in candidates && NearestFirst(e, ws, named + [target])
  {
    ClosestOfEligible(e.t, e.dist, candidates, target);
    forall v | v in ws && v !in named && IsEligible(e.t, v)
      ensures Nearer(e, target, v)
    {
      assert v in candidates;
    }
    ExtendsPrefix(e, ws, named, target);
  }

  /** Otherwise it is the zero worker, which is no candidate. */
  lemma SelectedZero(e: Env, candidates: seq<WorkerNode>, target: WorkerNode)
    requires Stuck(e, candidates) && IsClosest(e.dist, Filter(candidates, w => IsEligible(e.t, w)), target)
    ensures target == ZERO_WORKER
    ensures NoBlank(candidates) ==> Filter(candidates, w => !SameWorker(w, target)) == candidates
  {
    FilterMembers(candidates, w => IsEligible(e.t, w));
    var eligible := Filter(candidates, w => IsEligible(e.t, w));
    forall i | 0 <= i < |eligible|
      ensures e.dist(eligible[i]).None?
    {
      assert eligible[i] in eligible;
    }
    if NoBlank(candidates) {
      FilterAll(candidates, w => !SameWorker(w, target));
    }
  }

  lemma {:induction false} FilterAll(ws: seq<WorkerNode>, keep: WorkerNode -> bool)
    requires forall w :: w in ws ==> keep(w)
    ensures Filter(ws, keep) == ws
    decreases |ws|
  {
    if ws != [] {
      FilterAll(ws[..|ws| - 1], keep);
    }
  }

  lemma Dropped(e: Env, ws: seq<WorkerNode>, named: seq<WorkerNode>, candidates: seq<WorkerNode>, target: WorkerNode)
    requires DistinctIds(ws) && Remaining(e, ws, named, candidates)
    requires target in candidates && NearestFirst(e, ws, named + [target])
    ensures Remaining(e, ws, named + [target], Filter(candidates, w => !SameWorker(w, target)))
  {
    var rest := Filter(candidates, w => !SameWorker(w, target));
    var next := named + [target];
    FilterMembers(candidates, w => !SameWorker(w, target));
    FilterDrops(candidates, w => !SameWorker(w, target), target);
    forall w | w in candidates
      ensures SameWorker(w, target) <==> w == target
    {
      if SameWorker(w, target) {
        SameIdSameWorker(ws, w, target);
      }
    }
    assert forall w :: w in next <==> w in named || w == target;
  }

  lemma NothingEligible(e: Env, ws: seq<WorkerNode>, named: seq<WorkerNode>, zeros: nat, contacted: seq<WorkerNode>,
                        candidates: seq<WorkerNode>)
    requires Midway(e, ws, named, zeros, contacted, candidates) && candidates != []
    requires forall w :: w in candidates ==> !IsEligible(e.t, w)
    ensures Explains(e, ws, contacted, NoCapacity) && Reached(e, ws, |contacted|, contacted)
    ensures |contacted| <= |ws| && NearestFirst(e, ws, contacted)
  {
    assert zeros == 0 && contacted == named && contacted[..|contacted|] == contacted;
    assert candidates[0] in ws && candidates[0] !in contacted;
  }

  /** The outcome when a forward ends the loop. */
  function Decide(f: Forwarded): Outcome {
    match f
    case Answer(response) => Answered(response)
    case Failure(retryable) => Aborted(retryable)
  }

  lemma Decided(e: Env, ws: seq<WorkerNode>, contacted: seq<WorkerNode>, w: WorkerNode)
    requires AllRetried(e, contacted, |contacted|) && !Retried(e, |contacted|, w)
    ensures Explains(e, ws, contacted + [w], Decide(ForwardAt(e, |contacted|, w)))
  {
  }

  /** What a turn of the loop does: whom it selects, and what then remains. */
  lemma TurnTaken(e: Env, ws: seq<WorkerNode>, named: seq<WorkerNode>, zeros: nat, candidates: seq<WorkerNode>,
                  target: WorkerNode)
    returns (named': seq<WorkerNode>, zeros': nat)
    requires DistinctIds(ws) && Remaining(e, ws, named, candidates) && AnyEligible(e, candidates)
    requires zeros > 0 ==> Stuck(e, candidates)
    requires IsClosest(e.dist, Filter(candidates, w => IsEligible(e.t, w)), target)
    requires Comparable(e, ws) || NoBlank(ws)
    ensures named + Zeros(zeros) + [target] == named' + Zeros(zeros')
    ensures Remaining(e, ws, named', Without(candidates, target))
    ensures if Stuck(e, candidates) then
              named' == named && zeros' == zeros + 1 && target == ZERO_WORKER
                  && Without(candidates, target) == candidates
            else zeros' == 0 && |named'| == |named| + 1 <= |ws|
    ensures Comparable(e, ws) ==> !Stuck(e, candidates)
  {
    if Stuck(e, candidates) {
      IncomparableRemains(e, ws, named, candidates);
      SelectedZero(e, candidates, target);
      ZerosGrow(named, zeros);
      named', zeros' := named, zeros + 1;
    } else {
      Selected(e, ws, named, candidates, target);
      Dropped(e, ws, named, candidates, target);
      named', zeros' := named + [target], 0;
    }
  }

  lemma IncomparableRemains(e: Env, ws: seq<WorkerNode>, named: seq<WorkerNode>, candidates: seq<WorkerNode>)
    requires Remaining(e, ws, named, candidates) && Stuck(e, candidates)
    ensures !Comparable(e, ws) && candidates != [] && |named| < |ws|
    ensures exists w :: w in ws && w !in named && IsEligible(e.t, w) && e.dist(w).None?
    ensures forall w :: w in ws && w !in named && IsEligible(e.t, w) ==> e.dist(w).None?
  {
    var w :| w in candidates && IsEligible(e.t, w);
    assert w in ws && w !in named && e.dist(w).None?;
  }

  lemma NamedReached(e: Env, ws: seq<WorkerNode>, named: seq<WorkerNode>, zeros: nat, candidates: seq<WorkerNode>)
    requires NearestFirst(e, ws, named) && |named| <= |ws|
    requires zeros > 0 ==> Stuck(e, candidates) && Remaining(e, ws, named, candidates)
    ensures Reached(e, ws, |named|, named + Zeros(zeros))
  {
    assert (named + Zeros(zeros))[..|named|] == named;
    if zeros > 0 {
      IncomparableRemains(e, ws, named, candidates);
    }
  }

  /** Everything one turn establishes. */
  lemma Turn(e: Env, ws: seq<WorkerNode>, bound: nat, named: seq<WorkerNode>, zeros: nat, contacted: seq<WorkerNode>,
             candidates: seq<WorkerNode>, target: WorkerNode)
    returns (named': seq<WorkerNode>, zeros': nat)
    requires DistinctIds(ws) && EndsBy(e, ws, bound) && Midway(e, ws, named, zeros, contacted, candidates)
    requires AnyEligible(e, candidates) && |contacted| <= bound
    requires IsClosest(e.dist, Filter(candidates, w => IsEligible(e.t, w)), target)
    ensures var next, k := contacted + [target], |contacted|;
      && Reached(e, ws, |named'|, next)
      && (Comparable(e, ws) ==> |named'| == |next| <= |ws| && NearestFirst(e, ws, next))
      && (!Retried(e, k, target) ==> Explains(e, ws, next, Decide(ForwardAt(e, k, target))))
      && (Retried(e, k, target) ==>
            && Midway(e, ws, named', zeros', next, Without(candidates, target)) && k < bound
            && (Without(candidates, target) == [] ==> Explains(e, ws, next, Exhausted) && |named'| == |next|))
  {
    named', zeros' := TurnTaken(e, ws, named, zeros, candidates, target);
    NamedReached(e, ws, named', zeros', candidates);
    if Stuck(e, candidates) {
      IncomparableRemains(e, ws, named, candidates);
    }
    if Retried(e, |contacted|, target) {
      RetriedTurn(e, ws, bound, named', zeros', contacted, candidates, target);
    } else {
      Decided(e, ws, contacted, target);
    }
  }

  lemma RetriedTurn(e: Env, ws: seq<WorkerNode>, bound: nat, named: seq<WorkerNode>, zeros: nat,
                    contacted: seq<WorkerNode>, candidates: seq<WorkerNode>, target: WorkerNode)
    requires EndsBy(e, ws, bound) && |contacted| <= bound && Retried(e, |contacted|, target)
    requires AllRetried(e, contacted, |contacted|) && contacted + [target] == named + Zeros(zeros)
    requires Remaining(e, ws, named, Without(candidates, target)) && |named| <= |ws|
    requires zeros > 0 ==> Stuck(e, candidates) && Without(candidates, target) == candidates && target == ZERO_WORKER
    ensures Midway(e, ws, named, zeros, contacted + [target], Without(candidates, target)) && |contacted| < bound
    ensures Without(candidates, target) == [] ==>
              Explains(e, ws, contacted + [target], Exhausted) && |named| == |contacted| + 1
  {
    var next := contacted + [target];
    assert AllRetried(e, next, |next|);
    if zeros > 0 {
      IncomparableRemains(e, ws, named, candidates);
    } else {
      assert next == named;
    }
  }

  lemma StartMidway(e: Env, ws: seq<WorkerNode>)
    requires DistinctIds(ws)
    ensures Midway(e, ws, [], 0, [], ws)
  {
  }

  method Dispatch(e: Env, ws: seq<WorkerNode>, ghost bound: nat)
    returns (outcome: Outcome, contacted: seq<WorkerNode>, reschedules: nat, exhausted: nat, ghost n: nat)
    requires DistinctIds(ws) && EndsBy(e, ws, bound)
    ensures Reached(e, ws, n, contacted) && |contacted| <= bound + 1
    ensures Comparable(e, ws) ==> n == |contacted| <= |ws| && NearestFirst(e, ws, contacted)
    ensures Explains(e, ws, contacted, outcome)
    ensures reschedules == if contacted == [] || outcome.NoCapacity? then |contacted| else |contacted| - 1
    ensures exhausted == if outcome.Exhausted? then 1 else 0
  {
    contacted, reschedules, exhausted, n := [], 0, 0, 0;
    if |ws| == 0 {
      return NoWorkers, contacted, reschedules, exhausted, n;
    }
    var candidates := ws;
    ghost var named: seq<WorkerNode>, zeros := [], 0;
    StartMidway(e, ws);
    while |candidates| > 0
      invariant Midway(e, ws, named, zeros, contacted, candidates)
      invariant reschedules == |contacted| <= bound && candidates != []
      decreases bound - |contacted|
    {
      var selected := SelectWorker(e.t, e.dist, candidates);
      if selected.None? {
        NothingEligible(e, ws, named, zeros, contacted, candidates);
        return NoCapacity, contacted, reschedules, exhausted, |contacted|;
      }
      var target := selected.value;
      named, zeros := Turn(e, ws, bound, named, zeros, contacted, candidates, target);
      var result := ForwardToWorker(target, e.requestID, e.exchange(|contacted|, target));
      if result.Answer? || e.done(|contacted|) || !result.retryable {
        return Decide(result), contacted + [target], reschedules, exhausted, |named|;
      }
      contacted := contacted + [target];
      candidates := RemoveWorkerCandidate(candidates, target);
      if |candidates| == 0 {
        break;
      }
      reschedules := reschedules + 1;
    }
    return Exhausted, contacted, reschedules, 1, |named|;
  }

  // ---------------------------------------------------------------------------
  // What follows
  // ---------------------------------------------------------------------------

  /** Every forward but the last failed retryably while the context was live. */
  lemma AllButLastRetried(e: Env, ws: seq<WorkerNode>, contacted: seq<WorkerNode>, outcome: Outcome, k: nat)
    requires Explains(e, ws, contacted, outcome) && k + 1 < |contacted|
    ensures Retried(e, k, contacted[k]) && !e.done(k)
    ensures var x := e.exchange(k, contacted[k]); x.NoResponse? || (x.Responded? && x.status in {502, 503, 504})
  {
    assert Retried(e, k, contacted[k]);
    assert ForwardAt(e, k, contacted[k]) == Failure(true);
  }

  /** The workers of a snapshot are contacted; the answer names the last of them. */
  lemma AnswerNamesLast(e: Env, ws: seq<WorkerNode>, contacted: seq<WorkerNode>, response: ExecutionResponse)
    requires Explains(e, ws, contacted, Answered(response))
    ensures contacted != [] && response.executedOnNodeID == contacted[|contacted| - 1].id
  {
    var k := |contacted| - 1;
    assert ForwardAt(e, k, contacted[k]) == Answer(response);
  }

  /** One eligible worker that always answers is enough, if no other eligible worker fails for good. */
  lemma HealthyWorkerSuffices(e: Env, ws: seq<WorkerNode>, contacted: seq<WorkerNode>, outcome: Outcome,
                              healthy: WorkerNode)
    requires NearestFirst(e, ws, contacted) && Explains(e, ws, contacted, outcome)
    requires healthy in ws && IsEligible(e.t, healthy) && forall k :: ForwardAt(e, k, healthy).Answer?
    requires forall k, w :: w in ws && IsEligible(e.t, w) ==> ForwardAt(e, k, w) != Failure(false)
    requires forall k :: !e.done(k)
    ensures outcome.Answered?
    ensures forall w :: w in contacted ==> Nearer(e, w, healthy) || w == healthy
  {
    if contacted != [] {
      var k := |contacted| - 1;
      assert contacted[k] in ws && IsEligible(e.t, contacted[k]);
      assert ForwardAt(e, k, contacted[k]) != Failure(false);
    }
    if healthy in contacted {
      var k :| 0 <= k < |contacted| && contacted[k] == healthy;
      assert ForwardAt(e, k, healthy).Answer?;
    }
  }

  /** Without ties, the contacted workers and the outcome are determined. */
  lemma DispatchDetermined(e: Env, ws: seq<WorkerNode>, a: seq<WorkerNode>, x: Outcome, b: seq<WorkerNode>, y: Outcome)
    requires DistinctIds(ws) && NearestFirst(e, ws, a) && Explains(e, ws, a, x) && NearestFirst(e, ws, b)
          && Explains(e, ws, b, y)
    requires forall v, w :: v in ws && w in ws && v != w && IsEligible(e.t, v) && IsEligible(e.t, w) ==>
          e.dist(v) != e.dist(w)
    ensures a == b && x == y
  {
    if |a| <= |b| {
      SamePrefix(e, ws, a, b, |a|);
      NoLonger(e, ws, a, x, b, y);
    } else {
      SamePrefix(e, ws, b, a, |b|);
      NoLonger(e, ws, b, y, a, x);
    }
  }

  lemma {:induction false} SamePrefix(e: Env, ws: seq<WorkerNode>, a: seq<WorkerNode>, b: seq<WorkerNode>, n: nat)
    requires NearestFirst(e, ws, a) && NearestFirst(e, ws, b) && n <= |a| && n <= |b|
    requires forall v, w :: v in ws && w in ws && v != w && IsEligible(e.t, v) && IsEligible(e.t, w) ==>
          e.dist(v) != e.dist(w)
    ensures a[..n] == b[..n]
  {
    if n > 0 {
      var k := n - 1;
      SamePrefix(e, ws, a, b, k);
      NextIsNearer(e, ws, a, b, k);
      NextIsNearer(e, ws, b, a, k);
      assert a[..n] == a[..k] + [a[k]] && b[..n] == b[..k] + [b[k]];
    }
  }

  lemma NextIsNearer(e: Env, ws: seq<WorkerNode>, a: seq<WorkerNode>, b: seq<WorkerNode>, k: nat)
    requires NearestFirst(e, ws, a) && NearestFirst(e, ws, b) && k < |a| && k < |b| && a[..k] == b[..k]
    ensures a[k] == b[k] || Nearer(e, a[k], b[k])
  {
    forall j | 0 <= j < k
      ensures a[j] == b[j] && b[j].id != b[k].id
    {
      assert a[..k][j] == b[..k][j];
    }
    if b[k] in a {
      var j :| 0 <= j < |a| && a[j] == b[k];
      assert j >= k;
    }
  }

  /** A dispatch ends only on a decisive forward or when no eligible worker is left. */
  lemma EndsForCause(e: Env, ws: seq<WorkerNode>, a: seq<WorkerNode>, x: Outcome)
    requires Explains(e, ws, a, x)
    ensures (a != [] && !Retried(e, |a| - 1, a[|a| - 1])) || forall w :: w in ws && IsEligible(e.t, w) ==> w in a
  {
  }

  lemma LongerGoesOn(e: Env, ws: seq<WorkerNode>, a: seq<WorkerNode>, b: seq<WorkerNode>, y: Outcome)
    requires NearestFirst(e, ws, b) && Explains(e, ws, b, y) && |a| <= |b| && b[..|a|] == a
    ensures |a| < |b| ==> b[|a|] in ws && IsEligible(e.t, b[|a|]) && b[|a|] !in a
    ensures |a| < |b| && a != [] ==> Retried(e, |a| - 1, a[|a| - 1])
  {
    assert forall i :: 0 <= i < |a| ==> a[i] == b[i];
    if 0 < |a| < |b| {
      AllButLastRetried(e, ws, b, y, |a| - 1);
    }
  }

  lemma NoLonger(e: Env, ws: seq<WorkerNode>, a: seq<WorkerNode>, x: Outcome, b: seq<WorkerNode>, y: Outcome)
    requires NearestFirst(e, ws, b) && Explains(e, ws, a, x) && Explains(e, ws, b, y) && |a| <= |b| && b[..|a|] == a
    ensures a == b && x == y
  {
    EndsForCause(e, ws, a, x);
    LongerGoesOn(e, ws, a, b, y);
    assert |a| == |b|;
    assert b[..|b|] == b;
    if a != [] {
      assert Retried(e, |a| - 1, a[|a| - 1]) || !Retried(e, |a| - 1, a[|a| - 1]);
    }
  }

  // ---------------------------------------------------------------------------
  // When the loop ends
  // ---------------------------------------------------------------------------

  /** One turn of the loop whose forward is retried. */
  ghost predicate Round(e: Env, before: seq<WorkerNode>, after: seq<WorkerNode>) {
    && AnyEligible(e, before)
    && exists w :: IsClosest(e.dist, Filter(before, v => IsEligible(e.t, v)), w) && after == Without(before, w)
  }

  ghost predicate Rounds(e: Env, chain: seq<seq<WorkerNode>>) {
    chain != [] && forall i :: 0 <= i < |chain| - 1 ==> Round(e, chain[i], chain[i + 1])
  }

  lemma RoundShrinks(e: Env, before: seq<WorkerNode>, after: seq<WorkerNode>)
    requires Round(e, before, after) && Comparable(e, before)
    ensures |after| < |before| && Comparable(e, after)
  {
    var w :| IsClosest(e.dist, Filter(before, v => IsEligible(e.t, v)), w) && after == Without(before, w);
    var v :| v in before && IsEligible(e.t, v);
    assert e.dist(v).Some?;
    ClosestOfEligible(e.t, e.dist, before, w);
    FilterDrops(before, v => !SameWorker(v, w), w);
    FilterMembers(before, v => !SameWorker(v, w));
  }

  lemma {:induction false} RoundsBounded(e: Env, chain: seq<seq<WorkerNode>>)
    requires Rounds(e, chain) && Comparable(e, chain[0])
    ensures |chain| <= |chain[0]| + 1
    decreases |chain|
  {
    if |chain| > 1 {
      RoundShrinks(e, chain[0], chain[1]);
      var rest := chain[1..];
      forall i | 0 <= i < |rest| - 1
        ensures Round(e, rest[i], rest[i + 1])
      {
        assert Round(e, chain[i + 1], chain[i + 2]);
      }
      RoundsBounded(e, rest);
    }
  }

  lemma {:induction false} ClosestExists(dist: Distance, ws: seq<WorkerNode>) returns (w: WorkerNode)
    ensures IsClosest(dist, ws, w)
    decreases |ws|
  {
    if ws == [] {
      w := ZERO_WORKER;
    } else {
      var n := |ws| - 1;
      var init := ws[..n];
      w := ClosestExists(dist, init);
      if k :| 0 <= k < n && init[k] == w && FirstShortest(dist, init, k) {
        if dist(ws[n]).Some? && dist(ws[n]).value < dist(w).value {
          w := ws[n];
          assert FirstShortest(dist, ws, n);
        } else {
          assert FirstShortest(dist, ws, k);
        }
      } else if dist(ws[n]).Some? {
        w := ws[n];
        assert FirstShortest(dist, ws, n);
      }
    }
  }

  /** An eligible worker whose distance does not compare is never selected, so never dropped. */
  lemma IncomparableStays(e: Env, ws: seq<WorkerNode>, v: WorkerNode) returns (rest: seq<WorkerNode>)
    requires DistinctIds(ws) && v in ws && IsEligible(e.t, v) && e.dist(v).None? && !SameWorker(v, ZERO_WORKER)
    ensures Round(e, ws, rest) && DistinctIds(rest) && v in rest
  {
    var eligible := Filter(ws, v => IsEligible(e.t, v));
    FilterMembers(ws, v => IsEligible(e.t, v));
    var w := ClosestExists(e.dist, eligible);
    rest := Without(ws, w);
    FilterMembers(ws, v => !SameWorker(v, w));
    if SameWorker(v, w) {
      SameIdSameWorker(ws, v, w);
      assert false;
    }
  }

  lemma {:induction false} RoundsUnbounded(e: Env, ws: seq<WorkerNode>, v: WorkerNode, n: nat)
    returns (chain: seq<seq<WorkerNode>>)
    requires DistinctIds(ws) && v in ws && IsEligible(e.t, v) && e.dist(v).None? && !SameWorker(v, ZERO_WORKER)
    ensures Rounds(e, chain) && chain[0] == ws && |chain| == n + 1
    decreases n
  {
    chain := [ws];
    if n > 0 {
      var rest := IncomparableStays(e, ws, v);
      var more := RoundsUnbounded(e, rest, v, n - 1);
      chain := [ws] + more;
      forall i | 0 <= i < |chain| - 1
        ensures Round(e, chain[i], chain[i + 1])
      {
        assert i == 0 || Round(e, more[i - 1], more[i]);
      }
    }
  }

  /** Rescheduling ends within one forward per worker, whatever fails, exactly when every eligible distance compares. */
  lemma ReschedulingEndsIff(e: Env, ws: seq<WorkerNode>)
    requires DistinctIds(ws) && forall w :: w in ws ==> !SameWorker(w, ZERO_WORKER)
    ensures Comparable(e, ws) <==> forall chain :: Rounds(e, chain) && chain[0] == ws ==> |chain| <= |ws| + 1
  {
    if Comparable(e, ws) {
      forall chain | Rounds(e, chain) && chain[0] == ws
        ensures |chain| <= |ws| + 1
      {
        RoundsBounded(e, chain);
      }
    } else {
      var v :| v in ws && IsEligible(e.t, v) && e.dist(v).None?;
      var chain := RoundsUnbounded(e, ws, v, |ws| + 1);
    }
  }

  /** A dispatch that starts between a drain of an ID and its next registration never contacts it. */
  lemma DrainedNeverContacted(events: seq<Event>, times: seq<int>, timeout: int, i: nat, id: string,
                              e: Env, ws: seq<WorkerNode>, n: nat, contacted: seq<WorkerNode>)
    requires |events| == |times| && i < |events| && events[i] == Drain(id) && id != ""
    requires forall k :: i < k < |events| ==> !Registers(events[k], id)
    requires IsSnapshot(Registry.After(events, times, timeout), ws) && Reached(e, ws, n, contacted)
    ensures forall w :: w in contacted ==> w.id != id
  {
    DrainedUntilRegistered(events, times, timeout, i, id);
    forall k | 0 <= k < |contacted|
      ensures contacted[k].id != id
    {
      if k < n {
        assert contacted[..n][k] in ws;
      }
    }
  }
}
