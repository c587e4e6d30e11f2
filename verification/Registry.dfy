/** The registry of active workers.

Models internal/master/registry.go. Every method runs under the registry's lock and is
one event; `time.Now()` is a parameter.
*/
module Registry {
  import opened JobStore

  const READY := "ready"
  const DRAINING := "draining"

  datatype WorkerNode = WorkerNode(
    id: string, ipAddress: string, latitude: real, longitude: real,
    cpuFree: real, ramFreeMB: real, lastSeen: Time, state: string)

  datatype Heartbeat = Heartbeat(nodeID: string, cpuFree: real, ramFreeMB: real)

  type Workers = map<string, WorkerNode>

  // ---------------------------------------------------------------------------
  // Events
  // ---------------------------------------------------------------------------

  datatype Event =
    | Register(worker: WorkerNode)
    | Beat(heartbeat: Heartbeat)
    | Drain(nodeID: string)
    | Cleanup

  /** A worker as registration stores it. */
  function Normalized(w: WorkerNode, now: int): WorkerNode {
    w.(lastSeen := if w.lastSeen.Zero? then At(now) else w.lastSeen, state := if w.state == "" then READY else w.state)
  }

  /** The age of a zero time saturates above every timeout. */
  predicate IsStale(w: WorkerNode, now: int, timeout: int) {
    w.lastSeen.Zero? || now - w.lastSeen.ns > timeout
  }

  function Occur(m: Workers, e: Event, now: int, timeout: int): Workers {
    match e
    case Register(w) => m[w.id := Normalized(w, now)]
    case Beat(h) =>
      if h.nodeID in m then
        m[h.nodeID := Normalized(m[h.nodeID].(cpuFree := h.cpuFree, ramFreeMB := h.ramFreeMB,
                                              lastSeen := At(now)), now)]
      else m
    case Drain(id) => if id in m then m[id := m[id].(state := DRAINING, lastSeen := At(now))] else m
    case Cleanup => map id | id in m && !IsStale(m[id], now, timeout) :: m[id]
  }

  /** Keys are worker IDs, and no stored worker has a blank state or a zero time. */
  ghost predicate RegistryOk(m: Workers) {
    forall id :: id in m ==> m[id].id == id && m[id].state != "" && m[id].lastSeen.At?
  }

  predicate CanSchedule(w: WorkerNode) {
    w.state == "" || w.state == READY
  }

  predicate Schedulable(m: Workers, id: string) {
    id in m && CanSchedule(m[id])
  }

  predicate DistinctIds(ws: seq<WorkerNode>) {
    forall i, j :: 0 <= i < j < |ws| ==> ws[i].id != ws[j].id
  }

  /** `ws` lists the schedulable workers, each once, in any order. */
  ghost predicate IsSnapshot(m: Workers, ws: seq<WorkerNode>) {
    && DistinctIds(ws)
    && (forall i :: 0 <= i < |ws| ==> ws[i].id in m && m[ws[i].id] == ws[i] && CanSchedule(ws[i]))
    && (forall id :: Schedulable(m, id) ==> m[id] in ws)
  }

  // ---------------------------------------------------------------------------
  // Runs
  // ---------------------------------------------------------------------------

  /** The registry after `events`, the k-th of them occurring at `times[k]`. */
  function After(events: seq<Event>, times: seq<int>, timeout: int): Workers
    requires |events| == |times|
  {
    if events == [] then map[]
    else Occur(After(events[..|events| - 1], times[..|times| - 1], timeout), events[|events| - 1],
               times[|times| - 1], timeout)
  }

  lemma OccurKeepsOk(m: Workers, e: Event, now: int, timeout: int)
    requires RegistryOk(m)
    ensures RegistryOk(Occur(m, e, now, timeout))
  {
  }

  lemma {:induction false} RegistryAlwaysOk(events: seq<Event>, times: seq<int>, timeout: int)
    requires |events| == |times|
    ensures RegistryOk(After(events, times, timeout))
    decreases |events|
  {
    if events != [] {
      var n := |events| - 1;
      RegistryAlwaysOk(events[..n], times[..n], timeout);
      OccurKeepsOk(After(events[..n], times[..n], timeout), events[n], times[n], timeout);
    }
  }

  predicate Registers(e: Event, id: string) {
    e.Register? && e.worker.id == id
  }

  /** Only a registration of the ID makes it schedulable; a drain always makes it unschedulable. */
  lemma OnlyRegisterReadies(m: Workers, e: Event, now: int, timeout: int, id: string)
    requires RegistryOk(m) && !Registers(e, id) && (!Schedulable(m, id) || e == Drain(id))
    ensures !Schedulable(Occur(m, e, now, timeout), id)
  {
  }

  /** From a drain of an ID until its next registration the ID is not schedulable, whatever else occurs. */
  lemma {:induction false} DrainedUntilRegistered(events: seq<Event>, times: seq<int>, timeout: int, i: nat, id: string)
    requires |events| == |times| && i < |events| && events[i] == Drain(id)
    requires forall k :: i < k < |events| ==> !Registers(events[k], id)
    ensures !Schedulable(After(events, times, timeout), id)
    decreases |events|
  {
    var n := |events| - 1;
    var before := After(events[..n], times[..n], timeout);
    RegistryAlwaysOk(events[..n], times[..n], timeout);
    if i < n {
      DrainedUntilRegistered(events[..n], times[..n], timeout, i, id);
    }
    OnlyRegisterReadies(before, events[n], times[n], timeout, id);
  }

  /** A registration that says it is ready, or says nothing, makes its ID schedulable until the ID is drained,
  registered again or cleaned up; without a cleanup it is there. */
  lemma {:induction false} RegisteredIsSchedulable(events: seq<Event>, times: seq<int>, timeout: int, i: nat,
                                                   id: string)
    requires |events| == |times| && i < |events| && Registers(events[i], id)
    requires events[i].worker.state == "" || events[i].worker.state == "ready"
    requires forall k :: i < k < |events| ==> !Registers(events[k], id) && events[k] != Drain(id)
    ensures var m := After(events, times, timeout);
      && (id in m ==> m[id].state == "ready" && Schedulable(m, id))
      && ((forall k :: i < k < |events| ==> !events[k].Cleanup?) ==> id in m)
    decreases |events|
  {
    var n := |events| - 1;
    if i < n {
      RegisteredIsSchedulable(events[..n], times[..n], timeout, i, id);
      RegistryAlwaysOk(events[..n], times[..n], timeout);
    }
  }

  // ---------------------------------------------------------------------------
  // The registry object
  // ---------------------------------------------------------------------------

  /** 30 seconds in nanoseconds. */
  const DEFAULT_STALE_TIMEOUT := 30_000_000_000

  class WorkerRegistry {
    var workers: Workers
    const staleTimeout: int

    ghost predicate Valid()
      reads this
    {
      RegistryOk(workers)
    }

    constructor (workerStaleTimeout: int)
      ensures Valid() && workers == map[]
      ensures staleTimeout == if workerStaleTimeout > 0 then workerStaleTimeout else 30 * 1_000_000_000
    {
      staleTimeout := if workerStaleTimeout <= 0 then DEFAULT_STALE_TIMEOUT else workerStaleTimeout;
      workers := map[];
    }

    method RegisterWorker(worker: WorkerNode, now: int)
      requires Valid()
      modifies this`workers
      ensures Valid() && workers == Occur(old(workers), Register(worker), now, staleTimeout)
      ensures workers == old(workers)[worker.id := worker.(
                lastSeen := (if worker.lastSeen.Zero? then At(now) else worker.lastSeen),
                state := (if worker.state == "" then "ready" else worker.state))]
    {
      var stored := worker;
      if stored.lastSeen.Zero? {
        stored := stored.(lastSeen := At(now));
      }
      if stored.state == "" {
        stored := stored.(state := READY);
      }
      workers := workers[stored.id := stored];
    }

    method UpdateWorkerStatus(heartbeat: Heartbeat, now: int) returns (found: bool)
      requires Valid()
      modifies this`workers
      ensures Valid() && workers == Occur(old(workers), Beat(heartbeat), now, staleTimeout)
      ensures found <==> heartbeat.nodeID in old(workers)
      ensures found ==>
                workers[heartbeat.nodeID] == old(workers)[heartbeat.nodeID].(
                  cpuFree := heartbeat.cpuFree, ramFreeMB := heartbeat.ramFreeMB, lastSeen := At(now))
    {
      found := heartbeat.nodeID in workers;
      if found {
        var worker := workers[heartbeat.nodeID];
        worker := worker.(cpuFree := heartbeat.cpuFree, ramFreeMB := heartbeat.ramFreeMB, lastSeen := At(now));
        if worker.state == "" {
          worker := worker.(state := READY);
        }
        workers := workers[heartbeat.nodeID := worker];
      }
    }

    method DrainWorker(nodeID: string, now: int) returns (found: bool)
      requires Valid()
      modifies this`workers
      ensures Valid() && workers == Occur(old(workers), Drain(nodeID), now, staleTimeout)
      ensures found <==> nodeID in old(workers)
      ensures found ==>
                workers == old(workers)[nodeID := old(workers)[nodeID].(state := "draining", lastSeen := At(now))]
    {
      found := nodeID in workers;
      if found {
        workers := workers[nodeID := workers[nodeID].(state := DRAINING, lastSeen := At(now))];
      }
    }

    method GetSchedulableWorkers() returns (ws: seq<WorkerNode>)
      requires Valid()
      ensures IsSnapshot(workers, ws)
      ensures forall id :: id in workers ==>
                (workers[id] in ws <==> workers[id].state == "" || workers[id].state == "ready")
    {
      ws := [];
      var rest := workers.Keys;
      while rest != {}
        invariant rest <= workers.Keys && DistinctIds(ws)
        invariant forall i :: 0 <= i < |ws| ==>
          ws[i].id in workers && ws[i].id !in rest && workers[ws[i].id] == ws[i] && CanSchedule(ws[i])
        invariant forall id :: Schedulable(workers, id) && id !in rest ==> workers[id] in ws
        decreases rest
      {
        var id :| id in rest;
        rest := rest - {id};
        if CanSchedule(workers[id]) {
          ws := ws + [workers[id]];
        }
      }
    }

    method CleanupAt(now: int)
      requires Valid()
      modifies this`workers
      ensures Valid() && workers == Occur(old(workers), Cleanup, now, staleTimeout)
      ensures forall id :: id in workers <==> id in old(workers) && now - old(workers)[id].lastSeen.ns <= staleTimeout
    {
      ghost var before := workers;
      OccurKeepsOk(before, Cleanup, now, staleTimeout);
      var rest := workers.Keys;
      while rest != {}
        invariant rest <= before.Keys
        invariant workers == map id | id in before
              && (id in rest || !IsStale(before[id], now, staleTimeout)) :: before[id]
        decreases rest
      {
        var id :| id in rest;
        rest := rest - {id};
        if IsStale(workers[id], now, staleTimeout) {
          workers := workers - {id};
        }
      }
    }
  }
}
