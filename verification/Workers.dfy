/** Workers, their registry, and the choice of a worker for a job. */
module Workers {
  import opened Prelude

  // A Java int.
  type Int32 = x: int | MIN_INT <= x <= MAX_INT

  class Worker {
    const host: string
    const port: int
    const capabilities: seq<string>
    const permanent: bool
    var currentLoad: Int32
    var maxCap: Int32

    constructor (host: string, port: int, capabilities: seq<string>, permanent: bool)
      ensures this.host == host && this.port == port && this.capabilities == capabilities
      ensures this.permanent == permanent && currentLoad == 0 && maxCap == 4
    {
      this.host, this.port, this.capabilities, this.permanent := host, port, capabilities, permanent;
      currentLoad, maxCap := 0, 4;
    }

    predicate Saturated()
      reads this
    {
      currentLoad >= maxCap
    }

    /** A hand-over; the worker has room, so the count cannot overflow. */
    method IncrementCurrentLoad()
      requires !Saturated()
      modifies `currentLoad
      ensures currentLoad == old(currentLoad) + 1 <= maxCap
    {
      currentLoad := currentLoad + 1;
    }

    method DecrementCurrentLoad()
      modifies `currentLoad
      ensures currentLoad == if old(currentLoad) > 0 then old(currentLoad) - 1 else old(currentLoad)
    {
      if currentLoad > 0 {
        currentLoad := currentLoad - 1;
      }
    }

    method SetCurrentLoad(load: Int32)
      modifies `currentLoad
      ensures currentLoad == load
    {
      currentLoad := load;
    }
  }

  predicate Usable(w: Worker)
    reads w
  {
    !w.Saturated()
  }

  predicate Prefers(preferred: Option<int>, w: Worker)
  {
    preferred == Some(w.port)
  }

  /**
   What the selection promises: nobody exactly when everyone is saturated; the preferred
   worker whenever it is there and has room; otherwise one of the least loaded.
   */
  ghost predicate BestChoice(preferred: Option<int>, available: seq<Worker>, best: Option<Worker>)
    reads available
  {
    && (best.None? <==> forall w :: w in available ==> w.Saturated())
    && (best.Some? ==>
        && best.value in available && Usable(best.value)
        && ((exists w :: w in available && Prefers(preferred, w) && Usable(w)) ==> Prefers(preferred, best.value))
        && (!Prefers(preferred, best.value) ==>
            forall w :: w in available && Usable(w) ==> best.value.currentLoad <= w.currentLoad))
  }

  method FindPreferred(preferred: Option<int>, available: seq<Worker>) returns (best: Option<Worker>)
    ensures best.Some? ==> best.value in available && Usable(best.value) && Prefers(preferred, best.value)
    ensures best.None? ==> forall w :: w in available ==> !(Prefers(preferred, w) && Usable(w))
  {
    best := None;
    if preferred.Some? {
      for i := 0 to |available|
        invariant forall k :: 0 <= k < i ==> !(Prefers(preferred, available[k]) && Usable(available[k]))
      {
        if available[i].port == preferred.value && !available[i].Saturated() {
          return Some(available[i]);
        }
      }
    }
  }

  method SelectBestWorker(preferred: Option<int>, available: seq<Worker>) returns (best: Option<Worker>)
    ensures BestChoice(preferred, available, best)
    ensures best.None? <==> forall w :: w in available ==> w.currentLoad >= w.maxCap
    ensures best.Some? ==> best.value in available && best.value.currentLoad < best.value.maxCap
    ensures forall w :: w in available && preferred == Some(w.port) && w.currentLoad < w.maxCap ==>
      best.Some? && preferred == Some(best.value.port)
    ensures best.Some? && preferred != Some(best.value.port) ==>
      forall w :: w in available && w.currentLoad < w.maxCap ==> best.value.currentLoad <= w.currentLoad
  {
    best := FindPreferred(preferred, available);
    if best.Some? {
      return;
    }
    var minLoad := MAX_INT;
    for i := 0 to |available|
      invariant best.None? ==> minLoad == MAX_INT && forall k :: 0 <= k < i ==> available[k].Saturated()
      invariant best.Some? ==> best.value in available && Usable(best.value) && minLoad == best.value.currentLoad
      invariant forall k :: 0 <= k < i && Usable(available[k]) ==> minLoad <= available[k].currentLoad
    {
      if !available[i].Saturated() && available[i].currentLoad < minLoad {
        minLoad := available[i].currentLoad;
        best := Some(available[i]);
      }
    }
  }

  ghost predicate Capable(w: Worker, skill: string)
  {
    skill in w.capabilities
  }

  class WorkerRegistry {
    var workers: map<(string, int), Worker>   // by host and port

    constructor ()
      ensures workers == map[]
    {
      workers := map[];
    }

    /** A registration replaces the worker by one that can do all the old one could, and `capability`. */
    method AddWorker(host: string, port: int, capability: string, isPermanent: bool)
      modifies this
      ensures workers.Keys == old(workers.Keys) + {(host, port)}
      ensures forall k :: k in old(workers) && k != (host, port) ==> workers[k] == old(workers)[k]
      ensures var w := workers[(host, port)];
        && fresh(w) && w.host == host && w.port == port && w.currentLoad == 0
        && (forall c :: c in w.capabilities <==>
            c == capability || ((host, port) in old(workers) && c in old(workers)[(host, port)].capabilities))
        && (w.permanent <==> isPermanent || ((host, port) in old(workers) && old(workers)[(host, port)].permanent))
    {
      var key := (host, port);
      var newCapabilities: seq<string> := [];
      if key in workers {
        newCapabilities := workers[key].capabilities;
      }
      if capability !in newCapabilities {
        newCapabilities := newCapabilities + [capability];
      }
      var finalPermanentStatus := isPermanent;
      if key in workers && workers[key].permanent {
        finalPermanentStatus := true;
      }
      var w := new Worker(host, port, newCapabilities, finalPermanentStatus);
      workers := workers[key := w];
    }

    method GetWorkersByCapability(requiredSkill: string) returns (found: seq<Worker>)
      ensures forall w :: w in found <==> w in workers.Values && Capable(w, requiredSkill)
    {
      found := [];
      var rest := workers.Keys;
      while rest != {}
        invariant rest <= workers.Keys
        invariant forall w :: w in found ==> w in workers.Values && Capable(w, requiredSkill)
        invariant forall k :: k in workers && k !in rest && Capable(workers[k], requiredSkill) ==> workers[k] in found
      {
        var k :| k in rest;
        if requiredSkill in workers[k].capabilities {
          found := found + [workers[k]];
        }
        rest := rest - {k};
      }
    }
  }
}
