/** A job as the master holds it: fixed description, mutable progress. */
module Jobs {
  import opened Prelude

  datatype Status = PENDING | RUNNING | COMPLETED | FAILED | DEAD | CANCELLED

  const MAX_RETRIES := 3

  /** The changing part of a job, as a value. `dispatches` counts hand-overs to a worker. */
  datatype JobState = JobState(
    status: Status,
    retries: nat,
    satisfied: set<string>,
    preferred: Option<int>,
    dispatches: nat)

  const NEW_JOB_STATE := JobState(PENDING, 0, {}, None, 0)

  class Job {
    const id: string
    const payload: string
    const priority: int
    const due: int             // absolute time before which the job must not run
    const deps: seq<string>    // parent ids, repetitions included
    const affinity: bool

    var status: Status
    var retries: nat
    var satisfied: set<string>
    var preferred: Option<int> // port of the worker the job is pinned to
    ghost var dispatches: nat

    constructor (id: string, payload: string, priority: int, due: int, deps: seq<string>, affinity: bool)
      ensures this.id == id && this.payload == payload && this.priority == priority
      ensures this.due == due && this.deps == deps && this.affinity == affinity
      ensures State() == NEW_JOB_STATE
    {
      this.id, this.payload, this.priority := id, payload, priority;
      this.due, this.deps, this.affinity := due, deps, affinity;
      status, retries, satisfied, preferred := PENDING, 0, {}, None;
      dispatches := 0;
    }

    ghost function State(): JobState
      reads this
    {
      JobState(status, retries, satisfied, preferred, dispatches)
    }

    method IsReady() returns (ready: bool)
      ensures ready == Ready(this, satisfied)
    {
      ready := deps == [] || |satisfied| >= |deps|;
    }

    method ResolveDependencies(parentId: string)
      modifies this
      ensures State() == old(State()).(satisfied :=
        if parentId in deps then old(satisfied) + {parentId} else old(satisfied))
    {
      if parentId in deps {
        satisfied := satisfied + {parentId};
      }
    }
  }

  function DepSet(deps: seq<string>): set<string>
  {
    set d | d in deps
  }

  /** The readiness test counts; it never compares names. */
  predicate Ready(j: Job, satisfied: set<string>)
  {
    |satisfied| >= |j.deps|
  }

  predicate Distinct<T(==)>(s: seq<T>)
  {
    forall i, k :: 0 <= i < k < |s| ==> s[i] != s[k]
  }

  lemma {:induction false} DepSetBound(deps: seq<string>)
    ensures |DepSet(deps)| <= |deps|
    ensures Distinct(deps) ==> |DepSet(deps)| == |deps|
    ensures !Distinct(deps) ==> |DepSet(deps)| < |deps|
  {
    if deps != [] {
      var last := |deps| - 1;
      var rest := deps[..last];
      DepSetBound(rest);
      assert DepSet(deps) == DepSet(rest) + {deps[last]};
      if deps[last] in rest {
        assert DepSet(deps) == DepSet(rest);
        var i :| 0 <= i < last && rest[i] == deps[last];
        assert deps[i] == deps[last];
      } else {
        assert Distinct(rest) ==> Distinct(deps);
        if !Distinct(rest) {
          var i, k :| 0 <= i < k < last && rest[i] == rest[k];
          assert deps[i] == deps[k];
        }
      }
    }
  }

  /**
   Although readiness only counts, a ready job has every parent satisfied, and
   the converse holds exactly when no parent is listed twice.
   */
  lemma ReadyMeansAllSatisfied(j: Job, satisfied: set<string>)
    requires satisfied <= DepSet(j.deps)
    ensures Ready(j, satisfied) <==> satisfied == DepSet(j.deps) && Distinct(j.deps)
  {
    DepSetBound(j.deps);
    SubsetBySize(satisfied, DepSet(j.deps));
  }
}
