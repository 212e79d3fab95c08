/** When the scheduler comes to rest, who is still waiting, and why. */
module Liveness {
  import opened Jobs
  import opened Graphs
  import opened SchedulerModel
  import opened Invariants
  import opened Runs

  /** Nothing queued, nothing delayed, nothing with a worker. */
  ghost predicate Quiescent(s: State)
  {
    && s.queue == multiset{} && s.delayed == multiset{}
    && forall j :: j in s.jobs && InRunning(s, j) ==> s.jobs[j].status != RUNNING
  }

  /** d can no longer release c: unknown, or its completion was missed, or it is over. */
  ghost predicate Unhelpful(s: State, c: Job, d: string)
    requires c in s.jobs
  {
    && d in c.deps && d !in s.jobs[c].satisfied
    && (d in s.log.owner ==>
        s.log.owner[d] in s.jobs && (d in s.log.completed || Places(s, s.log.owner[d]) == 0))
  }

  ghost predicate Blocked(s: State, c: Job)
    requires c in s.jobs
  {
    !Distinct(c.deps) || exists d :: Unhelpful(s, c, d)
  }

  lemma WaitsForWaiting(s: State, id: string)
    requires Inv(s) && Quiescent(s) && id in s.waiting && s.waiting[id] in s.jobs
    requires !Blocked(s, s.waiting[id])
    ensures HasParentIn(WaitGraph(s.waiting), s.waiting.Keys, id)
  {
    var c := s.waiting[id];
    OwnerOf(s, c);
    ReadyMeansAllSatisfied(c, s.jobs[c].satisfied);
    assert InWaiting(s, c);
    var d :| d in c.deps && d !in s.jobs[c].satisfied;
    assert !Unhelpful(s, c, d);
    var p := s.log.owner[d];
    OwnerOf(s, p);
    assert InWaiting(s, p);
    assert Edge(WaitGraph(s.waiting), id, d);
  }

  lemma SomeCause(s: State)
    requires Inv(s) && Quiescent(s) && s.waiting != map[]
    requires forall c :: c in s.jobs && InWaiting(s, c) ==> !Blocked(s, c)
    ensures Cyclic(WaitGraph(s.waiting))
  {
    hide *;
    var g := WaitGraph(s.waiting);
    forall id | id in s.waiting.Keys
      ensures HasParentIn(g, s.waiting.Keys, id)
    {
      WaitingIsKnown(s, id);
      WaitsForWaiting(s, id);
    }
    var some :| some in s.waiting;
    assert s.waiting.Keys != {};
    AllHaveParents(g, s.waiting.Keys);
    StuckSetIsCyclic(g, s.waiting.Keys);
  }

  lemma AllHaveParents(g: Graph, ids: set<string>)
    requires forall id :: id in ids ==> HasParentIn(g, ids, id)
    ensures AllStuck(g, ids)
  {
    hide HasParentIn;
  }

  lemma NothingWaitsInACircle(waiting: map<string, Job>)
    requires Cyclic(WaitGraph(waiting))
    ensures waiting != map[]
  {
    var g := WaitGraph(waiting);
    var a :| DependsOn(g, a, a);
    var p :| WalkBetween(g, p, a, a);
    FirstStep(g, p, a, a);
  }

  /**
   At rest, jobs are left waiting exactly when one of them lists a parent twice, or has a
   parent that can no longer release it, or the waiting jobs wait for each other in a circle.
   */
  lemma StuckExactly(states: seq<State>, events: seq<Event>, i: nat)
    requires Run(states, events) && i < |states| && Quiescent(states[i])
    ensures states[i].waiting != map[] <==>
      (exists c :: c in states[i].jobs && InWaiting(states[i], c) && Blocked(states[i], c)) ||
      Cyclic(WaitGraph(states[i].waiting))
  {
    var s := states[i];
    RunKeeps(states, events, i);
    hide Run, Inv, Quiescent, Blocked, Cyclic, WaitGraph;
    if s.waiting != map[] && forall c :: c in s.jobs && InWaiting(s, c) ==> !Blocked(s, c) {
      SomeCause(s);
    }
    if Cyclic(WaitGraph(s.waiting)) {
      NothingWaitsInACircle(s.waiting);
    }
  }

  lemma WaitingIsKnown(s: State, id: string)
    requires Inv(s) && id in s.waiting
    ensures s.waiting[id] in s.jobs && InWaiting(s, s.waiting[id]) && s.waiting[id].id == id
  {
  }
}
