/**
 Runs in which jobs enter the way the server lets them in: a whole payload in one step,
 and only if the cycle check accepts it. Such runs never deadlock.
 */
module DagRuns {
  import opened Prelude
  import opened Jobs
  import opened Graphs
  import opened SchedulerModel
  import opened Invariants
  import opened Runs
  import opened Liveness
  import opened WaitingRoom
  import opened CycleCheck

  datatype DagEvent = SubmitDag(dag: seq<Job>) | Other(event: Event)

  ghost function AdmitAll(s: State, dag: seq<Job>): State
  {
    if dag == [] then s
    else Admit(AdmitAll(s, dag[..|dag| - 1]), dag[|dag| - 1], NEW_JOB_STATE)
  }

  /** parseAndSubmitDAG, once the jobs are parsed. */
  ghost function SubmitPayload(s: State, dag: seq<Job>): State
  {
    if Cyclic(PayloadGraph(dag)) then s else AdmitAll(s, dag)
  }

  ghost predicate NewName(s: State, id: string)
  {
    id !in s.log.owner && id !in s.log.cancelled
  }

  /** A submitted job that can still release its children: held somewhere, not completed, not cancelled. */
  ghost predicate StillHeld(s: State, id: string)
  {
    && id in s.log.owner && s.log.owner[id] in s.jobs && Places(s, s.log.owner[id]) > 0
    && id !in s.log.cancelled && id !in s.log.completed
  }

  /** Fresh, distinct ids; each job names its parents once, and they are in the payload or still held. */
  ghost predicate WholeDag(s: State, dag: seq<Job>)
  {
    && (forall i, k :: 0 <= i < k < |dag| ==> dag[i].id != dag[k].id)
    && (forall i :: 0 <= i < |dag| ==> dag[i] !in s.jobs && NewName(s, dag[i].id))
    && (forall i :: 0 <= i < |dag| ==> Distinct(dag[i].deps))
    && (forall i, d :: 0 <= i < |dag| && d in dag[i].deps ==> d in Ids(dag) || StillHeld(s, d))
  }

  ghost predicate DagMoves(s: State, e: DagEvent, t: State)
  {
    match e
    case SubmitDag(dag) => WholeDag(s, dag) && t == SubmitPayload(s, dag)
    case Other(event) => !event.SubmitEvent? && Moves(s, event, t)
  }

  ghost predicate DagMovesAt(states: seq<State>, events: seq<DagEvent>, i: nat)
    requires |states| == |events| + 1 && i < |events|
  {
    DagMoves(states[i], events[i], states[i + 1])
  }

  ghost predicate DagRun(states: seq<State>, events: seq<DagEvent>)
  {
    && |states| == |events| + 1 && Booted(states[0])
    && forall i :: 0 <= i < |events| ==> DagMovesAt(states, events, i)
  }

  // ----- the graph of everything submitted -----

  predicate WholeFamily(owner: map<string, Job>, id: string)
    requires id in owner
  {
    Distinct(owner[id].deps) && forall d :: d in owner[id].deps ==> d in owner
  }

  ghost predicate Families(owner: map<string, Job>)
  {
    (forall id {:trigger WholeFamily(owner, id)} :: id in owner ==> WholeFamily(owner, id))
    && !Cyclic(DepGraph(owner))
  }

  /** The graph grows by a payload that does not touch what was there. */
  ghost predicate Grown(before: map<string, Job>, after: map<string, Job>, dag: seq<Job>)
  {
    && after.Keys == before.Keys + Ids(dag)
    && before.Keys !! Ids(dag)
    && (forall id :: id in before ==> after[id] == before[id])
    && (forall i :: 0 <= i < |dag| ==> after[dag[i].id] == dag[i])
  }

  lemma WalkInside(big: Graph, small: Graph, closed: set<string>, p: seq<string>, a: string)
    requires WalkBetween(big, p, a, a) && a in closed && DependencyClosed(big, closed)
    requires forall x, y :: x in closed && Edge(big, x, y) ==> Edge(small, x, y)
    ensures Cyclic(small)
  {
    forall i | 0 <= i < |p| - 1
      ensures Edge(small, p[i], p[i + 1])
    {
      WalkStaysClosed(big, closed, p, i);
      assert Edge(big, p[i], p[i + 1]);
    }
    assert WalkBetween(small, p, a, a);
    assert DependsOn(small, a, a);
  }

  lemma OldEdges(before: map<string, Job>, after: map<string, Job>, dag: seq<Job>, x: string, y: string)
    requires Families(before) && Grown(before, after, dag) && x in before && Edge(DepGraph(after), x, y)
    ensures y in before && Edge(DepGraph(before), x, y)
  {
    assert WholeFamily(before, x);
  }

  /** Every parent is in the payload or was there before. */
  ghost predicate ParentsKnown(before: map<string, Job>, dag: seq<Job>)
  {
    forall i, d :: 0 <= i < |dag| && d in dag[i].deps ==> d in Ids(dag) || d in before
  }

  lemma NewEdges(before: map<string, Job>, after: map<string, Job>, dag: seq<Job>, x: string, y: string)
    requires Grown(before, after, dag) && x in Ids(dag) && y in Ids(dag) && Edge(DepGraph(after), x, y)
    ensures Edge(PayloadGraph(dag), x, y)
  {
  }

  /** A walk that comes back to the payload has never left it. */
  lemma {:induction false} WalkStaysNew(before: map<string, Job>, after: map<string, Job>, dag: seq<Job>,
      p: seq<string>, i: nat)
    requires Families(before) && Grown(before, after, dag) && IsWalk(DepGraph(after), p) && i < |p|
    requires p[|p| - 1] in Ids(dag)
    ensures p[i] in Ids(dag)
    decreases |p| - i
  {
    if i < |p| - 1 {
      WalkStaysNew(before, after, dag, p, i + 1);
      assert Edge(DepGraph(after), p[i], p[i + 1]);
      if p[i] in before {
        OldEdges(before, after, dag, p[i], p[i + 1]);
      }
    }
  }

  lemma CycleInPayload(before: map<string, Job>, after: map<string, Job>, dag: seq<Job>, p: seq<string>, a: string)
    requires Families(before) && Grown(before, after, dag) && WalkBetween(DepGraph(after), p, a, a) && a in Ids(dag)
    ensures Cyclic(PayloadGraph(dag))
  {
    hide Families, Grown, DepGraph, PayloadGraph, Cyclic;
    forall i | 0 <= i < |p| - 1
      ensures Edge(PayloadGraph(dag), p[i], p[i + 1])
    {
      assert Edge(DepGraph(after), p[i], p[i + 1]);
      WalkStaysNew(before, after, dag, p, i);
      WalkStaysNew(before, after, dag, p, i + 1);
      NewEdges(before, after, dag, p[i], p[i + 1]);
    }
    assert WalkBetween(PayloadGraph(dag), p, a, a);
    assert DependsOn(PayloadGraph(dag), a, a);
    CycleOf(PayloadGraph(dag), a);
  }

  lemma CycleOf(g: Graph, a: string)
    requires DependsOn(g, a, a)
    ensures Cyclic(g)
  {
  }

  /** What was there before depends only on what was there before, so it closes no new circle. */
  lemma NoCycleAmongOld(before: map<string, Job>, after: map<string, Job>, dag: seq<Job>, p: seq<string>, a: string)
    requires Families(before) && Grown(before, after, dag) && a in before
    ensures !WalkBetween(DepGraph(after), p, a, a)
  {
    var g := DepGraph(after);
    forall x, y | x in before && Edge(g, x, y)
      ensures y in before && Edge(DepGraph(before), x, y)
    {
      OldEdges(before, after, dag, x, y);
    }
    if WalkBetween(g, p, a, a) {
      WalkInside(g, DepGraph(before), before.Keys, p, a);
    }
  }

  lemma GrownAcyclic(before: map<string, Job>, after: map<string, Job>, dag: seq<Job>)
    requires Families(before) && Grown(before, after, dag) && !Cyclic(PayloadGraph(dag))
    ensures !Cyclic(DepGraph(after))
  {
    var g := DepGraph(after);
    if Cyclic(g) {
      var a :| DependsOn(g, a, a);
      var p :| WalkBetween(g, p, a, a);
      assert Edge(g, p[0], p[1]);
      if a in before {
        NoCycleAmongOld(before, after, dag, p, a);
      } else {
        CycleInPayload(before, after, dag, p, a);
      }
    }
  }

  lemma GrownFamilies(before: map<string, Job>, after: map<string, Job>, dag: seq<Job>)
    requires Families(before) && Grown(before, after, dag) && !Cyclic(PayloadGraph(dag))
    requires (forall i :: 0 <= i < |dag| ==> Distinct(dag[i].deps)) && ParentsKnown(before, dag)
    ensures Families(after)
  {
    GrownAcyclic(before, after, dag);
    forall id | id in after
      ensures WholeFamily(after, id)
    {
      if id in before {
        assert WholeFamily(before, id);
      } else {
        var i :| 0 <= i < |dag| && dag[i].id == id;
        assert after[dag[i].id] == dag[i];
      }
    }
  }

  // ----- one payload -----

  /**
   A member of a payload that is being submitted, or a parent of one: not cancelled, not completed,
   held once admitted.
   */
  ghost predicate Arriving(s: State, id: string)
  {
    && id !in s.log.cancelled && id !in s.log.completed
    && (id in s.log.owner ==> s.log.owner[id] in s.jobs && Places(s, s.log.owner[id]) > 0)
  }

  lemma AdmittedIsHeld(s: State, j: Job)
    requires Shape(s) && j !in s.jobs && NewName(s, j.id)
    ensures Places(Admit(s, j, NEW_JOB_STATE), j) > 0
  {
  }

  lemma AdmitWaits(s: State, j: Job)
    requires Inv(s) && Waits(s) && j !in s.jobs && NewName(s, j.id)
    requires forall d :: d in j.deps ==> Arriving(s, d)
    ensures Waits(Admit(s, j, NEW_JOB_STATE))
  {
    var t := Admit(s, j, NEW_JOB_STATE);
    AdmittedIsHeld(s, j);
    forall c, d | c in t.jobs && InWaiting(t, c) && Parent(c, d)
      ensures WaitOk(t, {}, {}, c, d)
    {
      if c != j {
        assert c.id != j.id;
        assert WaitOk(s, {}, {}, c, d);
      }
      if d != j.id && d in s.log.owner {
        SubmitFrame(s, j, s.log.owner[d]);
      }
      hide Ready;
    }
  }

  lemma StillArriving(s: State, j: Job, id: string)
    requires Inv(s) && j !in s.jobs && NewName(s, j.id) && Arriving(s, id)
    ensures Arriving(Admit(s, j, NEW_JOB_STATE), id)
  {
  }

  /** The members of a payload and their parents. */
  predicate Concerned(dag: seq<Job>, id: string)
  {
    id in Ids(dag) || exists i :: 0 <= i < |dag| && id in dag[i].deps
  }

  /** After the first n jobs of the payload. */
  ghost predicate Admitted(s: State, t: State, dag: seq<Job>, n: nat)
    requires n <= |dag|
  {
    && Inv(t) && Waits(t)
    && Grown(s.log.owner, t.log.owner, dag[..n])
    && t.log.cancelled == s.log.cancelled
    && (forall id :: Concerned(dag, id) ==> Arriving(t, id))
    && (forall i :: n <= i < |dag| ==> dag[i] !in t.jobs && NewName(t, dag[i].id))
  }

  lemma GrowsNext(s: State, t: State, dag: seq<Job>, n: nat)
    requires n < |dag| && WholeDag(s, dag) && Grown(s.log.owner, t.log.owner, dag[..n])
    requires NewName(t, dag[n].id)
    ensures Grown(s.log.owner, Admit(t, dag[n], NEW_JOB_STATE).log.owner, dag[..n + 1])
  {
    assert dag[..n + 1] == dag[..n] + [dag[n]];
    assert Ids(dag[..n + 1]) == Ids(dag[..n]) + {dag[n].id};
    assert dag[n].id !in s.log.owner;
  }

  lemma AdmitNext(s: State, t: State, dag: seq<Job>, n: nat)
    requires n < |dag| && WholeDag(s, dag) && Admitted(s, t, dag, n)
    ensures Admitted(s, Admit(t, dag[n], NEW_JOB_STATE), dag, n + 1)
  {
    var j := dag[n];
    var u := Admit(t, j, NEW_JOB_STATE);
    assert u.jobs.Keys == t.jobs.Keys + {j} && u.log.owner.Keys == t.log.owner.Keys + {j.id};
    assert u.log.cancelled == t.log.cancelled;
    hide Admit, Inv, WaitsBut, Arriving, Ready;
    forall id | Concerned(dag, id)
      ensures Arriving(u, id)
    {
      StillArriving(t, j, id);
    }
    assert forall d :: d in j.deps ==> Concerned(dag, d);
    hide Concerned;
    GrowsNext(s, t, dag, n);
    SubmitKeeps(t, j);
    AdmitWaits(t, j);
    hide Grown, Ids;
    forall i | n + 1 <= i < |dag|
      ensures dag[i] !in u.jobs && NewName(u, dag[i].id)
    {
      assert dag[i].id != j.id;
    }
  }

  lemma {:induction false} AdmitAllKeeps(s: State, dag: seq<Job>, n: nat)
    requires n <= |dag| && WholeDag(s, dag) && Inv(s) && Waits(s)
    ensures Admitted(s, AdmitAll(s, dag[..n]), dag, n)
  {
    hide Admit, Admitted;
    if n == 0 {
      AdmitNone(s, dag);
    } else {
      AdmitAllKeeps(s, dag, n - 1);
      AdmitNext(s, AdmitAll(s, dag[..n - 1]), dag, n - 1);
      assert dag[..n][..n - 1] == dag[..n - 1];
    }
  }

  lemma AdmitNone(s: State, dag: seq<Job>)
    requires WholeDag(s, dag) && Inv(s) && Waits(s)
    ensures Admitted(s, s, dag, 0)
  {
    forall id | Concerned(dag, id)
      ensures Arriving(s, id)
    {
      ConcernedArrives(s, dag, id);
    }
    hide Concerned, Arriving, Inv, Waits;
  }

  lemma ConcernedArrives(s: State, dag: seq<Job>, id: string)
    requires WholeDag(s, dag) && Inv(s) && Concerned(dag, id)
    ensures Arriving(s, id)
  {
    if id in Ids(dag) {
      var i :| 0 <= i < |dag| && dag[i].id == id;
      assert NewName(s, dag[i].id);
    }
  }

  ghost predicate DagInv(s: State)
  {
    Inv(s) && Waits(s) && Families(s.log.owner)
  }

  lemma PayloadKeeps(s: State, dag: seq<Job>)
    requires DagInv(s) && WholeDag(s, dag)
    ensures DagInv(SubmitPayload(s, dag))
  {
    hide Inv, Waits, Families, Cyclic;
    if !Cyclic(PayloadGraph(dag)) {
      AdmitAllKeeps(s, dag, |dag|);
      assert dag[..|dag|] == dag;
      assert ParentsKnown(s.log.owner, dag);
      GrownFamilies(s.log.owner, AdmitAll(s, dag).log.owner, dag);
    }
  }

  // ----- other steps submit nothing new -----

  lemma CompleteOwner(s: State, j: Job, worker: Option<int>, alive: set<int>)
    requires OwnedIn(s.waiting, s.log.owner)
    ensures Complete(s, j, worker, alive).log.owner == s.log.owner
  {
  }

  lemma FailOwner(s: State, j: Job)
    requires j in s.jobs
    ensures Fail(s, j).log.owner == s.log.owner
  {
  }

  lemma ReplyOwner(s: State, j: Job, worker: int, reply: Reply, alive: set<int>)
    requires j in s.jobs && OwnedIn(s.waiting, s.log.owner)
    ensures HandleReply(s, j, worker, reply, alive).log.owner == s.log.owner
  {
    var t := TakeBack(s, j.id);
    assert t.log == s.log && Abandon(t, j).log == s.log;
    hide Complete, Fail, NonRecoverable, TakeBack, Abandon;
    match reply {
      case Accepted =>
      case Finished(_) => CompleteOwner(s, j, Some(worker), alive);
      case Failed(message) => FailOwner(t, j);
    }
  }

  lemma DispatchOwner(s: State, j: Job, target: Option<int>, reply: Reply, alive: set<int>)
    requires j in s.jobs && OwnedIn(s.waiting, s.log.owner)
    ensures Dispatch(s, j, target, reply, alive).log.owner == s.log.owner
  {
    hide HandleReply;
    if target.Some? {
      var t := HandOver(s, j, target.value);
      assert t.waiting == s.waiting && t.log.owner == s.log.owner;
      HandOverJobs(s, j, target.value);
      ReplyOwner(t, j, target.value, reply, alive);
      hide HandOver;
    }
  }

  lemma CallbackOwner(s: State, id: string, ok: bool, alive: set<int>)
    requires id in s.running ==> s.running[id] in s.jobs
    requires OwnedIn(s.waiting, s.log.owner)
    ensures Callback(s, id, ok, alive).log.owner == s.log.owner
  {
    hide Complete, Fail;
    if id in s.running && id in s.history {
      CompleteOwner(Collect(s, id), s.running[id], s.history[id].worker, alive);
      FailOwner(TakeBack(s, id), s.running[id]);
    }
  }

  lemma StepOwner(s: State, e: Event)
    requires Shape(s) && Consistent(s) && Enabled(s, e) && !e.SubmitEvent?
    ensures Step(s, e).log.owner == s.log.owner
  {
    hide Dispatch, Callback, Doomed;
    match e {
      case DispatchEvent(j, target, reply, alive) => DispatchOwner(s, j, target, reply, alive);
      case CallbackEvent(id, ok, alive) => CallbackOwner(s, id, ok, alive);
      case _ =>
    }
  }

  lemma {:induction false} DagRunKeeps(states: seq<State>, events: seq<DagEvent>, i: nat)
    requires DagRun(states, events) && i < |states|
    ensures DagInv(states[i])
  {
    hide Inv, Waits, Families, Step, Consistent, Enabled, SubmitPayload, WholeDag;
    if i == 0 {
      BootDagInv(states[0]);
    } else {
      DagRunKeeps(states, events, i - 1);
      assert DagMovesAt(states, events, i - 1);
      var s := states[i - 1];
      match events[i - 1] {
        case SubmitDag(dag) => PayloadKeeps(s, dag);
        case Other(e) =>
          InvShape(s);
          StepKeeps(s, e);
          StepWaits(s, e);
          StepOwner(s, e);
      }
    }
  }

  lemma BootDagInv(s: State)
    requires Booted(s)
    ensures DagInv(s)
  {
    var g := DepGraph(s.log.owner);
    forall id | id in s.log.owner
      ensures s.log.owner[id].deps == []
    {
      assert s.jobs[s.log.owner[id]] == NEW_JOB_STATE;
    }
    if Cyclic(g) {
      var a :| DependsOn(g, a, a);
      var p :| WalkBetween(g, p, a, a);
      FirstStep(g, p, a, a);
    }
  }

  // ----- at rest -----

  /** d was given up without retries and without a cascade. */
  ghost predicate Abandoned(s: State, d: string)
  {
    d in s.log.owner && s.log.owner[d] in s.jobs && s.jobs[s.log.owner[d]].status == FAILED
  }

  ghost predicate BelowAbandoned(s: State, id: string)
  {
    exists d :: DependsOn(WaitGraph(s.waiting), id, d) && Abandoned(s, d)
  }

  lemma WaitingParent(s: State, id: string) returns (d: string)
    requires DagInv(s) && Quiescent(s) && id in s.waiting
    ensures Edge(WaitGraph(s.waiting), id, d) && (d in s.waiting || Abandoned(s, d))
  {
    var c := s.waiting[id];
    OwnerOf(s, c);
    assert WholeFamily(s.log.owner, id);
    ReadyMeansAllSatisfied(c, s.jobs[c].satisfied);
    d :| d in c.deps && d !in s.jobs[c].satisfied;
    assert Parent(c, d);
    assert WaitOk(s, {}, {}, c, d);
    var p := s.log.owner[d];
    OwnerOf(s, p);
  }

  /** At rest, whoever still waits is a transitive dependent of an abandoned job. */
  lemma WaitersAreBelowAbandoned(states: seq<State>, events: seq<DagEvent>, i: nat)
    requires DagRun(states, events) && i < |states| && Quiescent(states[i])
    ensures forall id :: id in states[i].waiting ==> BelowAbandoned(states[i], id)
  {
    var s := states[i];
    DagRunKeeps(states, events, i);
    AtRest(s);
  }

  lemma StuckWaiter(s: State, id: string) returns (d: string)
    requires DagInv(s) && Quiescent(s) && id in s.waiting && !BelowAbandoned(s, id)
    ensures Edge(WaitGraph(s.waiting), id, d) && d in s.waiting && !BelowAbandoned(s, d)
  {
    var g := WaitGraph(s.waiting);
    d := WaitingParent(s, id);
    EdgeDepends(g, id, d);
    hide DagInv, Quiescent, DependsOn, WaitGraph;
    assert !Abandoned(s, d);
    if BelowAbandoned(s, d) {
      var e :| DependsOn(g, d, e) && Abandoned(s, e);
      DependsTransitive(g, id, d, e);
    }
  }

  lemma AtRest(s: State)
    requires DagInv(s) && Quiescent(s)
    ensures forall id :: id in s.waiting ==> BelowAbandoned(s, id)
  {
    var g := WaitGraph(s.waiting);
    WaitGraphIsSub(s);
    SubgraphAcyclic(g, DepGraph(s.log.owner));
    hide DagInv, Quiescent, BelowAbandoned, Cyclic;
    var stuck := set id | id in s.waiting && !BelowAbandoned(s, id);
    forall id | id in stuck
      ensures HasParentIn(g, stuck, id)
    {
      var d := StuckWaiter(s, id);
    }
    if stuck != {} {
      StuckSetIsCyclic(g, stuck);
    }
    forall id | id in s.waiting
      ensures BelowAbandoned(s, id)
    {
      assert id !in stuck;
    }
  }

  lemma WaitGraphIsSub(s: State)
    requires DagInv(s)
    ensures Subgraph(WaitGraph(s.waiting), DepGraph(s.log.owner)) && !Cyclic(DepGraph(s.log.owner))
  {
  }

  // ----- abandonment, and runs in which nobody waits for an abandoned job -----

  predicate IsWorkerJob(id: string)
  {
    WORKER_PREFIX <= id
  }

  /** No reply forbids a retry, except on the auto-scaler's own jobs, which never get one. */
  ghost predicate Benign(e: Event)
  {
    e.DispatchEvent? && e.reply.Failed? && NonRecoverable(e.reply.message) ==> IsWorkerJob(e.job.id)
  }

  predicate NoWorkerParent(j: Job)
  {
    forall d :: d in j.deps ==> !IsWorkerJob(d)
  }

  /** Nobody waits for an auto-scaler job; they may be among the payload, under any id. */
  predicate NoWorkerParents(dag: seq<Job>)
  {
    forall i :: 0 <= i < |dag| ==> NoWorkerParent(dag[i])
  }

  ghost predicate JobUntroubled(s: State, j: Job)
    requires j in s.jobs
  {
    NoWorkerParent(j) && (s.jobs[j].status == FAILED ==> IsWorkerJob(j.id))
  }

  /** Only auto-scaler jobs are abandoned, and nobody lists them. */
  ghost predicate Untroubled(s: State)
  {
    forall j {:trigger JobUntroubled(s, j)} {:trigger s.jobs[j]} :: j in s.jobs ==> JobUntroubled(s, j)
  }

  lemma MarkUntroubled(s: State, j: Job, worker: Option<int>, parent: string, alive: set<int>)
    requires Untroubled(s)
    ensures Untroubled(MarkCompleted(s, j, worker))
    ensures Untroubled(Pin(s, parent, worker, alive))
  {
  }

  lemma UnlockUntroubled(s: State, parent: string)
    requires Untroubled(s)
    ensures Untroubled(Unlock(s, parent))
  {
  }

  lemma CompleteUntroubled(s: State, j: Job, worker: Option<int>, alive: set<int>)
    requires Untroubled(s)
    ensures Untroubled(Complete(s, j, worker, alive))
  {
    hide Untroubled, MarkCompleted, Pin, Unlock;
    MarkUntroubled(s, j, worker, j.id, alive);
    var t := MarkCompleted(s, j, worker);
    MarkUntroubled(t, j, worker, j.id, alive);
    UnlockUntroubled(Pin(t, j.id, worker, alive), j.id);
  }

  lemma CascadeUntroubled(s: State, parent: string)
    requires Untroubled(s)
    ensures Untroubled(Cascade(s, parent))
  {
  }

  lemma FailUntroubled(s: State, j: Job)
    requires Untroubled(s) && j in s.jobs
    ensures Untroubled(Fail(s, j))
  {
    assert JobUntroubled(s, j);
    if j.id !in s.cancelled && !IsWorkerJob(j.id) && s.jobs[j].retries + 1 > MAX_RETRIES {
      assert Untroubled(Exhaust(s, j));
      hide Exhaust, Cascade, Untroubled;
      CascadeUntroubled(Exhaust(s, j), j.id);
    }
  }

  lemma HandleReplyUntroubled(s: State, j: Job, worker: int, reply: Reply, alive: set<int>)
    requires Untroubled(s) && j in s.jobs && (reply.Failed? && NonRecoverable(reply.message) ==> IsWorkerJob(j.id))
    ensures Untroubled(HandleReply(s, j, worker, reply, alive))
  {
    assert Untroubled(TakeBack(s, j.id));
    hide Complete, Fail, NonRecoverable, Untroubled;
    CompleteUntroubled(s, j, Some(worker), alive);
    FailUntroubled(TakeBack(s, j.id), j);
  }

  lemma DispatchUntroubled(s: State, j: Job, target: Option<int>, reply: Reply, alive: set<int>)
    requires Untroubled(s) && j in s.jobs && (reply.Failed? && NonRecoverable(reply.message) ==> IsWorkerJob(j.id))
    ensures Untroubled(Dispatch(s, j, target, reply, alive))
  {
    if target.Some? {
      var t := HandOver(s, j, target.value);
      assert Untroubled(t) && j in t.jobs;
      hide HandOver, HandleReply, Untroubled;
      HandleReplyUntroubled(t, j, target.value, reply, alive);
    }
  }

  lemma CallbackUntroubled(s: State, id: string, ok: bool, alive: set<int>)
    requires Untroubled(s) && (id in s.running ==> s.running[id] in s.jobs)
    ensures Untroubled(Callback(s, id, ok, alive))
  {
    hide Complete, Fail;
    if id !in s.cancelled && id in s.running && id in s.history {
      var t, u := Collect(s, id), TakeBack(s, id);
      assert Untroubled(t) && Untroubled(u);
      hide Collect, TakeBack, Untroubled;
      if ok {
        CompleteUntroubled(t, s.running[id], s.history[id].worker, alive);
      } else {
        FailUntroubled(u, s.running[id]);
      }
    }
  }

  lemma CancelUntroubled(s: State, id: string)
    requires Untroubled(s)
    ensures Untroubled(Cancel(s, id))
  {
    assert Untroubled(Withdraw(s, id));
    hide Withdraw, Cascade, Untroubled;
    CascadeUntroubled(Withdraw(s, id), id);
  }

  lemma StepUntroubled(s: State, e: Event)
    requires Untroubled(s) && Consistent(s) && Enabled(s, e) && !e.SubmitEvent? && Benign(e)
    ensures Untroubled(Step(s, e))
  {
    hide Dispatch, Callback, Cancel, NonRecoverable;
    match e {
      case DispatchEvent(j, target, reply, alive) => DispatchUntroubled(s, j, target, reply, alive);
      case CallbackEvent(id, ok, alive) => CallbackUntroubled(s, id, ok, alive);
      case CancelEvent(id) => CancelUntroubled(s, id);
      case _ =>
    }
  }

  lemma {:induction false} AdmitAllUntroubled(s: State, dag: seq<Job>)
    requires Untroubled(s) && NoWorkerParents(dag)
    ensures Untroubled(AdmitAll(s, dag))
  {
    if dag != [] {
      var last := |dag| - 1;
      AdmitAllUntroubled(s, dag[..last]);
      assert NoWorkerParent(dag[last]);
      assert Untroubled(AdmitAll(s, dag));
    }
  }

  /** A payload in which nobody waits for an auto-scaler job, or an event that leaves the others their retries. */
  ghost predicate GoodEvent(e: DagEvent)
  {
    match e
    case SubmitDag(dag) => NoWorkerParents(dag)
    case Other(event) => Benign(event)
  }

  lemma {:induction false} GoodRunUntroubled(states: seq<State>, events: seq<DagEvent>, i: nat)
    requires DagRun(states, events) && i < |states|
    requires forall k :: 0 <= k < |events| ==> GoodEvent(events[k])
    ensures Untroubled(states[i])
  {
    hide Step, Consistent, Enabled, AdmitAll, WholeDag, Untroubled, Benign, Cyclic, NoWorkerParents;
    if i == 0 {
      BootUntroubled(states[0]);
    } else {
      GoodRunUntroubled(states, events, i - 1);
      assert DagMovesAt(states, events, i - 1);
      assert GoodEvent(events[i - 1]);
      match events[i - 1] {
        case SubmitDag(dag) => AdmitAllUntroubled(states[i - 1], dag);
        case Other(e) => StepUntroubled(states[i - 1], e);
      }
    }
  }

  lemma BootUntroubled(s: State)
    requires Booted(s)
    ensures Untroubled(s)
  {
  }

  lemma AwaitedIsNoWorker(s: State, id: string, d: string)
    requires Inv(s) && Untroubled(s) && DependsOn(WaitGraph(s.waiting), id, d)
    ensures !IsWorkerJob(d)
  {
    var g := WaitGraph(s.waiting);
    var p :| WalkBetween(g, p, id, d);
    assert Edge(g, p[|p| - 2], p[|p| - 1]);
    assert JobUntroubled(s, s.waiting[p[|p| - 2]]);
  }

  lemma AbandonedIsWorker(s: State, d: string)
    requires Inv(s) && Untroubled(s) && Abandoned(s, d)
    ensures IsWorkerJob(d)
  {
    assert JobUntroubled(s, s.log.owner[d]);
  }

  lemma NobodyBelowAbandoned(s: State, id: string)
    requires Inv(s) && Untroubled(s)
    ensures !BelowAbandoned(s, id)
  {
    hide Inv, Untroubled, DependsOn, WaitGraph, Abandoned;
    forall d | DependsOn(WaitGraph(s.waiting), id, d)
      ensures !Abandoned(s, d)
    {
      AwaitedIsNoWorker(s, id, d);
      if Abandoned(s, d) {
        AbandonedIsWorker(s, d);
      }
    }
  }

  /** Nothing more will be done for j: it completed, died, was cancelled, or is an auto-scaler job that failed. */
  ghost predicate Concluded(s: State, j: Job)
    requires j in s.jobs
  {
    var status := s.jobs[j].status;
    status == COMPLETED || status == DEAD || j.id in s.log.cancelled || (status == FAILED && IsWorkerJob(j.id))
  }

  /**
   Deadlock freedom, over any mix of payloads, single jobs and auto-scaler jobs. When payloads
   pass the cycle check, nobody lists an auto-scaler job as a parent, and no reply forbids
   another job its retry, then whatever else happens - cancellations, lost, late and repeated
   callbacks - a scheduler at rest has an empty waiting room, and every job it ever accepted
   is concluded.
   */
  lemma NeverDeadlocks(states: seq<State>, events: seq<DagEvent>, i: nat)
    requires DagRun(states, events) && i < |states| && Quiescent(states[i])
    requires forall k :: 0 <= k < |events| ==> GoodEvent(events[k])
    ensures states[i].waiting == map[]
    ensures forall j {:trigger Concluded(states[i], j)} :: j in states[i].jobs ==> Concluded(states[i], j)
  {
    var s := states[i];
    DagRunKeeps(states, events, i);
    GoodRunUntroubled(states, events, i);
    hide DagRun;
    AtRest(s);
    forall id | id in s.waiting
      ensures false
    {
      NobodyBelowAbandoned(s, id);
    }
    forall j | j in s.jobs
      ensures Concluded(s, j)
    {
      OwnerOf(s, j);
      assert JobUntroubled(s, j);
    }
  }
}
