/**
 The master's scheduler, with the fields it updates in place. Each handler is proved to
 take exactly the step of the same name in the state machine.
 */
module Scheduling {
  import opened Prelude
  import opened Jobs
  import opened Graphs
  import opened SchedulerModel
  import opened Invariants
  import opened Runs
  import opened Recovery
  import opened Callbacks
  import opened Workers
  import opened Requirements
  import Text

  // ----- one turn of each loop, on values -----

  ghost function TickOff(s: State, j: Job, parent: string): State
    requires j in s.jobs
  {
    s.(jobs := s.jobs[j := s.jobs[j].(satisfied := s.jobs[j].satisfied + {parent})])
  }

  ghost function Leave(s: State, id: string): State
  {
    s.(waiting := s.waiting - {id})
  }

  lemma VisitKeepsJob(s: State, parent: string, among: set<string>, id: string)
    requires KnownWaiting(s) && id in s.waiting && id !in among
    ensures var j := s.waiting[id]; var a := UnlockSome(s, parent, among);
      j in a.jobs && a.jobs[j] == s.jobs[j] && id in a.waiting && a.waiting[id] == j && a.now == s.now
  {
  }

  /** A visit that does not make its job ready moves nobody. */
  lemma UnlockedSame(s: State, parent: string, among: set<string>, id: string)
    requires KnownWaiting(s) && id in s.waiting && id !in among
    requires parent in s.waiting[id].deps ==> !Ready(s.waiting[id], s.jobs[s.waiting[id]].satisfied + {parent})
    ensures UnlockedIds(s, parent, among + {id}) == UnlockedIds(s, parent, among)
    ensures forall soon :: UnlockedJobs(s, parent, among + {id}, soon) == UnlockedJobs(s, parent, among, soon)
  {
  }

  lemma UnlockSkip(s: State, parent: string, among: set<string>, id: string)
    requires KnownWaiting(s) && id in s.waiting && id !in among && parent !in s.waiting[id].deps
    ensures UnlockSome(s, parent, among + {id}) == UnlockSome(s, parent, among)
  {
    UnlockedSame(s, parent, among, id);
    forall j | j in s.jobs
      ensures Kid(s, parent, among + {id}, j) <==> Kid(s, parent, among, j)
    {
    }
    hide UnlockedIds, UnlockedJobs, PersistAll, Kid;
  }

  lemma MoveJobs(s: State, parent: string, among: set<string>, id: string)
    requires KnownWaiting(s) && id in s.waiting && id !in among && parent in s.waiting[id].deps
    requires s.waiting[id] in UnlockSome(s, parent, among).jobs
    ensures UnlockSome(s, parent, among + {id}).jobs ==
      TickOff(UnlockSome(s, parent, among), s.waiting[id], parent).jobs
  {
    hide UnlockedIds, UnlockedJobs, Unlocks, PersistAll, Ready;
  }

  lemma UnlockTick(s: State, parent: string, among: set<string>, id: string)
    requires KnownWaiting(s) && id in s.waiting && id !in among && parent in s.waiting[id].deps
    requires !Ready(s.waiting[id], s.jobs[s.waiting[id]].satisfied + {parent})
    requires s.waiting[id] in UnlockSome(s, parent, among).jobs
    ensures UnlockSome(s, parent, among + {id}) == TickOff(UnlockSome(s, parent, among), s.waiting[id], parent)
  {
    UnlockedSame(s, parent, among, id);
    MoveJobs(s, parent, among, id);
    hide UnlockedIds, UnlockedJobs, PersistAll, Kid, Ready;
  }

  lemma UnlockedGrow(s: State, parent: string, among: set<string>, id: string)
    requires KnownWaiting(s) && id in s.waiting && id !in among && parent in s.waiting[id].deps
    requires Ready(s.waiting[id], s.jobs[s.waiting[id]].satisfied + {parent})
    ensures var j := s.waiting[id]; var soon := j.due - s.now <= 0;
      UnlockedIds(s, parent, among + {id}) == UnlockedIds(s, parent, among) + {id} &&
      UnlockedJobs(s, parent, among + {id}, soon) == UnlockedJobs(s, parent, among, soon) + {j} &&
      UnlockedJobs(s, parent, among + {id}, !soon) == UnlockedJobs(s, parent, among, !soon) &&
      j !in UnlockedJobs(s, parent, among, soon) && id !in UnlockedIds(s, parent, among)
  {
  }

  lemma PersistOneMore(store: Store, waiting: map<string, Job>, ids: set<string>, id: string)
    requires ids <= waiting.Keys && id in waiting && id !in ids && waiting[id].id == id
    ensures PersistAll(store, waiting, ids + {id}) == Persist(PersistAll(store, waiting, ids), waiting[id])
  {
  }

  lemma OwnOneMore(owner: map<string, Job>, waiting: map<string, Job>, ids: set<string>, id: string)
    requires ids <= waiting.Keys && id in waiting && id !in ids
    ensures owner + (map x | x in ids + {id} :: waiting[x]) ==
      (owner + map x | x in ids :: waiting[x])[id := waiting[id]]
  {
  }

  lemma CountOneMore(js: set<Job>, j: Job)
    requires j !in js
    ensures multiset(js + {j}) == multiset(js) + multiset{j}
  {
  }

  lemma MoveRooms(s: State, parent: string, among: set<string>, id: string)
    requires KnownWaiting(s) && id in s.waiting && id !in among && parent in s.waiting[id].deps
    requires Ready(s.waiting[id], s.jobs[s.waiting[id]].satisfied + {parent})
    ensures var j := s.waiting[id]; var soon := j.due - s.now <= 0;
      var a := UnlockSome(s, parent, among); var b := UnlockSome(s, parent, among + {id});
      b.waiting == a.waiting - {id} && b.log.owner == a.log.owner[j.id := j] && b.store == Persist(a.store, j) &&
      b.queue == (if soon then a.queue + multiset{j} else a.queue) &&
      b.delayed == (if !soon then a.delayed + multiset{j} else a.delayed)
  {
    UnlockedGrow(s, parent, among, id);
    hide UnlockedIds, UnlockedJobs, Unlocks, PersistAll, Persist, Ready, Kid, RecordOf;
    var j, ids := s.waiting[id], UnlockedIds(s, parent, among);
    PersistOneMore(s.store, s.waiting, ids, id);
    OwnOneMore(s.log.owner, s.waiting, ids, id);
    CountOneMore(UnlockedJobs(s, parent, among, j.due - s.now <= 0), j);
    assert s.waiting - (ids + {id}) == s.waiting - ids - {id};
  }

  lemma UnlockMove(s: State, parent: string, among: set<string>, id: string)
    requires KnownWaiting(s) && id in s.waiting && id !in among && parent in s.waiting[id].deps
    requires Ready(s.waiting[id], s.jobs[s.waiting[id]].satisfied + {parent})
    requires s.waiting[id] in UnlockSome(s, parent, among).jobs
    ensures var j := s.waiting[id]; var b := TickOff(UnlockSome(s, parent, among), j, parent);
      UnlockSome(s, parent, among + {id}) == Admit(Leave(b, id), j, b.jobs[j])
  {
    hide UnlockedIds, UnlockedJobs, Unlocks, PersistAll, Persist, Ready, RecordOf, Kid;
    VisitKeepsJob(s, parent, among, id);
    MoveJobs(s, parent, among, id);
    MoveRooms(s, parent, among, id);
    var x, y := UnlockSome(s, parent, among), UnlockSome(s, parent, among + {id});
    assert y == x.(jobs := y.jobs, waiting := y.waiting, log := x.log.(owner := y.log.owner),
      store := y.store, queue := y.queue, delayed := y.delayed);
    hide UnlockSome, Persist, Ready;
  }

  ghost function PinTo(s: State, j: Job, worker: int): State
    requires j in s.jobs
  {
    s.(jobs := s.jobs[j := s.jobs[j].(preferred := Some(worker))])
  }

  lemma PinVisit(s: State, parent: string, worker: int, alive: set<int>, among: set<string>, id: string)
    requires KnownWaiting(s) && id in s.waiting && id !in among && worker in alive
    ensures var j := s.waiting[id]; var a := PinSome(s, parent, Some(worker), alive, among);
      j in a.jobs && a.jobs[j] == s.jobs[j] && a.waiting == s.waiting &&
      PinSome(s, parent, Some(worker), alive, among + {id}) ==
        if parent in j.deps && j.affinity && s.jobs[j].preferred == None then PinTo(a, j, worker) else a
  {
  }

  // ----- cancelChildren -----

  /** Whoever waits for a member of `killed` is a member. */
  ghost predicate CascadeClosed(waiting: map<string, Job>, killed: set<string>)
  {
    forall id, d :: id in waiting && d in waiting[id].deps && d in killed ==> id in killed
  }

  /** The waiting children of `parent` are in `killed`, but for those still to be visited. */
  ghost predicate ChildrenIn(waiting: map<string, Job>, parent: string, killed: set<string>, rest: set<string>)
  {
    forall id :: id in waiting && parent in waiting[id].deps && id !in rest ==> id in killed
  }

  lemma KillJobsTwice(s: State, a: set<string>, b: set<string>)
    requires a <= s.waiting.Keys && b <= s.waiting.Keys - a && KnownWaiting(s)
    ensures KillAll(KillAll(s, a), b).jobs == KillAll(s, a + b).jobs
  {
  }

  lemma KillHistoryTwice(history: map<string, Exec>, a: set<string>, b: set<string>)
    ensures history + (map id | id in a :: Exec(None, DEAD)) + (map id | id in b :: Exec(None, DEAD))
      == history + map id | id in a + b :: Exec(None, DEAD)
  {
  }

  lemma KillDeadTwice(s: State, a: set<string>, b: set<string>)
    requires a <= s.waiting.Keys && b <= s.waiting.Keys - a
    ensures KillAll(KillAll(s, a), b).dead == KillAll(s, a + b).dead
  {
  }

  lemma KillTwice(s: State, a: set<string>, b: set<string>)
    requires a <= s.waiting.Keys && b <= s.waiting.Keys - a
    requires KnownWaiting(s)
    ensures KillAll(KillAll(s, a), b) == KillAll(s, a + b)
  {
    var t := KillAll(s, a);
    var x, y := KillAll(t, b), KillAll(s, a + b);
    assert x.waiting == y.waiting;
    KillJobsTwice(s, a, b);
    KillHistoryTwice(s.history, a, b);
    KillDeadTwice(s, a, b);
    hide *;
  }

  lemma KillNone(s: State)
    ensures KillAll(s, {}) == s
  {
  }

  /** After a child and then everything below it is gone, the set of the dead is closed again. */
  lemma CascadeGrows(waiting: map<string, Job>, parent: string, killed: set<string>, id: string)
    requires CascadeClosed(waiting, killed) && killed <= Doomed(waiting, parent)
    requires id in waiting && id !in killed && parent in waiting[id].deps
    ensures var below := Doomed(waiting - (killed + {id}), id);
      CascadeClosed(waiting, killed + {id} + below) && killed + {id} + below <= Doomed(waiting, parent)
  {
    var left := waiting - (killed + {id});
    var below := Doomed(left, id);
    var g := WaitGraph(waiting);
    assert Edge(g, id, parent);
    EdgeDepends(g, id, parent);
    forall k | k in below
      ensures k in Doomed(waiting, parent)
    {
      SubgraphDepends(WaitGraph(left), g, k, id);
      DependsTransitive(g, k, id, parent);
    }
    forall x, d | x in waiting && d in waiting[x].deps && d in killed + {id} + below && x !in killed + {id}
      ensures x in below
    {
      assert Edge(WaitGraph(left), x, d);
      EdgeDepends(WaitGraph(left), x, d);
      if d != id {
        DependsTransitive(WaitGraph(left), x, d, id);
      }
    }
  }

  lemma LastStep(g: Graph, p: seq<string>, a: string, b: string)
    requires WalkBetween(g, p, a, b)
    ensures Edge(g, p[|p| - 2], b)
  {
  }

  /** Nothing is left below a job that is already dead. */
  lemma NothingBelow(waiting: map<string, Job>, killed: set<string>, id: string)
    requires CascadeClosed(waiting, killed) && id in killed
    ensures Doomed(waiting - killed, id) == {}
  {
    var left := waiting - killed;
    forall k | k in Doomed(left, id)
      ensures false
    {
      var g := WaitGraph(left);
      var p :| WalkBetween(g, p, k, id);
      LastStep(g, p, k, id);
    }
  }

  /** When every child has been visited, the dead are the doomed. */
  lemma {:induction false} DoomedIsReached(waiting: map<string, Job>, parent: string, killed: set<string>,
      p: seq<string>, id: string)
    requires CascadeClosed(waiting, killed) && ChildrenIn(waiting, parent, killed, {})
    requires WalkBetween(WaitGraph(waiting), p, id, parent)
    ensures id in killed
    decreases |p|
  {
    FirstStep(WaitGraph(waiting), p, id, parent);
    if |p| > 2 {
      DoomedIsReached(waiting, parent, killed, p[1..], p[1]);
    }
  }

  lemma AllReached(waiting: map<string, Job>, parent: string, killed: set<string>)
    requires CascadeClosed(waiting, killed) && ChildrenIn(waiting, parent, killed, {})
    requires killed <= Doomed(waiting, parent)
    ensures killed == Doomed(waiting, parent)
  {
    forall id | id in Doomed(waiting, parent)
      ensures id in killed
    {
      var p :| WalkBetween(WaitGraph(waiting), p, id, parent);
      DoomedIsReached(waiting, parent, killed, p, id);
    }
  }

  ghost function LogCompletion(log: Log, id: string, worker: Option<int>): Log
  {
    log.(completed := log.completed + {id}, doneOn := log.doneOn + if worker.Some? then {(id, worker.value)} else {})
  }

  /** One job is marked dead and removed from the waiting room. */
  ghost function Bury(s: State, j: Job): State
    requires j in s.jobs
  {
    s.(
      jobs := s.jobs[j := s.jobs[j].(status := DEAD)],
      waiting := s.waiting - {j.id},
      history := s.history[j.id := Exec(None, DEAD)],
      dead := s.dead + {j})
  }

  lemma KilledWaiting(s: State, killed: set<string>)
    requires KnownWaiting(s) && killed <= s.waiting.Keys
    ensures var t := KillAll(s, killed);
      t.waiting == s.waiting - killed && t.jobs.Keys == s.jobs.Keys && KnownWaiting(t)
  {
  }

  lemma BuryOne(s: State, killed: set<string>, j: Job, k: Job)
    requires KnownWaiting(s) && killed <= s.waiting.Keys && j.id in s.waiting && s.waiting[j.id] == j && k in s.jobs
    ensures k in KillAll(s, killed).jobs && k in KillAll(s, killed + {j.id}).jobs
    ensures KillAll(s, killed + {j.id}).jobs[k] ==
      if k == j then KillAll(s, killed).jobs[k].(status := DEAD) else KillAll(s, killed).jobs[k]
  {
  }

  lemma OneEntryDiffers<K, V>(m: map<K, V>, n: map<K, V>, key: K, v: V)
    requires m.Keys == n.Keys && key in m
    requires forall k :: k in m ==> n[k] == if k == key then v else m[k]
    ensures n == m[key := v]
  {
  }

  lemma BuryJobs(s: State, killed: set<string>, j: Job)
    requires KnownWaiting(s) && killed <= s.waiting.Keys && j.id in s.waiting && s.waiting[j.id] == j
    ensures j in KillAll(s, killed).jobs
    ensures KillAll(s, killed).jobs[j := KillAll(s, killed).jobs[j].(status := DEAD)] ==
      KillAll(s, killed + {j.id}).jobs
  {
    KilledWaiting(s, killed);
    KilledWaiting(s, killed + {j.id});
    var a, b := KillAll(s, killed).jobs, KillAll(s, killed + {j.id}).jobs;
    var v := a[j].(status := DEAD);
    hide KillAll;
    forall k | k in a
      ensures b[k] == if k == j then v else a[k]
    {
      BuryOne(s, killed, j, k);
    }
    OneEntryDiffers(a, b, j, v);
  }

  lemma BuryDead(s: State, killed: set<string>, j: Job)
    requires killed <= s.waiting.Keys && j.id in s.waiting && s.waiting[j.id] == j
    ensures KillAll(s, killed).dead + {j} == KillAll(s, killed + {j.id}).dead
  {
  }

  lemma BuryHistory(history: map<string, Exec>, killed: set<string>, id: string)
    ensures (history + map x | x in killed :: Exec(None, DEAD))[id := Exec(None, DEAD)]
      == history + map x | x in killed + {id} :: Exec(None, DEAD)
  {
  }

  /** Also when j is dead already. */
  lemma BuryIsKill(s: State, killed: set<string>, j: Job)
    requires KnownWaiting(s) && killed <= s.waiting.Keys && j.id in s.waiting && s.waiting[j.id] == j
    ensures j in KillAll(s, killed).jobs && Bury(KillAll(s, killed), j) == KillAll(s, killed + {j.id})
  {
    BuryJobs(s, killed, j);
    BuryDead(s, killed, j);
    BuryHistory(s.history, killed, j.id);
    assert s.waiting - killed - {j.id} == s.waiting - (killed + {j.id});
    hide KnownWaiting;
  }

  /** What a visit to one child of `parent` does, everything below the child included. */
  lemma VisitChild(s: State, parent: string, killed: set<string>, id: string) returns (more: set<string>)
    requires KnownWaiting(s) && killed <= s.waiting.Keys && id in s.waiting && parent in s.waiting[id].deps
    requires CascadeClosed(s.waiting, killed) && killed <= Doomed(s.waiting, parent)
    ensures more <= s.waiting.Keys && killed + {id} <= more
    ensures CascadeClosed(s.waiting, more) && more <= Doomed(s.waiting, parent)
    ensures Cascade(KillAll(s, killed + {id}), id) == KillAll(s, more)
  {
    var gone := killed + {id};
    KilledWaiting(s, gone);
    if id in killed {
      assert gone == killed;
      NothingBelow(s.waiting, killed, id);
      KillNone(KillAll(s, killed));
      more := killed;
    } else {
      CascadeGrows(s.waiting, parent, killed, id);
      var below := Doomed(s.waiting - gone, id);
      KillTwice(s, gone, below);
      more := gone + below;
    }
    hide KillAll, Doomed;
  }

  // ----- recovery, one record at a time -----

  ghost function Reinstate(s: State, j: Job, progress: JobState): State
  {
    s.(
      jobs := s.jobs[j := progress],
      log := s.log.(owner := s.log.owner[j.id := j]),
      queue := if j.due - s.now > 0 then s.queue else s.queue + multiset{j},
      delayed := if j.due - s.now > 0 then s.delayed + multiset{j} else s.delayed)
  }

  /** All but the ids of `rest` have been dealt with. */
  ghost predicate PartRestored(store: Store, now: int, back: map<string, Job>, rest: set<string>)
  {
    && back.Keys == RestorableIds(store) - rest
    && forall id :: id in back ==> RestoredFrom(store, now, id, back[id])
  }

  ghost function RecoveredSoFar(store: Store, now: int, back: map<string, Job>, rest: set<string>): State
  {
    Restarted(store.(active := back.Keys + rest), now, back)
  }

  lemma RecoverNothing(store: Store, now: int)
    ensures PartRestored(store, now, map[], store.active)
    ensures RecoveredSoFar(store, now, map[], store.active) == Init(now).(store := store)
  {
  }

  lemma RecoverSkip(store: Store, now: int, back: map<string, Job>, rest: set<string>, id: string)
    requires id in rest && rest <= store.active && PartRestored(store, now, back, rest) && !Restorable(store, id)
    ensures PartRestored(store, now, back, rest - {id})
    ensures var s := RecoveredSoFar(store, now, back, rest);
      RecoveredSoFar(store, now, back, rest - {id}) == s.(store := s.store.(active := s.store.active - {id}))
  {
  }

  lemma DueGrows(now: int, js: set<Job>, j: Job)
    requires j !in js
    ensures var due := DueNow(now, js); var more := DueNow(now, js + {j});
      multiset(more) == (if j.due > now then multiset(due) else multiset(due) + multiset{j}) &&
      multiset(js + {j} - more) == (if j.due > now then multiset(js - due) + multiset{j} else multiset(js - due))
  {
  }

  lemma NewMore(js: set<Job>, j: Job)
    ensures AllNew(js + {j}) == AllNew(js)[j := NEW_JOB_STATE]
  {
  }

  lemma MembersGrow(back: map<string, Job>, id: string, j: Job)
    requires id !in back
    ensures Members(back[id := j]) == Members(back) + {j}
  {
    var more := back[id := j];
    forall k | k in Members(back)
      ensures k in Members(more)
    {
      var x :| x in back && back[x] == k;
      assert more[x] == k;
    }
    assert more[id] == j;
  }

  lemma NotMember(back: map<string, Job>, j: Job)
    requires forall x :: x in back ==> back[x] != j
    ensures j !in Members(back)
  {
  }

  lemma RestartMore(store: Store, now: int, back: map<string, Job>, id: string, j: Job)
    requires id !in back && j !in Members(back) && j.id == id
    ensures Restarted(store, now, back[id := j]) == Reinstate(Restarted(store, now, back), j, NEW_JOB_STATE)
  {
    MembersGrow(back, id, j);
    DueGrows(now, Members(back), j);
    NewMore(Members(back), j);
    hide DueNow, Members, AllNew;
  }

  lemma RecoverMore(store: Store, now: int, back: map<string, Job>, rest: set<string>, id: string, j: Job)
    requires id in rest && rest <= store.active && PartRestored(store, now, back, rest)
    requires Restorable(store, id) && RestoredFrom(store, now, id, j)
    requires j !in Members(back)
    ensures PartRestored(store, now, back[id := j], rest - {id})
    ensures RecoveredSoFar(store, now, back[id := j], rest - {id}) ==
      Reinstate(RecoveredSoFar(store, now, back, rest), j, NEW_JOB_STATE)
  {
    var more := back[id := j];
    assert more.Keys + (rest - {id}) == back.Keys + rest;
    assert PartRestored(store, now, more, rest - {id});
    RestartMore(store.(active := back.Keys + rest), now, back, id, j);
    hide Restarted, Reinstate, Members;
  }

  lemma RecoverAll(store: Store, now: int, back: map<string, Job>)
    requires PartRestored(store, now, back, {})
    ensures Restoration(store, now, back) && RecoveredSoFar(store, now, back, {}) == Recovered(store, now, back)
  {
  }

  // ----- cancellation, in two parts -----

  ghost function Shun(s: State, id: string): State
  {
    s.(
      cancelled := s.cancelled + {id},
      log := s.log.(cancelled := s.log.cancelled + {id}),
      queue := Without(s.queue, id))
  }

  ghost function WithdrawWaiting(s: State, id: string): State
    requires id in s.waiting
  {
    s.(
      waiting := s.waiting - {id},
      jobs := WithStatus(s.jobs, s.waiting[id], CANCELLED),
      history := s.history[id := Exec(None, CANCELLED)],
      store := Retire(s.store, id, CANCELLED))
  }

  ghost function WithdrawRunning(s: State, id: string): State
  {
    s.(
      running := s.running - {id},
      jobs := if id in s.running then WithStatus(s.jobs, s.running[id], CANCELLED) else s.jobs,
      history := WithVerdict(s.history, id, CANCELLED),
      store := Retire(s.store, id, CANCELLED))
  }

  lemma WithdrawInTwo(s: State, id: string)
    ensures id in s.waiting ==> Withdraw(s, id) == WithdrawWaiting(Shun(s, id), id)
    ensures id !in s.waiting ==> Withdraw(s, id) == WithdrawRunning(Shun(s, id), id)
    ensures Withdraw(s, id).waiting == s.waiting - {id} && Withdraw(s, id).jobs.Keys == s.jobs.Keys
    ensures Shun(s, id).waiting == s.waiting
  {
  }

  // ----- a hand-over, in two parts -----

  ghost function Start(s: State, j: Job): State
    requires j in s.jobs
  {
    s.(jobs := s.jobs[j := s.jobs[j].(status := RUNNING, dispatches := s.jobs[j].dispatches + 1)])
  }

  function Less(queue: multiset<Job>, j: Job): multiset<Job>
  {
    queue - multiset{j}
  }

  ghost function Book(s: State, j: Job, worker: int): State
  {
    s.(
      queue := Less(s.queue, j),
      history := s.history[j.id := Exec(Some(worker), RUNNING)],
      running := s.running[j.id := j],
      store := WriteStatus(s.store, j.id, RUNNING))
  }

  lemma StartThenBook(s: State, j: Job, worker: int)
    requires j in s.jobs
    ensures Book(Start(s, j), j, worker) == HandOver(s, j, worker)
  {
  }

  // ----- submission, in two parts -----

  ghost function Enrol(s: State, j: Job, progress: JobState): State
  {
    s.(jobs := s.jobs[j := progress], log := s.log.(owner := s.log.owner[j.id := j]), store := Persist(s.store, j))
  }

  ghost function Place(s: State, j: Job): State
    requires j in s.jobs
  {
    var ready := Ready(j, s.jobs[j].satisfied);
    var soon := j.due - s.now <= 0;
    s.(
      waiting := if ready then s.waiting else s.waiting[j.id := j],
      queue := if ready && soon then s.queue + multiset{j} else s.queue,
      delayed := if ready && !soon then s.delayed + multiset{j} else s.delayed)
  }

  lemma EnrolThenPlace(s: State, j: Job, progress: JobState)
    ensures j in Enrol(s, j, progress).jobs && Place(Enrol(s, j, progress), j) == Admit(s, j, progress)
  {
  }

  // ----- the scheduler -----

  const PENALTY_LOAD := 99

  class Scheduler {
    var taskQueue: multiset<Job>          // a priority queue
    var waitingRoom: multiset<Job>        // a delay queue
    var dagWaitingRoom: map<string, Job>
    var runningJobs: map<string, Job>
    var cancelledJobs: set<string>
    var executionHistory: map<string, Exec>
    var deadLetterQueue: set<Job>         // order and repetitions do not matter here
    var redis: Store
    var clock: int
    ghost var jobs: map<Job, JobState>    // every job ever submitted, as it stands
    ghost var log: Log

    ghost predicate Valid()
      reads `jobs, jobs.Keys
    {
      forall j :: j in jobs ==> jobs[j] == j.State()
    }

    ghost function Model(): State
      reads this
    {
      State(clock, jobs, taskQueue, waitingRoom, dagWaitingRoom, runningJobs, cancelledJobs,
        executionHistory, deadLetterQueue, redis, log)
    }

    constructor (now: int)
      ensures Valid() && Model() == Init(now)
    {
      taskQueue, waitingRoom, dagWaitingRoom, runningJobs := multiset{}, multiset{}, map[], map[];
      cancelledJobs, executionHistory, deadLetterQueue, redis, clock := {}, map[], {}, EMPTY_STORE, now;
      jobs, log := map[], Log(map[], {}, {}, {}, {});
    }

    /** The write-ahead part of submitJob. */
    method EnrolJob(job: Job)
      requires Valid()
      modifies `jobs, `log, `redis
      ensures Valid() && Model() == Enrol(old(Model()), job, job.State())
    {
      jobs := jobs[job := job.State()];
      log := log.(owner := log.owner[job.id := job]);
      redis := Persist(redis, job);
    }

    /** The part of submitJob that decides where the job waits. */
    method PlaceJob(job: Job)
      requires Valid() && job in jobs
      modifies `dagWaitingRoom, `taskQueue, `waitingRoom
      ensures Valid() && Model() == Place(old(Model()), job)
    {
      var ready := job.IsReady();
      if !ready {
        dagWaitingRoom := dagWaitingRoom[job.id := job];
        return;
      }
      var delay := job.due - clock;
      if delay <= 0 {
        taskQueue := taskQueue + multiset{job};
      } else {
        waitingRoom := waitingRoom + multiset{job};
      }
    }

    method SubmitJob(job: Job)
      requires Valid()
      modifies this
      ensures Valid() && Model() == Admit(old(Model()), job, job.State())
    {
      hide Admit, Place;
      EnrolThenPlace(Model(), job, job.State());
      EnrolJob(job);
      PlaceJob(job);
    }

    /** The clock watcher, when the head of the delay queue has expired. */
    method ReleaseExpired() returns (job: Job)
      requires Valid() && exists j :: j in waitingRoom && HeadOfDelay(waitingRoom, clock, j)
      modifies this
      ensures HeadOfDelay(old(waitingRoom), old(clock), job)
      ensures Valid() && Model() == Release(old(Model()), job)
    {
      job :| job in waitingRoom && HeadOfDelay(waitingRoom, clock, job);
      waitingRoom := waitingRoom - multiset{job};
      taskQueue := taskQueue + multiset{job};
    }

    method TickOffJob(job: Job, parentId: string)
      requires Valid() && job in jobs && parentId in job.deps
      modifies `jobs, job
      ensures Valid() && Model() == TickOff(old(Model()), job, parentId)
      ensures job.State() == Model().jobs[job] && jobs.Keys == old(jobs.Keys)
    {
      job.ResolveDependencies(parentId);
      jobs := jobs[job := job.State()];
    }

    method LeaveWaitingRoom(id: string)
      requires Valid()
      modifies `dagWaitingRoom
      ensures Valid() && Model() == Leave(old(Model()), id)
    {
      dagWaitingRoom := dagWaitingRoom - {id};
    }

    /** The body of the loop in unlockChildren. */
    method UnlockChild(parentId: string, waitingJob: Job, ghost s: State, ghost among: set<string>)
      requires Valid() && KnownWaiting(s) && waitingJob.id !in among && waitingJob in jobs
      requires waitingJob.id in s.waiting && s.waiting[waitingJob.id] == waitingJob
      requires Model() == UnlockSome(s, parentId, among)
      modifies this, jobs.Keys
      ensures Valid() && Model() == UnlockSome(s, parentId, among + {waitingJob.id})
      ensures Model().jobs.Keys == s.jobs.Keys
    {
      hide UnlockSome, Admit, Ready, Model, Leave, Valid;
      VisitKeepsJob(s, parentId, among, waitingJob.id);
      JobsAmong(s, parentId, among + {waitingJob.id});
      if parentId in waitingJob.deps {
        TickOffJob(waitingJob, parentId);
        var ready := waitingJob.IsReady();
        if ready {
          LeaveWaitingRoom(waitingJob.id);
          SubmitJob(waitingJob);
          UnlockMove(s, parentId, among, waitingJob.id);
        } else {
          UnlockTick(s, parentId, among, waitingJob.id);
        }
      } else {
        UnlockSkip(s, parentId, among, waitingJob.id);
      }
    }

    method UnlockChildren(parentId: string)
      requires Valid() && KnownWaiting(Model())
      modifies this, jobs.Keys
      ensures Valid() && Model() == Unlock(old(Model()), parentId)
    {
      ghost var s := Model();
      var rest := dagWaitingRoom.Keys;
      assert s.waiting.Keys - rest == {};
      UnlockNothing(s, parentId);
      while rest != {}
        invariant rest <= s.waiting.Keys && Valid() && jobs.Keys == old(jobs.Keys)
        invariant Model() == UnlockSome(s, parentId, s.waiting.Keys - rest)
      {
        var id :| id in rest;
        ghost var among := s.waiting.Keys - rest;
        VisitKeepsJob(s, parentId, among, id);
        assert s.waiting.Keys - (rest - {id}) == among + {id};
        var waitingJob := dagWaitingRoom[id];
        UnlockChild(parentId, waitingJob, s, among);
        rest := rest - {id};
      }
      assert s.waiting.Keys - {} == s.waiting.Keys;
    }

    method PinJob(job: Job, worker: int)
      requires Valid() && job in jobs
      modifies `jobs, job
      ensures Valid() && Model() == PinTo(old(Model()), job, worker)
    {
      job.preferred := Some(worker);
      jobs := jobs[job := job.State()];
    }

    /** `alive` is what the worker registry lists at the time. */
    method PropagateAffinity(parentId: string, worker: int, alive: set<int>)
      requires Valid() && KnownWaiting(Model())
      modifies `jobs, jobs.Keys
      ensures Valid() && Model() == Pin(old(Model()), parentId, Some(worker), alive)
    {
      ghost var s := Model();
      var rest := dagWaitingRoom.Keys;
      assert s.waiting.Keys - rest == {};
      PinNothing(s, parentId, worker, alive);
      if worker !in alive {
        return;
      }
      while rest != {}
        invariant rest <= s.waiting.Keys && Valid() && jobs.Keys == old(jobs.Keys)
        invariant Model() == PinSome(s, parentId, Some(worker), alive, s.waiting.Keys - rest)
      {
        var id :| id in rest;
        ghost var among := s.waiting.Keys - rest;
        assert s.waiting.Keys - (rest - {id}) == among + {id};
        PinVisit(s, parentId, worker, alive, among, id);
        var waitingJob := dagWaitingRoom[id];
        if parentId in waitingJob.deps && waitingJob.affinity && waitingJob.preferred == None {
          PinJob(waitingJob, worker);
        }
        rest := rest - {id};
      }
      assert s.waiting.Keys - {} == s.waiting.Keys;
    }

    method MarkJobCompleted(job: Job, worker: Option<int>)
      requires Valid() && job in jobs
      modifies `jobs, `executionHistory, `redis, `log, job
      ensures Valid() && Model() == MarkCompleted(old(Model()), job, worker)
    {
      hide Retire, WithVerdict;
      executionHistory := WithVerdict(executionHistory, job.id, COMPLETED);
      job.status := COMPLETED;
      redis := Retire(redis, job.id, COMPLETED);
      jobs := jobs[job := job.State()];
      CompleteLog(job.id, worker);
    }

    ghost method CompleteLog(id: string, worker: Option<int>)
      modifies `log
      ensures log == LogCompletion(old(log), id, worker)
    {
      log := log.(
        completed := log.completed + {id},
        doneOn := log.doneOn + if worker.Some? then {(id, worker.value)} else {});
    }

    method CompleteJob(job: Job, worker: Option<int>, alive: set<int>)
      requires Valid() && job in jobs && KnownWaiting(Model())
      modifies this, jobs.Keys
      ensures Valid() && Model() == Complete(old(Model()), job, worker, alive)
    {
      hide MarkCompleted, Pin, Unlock;
      MarkJobs(Model(), job, worker, alive);
      MarkJobCompleted(job, worker);
      if worker.Some? {
        PropagateAffinity(job.id, worker.value, alive);
      } else {
        PinNothing(Model(), job.id, 0, alive);
      }
      UnlockChildren(job.id);
    }

    method BuryJob(job: Job)
      requires Valid() && job in jobs
      modifies `jobs, `executionHistory, `dagWaitingRoom, `deadLetterQueue, job
      ensures Valid() && Model() == Bury(old(Model()), job) && jobs.Keys == old(jobs.Keys)
    {
      job.status := DEAD;
      jobs := jobs[job := job.State()];
      executionHistory := executionHistory[job.id := Exec(None, DEAD)];
      dagWaitingRoom := dagWaitingRoom - {job.id};
      deadLetterQueue := deadLetterQueue + {job};
    }

    /** The body of the loop in cancelChildren, for a child that may be dead already. */
    method CancelChild(job: Job, ghost parent: string, ghost s: State, ghost killed: set<string>)
      returns (ghost more: set<string>)
      requires Valid() && KnownWaiting(s) && killed <= s.waiting.Keys && Model() == KillAll(s, killed)
      requires job.id in s.waiting && s.waiting[job.id] == job && parent in job.deps
      requires CascadeClosed(s.waiting, killed) && killed <= Doomed(s.waiting, parent)
      modifies this, jobs.Keys
      ensures Valid() && more <= s.waiting.Keys && killed + {job.id} <= more
      ensures CascadeClosed(s.waiting, more) && more <= Doomed(s.waiting, parent)
      ensures Model() == KillAll(s, more) && jobs.Keys == old(jobs.Keys)
      decreases |s.waiting|, 0
    {
      hide KillAll, Cascade, Bury, Doomed, CascadeClosed, Valid;
      BuryIsKill(s, killed, job);
      KilledWaiting(s, killed);
      KilledWaiting(s, killed + {job.id});
      SmallerMap(s.waiting, killed + {job.id});
      more := VisitChild(s, parent, killed, job.id);
      KilledWaiting(s, more);
      BuryJob(job);
      CancelChildren(job.id);
    }

    /** Recursive, over an iterator that may or may not still return an entry removed meanwhile. */
    method CancelChildren(failedParentId: string)
      requires Valid() && KnownWaiting(Model())
      modifies this, jobs.Keys
      ensures Valid() && Model() == Cascade(old(Model()), failedParentId)
      decreases |dagWaitingRoom|, 1
    {
      ghost var s := Model();
      var entries := dagWaitingRoom;
      var rest := entries.Keys;
      ghost var killed: set<string> := {};
      KillNone(s);
      while rest != {}
        invariant rest <= entries.Keys && entries == s.waiting && Valid() && jobs.Keys == old(jobs.Keys)
        invariant killed <= s.waiting.Keys && Model() == KillAll(s, killed)
        invariant CascadeClosed(s.waiting, killed) && killed <= Doomed(s.waiting, failedParentId)
        invariant ChildrenIn(s.waiting, failedParentId, killed, rest)
      {
        var id :| id in rest;
        var stale: bool := *;
        if id in dagWaitingRoom || stale {
          var job := entries[id];
          if failedParentId in job.deps {
            killed := CancelChild(job, failedParentId, s, killed);
          }
        }
        rest := rest - {id};
      }
      AllReached(s.waiting, failedParentId, killed);
    }

    method AbandonJob(job: Job)
      requires Valid() && job in jobs
      modifies `jobs, job
      ensures Valid() && Model() == Abandon(old(Model()), job)
    {
      job.status := FAILED;
      jobs := jobs[job := job.State()];
    }

    method RequeueJob(job: Job)
      requires Valid() && job in jobs
      modifies `jobs, `redis, `taskQueue, job
      ensures Valid() && Model() == Requeue(old(Model()), job)
    {
      hide WriteStatus;
      job.retries := job.retries + 1;
      job.status := PENDING;
      jobs := jobs[job := job.State()];
      redis := WriteStatus(redis, job.id, PENDING);
      taskQueue := taskQueue + multiset{job};
    }

    method ExhaustJob(job: Job)
      requires Valid() && job in jobs
      modifies `jobs, `redis, `executionHistory, `deadLetterQueue, `log, job
      ensures Valid() && Model() == Exhaust(old(Model()), job)
    {
      hide Retire, WithVerdict;
      job.retries := job.retries + 1;
      job.status := DEAD;
      jobs := jobs[job := job.State()];
      redis := Retire(redis, job.id, DEAD);
      executionHistory := WithVerdict(executionHistory, job.id, DEAD);
      deadLetterQueue := deadLetterQueue + {job};
      log := log.(exhausted := log.exhausted + {job.id});
    }

    method HandleJobFailure(job: Job)
      requires Valid() && job in jobs && KnownWaiting(Model())
      modifies this, jobs.Keys
      ensures Valid() && Model() == Fail(old(Model()), job)
    {
      if job.id in cancelledJobs {
        return;
      }
      if WORKER_PREFIX <= job.id {
        AbandonJob(job);
        return;
      }
      hide Exhaust, Requeue, Cascade;
      ExhaustJobs(Model(), job);
      if job.retries + 1 > MAX_RETRIES {
        ExhaustJob(job);
        CancelChildren(job.id);
      } else {
        RequeueJob(job);
      }
    }

    /** taskQueue.removeIf, for one id. */
    method RemoveQueued(id: string)
      modifies `taskQueue
      ensures taskQueue == Without(old(taskQueue), id)
    {
      var queue := taskQueue;
      while exists j :: j in taskQueue && j.id == id
        invariant forall j :: taskQueue[j] == queue[j] || (j.id == id && taskQueue[j] == 0)
        decreases |taskQueue|
      {
        var j :| j in taskQueue && j.id == id;
        assert taskQueue == taskQueue[j := 0] + multiset{j}[j := taskQueue[j]];
        taskQueue := taskQueue[j := 0];
      }
    }

    method ShunJob(id: string)
      modifies `cancelledJobs, `log, `taskQueue
      ensures Model() == Shun(old(Model()), id)
    {
      hide Without;
      cancelledJobs := cancelledJobs + {id};
      RemoveQueued(id);
      log := log.(cancelled := log.cancelled + {id});
    }

    method WithdrawWaitingJob(id: string)
      requires Valid() && KnownWaiting(Model()) && id in dagWaitingRoom
      modifies `dagWaitingRoom, `jobs, `executionHistory, `redis, dagWaitingRoom[id]
      ensures Valid() && Model() == WithdrawWaiting(old(Model()), id)
    {
      hide Retire;
      var waitingJob := dagWaitingRoom[id];
      dagWaitingRoom := dagWaitingRoom - {id};
      waitingJob.status := CANCELLED;
      jobs := jobs[waitingJob := waitingJob.State()];
      executionHistory := executionHistory[id := Exec(None, CANCELLED)];
      redis := Retire(redis, id, CANCELLED);
    }

    method WithdrawRunningJob(id: string)
      requires Valid() && KnownRunning(Model())
      modifies `runningJobs, `jobs, `executionHistory, `redis, if id in runningJobs then {runningJobs[id]} else {}
      ensures Valid() && Model() == WithdrawRunning(old(Model()), id)
    {
      hide Retire, WithVerdict;
      executionHistory := WithVerdict(executionHistory, id, CANCELLED);
      if id in runningJobs {
        var runningJob := runningJobs[id];
        runningJob.status := CANCELLED;
        jobs := jobs[runningJob := runningJob.State()];
      }
      runningJobs := runningJobs - {id};
      redis := Retire(redis, id, CANCELLED);
    }

    /** The answer says whether a job was found waiting or running; a queued one is not "found". */
    method CancelJob(id: string) returns (answer: string)
      requires Valid() && KnownWaiting(Model()) && KnownRunning(Model())
      modifies this, jobs.Keys
      ensures Valid() && Model() == Cancel(old(Model()), id)
      ensures answer == if id in old(dagWaitingRoom) || id in old(runningJobs) then "CANCELLED" else "NOT_FOUND"
    {
      WithdrawInTwo(Model(), id);
      hide Withdraw, WithdrawWaiting, WithdrawRunning, Cascade, Retire;
      ShunJob(id);
      if id in dagWaitingRoom {
        answer := "CANCELLED";
        WithdrawWaitingJob(id);
      } else {
        answer := if id in runningJobs then "CANCELLED" else "NOT_FOUND";
        WithdrawRunningJob(id);
      }
      CancelChildren(id);
    }

    /** handleJobCallback, once the message is split. */
    method HandleVerdict(id: string, ok: bool, alive: set<int>)
      requires Valid() && KnownWaiting(Model()) && KnownRunning(Model())
      modifies this, jobs.Keys
      ensures Valid() && Model() == Callback(old(Model()), id, ok, alive)
    {
      hide Complete, Fail, WithVerdict;
      ghost var s := Model();
      if id in cancelledJobs {
        cancelledJobs := cancelledJobs - {id};
        return;
      }
      if id !in runningJobs {
        if id in executionHistory {
          executionHistory := WithVerdict(executionHistory, id, if ok then COMPLETED else FAILED);
        } else {
          assert Collect(s, id) == s;
        }
        return;
      }
      var job := runningJobs[id];
      runningJobs := runningJobs - {id};
      if id in executionHistory {
        if ok {
          assert Model() == Collect(s, id);
          CompleteJob(job, executionHistory[id].worker, alive);
        } else {
          executionHistory := WithVerdict(executionHistory, id, FAILED);
          assert Model() == TakeBack(s, id);
          HandleJobFailure(job);
        }
      }
    }

    /** A message without a second part is ignored. */
    method HandleJobCallback(payload: string, alive: set<int>)
      requires Valid() && KnownWaiting(Model()) && KnownRunning(Model())
      modifies this, jobs.Keys
      ensures Valid() && Model() == match ParseCallback(payload)
        case None => old(Model())
        case Some((id, ok)) => Callback(old(Model()), id, ok, alive)
    {
      hide Callback;
      var message := ParseCallback(payload);
      if message.Some? {
        HandleVerdict(message.value.0, message.value.1, alive);
      }
    }

    // ----- dispatch -----

    method StartJob(job: Job)
      requires Valid() && job in jobs
      modifies `jobs, job
      ensures Valid() && Model() == Start(old(Model()), job)
    {
      job.status := RUNNING;
      job.dispatches := job.dispatches + 1;
      jobs := jobs[job := job.State()];
    }

    method BookJob(job: Job, worker: int)
      requires Valid()
      modifies `taskQueue, `executionHistory, `runningJobs, `redis
      ensures Valid() && Model() == Book(old(Model()), job, worker)
    {
      hide WriteStatus, Less;
      taskQueue := Less(taskQueue, job);
      executionHistory := executionHistory[job.id := Exec(Some(worker), RUNNING)];
      runningJobs := runningJobs[job.id := job];
      redis := WriteStatus(redis, job.id, RUNNING);
    }

    method HandOverJob(job: Job, worker: int)
      requires Valid() && job in jobs
      modifies `jobs, `taskQueue, `executionHistory, `runningJobs, `redis, job
      ensures Valid() && Model() == HandOver(old(Model()), job, worker)
    {
      hide HandOver, Start, Book;
      StartThenBook(Model(), job, worker);
      StartJob(job);
      BookJob(job, worker);
    }

    method TakeBackJob(id: string)
      requires Valid()
      modifies `executionHistory, `runningJobs
      ensures Valid() && Model() == TakeBack(old(Model()), id)
    {
      executionHistory := WithVerdict(executionHistory, id, FAILED);
      runningJobs := runningJobs - {id};
    }

    /** What the dispatch loop does with the worker's answer. */
    method HandleAnswer(job: Job, worker: int, reply: Reply, alive: set<int>)
      requires Valid() && job in jobs && KnownWaiting(Model())
      modifies this, jobs.Keys
      ensures Valid() && Model() == HandleReply(old(Model()), job, worker, reply, alive)
    {
      hide Complete, Fail, NonRecoverable, Abandon;
      match reply {
        case Accepted =>
        case Finished(_) => CompleteJob(job, Some(worker), alive);
        case Failed(message) =>
          assert TakeBack(Model(), job.id).waiting == dagWaitingRoom && TakeBack(Model(), job.id).jobs == jobs;
          TakeBackJob(job.id);
          if NonRecoverable(message) {
            AbandonJob(job);
          } else {
            HandleJobFailure(job);
          }
      }
    }

    /**
     The head of the queue, the workers that have the capability its payload asks for, and
     the best of them.
     */
    method ChooseWorker(registry: WorkerRegistry) returns (job: Job, available: seq<Worker>, best: Option<Worker>)
      requires taskQueue != multiset{}
      ensures HeadOfQueue(taskQueue, job)
      ensures forall w :: w in available <==>
        w in registry.workers.Values && Capable(w, Requirement(job.payload, job.id))
      ensures BestChoice(job.preferred, available, best)
    {
      ghost var head := TopOfQueue(taskQueue);
      job :| job in taskQueue && HeadOfQueue(taskQueue, job);
      var skill := ExtractSkillRequirement(job.payload, job.id);
      available := registry.GetWorkersByCapability(skill);
      best := SelectBestWorker(job.preferred, available);
    }

    /** With no worker the job goes back to the queue, pending; otherwise it is handed over. */
    method DispatchTo(job: Job, best: Option<Worker>, reply: Reply, alive: set<int>)
      requires Valid() && job in taskQueue && KnownQueue(Model()) && KnownWaiting(Model())
      modifies this, jobs.Keys
      ensures Valid() && Model() == Dispatch(old(Model()), job, PortOf(best), reply, alive)
    {
      hide HandOver, HandleReply;
      if best.None? {
        taskQueue := taskQueue - multiset{job};
        job.status := RUNNING;
        job.status := PENDING;
        taskQueue := taskQueue + multiset{job};
        BackAgain(old(taskQueue), job);
        assert job.State() == jobs[job];
      } else {
        HandOverKnown(Model(), job, best.value.port);
        HandOverJob(job, best.value.port);
        HandleAnswer(job, best.value.port, reply, alive);
      }
    }

    /** What the worker's answer means for its load: an accepted job stays counted, any other is taken off again. */
    method CountAnswer(worker: Worker, reply: Reply)
      modifies worker`currentLoad
      ensures reply.Accepted? ==> worker.currentLoad == old(worker.currentLoad)
      ensures reply.Failed? && Text.Contains(reply.message, "SATURATED") ==> worker.currentLoad == 99
      ensures reply.Finished? || (reply.Failed? && !Text.Contains(reply.message, "SATURATED")) ==>
        worker.currentLoad == old(worker.currentLoad) - if old(worker.currentLoad) > 0 then 1 else 0
    {
      match reply {
        case Accepted =>
        case Finished(_) => worker.DecrementCurrentLoad();
        case Failed(message) =>
          worker.DecrementCurrentLoad();
          if Text.Contains(message, "SATURATED") {
            worker.SetCurrentLoad(PENALTY_LOAD);
          }
      }
    }

    /** A dispatch to a worker with room, and the count of its load. */
    method DispatchCounted(job: Job, worker: Worker, reply: Reply, alive: set<int>)
      requires Valid() && job in taskQueue && KnownQueue(Model()) && KnownWaiting(Model()) && !worker.Saturated()
      modifies this, jobs.Keys, worker`currentLoad
      ensures Valid() && Model() == Dispatch(old(Model()), job, Some(worker.port), reply, alive)
      ensures reply.Accepted? ==> worker.currentLoad == old(worker.currentLoad) + 1
      ensures reply.Failed? && Text.Contains(reply.message, "SATURATED") ==> worker.currentLoad == 99
      ensures reply.Finished? || (reply.Failed? && !Text.Contains(reply.message, "SATURATED")) ==>
        worker.currentLoad == old(worker.currentLoad) + if old(worker.currentLoad) >= 0 then 0 else 1
    {
      hide Dispatch, KnownWaiting, KnownQueue;
      worker.IncrementCurrentLoad();
      DispatchTo(job, Some(worker), reply, alive);
      CountAnswer(worker, reply);
    }

    /**
     One turn of the dispatch loop: the job, the worker, and what both have come to. The worker had room;
     it has one job more if it accepted this one, the penalty if it says that it is saturated, and
     otherwise as many as before - or one more if its count was below zero.
     */
    method RunDispatchTurn(registry: WorkerRegistry, reply: Reply) returns (job: Job, best: Option<Worker>)
      requires Valid() && taskQueue != multiset{} && KnownQueue(Model()) && KnownWaiting(Model())
      modifies this, jobs.Keys, registry.workers.Values`currentLoad
      ensures HeadOfQueue(old(taskQueue), job)
      ensures best.Some? ==>
        best.value in registry.workers.Values && Requirement(job.payload, job.id) in best.value.capabilities
      ensures Valid() && Model() == Dispatch(old(Model()), job, PortOf(best), reply, Ports(registry.workers.Values))
      ensures forall w :: w in registry.workers.Values && best != Some(w) ==> w.currentLoad == old(w.currentLoad)
      ensures best.None? ==>
        forall w | w in registry.workers.Values && Requirement(job.payload, job.id) in w.capabilities ::
          old(w.currentLoad) >= old(w.maxCap)
      ensures best.Some? ==> old(best.value.currentLoad) < old(best.value.maxCap)
      ensures
        forall w | w in registry.workers.Values && Requirement(job.payload, job.id) in w.capabilities ::
          old(job.preferred) == Some(w.port) && old(w.currentLoad) < old(w.maxCap) ==>
            best.Some? && old(job.preferred) == Some(best.value.port)
      ensures best.Some? && old(job.preferred) != Some(best.value.port) ==>
        forall w | w in registry.workers.Values && Requirement(job.payload, job.id) in w.capabilities ::
          old(w.currentLoad) < old(w.maxCap) ==> old(best.value.currentLoad) <= old(w.currentLoad)
      ensures best.Some? && reply.Accepted? ==> best.value.currentLoad == old(best.value.currentLoad) + 1
      ensures best.Some? && reply.Failed? && Text.Contains(reply.message, "SATURATED") ==>
        best.value.currentLoad == 99
      ensures best.Some? && (reply.Finished? || (reply.Failed? && !Text.Contains(reply.message, "SATURATED"))) ==>
        best.value.currentLoad == old(best.value.currentLoad) + if old(best.value.currentLoad) >= 0 then 0 else 1
    {
      hide Dispatch, KnownWaiting, Requirement, KnownQueue, Valid, Model, Ports;
      var available;
      job, available, best := ChooseWorker(registry);
      var alive := Ports(registry.workers.Values);
      if best.None? {
        DispatchTo(job, best, reply, alive);
      } else {
        DispatchCounted(job, best.value, reply, alive);
      }
    }

    /** A record as a job again: no parents, no affinity, due at once if its time has passed. */
    method RestoreJob(id: string, payload: string, priority: Option<int>, due: Option<int>) returns (job: Job)
      ensures fresh(job) && job.id == id && job.payload == payload && job.priority == OrElse(priority, 1)
      ensures job.due == Max(clock, OrElse(due, 0)) && job.deps == [] && !job.affinity && job.State() == NEW_JOB_STATE
    {
      var remainingDelay := Max(0, OrElse(due, 0) - clock);
      job := new Job(id, payload, OrElse(priority, 1), clock + remainingDelay, [], false);
    }

    method ReinstateJob(job: Job)
      requires Valid()
      modifies `jobs, `log, `taskQueue, `waitingRoom
      ensures Valid() && Model() == Reinstate(old(Model()), job, job.State())
    {
      jobs := jobs[job := job.State()];
      log := log.(owner := log.owner[job.id := job]);
      if job.due - clock > 0 {
        waitingRoom := waitingRoom + multiset{job};
      } else {
        taskQueue := taskQueue + multiset{job};
      }
    }

    method DropActive(id: string)
      modifies `redis
      ensures Model() == old(Model()).(store := redis) && redis == old(redis).(active := old(redis.active) - {id})
    {
      redis := redis.(active := redis.active - {id});
    }

    /** recoverState, for an id whose record is whole and not over. */
    method RecoverJob(id: string, ghost store: Store, ghost back: map<string, Job>, ghost rest: set<string>)
      returns (ghost more: map<string, Job>)
      requires Valid() && id in rest && rest <= store.active && PartRestored(store, clock, back, rest)
      requires Lookup(redis, id) == Lookup(store, id) && Restorable(store, id)
      requires Model() == RecoveredSoFar(store, clock, back, rest)
      modifies `jobs, `log, `taskQueue, `waitingRoom
      ensures Valid() && PartRestored(store, clock, more, rest - {id})
      ensures Model() == RecoveredSoFar(store, clock, more, rest - {id})
    {
      hide RecoveredSoFar, PartRestored, Members;
      var r := Lookup(redis, id);
      var job := RestoreJob(id, r.payload.value, r.priority, r.due);
      NotMember(back, job);
      hide Lookup, OrElse, Max, Restorable;
      RecoverMore(store, clock, back, rest, id, job);
      hide Reinstate, RestoredFrom;
      ReinstateJob(job);
      more := back[id := job];
    }

    /** On a scheduler that has just been constructed over the store of its predecessor. */
    method RecoverState() returns (ghost back: map<string, Job>)
      requires Valid() && Model() == Init(clock).(store := redis)
      modifies this
      ensures Valid() && Restoration(old(redis), clock, back)
      ensures Model() == Recovered(old(redis), clock, back)
    {
      ghost var store := redis;
      var rest := redis.active;
      back := map[];
      RecoverNothing(store, clock);
      while rest != {}
        invariant rest <= store.active && Valid() && clock == old(clock)
        invariant PartRestored(store, clock, back, rest) && Model() == RecoveredSoFar(store, clock, back, rest)
      {
        var id :| id in rest;
        var r := Lookup(redis, id);
        if r.payload.None? || r.status.None? || r.status == Some(COMPLETED) || r.status == Some(DEAD) {
          RecoverSkip(store, clock, back, rest, id);
          DropActive(id);
        } else {
          back := RecoverJob(id, store, back, rest);
        }
        rest := rest - {id};
      }
      RecoverAll(store, clock, back);
    }
  }

  function PortOf(best: Option<Worker>): Option<int>
  {
    match best case None => None case Some(w) => Some(w.port)
  }

  function Ports(workers: set<Worker>): set<int>
  {
    set w | w in workers :: w.port
  }

  ghost predicate KnownQueue(s: State)
  {
    forall j :: j in s.queue ==> j in s.jobs && s.jobs[j].status == PENDING
  }

  /** In every state a run can reach, the methods' demands on the rooms and the queue are met. */
  lemma ReachableIsKnown(states: seq<State>, events: seq<Event>, i: nat)
    requires Run(states, events) && i < |states|
    ensures KnownWaiting(states[i]) && KnownRunning(states[i]) && KnownQueue(states[i])
  {
    var s := states[i];
    RunKeeps(states, events, i);
    hide Run;
    forall j | j in s.queue
      ensures j in s.jobs && s.jobs[j].status == PENDING
    {
      assert JobOk(s, j);
    }
    hide JobOk;
  }

  lemma BackAgain(queue: multiset<Job>, j: Job)
    requires j in queue
    ensures queue - multiset{j} + multiset{j} == queue
  {
  }

  lemma HandOverKnown(s: State, j: Job, worker: int)
    requires j in s.jobs && KnownWaiting(s)
    ensures HandOver(s, j, worker).jobs.Keys == s.jobs.Keys && HandOver(s, j, worker).waiting == s.waiting
    ensures KnownWaiting(HandOver(s, j, worker))
  {
  }

  lemma ExhaustJobs(s: State, j: Job)
    requires j in s.jobs && KnownWaiting(s)
    ensures Exhaust(s, j).jobs.Keys == s.jobs.Keys && Exhaust(s, j).waiting == s.waiting
    ensures KnownWaiting(Exhaust(s, j))
  {
  }

  lemma SmallerMap(m: map<string, Job>, gone: set<string>)
    requires gone != {} && gone <= m.Keys
    ensures |m - gone| < |m|
  {
  }

  lemma MarkJobs(s: State, j: Job, worker: Option<int>, alive: set<int>)
    ensures MarkCompleted(s, j, worker).jobs.Keys == s.jobs.Keys
    ensures MarkCompleted(s, j, worker).waiting == s.waiting
    ensures var t := MarkCompleted(s, j, worker); Pin(t, j.id, worker, alive).jobs.Keys == s.jobs.Keys
    ensures var t := MarkCompleted(s, j, worker); Pin(t, j.id, worker, alive).waiting == s.waiting
  {
  }

  lemma PinNothing(s: State, parent: string, worker: int, alive: set<int>)
    ensures PinSome(s, parent, Some(worker), alive, {}) == s
    ensures worker !in alive ==> Pin(s, parent, Some(worker), alive) == s
    ensures Pin(s, parent, None, alive) == s
  {
  }

  lemma JobsAmong(s: State, parent: string, among: set<string>)
    ensures UnlockSome(s, parent, among).jobs.Keys == s.jobs.Keys
  {
  }

  lemma UnlockNothing(s: State, parent: string)
    ensures UnlockSome(s, parent, {}) == s
  {
    hide Unlocks;
    var t := UnlockSome(s, parent, {});
    NoneUnlocked(s, parent);
    assert t.jobs == s.jobs && t.waiting == s.waiting && t.log.owner == s.log.owner &&
      t.store.records == s.store.records;
  }

  lemma NoneUnlocked(s: State, parent: string)
    ensures UnlockedJobs(s, parent, {}, true) == {} && UnlockedJobs(s, parent, {}, false) == {} &&
      UnlockedIds(s, parent, {}) == {}
  {
  }
}
