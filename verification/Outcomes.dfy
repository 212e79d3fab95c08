/**
 What each event comes to, case by case, in terms of the job it concerns, of those that wait for it, and
 of all others. Nothing here is said through the functions that define the events.
 */
module Outcomes {
  import opened Prelude
  import opened Jobs
  import opened Graphs
  import opened SchedulerModel
  import opened Invariants
  import opened Runs
  import opened Text

  /** No room, no queue and no worker holds j. */
  ghost predicate Nowhere(s: State, j: Job)
  {
    j.id !in s.waiting && j !in s.delayed && j !in s.queue && j.id !in s.running
  }

  ghost predicate SameBut<V>(m: map<string, V>, n: map<string, V>, id: string)
  {
    m - {id} == n - {id}
  }

  lemma UpdateIsSameBut<V>(m: map<string, V>, id: string, v: V)
    ensures SameBut(m, m[id := v], id)
  {
  }

  /** Between s and t nothing changes but what concerns j: its progress, verdict and record, and where it is. */
  ghost predicate OnlyConcerns(s: State, t: State, j: Job)
  {
    && t.now == s.now && t.cancelled == s.cancelled
    && t.jobs.Keys == s.jobs.Keys && (forall k :: k in s.jobs && k != j ==> t.jobs[k] == s.jobs[k])
    && t.waiting == s.waiting && t.delayed == s.delayed && t.dead == s.dead
    && t.queue[j := 0] == s.queue[j := 0]
    && SameBut(s.running, t.running, j.id) && SameBut(s.history, t.history, j.id)
    && SameBut(s.store.records, t.store.records, j.id)
    && (forall id :: id in t.store.active <==> id in s.store.active)
  }

  predicate WaitsDirectly(waiting: map<string, Job>, id: string, parent: string)
  {
    id in waiting && parent in waiting[id].deps
  }

  ghost predicate Chain(waiting: map<string, Job>, p: seq<string>)
  {
    forall i :: 0 <= i < |p| - 1 ==> WaitsDirectly(waiting, p[i], p[i + 1])
  }

  /** The waiting job `id` has `ancestor` for a parent, or a waiting parent that has, and so on. */
  ghost predicate WaitsFor(waiting: map<string, Job>, id: string, ancestor: string)
  {
    exists p :: |p| >= 2 && p[0] == id && p[|p| - 1] == ancestor && Chain(waiting, p)
  }

  lemma WalkIsChain(waiting: map<string, Job>, p: seq<string>)
    ensures IsWalk(WaitGraph(waiting), p) <==> Chain(waiting, p)
  {
    var g := WaitGraph(waiting);
    forall i | 0 <= i < |p| - 1
      ensures Edge(g, p[i], p[i + 1]) <==> WaitsDirectly(waiting, p[i], p[i + 1])
    {
    }
  }

  lemma DoomedWaits(waiting: map<string, Job>, parent: string, id: string)
    ensures id in Doomed(waiting, parent) <==> WaitsFor(waiting, id, parent)
  {
    var g := WaitGraph(waiting);
    if WaitsFor(waiting, id, parent) {
      var p :| |p| >= 2 && p[0] == id && p[|p| - 1] == parent && Chain(waiting, p);
      WalkIsChain(waiting, p);
      assert WalkBetween(g, p, id, parent);
      assert WaitsDirectly(waiting, p[0], p[1]);
    }
    if id in Doomed(waiting, parent) {
      var p :| WalkBetween(g, p, id, parent);
      WalkIsChain(waiting, p);
    }
  }

  /** k died with its ancestor: it is in the dead-letter queue and nobody waits for its parents any more. */
  ghost predicate DiedWaiting(s: State, t: State, k: Job)
    requires k in s.jobs && k in t.jobs
  {
    && t.jobs[k] == s.jobs[k].(status := DEAD) && k in t.dead && k.id !in t.waiting
    && k.id in t.history && t.history[k.id] == Exec(None, DEAD)
  }

  ghost predicate AsBefore(s: State, t: State, k: Job)
    requires k in s.jobs && k in t.jobs
  {
    && t.jobs[k] == s.jobs[k] && (k in t.dead <==> k in s.dead) && (InWaiting(t, k) <==> InWaiting(s, k))
    && SameAt(s.history, t.history, k.id)
  }

  /** Of the jobs with other ids exactly those that wait for `id`, through waiting jobs, died with it. */
  ghost predicate DependentsDied(s: State, t: State, id: string)
  {
    && t.jobs.Keys == s.jobs.Keys
    && t.waiting.Keys <= s.waiting.Keys
    && forall k :: k in s.jobs && k.id != id ==>
      if InWaiting(s, k) && WaitsFor(s.waiting, k.id, id) then DiedWaiting(s, t, k) else AsBefore(s, t, k)
  }

  // Nobody goes by the id of a waiting job but that job.
  ghost predicate OwnNames(s: State)
  {
    KnownWaiting(s) && forall k :: k in s.jobs && k.id in s.waiting ==> s.waiting[k.id] == k
  }

  lemma InvOwnNames(s: State)
    requires Inv(s)
    ensures OwnNames(s)
  {
    forall k | k in s.jobs && k.id in s.waiting
      ensures s.waiting[k.id] == k
    {
      OwnerOf(s, k);
    }
  }

  lemma Felled(s: State, ids: set<string>, k: Job)
    requires OwnNames(s) && ids <= s.waiting.Keys && k in s.jobs && k.id in ids
    ensures k in KillAll(s, ids).jobs && DiedWaiting(s, KillAll(s, ids), k)
  {
  }

  lemma NotFelled(s: State, ids: set<string>, k: Job)
    requires OwnNames(s) && ids <= s.waiting.Keys && k in s.jobs && k.id !in ids
    ensures k in KillAll(s, ids).jobs && AsBefore(s, KillAll(s, ids), k)
  {
  }

  lemma FelledFrame(s: State, ids: set<string>)
    requires ids <= s.waiting.Keys
    ensures var t := KillAll(s, ids);
      && t.jobs.Keys == s.jobs.Keys && t.waiting.Keys <= s.waiting.Keys
      && t.queue == s.queue && t.delayed == s.delayed && t.running == s.running && t.store == s.store
      && t.cancelled == s.cancelled && (forall id :: id !in s.waiting ==> SameAt(s.history, t.history, id))
  {
  }

  lemma CascadeFells(s: State, id: string)
    requires OwnNames(s)
    ensures DependentsDied(s, Cascade(s, id), id)
    ensures var t := Cascade(s, id);
      && t.queue == s.queue && t.delayed == s.delayed && t.running == s.running && t.store == s.store
      && t.cancelled == s.cancelled && t.waiting.Keys <= s.waiting.Keys
      && (id !in s.waiting ==> SameAt(s.history, t.history, id))
  {
    var t := Cascade(s, id);
    var doomed := Doomed(s.waiting, id);
    FelledFrame(s, doomed);
    hide KillAll, WaitsFor, DiedWaiting, AsBefore, Doomed, OwnNames, SameAt;
    forall k | k in s.jobs && k.id != id
      ensures if InWaiting(s, k) && WaitsFor(s.waiting, k.id, id) then DiedWaiting(s, t, k) else AsBefore(s, t, k)
    {
      DoomedWaits(s.waiting, id, k.id);
      if k.id in doomed {
        Felled(s, doomed, k);
        OwnWaiting(s, k);
      } else {
        NotFelled(s, doomed, k);
      }
    }
  }

  lemma OwnWaiting(s: State, k: Job)
    requires OwnNames(s) && k in s.jobs && k.id in s.waiting
    ensures InWaiting(s, k)
  {
  }

  // ----- the four ends of a failed execution -----

  /** The execution of j failed and nothing remains of it but its verdict. */
  ghost predicate Lapsed(s: State, t: State, j: Job, status: Status)
  {
    && OnlyConcerns(s, t, j) && Nowhere(t, j)
    && j in s.jobs && t.jobs[j].status == status && t.jobs[j].retries == s.jobs[j].retries
    && (j.id in t.history && t.history[j.id].status == FAILED)
  }

  /** j is back in the queue, one retry poorer; the store lists it as it did before. */
  ghost predicate Retried(s: State, t: State, j: Job)
  {
    && OnlyConcerns(s, t, j) && j.id !in t.waiting && j !in t.delayed && j.id !in t.running
    && t.queue[j] == 1
    && j in s.jobs && t.jobs[j].status == PENDING && t.jobs[j].retries == s.jobs[j].retries + 1
    && j.id in t.store.records && t.store.records[j.id].status == Some(PENDING)
    && (j.id in t.history && t.history[j.id].status == FAILED)
  }

  /** j is dead, and so are exactly those that waited for it. */
  ghost predicate Buried(s: State, t: State, j: Job)
  {
    && DependentsDied(s, t, j.id) && Nowhere(t, j)
    && j in s.jobs && t.jobs[j].status == DEAD && t.jobs[j].retries == s.jobs[j].retries + 1 && j in t.dead
    && j.id !in t.store.active && j.id in t.store.records && t.store.records[j.id].status == Some(DEAD)
    && (j.id in t.history && t.history[j.id].status == DEAD)
    && t.delayed == s.delayed && t.queue[j := 0] == s.queue[j := 0] && SameBut(s.running, t.running, j.id)
    && SameBut(s.store.records, t.store.records, j.id) && t.store.active == s.store.active - {j.id}
  }

  // j is out of the hands of its worker, and is nowhere yet.
  ghost predicate Returned(s: State, t: State, j: Job)
  {
    && OnlyConcerns(s, t, j) && Nowhere(t, j) && OwnNames(t)
    && j in s.jobs && t.jobs[j].retries == s.jobs[j].retries
    && (j.id in t.history && t.history[j.id].status == FAILED) && j.id in t.store.records
  }

  lemma ConcernsTwice(s: State, t: State, u: State, j: Job)
    requires OnlyConcerns(s, t, j) && OnlyConcerns(t, u, j)
    ensures OnlyConcerns(s, u, j)
  {
  }

  lemma HandOverConcerns(s: State, j: Job, worker: int)
    requires j in s.jobs
    ensures var h := HandOver(s, j, worker);
      OnlyConcerns(s, h, j) && h.jobs[j].retries == s.jobs[j].retries && h.jobs[j].status == RUNNING
  {
    var h := HandOver(s, j, worker);
    UpdateIsSameBut(s.running, j.id, j);
    UpdateIsSameBut(s.history, j.id, h.history[j.id]);
    UpdateIsSameBut(s.store.records, j.id, h.store.records[j.id]);
    hide SameBut;
  }

  lemma HandedBack(s: State, j: Job, worker: int)
    requires Inv(s) && j in s.queue && j in s.jobs
    ensures var t := TakeBack(HandOver(s, j, worker), j.id); Returned(s, t, j) && t.jobs[j].status == RUNNING
  {
    var h := HandOver(s, j, worker);
    HandOverConcerns(s, j, worker);
    hide HandOver, OnlyConcerns, Inv, Nowhere;
    HandOverKeeps(s, j, worker);
    CalledBack(h, j);
    ConcernsTwice(s, h, TakeBack(h, j.id), j);
  }

  lemma CalledBack(s: State, j: Job)
    requires Inv(s) && j in s.jobs && InRunning(s, j)
    ensures Returned(s, TakeBack(s, j.id), j) && TakeBack(s, j.id).jobs == s.jobs
  {
    InvOwnNames(s);
    assert JobOk(s, j);
    hide Inv;
  }

  lemma AbandonLapses(s: State, u: State, j: Job)
    requires Returned(s, u, j)
    ensures Lapsed(s, Abandon(u, j), j, FAILED)
  {
  }

  lemma RequeueRetries(s: State, u: State, j: Job)
    requires Returned(s, u, j) && j in u.jobs
    ensures Retried(s, Requeue(u, j), j)
  {
  }

  /** What the last retry does to everything but the jobs that wait. */
  ghost predicate Exhausted(s: State, t: State, j: Job)
  {
    && Nowhere(t, j) && t.jobs.Keys == s.jobs.Keys && j in s.jobs
    && t.jobs[j].status == DEAD && t.jobs[j].retries == s.jobs[j].retries + 1 && j in t.dead
    && (forall k :: k in s.jobs && k != j ==> t.jobs[k] == s.jobs[k] && (k in t.dead <==> k in s.dead))
    && t.waiting == s.waiting && SameBut(s.history, t.history, j.id)
    && j.id !in t.store.active && j.id in t.store.records && t.store.records[j.id].status == Some(DEAD)
    && (j.id in t.history && t.history[j.id].status == DEAD)
    && t.delayed == s.delayed && t.queue[j := 0] == s.queue[j := 0] && SameBut(s.running, t.running, j.id)
    && SameBut(s.store.records, t.store.records, j.id) && t.store.active == s.store.active - {j.id}
  }

  lemma ExhaustExhausts(s: State, u: State, j: Job)
    requires Returned(s, u, j) && j in u.jobs
    ensures Exhausted(s, Exhaust(u, j), j)
  {
    var t := Exhaust(u, j);
    UpdateIsSameBut(u.store.records, j.id, t.store.records[j.id]);
    UpdateIsSameBut(u.history, j.id, t.history[j.id]);
    assert SameBut(s.store.records, t.store.records, j.id) && SameBut(s.history, t.history, j.id);
    hide SameBut, Lookup;
  }

  lemma ExhaustOwnNames(s: State, j: Job)
    requires OwnNames(s) && j in s.jobs
    ensures OwnNames(Exhaust(s, j))
  {
  }

  lemma SameButAt<V>(m: map<string, V>, n: map<string, V>, id: string, k: string)
    requires SameBut(m, n, id) && k != id
    ensures SameAt(m, n, k)
  {
    assert k in m <==> k in m - {id};
    assert k in n <==> k in n - {id};
    if k in m {
      assert m[k] == (m - {id})[k] == (n - {id})[k] == n[k];
    }
  }

  /** Whatever else happened to j before, its dependents die as they would have. */
  lemma DiedOfFailure(s: State, u: State, t: State, j: Job)
    requires Exhausted(s, u, j) && DependentsDied(u, t, j.id)
    ensures DependentsDied(s, t, j.id)
  {
    forall k | k in s.jobs && k.id != j.id
      ensures
        if InWaiting(s, k) && WaitsFor(s.waiting, k.id, j.id) then DiedWaiting(s, t, k) else AsBefore(s, t, k)
    {
      SameButAt(s.history, u.history, j.id, k.id);
      hide SameBut, WaitsFor;
    }
  }

  lemma CascadeBuries(s: State, u: State, j: Job)
    requires Exhausted(s, u, j) && OwnNames(u)
    ensures Buried(s, Cascade(u, j.id), j)
  {
    var t := Cascade(u, j.id);
    CascadeFells(u, j.id);
    assert t.jobs[j] == u.jobs[j] && j in t.dead by {
      hide Doomed;
    }
    hide Cascade, SameBut, OwnNames;
    DiedOfFailure(s, u, t, j);
    hide DependentsDied;
  }

  // ----- the answer of a worker -----

  /** A worker's answer that holds one of two texts ends the job at once: FAILED, never retried, no one told. */
  lemma RejectionIsFinal(s: State, j: Job, worker: int, message: string, alive: set<int>)
    requires Inv(s) && j in s.queue && j in s.jobs
    requires Contains(message, "ALREADY in use") || Contains(message, "Deployment Rejected")
    ensures Lapsed(s, Dispatch(s, j, Some(worker), Failed(message), alive), j, FAILED)
  {
    var u := TakeBack(HandOver(s, j, worker), j.id);
    HandedBack(s, j, worker);
    hide HandOver, TakeBack, Returned, Lapsed, Abandon, Inv, Contains, Fail;
    AbandonLapses(s, u, j);
  }

  lemma ListedInQueue(s: State, j: Job)
    requires Inv(s) && j in s.queue && j in s.jobs
    ensures j.id in s.store.active <==> j.id !in s.log.completed && j.id !in s.log.cancelled
  {
    assert JobOk(s, j);
  }

  /**
   Any other error: an id whose cancellation is still to be noticed lapses, and so does the job of the
   auto-scaler; all others are queued again as long as they have been retried less than three times,
   and die with their dependents otherwise.
   */
  lemma ErrorIsRetried(s: State, j: Job, worker: int, message: string, alive: set<int>)
    requires Inv(s) && j in s.queue && j in s.jobs
    requires !Contains(message, "ALREADY in use") && !Contains(message, "Deployment Rejected")
    ensures var t := Dispatch(s, j, Some(worker), Failed(message), alive);
      if j.id in s.cancelled then Lapsed(s, t, j, RUNNING)
      else if "WRK-" <= j.id then Lapsed(s, t, j, FAILED)
      else if s.jobs[j].retries < 3 then Retried(s, t, j)
      else Buried(s, t, j)
    ensures j.id in s.store.active <==> j.id !in s.log.completed && j.id !in s.log.cancelled
  {
    ListedInQueue(s, j);
    var u := TakeBack(HandOver(s, j, worker), j.id);
    HandedBack(s, j, worker);
    hide HandOver, TakeBack, Inv, Contains;
    FailEnds(s, u, j);
  }

  lemma FailEnds(s: State, u: State, j: Job)
    requires Returned(s, u, j) && j in u.jobs && j in s.jobs
    ensures var t := Fail(u, j);
      if j.id in s.cancelled then Lapsed(s, t, j, u.jobs[j].status)
      else if "WRK-" <= j.id then Lapsed(s, t, j, FAILED)
      else if s.jobs[j].retries < 3 then Retried(s, t, j)
      else Buried(s, t, j)
  {
    assert u.cancelled == s.cancelled && u.jobs[j].retries == s.jobs[j].retries;
    if j.id in s.cancelled {
      hide Cascade, Requeue, Exhaust, Abandon, OwnNames;
    } else {
      assert OwnNames(u);
      hide Cascade, Requeue, Exhaust, Abandon, OwnNames, Lapsed, Retried, Buried, Returned, OnlyConcerns;
      if "WRK-" <= j.id {
        AbandonLapses(s, u, j);
      } else if s.jobs[j].retries < 3 {
        RequeueRetries(s, u, j);
      } else {
        ExhaustExhausts(s, u, j);
        ExhaustOwnNames(u, j);
        CascadeBuries(s, Exhaust(u, j), j);
      }
    }
  }

  /** The same for the failure of an accepted job, which a callback reports. */
  lemma FailedVerdict(s: State, j: Job, alive: set<int>)
    requires Inv(s) && j in s.jobs && InRunning(s, j) && j.id !in s.cancelled
    ensures var t := Callback(s, j.id, false, alive);
      if "WRK-" <= j.id then Lapsed(s, t, j, FAILED)
      else if s.jobs[j].retries < 3 then Retried(s, t, j)
      else Buried(s, t, j)
  {
    CalledBack(s, j);
    assert j.id in s.history by {
      assert JobOk(s, j);
    }
    hide TakeBack, Inv;
    FailEnds(s, TakeBack(s, j.id), j);
  }

  // ----- the other events -----

  lemma NewInQueues(s: State, j: Job)
    requires Inv(s) && j !in s.jobs
    ensures s.queue + multiset{j} == s.queue[j := 1] && s.delayed + multiset{j} == s.delayed[j := 1]
  {
    assert j !in s.queue && j !in s.delayed;
  }

  /** A job that is submitted waits for its parents if it has any, then for its time, then for a worker. */
  lemma SubmissionPlaces(s: State, j: Job)
    requires Inv(s) && j !in s.jobs && j.id !in s.log.owner && j.id !in s.log.cancelled
    ensures var t := Step(s, SubmitEvent(j));
      && t.jobs == s.jobs[j := JobState(PENDING, 0, {}, None, 0)]
      && t.waiting == (if j.deps != [] then s.waiting[j.id := j] else s.waiting)
      && t.delayed == (if j.deps == [] && j.due > s.now then s.delayed[j := 1] else s.delayed)
      && t.queue == (if j.deps == [] && j.due <= s.now then s.queue[j := 1] else s.queue)
      && t.store.records ==
        s.store.records[j.id := Record(Some(j.payload), Some(PENDING), Some(j.priority), Some(j.due))]
      && t.store.active == s.store.active + {j.id}
      && t.running == s.running && t.history == s.history && t.dead == s.dead && t.cancelled == s.cancelled
  {
    NewInQueues(s, j);
    hide Inv;
    var t := Admit(s, j, NEW_JOB_STATE);
    assert Ready(j, {}) <==> j.deps == [];
    assert t.jobs == s.jobs[j := JobState(PENDING, 0, {}, None, 0)];
  }

  /** A worker that accepts a job holds it; without a worker nothing happens. */
  lemma AcceptedRuns(s: State, j: Job, worker: int, reply: Reply, alive: set<int>)
    requires Inv(s) && j in s.queue && j in s.jobs
    ensures Dispatch(s, j, None, reply, alive) == s
    ensures var t := Dispatch(s, j, Some(worker), Accepted, alive);
      && OnlyConcerns(s, t, j)
      && t.jobs[j].status == RUNNING && t.jobs[j].retries == s.jobs[j].retries
      && j !in t.queue && t.running == s.running[j.id := j]
      && t.history == s.history[j.id := Exec(Some(worker), RUNNING)]
      && j.id in t.store.records && t.store.records[j.id].status == Some(RUNNING)
  {
    assert s.queue[j] <= 1 by {
      assert JobOk(s, j);
    }
    HandOverConcerns(s, j, worker);
    hide OnlyConcerns, Inv;
  }

  /** What a verdict finds that is not awaited: the id of a cancelled job, an unknown one, or a job no longer held. */
  lemma UnawaitedVerdict(s: State, id: string, ok: bool, alive: set<int>)
    requires Inv(s) && (id in s.cancelled || id !in s.running)
    ensures Callback(s, id, ok, alive) ==
      if id in s.cancelled then s.(cancelled := s.cancelled - {id})
      else if id !in s.history then s
      else s.(history := s.history[id := s.history[id].(status := if ok then COMPLETED else FAILED)])
  {
  }

  lemma RemovalIsSameBut<V>(m: map<string, V>, id: string)
    ensures SameBut(m, m - {id}, id) && SameBut(m, m, id)
  {
  }

  lemma VerdictIsSameBut(history: map<string, Exec>, id: string, status: Status)
    ensures SameBut(history, WithVerdict(history, id, status), id)
  {
  }

  lemma WithdrawnRooms(s: State, id: string)
    ensures var t := Withdraw(s, id);
      && t.jobs.Keys == s.jobs.Keys && t.waiting == s.waiting - {id} && t.delayed == s.delayed
      && t.dead == s.dead && SameBut(s.running, t.running, id) && SameBut(s.history, t.history, id)
  {
    RemovalIsSameBut(s.running, id);
    UpdateIsSameBut(s.history, id, Exec(None, CANCELLED));
    VerdictIsSameBut(s.history, id, CANCELLED);
    hide SameBut, WithVerdict, Without, Retire;
  }

  lemma WithdrawSpares(s: State, id: string)
    requires Inv(s)
    ensures var t := Withdraw(s, id);
      && t.jobs.Keys == s.jobs.Keys && t.waiting == s.waiting - {id} && t.delayed == s.delayed
      && (forall k :: k in s.jobs && k.id != id ==>
           t.jobs[k] == s.jobs[k] && t.queue[k] == s.queue[k] && SameAt(s.history, t.history, k.id))
      && t.dead == s.dead && SameBut(s.running, t.running, id)
  {
    var t := Withdraw(s, id);
    WithdrawnRooms(s, id);
    forall k | k in s.jobs && k.id != id
      ensures t.jobs[k] == s.jobs[k] && t.queue[k] == s.queue[k] && SameAt(s.history, t.history, k.id)
    {
      hide Withdraw, JobOk, SameBut;
      OwnerOf(s, k);
      WithdrawFrame(s, id, k);
      SameButAt(s.history, t.history, id, k.id);
    }
    hide Withdraw, Inv;
  }

  // ----- cancellation -----

  /** A chain that ends in `id` reaches it for the first time somewhere. */
  lemma {:induction false} FirstReach(waiting: map<string, Job>, p: seq<string>, id: string, n: nat)
    requires Chain(waiting, p) && 1 <= n < |p| && p[0] != id && p[n] == id
    ensures WaitsFor(waiting - {id}, p[0], id)
  {
    if m :| 1 <= m < n && p[m] == id {
      FirstReach(waiting, p, id, m);
    } else {
      var q := p[..n + 1];
      forall i | 0 <= i < |q| - 1
        ensures WaitsDirectly(waiting - {id}, q[i], q[i + 1])
      {
        assert WaitsDirectly(waiting, p[i], p[i + 1]);
      }
      assert Chain(waiting - {id}, q);
    }
  }

  lemma WaitsWithout(waiting: map<string, Job>, k: string, id: string)
    requires k != id
    ensures WaitsFor(waiting - {id}, k, id) <==> WaitsFor(waiting, k, id)
  {
    if WaitsFor(waiting, k, id) {
      var p :| |p| >= 2 && p[0] == k && p[|p| - 1] == id && Chain(waiting, p);
      FirstReach(waiting, p, id, |p| - 1);
    }
    if WaitsFor(waiting - {id}, k, id) {
      var p :| |p| >= 2 && p[0] == k && p[|p| - 1] == id && Chain(waiting - {id}, p);
      forall i | 0 <= i < |p| - 1
        ensures WaitsDirectly(waiting, p[i], p[i + 1])
      {
        assert WaitsDirectly(waiting - {id}, p[i], p[i + 1]);
      }
      assert Chain(waiting, p);
    }
  }

  lemma WithdrawMarks(s: State, id: string)
    ensures var w := Withdraw(s, id);
      && id in w.cancelled && id !in w.store.active
      && id in w.store.records && w.store.records[id].status == Some(CANCELLED)
      && (if id in s.waiting then id in w.history && w.history[id] == Exec(None, CANCELLED)
          else if id in s.history then id in w.history && w.history[id] == s.history[id].(status := CANCELLED)
          else id !in w.history)
  {
  }

  /** Who waits for `id` does so with or without `id` in the waiting room. */
  lemma DiedOfWithdrawal(s: State, w: State, t: State, id: string)
    requires DependentsDied(w, t, id) && w.jobs.Keys == s.jobs.Keys && w.waiting == s.waiting - {id}
    requires w.dead == s.dead
    requires forall k :: k in s.jobs && k.id != id ==> w.jobs[k] == s.jobs[k] && SameAt(s.history, w.history, k.id)
    ensures DependentsDied(s, t, id)
  {
    forall k | k in s.jobs && k.id != id
      ensures if InWaiting(s, k) && WaitsFor(s.waiting, k.id, id) then DiedWaiting(s, t, k) else AsBefore(s, t, k)
    {
      WaitsWithout(s.waiting, k.id, id);
      hide WaitsFor;
      assert InWaiting(w, k) <==> InWaiting(s, k);
    }
  }

  lemma WithdrawOwnNames(s: State, id: string)
    requires OwnNames(s)
    ensures OwnNames(Withdraw(s, id))
  {
  }

  lemma CancelledDependents(s: State, id: string)
    requires Inv(s)
    ensures var t := Cancel(s, id);
      && DependentsDied(s, t, id) && id !in t.waiting
      && t.delayed == s.delayed && SameBut(s.running, t.running, id)
      && (forall k :: k in s.jobs && k.id != id ==> t.queue[k] == s.queue[k])
  {
    var w := Withdraw(s, id);
    WithdrawSpares(s, id);
    InvOwnNames(s);
    hide Withdraw, Cascade, Inv, DependentsDied, SameBut, OwnNames;
    WithdrawOwnNames(s, id);
    CascadeFells(w, id);
    DiedOfWithdrawal(s, w, Cascade(w, id), id);
  }

  lemma CancelledMarks(s: State, id: string)
    requires Inv(s)
    ensures var t := Cancel(s, id);
      && id in t.cancelled && id !in t.store.active
      && id in t.store.records && t.store.records[id].status == Some(CANCELLED)
      && (if id in s.waiting then id in t.history && t.history[id] == Exec(None, CANCELLED)
          else if id in s.history then id in t.history && t.history[id] == s.history[id].(status := CANCELLED)
          else id !in t.history)
  {
    var w := Withdraw(s, id);
    WithdrawMarks(s, id);
    WithdrawnRooms(s, id);
    InvOwnNames(s);
    hide Withdraw, Cascade, Inv, DependentsDied, SameBut, OwnNames;
    WithdrawOwnNames(s, id);
    CascadeFells(w, id);
  }

  /**
   A cancellation kills exactly those that wait for the job, and spares all others, wherever they are.
   The id is CANCELLED on record and in the store, which does not list it any more.
   */
  lemma CancelFells(s: State, id: string)
    requires Inv(s)
    ensures var t := Step(s, CancelEvent(id));
      && DependentsDied(s, t, id) && id !in t.waiting
      && t.delayed == s.delayed && SameBut(s.running, t.running, id)
      && (forall k :: k in s.jobs && k.id != id ==> t.queue[k] == s.queue[k])
    ensures var t := Step(s, CancelEvent(id));
      && id in t.cancelled && id !in t.store.active
      && id in t.store.records && t.store.records[id].status == Some(CANCELLED)
      && (if id in s.waiting then id in t.history && t.history[id] == Exec(None, CANCELLED)
          else if id in s.history then id in t.history && t.history[id] == s.history[id].(status := CANCELLED)
          else id !in t.history)
  {
    assert Step(s, CancelEvent(id)) == Cancel(s, id);
    hide *;
    CancelledDependents(s, id);
    CancelledMarks(s, id);
  }

  // ----- completion -----

  /** k is as it was, where it was, and recorded as it was. */
  ghost predicate Spared(s: State, t: State, k: Job)
    requires k in s.jobs
  {
    && k in t.jobs && t.jobs[k] == s.jobs[k] && SameRecord(s.store, t.store, k.id)
    && (InWaiting(t, k) <==> InWaiting(s, k)) && t.queue[k] == s.queue[k] && t.delayed[k] == s.delayed[k]
  }

  /** The child c has one parent fewer to wait for; if it was the last one, it is off to the queue or to the clock. */
  ghost predicate Served(s: State, t: State, c: Job, parent: string, worker: Option<int>, alive: set<int>)
    requires c in s.jobs
  {
    && c in t.jobs && t.jobs[c].status == s.jobs[c].status && t.jobs[c].retries == s.jobs[c].retries
    && t.jobs[c].satisfied == s.jobs[c].satisfied + {parent}
    && t.jobs[c].preferred ==
      (if c.affinity && s.jobs[c].preferred == None && worker.Some? && worker.value in alive then worker
       else s.jobs[c].preferred)
    && if |t.jobs[c].satisfied| < |c.deps| then
         InWaiting(t, c) && t.queue[c] == 0 && t.delayed[c] == 0 && SameRecord(s.store, t.store, c.id)
       else
         && !InWaiting(t, c)
         && t.queue[c] == (if c.due <= s.now then 1 else 0) && t.delayed[c] == (if c.due <= s.now then 0 else 1)
         && c.id in t.store.active && c.id in t.store.records
         && t.store.records[c.id] == Record(Some(c.payload), Some(PENDING), Some(c.priority), Some(c.due))
  }

  /** j is complete, its waiting children are served, and no other job notices. */
  ghost predicate Concluded(s: State, t: State, j: Job, worker: Option<int>, alive: set<int>)
  {
    && j in s.jobs && j in t.jobs && t.jobs[j].status == COMPLETED && t.jobs[j].retries == s.jobs[j].retries
    && j.id !in t.store.active && j.id in t.store.records && t.store.records[j.id].status == Some(COMPLETED)
    && (j.id in t.history && t.history[j.id].status == COMPLETED) && SameBut(s.history, t.history, j.id)
    && t.dead == s.dead && t.cancelled == s.cancelled && t.now == s.now
    && forall k :: k in s.jobs && k != j ==>
      if InWaiting(s, k) && j.id in k.deps then Served(s, t, k, j.id, worker, alive) else Spared(s, t, k)
  }

  lemma PinSpares(s: State, parent: string, worker: Option<int>, alive: set<int>, k: Job)
    requires k in s.jobs && !(InWaiting(s, k) && parent in k.deps)
    ensures Spared(s, Pin(s, parent, worker, alive), k)
  {
  }

  lemma UnlockSpares(s: State, parent: string, k: Job)
    requires k in s.jobs && SameOwner(s, k) && OwnedIn(s.waiting, s.log.owner)
    requires !(InWaiting(s, k) && parent in k.deps)
    ensures Spared(s, Unlock(s, parent), k)
  {
    assert k.id !in UnlockedIds(s, parent, s.waiting.Keys) && !Kid(s, parent, s.waiting.Keys, k);
    hide Unlock, UnlockedIds, Kid;
    NonKidUntouched(s, parent, k);
  }

  lemma UnlockRecords(s: State, parent: string, c: Job)
    requires c in s.jobs && InWaiting(s, c) && parent in c.deps
    ensures var t := Unlock(s, parent);
      if |s.jobs[c].satisfied + {parent}| < |c.deps| then SameRecord(s.store, t.store, c.id)
      else
        && c.id in t.store.active && c.id in t.store.records
        && t.store.records[c.id] == Record(Some(c.payload), Some(PENDING), Some(c.priority), Some(c.due))
  {
    assert c.id in UnlockedIds(s, parent, s.waiting.Keys) <==> Ready(c, s.jobs[c].satisfied + {parent});
    hide UnlockedIds;
  }

  lemma MarkSpares(s: State, j: Job, worker: Option<int>, k: Job)
    requires k in s.jobs && k.id != j.id
    ensures Spared(s, MarkCompleted(s, j, worker), k)
  {
  }

  lemma SparedTwice(s: State, t: State, u: State, k: Job)
    requires k in s.jobs && Spared(s, t, k) && Spared(t, u, k)
    ensures Spared(s, u, k)
  {
  }

  lemma OtherIsSpared(s: State, j: Job, worker: Option<int>, alive: set<int>, k: Job)
    requires k in s.jobs && SameOwner(s, k) && OwnedIn(s.waiting, s.log.owner) && k.id != j.id
    requires !(InWaiting(s, k) && j.id in k.deps)
    ensures Spared(s, Complete(s, j, worker, alive), k)
  {
    var m := MarkCompleted(s, j, worker);
    var p := Pin(m, j.id, worker, alive);
    MarkSpares(s, j, worker, k);
    assert SameOwner(p, k) && OwnedIn(p.waiting, p.log.owner);
    hide MarkCompleted, Pin, Unlock;
    PinSpares(m, j.id, worker, alive, k);
    UnlockSpares(p, j.id, k);
    SparedTwice(s, m, p, k);
    SparedTwice(s, p, Unlock(p, j.id), k);
  }

  lemma ChildIsServed(s: State, j: Job, worker: Option<int>, alive: set<int>, c: Job)
    requires c in s.jobs && InWaiting(s, c) && j.id in c.deps && c.id != j.id && c !in s.queue && c !in s.delayed
    ensures Served(s, Complete(s, j, worker, alive), c, j.id, worker, alive)
  {
    var m := MarkCompleted(s, j, worker);
    var p := Pin(m, j.id, worker, alive);
    MarkSpares(s, j, worker, c);
    assert m.now == s.now && p.store == m.store;
    hide MarkCompleted, Pin, Unlock;
    PinnedChild(m, j.id, worker, alive, c);
    UnlockedChild(p, j.id, c);
    UnlockRecords(p, j.id, c);
  }

  lemma CompleteConcerns(s: State, j: Job, worker: Option<int>, alive: set<int>)
    requires j in s.jobs && j.id !in s.waiting && j.id in s.history
    ensures var t := Complete(s, j, worker, alive);
      && j in t.jobs && t.jobs[j].status == COMPLETED && t.jobs[j].retries == s.jobs[j].retries
      && j.id !in t.store.active && j.id in t.store.records && t.store.records[j.id].status == Some(COMPLETED)
      && (j.id in t.history && t.history[j.id].status == COMPLETED) && SameBut(s.history, t.history, j.id)
      && t.dead == s.dead && t.cancelled == s.cancelled && t.now == s.now
      && t.running == s.running && t.queue[j] == s.queue[j]
  {
    assert forall soon :: j !in UnlockedJobs(Pin(MarkCompleted(s, j, worker), j.id, worker, alive), j.id,
      s.waiting.Keys, soon);
  }

  /** What completeJob is called on: j is with its worker, or just taken from it, and all is otherwise in order. */
  lemma CompleteConcludes(s: State, j: Job, worker: Option<int>, alive: set<int>)
    requires Shape(s) && j in s.jobs && OthersOk(s, j) && Held(s, j) && j.id !in s.waiting
    requires j.id in s.history
    ensures var t := Complete(s, j, worker, alive);
      Concluded(s, t, j, worker, alive) && t.running == s.running && t.queue[j] == s.queue[j]
  {
    CompleteConcerns(s, j, worker, alive);
    var t := Complete(s, j, worker, alive);
    forall k | k in s.jobs && k != j
      ensures if InWaiting(s, k) && j.id in k.deps then Served(s, t, k, j.id, worker, alive) else Spared(s, t, k)
    {
      hide Complete, Served, Spared;
      OthersElsewhere(s, j, k);
      if InWaiting(s, k) && j.id in k.deps {
        ChildIsServed(s, j, worker, alive, k);
      } else {
        OtherIsSpared(s, j, worker, alive, k);
      }
    }
    hide Complete, Served, Spared;
  }

  lemma ConcludedFrom(s: State, h: State, t: State, j: Job, worker: Option<int>, alive: set<int>)
    requires OnlyConcerns(s, h, j) && Concluded(h, t, j, worker, alive)
    requires j in s.jobs && h.jobs[j].retries == s.jobs[j].retries
    requires forall k :: k in s.jobs && k != j ==> k.id != j.id
    ensures Concluded(s, t, j, worker, alive)
  {
    assert SameBut(s.history, t.history, j.id);
    forall k | k in s.jobs && k != j
      ensures if InWaiting(s, k) && j.id in k.deps then Served(s, t, k, j.id, worker, alive) else Spared(s, t, k)
    {
      assert s.queue[j := 0][k] == h.queue[j := 0][k];
      SameRecordBut(s.store, h.store, j.id, k.id);
    }
    hide Served, Spared;
  }

  lemma SameRecordBut(a: Store, b: Store, id: string, k: string)
    requires SameBut(a.records, b.records, id) && k != id
    requires k in a.active <==> k in b.active
    ensures SameRecord(a, b, k)
  {
    assert k in a.records <==> k in a.records - {id};
    assert k in b.records <==> k in b.records - {id};
    if k in a.records {
      assert a.records[k] == (a.records - {id})[k] == (b.records - {id})[k] == b.records[k];
    }
  }

  lemma OtherIds(s: State, j: Job)
    requires Inv(s) && j in s.jobs
    ensures forall k :: k in s.jobs && k != j ==> k.id != j.id
  {
    OwnerOf(s, j);
    forall k | k in s.jobs && k != j
      ensures k.id != j.id
    {
      OwnerOf(s, k);
    }
  }

  lemma HandedOver(s: State, j: Job, worker: int)
    requires Inv(s) && j in s.queue && j in s.jobs
    ensures var h := HandOver(s, j, worker);
      && h.running == s.running[j.id := j] && j.id in h.history
      && Shape(h) && j in h.jobs && OthersOk(h, j) && Held(h, j) && j.id !in h.waiting && j !in h.queue
  {
    var h := HandOver(s, j, worker);
    HandOverKeeps(s, j, worker);
    assert h.running == s.running[j.id := j] && j.id in h.history && j in h.jobs && h.waiting == s.waiting;
    hide HandOver;
    InvSplits(h, j);
    RunningIsHeld(h, j);
    assert j.id in h.waiting ==> InWaiting(h, j);
  }

  /** A worker's answer that is neither an acceptance nor an error concludes the job, which yet stays in runningJobs. */
  lemma AnswerConcludes(s: State, j: Job, worker: int, result: string, alive: set<int>)
    requires Inv(s) && j in s.queue && j in s.jobs
    ensures var t := Dispatch(s, j, Some(worker), Finished(result), alive);
      Concluded(s, t, j, Some(worker), alive) && j !in t.queue && t.running == s.running[j.id := j]
  {
    var h := HandOver(s, j, worker);
    OtherIds(s, j);
    HandOverConcerns(s, j, worker);
    HandedOver(s, j, worker);
    assert Dispatch(s, j, Some(worker), Finished(result), alive) == Complete(h, j, Some(worker), alive);
    hide *;
    CompleteConcludes(h, j, Some(worker), alive);
    ConcludedFrom(s, h, Complete(h, j, Some(worker), alive), j, Some(worker), alive);
  }

  /** A verdict of success on a job that is with a worker concludes it, on the worker it was handed to. */
  lemma VerdictConcludes(s: State, j: Job, alive: set<int>)
    requires Inv(s) && j in s.jobs && InRunning(s, j) && j.id !in s.cancelled
    ensures var t := Callback(s, j.id, true, alive);
      j.id in s.history && Concluded(s, t, j, s.history[j.id].worker, alive) && t.running == s.running - {j.id}
  {
    var c := Collect(s, j.id);
    OtherIds(s, j);
    assert OnlyConcerns(s, c, j) && c.jobs == s.jobs && c.running == s.running - {j.id};
    CollectKeeps(s, j);
    RunningHasHistory(s, j.id);
    var worker := s.history[j.id].worker;
    assert Callback(s, j.id, true, alive) == Complete(c, j, worker, alive);
    hide Complete, Collect, Concluded, OnlyConcerns, Callback;
    HeldOf(c, j);
    assert j.id !in c.waiting;
    hide Inv, InvBut, Held, Shape, OthersOk;
    CompleteConcludes(c, j, worker, alive);
    ConcludedFrom(s, c, Complete(c, j, worker, alive), j, worker, alive);
  }
}
