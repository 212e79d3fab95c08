/** When a completion is final, and what undoes one that is not. */
module Finality {
  import opened Prelude
  import opened Jobs
  import opened SchedulerModel
  import opened Invariants
  import opened Runs

  ghost predicate Done(s: State, j: Job)
  {
    j in s.jobs && s.jobs[j].status == COMPLETED
  }

  /** j, which is neither waiting nor queued, stays as it is and where it is. */
  ghost predicate LeftAlone(s: State, t: State, j: Job)
    requires j in s.jobs
  {
    && j in t.jobs && t.jobs[j].status == s.jobs[j].status
    && !InWaiting(t, j) && (j.id in t.running <==> j.id in s.running)
  }

  // ----- steps on other jobs -----

  lemma QuietLeaves(s: State, k: Job, now: int, j: Job)
    requires j in s.jobs && !InWaiting(s, j)
    ensures k !in s.jobs && k.id != j.id ==> LeftAlone(s, Admit(s, k, NEW_JOB_STATE), j)
    ensures LeftAlone(s, Tick(s, now), j) && LeftAlone(s, Release(s, k), j)
  {
  }

  lemma CompleteLeaves(s: State, k: Job, worker: Option<int>, alive: set<int>, j: Job)
    requires j in s.jobs && !InWaiting(s, j)
    ensures k == j ==> Done(Complete(s, k, worker, alive), j)
    ensures k != j ==> LeftAlone(s, Complete(s, k, worker, alive), j)
    ensures Complete(s, k, worker, alive).running == s.running
  {
  }

  lemma CascadeLeaves(s: State, parent: string, j: Job)
    requires j in s.jobs && !InWaiting(s, j)
    ensures LeftAlone(s, Cascade(s, parent), j) && Cascade(s, parent).running == s.running
  {
  }

  /** A failure that is not swallowed ends or restarts the job it is about, and leaves the others. */
  lemma FailLeaves(s: State, k: Job, j: Job)
    requires k in s.jobs && j in s.jobs && !InWaiting(s, j)
    ensures Fail(s, k).running == s.running
    ensures k != j ==> LeftAlone(s, Fail(s, k), j)
    ensures k == j && k.id !in s.cancelled ==> j in Fail(s, k).jobs && !Done(Fail(s, k), j)
  {
    hide Cascade;
    if k.id !in s.cancelled && !(WORKER_PREFIX <= k.id) && s.jobs[k].retries + 1 > MAX_RETRIES {
      var t := Exhaust(s, k);
      CascadeLeaves(t, k.id, j);
    }
  }

  lemma ReplyLeaves(s: State, k: Job, worker: int, reply: Reply, alive: set<int>, j: Job)
    requires k in s.jobs && j in s.jobs && !InWaiting(s, j) && k != j && k.id != j.id
    ensures LeftAlone(s, HandleReply(s, k, worker, reply, alive), j)
  {
    hide Complete, Fail, NonRecoverable;
    CompleteLeaves(s, k, Some(worker), alive, j);
    var t := TakeBack(s, k.id);
    FailLeaves(t, k, j);
  }

  lemma DispatchLeaves(s: State, k: Job, target: Option<int>, reply: Reply, alive: set<int>, j: Job)
    requires k in s.jobs && j in s.jobs && !InWaiting(s, j) && k != j && k.id != j.id
    ensures LeftAlone(s, Dispatch(s, k, target, reply, alive), j)
  {
    hide HandleReply;
    if target.Some? {
      var h := HandOver(s, k, target.value);
      assert LeftAlone(s, h, j);
      HandOverJobs(s, k, target.value);
      ReplyLeaves(h, k, target.value, reply, alive, j);
    }
  }

  lemma CallbackLeaves(s: State, id: string, ok: bool, alive: set<int>, j: Job)
    requires id in s.running ==> s.running[id] in s.jobs && s.running[id].id == id
    requires j in s.jobs && !InWaiting(s, j) && id != j.id
    ensures LeftAlone(s, Callback(s, id, ok, alive), j)
  {
    hide Complete, Fail;
    if id !in s.cancelled && id in s.running && id in s.history {
      var t, u := Collect(s, id), TakeBack(s, id);
      CompleteLeaves(t, s.running[id], s.history[id].worker, alive, j);
      FailLeaves(u, s.running[id], j);
    }
  }

  lemma CancelLeaves(s: State, id: string, j: Job)
    requires j in s.jobs && !InWaiting(s, j)
    requires forall w :: w in s.waiting ==> s.waiting[w].id == w
    requires forall w :: w in s.running ==> s.running[w].id == w
    requires j.id !in s.waiting && (j.id in s.running ==> s.running[j.id] == j)
    ensures id != j.id || id !in s.running ==> LeftAlone(s, Cancel(s, id), j)
    ensures id == j.id && id in s.running ==> j in Cancel(s, id).jobs && Cancel(s, id).jobs[j].status == CANCELLED
  {
    var t := Withdraw(s, id);
    hide Cascade;
    CascadeLeaves(t, id, j);
  }

  // ----- a step on the job itself -----

  lemma OwnCallback(s: State, j: Job, ok: bool, alive: set<int>)
    requires Done(s, j) && !InWaiting(s, j)
    requires j.id in s.running ==> s.running[j.id] == j && j.id in s.history
    ensures var t := Callback(s, j.id, ok, alive);
      j in t.jobs && (Done(t, j) <==> ok || j.id !in s.running || j.id in s.cancelled) &&
      (j.id in t.running <==> j.id in s.running && j.id in s.cancelled)
  {
    hide Complete, Fail;
    if j.id !in s.cancelled && j.id in s.running {
      CompleteLeaves(Collect(s, j.id), j, s.history[j.id].worker, alive, j);
      FailLeaves(TakeBack(s, j.id), j, j);
    }
  }

  lemma DoneIsPlaced(s: State, j: Job)
    requires Inv(s) && Done(s, j)
    ensures !InWaiting(s, j) && j !in s.queue && j !in s.delayed && j.id !in s.waiting
    ensures j.id in s.running ==> s.running[j.id] == j && j.id in s.history
    ensures forall k :: k in s.jobs && k.id == j.id ==> k == j
  {
    assert JobOk(s, j);
    forall k | k in s.jobs && k.id == j.id
      ensures k == j
    {
      assert JobOk(s, k);
    }
  }

  /** What can take a completion back: a failed verdict or a cancellation, of a job still listed as running. */
  ghost predicate Disturbs(s: State, e: Event, j: Job)
  {
    && j.id in s.running
    && match e
       case CallbackEvent(id, ok, _) => id == j.id && !ok && id !in s.cancelled
       case CancelEvent(id) => id == j.id
       case _ => false
  }

  /** In t the completion of j is taken back, or not. */
  ghost predicate TakenBack(s: State, t: State, j: Job, yes: bool)
  {
    j in t.jobs && (Done(t, j) <==> !yes) && (j.id !in s.running ==> j.id !in t.running)
  }

  lemma QuietDisturbs(s: State, k: Job, now: int, j: Job)
    requires Inv(s) && Done(s, j)
    ensures k !in s.jobs && k.id !in s.log.owner ==> TakenBack(s, Admit(s, k, NEW_JOB_STATE), j, false)
    ensures TakenBack(s, Tick(s, now), j, false) && TakenBack(s, Release(s, k), j, false)
  {
    DoneIsPlaced(s, j);
    OwnerOf(s, j);
    hide Inv, Admit, Tick, Release;
    QuietLeaves(s, k, now, j);
  }

  lemma DispatchDisturbs(s: State, k: Job, target: Option<int>, reply: Reply, alive: set<int>, j: Job)
    requires Inv(s) && Done(s, j) && k in s.queue && k in s.jobs
    ensures TakenBack(s, Dispatch(s, k, target, reply, alive), j, false)
  {
    DoneIsPlaced(s, j);
    hide Inv, Dispatch;
    DispatchLeaves(s, k, target, reply, alive, j);
  }

  lemma CallbackDisturbs(s: State, id: string, ok: bool, alive: set<int>, j: Job)
    requires Inv(s) && Consistent(s) && Done(s, j)
    ensures TakenBack(s, Callback(s, id, ok, alive), j, Disturbs(s, CallbackEvent(id, ok, alive), j))
  {
    DoneIsPlaced(s, j);
    hide Inv, Callback;
    if id == j.id {
      OwnCallback(s, j, ok, alive);
    } else {
      CallbackLeaves(s, id, ok, alive, j);
    }
  }

  lemma CancelDisturbs(s: State, id: string, j: Job)
    requires Inv(s) && Consistent(s) && Done(s, j)
    ensures TakenBack(s, Cancel(s, id), j, Disturbs(s, CancelEvent(id), j))
  {
    DoneIsPlaced(s, j);
    hide Inv, Cancel;
    CancelLeaves(s, id, j);
    assert Cancel(s, id).running.Keys <= s.running.Keys by { CancelRunning(s, id); }
  }

  lemma CancelRunning(s: State, id: string)
    ensures Cancel(s, id).running.Keys <= s.running.Keys
  {
    hide Doomed;
  }

  /** A step takes a completion back exactly if it disturbs it; and what is not running does not start to. */
  lemma DisturbedExactly(s: State, e: Event, j: Job)
    requires Inv(s) && Consistent(s) && Enabled(s, e) && FreshId(s, e) && Done(s, j)
    ensures j in Step(s, e).jobs && (Done(Step(s, e), j) <==> !Disturbs(s, e, j))
    ensures j.id !in s.running ==> j.id !in Step(s, e).running
  {
    hide Inv, Dispatch, Callback, Cancel, Admit, Tick, Release, Done;
    match e {
      case SubmitEvent(k) => QuietDisturbs(s, k, s.now, j);
      case TimePasses(now) => QuietDisturbs(s, j, now, j);
      case ReleaseEvent(k) => QuietDisturbs(s, k, s.now, j);
      case DispatchEvent(k, target, reply, alive) => DispatchDisturbs(s, k, target, reply, alive, j);
      case CallbackEvent(id, ok, alive) => CallbackDisturbs(s, id, ok, alive, j);
      case CancelEvent(id) => CancelDisturbs(s, id, j);
    }
  }

  lemma StaysFinal(s: State, e: Event, t: State, j: Job)
    requires Inv(s) && Moves(s, e, t) && Done(s, j) && j.id !in s.running
    ensures Done(t, j) && j.id !in t.running && t.jobs[j].dispatches == s.jobs[j].dispatches
  {
    DisturbedExactly(s, e, j);
    MovesEffects(s, e, t);
    DoneIsPlaced(s, j);
    hide Inv, Step, Done;
  }

  /**
   A completion is final once the job is out of runningJobs: in every continuation of the run,
   whatever is reported or cancelled, it stays completed and is never handed over again.
   */
  lemma {:induction false} CompletionIsFinal(states: seq<State>, events: seq<Event>, i: nat, k: nat, j: Job)
    requires Run(states, events) && i <= k < |states| && Done(states[i], j) && j.id !in states[i].running
    ensures Done(states[k], j) && j.id !in states[k].running
    ensures states[k].jobs[j].dispatches == states[i].jobs[j].dispatches
  {
    hide Moves, Booted, Inv;
    if i < k {
      CompletionIsFinal(states, events, i, k - 1, j);
      RunKeeps(states, events, k - 1);
      assert MovesAt(states, events, k - 1);
      StaysFinal(states[k - 1], events[k - 1], states[k], j);
    }
  }

  // ----- the two ways to complete -----

  /** A completion reported by callback takes the job out of runningJobs, so it is final. */
  lemma CalledBackIsFinal(s: State, j: Job, alive: set<int>)
    requires Inv(s) && j in s.jobs && InRunning(s, j) && j.id !in s.cancelled
    ensures var t := Callback(s, j.id, true, alive); Done(t, j) && j.id !in t.running
  {
    OwnerOf(s, j);
    hide Inv, Complete;
    CompleteLeaves(Collect(s, j.id), j, s.history[j.id].worker, alive, j);
  }

  /** A completion in the worker's own answer leaves the job there, so it is not. */
  lemma AnsweredIsStillListed(s: State, j: Job, worker: int, result: string, alive: set<int>)
    requires Inv(s) && j in s.jobs && j in s.queue
    ensures var t := Dispatch(s, j, Some(worker), Finished(result), alive); Done(t, j) && InRunning(t, j)
  {
    OwnerOf(s, j);
    var h := HandOver(s, j, worker);
    assert j in h.jobs && !InWaiting(h, j) && InRunning(h, j) by {
      hide OrderOk, StoreOk, PinOk, BudgetOk;
    }
    hide Inv, JobOk, Complete, HandOver;
    CompleteLeaves(h, j, Some(worker), alive, j);
  }

  lemma FailOfDone(s: State, j: Job)
    requires j in s.jobs && j.id !in s.cancelled && j.id !in s.waiting
    ensures var t := Fail(s, j); var retries := s.jobs[j].retries;
      j in t.jobs &&
      if WORKER_PREFIX <= j.id then t == Abandon(s, j)
      else if retries < MAX_RETRIES then
        t.queue == s.queue + multiset{j} && t.jobs[j] == s.jobs[j].(status := PENDING, retries := retries + 1)
        && t.store.active == s.store.active
      else
        t.jobs[j].status == DEAD && j in t.dead && t.waiting == s.waiting - Doomed(s.waiting, j.id)
  {
    hide Doomed;
  }

  /**
   What a failed verdict does to a completed job that is still in runningJobs. With retries
   left it is queued to run again, although the store no longer lists it, so a crash would lose
   it; with none left it dies, and takes everything that still waits for it along.
   */
  lemma CompletionTakenBack(s: State, j: Job, alive: set<int>)
    requires Inv(s) && Done(s, j) && j.id in s.running && j.id !in s.cancelled
    ensures var t := Callback(s, j.id, false, alive); var retries := s.jobs[j].retries;
      j in t.jobs && j.id !in t.running && j.id !in t.store.active && retries <= MAX_RETRIES &&
      if WORKER_PREFIX <= j.id then t.jobs[j].status == FAILED && Places(t, j) == 0
      else if retries < MAX_RETRIES then
        t.jobs[j].status == PENDING && t.jobs[j].retries == retries + 1 && t.queue == s.queue + multiset{j}
      else
        t.jobs[j].status == DEAD && j in t.dead && t.waiting == s.waiting - Doomed(s.waiting, j.id)
  {
    DoneIsPlaced(s, j);
    assert JobOk(s, j);
    assert j.id in s.log.completed;
    hide Inv, Doomed, Fail, Cascade;
    var u := TakeBack(s, j.id);
    FailOfDone(u, j);
    FailLeaves(u, j, j);
    FailStore(u, j);
  }

  lemma FailStore(s: State, j: Job)
    requires j in s.jobs
    ensures Fail(s, j).store.active <= s.store.active
  {
  }
}
