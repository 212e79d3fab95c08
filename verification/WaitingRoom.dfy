/**
 Why a job that was submitted together with its parents is not forgotten: every
 parent either still is somewhere in the scheduler, or has completed and is ticked
 off, or failed for good without being retried.
 */
module WaitingRoom {
  import opened Prelude
  import opened Jobs
  import opened Graphs
  import opened SchedulerModel
  import opened Invariants

  predicate Parent(c: Job, d: string)
  {
    d in c.deps
  }

  ghost predicate Ticked(s: State, c: Job, d: string)
    requires c in s.jobs
  {
    d in s.log.completed ==> d in s.jobs[c].satisfied
  }

  /** d, the parent of a waiting job, did not end badly - except by being abandoned. */
  ghost predicate NotLost(s: State, d: string)
  {
    d in s.log.owner && s.log.owner[d] in s.jobs && Places(s, s.log.owner[d]) == 0 ==>
      d in s.log.completed || s.jobs[s.log.owner[d]].status == FAILED
  }

  /**
   `unticked` and `lost` name the exceptions allowed while a handler is half-way; a
   parent named in both may even be cancelled.
   */
  ghost predicate WaitOk(s: State, unticked: set<string>, lost: set<string>, c: Job, d: string)
    requires c in s.jobs
  {
    && (d !in unticked ==> Ticked(s, c, d))
    && (d !in lost ==> NotLost(s, d))
    && (d !in unticked || d !in lost ==> d !in s.log.cancelled)
  }

  ghost predicate WaitsBut(s: State, unticked: set<string>, lost: set<string>)
  {
    forall c, d {:trigger Parent(c, d)} ::
      c in s.jobs && InWaiting(s, c) && Parent(c, d) ==> WaitOk(s, unticked, lost, c, d)
  }

  ghost predicate Waits(s: State)
  {
    WaitsBut(s, {}, {})
  }

  // ----- the primitive steps -----

  lemma QuietWaits(s: State, unticked: set<string>, lost: set<string>, now: int, id: string, ok: bool)
    requires WaitsBut(s, unticked, lost)
    ensures WaitsBut(Tick(s, now), unticked, lost)
    ensures WaitsBut(ForgetCancellation(s, id), unticked, lost)
    ensures WaitsBut(Note(s, id, ok), unticked, lost)
  {
  }

  lemma ReleaseWaits(s: State, j: Job)
    requires Waits(s) && j in s.delayed
    ensures Waits(Release(s, j))
  {
  }

  lemma HandOverWaits(s: State, j: Job, worker: int)
    requires Waits(s) && j in s.jobs && j in s.queue && s.jobs[j].status != FAILED && s.jobs[j].status == PENDING
    requires j.id !in s.running && !InWaiting(s, j)
    ensures Waits(HandOver(s, j, worker))
  {
  }

  lemma TakeBackWaits(s: State, j: Job)
    requires Waits(s) && OwnedIn(s.running, s.log.owner) && SameOwner(s, j)
    requires Owns(s.log.owner, s.jobs)
    ensures WaitsBut(TakeBack(s, j.id), {}, {j.id}) && WaitsBut(Collect(s, j.id), {}, {j.id})
  {
  }

  lemma MarkWaits(s: State, j: Job, worker: Option<int>)
    requires WaitsBut(s, {}, {j.id}) && SameOwner(s, j) && Owns(s.log.owner, s.jobs)
    ensures WaitsBut(MarkCompleted(s, j, worker), {j.id}, {})
  {
  }

  lemma PinWaits(s: State, unticked: set<string>, parent: string, worker: Option<int>, alive: set<int>)
    requires WaitsBut(s, unticked, {})
    ensures WaitsBut(Pin(s, parent, worker, alive), unticked, {})
  {
  }

  lemma UnlockedStillHeld(s: State, parent: string, p: Job)
    requires p in s.jobs && Places(s, p) > 0
    ensures Places(Unlock(s, parent), p) > 0
  {
  }

  lemma UnlockWaits(s: State, parent: string)
    requires WaitsBut(s, {parent}, {}) && OwnedIn(s.waiting, s.log.owner)
    ensures Waits(Unlock(s, parent))
  {
    var t := Unlock(s, parent);
    UnlockOwners(s, parent);
    forall c, d | c in t.jobs && InWaiting(t, c) && Parent(c, d)
      ensures WaitOk(t, {}, {}, c, d)
    {
      assert WaitOk(s, {parent}, {}, c, d);
      if d in s.log.owner && s.log.owner[d] in s.jobs && Places(s, s.log.owner[d]) > 0 {
        UnlockedStillHeld(s, parent, s.log.owner[d]);
      }
      hide UnlockedIds, UnlockedJobs, Unlocks, Ready, PersistAll;
    }
  }

  lemma AbandonWaits(s: State, j: Job)
    requires WaitsBut(s, {}, {j.id}) && SameOwner(s, j) && Owns(s.log.owner, s.jobs)
    ensures Waits(Abandon(s, j))
  {
  }

  lemma RequeueWaits(s: State, j: Job)
    requires WaitsBut(s, {}, {j.id}) && j in s.jobs && SameOwner(s, j) && Owns(s.log.owner, s.jobs)
    requires s.jobs[j].status != FAILED
    ensures Waits(Requeue(s, j))
  {
  }

  lemma ExhaustWaits(s: State, j: Job)
    requires WaitsBut(s, {}, {j.id}) && j in s.jobs && SameOwner(s, j) && Owns(s.log.owner, s.jobs)
    ensures WaitsBut(Exhaust(s, j), {j.id}, {j.id})
  {
  }

  lemma StillWaits(s: State, id: string, c: Job)
    requires Shape(s) && c in Withdraw(s, id).jobs && InWaiting(Withdraw(s, id), c)
    ensures c in s.jobs && InWaiting(s, c) && s.jobs[c].satisfied == Withdraw(s, id).jobs[c].satisfied
  {
  }

  lemma WithdrawWaits(s: State, id: string)
    requires Waits(s) && Shape(s)
    ensures WaitsBut(Withdraw(s, id), {id}, {id})
  {
    var t := Withdraw(s, id);
    forall c, d | c in t.jobs && InWaiting(t, c) && Parent(c, d)
      ensures WaitOk(t, {id}, {id}, c, d)
    {
      StillWaits(s, id, c);
      assert WaitOk(s, {}, {}, c, d);
      if d != id && d in s.log.owner {
        WithdrawFrame(s, id, s.log.owner[d]);
      }
      assert t.log.owner == s.log.owner && t.log.completed == s.log.completed;
      assert d != id && d in t.log.cancelled ==> d in s.log.cancelled;
      hide Withdraw;
    }
  }

  /** Who is left waiting after a cascade waits for nobody the cascade took. */
  lemma DoomedClosed(waiting: map<string, Job>, parent: string, id: string, d: string)
    requires id in waiting && d in waiting[id].deps && id !in Doomed(waiting, parent)
    ensures d != parent && d !in Doomed(waiting, parent)
  {
    var g := WaitGraph(waiting);
    assert Edge(g, id, d);
    EdgeDepends(g, id, d);
    if d in Doomed(waiting, parent) {
      DependsTransitive(g, id, d, parent);
    }
  }

  lemma CascadeWaits(s: State, parent: string)
    requires WaitsBut(s, {parent}, {parent}) && Owns(s.log.owner, s.jobs)
    ensures Waits(Cascade(s, parent))
  {
    var doomed := Doomed(s.waiting, parent);
    var t := KillAll(s, doomed);
    forall c, d | c in t.jobs && InWaiting(t, c) && Parent(c, d)
      ensures WaitOk(t, {}, {}, c, d)
    {
      assert WaitOk(s, {parent}, {parent}, c, d);
      DoomedClosed(s.waiting, parent, c.id, d);
      hide Doomed;
    }
  }

  // ----- whole handlers -----

  lemma CompleteWaits(s: State, j: Job, worker: Option<int>, alive: set<int>)
    requires WaitsBut(s, {}, {j.id}) && SameOwner(s, j) && Shape(s)
    ensures Waits(Complete(s, j, worker, alive))
  {
    var t := MarkCompleted(s, j, worker);
    var u := Pin(t, j.id, worker, alive);
    assert u.waiting == s.waiting && u.log.owner == s.log.owner;
    hide MarkCompleted, Pin, Unlock, WaitsBut;
    MarkWaits(s, j, worker);
    PinWaits(t, {j.id}, j.id, worker, alive);
    UnlockWaits(u, j.id);
  }

  lemma ExhaustOwners(s: State, j: Job)
    requires j in s.jobs && Owns(s.log.owner, s.jobs)
    ensures Owns(Exhaust(s, j).log.owner, Exhaust(s, j).jobs)
  {
  }

  /** A waiting child of a cancelled job would have been taken by its cascade. */
  lemma CancelledHasNoKids(s: State, id: string)
    requires WaitsBut(s, {}, {id}) && id in s.log.cancelled
    ensures Waits(s)
  {
  }

  lemma FailWaits(s: State, j: Job)
    requires WaitsBut(s, {}, {j.id}) && j in s.jobs && SameOwner(s, j) && Shape(s) && s.jobs[j].status != FAILED
    ensures Waits(Fail(s, j))
  {
    if j.id in s.cancelled {
      CancelledHasNoKids(s, j.id);
    } else {
      ExhaustOwners(s, j);
      hide WaitsBut, Abandon, Exhaust, Requeue, Cascade;
      if WORKER_PREFIX <= j.id {
        AbandonWaits(s, j);
      } else if s.jobs[j].retries + 1 > MAX_RETRIES {
        ExhaustWaits(s, j);
        CascadeWaits(Exhaust(s, j), j.id);
      } else {
        RequeueWaits(s, j);
      }
    }
  }

  lemma CancelWaits(s: State, id: string)
    requires Waits(s) && Shape(s)
    ensures Waits(Cancel(s, id))
  {
    WithdrawShape(s, id);
    hide WaitsBut, Withdraw, Cascade;
    WithdrawWaits(s, id);
    CascadeWaits(Withdraw(s, id), id);
  }

  /** What the failure and completion lemmas need to know of a job its worker has given up. */
  ghost predicate Given(s: State, j: Job)
  {
    Shape(s) && j in s.jobs && SameOwner(s, j) && s.jobs[j].status != FAILED
  }

  lemma RunningIsGiven(s: State, j: Job)
    requires Inv(s) && j in s.jobs && InRunning(s, j)
    ensures Given(s, j) && Given(TakeBack(s, j.id), j) && Given(Collect(s, j.id), j)
  {
    assert JobOk(s, j);
  }

  lemma ReplyWaits(s: State, j: Job, worker: int, reply: Reply, alive: set<int>)
    requires Inv(s) && Waits(s) && j in s.jobs && InRunning(s, j)
    ensures Waits(HandleReply(s, j, worker, reply, alive))
  {
    RunningIsGiven(s, j);
    hide Inv, Shape, WaitsBut, TakeBack, Complete, Fail, Abandon, NonRecoverable;
    match reply {
      case Accepted =>
      case Finished(_) =>
        WeakenWaits(s, {}, {j.id});
        CompleteWaits(s, j, Some(worker), alive);
      case Failed(message) =>
        TakeBackWaits(s, j);
        if NonRecoverable(message) {
          AbandonWaits(TakeBack(s, j.id), j);
        } else {
          FailWaits(TakeBack(s, j.id), j);
        }
    }
  }

  lemma WeakenWaits(s: State, unticked: set<string>, lost: set<string>)
    requires Waits(s)
    ensures WaitsBut(s, unticked, lost)
  {
  }

  lemma QueuedIsPending(s: State, j: Job)
    requires Inv(s) && j in s.queue
    ensures j in s.jobs && s.jobs[j].status == PENDING && j.id !in s.running && !InWaiting(s, j)
  {
    assert JobOk(s, j);
  }

  lemma DispatchWaits(s: State, j: Job, target: Option<int>, reply: Reply, alive: set<int>)
    requires Inv(s) && Waits(s) && j in s.queue && j in s.jobs
    ensures Waits(Dispatch(s, j, target, reply, alive))
  {
    QueuedIsPending(s, j);
    hide Inv, WaitsBut, HandOver, HandleReply;
    if target.Some? {
      HandOverKeeps(s, j, target.value);
      HandOverWaits(s, j, target.value);
      HandOverJobs(s, j, target.value);
      ReplyWaits(HandOver(s, j, target.value), j, target.value, reply, alive);
    }
  }

  lemma CallbackWaits(s: State, id: string, ok: bool, alive: set<int>)
    requires Inv(s) && Waits(s) && (id in s.running ==> s.running[id] in s.jobs && s.running[id].id == id)
    ensures Waits(Callback(s, id, ok, alive))
  {
    QuietWaits(s, {}, {}, s.now, id, ok);
    if id !in s.cancelled && id !in s.history {
      RunningHasHistory(s, id);
      assert Collect(s, id) == s;
    } else if id !in s.cancelled && id in s.running {
      var j := s.running[id];
      RunningIsGiven(s, j);
      hide Inv, WaitsBut, TakeBack, Collect, Complete, Fail;
      TakeBackWaits(s, j);
      if ok {
        CompleteWaits(Collect(s, id), j, s.history[id].worker, alive);
      } else {
        FailWaits(TakeBack(s, id), j);
      }
    }
  }

  /** Every step but a submission keeps the promise made to the waiting jobs. */
  lemma StepWaits(s: State, e: Event)
    requires Inv(s) && Waits(s) && Consistent(s) && Enabled(s, e) && !e.SubmitEvent?
    ensures Waits(Step(s, e))
  {
    hide Inv, WaitsBut, Release, Dispatch, Callback, Cancel, Tick;
    match e {
      case TimePasses(now) => QuietWaits(s, {}, {}, now, "", true);
      case ReleaseEvent(j) => ReleaseWaits(s, j);
      case DispatchEvent(j, target, reply, alive) => DispatchWaits(s, j, target, reply, alive);
      case CallbackEvent(id, ok, alive) => CallbackWaits(s, id, ok, alive);
      case CancelEvent(id) =>
        assert Shape(s) by { InvShape(s); }
        CancelWaits(s, id);
    }
  }

  lemma InvShape(s: State)
    requires Inv(s)
    ensures Shape(s)
  {
  }
}
