/** What every step of the scheduler keeps, for any callbacks and cancellations whatever. */
module Invariants {
  import opened Prelude
  import opened Jobs
  import opened SchedulerModel

  ghost predicate InWaiting(s: State, j: Job)
  {
    j.id in s.waiting && s.waiting[j.id] == j
  }

  ghost predicate InRunning(s: State, j: Job)
  {
    j.id in s.running && s.running[j.id] == j
  }

  ghost function Bit(b: bool): nat
  {
    if b then 1 else 0
  }

  /** In how many places the master holds j. */
  ghost function Places(s: State, j: Job): nat
  {
    Bit(InWaiting(s, j)) + s.delayed[j] + s.queue[j] + Bit(InRunning(s, j))
  }

  predicate Over(status: Status)
  {
    status == COMPLETED || status == FAILED || status == DEAD || status == CANCELLED
  }

  ghost predicate Owns(owner: map<string, Job>, jobs: map<Job, JobState>)
  {
    forall id :: id in owner ==> owner[id].id == id && owner[id] in jobs
  }

  ghost predicate OwnedIn(m: map<string, Job>, owner: map<string, Job>)
  {
    forall id :: id in m ==> id in owner && owner[id] == m[id]
  }

  /** Every id has one owner, and nothing is known under an id that was never submitted. */
  ghost predicate Shape(s: State)
  {
    && Owns(s.log.owner, s.jobs)
    && OwnedIn(s.waiting, s.log.owner)
    && OwnedIn(s.running, s.log.owner)
    && (forall j :: j in s.queue ==> j in s.jobs)
    && (forall j :: j in s.delayed ==> j in s.jobs)
    && s.history.Keys <= s.log.owner.Keys
    && s.store.active <= s.log.owner.Keys
    && s.log.completed <= s.log.owner.Keys
    && s.log.exhausted <= s.log.owner.Keys
    && s.cancelled <= s.log.cancelled
  }

  /** A job is in at most one place, and in one unless it is over. */
  ghost predicate PlaceOk(s: State, j: Job)
    requires j in s.jobs
  {
    && Places(s, j) <= 1
    && (Places(s, j) == 0 ==> Over(s.jobs[j].status) || j.id in s.log.cancelled)
    && (InWaiting(s, j) || j in s.delayed || j in s.queue ==> s.jobs[j].status == PENDING)
    && (InRunning(s, j) ==> s.jobs[j].status == RUNNING || s.jobs[j].status == COMPLETED)
    && (InRunning(s, j) ==> j.id in s.history)
    && (s.jobs[j].status == CANCELLED ==> j.id in s.log.cancelled)
    && (s.jobs[j].status == DEAD ==> j in s.dead)
  }

  /** Hand-overs are paid for by retries. */
  ghost predicate BudgetOk(s: State, j: Job)
    requires j in s.jobs
  {
    var t := s.jobs[j];
    && t.dispatches <= MAX_RETRIES + 1
    && (InWaiting(s, j) || j in s.delayed ==> t.retries == 0 && t.dispatches == 0)
    && (j in s.queue ==> t.dispatches == t.retries <= MAX_RETRIES)
    && (InRunning(s, j) ==> t.dispatches == t.retries + 1 && t.retries <= MAX_RETRIES)
  }

  /** Only jobs with every parent completed, and whose time has come, are on their way to a worker. */
  ghost predicate OrderOk(s: State, j: Job)
    requires j in s.jobs
  {
    var t := s.jobs[j];
    && t.satisfied <= DepSet(j.deps) * s.log.completed
    && (InWaiting(s, j) ==> !Ready(j, t.satisfied))
    && (j in s.delayed ==> Ready(j, t.satisfied))
    && (j in s.queue || InRunning(s, j) || t.dispatches > 0 ==> Ready(j, t.satisfied) && j.due <= s.now)
    && (j.id in s.log.completed ==> t.dispatches > 0)
    && (t.status == COMPLETED ==> j.id in s.log.completed)
  }

  predicate LiveStatus(status: Option<Status>)
  {
    status == Some(PENDING) || status == Some(RUNNING)
  }

  /** The record of j: its payload and priority, and its due time unless that is past anyway. */
  ghost predicate SavedAs(s: State, r: Record, j: Job)
  {
    && r.payload == Some(j.payload) && r.priority == Some(j.priority) && r.due.Some?
    && (r.due.value == j.due || r.due.value < j.due <= s.now)
  }

  /** What the store says about j, and exactly when it lists j as active. */
  ghost predicate StoreOk(s: State, j: Job)
    requires j in s.jobs
  {
    && j.id in s.store.records
    && SavedAs(s, s.store.records[j.id], j)
    && (j.id in s.store.active <==>
        j.id !in s.log.completed && j.id !in s.log.cancelled && j.id !in s.log.exhausted)
    && (j.id in s.store.active ==> LiveStatus(s.store.records[j.id].status))
    && (j.id in s.log.exhausted ==> Places(s, j) == 0)
    && (InWaiting(s, j) ==> j.id !in s.log.cancelled)
  }

  /** A pinned job asked for affinity, and is pinned to where one of its parents completed. */
  ghost predicate PinOk(s: State, j: Job)
    requires j in s.jobs
  {
    s.jobs[j].preferred.Some? ==>
      j.affinity && exists d :: d in j.deps && (d, s.jobs[j].preferred.value) in s.log.doneOn
  }

  ghost predicate JobOk(s: State, j: Job)
    requires j in s.jobs
  {
    && j.id in s.log.owner && s.log.owner[j.id] == j
    && PlaceOk(s, j) && BudgetOk(s, j) && OrderOk(s, j) && StoreOk(s, j) && PinOk(s, j)
  }

  ghost predicate Inv(s: State)
  {
    Shape(s) && forall j {:trigger JobOk(s, j)} :: j in s.jobs ==> JobOk(s, j)
  }

  /** The id of a new job was never used before, for a job or in a cancellation. */
  ghost predicate FreshId(s: State, e: Event)
  {
    e.SubmitEvent? ==> e.job.id !in s.log.owner && e.job.id !in s.log.cancelled
  }

  // ----- frames -----

  /** Nothing about j itself differs between s and t; the logs and the clock may have moved on. */
  ghost predicate Untouched(s: State, t: State, j: Job)
  {
    && j in s.jobs && j in t.jobs && s.jobs[j] == t.jobs[j]
    && (InWaiting(s, j) <==> InWaiting(t, j))
    && s.delayed[j] == t.delayed[j] && s.queue[j] == t.queue[j]
    && (InRunning(s, j) <==> InRunning(t, j))
    && (j.id in s.history ==> j.id in t.history) && (j in s.dead ==> j in t.dead)
    && SameRecord(s.store, t.store, j.id)
    && SameAt(s.log.owner, t.log.owner, j.id)
    && (j.id in s.log.completed <==> j.id in t.log.completed)
    && (j.id in s.log.cancelled <==> j.id in t.log.cancelled)
    && (j.id in s.log.exhausted <==> j.id in t.log.exhausted)
    && Later(s, t)
  }

  ghost predicate Later(s: State, t: State)
  {
    s.now <= t.now && s.log.completed <= t.log.completed && s.log.doneOn <= t.log.doneOn
  }

  predicate SameAt<V(==)>(m: map<string, V>, n: map<string, V>, id: string)
  {
    (id in m <==> id in n) && (id in m ==> m[id] == n[id])
  }

  ghost predicate SameRecord(a: Store, b: Store, id: string)
  {
    && SameAt(a.records, b.records, id)
    && (id in a.active <==> id in b.active)
  }

  lemma FrameJob(s: State, t: State, j: Job)
    requires Untouched(s, t, j) && JobOk(s, j)
    ensures JobOk(t, j)
  {
  }

  // ----- one lemma per step -----

  /** j was handed to a worker, and is recorded as running there or nowhere at all. */
  ghost predicate Held(s: State, j: Job)
    requires j in s.jobs
  {
    && SameOwner(s, j)
    && !InWaiting(s, j) && j !in s.delayed && j !in s.queue
    && s.jobs[j].dispatches == s.jobs[j].retries + 1 && s.jobs[j].retries <= MAX_RETRIES
    && OrderOk(s, j) && StoreOk(s, j) && PinOk(s, j)
    && j.id in s.history && s.jobs[j].status != CANCELLED && s.jobs[j].status != DEAD
    && j.id !in s.log.exhausted
  }

  ghost predicate OthersOk(s: State, j: Job)
  {
    forall k {:trigger JobOk(s, k)} :: k in s.jobs && k != j ==> JobOk(s, k)
  }

  /** Inv except for j, which has just left its worker and is nowhere yet. */
  ghost predicate InvBut(s: State, j: Job)
  {
    Shape(s) && j in s.jobs && OthersOk(s, j) && Held(s, j) && !InRunning(s, j)
  }

  ghost predicate SameOwner(s: State, j: Job)
  {
    j.id in s.log.owner && s.log.owner[j.id] == j
  }

  /** Inv(t), given that its jobs are as in s, except for one which is in order. */
  lemma FromParts(s: State, t: State, j: Job)
    requires Shape(t) && j in t.jobs && JobOk(t, j)
    requires OthersOk(s, j)
    requires forall k {:trigger k in t.jobs} :: k in t.jobs && k != j ==> Untouched(s, t, k)
    ensures Inv(t)
  {
    hide PlaceOk, BudgetOk, OrderOk, StoreOk, PinOk, Shape;
    forall k | k in t.jobs
      ensures JobOk(t, k)
    {
      if k != j {
        assert JobOk(s, k);
        FrameJob(s, t, k);
      }
    }
  }

  lemma FromUntouched(s: State, t: State)
    requires Inv(s) && Shape(t)
    requires forall k {:trigger k in t.jobs} :: k in t.jobs ==> Untouched(s, t, k)
    ensures Inv(t)
  {
    hide PlaceOk, BudgetOk, OrderOk, StoreOk, PinOk, Shape;
    forall k | k in t.jobs
      ensures JobOk(t, k)
    {
      assert JobOk(s, k);
      FrameJob(s, t, k);
    }
  }

  // --- submission ---

  lemma SubmitShape(s: State, j: Job)
    requires Shape(s) && j !in s.jobs && j.id !in s.log.owner && j.id !in s.log.cancelled
    ensures Shape(Admit(s, j, NEW_JOB_STATE))
  {
  }

  lemma SubmitFrame(s: State, j: Job, k: Job)
    requires j !in s.jobs && k in s.jobs && k.id != j.id
    ensures Untouched(s, Admit(s, j, NEW_JOB_STATE), k)
  {
  }

  lemma SubmittedOk(s: State, j: Job)
    requires Shape(s) && j !in s.jobs && j.id !in s.log.owner && j.id !in s.log.cancelled
    ensures JobOk(Admit(s, j, NEW_JOB_STATE), j)
  {
  }

  lemma SubmitKeeps(s: State, j: Job)
    requires Inv(s) && j !in s.jobs && j.id !in s.log.owner && j.id !in s.log.cancelled
    ensures Inv(Admit(s, j, NEW_JOB_STATE))
  {
    var t := Admit(s, j, NEW_JOB_STATE);
    assert t.jobs.Keys == s.jobs.Keys + {j};
    SubmitShape(s, j) by { hide *; }
    SubmittedOk(s, j) by { hide *; }
    forall k | k in t.jobs && k != j
      ensures Untouched(s, t, k)
    {
      assert SameOwner(s, k) by {
        hide Shape, Admit;
        assert JobOk(s, k);
      }
      hide *;
      SubmitFrame(s, j, k);
    }
    hide *;
    FromParts(s, t, j);
  }

  // --- steps that move no job, or one job that stays accounted for ---

  lemma TickKeeps(s: State, now: int)
    requires Inv(s) && s.now <= now
    ensures Inv(Tick(s, now))
  {
    var t := Tick(s, now);
    forall k | k in t.jobs
      ensures Untouched(s, t, k)
    {
    }
    FromUntouched(s, t);
  }

  lemma ForgetKeeps(s: State, id: string)
    requires Inv(s)
    ensures Inv(ForgetCancellation(s, id))
  {
    var t := ForgetCancellation(s, id);
    forall k | k in t.jobs
      ensures Untouched(s, t, k)
    {
    }
    FromUntouched(s, t);
  }

  lemma NoteKeeps(s: State, id: string, ok: bool)
    requires Inv(s)
    ensures Inv(Note(s, id, ok))
  {
    var t := Note(s, id, ok);
    forall k | k in t.jobs
      ensures Untouched(s, t, k)
    {
    }
    FromUntouched(s, t);
  }

  lemma ReleaseKeeps(s: State, j: Job)
    requires Inv(s) && j in s.delayed && j.due <= s.now
    ensures Inv(Release(s, j))
  {
    var t := Release(s, j);
    assert JobOk(s, j);
    assert JobOk(t, j);
    forall k | k in t.jobs && k != j
      ensures Untouched(s, t, k)
    {
      hide JobOk, Shape;
    }
    hide JobOk;
    FromParts(s, t, j);
  }

  lemma HandOverFrame(s: State, j: Job, worker: int, k: Job)
    requires j in s.jobs && k in s.jobs && k.id != j.id
    ensures Untouched(s, HandOver(s, j, worker), k)
  {
  }

  lemma HandOverOk(s: State, j: Job, worker: int)
    requires Shape(s) && j in s.queue && j in s.jobs && JobOk(s, j)
    ensures JobOk(HandOver(s, j, worker), j)
  {
  }

  lemma HandOverShape(s: State, j: Job, worker: int)
    requires Shape(s) && j in s.jobs && SameOwner(s, j)
    ensures Shape(HandOver(s, j, worker))
  {
  }

  lemma HandOverKeeps(s: State, j: Job, worker: int)
    requires Inv(s) && j in s.queue
    ensures Inv(HandOver(s, j, worker)) && InRunning(HandOver(s, j, worker), j)
  {
    var t := HandOver(s, j, worker);
    assert JobOk(s, j);
    HandOverShape(s, j, worker);
    HandOverOk(s, j, worker);
    forall k | k in t.jobs && k != j
      ensures Untouched(s, t, k)
    {
      hide PlaceOk, BudgetOk, OrderOk, StoreOk, PinOk, Shape, Untouched;
      assert JobOk(s, k);
      HandOverFrame(s, j, worker, k);
    }
    hide JobOk;
    FromParts(s, t, j);
  }

  // --- a job leaves its worker ---

  lemma RunningIsHeld(s: State, j: Job)
    requires j in s.jobs && JobOk(s, j) && InRunning(s, j)
    ensures Held(s, j)
  {
  }

  lemma OthersFrame(s: State, t: State, j: Job)
    requires OthersOk(s, j)
    requires forall k {:trigger k in t.jobs} :: k in t.jobs && k != j ==> Untouched(s, t, k)
    ensures OthersOk(t, j)
  {
    hide PlaceOk, BudgetOk, OrderOk, StoreOk, PinOk;
    forall k | k in t.jobs && k != j
      ensures JobOk(t, k)
    {
      assert JobOk(s, k);
      FrameJob(s, t, k);
    }
  }

  lemma InvSplits(s: State, j: Job)
    requires Inv(s) && j in s.jobs
    ensures Shape(s) && OthersOk(s, j) && JobOk(s, j)
  {
  }

  lemma TakeBackHeld(s: State, j: Job)
    requires Shape(s) && j in s.jobs && Held(s, j)
    ensures Shape(TakeBack(s, j.id)) && Held(TakeBack(s, j.id), j)
  {
  }

  lemma TakeBackKeeps(s: State, j: Job)
    requires Inv(s) && j in s.jobs && InRunning(s, j)
    ensures InvBut(TakeBack(s, j.id), j)
  {
    var t := TakeBack(s, j.id);
    InvSplits(s, j);
    RunningIsHeld(s, j);
    TakeBackHeld(s, j);
    forall k | k in t.jobs && k != j
      ensures Untouched(s, t, k)
    {
      hide Shape, JobOk, Held, OthersOk;
    }
    hide JobOk, Held, Shape, OthersOk, Inv;
    OthersFrame(s, t, j);
  }

  lemma CollectHeld(s: State, j: Job)
    requires Shape(s) && j in s.jobs && Held(s, j)
    ensures Shape(Collect(s, j.id)) && Held(Collect(s, j.id), j)
  {
  }

  lemma CollectKeeps(s: State, j: Job)
    requires Inv(s) && j in s.jobs && InRunning(s, j)
    ensures InvBut(Collect(s, j.id), j)
  {
    var t := Collect(s, j.id);
    InvSplits(s, j);
    RunningIsHeld(s, j);
    CollectHeld(s, j);
    forall k | k in t.jobs && k != j
      ensures Untouched(s, t, k)
    {
      hide Shape, JobOk, Held, OthersOk;
    }
    hide JobOk, Held, Shape, OthersOk, Inv;
    OthersFrame(s, t, j);
  }

  // --- the end of an execution ---

  lemma MarkedOk(s: State, j: Job, worker: Option<int>)
    requires Shape(s) && j in s.jobs && Held(s, j)
    ensures Shape(MarkCompleted(s, j, worker)) && JobOk(MarkCompleted(s, j, worker), j)
  {
  }

  lemma MarkFrame(s: State, j: Job, worker: Option<int>, k: Job)
    requires j in s.jobs && k in s.jobs && k.id != j.id
    ensures Untouched(s, MarkCompleted(s, j, worker), k)
  {
  }

  lemma MarkKeeps(s: State, j: Job, worker: Option<int>)
    requires Shape(s) && j in s.jobs && OthersOk(s, j) && Held(s, j)
    ensures Inv(MarkCompleted(s, j, worker))
  {
    var t := MarkCompleted(s, j, worker);
    MarkedOk(s, j, worker);
    forall k | k in t.jobs && k != j
      ensures Untouched(s, t, k)
    {
      OthersElsewhere(s, j, k);
      hide Shape, JobOk, Held, OthersOk, Untouched, MarkCompleted;
      MarkFrame(s, j, worker, k);
    }
    hide JobOk, Held, Shape, OthersOk;
    FromParts(s, t, j);
  }

  lemma OthersElsewhere(s: State, j: Job, k: Job)
    requires j in s.jobs && SameOwner(s, j) && OthersOk(s, j) && k in s.jobs && k != j
    ensures k.id != j.id && JobOk(s, k)
  {
  }

  lemma AbandonKeeps(s: State, j: Job)
    requires InvBut(s, j)
    ensures Inv(Abandon(s, j))
  {
    var t := Abandon(s, j);
    assert Shape(t) && JobOk(t, j);
    forall k | k in t.jobs && k != j
      ensures Untouched(s, t, k)
    {
      hide Shape, JobOk, Held, OthersOk;
    }
    hide JobOk, Held, Shape, OthersOk;
    FromParts(s, t, j);
  }

  lemma RequeueOk(s: State, j: Job)
    requires Shape(s) && j in s.jobs && Held(s, j) && !InRunning(s, j)
    requires s.jobs[j].retries + 1 <= MAX_RETRIES
    ensures Shape(Requeue(s, j)) && JobOk(Requeue(s, j), j)
  {
  }

  lemma RequeueFrame(s: State, j: Job, k: Job)
    requires j in s.jobs && k in s.jobs && k.id != j.id
    ensures Untouched(s, Requeue(s, j), k)
  {
  }

  lemma RequeueKeeps(s: State, j: Job)
    requires InvBut(s, j) && s.jobs[j].retries + 1 <= MAX_RETRIES
    ensures Inv(Requeue(s, j))
  {
    var t := Requeue(s, j);
    RequeueOk(s, j);
    forall k | k in t.jobs && k != j
      ensures Untouched(s, t, k)
    {
      OthersElsewhere(s, j, k);
      hide Shape, JobOk, Held, OthersOk, Untouched, Requeue;
      RequeueFrame(s, j, k);
    }
    hide JobOk, Held, Shape, OthersOk;
    FromParts(s, t, j);
  }

  lemma ExhaustOk(s: State, j: Job)
    requires Shape(s) && j in s.jobs && Held(s, j) && !InRunning(s, j)
    ensures Shape(Exhaust(s, j)) && JobOk(Exhaust(s, j), j)
  {
  }

  lemma ExhaustFrame(s: State, j: Job, k: Job)
    requires j in s.jobs && k in s.jobs && k.id != j.id
    ensures Untouched(s, Exhaust(s, j), k)
  {
  }

  lemma ExhaustKeeps(s: State, j: Job)
    requires InvBut(s, j)
    ensures Inv(Exhaust(s, j))
  {
    var t := Exhaust(s, j);
    ExhaustOk(s, j);
    forall k | k in t.jobs && k != j
      ensures Untouched(s, t, k)
    {
      OthersElsewhere(s, j, k);
      hide Shape, JobOk, Held, OthersOk, Untouched, Exhaust;
      ExhaustFrame(s, j, k);
    }
    hide JobOk, Held, Shape, OthersOk;
    FromParts(s, t, j);
  }

  // --- steps that reach into the waiting room ---

  lemma KillOne(s: State, ids: set<string>, k: Job)
    requires Shape(s) && ids <= s.waiting.Keys && k in s.jobs && JobOk(s, k)
    ensures JobOk(KillAll(s, ids), k)
  {
  }

  lemma KillShape(s: State, ids: set<string>)
    requires Shape(s) && ids <= s.waiting.Keys
    ensures Shape(KillAll(s, ids))
  {
  }

  lemma KillKeeps(s: State, ids: set<string>)
    requires Inv(s) && ids <= s.waiting.Keys
    ensures Inv(KillAll(s, ids))
  {
    var t := KillAll(s, ids);
    KillShape(s, ids);
    forall k | k in t.jobs
      ensures JobOk(t, k)
    {
      hide Shape, PlaceOk, BudgetOk, OrderOk, StoreOk, PinOk;
      assert JobOk(s, k);
      KillOne(s, ids, k);
    }
    hide Shape, JobOk, KillAll;
  }

  lemma PinOne(s: State, parent: string, worker: Option<int>, alive: set<int>, k: Job)
    requires k in s.jobs && JobOk(s, k)
    requires worker.Some? ==> (parent, worker.value) in s.log.doneOn
    ensures JobOk(Pin(s, parent, worker, alive), k)
  {
  }

  lemma PinKeeps(s: State, parent: string, worker: Option<int>, alive: set<int>)
    requires Inv(s)
    requires worker.Some? ==> (parent, worker.value) in s.log.doneOn
    ensures Inv(Pin(s, parent, worker, alive))
  {
    var t := Pin(s, parent, worker, alive);
    assert Shape(t);
    forall k | k in t.jobs
      ensures JobOk(t, k)
    {
      hide Shape, PlaceOk, BudgetOk, OrderOk, StoreOk, PinOk;
      assert JobOk(s, k);
      PinOne(s, parent, worker, alive, k);
    }
    hide Shape, JobOk, Pin;
  }

  lemma UnlockOne(s: State, parent: string, k: Job)
    requires Shape(s) && parent in s.log.completed && k in s.jobs && JobOk(s, k)
    ensures JobOk(Unlock(s, parent), k)
  {
    var t := Unlock(s, parent);
    if Unlocks(s, parent, s.waiting.Keys, k) {
      assert k.id in UnlockedIds(s, parent, s.waiting.Keys);
      UnlockedOk(s, parent, k);
    } else if Kid(s, parent, s.waiting.Keys, k) {
      KeptKidOk(s, parent, k);
    } else {
      assert k.id !in UnlockedIds(s, parent, s.waiting.Keys);
      NonKidOk(s, parent, k);
    }
  }

  lemma UnlockedOk(s: State, parent: string, k: Job)
    requires parent in s.log.completed && k in s.jobs && JobOk(s, k)
    requires Unlocks(s, parent, s.waiting.Keys, k)
    requires k.id in UnlockedIds(s, parent, s.waiting.Keys)
    ensures JobOk(Unlock(s, parent), k)
  {
  }

  lemma KeptKidOk(s: State, parent: string, k: Job)
    requires parent in s.log.completed && k in s.jobs && JobOk(s, k)
    requires Kid(s, parent, s.waiting.Keys, k) && !Unlocks(s, parent, s.waiting.Keys, k)
    ensures JobOk(Unlock(s, parent), k)
  {
    assert k.id !in UnlockedIds(s, parent, s.waiting.Keys);
  }

  lemma PersistAllSpares(store: Store, waiting: map<string, Job>, ids: set<string>, id: string)
    requires ids <= waiting.Keys && id !in ids
    ensures SameRecord(store, PersistAll(store, waiting, ids), id)
  {
  }

  lemma NonKidUntouched(s: State, parent: string, k: Job)
    requires k in s.jobs && SameOwner(s, k)
    requires !Kid(s, parent, s.waiting.Keys, k)
    requires k.id !in UnlockedIds(s, parent, s.waiting.Keys)
    ensures Untouched(s, Unlock(s, parent), k)
  {
    assert k !in UnlockedJobs(s, parent, s.waiting.Keys, true);
    assert k !in UnlockedJobs(s, parent, s.waiting.Keys, false);
    PersistAllSpares(s.store, s.waiting, UnlockedIds(s, parent, s.waiting.Keys), k.id);
    hide UnlockedIds, UnlockedJobs, Unlocks, PersistAll, SameRecord;
  }

  lemma NonKidOk(s: State, parent: string, k: Job)
    requires k in s.jobs && JobOk(s, k)
    requires !Kid(s, parent, s.waiting.Keys, k)
    requires k.id !in UnlockedIds(s, parent, s.waiting.Keys)
    ensures JobOk(Unlock(s, parent), k)
  {
    assert SameOwner(s, k);
    hide *;
    NonKidUntouched(s, parent, k);
    FrameJob(s, Unlock(s, parent), k);
  }

  lemma UnlockQueues(s: State, parent: string)
    requires forall j :: j in s.queue ==> j in s.jobs
    requires forall j :: j in s.delayed ==> j in s.jobs
    ensures forall j :: j in Unlock(s, parent).queue ==> j in Unlock(s, parent).jobs
    ensures forall j :: j in Unlock(s, parent).delayed ==> j in Unlock(s, parent).jobs
  {
  }

  lemma UnlockOwners(s: State, parent: string)
    requires OwnedIn(s.waiting, s.log.owner)
    ensures Unlock(s, parent).log.owner == s.log.owner
    ensures UnlockedIds(s, parent, s.waiting.Keys) <= s.log.owner.Keys
  {
  }

  lemma UnlockShape(s: State, parent: string)
    requires Shape(s)
    ensures Shape(Unlock(s, parent))
  {
    hide Unlocks, Kid, UnlockedIds, UnlockedJobs;
    UnlockQueues(s, parent);
    UnlockOwners(s, parent);
  }

  lemma UnlockKeeps(s: State, parent: string)
    requires Inv(s) && parent in s.log.completed
    ensures Inv(Unlock(s, parent))
  {
    var t := Unlock(s, parent);
    UnlockShape(s, parent);
    forall k | k in t.jobs
      ensures JobOk(t, k)
    {
      hide Shape, PlaceOk, BudgetOk, OrderOk, StoreOk, PinOk;
      assert JobOk(s, k);
      UnlockOne(s, parent, k);
    }
    hide Shape, JobOk, Unlock;
  }

  // --- cancellation, up to the cascade ---

  lemma WithdrawFrame(s: State, id: string, k: Job)
    requires Shape(s) && k in s.jobs && SameOwner(s, k) && k.id != id
    ensures Untouched(s, Withdraw(s, id), k)
  {
  }

  lemma WithdrawnOk(s: State, k: Job)
    requires Shape(s) && k in s.jobs && JobOk(s, k)
    ensures JobOk(Withdraw(s, k.id), k)
  {
  }

  lemma WithdrawShape(s: State, id: string)
    requires Shape(s)
    ensures Shape(Withdraw(s, id))
  {
  }

  lemma WithdrawKeeps(s: State, id: string)
    requires Inv(s)
    ensures Inv(Withdraw(s, id))
  {
    var t := Withdraw(s, id);
    assert t.jobs.Keys == s.jobs.Keys;
    WithdrawShape(s, id);
    forall k | k in t.jobs
      ensures JobOk(t, k)
    {
      hide Shape, PlaceOk, BudgetOk, OrderOk, StoreOk, PinOk, Withdraw, Untouched;
      assert JobOk(s, k);
      if k.id == id {
        WithdrawnOk(s, k);
      } else {
        WithdrawFrame(s, id, k);
        FrameJob(s, t, k);
      }
    }
    hide Shape, JobOk, Withdraw;
  }

  // ----- whole handlers -----

  lemma CascadeKeeps(s: State, parent: string)
    requires Inv(s)
    ensures Inv(Cascade(s, parent))
  {
    hide Inv, KillAll;
    KillKeeps(s, Doomed(s.waiting, parent));
  }

  lemma CompleteKeeps(s: State, j: Job, worker: Option<int>, alive: set<int>)
    requires Shape(s) && j in s.jobs && OthersOk(s, j) && Held(s, j)
    ensures Inv(Complete(s, j, worker, alive))
  {
    var t := MarkCompleted(s, j, worker);
    var u := Pin(t, j.id, worker, alive);
    assert j.id in t.log.completed && (worker.Some? ==> (j.id, worker.value) in t.log.doneOn);
    assert u.log == t.log;
    hide Inv, Shape, OthersOk, Held, MarkCompleted, Pin, Unlock;
    MarkKeeps(s, j, worker);
    PinKeeps(t, j.id, worker, alive);
    UnlockKeeps(u, j.id);
  }

  lemma FailKeeps(s: State, j: Job)
    requires InvBut(s, j)
    ensures Inv(Fail(s, j))
  {
    if j.id in s.cancelled {
      CancelledFailureOk(s, j);
    } else {
      hide Inv, InvBut, Abandon, Exhaust, Requeue, Cascade;
      if WORKER_PREFIX <= j.id {
        AbandonKeeps(s, j);
      } else if s.jobs[j].retries + 1 > MAX_RETRIES {
        ExhaustKeeps(s, j);
        CascadeKeeps(Exhaust(s, j), j.id);
      } else {
        RequeueKeeps(s, j);
      }
    }
  }

  /** A failure of a cancelled job is dropped: the job is nowhere, as a cancelled job may be. */
  lemma CancelledFailureOk(s: State, j: Job)
    requires InvBut(s, j) && j.id in s.cancelled
    ensures Inv(s)
  {
  }

  lemma HandOverJobs(s: State, j: Job, worker: int)
    requires j in s.jobs
    ensures HandOver(s, j, worker).jobs.Keys == s.jobs.Keys
  {
  }

  lemma DispatchKeeps(s: State, j: Job, target: Option<int>, reply: Reply, alive: set<int>)
    requires Inv(s) && j in s.queue && j in s.jobs
    ensures Inv(Dispatch(s, j, target, reply, alive))
  {
    hide Inv, InvBut, HandOver, TakeBack, Complete, Fail, Abandon, Held, NonRecoverable;
    if target.Some? {
      HandOverKeeps(s, j, target.value);
      var t := HandOver(s, j, target.value);
      HandOverJobs(s, j, target.value);
      match reply {
        case Accepted =>
        case Finished(_) =>
          InvSplits(t, j);
          RunningIsHeld(t, j);
          CompleteKeeps(t, j, target, alive);
        case Failed(message) =>
          TakeBackKeeps(t, j);
          if NonRecoverable(message) {
            AbandonKeeps(TakeBack(t, j.id), j);
          } else {
            FailKeeps(TakeBack(t, j.id), j);
          }
      }
    }
  }

  lemma RunningHasHistory(s: State, id: string)
    requires Inv(s)
    ensures id in s.running ==> id in s.history
  {
    if id in s.running {
      assert JobOk(s, s.running[id]);
    }
  }

  lemma CallbackKeeps(s: State, id: string, ok: bool, alive: set<int>)
    requires Inv(s) && (id in s.running ==> s.running[id] in s.jobs)
    ensures Inv(Callback(s, id, ok, alive))
  {
    if id in s.cancelled {
      ForgetKeeps(s, id);
    } else if id !in s.history {
      RunningHasHistory(s, id);
      assert Collect(s, id) == s;
    } else if id !in s.running {
      NoteKeeps(s, id, ok);
    } else {
      var j := s.running[id];
      assert j.id == id;
      hide Inv, InvBut, TakeBack, Collect, Complete, Fail, Held, Shape;
      if ok {
        CollectKeeps(s, j);
        assert Shape(Collect(s, id)) && OthersOk(Collect(s, id), j) && Held(Collect(s, id), j) by {
          HeldOf(Collect(s, id), j);
        }
        CompleteKeeps(Collect(s, id), j, s.history[id].worker, alive);
      } else {
        TakeBackKeeps(s, j);
        FailKeeps(TakeBack(s, id), j);
      }
    }
  }

  lemma HeldOf(s: State, j: Job)
    requires InvBut(s, j)
    ensures Shape(s) && j in s.jobs && OthersOk(s, j) && Held(s, j)
  {
  }

  lemma CancelKeeps(s: State, id: string)
    requires Inv(s)
    ensures Inv(Cancel(s, id))
  {
    hide Inv, Withdraw, Cascade;
    WithdrawKeeps(s, id);
    CascadeKeeps(Withdraw(s, id), id);
  }

  lemma InvIsConsistent(s: State)
    requires Inv(s)
    ensures Consistent(s)
  {
  }

  /** Every step keeps the invariant. */
  lemma StepKeeps(s: State, e: Event)
    requires Inv(s) && Consistent(s) && Enabled(s, e) && FreshId(s, e)
    ensures Inv(Step(s, e))
  {
    hide Inv, Admit, Release, Dispatch, Callback, Cancel, Tick, Consistent;
    match e {
      case SubmitEvent(j) => SubmitKeeps(s, j);
      case TimePasses(now) => TickKeeps(s, now);
      case ReleaseEvent(j) => ReleaseKeeps(s, j);
      case DispatchEvent(j, target, reply, alive) =>
        QueuedIsKnown(s, j);
        DispatchKeeps(s, j, target, reply, alive);
      case CallbackEvent(id, ok, alive) =>
        RunningIsKnown(s, id);
        CallbackKeeps(s, id, ok, alive);
      case CancelEvent(id) => CancelKeeps(s, id);
    }
  }

  lemma QueuedIsKnown(s: State, j: Job)
    requires Inv(s) && j in s.queue
    ensures j in s.jobs
  {
  }

  lemma RunningIsKnown(s: State, id: string)
    requires Inv(s)
    ensures id in s.running ==> s.running[id] in s.jobs
  {
  }

}
