/**
 The scheduler as a state machine over values. One function per handler; the
 class in Scheduling.dfy is proved to take exactly these steps.
 */
module SchedulerModel {
  import opened Prelude
  import opened Jobs
  import opened Graphs
  import Text

  /** An entry of the execution history: where a job last ran and what became of it. */
  datatype Exec = Exec(worker: Option<int>, status: Status)

  /** The keys job:ID:payload, status, priority and delay of the external store. */
  datatype Record = Record(
    payload: Option<string>,
    status: Option<Status>,
    priority: Option<int>,
    due: Option<int>)

  const NO_RECORD := Record(None, None, None, None)

  /** The write-ahead log: the records, and the set system:active_jobs. */
  datatype Store = Store(records: map<string, Record>, active: set<string>)

  function Lookup(store: Store, id: string): Record
  {
    if id in store.records then store.records[id] else NO_RECORD
  }

  /** What has ever happened; the program does not keep this, the properties need it. */
  datatype Log = Log(
    owner: map<string, Job>,       // the job last submitted under each id
    completed: set<string>,        // ids some execution of which was reported complete
    cancelled: set<string>,        // ids an operator ever cancelled
    exhausted: set<string>,        // ids that ran out of retries
    doneOn: set<(string, int)>)    // completions, with the port of the worker

  datatype State = State(
    now: int,
    jobs: map<Job, JobState>,      // every job object ever submitted
    queue: multiset<Job>,          // taskQueue
    delayed: multiset<Job>,        // waitingRoom
    waiting: map<string, Job>,     // dagWaitingRoom
    running: map<string, Job>,     // runningJobs
    cancelled: set<string>,        // cancelledJobs
    history: map<string, Exec>,    // executionHistory
    dead: set<Job>,                // members of deadLetterQueue
    store: Store,
    log: Log)

  const EMPTY_STORE := Store(map[], {})

  ghost function Init(now: int): State
  {
    State(now, map[], multiset{}, multiset{}, map[], map[], {}, map[], {}, EMPTY_STORE, Log(map[], {}, {}, {}, {}))
  }

  /** What a worker answers to a hand-over; `alive` in the steps below is the set of registered ports. */
  datatype Reply = Accepted | Finished(result: string) | Failed(message: string)

  predicate NonRecoverable(message: string)
  {
    Text.Contains(message, "ALREADY in use") || Text.Contains(message, "Deployment Rejected")
  }

  // ----- field updates -----

  function WithStatus(jobs: map<Job, JobState>, j: Job, status: Status): map<Job, JobState>
  {
    if j in jobs then jobs[j := jobs[j].(status := status)] else jobs
  }

  function WithVerdict(history: map<string, Exec>, id: string, status: Status): map<string, Exec>
  {
    if id in history then history[id := history[id].(status := status)] else history
  }

  function RecordOf(j: Job): Record
  {
    Record(Some(j.payload), Some(PENDING), Some(j.priority), Some(j.due))
  }

  function Persist(store: Store, j: Job): Store
  {
    Store(store.records[j.id := RecordOf(j)], store.active + {j.id})
  }

  function WriteStatus(store: Store, id: string, status: Status): Store
  {
    store.(records := store.records[id := Lookup(store, id).(status := Some(status))])
  }

  function Retire(store: Store, id: string, status: Status): Store
  {
    WriteStatus(store, id, status).(active := store.active - {id})
  }

  // ----- submission -----

  /** submitJob: persist, then wait for parents, for the clock, or for a worker. */
  ghost function Admit(s: State, j: Job, progress: JobState): State
  {
    var ready := Ready(j, progress.satisfied);
    var soon := j.due - s.now <= 0;
    s.(
      jobs := s.jobs[j := progress],
      log := s.log.(owner := s.log.owner[j.id := j]),
      store := Persist(s.store, j),
      waiting := if ready then s.waiting else s.waiting[j.id := j],
      queue := if ready && soon then s.queue + multiset{j} else s.queue,
      delayed := if ready && !soon then s.delayed + multiset{j} else s.delayed)
  }

  // ----- completion -----

  ghost predicate Kid(s: State, parent: string, among: set<string>, j: Job)
  {
    j.id in among && j.id in s.waiting && s.waiting[j.id] == j && parent in j.deps
  }

  ghost predicate Unlocks(s: State, parent: string, among: set<string>, j: Job)
  {
    j in s.jobs && Kid(s, parent, among, j) && Ready(j, s.jobs[j].satisfied + {parent})
  }

  ghost function UnlockedIds(s: State, parent: string, among: set<string>): set<string>
  {
    set id | id in s.waiting && Unlocks(s, parent, among, s.waiting[id])
  }

  ghost function UnlockedJobs(s: State, parent: string, among: set<string>, soon: bool): set<Job>
  {
    set j | j in s.jobs && Unlocks(s, parent, among, j) && (j.due - s.now <= 0 <==> soon)
  }

  ghost function PersistAll(store: Store, waiting: map<string, Job>, ids: set<string>): Store
    requires ids <= waiting.Keys
  {
    Store(
      store.records + (map id | id in ids :: RecordOf(waiting[id])),
      store.active + ids)
  }

  /** unlockChildren, as far as it has visited the waiting jobs named in `among`. */
  ghost function UnlockSome(s: State, parent: string, among: set<string>): State
  {
    var ids := UnlockedIds(s, parent, among);
    s.(
      jobs := map j | j in s.jobs ::
        if Kid(s, parent, among, j) then s.jobs[j].(satisfied := s.jobs[j].satisfied + {parent}) else s.jobs[j],
      log := s.log.(owner := s.log.owner + map id | id in ids :: s.waiting[id]),
      waiting := s.waiting - ids,
      queue := s.queue + multiset(UnlockedJobs(s, parent, among, true)),
      delayed := s.delayed + multiset(UnlockedJobs(s, parent, among, false)),
      store := PersistAll(s.store, s.waiting, ids))
  }

  ghost function Unlock(s: State, parent: string): State
  {
    UnlockSome(s, parent, s.waiting.Keys)
  }

  ghost predicate Pinned(s: State, parent: string, among: set<string>, j: Job)
    requires j in s.jobs
  {
    Kid(s, parent, among, j) && j.affinity && s.jobs[j].preferred == None
  }

  /** propagateAffinity, as far as it has visited the waiting jobs named in `among`. */
  ghost function PinSome(s: State, parent: string, worker: Option<int>, alive: set<int>, among: set<string>): State
  {
    s.(jobs := map j | j in s.jobs ::
      if worker.Some? && worker.value in alive && Pinned(s, parent, among, j)
      then s.jobs[j].(preferred := worker) else s.jobs[j])
  }

  ghost function Pin(s: State, parent: string, worker: Option<int>, alive: set<int>): State
  {
    PinSome(s, parent, worker, alive, s.waiting.Keys)
  }

  ghost function MarkCompleted(s: State, j: Job, worker: Option<int>): State
  {
    s.(
      jobs := WithStatus(s.jobs, j, COMPLETED),
      history := WithVerdict(s.history, j.id, COMPLETED),
      store := Retire(s.store, j.id, COMPLETED),
      log := s.log.(
        completed := s.log.completed + {j.id},
        doneOn := s.log.doneOn + if worker.Some? then {(j.id, worker.value)} else {}))
  }

  /** completeJob for a job the master still holds. */
  ghost function Complete(s: State, j: Job, worker: Option<int>, alive: set<int>): State
  {
    Unlock(Pin(MarkCompleted(s, j, worker), j.id, worker, alive), j.id)
  }

  // ----- failure and cancellation -----

  /** Who waits for whom, among the jobs in the DAG waiting room. */
  ghost function WaitGraph(waiting: map<string, Job>): Graph
  {
    map id | id in waiting :: DepSet(waiting[id].deps)
  }

  /** The waiting jobs that depend on `parent` through waiting jobs only. */
  ghost function Doomed(waiting: map<string, Job>, parent: string): set<string>
  {
    set id | id in waiting && DependsOn(WaitGraph(waiting), id, parent)
  }

  ghost function KillAll(s: State, ids: set<string>): State
    requires ids <= s.waiting.Keys
  {
    s.(
      jobs := map j | j in s.jobs ::
        if j.id in ids && s.waiting[j.id] == j then s.jobs[j].(status := DEAD) else s.jobs[j],
      waiting := s.waiting - ids,
      history := s.history + (map id | id in ids :: Exec(None, DEAD)),
      dead := s.dead + set id | id in ids :: s.waiting[id])
  }

  /** cancelChildren. */
  ghost function Cascade(s: State, parent: string): State
  {
    KillAll(s, Doomed(s.waiting, parent))
  }

  const WORKER_PREFIX := "WRK-"

  ghost function Abandon(s: State, j: Job): State
  {
    s.(jobs := WithStatus(s.jobs, j, FAILED))
  }

  ghost function Requeue(s: State, j: Job): State
    requires j in s.jobs
  {
    s.(
      jobs := s.jobs[j := s.jobs[j].(status := PENDING, retries := s.jobs[j].retries + 1)],
      store := WriteStatus(s.store, j.id, PENDING),
      queue := s.queue + multiset{j})
  }

  ghost function Exhaust(s: State, j: Job): State
    requires j in s.jobs
  {
    s.(
      jobs := s.jobs[j := s.jobs[j].(status := DEAD, retries := s.jobs[j].retries + 1)],
      store := Retire(s.store, j.id, DEAD),
      history := WithVerdict(s.history, j.id, DEAD),
      dead := s.dead + {j},
      log := s.log.(exhausted := s.log.exhausted + {j.id}))
  }

  /** handleJobFailure. */
  ghost function Fail(s: State, j: Job): State
    requires j in s.jobs
  {
    if j.id in s.cancelled then s
    else if WORKER_PREFIX <= j.id then Abandon(s, j)
    else if s.jobs[j].retries + 1 > MAX_RETRIES then Cascade(Exhaust(s, j), j.id)
    else Requeue(s, j)
  }

  /** The queue without the jobs called `id`. */
  ghost function Without(queue: multiset<Job>, id: string): (rest: multiset<Job>)
    ensures rest <= queue
    ensures forall j :: j in rest ==> j.id != id
    ensures forall j :: j in queue && j.id != id ==> rest[j] == queue[j]
    decreases |queue|
  {
    if exists j :: j in queue && j.id == id then
      var j :| j in queue && j.id == id;
      assert queue == queue[j := 0] + multiset{j}[j := queue[j]];
      Without(queue[j := 0], id)
    else queue
  }

  /** cancelJob, up to the cascade: a waiting job is looked for first, then a running one. */
  ghost function Withdraw(s: State, id: string): State
  {
    s.(
      cancelled := s.cancelled + {id},
      log := s.log.(cancelled := s.log.cancelled + {id}),
      queue := Without(s.queue, id),
      waiting := s.waiting - {id},
      running := if id in s.waiting then s.running else s.running - {id},
      jobs :=
        if id in s.waiting then WithStatus(s.jobs, s.waiting[id], CANCELLED)
        else if id in s.running then WithStatus(s.jobs, s.running[id], CANCELLED)
        else s.jobs,
      history :=
        if id in s.waiting then s.history[id := Exec(None, CANCELLED)]
        else WithVerdict(s.history, id, CANCELLED),
      store := Retire(s.store, id, CANCELLED))
  }

  ghost function Cancel(s: State, id: string): State
  {
    Cascade(Withdraw(s, id), id)
  }

  // ----- the clock, the dispatcher, the workers -----

  ghost function Tick(s: State, now: int): State
  {
    s.(now := now)
  }

  /** The clock watcher moves an expired job to the task queue. */
  ghost function Release(s: State, j: Job): State
  {
    s.(delayed := s.delayed - multiset{j}, queue := s.queue + multiset{j})
  }

  ghost function HandOver(s: State, j: Job, worker: int): State
    requires j in s.jobs
  {
    s.(
      queue := s.queue - multiset{j},
      jobs := s.jobs[j := s.jobs[j].(status := RUNNING, dispatches := s.jobs[j].dispatches + 1)],
      history := s.history[j.id := Exec(Some(worker), RUNNING)],
      running := s.running[j.id := j],
      store := WriteStatus(s.store, j.id, RUNNING))
  }

  /** An execution was reported as failed; the job is no longer with the worker. */
  ghost function TakeBack(s: State, id: string): State
  {
    s.(running := s.running - {id}, history := WithVerdict(s.history, id, FAILED))
  }

  ghost function HandleReply(s: State, j: Job, worker: int, reply: Reply, alive: set<int>): State
    requires j in s.jobs
  {
    match reply
    case Accepted => s
    case Finished(_) => Complete(s, j, Some(worker), alive)
    case Failed(message) =>
      if NonRecoverable(message) then Abandon(TakeBack(s, j.id), j) else Fail(TakeBack(s, j.id), j)
  }

  /** One turn of the dispatch loop; `target` is the selected worker, if any is free. */
  ghost function Dispatch(s: State, j: Job, target: Option<int>, reply: Reply, alive: set<int>): State
    requires j in s.jobs
  {
    if target.None? then s
    else HandleReply(HandOver(s, j, target.value), j, target.value, reply, alive)
  }

  ghost function ForgetCancellation(s: State, id: string): State
  {
    s.(cancelled := s.cancelled - {id})
  }

  ghost function Collect(s: State, id: string): State
  {
    s.(running := s.running - {id})
  }

  /** A verdict on a job the master no longer holds only reaches the history. */
  ghost function Note(s: State, id: string, ok: bool): State
  {
    s.(history := WithVerdict(s.history, id, if ok then COMPLETED else FAILED))
  }

  /** handleJobCallback, once the message is split into an id and a verdict. */
  ghost function Callback(s: State, id: string, ok: bool, alive: set<int>): State
    requires id in s.running ==> s.running[id] in s.jobs
  {
    if id in s.cancelled then ForgetCancellation(s, id)
    else if id !in s.history then Collect(s, id)
    else if id !in s.running then Note(s, id, ok)
    else if ok then Complete(Collect(s, id), s.running[id], s.history[id].worker, alive)
    else Fail(TakeBack(s, id), s.running[id])
  }

  // ----- events -----

  datatype Event =
    | SubmitEvent(job: Job)
    | TimePasses(now: int)
    | ReleaseEvent(job: Job)
    | DispatchEvent(job: Job, target: Option<int>, reply: Reply, alive: set<int>)
    | CallbackEvent(id: string, ok: bool, alive: set<int>)
    | CancelEvent(id: string)

  /** PriorityBlockingQueue.take: some job of the highest priority present. */
  predicate HeadOfQueue(queue: multiset<Job>, j: Job)
  {
    j in queue && forall k :: k in queue ==> k.priority <= j.priority
  }

  // A queue that is not empty has such a job.
  lemma {:induction false} TopOfQueue(queue: multiset<Job>) returns (top: Job)
    requires queue != multiset{}
    ensures HeadOfQueue(queue, top)
    decreases |queue|
  {
    var j :| j in queue;
    var rest := queue[j := 0];
    assert queue == rest + multiset{j}[j := queue[j]];
    if rest == multiset{} {
      top := j;
    } else {
      var k := TopOfQueue(rest);
      top := if k.priority < j.priority then j else k;
      forall x | x in queue
        ensures x.priority <= top.priority
      {
        assert x == j || x in rest;
      }
    }
  }

  /** DelayQueue.take: the earliest job, once it has expired. */
  predicate HeadOfDelay(delayed: multiset<Job>, now: int, j: Job)
  {
    j in delayed && j.due <= now && forall k :: k in delayed ==> j.due <= k.due
  }

  /** What the queues and the clock allow. Callbacks and cancellations can always arrive. */
  ghost predicate Enabled(s: State, e: Event)
  {
    match e
    case SubmitEvent(j) => j !in s.jobs
    case TimePasses(now) => s.now <= now
    case ReleaseEvent(j) => HeadOfDelay(s.delayed, s.now, j)
    case DispatchEvent(j, _, _, _) => HeadOfQueue(s.queue, j)
    case CallbackEvent(_, _, _) => true
    case CancelEvent(_) => true
  }

  ghost predicate KnownWaiting(s: State)
  {
    forall id :: id in s.waiting ==> s.waiting[id] in s.jobs && s.waiting[id].id == id
  }

  ghost predicate KnownRunning(s: State)
  {
    forall id :: id in s.running ==> s.running[id] in s.jobs && s.running[id].id == id
  }

  /** Containers hold submitted jobs, each under its own id. */
  ghost predicate Consistent(s: State)
  {
    && KnownWaiting(s) && KnownRunning(s)
    && (forall j :: j in s.queue ==> j in s.jobs)
    && (forall j :: j in s.delayed ==> j in s.jobs)
  }

  ghost function Step(s: State, e: Event): State
    requires Consistent(s) && Enabled(s, e)
  {
    match e
    case SubmitEvent(j) => Admit(s, j, NEW_JOB_STATE)
    case TimePasses(now) => Tick(s, now)
    case ReleaseEvent(j) => Release(s, j)
    case DispatchEvent(j, target, reply, alive) => Dispatch(s, j, target, reply, alive)
    case CallbackEvent(id, ok, alive) => Callback(s, id, ok, alive)
    case CancelEvent(id) => Cancel(s, id)
  }
}
