/** Whole runs of the scheduler: order of execution, bounded retries, conservation. */
module Runs {
  import opened Prelude
  import opened Jobs
  import opened Graphs
  import opened SchedulerModel
  import opened Invariants

  /** A scheduler that has just come up, empty or with jobs recovered from the store. */
  ghost predicate Booted(s: State)
  {
    && Inv(s) && s.waiting == map[] && s.running == map[] && s.history == map[]
    && s.log.completed == {} && s.log.doneOn == {}
    && forall j {:trigger s.jobs[j]} :: j in s.jobs ==> s.jobs[j] == NEW_JOB_STATE && j.deps == []
  }

  /** states[i] is the state before events[i]; every submission uses a fresh id. */
  ghost predicate Run(states: seq<State>, events: seq<Event>)
  {
    && |states| == |events| + 1
    && Booted(states[0])
    && forall i :: 0 <= i < |events| ==> MovesAt(states, events, i)
  }

  ghost predicate MovesAt(states: seq<State>, events: seq<Event>, i: nat)
    requires |states| == |events| + 1 && i < |events|
  {
    Moves(states[i], events[i], states[i + 1])
  }

  ghost predicate Moves(s: State, e: Event, t: State)
  {
    Consistent(s) && Enabled(s, e) && FreshId(s, e) && t == Step(s, e)
  }

  lemma {:induction false} RunKeeps(states: seq<State>, events: seq<Event>, i: nat)
    requires Run(states, events) && i < |states|
    ensures Inv(states[i])
  {
    hide Inv, Step, Consistent, Enabled, FreshId;
    if i > 0 {
      RunKeeps(states, events, i - 1);
      assert MovesAt(states, events, i - 1);
      StepKeeps(states[i - 1], events[i - 1]);
    }
  }

  lemma InitBoots(now: int)
    ensures Booted(Init(now))
  {
  }

  // ----- what a step adds to the history of the run -----

  /** The step in which an execution of `id` is reported complete. */
  ghost predicate Completes(s: State, e: Event, id: string)
  {
    match e
    case DispatchEvent(j, target, reply, _) => target.Some? && reply.Finished? && id == j.id
    case CallbackEvent(cid, ok, _) =>
      ok && id == cid && cid !in s.cancelled && cid in s.history && cid in s.running
    case _ => false
  }

  ghost predicate HandsOver(e: Event, j: Job)
  {
    e.DispatchEvent? && e.job == j && e.target.Some?
  }

  /** Whoever is pinned to a worker in s is pinned to it in t. */
  ghost predicate StillPinned(s: State, t: State)
  {
    forall j :: j in s.jobs && s.jobs[j].preferred.Some? ==> j in t.jobs && t.jobs[j].preferred == s.jobs[j].preferred
  }

  /** The history of t names no worker that the one of s does not name for the same id. */
  ghost predicate NoNewWorker(s: State, t: State)
  {
    forall id :: id in t.history && t.history[id].worker.Some? ==>
      id in s.history && s.history[id].worker == t.history[id].worker
  }

  ghost predicate HandsTo(e: Event, id: string, worker: int)
  {
    e.DispatchEvent? && e.job.id == id && e.target == Some(worker)
  }

  /** t knows the jobs of s, as often dispatched and pinned as before, and the same completions. */
  ghost predicate Quiet(s: State, t: State)
  {
    && t.jobs.Keys == s.jobs.Keys
    && (forall j :: j in s.jobs ==> t.jobs[j].dispatches == s.jobs[j].dispatches)
    && StillPinned(s, t) && NoNewWorker(s, t)
    && t.log.completed == s.log.completed && t.log.doneOn == s.log.doneOn
    && t.now == s.now
  }

  lemma QuietTwice(s: State, t: State, u: State)
    requires Quiet(s, t) && Quiet(t, u)
    ensures Quiet(s, u)
  {
  }

  lemma CascadeQuiet(s: State, parent: string)
    ensures Quiet(s, Cascade(s, parent))
  {
  }

  lemma GiveUpQuiet(s: State, j: Job)
    requires j in s.jobs
    ensures Quiet(s, Exhaust(s, j)) && Quiet(s, Requeue(s, j))
  {
  }

  lemma FailQuiet(s: State, j: Job)
    requires j in s.jobs
    ensures Quiet(s, Fail(s, j))
  {
    hide Cascade, Exhaust, Requeue, Abandon, Quiet;
    GiveUpQuiet(s, j);
    QuietSelf(s);
    AbandonQuiet(s, j);
    CascadeQuiet(Exhaust(s, j), j.id);
    QuietTwice(s, Exhaust(s, j), Cascade(Exhaust(s, j), j.id));
  }

  /** Like Quiet, for a step that reports `id` complete. */
  ghost predicate Reports(s: State, t: State, id: string, worker: Option<int>)
  {
    && t.jobs.Keys == s.jobs.Keys
    && (forall j :: j in s.jobs ==> t.jobs[j].dispatches == s.jobs[j].dispatches)
    && StillPinned(s, t) && NoNewWorker(s, t)
    && t.log.completed == s.log.completed + {id}
    && t.log.doneOn == s.log.doneOn + (if worker.Some? then {(id, worker.value)} else {})
    && t.now == s.now
  }

  lemma MarkReports(s: State, j: Job, worker: Option<int>)
    ensures Reports(s, MarkCompleted(s, j, worker), j.id, worker)
  {
  }

  lemma PinQuiet(s: State, parent: string, worker: Option<int>, alive: set<int>)
    ensures Quiet(s, Pin(s, parent, worker, alive))
  {
  }

  lemma UnlockQuiet(s: State, parent: string)
    ensures Quiet(s, Unlock(s, parent))
  {
  }

  lemma ReportsThenQuiet(s: State, t: State, u: State, id: string, worker: Option<int>)
    requires Reports(s, t, id, worker) && Quiet(t, u)
    ensures Reports(s, u, id, worker)
  {
  }

  lemma CompleteReports(s: State, j: Job, worker: Option<int>, alive: set<int>)
    ensures Reports(s, Complete(s, j, worker, alive), j.id, worker)
  {
    hide Reports, Quiet, MarkCompleted, Pin, Unlock;
    var t := MarkCompleted(s, j, worker);
    var u := Pin(t, j.id, worker, alive);
    MarkReports(s, j, worker);
    PinQuiet(t, j.id, worker, alive);
    UnlockQuiet(u, j.id);
    ReportsThenQuiet(s, t, u, j.id, worker);
    ReportsThenQuiet(s, u, Unlock(u, j.id), j.id, worker);
  }

  lemma CancelQuiet(s: State, id: string)
    ensures Quiet(s, Cancel(s, id))
  {
    assert Quiet(s, Withdraw(s, id)) by { hide Cascade; }
    hide Cascade, Withdraw, Quiet;
    CascadeQuiet(Withdraw(s, id), id);
    QuietTwice(s, Withdraw(s, id), Cascade(Withdraw(s, id), id));
  }

  ghost predicate WorkedOn(s: State, id: string, worker: int)
  {
    id in s.history && s.history[id].worker == Some(worker)
  }

  /** What one step does to the list of jobs, the completions, and the dispatch counts. */
  ghost predicate Effects(s: State, e: Event, t: State)
  {
    && t.jobs.Keys == s.jobs.Keys + (if e.SubmitEvent? then {e.job} else {})
    && (forall j :: j in s.jobs ==> t.jobs[j].dispatches == s.jobs[j].dispatches + Bit(HandsOver(e, j)))
    && StillPinned(s, t)
    && (forall id, w :: id in t.history && t.history[id].worker == Some(w) ==> HandsTo(e, id, w) || WorkedOn(s, id, w))
    && (forall id, w :: (id, w) in t.log.doneOn ==> (id, w) in s.log.doneOn || HandsTo(e, id, w) || WorkedOn(s, id, w))
    && (e.SubmitEvent? ==> t.jobs[e.job].dispatches == 0)
    && (forall id :: id in t.log.completed <==> id in s.log.completed || Completes(s, e, id))
    && s.now <= t.now
  }

  lemma ReplyEffects(s: State, j: Job, worker: int, reply: Reply, alive: set<int>)
    requires j in s.jobs
    ensures reply.Finished? ==> Reports(s, HandleReply(s, j, worker, reply, alive), j.id, Some(worker))
    ensures !reply.Finished? ==> Quiet(s, HandleReply(s, j, worker, reply, alive))
  {
    hide Complete, Fail, NonRecoverable, Quiet, Reports;
    match reply {
      case Accepted =>
        assert Quiet(s, s) by { QuietSelf(s); }
      case Finished(_) => CompleteReports(s, j, Some(worker), alive);
      case Failed(message) =>
        var t := TakeBack(s, j.id);
        TakeBackQuiet(s, j.id);
        if NonRecoverable(message) {
          AbandonQuiet(t, j);
          QuietTwice(s, t, Abandon(t, j));
        } else {
          FailQuiet(t, j);
          QuietTwice(s, t, Fail(t, j));
        }
    }
  }

  lemma QuietSelf(s: State)
    ensures Quiet(s, s)
  {
  }

  lemma TakeBackQuiet(s: State, id: string)
    ensures Quiet(s, TakeBack(s, id)) && Quiet(s, Collect(s, id))
  {
  }

  lemma AbandonQuiet(s: State, j: Job)
    ensures Quiet(s, Abandon(s, j))
  {
  }

  ghost predicate Handed(s: State, t: State, j: Job, worker: int)
  {
    && t.jobs.Keys == s.jobs.Keys
    && (forall k :: k in s.jobs ==> t.jobs[k].dispatches == s.jobs[k].dispatches + Bit(k == j))
    && StillPinned(s, t)
    && (forall id, w :: id in t.history && t.history[id].worker == Some(w) ==>
      (id == j.id && w == worker) || WorkedOn(s, id, w))
    && t.log.completed == s.log.completed && t.log.doneOn == s.log.doneOn
    && t.now == s.now
  }

  lemma HandOverHands(s: State, j: Job, worker: int)
    requires j in s.jobs
    ensures Handed(s, HandOver(s, j, worker), j, worker)
  {
  }

  lemma HandedEffects(s: State, t: State, u: State, e: Event)
    requires e.DispatchEvent? && e.target.Some? && e.job in s.jobs && Handed(s, t, e.job, e.target.value)
    requires e.reply.Finished? ==> Reports(t, u, e.job.id, e.target)
    requires !e.reply.Finished? ==> Quiet(t, u)
    ensures Effects(s, e, u)
  {
  }

  lemma DispatchEffects(s: State, j: Job, target: Option<int>, reply: Reply, alive: set<int>)
    requires j in s.jobs
    ensures Effects(s, DispatchEvent(j, target, reply, alive), Dispatch(s, j, target, reply, alive))
  {
    hide HandOver, HandleReply, Handed, Quiet, Reports;
    if target.Some? {
      hide Effects;
      var t := HandOver(s, j, target.value);
      HandOverHands(s, j, target.value);
      HandOverJobs(s, j, target.value);
      ReplyEffects(t, j, target.value, reply, alive);
      HandedEffects(s, t, HandleReply(t, j, target.value, reply, alive), DispatchEvent(j, target, reply, alive));
    }
  }

  lemma CallbackEffects(s: State, id: string, ok: bool, alive: set<int>)
    requires id in s.running ==> s.running[id] in s.jobs && s.running[id].id == id
    ensures Effects(s, CallbackEvent(id, ok, alive), Callback(s, id, ok, alive))
  {
    hide Complete, Fail;
    if id !in s.cancelled && id in s.history && id in s.running {
      var j := s.running[id];
      if ok {
        CompleteReports(Collect(s, id), j, s.history[id].worker, alive);
      } else {
        TakeBackQuiet(s, id);
        FailQuiet(TakeBack(s, id), j);
      }
    }
  }

  lemma StepEffects(s: State, e: Event)
    requires Consistent(s) && Enabled(s, e)
    ensures Effects(s, e, Step(s, e))
  {
    hide Dispatch, Callback, Admit, Release, Cancel, Tick, Effects;
    match e {
      case DispatchEvent(j, target, reply, alive) => DispatchEffects(s, j, target, reply, alive);
      case CallbackEvent(id, ok, alive) => CallbackEffects(s, id, ok, alive);
      case CancelEvent(id) => CancelEffects(s, id);
      case SubmitEvent(j) => SubmitEffects(s, j);
      case TimePasses(now) => TickEffects(s, now);
      case ReleaseEvent(j) => ReleaseEffects(s, j);
    }
  }

  lemma CancelEffects(s: State, id: string)
    ensures Effects(s, CancelEvent(id), Cancel(s, id))
  {
    hide Cancel;
    CancelQuiet(s, id);
  }

  lemma TickEffects(s: State, now: int)
    requires s.now <= now
    ensures Effects(s, TimePasses(now), Tick(s, now))
  {
  }

  lemma SubmitEffects(s: State, j: Job)
    requires j !in s.jobs
    ensures Effects(s, SubmitEvent(j), Admit(s, j, NEW_JOB_STATE))
  {
  }

  lemma ReleaseEffects(s: State, j: Job)
    ensures Effects(s, ReleaseEvent(j), Release(s, j))
  {
  }

  // ----- the runs -----

  lemma MovesEffects(s: State, e: Event, t: State)
    requires Moves(s, e, t)
    ensures Effects(s, e, t)
  {
    hide Effects, Step;
    StepEffects(s, e);
  }

  /** Every completion on record was reported by some step of the run. */
  lemma {:induction false} CompletionHasStep(states: seq<State>, events: seq<Event>, i: nat, id: string)
    requires Run(states, events) && i < |states| && id in states[i].log.completed
    ensures exists k :: 0 <= k < i && Completes(states[k], events[k], id)
  {
    if i > 0 {
      hide Completes;
      var s, e, t := states[i - 1], events[i - 1], states[i];
      assert MovesAt(states, events, i - 1);
      NewCompletion(s, e, t, id);
      hide *;
      if id in s.log.completed {
        CompletionHasStep(states, events, i - 1, id);
      }
    }
  }

  lemma NewCompletion(s: State, e: Event, t: State, id: string)
    requires Moves(s, e, t) && id in t.log.completed
    ensures id in s.log.completed || Completes(s, e, id)
  {
    hide Moves;
    MovesEffects(s, e, t);
  }

  lemma HandOverIsReady(s: State, e: Event, j: Job)
    requires Inv(s) && Consistent(s) && Enabled(s, e) && HandsOver(e, j)
    ensures j in s.queue && j in s.jobs && DepSet(j.deps) <= s.log.completed && j.due <= s.now
    ensures forall k :: k in s.queue ==> k.priority <= j.priority
  {
    assert JobOk(s, j);
    ReadyMeansAllSatisfied(j, s.jobs[j].satisfied);
  }

  /**
   Order: when a job is handed to a worker, each of its parents has been reported
   complete by an earlier step, its scheduled time has come, and no job of higher
   priority is queued. This holds whatever callbacks and cancellations arrive.
   */
  lemma DependencyOrder(states: seq<State>, events: seq<Event>, i: nat, j: Job)
    requires Run(states, events) && i < |events| && HandsOver(events[i], j)
    ensures forall d :: d in j.deps ==> exists k :: 0 <= k < i && Completes(states[k], events[k], d)
    ensures j.due <= states[i].now
    ensures forall k :: k in states[i].queue ==> k.priority <= j.priority
  {
    hide Completes, Inv;
    RunKeeps(states, events, i);
    assert MovesAt(states, events, i);
    HandOverIsReady(states[i], events[i], j);
    hide Moves, HandsOver;
    forall d | d in j.deps
      ensures exists k :: 0 <= k < i && Completes(states[k], events[k], d)
    {
      assert d in DepSet(j.deps);
      CompletionHasStep(states, events, i, d);
    }
  }

  /** Who depends on whom, over every job submitted so far. */
  ghost function DepGraph(owner: map<string, Job>): Graph
  {
    map id | id in owner :: DepSet(owner[id].deps)
  }

  lemma AncestorStep(s: State, a: string, b: string)
    requires Inv(s) && Edge(DepGraph(s.log.owner), a, b)
    requires s.jobs[s.log.owner[a]].dispatches > 0
    ensures b in s.log.completed && b in s.log.owner && s.jobs[s.log.owner[b]].dispatches > 0
  {
    var j := s.log.owner[a];
    assert JobOk(s, j);
    ReadyMeansAllSatisfied(j, s.jobs[j].satisfied);
    assert b in s.log.completed;
    assert JobOk(s, s.log.owner[b]);
  }

  lemma {:induction false} AncestorsCompleted(s: State, p: seq<string>, a: string, b: string)
    requires Inv(s) && WalkBetween(DepGraph(s.log.owner), p, a, b)
    requires a in s.log.owner && s.jobs[s.log.owner[a]].dispatches > 0
    ensures b in s.log.completed
    decreases |p|
  {
    hide Inv;
    FirstStep(DepGraph(s.log.owner), p, a, b);
    AncestorStep(s, a, p[1]);
    if |p| > 2 {
      AncestorsCompleted(s, p[1..], p[1], b);
    }
  }

  /**
   A job that was never completed - it died, was abandoned, cancelled, or is still
   under way - has no transitive dependent that was ever handed to a worker.
   */
  lemma NothingRunsBelowIncomplete(states: seq<State>, events: seq<Event>, i: nat, j: Job, d: string)
    requires Run(states, events) && i < |states| && j in states[i].jobs
    requires DependsOn(DepGraph(states[i].log.owner), j.id, d) && d !in states[i].log.completed
    ensures states[i].jobs[j].dispatches == 0
  {
    hide Inv;
    var s := states[i];
    RunKeeps(states, events, i);
    OwnerOf(s, j);
    var p :| WalkBetween(DepGraph(s.log.owner), p, j.id, d);
    if s.jobs[j].dispatches > 0 {
      AncestorsCompleted(s, p, j.id, d);
    }
  }

  lemma OwnerOf(s: State, j: Job)
    requires Inv(s) && j in s.jobs
    ensures SameOwner(s, j) && JobOk(s, j)
  {
    hide Shape, PlaceOk, BudgetOk, OrderOk, StoreOk, PinOk;
    assert JobOk(s, j);
  }

  // How often the events hand j to a worker.
  ghost function HandOvers(events: seq<Event>, j: Job): nat
  {
    if events == [] then 0
    else HandOvers(events[..|events| - 1], j) + Bit(HandsOver(events[|events| - 1], j))
  }

  ghost function Counter(s: State, j: Job): nat
  {
    if j in s.jobs then s.jobs[j].dispatches else 0
  }

  lemma BootCounter(s: State, j: Job)
    requires Booted(s)
    ensures Counter(s, j) == 0
  {
  }

  lemma CounterStep(s: State, e: Event, t: State, j: Job)
    requires Inv(s) && Moves(s, e, t)
    ensures Counter(t, j) == Counter(s, j) + Bit(HandsOver(e, j))
  {
    MovesEffects(s, e, t);
    if HandsOver(e, j) {
      HandOverIsReady(s, e, j);
    }
    hide Moves, Inv;
  }

  lemma {:induction false} CounterIsExact(states: seq<State>, events: seq<Event>, i: nat, j: Job)
    requires Run(states, events) && i < |states|
    ensures Counter(states[i], j) == HandOvers(events[..i], j)
  {
    hide Moves, Counter, HandsOver;
    if i == 0 {
      BootCounter(states[0], j);
    } else {
      CounterIsExact(states, events, i - 1, j);
      RunKeeps(states, events, i - 1);
      assert MovesAt(states, events, i - 1);
      CounterStep(states[i - 1], events[i - 1], states[i], j);
      assert events[..i][..i - 1] == events[..i - 1];
    }
  }

  /** No job is handed to a worker more than 1 + MAX_RETRIES times, duplicated callbacks or not. */
  lemma AtMostFourHandOvers(states: seq<State>, events: seq<Event>, j: Job)
    requires Run(states, events)
    ensures HandOvers(events, j) <= 1 + MAX_RETRIES == 4
  {
    var n := |events|;
    CounterIsExact(states, events, n, j);
    assert events[..n] == events;
    RunKeeps(states, events, n);
    if j in states[n].jobs {
      OwnerOf(states[n], j);
    }
  }

  /**
   A job that lists a parent twice is never handed to a worker, in any run: readiness counts the list,
   not the names.
   */
  lemma RepeatedParentNeverRuns(states: seq<State>, events: seq<Event>, j: Job)
    requires Run(states, events) && !Distinct(j.deps)
    ensures HandOvers(events, j) == 0
  {
    var n := |events|;
    CounterIsExact(states, events, n, j);
    assert events[..n] == events;
    RunKeeps(states, events, n);
    if j in states[n].jobs {
      OwnerOf(states[n], j);
      ReadyMeansAllSatisfied(j, states[n].jobs[j].satisfied);
    }
  }

  /**
   Conservation: at every moment a submitted job that was never cancelled is in exactly
   one place - waiting for parents, waiting for the clock, queued, with a worker - or is
   over; no job whatever is in two places; and every dead job is in the dead-letter queue.
   */
  lemma NoJobLostOrDuplicated(states: seq<State>, events: seq<Event>, i: nat, j: Job)
    requires Run(states, events) && i < |states| && j in states[i].jobs
    ensures Places(states[i], j) <= 1
    ensures Places(states[i], j) == 0 && j.id !in states[i].log.cancelled ==> Over(states[i].jobs[j].status)
    ensures Places(states[i], j) == 1 && !InRunning(states[i], j) ==> states[i].jobs[j].status == PENDING
    ensures states[i].jobs[j].status == DEAD ==> j in states[i].dead
  {
    RunKeeps(states, events, i);
    OwnerOf(states[i], j);
  }

  lemma {:induction false} PinLasts(states: seq<State>, events: seq<Event>, i: nat, k: nat, j: Job)
    requires Run(states, events) && i <= k < |states| && j in states[i].jobs && states[i].jobs[j].preferred.Some?
    ensures j in states[k].jobs && states[k].jobs[j].preferred == states[i].jobs[j].preferred
  {
    hide Moves, Booted;
    if i < k {
      PinLasts(states, events, i, k - 1, j);
      assert MovesAt(states, events, k - 1);
      PinStep(states[k - 1], events[k - 1], states[k]);
    }
  }

  lemma PinStep(s: State, e: Event, t: State)
    requires Moves(s, e, t)
    ensures StillPinned(s, t)
  {
    hide Moves;
    MovesEffects(s, e, t);
  }

  lemma NewWorker(s: State, e: Event, t: State, id: string, worker: int)
    requires Moves(s, e, t)
    ensures WorkedOn(t, id, worker) ==> HandsTo(e, id, worker) || WorkedOn(s, id, worker)
    ensures (id, worker) in t.log.doneOn ==>
      (id, worker) in s.log.doneOn || HandsTo(e, id, worker) || WorkedOn(s, id, worker)
  {
    hide Moves;
    MovesEffects(s, e, t);
  }

  /** A worker on record for a job, or for the completion of a job, was handed that job earlier in the run. */
  lemma {:induction false} WorkerWasHanded(states: seq<State>, events: seq<Event>, i: nat, id: string, worker: int)
    requires Run(states, events) && i < |states|
    ensures WorkedOn(states[i], id, worker) || (id, worker) in states[i].log.doneOn ==>
      exists k :: 0 <= k < i && HandsTo(events[k], id, worker)
  {
    if i > 0 {
      hide Moves, Booted, HandsTo;
      assert MovesAt(states, events, i - 1);
      NewWorker(states[i - 1], events[i - 1], states[i], id, worker);
      WorkerWasHanded(states, events, i - 1, id, worker);
    }
  }

  /**
   Affinity: a job is only ever pinned if it asked to be, to a worker that one of its parents
   was handed to and on which that parent completed; and once pinned it stays pinned to that
   worker to the end of the run.
   */
  lemma AffinityIsFinal(states: seq<State>, events: seq<Event>, i: nat, k: nat, j: Job)
    requires Run(states, events) && i <= k < |states| && j in states[i].jobs && states[i].jobs[j].preferred.Some?
    ensures j in states[k].jobs && states[k].jobs[j].preferred == states[i].jobs[j].preferred
    ensures j.affinity
    ensures exists d, m ::
      && d in j.deps && (d, states[i].jobs[j].preferred.value) in states[i].log.doneOn
      && 0 <= m < i && HandsTo(events[m], d, states[i].jobs[j].preferred.value)
  {
    PinLasts(states, events, i, k, j);
    RunKeeps(states, events, i);
    OwnerOf(states[i], j);
    hide Run, Inv, JobOk, HandsTo;
    var w := states[i].jobs[j].preferred.value;
    var d :| d in j.deps && (d, w) in states[i].log.doneOn;
    WorkerWasHanded(states, events, i, d, w);
  }

  lemma CompleteKeepsRest(s: State, j: Job, worker: Option<int>, alive: set<int>)
    ensures var t := Complete(s, j, worker, alive);
      t.running == s.running && t.cancelled == s.cancelled && t.history.Keys == s.history.Keys
  {
  }

  /**
   A callback that comes again after the job was reported complete reaches the execution
   history and nothing else: no job moves, nothing is unlocked, nothing is written. But it does
   reach the history, even with the opposite verdict.
   */
  lemma RepeatedCallback(s: State, id: string, again: bool, alive: set<int>, alive2: set<int>)
    requires Inv(s) && id in s.running && id !in s.cancelled && s.running[id] in s.jobs
    ensures var t := Callback(s, id, true, alive);
      id !in t.running && id in t.history &&
      Callback(t, id, again, alive2) ==
        t.(history := t.history[id := t.history[id].(status := if again then COMPLETED else FAILED)])
  {
    RunningHasHistory(s, id);
    hide Complete, Inv;
    CompleteKeepsRest(Collect(s, id), s.running[id], s.history[id].worker, alive);
  }

  // ----- what a completion does for one child -----

  lemma PinnedChild(s: State, parent: string, worker: Option<int>, alive: set<int>, c: Job)
    requires c in s.jobs && InWaiting(s, c) && parent in c.deps
    ensures var t := Pin(s, parent, worker, alive);
      c in t.jobs && t.waiting == s.waiting && t.queue == s.queue && t.delayed == s.delayed && t.now == s.now &&
      t.jobs[c] == if c.affinity && s.jobs[c].preferred == None && worker.Some? && worker.value in alive
        then s.jobs[c].(preferred := worker) else s.jobs[c]
  {
  }

  lemma UnlockedChild(s: State, parent: string, c: Job)
    requires c in s.jobs && InWaiting(s, c) && parent in c.deps && c !in s.queue && c !in s.delayed
    ensures var t := Unlock(s, parent); var ready := Ready(c, s.jobs[c].satisfied + {parent});
      c in t.jobs && t.jobs[c] == s.jobs[c].(satisfied := s.jobs[c].satisfied + {parent}) &&
      (InWaiting(t, c) <==> !ready) && t.queue[c] == Bit(ready && c.due <= s.now) &&
        t.delayed[c] == Bit(ready && c.due > s.now)
  {
    hide Ready, PersistAll;
    assert c.id in UnlockedIds(s, parent, s.waiting.Keys) <==> Ready(c, s.jobs[c].satisfied + {parent});
  }

  /**
   The end of a job, seen from a child that waits for it: the parent is ticked off; a child that
   wants affinity and has none is pinned to the parent's worker if that is still registered, even
   if it is released by the same completion; and it is released, to the queue or to the clock,
   exactly if it is ready now.
   */
  lemma CompletionReleases(s: State, j: Job, worker: Option<int>, alive: set<int>, c: Job)
    requires c in s.jobs && InWaiting(s, c) && j.id in c.deps && c != j && c !in s.queue && c !in s.delayed
    ensures var t := Complete(s, j, worker, alive);
      var satisfied := s.jobs[c].satisfied + {j.id};
      var ready := Ready(c, satisfied);
      var pin := c.affinity && s.jobs[c].preferred == None && worker.Some? && worker.value in alive;
      c in t.jobs && t.jobs[c].satisfied == satisfied &&
      t.jobs[c].preferred == (if pin then worker else s.jobs[c].preferred) &&
      (InWaiting(t, c) <==> !ready) && t.queue[c] == Bit(ready && c.due <= s.now) &&
        t.delayed[c] == Bit(ready && c.due > s.now)
  {
    var t := MarkCompleted(s, j, worker);
    assert c in t.jobs && t.jobs[c] == s.jobs[c] && t.waiting == s.waiting && t.queue == s.queue &&
      t.delayed == s.delayed;
    hide MarkCompleted, Pin, Unlock, Ready;
    PinnedChild(t, j.id, worker, alive, c);
    UnlockedChild(Pin(t, j.id, worker, alive), j.id, c);
  }
}
