/** The scheduler does a bounded amount of work for each job, however often workers call back. */
module Work {
  import opened Prelude
  import opened Jobs
  import opened SchedulerModel
  import opened Invariants
  import opened Runs

  /** How many more moves j can make. */
  ghost function Weight(s: State, j: Job): int
  {
    if j !in s.jobs then 0
    else if InWaiting(s, j) then 10
    else if j in s.delayed then 9
    else if j in s.queue then 8 - 2 * s.jobs[j].retries
    else if InRunning(s, j) then 7 - 2 * s.jobs[j].retries
    else 0
  }

  /** The steps that move a job; not back-pressure, ignored messages, or the clock. */
  ghost predicate Effective(s: State, e: Event)
  {
    match e
    case SubmitEvent(_) => false
    case TimePasses(_) => false
    case ReleaseEvent(_) => true
    case DispatchEvent(_, target, _, _) => target.Some?
    case CallbackEvent(id, _, _) => id !in s.cancelled && id in s.running
    case CancelEvent(id) => id in s.waiting || id in s.running || exists j :: j in s.queue && j.id == id
  }

  ghost predicate NoHeavier(s: State, t: State, j: Job)
  {
    j in t.jobs && Weight(t, j) <= Weight(s, j)
  }

  ghost predicate LighterBut(s: State, t: State, j: Job)
  {
    forall k {:trigger NoHeavier(s, t, k)} :: k in s.jobs && k != j ==> NoHeavier(s, t, k)
  }

  ghost predicate Lighter(s: State, t: State)
  {
    forall k {:trigger NoHeavier(s, t, k)} :: k in s.jobs ==> NoHeavier(s, t, k)
  }

  lemma LighterTwice(s: State, t: State, u: State)
    requires Lighter(s, t) && Lighter(t, u)
    ensures Lighter(s, u)
  {
    forall k | k in s.jobs
      ensures NoHeavier(s, u, k)
    {
      assert NoHeavier(s, t, k) && NoHeavier(t, u, k);
    }
  }

  lemma LighterButTwice(s: State, t: State, u: State, j: Job)
    requires LighterBut(s, t, j) && LighterBut(t, u, j)
    ensures LighterBut(s, u, j)
  {
    forall k | k in s.jobs && k != j
      ensures NoHeavier(s, u, k)
    {
      assert NoHeavier(s, t, k) && NoHeavier(t, u, k);
    }
  }

  lemma LighterRelaxes(s: State, t: State, j: Job)
    requires Lighter(s, t)
    ensures LighterBut(s, t, j) && (j in s.jobs ==> NoHeavier(s, t, j))
  {
  }

  lemma UntouchedWeight(s: State, t: State, k: Job)
    requires Untouched(s, t, k)
    ensures NoHeavier(s, t, k)
  {
  }

  lemma WeightIsNat(s: State, j: Job)
    requires Inv(s)
    ensures 0 <= Weight(s, j) <= 10
    ensures j in s.jobs && (j in s.delayed || j in s.queue || InWaiting(s, j) || InRunning(s, j)) ==> Weight(s, j) > 0
  {
    if j in s.jobs {
      assert JobOk(s, j);
    }
  }

  // ----- completion -----

  lemma MarkWeights(s: State, j: Job, worker: Option<int>)
    ensures Lighter(s, MarkCompleted(s, j, worker))
  {
  }

  lemma PinWeights(s: State, parent: string, worker: Option<int>, alive: set<int>)
    ensures Lighter(s, Pin(s, parent, worker, alive))
  {
  }

  lemma UnlockWeight(s: State, parent: string, k: Job)
    requires k in s.jobs && JobOk(s, k)
    ensures NoHeavier(s, Unlock(s, parent), k)
  {
    hide OrderOk, StoreOk, PinOk, Ready, RecordOf;
    var all := s.waiting.Keys;
    if !Unlocks(s, parent, all, k) {
      assert k !in UnlockedJobs(s, parent, all, true) && k !in UnlockedJobs(s, parent, all, false);
    }
    assert InWaiting(s, k) && !InWaiting(Unlock(s, parent), k) ==> Unlocks(s, parent, all, k);
    hide UnlockedIds, UnlockedJobs, Unlocks, PersistAll;
  }

  lemma UnlockWeights(s: State, parent: string)
    requires Inv(s)
    ensures Lighter(s, Unlock(s, parent))
  {
    hide JobOk, Unlock, Shape, NoHeavier;
    forall k | k in s.jobs
      ensures NoHeavier(s, Unlock(s, parent), k)
    {
      assert JobOk(s, k);
      UnlockWeight(s, parent, k);
    }
  }

  lemma CompleteWeights(s: State, j: Job, worker: Option<int>, alive: set<int>)
    requires Shape(s) && j in s.jobs && OthersOk(s, j) && Held(s, j)
    ensures Lighter(s, Complete(s, j, worker, alive))
  {
    var t := MarkCompleted(s, j, worker);
    var u := Pin(t, j.id, worker, alive);
    assert worker.Some? ==> (j.id, worker.value) in t.log.doneOn;
    hide Inv, Shape, OthersOk, Held, MarkCompleted, Pin, Unlock, Lighter;
    MarkKeeps(s, j, worker);
    PinKeeps(t, j.id, worker, alive);
    MarkWeights(s, j, worker);
    PinWeights(t, j.id, worker, alive);
    UnlockWeights(u, j.id);
    LighterTwice(s, t, u);
    LighterTwice(s, u, Unlock(u, j.id));
  }

  // ----- failure -----

  lemma CascadeWeights(s: State, parent: string)
    requires Inv(s)
    ensures Lighter(s, Cascade(s, parent))
  {
  }

  lemma GaveUpWeights(s: State, j: Job)
    requires InvBut(s, j)
    ensures LighterBut(s, Abandon(s, j), j) && Weight(Abandon(s, j), j) == 0
    ensures LighterBut(s, Exhaust(s, j), j) && Weight(Exhaust(s, j), j) == 0
    ensures LighterBut(s, Requeue(s, j), j) && Weight(Requeue(s, j), j) == 6 - 2 * s.jobs[j].retries
  {
    var a, e, r := Abandon(s, j), Exhaust(s, j), Requeue(s, j);
    forall k | k in s.jobs && k != j
      ensures NoHeavier(s, a, k) && NoHeavier(s, e, k) && NoHeavier(s, r, k)
    {
      hide InvBut;
    }
  }

  /** A failed job comes back lighter by at least one move. */
  lemma FailWeights(s: State, j: Job)
    requires InvBut(s, j)
    ensures LighterBut(s, Fail(s, j), j)
    ensures Weight(Fail(s, j), j) <= 6 - 2 * s.jobs[j].retries
  {
    GaveUpWeights(s, j);
    assert Weight(s, j) == 0 && s.jobs[j].retries <= MAX_RETRIES;
    assert LighterBut(s, s, j);
    if j.id !in s.cancelled && !(WORKER_PREFIX <= j.id) && s.jobs[j].retries + 1 > MAX_RETRIES {
      hide InvBut, Inv, Exhaust, Cascade, LighterBut, Lighter, Weight;
      var t := Exhaust(s, j);
      ExhaustKeeps(s, j);
      CascadeWeights(t, j.id);
      LighterRelaxes(t, Cascade(t, j.id), j);
      LighterButTwice(s, t, Cascade(t, j.id), j);
      ExhaustedStays(s, j);
    }
  }

  lemma ExhaustedStays(s: State, j: Job)
    requires j in s.jobs
    ensures j in Exhaust(s, j).jobs
    ensures Weight(Exhaust(s, j), j) == 0 && Lighter(Exhaust(s, j), Cascade(Exhaust(s, j), j.id)) ==>
      Weight(Cascade(Exhaust(s, j), j.id), j) <= 0
  {
  }

  // ----- steps -----

  lemma ReleaseWeights(s: State, j: Job)
    requires Inv(s) && j in s.delayed
    ensures Lighter(s, Release(s, j)) && Weight(Release(s, j), j) < Weight(s, j)
  {
    var t := Release(s, j);
    assert JobOk(s, j);
    forall k | k in s.jobs && k != j
      ensures NoHeavier(s, t, k)
    {
      hide JobOk, Inv;
    }
  }

  lemma HandOverWeights(s: State, j: Job, worker: int)
    requires Inv(s) && j in s.queue && j in s.jobs
    ensures LighterBut(s, HandOver(s, j, worker), j)
    ensures Weight(HandOver(s, j, worker), j) == 7 - 2 * s.jobs[j].retries == Weight(s, j) - 1
    ensures HandOver(s, j, worker).jobs[j].retries == s.jobs[j].retries <= 3
  {
    var t := HandOver(s, j, worker);
    assert JobOk(s, j);
    forall k | k in s.jobs && k != j
      ensures NoHeavier(s, t, k)
    {
      hide PlaceOk, BudgetOk, OrderOk, StoreOk, PinOk, Shape, Untouched, HandOver, NoHeavier;
      assert JobOk(s, k);
      HandOverFrame(s, j, worker, k);
      UntouchedWeight(s, t, k);
    }
    assert j !in t.queue && !InWaiting(t, j) && j !in t.delayed;
  }

  lemma ReturnWeights(s: State, j: Job)
    requires Inv(s) && j in s.jobs && InRunning(s, j)
    ensures LighterBut(s, TakeBack(s, j.id), j) && LighterBut(s, Collect(s, j.id), j)
    ensures Weight(s, j) == 7 - 2 * s.jobs[j].retries > 0
    ensures Weight(TakeBack(s, j.id), j) == 0 == Weight(Collect(s, j.id), j)
    ensures TakeBack(s, j.id).jobs == s.jobs == Collect(s, j.id).jobs
  {
    var t, u := TakeBack(s, j.id), Collect(s, j.id);
    assert JobOk(s, j);
    forall k | k in s.jobs && k != j
      ensures NoHeavier(s, t, k) && NoHeavier(s, u, k)
    {
      hide JobOk, Inv;
    }
  }

  lemma ReplyWeights(s: State, j: Job, worker: int, reply: Reply, alive: set<int>)
    requires Inv(s) && j in s.jobs && InRunning(s, j)
    ensures Lighter(s, HandleReply(s, j, worker, reply, alive))
  {
    hide Inv, InvBut, TakeBack, Complete, Fail, Abandon, Held, NonRecoverable, Weight;
    match reply {
      case Accepted =>
      case Finished(_) =>
        InvSplits(s, j);
        RunningIsHeld(s, j);
        CompleteWeights(s, j, Some(worker), alive);
      case Failed(message) =>
        var t := TakeBack(s, j.id);
        TakeBackKeeps(s, j);
        ReturnWeights(s, j);
        GaveUpWeights(t, j);
        FailWeights(t, j);
        var u := HandleReply(s, j, worker, reply, alive);
        LighterButTwice(s, t, u, j);
        JobsKept(t, j);
        assert NoHeavier(s, u, j);
        hide LighterBut, Lighter, HandleReply;
        LighterJoin(s, u, j);
    }
  }

  lemma JobsKept(s: State, j: Job)
    requires j in s.jobs
    ensures j in Abandon(s, j).jobs && j in Fail(s, j).jobs
  {
  }

  lemma LighterJoin(s: State, t: State, j: Job)
    requires LighterBut(s, t, j) && (j in s.jobs ==> NoHeavier(s, t, j))
    ensures Lighter(s, t)
  {
  }

  lemma DispatchWeights(s: State, j: Job, target: int, reply: Reply, alive: set<int>)
    requires Inv(s) && j in s.queue && j in s.jobs
    ensures var t := Dispatch(s, j, Some(target), reply, alive); Lighter(s, t) && Weight(t, j) < Weight(s, j)
  {
    var h := HandOver(s, j, target);
    var t := HandleReply(h, j, target, reply, alive);
    HandOverKeeps(s, j, target);
    HandOverWeights(s, j, target);
    HandOverJobs(s, j, target);
    hide Inv, HandOver, HandleReply, Weight;
    ReplyWeights(h, j, target, reply, alive);
    LighterRelaxes(h, t, j);
    LighterButTwice(s, h, t, j);
    assert NoHeavier(s, t, j);
    LighterJoin(s, t, j);
  }

  lemma CallbackWeights(s: State, id: string, ok: bool, alive: set<int>)
    requires Inv(s) && id !in s.cancelled && id in s.running && s.running[id] in s.jobs
    ensures var t := Callback(s, id, ok, alive); Lighter(s, t) && Weight(t, s.running[id]) < Weight(s, s.running[id])
  {
    var j := s.running[id];
    RunningHasHistory(s, id);
    assert j.id == id;
    ReturnWeights(s, j);
    hide Inv, InvBut, TakeBack, Collect, Complete, Fail, Held, Shape, Weight;
    var t := if ok then Collect(s, id) else TakeBack(s, id);
    var u := Callback(s, id, ok, alive);
    if ok {
      CollectKeeps(s, j);
      HeldOf(t, j);
      CompleteWeights(t, j, s.history[id].worker, alive);
      LighterRelaxes(t, u, j);
    } else {
      TakeBackKeeps(s, j);
      FailWeights(t, j);
      JobsKept(t, j);
    }
    LighterButTwice(s, t, u, j);
    assert NoHeavier(s, u, j);
    hide LighterBut, Lighter, Callback;
    LighterJoin(s, u, j);
  }

  lemma WithdrawWeight(s: State, id: string, k: Job)
    requires Shape(s) && k in s.jobs && JobOk(s, k)
    ensures NoHeavier(s, Withdraw(s, id), k)
    ensures k.id == id && k !in s.delayed ==> Weight(Withdraw(s, id), k) == 0
  {
    if k.id == id {
      hide OrderOk, StoreOk, PinOk;
    } else {
      WithdrawFrame(s, id, k);
      hide Withdraw;
      UntouchedWeight(s, Withdraw(s, id), k);
    }
  }

  lemma CancelWeights(s: State, id: string)
    requires Inv(s)
    ensures Lighter(s, Cancel(s, id))
    ensures forall k :: k in s.jobs && k.id == id && k !in s.delayed ==> Weight(Cancel(s, id), k) <= 0
  {
    var t := Withdraw(s, id);
    WithdrawKeeps(s, id);
    assert t.jobs.Keys == s.jobs.Keys;
    hide Withdraw, Cascade, Shape, JobOk, Weight;
    forall k | k in s.jobs
      ensures NoHeavier(s, t, k)
      ensures k.id == id && k !in s.delayed ==> Weight(t, k) == 0
    {
      assert JobOk(s, k);
      WithdrawWeight(s, id, k);
      hide NoHeavier;
    }
    CascadeWeights(t, id);
    LighterTwice(s, t, Cascade(t, id));
    forall k | k in s.jobs && k.id == id && k !in s.delayed
      ensures Weight(Cascade(t, id), k) <= 0
    {
      assert NoHeavier(t, Cascade(t, id), k);
    }
  }

  lemma IdleWeights(s: State, id: string, ok: bool, now: int)
    ensures Lighter(s, Tick(s, now)) && Lighter(s, ForgetCancellation(s, id)) && Lighter(s, Note(s, id, ok)) &&
      Lighter(s, s)
  {
  }

  lemma SubmitWeights(s: State, j: Job)
    requires Inv(s) && j !in s.jobs && j.id !in s.log.owner
    ensures Lighter(s, Admit(s, j, NEW_JOB_STATE))
  {
  }

  /** Some job got lighter, and none heavier. */
  ghost predicate Works(s: State, t: State)
  {
    Lighter(s, t) && exists j :: j in s.jobs && Weight(t, j) < Weight(s, j)
  }

  lemma CancelWorks(s: State, id: string)
    requires Inv(s) && Effective(s, CancelEvent(id))
    ensures Works(s, Cancel(s, id))
  {
    CancelWeights(s, id);
    hide Cancel, Weight;
    var j := if id in s.waiting then s.waiting[id] else if id in s.running then s.running[id]
      else var q :| q in s.queue && q.id == id; q;
    assert JobOk(s, j);
    WeightIsNat(s, j);
  }

  /** An effective step makes some job lighter; no step makes any job heavier. */
  lemma StepWeights(s: State, e: Event)
    requires Inv(s) && Consistent(s) && Enabled(s, e) && FreshId(s, e)
    ensures Lighter(s, Step(s, e))
    ensures Effective(s, e) ==> Works(s, Step(s, e))
  {
    hide Inv, Admit, Release, Dispatch, Callback, Cancel, Tick, Weight, Lighter, ForgetCancellation, Note,
      NonRecoverable;
    match e {
      case SubmitEvent(j) => SubmitWeights(s, j);
      case TimePasses(now) => IdleWeights(s, "", true, now);
      case ReleaseEvent(j) => ReleaseWeights(s, j);
      case DispatchEvent(j, target, reply, alive) =>
        if target.Some? {
          DispatchWeights(s, j, target.value, reply, alive);
        } else {
          IdleWeights(s, "", true, s.now);
          NoTarget(s, j, reply, alive);
        }
      case CallbackEvent(id, ok, alive) =>
        if id !in s.cancelled && id in s.running {
          CallbackWeights(s, id, ok, alive);
        } else {
          IdleWeights(s, id, ok, s.now);
          IdleCallback(s, id, ok, alive);
        }
      case CancelEvent(id) =>
        CancelWeights(s, id);
        if Effective(s, e) {
          CancelWorks(s, id);
        }
    }
  }

  lemma NoTarget(s: State, j: Job, reply: Reply, alive: set<int>)
    requires j in s.jobs
    ensures Dispatch(s, j, None, reply, alive) == s
  {
  }

  lemma IdleCallback(s: State, id: string, ok: bool, alive: set<int>)
    requires id in s.running ==> s.running[id] in s.jobs
    requires id in s.cancelled || id !in s.running
    ensures Callback(s, id, ok, alive) == ForgetCancellation(s, id) || Callback(s, id, ok, alive) == Note(s, id, ok)
      || Callback(s, id, ok, alive) == s
  {
  }

  // ----- runs -----

  ghost function Submitted(events: seq<Event>): seq<Job>
  {
    if events == [] then []
    else
      var e := events[|events| - 1];
      Submitted(events[..|events| - 1]) + if e.SubmitEvent? then [e.job] else []
  }

  ghost function Total(s: State, js: seq<Job>): int
  {
    if js == [] then 0 else Total(s, js[..|js| - 1]) + Weight(s, js[|js| - 1])
  }

  ghost function EffectiveSteps(states: seq<State>, events: seq<Event>, n: nat): nat
    requires n <= |events| < |states|
  {
    if n == 0 then 0
    else EffectiveSteps(states, events, n - 1) + Bit(Effective(states[n - 1], events[n - 1]))
  }

  lemma {:induction false} TotalFalls(s: State, t: State, js: seq<Job>)
    requires Lighter(s, t) && forall k :: 0 <= k < |js| ==> js[k] in s.jobs
    ensures Total(t, js) <= Total(s, js)
    ensures (exists k :: 0 <= k < |js| && Weight(t, js[k]) < Weight(s, js[k])) ==> Total(t, js) < Total(s, js)
  {
    hide Weight;
    if js != [] {
      var last := |js| - 1;
      TotalFalls(s, t, js[..last]);
      assert NoHeavier(s, t, js[last]);
      if k :| 0 <= k < |js| && Weight(t, js[k]) < Weight(s, js[k]) {
        if k < last {
          assert js[..last][k] == js[k];
        }
      }
    }
  }

  lemma {:induction false} TotalIsNat(s: State, js: seq<Job>)
    requires Inv(s)
    ensures Total(s, js) >= 0
  {
    hide Inv, Weight;
    if js != [] {
      TotalIsNat(s, js[..|js| - 1]);
      WeightIsNat(s, js[|js| - 1]);
    }
  }

  /** The jobs known to s are those submitted. */
  ghost predicate Roster(s: State, js: seq<Job>)
  {
    (forall j {:trigger j in s.jobs} :: j in s.jobs ==> j in js) &&
    forall i :: 0 <= i < |js| ==> js[i] in s.jobs
  }

  lemma MoveWeights(s: State, e: Event, t: State)
    requires Inv(s) && Moves(s, e, t)
    ensures Inv(t) && t.jobs.Keys == s.jobs.Keys + if e.SubmitEvent? then {e.job} else {}
    ensures Lighter(s, t) && (Effective(s, e) ==> Works(s, t))
  {
    hide Inv, Step, Enabled, FreshId, Lighter, Works, Effective;
    StepKeeps(s, e);
    StepWeights(s, e);
    StepEffects(s, e);
  }

  lemma RosterGrows(s: State, t: State, js: seq<Job>, j: Job)
    requires Inv(t) && Roster(s, js) && t.jobs.Keys == s.jobs.Keys + {j} && Lighter(s, t)
    ensures Roster(t, js + [j]) && Total(t, js + [j]) <= Total(s, js) + 10
  {
    hide Inv, Weight, Lighter;
    assert (js + [j])[..|js|] == js;
    TotalFalls(s, t, js);
    WeightIsNat(t, j);
  }

  lemma RosterStays(s: State, t: State, js: seq<Job>, effective: bool)
    requires Roster(s, js) && t.jobs.Keys == s.jobs.Keys && Lighter(s, t) && (effective ==> Works(s, t))
    ensures Roster(t, js) && Total(t, js) + Bit(effective) <= Total(s, js)
  {
    hide Weight, Lighter, Works;
    TotalFalls(s, t, js);
    if effective {
      WorkIsSeen(s, t, js);
    }
  }

  lemma WorkStep(s: State, e: Event, t: State, js: seq<Job>)
    requires Inv(s) && Moves(s, e, t) && Roster(s, js)
    ensures var ks := js + if e.SubmitEvent? then [e.job] else [];
      Roster(t, ks) && Total(t, ks) + Bit(Effective(s, e)) <= Total(s, js) + 10 * (|ks| - |js|)
  {
    MoveWeights(s, e, t);
    if e.SubmitEvent? {
      hide Moves, Inv, Lighter, Weight, Works, Roster, Total;
      RosterGrows(s, t, js, e.job);
    } else {
      hide *;
      assert js + [] == js;
      RosterStays(s, t, js, Effective(s, e));
    }
  }

  lemma WorkIsSeen(s: State, t: State, js: seq<Job>)
    requires Works(s, t) && Roster(s, js)
    ensures exists k :: 0 <= k < |js| && Weight(t, js[k]) < Weight(s, js[k])
  {
  }

  lemma {:induction false} BootTotal(s: State, js: seq<Job>)
    requires Inv(s)
    ensures Total(s, js) <= 10 * |js|
  {
    hide Inv, Weight;
    if js != [] {
      BootTotal(s, js[..|js| - 1]);
      WeightIsNat(s, js[|js| - 1]);
    }
  }

  lemma {:induction false} WorkSoFar(states: seq<State>, events: seq<Event>, js: seq<Job>, n: nat)
    requires Run(states, events) && n <= |events| && Roster(states[0], js)
    ensures var ks := js + Submitted(events[..n]);
      Roster(states[n], ks) && Total(states[n], ks) + EffectiveSteps(states, events, n) <= 10 * |ks|
  {
    hide Moves, Effective, Weight, Booted;
    if n == 0 {
      assert js + [] == js;
      RunKeeps(states, events, 0);
      BootTotal(states[0], js);
    } else {
      WorkSoFar(states, events, js, n - 1);
      RunKeeps(states, events, n - 1);
      assert MovesAt(states, events, n - 1);
      assert events[..n][..n - 1] == events[..n - 1];
      var ks := js + Submitted(events[..n - 1]);
      assert js + Submitted(events[..n]) == ks + if events[n - 1].SubmitEvent? then [events[n - 1].job] else [];
      WorkStep(states[n - 1], events[n - 1], states[n], ks);
    }
  }

  /**
   Bounded work: a run over N jobs, those of `js` it starts with and those submitted, has at
   most 10 * N steps that move a job, whatever the workers report and however often; all
   other steps leave every job where it is.
   */
  lemma WorkIsLinear(states: seq<State>, events: seq<Event>, js: seq<Job>)
    requires Run(states, events) && Roster(states[0], js)
    ensures EffectiveSteps(states, events, |events|) <= 10 * (|js| + |Submitted(events)|)
  {
    var n := |events|;
    WorkSoFar(states, events, js, n);
    RunKeeps(states, events, n);
    TotalIsNat(states[n], js + Submitted(events[..n]));
    assert events[..n] == events;
  }
}
