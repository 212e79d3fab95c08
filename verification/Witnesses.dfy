/**
 Concrete histories: what goes wrong when a parent is outside the payload, late, named twice or
 abandoned, and what a cancellation reaches.
 */
module Witnesses {
  import opened Prelude
  import opened Jobs
  import opened Graphs
  import opened SchedulerModel
  import opened Invariants
  import opened Runs
  import opened Liveness
  import opened DagRuns
  import opened CycleCheck

  lemma LoneJobIsAcyclic(j: Job)
    requires j.id !in j.deps
    ensures !Cyclic(PayloadGraph([j]))
  {
    var g := PayloadGraph([j]);
    if Cyclic(g) {
      var a :| DependsOn(g, a, a);
      var p :| WalkBetween(g, p, a, a);
      FirstStep(g, p, a, a);
    }
  }

  lemma AdmitOne(s: State, j: Job)
    requires j.id !in j.deps
    ensures SubmitPayload(s, [j]) == Admit(s, j, NEW_JOB_STATE)
  {
    LoneJobIsAcyclic(j);
    assert [j][..0] == [];
    assert AdmitAll(s, [j]) == Admit(AdmitAll(s, []), j, NEW_JOB_STATE);
  }

  /**
   The check looks at one payload at a time: two payloads it accepts, each naming a
   parent in the other, leave the scheduler at rest with both jobs waiting for ever.
   */
  lemma TwoPayloadsDeadlock(a: Job, b: Job)
    requires a.id == "DAG-a" && a.deps == ["DAG-b"] && b.id == "DAG-b" && b.deps == ["DAG-a"]
    ensures !Cyclic(PayloadGraph([a])) && !Cyclic(PayloadGraph([b]))
    ensures var s := SubmitPayload(SubmitPayload(Init(0), [a]), [b]);
      Quiescent(s) && s.waiting.Keys == {a.id, b.id}
  {
    LoneJobIsAcyclic(a);
    LoneJobIsAcyclic(b);
    AdmitOne(Init(0), a);
    AdmitOne(Admit(Init(0), a, NEW_JOB_STATE), b);
  }

  lemma CompleteAlone(s: State, j: Job)
    requires s.waiting == map[] && j in s.jobs
    ensures var t := Complete(s, j, Some(9000), {9000});
      t.waiting == map[] && t.queue == s.queue && t.delayed == s.delayed &&
      t.jobs == s.jobs[j := s.jobs[j].(status := COMPLETED)]
  {
  }

  /** The scheduler after `parent`, submitted alone, has run to completion in one dispatch. */
  ghost predicate ParentDone(s: State, parent: Job)
  {
    && s.waiting == map[] && s.queue == multiset{} && s.delayed == multiset{}
    && s.jobs.Keys == {parent} && s.jobs[parent].status == COMPLETED
  }

  lemma ParentHanded(parent: Job)
    requires parent.deps == [] && parent.due <= 0
    ensures parent in Admit(Init(0), parent, NEW_JOB_STATE).jobs
    ensures var h := HandOver(Admit(Init(0), parent, NEW_JOB_STATE), parent, 9000);
      h.waiting == map[] && h.queue == multiset{} && h.delayed == multiset{} && h.jobs.Keys == {parent}
  {
  }

  lemma RunParent(parent: Job)
    requires parent.deps == [] && parent.due <= 0
    ensures parent in Admit(Init(0), parent, NEW_JOB_STATE).jobs
    ensures ParentDone(Dispatch(Admit(Init(0), parent, NEW_JOB_STATE), parent, Some(9000), Finished("ok"), {9000}),
      parent)
  {
    ParentHanded(parent);
    hide Complete, HandOver, Admit;
    CompleteAlone(HandOver(Admit(Init(0), parent, NEW_JOB_STATE), parent, 9000), parent);
  }

  lemma LateChildArrives(s: State, parent: Job, child: Job)
    requires ParentDone(s, parent) && child != parent && child.deps != []
    ensures var t := Admit(s, child, NEW_JOB_STATE);
      parent in t.jobs && Quiescent(t) && t.waiting.Keys == {child.id} && t.jobs[parent].status == COMPLETED
  {
  }

  /** A child submitted after its parent completed waits for ever, with nothing wrong with either. */
  lemma LateChildWaits(parent: Job, child: Job)
    requires parent.id == "DAG-p" && parent.deps == [] && parent.due <= 0
    requires child.id == "DAG-c" && child.deps == ["DAG-p"]
    ensures parent in Admit(Init(0), parent, NEW_JOB_STATE).jobs
    ensures var s := Dispatch(Admit(Init(0), parent, NEW_JOB_STATE), parent, Some(9000), Finished("ok"), {9000});
      var t := Admit(s, child, NEW_JOB_STATE);
      Quiescent(t) && t.waiting.Keys == {child.id} && t.jobs[parent].status == COMPLETED
  {
    RunParent(parent);
    hide Dispatch, Admit, ParentDone;
    LateChildArrives(Dispatch(Admit(Init(0), parent, NEW_JOB_STATE), parent, Some(9000), Finished("ok"), {9000}),
      parent, child);
  }

  /** A failure that forbids a retry does not cascade either: the child of such a job is stranded. */
  lemma AbandonedParentStrands(parent: Job, child: Job, message: string)
    requires parent.id == "DAG-p" && parent.deps == [] && parent.due <= 0
    requires child.id == "DAG-c" && child.deps == ["DAG-p"] && NonRecoverable(message)
    ensures var s := Admit(Admit(Init(0), parent, NEW_JOB_STATE), child, NEW_JOB_STATE);
      var t := Dispatch(s, parent, Some(9000), Failed(message), {9000});
      Quiescent(t) && t.waiting.Keys == {child.id} && t.jobs[parent].status == FAILED && t.dead == {}
  {
  }

  /** An auto-scaler job is abandoned whatever the failure, so its child is stranded by any. */
  lemma WorkerParentStrands(parent: Job, child: Job, message: string)
    requires parent.id == "WRK-p" && parent.deps == [] && parent.due <= 0
    requires child.id == "DAG-c" && child.deps == ["WRK-p"]
    ensures var s := Admit(Admit(Init(0), parent, NEW_JOB_STATE), child, NEW_JOB_STATE);
      var t := Dispatch(s, parent, Some(9000), Failed(message), {9000});
      Quiescent(t) && t.waiting.Keys == {child.id} && t.jobs[parent].status == FAILED && t.dead == {}
  {
    var s := Admit(Admit(Init(0), parent, NEW_JOB_STATE), child, NEW_JOB_STATE);
    AbandonedAnyway(HandOver(s, parent, 9000), parent, message);
    hide HandleReply, NonRecoverable;
  }

  lemma AbandonedAnyway(s: State, j: Job, message: string)
    requires j in s.jobs && j.id == "WRK-p" && j.id !in s.cancelled
    ensures HandleReply(s, j, 9000, Failed(message), {9000}) == Abandon(TakeBack(s, j.id), j)
  {
    hide Cascade, Exhaust, Requeue, Abandon, NonRecoverable;
    assert WORKER_PREFIX <= j.id;
  }

  lemma TwoJobsAreAcyclic(p: Job, c: Job)
    requires p.id != c.id && p.deps == [] && forall d :: d in c.deps ==> d == p.id
    ensures !Cyclic(PayloadGraph([p, c]))
  {
    RankedIsAcyclic(PayloadGraph([p, c]), map[p.id := 0, c.id := 1]);
  }

  lemma AdmitTwo(s: State, p: Job, c: Job)
    requires p.id != c.id && p.deps == [] && forall d :: d in c.deps ==> d == p.id
    ensures SubmitPayload(s, [p, c]) == Admit(Admit(s, p, NEW_JOB_STATE), c, NEW_JOB_STATE)
  {
    TwoJobsAreAcyclic(p, c);
    var dag := [p, c];
    assert dag[..1] == [p] && [p][..0] == [];
    assert AdmitAll(s, [p]) == Admit(AdmitAll(s, []), p, NEW_JOB_STATE);
    assert AdmitAll(s, dag) == Admit(AdmitAll(s, [p]), c, NEW_JOB_STATE);
  }

  /** p is done or about to be, c waits with these parents ticked off, and nothing else is anywhere. */
  ghost predicate OnlyWaits(s: State, p: Job, c: Job, satisfied: set<string>)
  {
    && s.jobs.Keys == {p, c} && s.waiting == map[c.id := c]
    && s.queue == multiset{} && s.delayed == multiset{} && s.running == map[p.id := p]
    && s.jobs[c].satisfied == satisfied && s.jobs[c].status == PENDING
  }

  lemma TwoAdmitted(p: Job, c: Job)
    requires p.id != c.id && p.deps == [] && p.due <= 0 && c.deps == [p.id, p.id]
    ensures var s := Admit(Admit(Init(0), p, NEW_JOB_STATE), c, NEW_JOB_STATE);
      p in s.jobs && OnlyWaits(HandOver(s, p, 9000), p, c, {})
  {
  }

  lemma MarkAndPin(s: State, p: Job, c: Job)
    requires OnlyWaits(s, p, c, {}) && p != c
    ensures var t := Pin(MarkCompleted(s, p, Some(9000)), p.id, Some(9000), {9000});
      OnlyWaits(t, p, c, {}) && t.jobs[p].status == COMPLETED
  {
  }

  lemma UnlockUnheard(s: State, p: Job, c: Job)
    requires OnlyWaits(s, p, c, {}) && p != c && c.deps == [p.id, p.id] && s.jobs[p].status == COMPLETED
    ensures OnlyWaits(Unlock(s, p.id), p, c, {p.id}) && Unlock(s, p.id).jobs[p].status == COMPLETED
  {
    NobodyReady(s, p, c);
    hide *;
    UnlockNobody(s, p.id);
    KidsAre(s, p, c);
    OnlyTicked(s, Unlock(s, p.id), p, c);
  }

  lemma UnlockNobody(s: State, parent: string)
    requires UnlockedIds(s, parent, s.waiting.Keys) == {}
    requires forall soon :: UnlockedJobs(s, parent, s.waiting.Keys, soon) == {}
    ensures var t := Unlock(s, parent);
      t.waiting == s.waiting && t.queue == s.queue && t.delayed == s.delayed && t.running == s.running &&
      t.jobs.Keys == s.jobs.Keys &&
      forall j :: j in s.jobs ==>
        t.jobs[j] ==
          if Kid(s, parent, s.waiting.Keys, j) then s.jobs[j].(satisfied := s.jobs[j].satisfied + {parent})
          else s.jobs[j]
  {
    hide UnlockedIds, UnlockedJobs, Kid, PersistAll;
  }

  lemma KidsAre(s: State, p: Job, c: Job)
    requires s.waiting == map[c.id := c] && p != c && c.deps == [p.id, p.id]
    ensures Kid(s, p.id, s.waiting.Keys, c) && !Kid(s, p.id, s.waiting.Keys, p)
  {
  }

  lemma OnlyTicked(s: State, t: State, p: Job, c: Job)
    requires OnlyWaits(s, p, c, {}) && s.jobs[p].status == COMPLETED
    requires t.waiting == s.waiting && t.queue == s.queue && t.delayed == s.delayed && t.running == s.running
    requires t.jobs.Keys == s.jobs.Keys && t.jobs[p] == s.jobs[p]
    requires t.jobs[c] == s.jobs[c].(satisfied := s.jobs[c].satisfied + {p.id})
    ensures OnlyWaits(t, p, c, {p.id}) && t.jobs[p].status == COMPLETED
  {
  }

  lemma NobodyReady(s: State, p: Job, c: Job)
    requires OnlyWaits(s, p, c, {}) && c.deps == [p.id, p.id]
    ensures UnlockedIds(s, p.id, s.waiting.Keys) == {}
    ensures forall soon :: UnlockedJobs(s, p.id, s.waiting.Keys, soon) == {}
  {
    assert |{p.id}| == 1 && {} + {p.id} == {p.id};
    assert !Ready(c, s.jobs[c].satisfied + {p.id});
    hide Ready;
  }

  /**
   A parent named twice counts once: a payload that is complete in itself and passes the check
   leaves the child waiting for ever after its parent has completed.
   */
  lemma RepeatedParentWaits(p: Job, c: Job)
    requires p.id == "DAG-p" && p.deps == [] && p.due <= 0
    requires c.id == "DAG-c" && c.deps == ["DAG-p", "DAG-p"]
    ensures !Cyclic(PayloadGraph([p, c])) && p in SubmitPayload(Init(0), [p, c]).jobs
    ensures var t := Dispatch(SubmitPayload(Init(0), [p, c]), p, Some(9000), Finished("ok"), {9000});
      Quiescent(t) && t.waiting.Keys == {c.id} && p in t.jobs && t.jobs[p].status == COMPLETED
  {
    TwoJobsAreAcyclic(p, c);
    AdmitTwo(Init(0), p, c);
    TwoAdmitted(p, c);
    hide *;
    CompleteUnheard(SubmitPayload(Init(0), [p, c]), p, c);
  }

  lemma CompleteUnheard(s: State, p: Job, c: Job)
    requires p in s.jobs && OnlyWaits(HandOver(s, p, 9000), p, c, {}) && p != c && c.deps == [p.id, p.id]
    ensures var t := Dispatch(s, p, Some(9000), Finished("ok"), {9000});
      Quiescent(t) && t.waiting.Keys == {c.id} && p in t.jobs && t.jobs[p].status == COMPLETED
  {
    hide HandOver, Pin, MarkCompleted, Unlock, Fail, Abandon, TakeBack, NonRecoverable;
    var h := HandOver(s, p, 9000);
    MarkAndPin(h, p, c);
    UnlockUnheard(Pin(MarkCompleted(h, p, Some(9000)), p.id, Some(9000), {9000}), p, c);
  }

  // ----- cancellation -----

  lemma WithdrawReaches(s: State, j: Job)
    requires Shape(s) && j in s.jobs && JobOk(s, j)
    ensures var t := Withdraw(s, j.id);
      j in t.jobs && j.id !in t.waiting && Places(t, j) == s.delayed[j] &&
      t.jobs[j].status == if InWaiting(s, j) || InRunning(s, j) then CANCELLED else s.jobs[j].status
  {
  }

  lemma CascadeSpares(s: State, parent: string, j: Job)
    requires j in s.jobs && j.id !in s.waiting
    ensures var t := Cascade(s, parent);
      j in t.jobs && t.jobs[j] == s.jobs[j] && Places(t, j) == Places(s, j)
  {
  }

  /**
   What a cancellation reaches. It takes the job from wherever it is, except from the delay
   queue, where it stays and will run; and it marks the job CANCELLED exactly if it was waiting
   for parents or with a worker - a job merely queued disappears with its status unchanged.
   */
  lemma CancelReaches(s: State, j: Job)
    requires Inv(s) && j in s.jobs
    ensures j in Cancel(s, j.id).jobs && Places(Cancel(s, j.id), j) == s.delayed[j]
    ensures Cancel(s, j.id).jobs[j].status == if InWaiting(s, j) || InRunning(s, j) then CANCELLED else s.jobs[j].status
  {
    OwnerOf(s, j);
    hide Withdraw, Cascade, JobOk, Places;
    WithdrawReaches(s, j);
    CascadeSpares(Withdraw(s, j.id), j.id, j);
  }
}
