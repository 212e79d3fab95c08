/** A restart: what recoverState brings back from the store, and what it does not. */
module Recovery {
  import opened Prelude
  import opened Jobs
  import opened SchedulerModel
  import opened Invariants
  import opened Runs

  /** Listed as active, with a payload and a status, and not already over. */
  predicate Restorable(store: Store, id: string)
  {
    var r := Lookup(store, id);
    id in store.active && r.payload.Some? && r.status.Some? && r.status != Some(COMPLETED) && r.status != Some(DEAD)
  }

  function RestorableIds(store: Store): set<string>
  {
    set id | id in store.active && Restorable(store, id)
  }

  function OrElse(v: Option<int>, default: int): int
  {
    match v case Some(x) => x case None => default
  }

  function Max(a: int, b: int): int
  {
    if a < b then b else a
  }

  /** A restored job: payload and priority as saved, due no earlier than now, but no parents and no affinity. */
  ghost predicate RestoredFrom(store: Store, now: int, id: string, j: Job)
  {
    var r := Lookup(store, id);
    && j.id == id && r.payload == Some(j.payload)
    && j.priority == OrElse(r.priority, 1)
    && j.due == Max(now, OrElse(r.due, 0))
    && j.deps == [] && !j.affinity
  }

  ghost predicate Restoration(store: Store, now: int, back: map<string, Job>)
  {
    && back.Keys == RestorableIds(store)
    && forall id :: id in back ==> RestoredFrom(store, now, id, back[id])
  }

  ghost function Members(back: map<string, Job>): set<Job>
  {
    set id | id in back :: back[id]
  }

  ghost function DueNow(now: int, js: set<Job>): set<Job>
  {
    set j | j in js && j.due <= now
  }

  ghost function AllNew(js: set<Job>): map<Job, JobState>
  {
    map j | j in js :: NEW_JOB_STATE
  }

  /** A scheduler that holds the jobs of `back`, all new, and nothing else. */
  ghost function Restarted(store: Store, now: int, back: map<string, Job>): State
  {
    State(
      now,
      AllNew(Members(back)),
      multiset(DueNow(now, Members(back))),
      multiset(Members(back) - DueNow(now, Members(back))),
      map[], map[], {}, map[], {},
      store,
      Log(back, {}, {}, {}, {}))
  }

  /** The scheduler after recoverState. */
  ghost function Recovered(store: Store, now: int, back: map<string, Job>): State
  {
    Restarted(store.(active := back.Keys), now, back)
  }

  /**
   The restart in plain terms. Back are the active ids with a payload and a status that is neither
   COMPLETED nor DEAD; each waits for its time or for a worker, and for nothing else; the store lists
   these and no others.
   */
  lemma RestartInPlainTerms(store: Store, now: int, back: map<string, Job>)
    requires Restoration(store, now, back)
    ensures forall id :: id in back <==>
      && id in store.active && id in store.records
      && store.records[id].payload.Some? && store.records[id].status.Some?
      && store.records[id].status.value != COMPLETED && store.records[id].status.value != DEAD
    ensures forall id :: id in back ==>
      var j, r := back[id], store.records[id];
      && j.id == id && r.payload == Some(j.payload) && j.deps == [] && !j.affinity
      && (if r.priority.Some? then j.priority == r.priority.value else j.priority == 1)
      && (if r.due.Some? && r.due.value > now then j.due == r.due.value
          else if r.due.None? && 0 > now then j.due == 0
          else j.due == now)
    ensures var t := Recovered(store, now, back);
      && t.now == now && t.waiting == map[] && t.running == map[] && t.history == map[] && t.cancelled == {}
      && t.dead == {} && t.store.records == store.records && t.store.active == back.Keys
      && (forall j :: j in t.jobs <==> j.id in back && back[j.id] == j)
      && (forall j :: j in t.jobs ==> t.jobs[j] == JobState(PENDING, 0, {}, None, 0))
      && (forall j :: j in t.jobs ==> t.queue[j] == if j.due <= now then 1 else 0)
      && (forall j :: j in t.jobs ==> t.delayed[j] == if j.due <= now then 0 else 1)
  {
    forall id | id in back
      ensures RestoredFrom(store, now, id, back[id]) && Restorable(store, id)
    {
      assert id in RestorableIds(store);
    }
  }

  lemma ActiveIsRestorable(s: State, id: string)
    requires Inv(s)
    ensures id in s.store.active ==> Restorable(s.store, id) && id in s.log.owner && s.log.owner[id] in s.jobs
    ensures Restorable(s.store, id) ==> id in s.store.active
  {
    if id in s.store.active {
      assert JobOk(s, s.log.owner[id]);
    }
  }

  /**
   Crash recovery, exactly: the jobs that come back are those never reported complete, never
   cancelled and never out of retries, each with its payload and priority, due when it was due
   or at once. So no job under way is lost, unless a worker had already reported it complete.
   */
  lemma RecoveryIsExact(states: seq<State>, events: seq<Event>, i: nat, now: int, back: map<string, Job>)
    requires Run(states, events) && i < |states| && states[i].now <= now
    requires Restoration(states[i].store, now, back)
    ensures forall j {:trigger states[i].jobs[j]} :: j in states[i].jobs ==>
      (j.id in back <==> j.id !in states[i].log.completed + states[i].log.cancelled + states[i].log.exhausted)
    ensures forall j {:trigger states[i].jobs[j]} :: j in states[i].jobs && j.id in back ==>
      back[j.id].payload == j.payload && back[j.id].priority == j.priority && back[j.id].due == Max(now, j.due)
    ensures back.Keys <= states[i].log.owner.Keys
  {
    var s := states[i];
    RunKeeps(states, events, i);
    hide Run;
    forall id | id in back
      ensures id in s.log.owner
    {
      ActiveIsRestorable(s, id);
    }
    forall j | j in s.jobs
      ensures j.id in back <==> j.id !in s.log.completed + s.log.cancelled + s.log.exhausted
      ensures j.id in back ==>
        back[j.id].payload == j.payload && back[j.id].priority == j.priority && back[j.id].due == Max(now, j.due)
    {
      OwnerOf(s, j);
      ActiveIsRestorable(s, j.id);
      if j.id in back {
        assert RestoredFrom(s.store, now, j.id, back[j.id]);
      }
    }
  }

  lemma RecoveredOk(s: State, now: int, back: map<string, Job>, j: Job)
    requires Inv(s) && s.now <= now && Restoration(s.store, now, back) && j in Members(back)
    ensures JobOk(Recovered(s.store, now, back), j)
    ensures Places(Recovered(s.store, now, back), j) == 1
  {
    var id :| id in back && back[id] == j;
    assert RestoredFrom(s.store, now, id, j);
    ActiveIsRestorable(s, id);
    assert JobOk(s, s.log.owner[id]);
  }

  lemma RecoveredShape(s: State, now: int, back: map<string, Job>)
    requires Restoration(s.store, now, back)
    ensures Shape(Recovered(s.store, now, back))
  {
  }

  /** The restarted scheduler is in order, so every run theorem holds for it in turn. */
  lemma RecoveryBoots(s: State, now: int, back: map<string, Job>)
    requires Inv(s) && s.now <= now && Restoration(s.store, now, back)
    ensures Booted(Recovered(s.store, now, back))
    ensures forall j {:trigger j in Members(back)} :: j in Members(back) ==>
      Places(Recovered(s.store, now, back), j) == 1
  {
    var t := Recovered(s.store, now, back);
    RecoveredShape(s, now, back);
    forall j | j in Members(back)
      ensures JobOk(t, j) && j.deps == [] && Places(t, j) == 1
    {
      var id :| id in back && back[id] == j;
      assert RestoredFrom(s.store, now, id, j);
      hide Inv, Shape, JobOk, Places, Recovered;
      RecoveredOk(s, now, back, j);
    }
    hide JobOk, Places, Shape, Restoration;
  }

  lemma CascadeKills(s: State, parent: string, c: Job)
    requires c in s.jobs && InWaiting(s, c) && c.id in Doomed(s.waiting, parent)
    ensures c in Cascade(s, parent).jobs && Cascade(s, parent).jobs[c].status == DEAD
    ensures Cascade(s, parent).store == s.store
  {
  }

  lemma WaitingIsRestorable(s: State, c: Job)
    requires Inv(s) && c in s.jobs && InWaiting(s, c) && c.id !in s.log.completed
    ensures Restorable(s.store, c.id)
  {
    assert JobOk(s, c);
  }

  lemma WithdrawLeaves(s: State, id: string, c: Job)
    requires c in s.jobs && InWaiting(s, c) && c.id != id
    ensures var t := Withdraw(s, id);
      c in t.jobs && InWaiting(t, c) && t.waiting == s.waiting - {id} && t.log.completed == s.log.completed
  {
  }

  /**
   A cascade leaves no trace in the store: a job it killed comes back after a restart, with
   no parents to wait for.
   */
  lemma KilledChildComesBack(s: State, id: string, c: Job)
    requires Inv(s) && c in s.jobs && InWaiting(s, c) && c.id != id && c.id !in s.log.completed
    requires c.id in Doomed(s.waiting - {id}, id)
    ensures c in Cancel(s, id).jobs && Cancel(s, id).jobs[c].status == DEAD
    ensures Restorable(Cancel(s, id).store, c.id)
  {
    hide Inv, Withdraw, Doomed, Cascade, Restorable;
    WithdrawKeeps(s, id);
    WithdrawLeaves(s, id, c);
    WaitingIsRestorable(Withdraw(s, id), c);
    CascadeKills(Withdraw(s, id), id, c);
  }
}
