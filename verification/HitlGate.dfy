/**
 The gate itself: a script that polls a shared key until an operator decides, together with
 the scheduler that runs it, possibly several times.
 */
module HitlGate {
  import opened Prelude
  import opened Jobs
  import opened Graphs
  import opened SchedulerModel
  import opened Invariants
  import opened Runs
  import opened Launch
  import DagRuns

  // ----- one process -----

  /** Where a gate process is; `Registering` has seen no decision and is about to write WAITING. */
  datatype Proc = Starting | Registering | Polling(deadline: int) | Exited(code: int)

  /** The retry check: a decision already on record is honoured at once. */
  function FirstLook(heard: string): Proc
  {
    if heard == "APPROVED" then Exited(0) else if heard == "REJECTED" then Exited(1) else Registering
  }

  /** One turn of the polling loop: the clock first, then the key. */
  function Poll(deadline: int, now: int, heard: string): Proc
  {
    if now >= deadline then Exited(1)
    else if heard == "APPROVED" then Exited(0)
    else if heard == "REJECTED" then Exited(1)
    else Polling(deadline)
  }

  /** The first turn, if any, on which polling ended, decides; only a timeout is written back. */
  predicate PollOutcome(replies: seq<string>, clock: seq<int>, deadline: int, code: Option<int>, writes: seq<string>)
    requires |replies| == |clock|
  {
    match code
    case None => writes == ["WAITING"] && forall k :: 1 <= k < |replies| ==>
      Poll(deadline, clock[k], replies[k]).Polling?
    case Some(c) =>
      exists k :: 1 <= k < |replies| && Poll(deadline, clock[k], replies[k]) == Exited(c)
        && (forall m :: 1 <= m < k ==> Poll(deadline, clock[m], replies[m]).Polling?)
        && writes == (if clock[k] >= deadline then ["WAITING", "TIMEOUT"] else ["WAITING"])
  }

  /** Up to turn k the key held no decision, and no turn of the loop came too late. */
  predicate Undecided(replies: seq<string>, clock: seq<int>, deadline: int, k: nat)
    requires k <= |replies| == |clock|
  {
    && (forall m :: 0 <= m < k ==> replies[m] != "APPROVED" && replies[m] != "REJECTED")
    && (forall m :: 1 <= m < k ==> clock[m] < deadline)
  }

  /** The script as written, over what it replies from the key and from the clock, turn by turn. */
  method RunGate(replies: seq<string>, clock: seq<int>, maxWait: int) returns (code: Option<int>, writes: seq<string>)
    requires |replies| == |clock| >= 1
    ensures FirstLook(replies[0]).Exited? ==> code == Some(FirstLook(replies[0]).code) && writes == []
    ensures FirstLook(replies[0]) == Registering ==> PollOutcome(replies, clock, clock[0] + maxWait, code, writes)
    ensures replies[0] == "APPROVED" ==> code == Some(0) && writes == []
    ensures replies[0] == "REJECTED" ==> code == Some(1) && writes == []
    ensures forall k :: 1 <= k < |replies| && Undecided(replies, clock, clock[0] + maxWait, k) ==>
      && (clock[k] >= clock[0] + maxWait ==> code == Some(1) && writes == ["WAITING", "TIMEOUT"])
      && (clock[k] < clock[0] + maxWait && replies[k] == "APPROVED" ==> code == Some(0) && writes == ["WAITING"])
      && (clock[k] < clock[0] + maxWait && replies[k] == "REJECTED" ==> code == Some(1) && writes == ["WAITING"])
    ensures Undecided(replies, clock, clock[0] + maxWait, |replies|) ==> code == None && writes == ["WAITING"]
  {
    writes := [];
    var currentStatus := replies[0];
    if currentStatus == "APPROVED" {
      return Some(0), writes;
    }
    if currentStatus == "REJECTED" {
      return Some(1), writes;
    }
    writes := ["WAITING"];
    var deadline := clock[0] + maxWait;
    var i := 1;
    while i < |replies|
      invariant 1 <= i <= |replies| && writes == ["WAITING"]
      invariant forall m :: 1 <= m < i ==> Poll(deadline, clock[m], replies[m]).Polling?
      invariant Undecided(replies, clock, deadline, i)
    {
      if clock[i] >= deadline {
        return Some(1), writes + ["TIMEOUT"];
      }
      var status := replies[i];
      if status == "APPROVED" {
        return Some(0), writes;
      } else if status == "REJECTED" {
        return Some(1), writes;
      }
      i := i + 1;
    }
    code := None;
  }

  // ----- all gate processes, and the operator -----

  /** A process of the job with this id; `gate` is the name under which it asks for a decision. */
  datatype GateProc = GateProc(job: string, gate: string, at: Proc)

  /** The keys titan:hitl:status:GATE, by gate, and the processes that read and write them. */
  datatype GateWorld = GateWorld(decisions: map<string, string>, procs: map<int, GateProc>)

  datatype GateEvent =
    | Clear(gate: string)         // a DAG with this gate is about to be submitted
    | Spawn(pid: int, job: string, gate: string)
    | Advance(pid: int, now: int, maxWait: int, heard: Option<string>)  // None: the store did not answer
    | Decide(gate: string, approve: bool)

  /** What the store answers for the key of a gate. */
  function Decision(w: GateWorld, gate: string): string
  {
    if gate in w.decisions then w.decisions[gate] else "NULL"
  }

  ghost predicate GateEnabled(w: GateWorld, e: GateEvent)
  {
    match e
    case Spawn(pid, _, _) => pid !in w.procs
    case Advance(pid, _, _, heard) => pid in w.procs && (heard.Some? ==> heard.value == Decision(w, w.procs[pid].gate))
    case _ => true
  }

  /** What a process hears when the store does not answer is never a decision. */
  function Heard(heard: Option<string>): string
  {
    match heard case Some(v) => v case None => ""
  }

  function Written(w: GateWorld, gate: string, value: string): GateWorld
  {
    w.(decisions := w.decisions[gate := value])
  }

  function Moved(w: GateWorld, pid: int, at: Proc): GateWorld
    requires pid in w.procs
  {
    w.(procs := w.procs[pid := w.procs[pid].(at := at)])
  }

  ghost function GateStep(w: GateWorld, e: GateEvent): GateWorld
    requires GateEnabled(w, e)
  {
    match e
    case Clear(gate) => Written(w, gate, "CLEARED")
    case Spawn(pid, job, gate) => w.(procs := w.procs[pid := GateProc(job, gate, Starting)])
    case Decide(gate, approve) => Written(w, gate, if approve then "APPROVED" else "REJECTED")
    case Advance(pid, now, maxWait, heard) =>
      var p := w.procs[pid];
      match p.at
      case Starting => Moved(w, pid, FirstLook(Heard(heard)))
      case Registering => Moved(Written(w, p.gate, "WAITING"), pid, Polling(now + maxWait))
      case Polling(deadline) =>
        Moved(if now >= deadline then Written(w, p.gate, "TIMEOUT") else w, pid, Poll(deadline, now, Heard(heard)))
      case Exited(_) => w
  }

  /** What one turn of a gate process does, to itself and to its key; it touches nothing else. */
  lemma ProcessTurn(w: GateWorld, pid: int, now: int, maxWait: int, heard: Option<string>)
    requires GateEnabled(w, Advance(pid, now, maxWait, heard))
    ensures var v := GateStep(w, Advance(pid, now, maxWait, heard));
      var p := w.procs[pid];
      var gate := p.gate;
      && pid in v.procs && v.procs == w.procs[pid := p.(at := v.procs[pid].at)]
      && match p.at
         case Starting =>
           v.decisions == w.decisions && v.procs[pid].at ==
             if heard == Some("APPROVED") then Exited(0) else if heard == Some("REJECTED") then Exited(1)
             else Registering
         case Registering =>
           v.decisions == w.decisions[gate := "WAITING"] && v.procs[pid].at == Polling(now + maxWait)
         case Polling(deadline) =>
           && v.decisions == (if now >= deadline then w.decisions[gate := "TIMEOUT"] else w.decisions)
           && v.procs[pid].at ==
             if now >= deadline || heard == Some("REJECTED") then Exited(1)
             else if heard == Some("APPROVED") then Exited(0) else p.at
         case Exited(_) => v == w
  {
  }

  /** The operator's word, and its clearing, are what the next process to ask under this name hears. */
  lemma WordIsHeard(w: GateWorld, gate: string, approve: bool, pid: int, now: int, maxWait: int)
    requires pid in w.procs && w.procs[pid].gate == gate && w.procs[pid].at.Polling? && now < w.procs[pid].at.deadline
    ensures var v := GateStep(w, Decide(gate, approve));
      var word := if approve then "APPROVED" else "REJECTED";
      GateEnabled(v, Advance(pid, now, maxWait, Some(word))) &&
      GateStep(v, Advance(pid, now, maxWait, Some(word))).procs[pid].at == Exited(if approve then 0 else 1)
    ensures var v := GateStep(w, Clear(gate));
      GateEnabled(v, Advance(pid, now, maxWait, Some("CLEARED"))) &&
      GateStep(v, Advance(pid, now, maxWait, Some("CLEARED"))).procs[pid].at == w.procs[pid].at
  {
    assert "CLEARED"[0] != "APPROVED"[0] && "CLEARED"[0] != "REJECTED"[0];
  }

  /**
   Some process of the job has exited with code zero, leaving aside those of earlier submissions, named
   in `stale`.
   */
  ghost predicate Passed(w: GateWorld, job: string, stale: set<int>)
  {
    exists pid :: pid in w.procs && pid !in stale && w.procs[pid].job == job && w.procs[pid].at == Exited(0)
  }

  /** All processes of the job ask under this name. */
  ghost predicate Attuned(w: GateWorld, job: string, gate: string, stale: set<int>)
  {
    forall pid :: pid in w.procs && pid !in stale && w.procs[pid].job == job ==> w.procs[pid].gate == gate
  }

  ghost predicate Authorised(w: GateWorld, job: string, gate: string, stale: set<int>)
  {
    Decision(w, gate) == "APPROVED" || Passed(w, job, stale)
  }

  lemma AttunedKept(w: GateWorld, e: GateEvent, job: string, gate: string, stale: set<int>)
    requires GateEnabled(w, e) && Attuned(w, job, gate, stale)
    requires e.Spawn? && e.job == job ==> e.gate == gate
    ensures Attuned(GateStep(w, e), job, gate, stale)
  {
  }

  lemma ExitIsForGood(w: GateWorld, e: GateEvent, job: string, stale: set<int>)
    requires GateEnabled(w, e) && Passed(w, job, stale)
    ensures Passed(GateStep(w, e), job, stale)
  {
    var t := GateStep(w, e);
    var pid :| pid in w.procs && pid !in stale && w.procs[pid].job == job && w.procs[pid].at == Exited(0);
    assert pid in t.procs && t.procs[pid].job == job && t.procs[pid].at == Exited(0);
  }

  lemma NewValue(w: GateWorld, e: GateEvent, gate: string)
    requires GateEnabled(w, e) && Decision(GateStep(w, e), gate) == "APPROVED"
    ensures Decision(w, gate) == "APPROVED" || e == Decide(gate, true)
    ensures e != Clear(gate)
  {
  }

  /** Who exits with zero has heard APPROVED under the name it asks for. */
  lemma NewExit(w: GateWorld, e: GateEvent, pid: int)
    requires GateEnabled(w, e) && pid in GateStep(w, e).procs && GateStep(w, e).procs[pid].at == Exited(0)
    ensures pid in w.procs && GateStep(w, e).procs[pid].job == w.procs[pid].job
    ensures w.procs[pid].at == Exited(0) || (e.Advance? && Decision(w, w.procs[pid].gate) == "APPROVED")
  {
  }

  /**
   The only way to the value APPROVED, and for the processes that ask under this name to exit code
   zero, is the operator's approval under this name; and an exit is for good.
   */
  lemma GateKeeps(w: GateWorld, e: GateEvent, job: string, gate: string, stale: set<int>)
    requires GateEnabled(w, e) && Attuned(w, job, gate, stale)
    requires e.Spawn? && e.job == job ==> e.gate == gate
    ensures Attuned(GateStep(w, e), job, gate, stale)
    ensures Authorised(GateStep(w, e), job, gate, stale) ==> Authorised(w, job, gate, stale) || e == Decide(gate, true)
    ensures Passed(w, job, stale) ==> Passed(GateStep(w, e), job, stale)
    ensures !Passed(w, job, stale) && e == Clear(gate) ==> !Authorised(GateStep(w, e), job, gate, stale)
  {
    AttunedKept(w, e, job, gate, stale);
    hide GateStep, Decision, GateEnabled;
    var t := GateStep(w, e);
    if Passed(w, job, stale) {
      ExitIsForGood(w, e, job, stale);
    }
    if Decision(t, gate) == "APPROVED" {
      NewValue(w, e, gate);
    }
    if pid :| pid in t.procs && pid !in stale && t.procs[pid].job == job && t.procs[pid].at == Exited(0) {
      NewExit(w, e, pid);
    }
  }

  // ----- the gates under the scheduler -----

  datatype World = World(sched: State, gate: GateWorld)

  datatype JointEvent = Sched(event: Event) | Gate(gateEvent: GateEvent)

  ghost predicate IsGateJob(s: State, id: string)
  {
    id in s.log.owner && RunsGate(id, s.log.owner[id].payload)
  }

  ghost predicate Polls(s: State, id: string, gate: string)
  {
    id in s.log.owner && PolledGate(id, s.log.owner[id].payload) == Some(gate)
  }

  /** A worker reports a gate complete only after one of its processes, not a stale one, exited with code zero. */
  ghost predicate Honest(w: World, e: Event, stale: set<int>)
  {
    forall id :: Completes(w.sched, e, id) && IsGateJob(w.sched, id) ==> Passed(w.gate, id, stale)
  }

  /**
   The scheduler and the gates take turns. A process asks under the name that its job's payload
   gives it. Reports are honest, but may come late, and many times.
   */
  ghost predicate JointMoves(stale: set<int>, w: World, e: JointEvent, v: World)
  {
    match e
    case Sched(event) => Moves(w.sched, event, v.sched) && v.gate == w.gate && Honest(w, event, stale)
    case Gate(event) =>
      && GateEnabled(w.gate, event) && (event.Spawn? ==> Polls(w.sched, event.job, event.gate))
      && v.gate == GateStep(w.gate, event) && v.sched == w.sched
  }

  ghost predicate JointMovesAt(stale: set<int>, worlds: seq<World>, events: seq<JointEvent>, i: nat)
    requires |worlds| == |events| + 1 && i < |events|
  {
    JointMoves(stale, worlds[i], events[i], worlds[i + 1])
  }

  /** Any stretch of the life of a master: the scheduler has seen whatever it has seen, and the keys have any values. */
  ghost predicate JointRun(stale: set<int>, worlds: seq<World>, events: seq<JointEvent>)
  {
    && |worlds| == |events| + 1 && Inv(worlds[0].sched)
    && forall i :: 0 <= i < |events| ==> JointMovesAt(stale, worlds, events, i)
  }

  /** The jobs of s, under their ids, are those of t. */
  ghost predicate OwnersStay(s: State, t: State)
  {
    forall id :: id in s.log.owner ==> id in t.log.owner && t.log.owner[id] == s.log.owner[id]
  }

  lemma StepOwners(s: State, e: Event, t: State)
    requires Inv(s) && Moves(s, e, t)
    ensures Inv(t) && OwnersStay(s, t)
  {
    StepKeeps(s, e);
    assert Shape(s);
    hide Inv, Shape;
    if e.SubmitEvent? {
      SubmitOwners(s, e.job);
    } else {
      DagRuns.StepOwner(s, e);
    }
  }

  lemma SubmitOwners(s: State, j: Job)
    requires j.id !in s.log.owner
    ensures OwnersStay(s, Admit(s, j, NEW_JOB_STATE))
  {
  }

  lemma JointStep(stale: set<int>, w: World, e: JointEvent, v: World)
    requires Inv(w.sched) && JointMoves(stale, w, e, v)
    ensures Inv(v.sched) && OwnersStay(w.sched, v.sched)
  {
    hide Inv, Moves, Honest;
    if e.Sched? {
      StepOwners(w.sched, e.event, v.sched);
    }
  }

  lemma {:induction false} JointInv(stale: set<int>, worlds: seq<World>, events: seq<JointEvent>, k: nat, i: nat)
    requires JointRun(stale, worlds, events) && k <= i < |worlds|
    ensures Inv(worlds[i].sched) && OwnersStay(worlds[k].sched, worlds[i].sched)
  {
    hide Inv, JointMoves;
    if i > k {
      JointInv(stale, worlds, events, k, i - 1);
      assert JointMovesAt(stale, worlds, events, i - 1);
      JointStep(stale, worlds[i - 1], events[i - 1], worlds[i]);
    } else if i > 0 {
      JointInv(stale, worlds, events, i - 1, i - 1);
      assert JointMovesAt(stale, worlds, events, i - 1);
      JointStep(stale, worlds[i - 1], events[i - 1], worlds[i]);
    }
  }

  /**
   Step c clears the key of the gate before job g is submitted; and a process of an earlier g that is
   still to be reckoned with asks under the same name and has not got through.
   */
  ghost predicate ClearedAt(g: string, gate: string, stale: set<int>, worlds: seq<World>, events: seq<JointEvent>,
      c: nat)
    requires |worlds| == |events| + 1
  {
    && c < |events| && events[c] == Gate(Clear(gate)) && g !in worlds[c].sched.log.owner
    && !Passed(worlds[c].gate, g, stale) && Attuned(worlds[c].gate, g, gate, stale)
  }

  ghost predicate ApprovedBetween(gate: string, events: seq<JointEvent>, c: nat, i: nat)
    requires i <= |events|
  {
    exists k :: c < k < i && events[k] == Gate(Decide(gate, true))
  }

  /** The gate may pass, or has passed. */
  ghost predicate Opened(g: string, gate: string, stale: set<int>, w: World)
  {
    Authorised(w.gate, g, gate, stale) || g in w.sched.log.completed
  }

  /** If job g is known, its processes ask under this name. */
  ghost predicate PollsIfKnown(s: State, g: string, gate: string)
  {
    g in s.log.owner ==> Polls(s, g, gate)
  }

  lemma JointKeeps(g: string, gate: string, stale: set<int>, w: World, e: JointEvent, v: World)
    requires JointMoves(stale, w, e, v) && Attuned(w.gate, g, gate, stale) && PollsIfKnown(w.sched, g, gate)
    requires g in v.sched.log.completed ==> g in w.sched.log.owner
    ensures Attuned(v.gate, g, gate, stale)
    ensures Opened(g, gate, stale, v) ==> Opened(g, gate, stale, w) || e == Gate(Decide(gate, true))
    ensures e == Gate(Clear(gate)) && !Passed(w.gate, g, stale) && g !in w.sched.log.completed ==>
      !Opened(g, gate, stale, v)
  {
    hide Completes, RunsGate, Attuned, Authorised, Passed;
    match e {
      case Sched(event) =>
        if g in v.sched.log.completed {
          NewCompletion(w.sched, event, v.sched, g);
          hide Moves;
          if Completes(w.sched, event, g) {
            assert IsGateJob(w.sched, g);
            assert Authorised(w.gate, g, gate, stale) by { PassedIsAuthorised(w.gate, g, gate, stale); }
          }
        }
      case Gate(event) => GateKeeps(w.gate, event, g, gate, stale);
    }
  }

  lemma PassedIsAuthorised(w: GateWorld, job: string, gate: string, stale: set<int>)
    requires Passed(w, job, stale)
    ensures Authorised(w, job, gate, stale)
  {
  }

  lemma CompletedIsKnown(s: State, g: string)
    requires Inv(s) && g in s.log.completed
    ensures g in s.log.owner
  {
  }

  /** No completion is new in the step that submits the job. */
  lemma CompletedWasKnown(stale: set<int>, w: World, e: JointEvent, v: World, g: string)
    requires Inv(w.sched) && JointMoves(stale, w, e, v) && g in v.sched.log.completed
    ensures g in w.sched.log.owner
  {
    if e.Sched? {
      NewCompletion(w.sched, e.event, v.sched, g);
      InvIsConsistent(w.sched);
      if g in w.sched.log.completed {
        CompletedIsKnown(w.sched, g);
      } else {
        CompletesKnown(w.sched, e.event, g);
      }
    } else {
      CompletedIsKnown(w.sched, g);
    }
  }

  lemma CompletesKnown(s: State, e: Event, g: string)
    requires Inv(s) && Enabled(s, e) && Completes(s, e, g)
    ensures g in s.log.owner
  {
    if e.DispatchEvent? {
      assert JobOk(s, e.job);
    }
  }

  lemma EarlierPolls(s: State, t: State, g: string, gate: string)
    requires OwnersStay(s, t) && Polls(t, g, gate)
    ensures PollsIfKnown(s, g, gate)
  {
  }

  lemma {:induction false} OpenedAfterClear(g: string, gate: string, stale: set<int>,
      worlds: seq<World>, events: seq<JointEvent>, c: nat, i: nat, top: nat)
    requires JointRun(stale, worlds, events) && ClearedAt(g, gate, stale, worlds, events, c) && c < i <= top < |worlds|
    requires Polls(worlds[top].sched, g, gate)
    ensures Attuned(worlds[i].gate, g, gate, stale)
    ensures Opened(g, gate, stale, worlds[i]) ==> ApprovedBetween(gate, events, c, i)
  {
    hide Inv, JointMoves, Opened, Passed, Attuned, Polls, OwnersStay, PollsIfKnown;
    var w, e, v := worlds[i - 1], events[i - 1], worlds[i];
    assert JointMovesAt(stale, worlds, events, i - 1);
    JointInv(stale, worlds, events, 0, i - 1);
    JointInv(stale, worlds, events, i - 1, top);
    EarlierPolls(w.sched, worlds[top].sched, g, gate);
    if g in v.sched.log.completed {
      CompletedWasKnown(stale, w, e, v, g);
    }
    if i == c + 1 {
      if g in w.sched.log.completed {
        CompletedIsKnown(w.sched, g);
      }
    } else {
      OpenedAfterClear(g, gate, stale, worlds, events, c, i - 1, top);
      hide ClearedAt;
    }
    JointKeeps(g, gate, stale, w, e, v);
  }

  /** When j is handed over, everything it depends on has completed, however far up. */
  lemma AncestorCompleted(s: State, e: Event, j: Job, d: string)
    requires Inv(s) && Consistent(s) && Enabled(s, e) && HandsOver(e, j)
    requires DependsOn(DepGraph(s.log.owner), j.id, d)
    ensures d in s.log.completed
  {
    HandOverIsReady(s, e, j);
    OwnerOf(s, j);
    var g := DepGraph(s.log.owner);
    var p :| WalkBetween(g, p, j.id, d);
    FirstStep(g, p, j.id, d);
    assert p[1] in DepSet(j.deps);
    if |p| > 2 {
      var q := s.log.owner[p[1]];
      OwnerOf(s, q);
      AncestorsCompleted(s, p[1..], p[1], d);
    }
  }

  /**
   End to end: no job that depends on a gate, directly or through others, is handed to a
   worker unless the operator wrote APPROVED, under the name that the gate's processes ask for,
   after the key of that name was cleared for this submission - whatever decision was on record
   before, however often the gate is retried, times out, or has its callbacks repeated, and
   whatever other gates use the same key.
   */
  lemma NothingPassesUnapproved(g: string, gate: string, stale: set<int>,
      worlds: seq<World>, events: seq<JointEvent>, c: nat, i: nat, j: Job)
    requires JointRun(stale, worlds, events) && ClearedAt(g, gate, stale, worlds, events, c) && c < i < |events|
    requires Polls(worlds[i].sched, g, gate)
    requires events[i].Sched? && HandsOver(events[i].event, j)
    requires DependsOn(DepGraph(worlds[i].sched.log.owner), j.id, g)
    ensures ApprovedBetween(gate, events, c, i)
  {
    JointInv(stale, worlds, events, i, i);
    OpenedAfterClear(g, gate, stale, worlds, events, c, i, i);
    assert JointMovesAt(stale, worlds, events, i);
    hide Inv, Authorised, HandsOver, DependsOn, ClearedAt, Polls, Attuned, ApprovedBetween;
    AncestorCompleted(worlds[i].sched, events[i].event, j, g);
  }
}
