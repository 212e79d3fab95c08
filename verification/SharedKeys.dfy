/** What goes wrong with a gate behind a job whose name holds a space: its process asks for another gate's decision. */
module SharedKeys {
  import opened Prelude
  import opened Text
  import opened Wire
  import opened Gates
  import opened SchedulerModel
  import opened Invariants
  import opened Runs
  import opened Launch
  import opened HitlGate

  /** The gate job of n is with a worker. */
  ghost predicate GateRunning(s: State, n: Node, script: string, payload64: string)
  {
    var g := HeldGate(n, script, payload64);
    Inv(s) && g.id in s.running && g.id !in s.cancelled && s.running[g.id].payload == g.payload
  }

  ghost function Started(w: GateWorld, pid: int, g: string, gate: string): GateWorld
    requires pid !in w.procs
  {
    GateStep(w, Spawn(pid, g, gate))
  }

  lemma FirstLookPasses(w: GateWorld, pid: int, g: string, gate: string, stale: set<int>)
    requires pid !in w.procs && pid !in stale && Decision(w, gate) == "APPROVED"
    ensures GateEnabled(Started(w, pid, g, gate), Advance(pid, 0, 0, Some("APPROVED")))
    ensures Passed(GateStep(Started(w, pid, g, gate), Advance(pid, 0, 0, Some("APPROVED"))), g, stale)
  {
    var u := GateStep(Started(w, pid, g, gate), Advance(pid, 0, 0, Some("APPROVED")));
    assert pid in u.procs && u.procs[pid] == GateProc(g, gate, Exited(0));
  }

  /** The report that g ended well can be taken, and completes it. */
  ghost predicate Reportable(s: State, g: string)
  {
    var e := CallbackEvent(g, true, {});
    Consistent(s) && Enabled(s, e) && FreshId(s, e) && g in Step(s, e).log.completed
  }

  lemma RunningIsReportable(s: State, g: string)
    requires Inv(s) && g in s.running && g !in s.cancelled
    ensures Reportable(s, g) && g in s.log.owner && s.log.owner[g] == s.running[g]
  {
    InvIsConsistent(s);
    RunningHasHistory(s, g);
    StepEffects(s, CallbackEvent(g, true, {}));
    hide Step;
  }

  lemma ReportIsHonest(w: World, g: string, stale: set<int>)
    requires Reportable(w.sched, g) && Passed(w.gate, g, stale)
    ensures var e := CallbackEvent(g, true, {}); JointMoves(stale, w, Sched(e), World(Step(w.sched, e), w.gate))
  {
    hide Consistent, Enabled, FreshId, Step, Passed, IsGateJob;
  }

  lemma ProcessMoves(w: World, e: GateEvent, stale: set<int>)
    requires GateEnabled(w.gate, e) && (e.Spawn? ==> Polls(w.sched, e.job, e.gate))
    ensures JointMoves(stale, w, Gate(e), World(w.sched, GateStep(w.gate, e)))
  {
    hide GateEnabled, GateStep, Polls;
  }

  /** Three moves, none of them the operator's: a process of g is started, looks, and is reported, which completes g. */
  ghost predicate OpensUndecided(w: World, pid: int, g: string, gate: string, stale: set<int>, x: World, y: World,
      z: World)
  {
    && JointMoves(stale, w, Gate(Spawn(pid, g, gate)), x)
    && JointMoves(stale, x, Gate(Advance(pid, 0, 0, Some("APPROVED"))), y)
    && JointMoves(stale, y, Sched(CallbackEvent(g, true, {})), z)
    && g in z.sched.log.completed
  }

  lemma Opening(w: World, pid: int, g: string, gate: string, stale: set<int>)
    requires Polls(w.sched, g, gate) && Reportable(w.sched, g)
    requires pid !in w.gate.procs && pid !in stale && Decision(w.gate, gate) == "APPROVED"
    ensures exists x, y, z :: OpensUndecided(w, pid, g, gate, stale, x, y, z)
  {
    FirstLookPasses(w.gate, pid, g, gate, stale);
    hide Polls, Consistent, Enabled, FreshId, Step, Passed, GateStep, Decision, JointMoves;
    var look, report := Advance(pid, 0, 0, Some("APPROVED")), CallbackEvent(g, true, {});
    var x := World(w.sched, Started(w.gate, pid, g, gate));
    var y := World(w.sched, GateStep(x.gate, look));
    var z := World(Step(w.sched, report), y.gate);
    ProcessMoves(w, Spawn(pid, g, gate), stale);
    ProcessMoves(x, look, stale);
    ReportIsHonest(y, g, stale);
    assert OpensUndecided(w, pid, g, gate, stale, x, y, z);
  }

  /**
   If the name of a gated job holds a space, clearing the key of its gate leaves the key its process
   asks for as it was; and an approval found there, whoever gave it and for whatever gate, opens the
   gate without any decision.
   */
  lemma SpaceOpensGate(n: Node, script: string, payload64: string, w: World, pid: int, stale: set<int>)
    requires CleanName(n.job.id) && ' ' in n.job.id && BaseName(script) == GATE_SCRIPT
    requires GateRunning(w.sched, n, script, payload64) && pid !in w.gate.procs && pid !in stale
    requires Decision(w.gate, FirstWord(GateId(n.job.id))) == "APPROVED"
    ensures Decision(GateStep(w.gate, Clear(GateId(n.job.id))), FirstWord(GateId(n.job.id))) == "APPROVED"
    ensures var g, gate := Prefix(GateId(n.job.id)), FirstWord(GateId(n.job.id));
      exists x, y, z :: OpensUndecided(w, pid, g, gate, stale, x, y, z)
  {
    GatePolls(n, script, payload64);
    ClearsOther(w.gate, GateId(n.job.id), FirstWord(GateId(n.job.id)));
    GateIsPolled(n, script, payload64, w.sched);
    hide *;
    Opening(w, pid, Prefix(GateId(n.job.id)), FirstWord(GateId(n.job.id)), stale);
  }

  lemma ClearsOther(w: GateWorld, cleared: string, gate: string)
    requires cleared != gate
    ensures Decision(GateStep(w, Clear(cleared)), gate) == Decision(w, gate)
  {
  }

  lemma GateIsPolled(n: Node, script: string, payload64: string, s: State)
    requires CleanName(n.job.id) && BaseName(script) == GATE_SCRIPT && GateRunning(s, n, script, payload64)
    ensures Polls(s, Prefix(GateId(n.job.id)), FirstWord(GateId(n.job.id))) && Reportable(s, Prefix(GateId(n.job.id)))
    ensures Inv(s)
  {
    GatePolls(n, script, payload64);
    HeldPayload(n, script, payload64);
    hide FirstWord, GateId, Prefix, CleanName, BaseName, HeldGate, PolledGate, RunsGate, Inv, Reportable;
    RunningIsReportable(s, Prefix(GateId(n.job.id)));
  }

  /** Jobs "a" and "a b" can be in one DAG, and then their gates share a key. */
  lemma TwoGatesOneKey(n: Node, m: Node, script: string, payload64: string)
    requires n.job.id == "a b" && m.job.id == "a" && BaseName(script) == GATE_SCRIPT
    ensures CleanName(n.job.id) && CleanName(m.job.id) && GateId(n.job.id) != GateId(m.job.id)
    ensures var g, h := HeldGate(n, script, payload64), HeldGate(m, script, payload64);
      PolledGate(g.id, g.payload) == PolledGate(h.id, h.payload) == Some(GateId("a"))
  {
    BothNames();
    hide CleanName, HeldGate, PolledGate, RunsGate, FirstWord, GateId, BaseName;
    GatePolls(n, script, payload64);
    GatePolls(m, script, payload64);
    GateNames("a b", "a");
    FirstWordOfBoth();
  }

  lemma BothNames()
    ensures CleanName("a b") && CleanName("a") && ' ' in "a b" && ' ' !in "a"
  {
    var x, y := "a b", "a";
    assert CleanName(x) && CleanName(y) && x[1] == ' ';
  }

  lemma FirstWordOfBoth()
    ensures FirstWord(GateId("a b")) == GateId("a")
  {
    var a, b := GateId("a"), "b";
    assert GateId("a b") == a + " " + b;
    assert ' ' !in a;
    SpaceCut(a, b);
    TrimTight(a);
    hide Trim;
  }
}
