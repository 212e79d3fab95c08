/**
 From the text that the SDK or the dashboard sends to the worker: a DAG is refused exactly if its
 author's graph is cyclic, and nothing behind a gated job runs without approval.
 */
module Approval {
  import opened Text
  import opened Jobs
  import opened Graphs
  import opened Wire
  import opened Payloads
  import opened CycleCheck
  import opened Gates
  import opened SchedulerModel
  import opened Runs
  import opened Launch
  import opened HitlGate
  import opened GatedWire
  import opened Server

  /** The scheduler holds the jobs of the payload. */
  ghost predicate AllHeld(owner: map<string, Job>, dag: seq<Job>)
  {
    forall k :: 0 <= k < |dag| ==> dag[k].id in owner && owner[dag[k].id] == dag[k]
  }

  lemma SubmittedEdges(owner: map<string, Job>, dag: seq<Job>, c: string, d: string)
    requires AllHeld(owner, dag) && Edge(PayloadGraph(dag), c, d)
    ensures Edge(DepGraph(owner), c, d)
  {
  }

  /** A dependency between the jobs the SDK sends is one between the jobs the scheduler holds. */
  lemma DependencyArrives(jobs: seq<SdkJob>, dag: seq<Job>, owner: map<string, Job>, a: string, b: string)
    requires Named(jobs, dag) && AllHeld(owner, dag) && DependsOn(SdkGraph(jobs), a, b)
    ensures DependsOn(DepGraph(owner), Prefix(a), Prefix(b))
  {
    hide SdkGraph, PayloadGraph, DepGraph, Named, AllHeld, Prefix;
    var p :| WalkBetween(SdkGraph(jobs), p, a, b);
    var q := PrefixWalk(p);
    forall i | 0 <= i < |q| - 1
      ensures Edge(DepGraph(owner), q[i], q[i + 1])
    {
      assert Edge(SdkGraph(jobs), p[i], p[i + 1]);
      EdgeThere(jobs, dag, p[i], p[i + 1]);
      SubmittedEdges(owner, dag, q[i], q[i + 1]);
    }
    assert WalkBetween(DepGraph(owner), q, Prefix(a), Prefix(b));
  }

  lemma DependsOnGate(nodes: seq<Node>, script: string, payload64: string, c: string, x: string)
    requires FreshGates(nodes) && x in GatedIds(nodes) && IsId(nodes, c) && DependsOn(Before(nodes), c, x)
    ensures DependsOn(After(nodes, script, payload64), c, GateId(x))
  {
    var b :| WalkBetween(Before(nodes), b, c, x);
    WalkForward(nodes, script, payload64, b, c, x);
    var p :| WalkBetween(After(nodes, script, payload64), p, c, x);
    DownstreamWaitsForGate(nodes, script, payload64, p, c, x);
    GateIsNoJob(nodes, x);
    hide After, Before, FreshGates, GatedIds;
  }

  /** Once the gate of job x is held, its processes ask under the first word of its name. */
  lemma HeldGatePolls(nodes: seq<Node>, script: string, payload64: string, dag: seq<Job>, time: int, s: State,
      x: string)
    requires forall k :: 0 <= k < |nodes| ==> CleanName(nodes[k].job.id)
    requires BaseName(script) == GATE_SCRIPT && x in GatedIds(nodes)
    requires AllMade(AllIntended(Inject(nodes, script, payload64)), dag, time) && AllHeld(s.log.owner, dag)
    ensures Polls(s, Prefix(GateId(x)), FirstWord(GateId(x)))
  {
    hide CleanName, BaseName, Inject, Intended, GateJob, Prefix, GateId, FirstWord, RunsGate, PolledGate;
    var i :| 0 <= i < |nodes| && Gated(nodes[i]) && nodes[i].job.id == x;
    var g, jobs := GateJob(nodes[i], script, payload64), Inject(nodes, script, payload64);
    assert g in jobs by { GateIsSent(nodes, script, payload64, i); }
    var k :| 0 <= k < |jobs| && jobs[k] == g;
    assert Made(AllIntended(jobs)[k], dag[k], time) && AllIntended(jobs)[k] == Intended(g);
    GatePolls(nodes[i], script, payload64);
    IdOfGate(nodes[i], script, payload64);
  }

  lemma GateIsSent(nodes: seq<Node>, script: string, payload64: string, i: nat)
    requires i < |nodes| && Gated(nodes[i])
    ensures GateJob(nodes[i], script, payload64) in Inject(nodes, script, payload64)
  {
    InjectHas(nodes, GatedIds(nodes), script, payload64, i);
  }

  lemma IdOfGate(n: Node, script: string, payload64: string)
    ensures HeldGate(n, script, payload64) == Intended(GateJob(n, script, payload64))
    ensures Intended(GateJob(n, script, payload64)).id == Prefix(GateId(n.job.id))
  {
    hide Header, Content, Trim, Prefix;
  }

  /**
   For a DAG whose author put a gate behind job x: once its jobs are submitted, a job that
   depended on x in the author's graph is handed to a worker only if an operator approved under the
   name the gate asks for after the key of that name was cleared, in every run of scheduler, gate
   processes and operator.
   */
  lemma DownstreamNeedsApproval(nodes: seq<Node>, script: string, payload64: string, dag: seq<Job>, time: int,
      stale: set<int>, worlds: seq<World>, events: seq<JointEvent>, clear: nat, i: nat, j: Job, c: string, x: string)
    requires forall k :: 0 <= k < |nodes| ==> CleanName(nodes[k].job.id)
    requires FreshGates(nodes) && x in GatedIds(nodes) && IsId(nodes, c) && DependsOn(Before(nodes), c, x)
    requires BaseName(script) == GATE_SCRIPT && AllMade(AllIntended(Inject(nodes, script, payload64)), dag, time)
    requires JointRun(stale, worlds, events) && clear < i < |events|
    requires ClearedAt(Prefix(GateId(x)), FirstWord(GateId(x)), stale, worlds, events, clear)
    requires AllHeld(worlds[i].sched.log.owner, dag)
    requires events[i].Sched? && HandsOver(events[i].event, j) && j.id == Prefix(c)
    ensures ApprovedBetween(FirstWord(GateId(x)), events, clear, i)
  {
    assert |worlds| == |events| + 1;
    hide *;
    MadeIsNamed(Inject(nodes, script, payload64), dag, time);
    DependsOnGate(nodes, script, payload64, c, x);
    DependencyHeld(nodes, script, payload64, dag, worlds[i].sched.log.owner, c, x);
    HeldGatePolls(nodes, script, payload64, dag, time, worlds[i].sched, x);
    NothingPassesUnapproved(Prefix(GateId(x)), FirstWord(GateId(x)), stale, worlds, events, clear, i, j);
  }

  lemma DependencyHeld(nodes: seq<Node>, script: string, payload64: string, dag: seq<Job>, owner: map<string, Job>,
      c: string, x: string)
    requires Named(Inject(nodes, script, payload64), dag) && AllHeld(owner, dag)
    requires DependsOn(After(nodes, script, payload64), c, GateId(x))
    ensures DependsOn(DepGraph(owner), Prefix(c), Prefix(GateId(x)))
  {
    hide SdkGraph, DepGraph, Inject, Named, AllHeld, Prefix, GateId, DependsOn;
    DependencyArrives(Inject(nodes, script, payload64), dag, owner, c, GateId(x));
  }

  // ----- what the SDK sends -----

  /** The author's jobs, the gate script and the messages get through to the server. */
  predicate GetsThrough(nodes: seq<Node>, script: string, payload64: string)
  {
    && (forall k :: 0 <= k < |nodes| ==> Sendable(nodes[k].job))
    && (forall k :: 0 <= k < |nodes| && Gated(nodes[k]) ==> NoSemicolon(nodes[k].message))
    && BaseName(script) == GATE_SCRIPT && NoSemicolon(payload64)
  }

  lemma AllGetThrough(nodes: seq<Node>, script: string, payload64: string)
    requires GetsThrough(nodes, script, payload64)
    ensures var jobs := Inject(nodes, script, payload64); forall k :: 0 <= k < |jobs| ==> Sendable(jobs[k])
    ensures forall k :: 0 <= k < |nodes| ==> CleanName(nodes[k].job.id)
    ensures BaseName(script) == GATE_SCRIPT
  {
    ScriptIsFree();
    hide Sendable, NoSemicolon, Inject, BaseName;
    GatedDagIsSendable(nodes, script, payload64);
    var jobs := Inject(nodes, script, payload64);
    assert forall k :: 0 <= k < |jobs| ==> jobs[k] in jobs;
    forall k | 0 <= k < |nodes|
      ensures CleanName(nodes[k].job.id)
    {
      SendableIsClean(nodes[k].job);
    }
  }

  lemma ScriptIsFree()
    ensures NoSemicolon(GATE_SCRIPT)
  {
  }

  lemma SendableIsClean(j: SdkJob)
    requires Sendable(j)
    ensures CleanName(j.id)
  {
  }

  /** The server refuses what the SDK sent exactly if the author's graph, without the gates, has a cycle. */
  lemma SentDagDecides(nodes: seq<Node>, script: string, payload64: string, dag: seq<Job>, time: int)
    requires GetsThrough(nodes, script, payload64) && FreshGates(nodes) && NoClash(Inject(nodes, script, payload64))
    requires AllMade(ParsePayload(PrintDag(Inject(nodes, script, payload64))), dag, time)
    ensures Cyclic(PayloadGraph(dag)) <==> Cyclic(Before(nodes))
  {
    AfterIs(nodes, script, payload64);
    hide *;
    AllGetThrough(nodes, script, payload64);
    ServerDecides(Inject(nodes, script, payload64), dag, time);
    AcyclicityKept(nodes, script, payload64);
  }

  lemma AfterIs(nodes: seq<Node>, script: string, payload64: string)
    ensures After(nodes, script, payload64) == SdkGraph(Inject(nodes, script, payload64))
  {
  }

  /**
   The guarantee from the text of the request on, for the key that is really cleared, the one of the
   gate's full name: it holds for jobs without a space in their name.
   */
  lemma SentDagNeedsApproval(nodes: seq<Node>, script: string, payload64: string, dag: seq<Job>, time: int,
      stale: set<int>, worlds: seq<World>, events: seq<JointEvent>, clear: nat, i: nat, j: Job, c: string, x: string)
    requires GetsThrough(nodes, script, payload64) && ' ' !in x
    requires AllMade(ParsePayload(PrintDag(Inject(nodes, script, payload64))), dag, time)
    requires FreshGates(nodes) && x in GatedIds(nodes) && IsId(nodes, c) && DependsOn(Before(nodes), c, x)
    requires JointRun(stale, worlds, events) && clear < i < |events|
    requires ClearedAt(Prefix(GateId(x)), GateId(x), stale, worlds, events, clear)
    requires AllHeld(worlds[i].sched.log.owner, dag)
    requires events[i].Sched? && HandsOver(events[i].event, j) && j.id == Prefix(c)
    ensures ApprovedBetween(GateId(x), events, clear, i)
  {
    assert |worlds| == |events| + 1;
    GatedIsNode(nodes, x);
    hide *;
    AllGetThrough(nodes, script, payload64);
    ArrivesAsWritten(Inject(nodes, script, payload64), dag, time);
    assert CleanName(x);
    WholeName(x);
    DownstreamNeedsApproval(nodes, script, payload64, dag, time, stale, worlds, events, clear, i, j, c, x);
  }

  lemma GatedIsNode(nodes: seq<Node>, x: string)
    requires x in GatedIds(nodes)
    ensures exists k :: 0 <= k < |nodes| && nodes[k].job.id == x
  {
  }

  lemma WholeName(x: string)
    requires CleanName(x)
    ensures FirstWord(GateId(x)) == GateId(x) <==> ' ' !in x
  {
    SpaceInName(x);
    GateNameIsClean(x);
    hide GateId, FirstWord;
    FirstWordIsWhole(GateId(x));
  }

  // ----- what the dashboard sends -----

  /** The text of the dashboard's request. */
  function DashboardText(nodes: seq<Node>, payload64: string): string
  {
    Join(DashboardLines(nodes, GatedIds(nodes), payload64), " ; ")
  }

  /** The names, numbers and lines of the jobs, the gate script and the messages get through to the server. */
  predicate DashboardGetsThrough(nodes: seq<Node>, payload64: string)
  {
    && (forall k :: 0 <= k < |nodes| ==> WireSafe(nodes[k].job) && NoSemicolon(DashboardLine(nodes[k].job)))
    && (forall k :: 0 <= k < |nodes| && Gated(nodes[k]) ==> NoSemicolon(nodes[k].message))
    && NoSemicolon(payload64)
  }

  lemma ScriptIsBase()
    ensures BaseName(GATE_SCRIPT) == GATE_SCRIPT
  {
    var s := GATE_SCRIPT;
    assert '/' !in s;
    assert s[0..] == s;
  }

  lemma AsSdkIsSendable(j: SdkJob)
    requires WireSafe(j) && NoSemicolon(DashboardLine(j))
    ensures Sendable(AsSdkJob(j)) && '|' !in j.id
  {
    TakenAlike(j);
    SameLine(AsSdkJob(j));
    SameDashboardLine(j);
    hide DashboardLine, ToString, SameForm, SaysService;
  }

  lemma SameDashboardLine(j: SdkJob)
    ensures DashboardLine(AsSdkJob(j)) == DashboardLine(j)
  {
    TakenAlike(j);
    hide SaysService, BaseName, PrintInt, PrintParents, ReplaceChar, RemoveChar, IsService;
  }

  /** The dashboard's request is one the SDK could have sent, and gets through as such. */
  lemma DashboardTextIsSent(nodes: seq<Node>, payload64: string)
    requires DashboardGetsThrough(nodes, payload64)
    ensures GetsThrough(AsSdkAll(nodes), GATE_SCRIPT, payload64)
    ensures DashboardText(nodes, payload64) == PrintDag(Inject(AsSdkAll(nodes), GATE_SCRIPT, payload64))
  {
    ScriptIsBase();
    SameDag(nodes);
    hide WireSafe, NoSemicolon, DashboardLine, Sendable, AsSdkJob, BaseName, InjectSome, DashboardLines;
    forall k | 0 <= k < |nodes|
      ensures Sendable(AsSdkAll(nodes)[k].job) && PipeFree(nodes[k])
    {
      AsSdkIsSendable(nodes[k].job);
    }
    DashboardSends(nodes, GatedIds(nodes), GATE_SCRIPT, payload64);
  }

  /** The server refuses what the dashboard sent exactly if the author's graph has a cycle. */
  lemma DashboardDagDecides(nodes: seq<Node>, payload64: string, dag: seq<Job>, time: int)
    requires DashboardGetsThrough(nodes, payload64) && FreshGates(nodes)
    requires NoClash(Inject(AsSdkAll(nodes), GATE_SCRIPT, payload64))
    requires AllMade(ParsePayload(DashboardText(nodes, payload64)), dag, time)
    ensures Cyclic(PayloadGraph(dag)) <==> Cyclic(Before(nodes))
  {
    hide *;
    DashboardTextIsSent(nodes, payload64);
    SameDag(nodes);
    SentDagDecides(AsSdkAll(nodes), GATE_SCRIPT, payload64, dag, time);
  }

  /** And what it sent is under the same guarantee of approval. */
  lemma DashboardDagNeedsApproval(nodes: seq<Node>, payload64: string, dag: seq<Job>, time: int,
      stale: set<int>, worlds: seq<World>, events: seq<JointEvent>, clear: nat, i: nat, j: Job, c: string, x: string)
    requires DashboardGetsThrough(nodes, payload64) && ' ' !in x
    requires AllMade(ParsePayload(DashboardText(nodes, payload64)), dag, time)
    requires FreshGates(nodes) && x in GatedIds(nodes) && IsId(nodes, c) && DependsOn(Before(nodes), c, x)
    requires JointRun(stale, worlds, events) && clear < i < |events|
    requires ClearedAt(Prefix(GateId(x)), GateId(x), stale, worlds, events, clear)
    requires AllHeld(worlds[i].sched.log.owner, dag)
    requires events[i].Sched? && HandsOver(events[i].event, j) && j.id == Prefix(c)
    ensures ApprovedBetween(GateId(x), events, clear, i)
  {
    assert |worlds| == |events| + 1;
    hide *;
    DashboardTextIsSent(nodes, payload64);
    SameDag(nodes);
    SentDagNeedsApproval(AsSdkAll(nodes), GATE_SCRIPT, payload64, dag, time, stale, worlds, events, clear, i, j, c, x);
  }
}
