/** Human-in-the-loop gates: a rewriting of the job list, done twice, by the SDK and by the dashboard. */
module Gates {
  import opened Prelude
  import opened Text
  import opened Graphs
  import opened Wire
  import opened Payloads

  /** A job as its author writes it; a non-empty message asks for a gate behind it. */
  datatype Node = Node(job: SdkJob, message: string, maxWait: int)

  predicate Gated(n: Node)
  {
    n.message != ""
  }

  const GATE_PREFIX := "hitl-gate-"

  function GateId(id: string): string
  {
    GATE_PREFIX + id
  }

  function GatedIds(nodes: seq<Node>): set<string>
  {
    set i | 0 <= i < |nodes| && Gated(nodes[i]) :: nodes[i].job.id
  }

  function Remap(gated: set<string>, p: string): string
  {
    if p in gated then GateId(p) else p
  }

  function RemapAll(gated: set<string>, parents: seq<string>): (r: seq<string>)
    ensures |r| == |parents| && forall k :: 0 <= k < |r| ==> r[k] == Remap(gated, parents[k])
  {
    seq(|parents|, k requires 0 <= k < |parents| => Remap(gated, parents[k]))
  }

  function Rewired(n: Node, gated: set<string>): SdkJob
  {
    n.job.(parents := RemapAll(gated, n.job.parents))
  }

  function GateJob(n: Node, script: string, payload64: string): SdkJob
  {
    SdkJob(GateId(n.job.id), "RUN_PAYLOAD", script,
      GateId(n.job.id) + " " + PrintInt(n.maxWait) + " " + ReplaceChar(n.message, '|', ' '),
      payload64, 0, false, n.job.priority, 0, [n.job.id], false, "GENERAL")
  }

  function InjectSome(nodes: seq<Node>, gated: set<string>, script: string, payload64: string): seq<SdkJob>
  {
    if nodes == [] then []
    else
      var n := nodes[|nodes| - 1];
      InjectSome(nodes[..|nodes| - 1], gated, script, payload64) + [Rewired(n, gated)] +
        if Gated(n) then [GateJob(n, script, payload64)] else []
  }

  /** Every job, its parents re-wired to their gates; and each gate right behind its job. */
  function Inject(nodes: seq<Node>, script: string, payload64: string): seq<SdkJob>
  {
    InjectSome(nodes, GatedIds(nodes), script, payload64)
  }

  function Originals(nodes: seq<Node>): (r: seq<SdkJob>)
    ensures |r| == |nodes| && forall k :: 0 <= k < |r| ==> r[k] == nodes[k].job
  {
    seq(|nodes|, k requires 0 <= k < |nodes| => nodes[k].job)
  }

  predicate DistinctIds(nodes: seq<Node>)
  {
    forall i, k :: 0 <= i < k < |nodes| ==> nodes[i].job.id != nodes[k].job.id
  }

  /** No name in the DAG is the name of a gate. */
  predicate FreshGates(nodes: seq<Node>)
  {
    forall i, k :: 0 <= i < |nodes| && 0 <= k < |nodes| ==>
      nodes[k].job.id != GateId(nodes[i].job.id) && GateId(nodes[i].job.id) !in nodes[k].job.parents
  }

  // ----- what is injected, job by job -----

  ghost predicate AsksForGate(nodes: seq<Node>, id: string)
  {
    exists i :: 0 <= i < |nodes| && nodes[i].message != "" && nodes[i].job.id == id
  }

  /** j is the job of n, except that parents that asked for a gate are replaced by it. */
  ghost predicate WaitsForGates(nodes: seq<Node>, n: Node, j: SdkJob)
  {
    && j == n.job.(parents := j.parents) && |j.parents| == |n.job.parents|
    && forall m :: 0 <= m < |j.parents| ==>
      j.parents[m] ==
        if AsksForGate(nodes, n.job.parents[m]) then "hitl-gate-" + n.job.parents[m] else n.job.parents[m]
  }

  /** g runs the gate script for n: its name, the wait and the message, pipes taken out; n is its one parent. */
  ghost predicate GatesTheJob(n: Node, script: string, payload64: string, g: SdkJob)
  {
    && g.id == "hitl-gate-" + n.job.id && g.parents == [n.job.id] && g.filename == script && g.payload64 == payload64
    && g.args == "hitl-gate-" + n.job.id + " " + PrintInt(n.maxWait) + " " + ReplaceChar(n.message, '|', ' ')
    && g.jobType == "RUN_PAYLOAD" && g.requirement == "GENERAL" && g.priority == n.job.priority
    && g.delay == 0 && g.port == 0 && !g.isArchive && !g.affinity
  }

  lemma GatedIdsAre(nodes: seq<Node>, id: string)
    ensures id in GatedIds(nodes) <==> AsksForGate(nodes, id)
  {
  }

  lemma RewiredWaits(nodes: seq<Node>, n: Node)
    ensures WaitsForGates(nodes, n, Rewired(n, GatedIds(nodes)))
  {
    var j := Rewired(n, GatedIds(nodes));
    forall m | 0 <= m < |j.parents|
      ensures j.parents[m] ==
        if AsksForGate(nodes, n.job.parents[m]) then "hitl-gate-" + n.job.parents[m] else n.job.parents[m]
    {
      GatedIdsAre(nodes, n.job.parents[m]);
    }
  }

  lemma {:induction false} InjectGrows(some: seq<Node>, gated: set<string>, script: string, payload64: string, k: nat)
    requires k <= |some|
    ensures InjectSome(some[..k], gated, script, payload64) <= InjectSome(some, gated, script, payload64)
    decreases |some|
  {
    if k == |some| {
      assert some[..k] == some;
    } else {
      InjectGrows(some[..|some| - 1], gated, script, payload64, k);
      assert some[..|some| - 1][..k] == some[..k];
    }
  }

  /** Each job comes out waiting for gates instead of the parents that asked for one; and its gate right behind it. */
  lemma GateRightBehind(nodes: seq<Node>, script: string, payload64: string, k: nat) returns (at: nat)
    requires k < |nodes|
    ensures var jobs := Inject(nodes, script, payload64);
      && at < |jobs| && WaitsForGates(nodes, nodes[k], jobs[at])
      && (nodes[k].message != "" ==> at + 1 < |jobs| && GatesTheJob(nodes[k], script, payload64, jobs[at + 1]))
  {
    var gated := GatedIds(nodes);
    var before := InjectSome(nodes[..k], gated, script, payload64);
    at := |before|;
    assert nodes[..k + 1][..k] == nodes[..k];
    InjectGrows(nodes, gated, script, payload64, k + 1);
    RewiredWaits(nodes, nodes[k]);
  }

  ghost predicate ComesFrom(nodes: seq<Node>, n: Node, script: string, payload64: string, j: SdkJob)
  {
    WaitsForGates(nodes, n, j) || (n.message != "" && GatesTheJob(n, script, payload64, j))
  }

  lemma {:induction false} OneOfSome(nodes: seq<Node>, some: seq<Node>, script: string, payload64: string, j: SdkJob)
    requires j in InjectSome(some, GatedIds(nodes), script, payload64)
    ensures exists n :: n in some && ComesFrom(nodes, n, script, payload64, j)
  {
    var n, rest := some[|some| - 1], some[..|some| - 1];
    if j in InjectSome(rest, GatedIds(nodes), script, payload64) {
      OneOfSome(nodes, rest, script, payload64, j);
      var m :| m in rest && ComesFrom(nodes, m, script, payload64, j);
      assert m in some;
    } else {
      RewiredWaits(nodes, n);
      assert n in some;
    }
  }

  /** Nothing else comes out. */
  lemma NothingElse(nodes: seq<Node>, script: string, payload64: string, j: SdkJob)
    requires j in Inject(nodes, script, payload64)
    ensures exists n :: n in nodes && ComesFrom(nodes, n, script, payload64, j)
  {
    OneOfSome(nodes, nodes, script, payload64, j);
  }

  // ----- the SDK's version -----

  function GatesOf(nodes: seq<Node>, script: string, payload64: string): seq<SdkJob>
  {
    if nodes == [] then []
    else
      var n := nodes[|nodes| - 1];
      GatesOf(nodes[..|nodes| - 1], script, payload64) + if Gated(n) then [GateJob(n, script, payload64)] else []
  }

  /** The first job of this name that asks for a gate. */
  function FirstGated(nodes: seq<Node>, id: string): (n: Node)
    requires id in GatedIds(nodes)
    ensures n in nodes && Gated(n) && n.job.id == id
  {
    var last := |nodes| - 1;
    GatedGrow(nodes, last);
    assert nodes[..last + 1] == nodes;
    if id in GatedIds(nodes[..last]) then FirstGated(nodes[..last], id) else nodes[last]
  }

  /** A job and the gate the SDK puts behind it: the first one found for its name, whoever asked for it. */
  function WithGate(nodes: seq<Node>, n: Node, script: string, payload64: string): seq<SdkJob>
  {
    [Rewired(n, GatedIds(nodes))] +
      if n.job.id in GatedIds(nodes) then [GateJob(FirstGated(nodes, n.job.id), script, payload64)] else []
  }

  function SdkInjectSome(some: seq<Node>, nodes: seq<Node>, script: string, payload64: string): seq<SdkJob>
  {
    if some == [] then []
    else
      var last := |some| - 1;
      SdkInjectSome(some[..last], nodes, script, payload64) + WithGate(nodes, some[last], script, payload64)
  }

  /** What the SDK sends, for any list. */
  function SdkInject(nodes: seq<Node>, script: string, payload64: string): seq<SdkJob>
  {
    SdkInjectSome(nodes, nodes, script, payload64)
  }

  function NamesOf(gates: seq<SdkJob>): (r: seq<string>)
    ensures |r| == |gates| && forall k :: 0 <= k < |r| ==> r[k] == gates[k].id
  {
    seq(|gates|, k requires 0 <= k < |gates| => gates[k].id)
  }

  /** The gates, in order, the map from a job to its gate, and the gates whose decision is cleared. */
  method CollectGates(nodes: seq<Node>, script: string, payload64: string)
    returns (remap: map<string, string>, gates: seq<SdkJob>, cleared: seq<string>)
    ensures remap.Keys == GatedIds(nodes) && forall id :: id in remap ==> remap[id] == GateId(id)
    ensures gates == GatesOf(nodes, script, payload64) && cleared == NamesOf(gates)
  {
    remap, gates, cleared := map[], [], [];
    for i := 0 to |nodes|
      invariant remap.Keys == GatedIds(nodes[..i]) && forall id :: id in remap ==> remap[id] == GateId(id)
      invariant gates == GatesOf(nodes[..i], script, payload64) && cleared == NamesOf(gates)
    {
      GatedGrow(nodes, i);
      assert nodes[..i + 1][..i] == nodes[..i];
      if nodes[i].message != "" {
        var gate := GateJob(nodes[i], script, payload64);
        remap := remap[nodes[i].job.id := GateId(nodes[i].job.id)];
        gates := gates + [gate];
        cleared := cleared + [gate.id];
      }
    }
    assert nodes[..|nodes|] == nodes;
  }

  lemma {:induction false} GateAmong(nodes: seq<Node>, script: string, payload64: string, i: nat)
    requires i < |nodes| && Gated(nodes[i])
    ensures GateJob(nodes[i], script, payload64) in GatesOf(nodes, script, payload64)
  {
    if i < |nodes| - 1 {
      GateAmong(nodes[..|nodes| - 1], script, payload64, i);
    }
  }

  lemma {:induction false} GateSource(nodes: seq<Node>, script: string, payload64: string, g: SdkJob) returns (i: nat)
    requires g in GatesOf(nodes, script, payload64)
    ensures i < |nodes| && Gated(nodes[i]) && g == GateJob(nodes[i], script, payload64)
  {
    var n := |nodes| - 1;
    hide GateJob;
    if g in GatesOf(nodes[..n], script, payload64) {
      i := GateSource(nodes[..n], script, payload64, g);
    } else {
      i := n;
    }
  }

  lemma GatedGrow(nodes: seq<Node>, i: nat)
    requires i < |nodes|
    ensures GatedIds(nodes[..i + 1]) == GatedIds(nodes[..i]) + if Gated(nodes[i]) then {nodes[i].job.id} else {}
  {
  }

  predicate FirstWithParent(gates: seq<SdkJob>, id: string, i: nat)
  {
    i < |gates| && gates[i].parents == [id] && forall k :: 0 <= k < i ==> gates[k].parents != [id]
  }

  /** next(g for g in gates if g.parents == [id]) */
  method FindGate(gates: seq<SdkJob>, id: string) returns (i: nat)
    requires exists g :: g in gates && g.parents == [id]
    ensures FirstWithParent(gates, id, i)
  {
    i := 0;
    while gates[i].parents != [id]
      invariant i < |gates| && forall k :: 0 <= k < i ==> gates[k].parents != [id]
      invariant exists g :: g in gates[i..] && g.parents == [id]
      decreases |gates| - i
    {
      assert gates[i..] == [gates[i]] + gates[i + 1..];
      i := i + 1;
    }
  }

  /** A job and, if one was made for its name, the gate. */
  method InsertJob(nodes: seq<Node>, n: Node, remap: map<string, string>, gates: seq<SdkJob>,
    ghost script: string, ghost payload64: string) returns (inserted: seq<SdkJob>)
    requires gates == GatesOf(nodes, script, payload64)
    requires remap.Keys == GatedIds(nodes) && forall id :: id in remap ==> remap[id] == GateId(id)
    ensures inserted == WithGate(nodes, n, script, payload64)
  {
    hide GateJob, GatesOf, Gated;
    RewireIsRewired(n, remap);
    inserted := [Rewire(n, remap)];
    if n.job.id in remap {
      var first := FirstGated(nodes, n.job.id);
      var at :| 0 <= at < |nodes| && nodes[at] == first;
      GateAmong(nodes, script, payload64, at);
      GateParents(first, script, payload64);
      var i := FindGate(gates, n.job.id);
      FirstGateIs(nodes, script, payload64, n.job.id, i);
      inserted := inserted + [gates[i]];
    }
  }

  /** The gate found is the one of the first job that asked. */
  lemma {:induction false} FirstGateIs(nodes: seq<Node>, script: string, payload64: string, id: string, i: nat)
    requires FirstWithParent(GatesOf(nodes, script, payload64), id, i) && id in GatedIds(nodes)
    ensures GatesOf(nodes, script, payload64)[i] == GateJob(FirstGated(nodes, id), script, payload64)
  {
    var last := |nodes| - 1;
    var rest := nodes[..last];
    var gs, all := GatesOf(rest, script, payload64), GatesOf(nodes, script, payload64);
    GatedGrow(nodes, last);
    assert nodes[..last + 1] == nodes;
    assert forall k :: 0 <= k < |gs| ==> all[k] == gs[k];
    hide GateJob, GatesOf, Gated;
    if i < |gs| {
      GateNamesGated(rest, script, payload64, id, i);
      FirstGateIs(rest, script, payload64, id, i);
    } else if id in GatedIds(rest) {
      GatedHasGate(rest, script, payload64, id);
      assert false;
    } else {
      LastGate(nodes, script, payload64, i);
    }
  }

  lemma LastGate(nodes: seq<Node>, script: string, payload64: string, i: nat)
    requires nodes != [] && i < |GatesOf(nodes, script, payload64)|
    requires |GatesOf(nodes[..|nodes| - 1], script, payload64)| <= i
    ensures GatesOf(nodes, script, payload64)[i] == GateJob(nodes[|nodes| - 1], script, payload64)
  {
  }

  lemma GateNamesGated(nodes: seq<Node>, script: string, payload64: string, id: string, i: nat)
    requires i < |GatesOf(nodes, script, payload64)| && GatesOf(nodes, script, payload64)[i].parents == [id]
    ensures id in GatedIds(nodes)
  {
    var k := GateSource(nodes, script, payload64, GatesOf(nodes, script, payload64)[i]);
    assert GateJob(nodes[k], script, payload64).parents[0] == nodes[k].job.id;
  }

  lemma GatedHasGate(nodes: seq<Node>, script: string, payload64: string, id: string)
    requires id in GatedIds(nodes)
    ensures exists g :: g in GatesOf(nodes, script, payload64) && g.parents == [id]
  {
    var k :| 0 <= k < |nodes| && Gated(nodes[k]) && nodes[k].job.id == id;
    GateAmong(nodes, script, payload64, k);
    assert GateJob(nodes[k], script, payload64).parents == [id];
  }

  lemma GateParents(n: Node, script: string, payload64: string)
    ensures GateJob(n, script, payload64).parents == [n.job.id]
  {
  }

  /** _inject_hitl_gates, for any list of jobs; without the gate script nothing is injected. */
  method InjectHitlGates(nodes: seq<Node>, gateScript: Option<string>, payload64: string)
    returns (jobs: seq<SdkJob>, cleared: seq<string>)
    ensures gateScript.None? ==> jobs == Originals(nodes) && cleared == []
    ensures gateScript.Some? ==> jobs == SdkInject(nodes, gateScript.value, payload64)
    ensures gateScript.Some? ==> cleared == NamesOf(GatesOf(nodes, gateScript.value, payload64))
  {
    if gateScript.None? {
      return Originals(nodes), [];
    }
    var script := gateScript.value;
    var remap, gates;
    remap, gates, cleared := CollectGates(nodes, script, payload64);
    if remap == map[] {
      NothingToInject(nodes, nodes, script, payload64);
      return Originals(nodes), cleared;
    }
    jobs := [];
    for i := 0 to |nodes|
      invariant jobs == SdkInjectSome(nodes[..i], nodes, script, payload64)
    {
      var inserted := InsertJob(nodes, nodes[i], remap, gates, script, payload64);
      assert nodes[..i + 1][..i] == nodes[..i];
      jobs := jobs + inserted;
    }
    assert nodes[..|nodes|] == nodes;
  }

  lemma {:induction false} SdkInjects(some: seq<Node>, nodes: seq<Node>, script: string, payload64: string)
    requires DistinctIds(nodes) && some <= nodes
    ensures SdkInjectSome(some, nodes, script, payload64) == InjectSome(some, GatedIds(nodes), script, payload64)
  {
    if some != [] {
      var last := |some| - 1;
      SdkInjects(some[..last], nodes, script, payload64);
      assert some[last] == nodes[last];
      OwnGate(nodes, last);
      hide GateJob, Rewired;
    }
  }

  lemma OwnGate(nodes: seq<Node>, i: nat)
    requires DistinctIds(nodes) && i < |nodes|
    ensures nodes[i].job.id in GatedIds(nodes) <==> Gated(nodes[i])
    ensures Gated(nodes[i]) ==> FirstGated(nodes, nodes[i].job.id) == nodes[i]
  {
  }

  /** When no two jobs share a name, every job that asks for a gate gets its own, right behind it. */
  lemma SdkInjectIsInject(nodes: seq<Node>, script: string, payload64: string)
    requires DistinctIds(nodes)
    ensures SdkInject(nodes, script, payload64) == Inject(nodes, script, payload64)
  {
    SdkInjects(nodes, nodes, script, payload64);
  }

  function Rewire(n: Node, remap: map<string, string>): SdkJob
  {
    n.job.(parents := seq(|n.job.parents|, k requires 0 <= k < |n.job.parents| =>
      if n.job.parents[k] in remap then remap[n.job.parents[k]] else n.job.parents[k]))
  }

  lemma RewireIsRewired(n: Node, remap: map<string, string>)
    requires forall id :: id in remap ==> remap[id] == GateId(id)
    ensures Rewire(n, remap) == Rewired(n, remap.Keys)
  {
  }

  lemma {:induction false} NothingToInject(some: seq<Node>, nodes: seq<Node>, script: string, payload64: string)
    requires GatedIds(nodes) == {}
    ensures SdkInjectSome(some, nodes, script, payload64) == Originals(some)
  {
    if some != [] {
      var n := |some| - 1;
      NothingToInject(some[..n], nodes, script, payload64);
      assert Rewired(some[n], {}) == some[n].job;
      assert Originals(some) == Originals(some[..n]) + [some[n].job];
    }
  }

  // ----- the dashboard's version -----

  function LowerChar(c: char): char
  {
    if 'A' <= c <= 'Z' then c - 'A' + 'a' else c
  }

  function Lower(s: string): (r: string)
    ensures |r| == |s| && forall i :: 0 <= i < |r| ==> r[i] == LowerChar(s[i])
  {
    seq(|s|, i requires 0 <= i < |s| => LowerChar(s[i]))
  }

  /** The dashboard's test for a service; it knows no archives. */
  predicate SaysService(j: SdkJob)
  {
    Lower(j.jobType) == "service"
  }

  /** "service", each letter in either case. */
  lemma ServiceInAnyCase(j: SdkJob)
    ensures SaysService(j) <==>
      |j.jobType| == 7 && forall i :: 0 <= i < 7 ==> j.jobType[i] == "service"[i] || j.jobType[i] == "SERVICE"[i]
  {
    var low := Lower(j.jobType);
    if |j.jobType| == 7 {
      forall i | 0 <= i < 7
        ensures low[i] == "service"[i] <==> j.jobType[i] == "service"[i] || j.jobType[i] == "SERVICE"[i]
      {
        assert "service"[i] == "SERVICE"[i] - 'A' + 'a';
      }
    }
  }

  function DashboardHeader(j: SdkJob): string
  {
    if SaysService(j) then "DEPLOY_PAYLOAD" else "RUN_PAYLOAD"
  }

  function DashboardMiddle(j: SdkJob): string
  {
    if SaysService(j) then BaseName(j.filename) + "|" + j.payload64 + "|" + PrintInt(j.port)
    else BaseName(j.filename) + "|" + ReplaceChar(j.args, '|', ' ') + "|" + j.payload64
  }

  /** The line the dashboard formats for a job. */
  function DashboardLine(j: SdkJob): string
  {
    j.id + "|" + DashboardHeader(j) + "|" + (DashboardMiddle(j) + "|" + SafeReq(j)) + "|" + PrintInt(j.priority) + "|" +
      PrintInt(j.delay) + "|" + PrintParents(j.parents) + if j.affinity then "|AFFINITY" else ""
  }

  const DEFAULT_WAIT := 172800

  function GateArgs(n: Node, wait: int): string
  {
    GateId(n.job.id) + " " + PrintInt(wait) + " " + ReplaceChar(n.message, '|', ' ')
  }

  /** The line of a gate, given the arguments of its script. */
  function GateLine(n: Node, args: string, payload64: string): string
  {
    GateId(n.job.id) + "|" + "RUN_PAYLOAD" + "|" +
      ("hitl_gate.py" + "|" + args + "|" + payload64 + "|" + "GENERAL") + "|" +
      PrintInt(n.job.priority) + "|" + "0" + "|" + ("[" + n.job.id + "]")
  }

  function Wait(n: Node): int
  {
    if n.maxWait == 0 then DEFAULT_WAIT else n.maxWait
  }

  /** The line the dashboard formats for a gate; a wait of zero means the default. */
  function DashboardGateLine(n: Node, payload64: string): string
  {
    GateLine(n, GateArgs(n, Wait(n)), payload64)
  }

  /** The default is two days. */
  lemma DefaultWait(n: Node, payload64: string)
    requires n.maxWait == 0
    ensures DashboardGateLine(n, payload64) == DashboardGateLine(n.(maxWait := 172800), payload64)
    ensures DashboardGateLine(n, payload64) == GateLine(n, GateArgs(n, 2 * 24 * 3600), payload64)
  {
  }

  function DashboardLines(nodes: seq<Node>, gated: set<string>, payload64: string): seq<string>
  {
    if nodes == [] then []
    else
      var n := nodes[|nodes| - 1];
      DashboardLines(nodes[..|nodes| - 1], gated, payload64) + [DashboardLine(Rewired(n, gated))] +
        if Gated(n) then [DashboardGateLine(n, payload64)] else []
  }

  predicate HasFile(files: map<string, string>, n: Node)
  {
    BaseName(n.job.filename) in files
  }

  /** The dashboard reads each script itself, from its own directory. */
  function Load(files: map<string, string>, n: Node): Node
    requires HasFile(files, n)
  {
    n.(job := n.job.(payload64 := files[BaseName(n.job.filename)]))
  }

  function LoadAll(files: map<string, string>, nodes: seq<Node>): (r: seq<Node>)
    requires forall k :: 0 <= k < |nodes| ==> HasFile(files, nodes[k])
    ensures |r| == |nodes| && forall k :: 0 <= k < |r| ==> r[k] == Load(files, nodes[k])
  {
    seq(|nodes|, k requires 0 <= k < |nodes| => Load(files, nodes[k]))
  }

  function GateIds(nodes: seq<Node>): set<string>
  {
    set id | id in GatedIds(nodes) :: GateId(id)
  }

  /** The first pass: the map from a job to its gate, or nothing if the gate script is missing but needed. */
  method MapGates(nodes: seq<Node>, gateScript: Option<string>) returns (remap: Option<map<string, string>>)
    ensures remap.None? <==> gateScript.None? && GatedIds(nodes) != {}
    ensures remap.Some? ==> remap.value.Keys == GatedIds(nodes) && forall id :: id in remap.value ==>
      remap.value[id] == GateId(id)
  {
    var m: map<string, string> := map[];
    for i := 0 to |nodes|
      invariant m.Keys == GatedIds(nodes[..i]) && forall id :: id in m ==> m[id] == GateId(id)
      invariant gateScript.None? ==> GatedIds(nodes[..i]) == {}
    {
      GatedGrow(nodes, i);
      if nodes[i].message != "" {
        if gateScript.None? {
          assert nodes[i].job.id in GatedIds(nodes);
          return None;
        }
        m := m[nodes[i].job.id := GateId(nodes[i].job.id)];
      }
    }
    assert nodes[..|nodes|] == nodes;
    remap := Some(m);
  }

  /**
   api_dag_submit, up to the request it sends; None is an error reply. A missing script is
   noticed only after the decisions have been cleared.
   */
  method DashboardSubmit(nodes: seq<Node>, gateScript: Option<string>, files: map<string, string>)
    returns (jobStrings: Option<seq<string>>, cleared: set<string>)
    ensures var possible := nodes != [] && (gateScript.Some? || GatedIds(nodes) == {});
      cleared == (if possible then GateIds(nodes) else {}) &&
      (jobStrings.Some? <==> possible && forall k :: 0 <= k < |nodes| ==> HasFile(files, nodes[k]))
    ensures jobStrings.Some? && gateScript.Some? ==>
      jobStrings.value == DashboardLines(LoadAll(files, nodes), GatedIds(nodes), gateScript.value)
    ensures jobStrings.Some? && gateScript.None? ==>
      jobStrings.value == DashboardLines(LoadAll(files, nodes), {}, "")
  {
    if nodes == [] {
      return None, {};
    }
    var remap := MapGates(nodes, gateScript);
    if remap.None? {
      return None, {};
    }
    cleared := set id | id in remap.value :: remap.value[id];
    assert cleared == GateIds(nodes);
    hide GatedIds, GateIds, DashboardLines, HasFile;
    if gateScript.None? {
      jobStrings := JobStrings(nodes, remap.value, files, "");
    } else {
      jobStrings := JobStrings(nodes, remap.value, files, gateScript.value);
    }
  }

  /** The second pass: a line for each job and each gate, unless a script is missing. */
  method JobStrings(nodes: seq<Node>, remap: map<string, string>, files: map<string, string>, gate64: string)
    returns (jobStrings: Option<seq<string>>)
    requires forall id :: id in remap ==> remap[id] == GateId(id)
    ensures jobStrings.Some? <==> forall k :: 0 <= k < |nodes| ==> HasFile(files, nodes[k])
    ensures jobStrings.Some? ==> jobStrings.value == DashboardLines(LoadAll(files, nodes), remap.Keys, gate64)
  {
    var lines: seq<string> := [];
    for i := 0 to |nodes|
      invariant forall k :: 0 <= k < i ==> HasFile(files, nodes[k])
      invariant lines == DashboardLines(LoadAll(files, nodes[..i]), remap.Keys, gate64)
    {
      if BaseName(nodes[i].job.filename) !in files {
        assert !HasFile(files, nodes[i]);
        return None;
      }
      var more := DashboardPiece(nodes[i], remap, files, gate64);
      LoadNext(files, nodes, i, remap.Keys, gate64);
      lines := lines + more;
    }
    assert nodes[..|nodes|] == nodes;
    jobStrings := Some(lines);
  }

  method DashboardPiece(n: Node, remap: map<string, string>, files: map<string, string>, gate64: string)
    returns (lines: seq<string>)
    requires HasFile(files, n) && forall id :: id in remap ==> remap[id] == GateId(id)
    ensures lines == [DashboardLine(Rewired(Load(files, n), remap.Keys))] +
      if Gated(n) then [DashboardGateLine(Load(files, n), gate64)] else []
  {
    hide DashboardLine;
    var loaded := Load(files, n);
    RewireIsRewired(loaded, remap);
    lines := [DashboardLine(Rewire(loaded, remap))];
    if n.message != "" {
      lines := lines + [DashboardGateLine(loaded, gate64)];
    }
  }

  lemma LoadNext(files: map<string, string>, nodes: seq<Node>, i: nat, gated: set<string>, gate64: string)
    requires i < |nodes| && forall k :: 0 <= k <= i ==> HasFile(files, nodes[k])
    ensures DashboardLines(LoadAll(files, nodes[..i + 1]), gated, gate64) ==
      DashboardLines(LoadAll(files, nodes[..i]), gated, gate64) +
      ([DashboardLine(Rewired(Load(files, nodes[i]), gated))] +
        if Gated(nodes[i]) then [DashboardGateLine(Load(files, nodes[i]), gate64)] else [])
  {
    hide DashboardLine, DashboardGateLine, Rewired, BaseName;
    var all := LoadAll(files, nodes[..i + 1]);
    assert all[..|all| - 1] == LoadAll(files, nodes[..i]);
  }

  // ----- the two versions compared -----

  /** Both clear the decisions of the same gates. */
  lemma SameCleared(nodes: seq<Node>, script: string, payload64: string)
    ensures (set id | id in NamesOf(GatesOf(nodes, script, payload64))) == GateIds(nodes)
  {
    var gates := GatesOf(nodes, script, payload64);
    forall id | id in NamesOf(gates)
      ensures id in GateIds(nodes)
    {
      var m :| 0 <= m < |gates| && gates[m].id == id;
      var k := GateSource(nodes, script, payload64, gates[m]);
      assert nodes[k].job.id in GatedIds(nodes);
    }
    forall id | id in GatedIds(nodes)
      ensures GateId(id) in NamesOf(gates)
    {
      var k :| 0 <= k < |nodes| && Gated(nodes[k]) && nodes[k].job.id == id;
      GateAmong(nodes, script, payload64, k);
      var m :| 0 <= m < |gates| && gates[m] == GateJob(nodes[k], script, payload64);
      assert NamesOf(gates)[m] == GateId(id);
    }
  }

  /** Both take j for the same kind of job. */
  predicate SameForm(j: SdkJob)
  {
    !j.isArchive && (SaysService(j) <==> IsService(j))
  }

  lemma PastId(id: string, x: string, y: string)
    ensures id + "|" + x == id + "|" + y <==> x == y
  {
    var a, b := id + "|" + x, id + "|" + y;
    assert a[|id| + 1..] == x && b[|id| + 1..] == y;
  }

  lemma LineHead(id: string, header: string, content: string, priority: string, delay: string, parents: string,
      flag: string)
    ensures id + "|" + header + "|" + content + "|" + priority + "|" + delay + "|" + parents + flag
      == id + "|" + (header + ("|" + content + "|" + priority + "|" + delay + "|" + parents + flag))
  {
    var a, b, c := id + "|", header, "|" + content;
    assert a + b + "|" + content == a + (b + c);
    assert a + b + "|" + content + "|" + priority == a + (b + (c + "|" + priority));
    assert a + b + "|" + content + "|" + priority + "|" + delay == a + (b + (c + "|" + priority + "|" + delay));
  }

  lemma HeadersDiffer(id: string, x: string, y: string, restX: string, restY: string, k: nat)
    requires DifferAt(x, y, k)
    ensures id + "|" + (x + restX) != id + "|" + (y + restY)
  {
    PastId(id, x + restX, y + restY);
    assert (x + restX)[k] == x[k] && (y + restY)[k] == y[k];
  }

  predicate DifferAt(x: string, y: string, k: nat)
  {
    k < |x| && k < |y| && x[k] != y[k]
  }

  lemma OtherHeader(j: SdkJob)
    requires !SameForm(j)
    ensures exists k :: DifferAt(Header(j), DashboardHeader(j), k)
  {
    hide SaysService, IsService;
    assert DifferAt(Header(j), DashboardHeader(j), if j.isArchive && !IsService(j) && !SaysService(j) then 4 else 0);
  }

  lemma OtherLine(j: SdkJob)
    requires !SameForm(j)
    ensures DashboardLine(j) != ToString(j)
  {
    OtherHeader(j);
    hide DifferAt, Header, DashboardHeader, Content, SafeReq, DashboardMiddle, PrintInt, PrintParents, SameForm;
    var k :| DifferAt(Header(j), DashboardHeader(j), k);
    var flag := if j.affinity then "|AFFINITY" else "";
    var mine, theirs := DashboardMiddle(j) + "|" + SafeReq(j), Content(j);
    LineHead(j.id, Header(j), theirs, PrintInt(j.priority), PrintInt(j.delay), PrintParents(j.parents), flag);
    LineHead(j.id, DashboardHeader(j), mine, PrintInt(j.priority), PrintInt(j.delay), PrintParents(j.parents), flag);
    HeadersDiffer(j.id, Header(j), DashboardHeader(j),
      "|" + theirs + "|" + PrintInt(j.priority) + "|" + PrintInt(j.delay) + "|" + PrintParents(j.parents) + flag,
      "|" + mine + "|" + PrintInt(j.priority) + "|" + PrintInt(j.delay) + "|" + PrintParents(j.parents) + flag, k);
  }

  /** The dashboard and the SDK format a job the same way exactly if they take it for the same kind of job. */
  lemma SameLine(j: SdkJob)
    ensures DashboardLine(j) == ToString(j) <==> SameForm(j)
  {
    if SameForm(j) {
      assert Header(j) == DashboardHeader(j) && Middle(j) == DashboardMiddle(j);
      hide Header, DashboardHeader, Middle, DashboardMiddle, PrintInt, PrintParents, SafeReq;
    } else {
      OtherLine(j);
    }
  }

  /** The dashboard and the SDK agree on what to tell the gate. */
  predicate SameGate(n: Node)
  {
    n.maxWait != 0 && '|' !in n.job.id
  }

  lemma SdkGateLine(n: Node, script: string, payload64: string)
    requires BaseName(script) == "hitl_gate.py"
    ensures ToString(GateJob(n, script, payload64)) ==
      GateLine(n, ReplaceChar(GateArgs(n, n.maxWait), '|', ' '), payload64)
  {
    hide *;
    var g, args := GateJob(n, script, payload64), ReplaceChar(GateArgs(n, n.maxWait), '|', ' ');
    GateFields(n, script, payload64);
    PlainLine(g);
    GateLineIs(n, args, payload64);
  }

  lemma PlainLine(j: SdkJob)
    requires !j.affinity
    ensures ToString(j) ==
      j.id + "|" + Header(j) + "|" + Content(j) + "|" + PrintInt(j.priority) + "|" + PrintInt(j.delay) + "|" +
        PrintParents(j.parents)
  {
    hide Header, Content, PrintInt, PrintParents;
    var line := j.id + "|" + Header(j) + "|" + Content(j) + "|" + PrintInt(j.priority) + "|" + PrintInt(j.delay) +
      "|" + PrintParents(j.parents);
    assert line + "" == line;
  }

  lemma GateLineIs(n: Node, args: string, payload64: string)
    ensures GateLine(n, args, payload64) ==
      GateId(n.job.id) + "|" + "RUN_PAYLOAD" + "|" +
        ("hitl_gate.py" + "|" + args + "|" + payload64 + "|" + "GENERAL") + "|" +
      PrintInt(n.job.priority) + "|" + "0" + "|" + ("[" + n.job.id + "]")
  {
    hide PrintInt, GateId;
  }

  lemma PrintZero()
    ensures PrintInt(0) == "0"
  {
  }

  lemma JoinOne(a: string, sep: string)
    ensures Join([a], sep) == a
  {
  }

  lemma GeneralIsSafe()
    ensures RemoveChar("GENERAL", '|') == "GENERAL"
  {
    hide RemoveChar;
    var s := "GENERAL";
    assert forall k :: 0 <= k < |s| ==> s[k] != '|';
    RemoveAbsent(s, '|');
  }

  lemma RunsPlainly(g: SdkJob)
    requires g.jobType == "RUN_PAYLOAD" && !g.isArchive && g.requirement == "GENERAL"
    ensures !IsService(g) && Header(g) == "RUN_PAYLOAD" && SafeReq(g) == "GENERAL"
  {
    hide RemoveChar;
    assert |g.jobType| == 11 && |"SERVICE"| == 7 && |"DEPLOY_PAYLOAD"| == 14;
    GeneralIsSafe();
  }

  lemma GateFields(n: Node, script: string, payload64: string)
    requires BaseName(script) == "hitl_gate.py"
    ensures var g := GateJob(n, script, payload64); var args := ReplaceChar(GateArgs(n, n.maxWait), '|', ' ');
      g.id == GateId(n.job.id) && Header(g) == "RUN_PAYLOAD" && g.priority == n.job.priority && !g.affinity &&
      Content(g) == "hitl_gate.py" + "|" + args + "|" + payload64 + "|" + "GENERAL" &&
      PrintInt(g.delay) == "0" && PrintParents(g.parents) == "[" + n.job.id + "]"
  {
    var g := GateJob(n, script, payload64);
    assert g.args == GateArgs(n, n.maxWait);
    RunsPlainly(g);
    PrintZero();
    JoinOne(n.job.id, ",");
    hide BaseName, ReplaceChar, PrintInt, Join, IsService, Header, SafeReq, GateArgs;
  }

  lemma GateLineAround(n: Node, args: string, payload64: string)
    ensures GateLine(n, args, payload64) ==
      (GateId(n.job.id) + "|" + "RUN_PAYLOAD" + "|" + ("hitl_gate.py" + "|")) + args +
      ("|" + payload64 + "|" + "GENERAL" + "|" + PrintInt(n.job.priority) + "|" + "0" + "|" + ("[" + n.job.id + "]"))
  {
    hide PrintInt, GateId;
  }

  lemma GateLinesDiffer(n: Node, a: string, b: string, payload64: string)
    ensures GateLine(n, a, payload64) == GateLine(n, b, payload64) <==> a == b
  {
    var head := GateId(n.job.id) + "|" + "RUN_PAYLOAD" + "|" + ("hitl_gate.py" + "|");
    var tail := "|" + payload64 + "|" + "GENERAL" + "|" + PrintInt(n.job.priority) + "|" + "0" + "|" +
      ("[" + n.job.id + "]");
    GateLineAround(n, a, payload64);
    GateLineAround(n, b, payload64);
    hide GateLine;
    var x, y := head + a + tail, head + b + tail;
    assert x[|head|..|x| - |tail|] == a && y[|head|..|y| - |tail|] == b;
  }

  lemma DefaultIsLonger()
    ensures |PrintInt(DEFAULT_WAIT)| == 6 && |PrintInt(0)| == 1
  {
    assert |PrintNat(1)| == 1;
    assert |PrintNat(17)| == 2;
    assert |PrintNat(172)| == 3;
    assert |PrintNat(1728)| == 4;
    assert |PrintNat(17280)| == 5;
  }

  lemma SameArgs(n: Node)
    ensures ReplaceChar(GateArgs(n, n.maxWait), '|', ' ') == GateArgs(n, Wait(n)) <==> SameGate(n)
  {
    var a, b := ReplaceChar(GateArgs(n, n.maxWait), '|', ' '), GateArgs(n, Wait(n));
    if n.maxWait == 0 {
      DefaultIsLonger();
      assert |a| < |b|;
    } else if '|' in n.job.id {
      var k :| 0 <= k < |n.job.id| && n.job.id[k] == '|';
      assert GateId(n.job.id)[|GATE_PREFIX| + k] == '|';
      assert b[|GATE_PREFIX| + k] == '|';
    } else {
      PrintIntClean(n.maxWait);
      assert '|' !in GATE_PREFIX;
      assert '|' !in GateArgs(n, n.maxWait);
    }
  }

  /** So do they for a gate, exactly if its wait is not zero and its job's name holds no pipe. */
  lemma SameGateLine(n: Node, script: string, payload64: string)
    requires BaseName(script) == "hitl_gate.py"
    ensures ToString(GateJob(n, script, payload64)) == DashboardGateLine(n, payload64) <==> SameGate(n)
  {
    SdkGateLine(n, script, payload64);
    hide BaseName, GateLine, GateArgs, ToString, SameGate;
    GateLinesDiffer(n, ReplaceChar(GateArgs(n, n.maxWait), '|', ' '), GateArgs(n, Wait(n)), payload64);
    SameArgs(n);
  }

  predicate SameBoth(n: Node)
  {
    SameForm(n.job) && (Gated(n) ==> SameGate(n))
  }

  lemma LinesConcat(a: seq<SdkJob>, b: seq<SdkJob>)
    ensures Lines(a + b) == Lines(a) + Lines(b)
  {
    hide ToString;
  }

  lemma LinesOne(a: SdkJob)
    ensures Lines([a]) == [ToString(a)]
  {
  }

  lemma SamePair(a: string, b: string, c: string, d: string)
    ensures |[a] + [b]| == |[c] + [d]| && ([a] + [b] == [c] + [d] <==> a == c && b == d)
  {
    assert ([a] + [b])[0] == a && ([a] + [b])[1] == b && ([c] + [d])[0] == c && ([c] + [d])[1] == d;
  }

  lemma SameUngated(n: Node, gated: set<string>)
    requires !Gated(n)
    ensures var sdk, dashboard := Lines([Rewired(n, gated)]), [DashboardLine(Rewired(n, gated))];
      |sdk| == |dashboard| && (sdk == dashboard <==> SameBoth(n))
  {
    var r := Rewired(n, gated);
    assert SameForm(r) <==> SameForm(n.job);
    hide ToString, DashboardLine, Rewired, SameForm, SameGate;
    SameLine(r);
    LinesOne(r);
    hide Lines;
    assert [ToString(r)][0] == ToString(r) && [DashboardLine(r)][0] == DashboardLine(r);
  }

  lemma SameGated(n: Node, gated: set<string>, script: string, payload64: string)
    requires Gated(n) && BaseName(script) == "hitl_gate.py"
    ensures var sdk := Lines([Rewired(n, gated)] + [GateJob(n, script, payload64)]);
      var dashboard := [DashboardLine(Rewired(n, gated))] + [DashboardGateLine(n, payload64)];
      |sdk| == |dashboard| && (sdk == dashboard <==> SameBoth(n))
  {
    var r, g := Rewired(n, gated), GateJob(n, script, payload64);
    assert SameForm(r) <==> SameForm(n.job);
    SameGateLine(n, script, payload64);
    hide ToString, DashboardLine, DashboardGateLine, GateJob, Rewired, SameForm, SameGate, BaseName, Lines;
    SameLine(r);
    LinesConcat([r], [g]);
    LinesOne(r);
    LinesOne(g);
    SamePair(ToString(r), ToString(g), DashboardLine(r), DashboardGateLine(n, payload64));
  }

  /** One job and its gate: as many lines from both, and the same ones exactly if both agree on them. */
  lemma SamePiece(n: Node, gated: set<string>, script: string, payload64: string)
    requires BaseName(script) == "hitl_gate.py"
    ensures var sdk := Lines([Rewired(n, gated)] + if Gated(n) then [GateJob(n, script, payload64)] else []);
      var dashboard := [DashboardLine(Rewired(n, gated))] + if Gated(n) then [DashboardGateLine(n, payload64)] else [];
      |sdk| == |dashboard| && (sdk == dashboard <==> SameBoth(n))
  {
    hide *;
    if Gated(n) {
      SameGated(n, gated, script, payload64);
    } else {
      assert [Rewired(n, gated)] + [] == [Rewired(n, gated)];
      assert [DashboardLine(Rewired(n, gated))] + [] == [DashboardLine(Rewired(n, gated))];
      SameUngated(n, gated);
    }
  }

  lemma SameEnds(a: seq<string>, b: seq<string>, c: seq<string>, d: seq<string>)
    requires |a| == |b| && |c| == |d|
    ensures a + c == b + d <==> a == b && c == d
  {
    assert (a + c)[..|a|] == a && (b + d)[..|b|] == b && (a + c)[|a|..] == c && (b + d)[|b|..] == d;
  }

  lemma {:induction false} SameSize(nodes: seq<Node>, gated: set<string>, script: string, payload64: string)
    ensures |DashboardLines(nodes, gated, payload64)| == |InjectSome(nodes, gated, script, payload64)|
  {
    hide DashboardLine, DashboardGateLine, Rewired, GateJob;
    if nodes != [] {
      SameSize(nodes[..|nodes| - 1], gated, script, payload64);
    }
  }

  /**
   The dashboard sends what the SDK sends for the same jobs, scripts and gate script, exactly
   if no job is an archive, each says SERVICE the way both understand, and no gate has a wait
   of zero or a pipe in its name.
   */
  lemma {:induction false} SameLines(nodes: seq<Node>, gated: set<string>, script: string, payload64: string)
    requires BaseName(script) == "hitl_gate.py"
    ensures DashboardLines(nodes, gated, payload64) == Lines(InjectSome(nodes, gated, script, payload64))
      <==> forall k :: 0 <= k < |nodes| ==> SameBoth(nodes[k])
  {
    hide ToString, GateJob, Rewired, Lines, BaseName, DashboardLine, DashboardGateLine, SameBoth;
    if nodes != [] {
      var n, rest := nodes[|nodes| - 1], nodes[..|nodes| - 1];
      SameLines(rest, gated, script, payload64);
      SamePiece(n, gated, script, payload64);
      SameSize(rest, gated, script, payload64);
      var jobs, piece := InjectSome(rest, gated, script, payload64),
        [Rewired(n, gated)] + if Gated(n) then [GateJob(n, script, payload64)] else [];
      var lines, more := DashboardLines(rest, gated, payload64),
        [DashboardLine(Rewired(n, gated))] + if Gated(n) then [DashboardGateLine(n, payload64)] else [];
      assert InjectSome(nodes, gated, script, payload64) == jobs + piece;
      assert DashboardLines(nodes, gated, payload64) == lines + more;
      LinesConcat(jobs, piece);
      SameEnds(lines, Lines(jobs), more, Lines(piece));
      AllOrLast(nodes);
      hide *;
    }
  }

  lemma AllOrLast(nodes: seq<Node>)
    requires nodes != []
    ensures var rest := nodes[..|nodes| - 1];
      (forall k :: 0 <= k < |nodes| ==> SameBoth(nodes[k])) <==>
      (forall k :: 0 <= k < |rest| ==> SameBoth(rest[k])) && SameBoth(nodes[|nodes| - 1])
  {
    hide SameBoth;
    var rest := nodes[..|nodes| - 1];
    assert forall k :: 0 <= k < |rest| ==> rest[k] == nodes[k];
  }

  // ----- what the dashboard sends, as something the SDK could send -----

  /** The job the SDK would have to send to send this line. */
  function AsSdkJob(j: SdkJob): SdkJob
  {
    j.(jobType := if SaysService(j) then "SERVICE" else "RUN_PAYLOAD", isArchive := false)
  }

  function AsSdk(n: Node): Node
  {
    n.(job := AsSdkJob(n.job), maxWait := Wait(n))
  }

  function AsSdkAll(nodes: seq<Node>): (r: seq<Node>)
    ensures |r| == |nodes| && forall k :: 0 <= k < |r| ==> r[k] == AsSdk(nodes[k])
  {
    seq(|nodes|, k requires 0 <= k < |nodes| => AsSdk(nodes[k]))
  }

  lemma LoweredTypes()
    ensures Lower("SERVICE") == "service" && Lower("RUN_PAYLOAD") != "service"
  {
    assert |Lower("RUN_PAYLOAD")| == 11 && |"service"| == 7;
    var a, b := Lower("SERVICE"), "service";
    assert forall i :: 0 <= i < 7 ==> a[i] == b[i];
  }

  lemma TakenAlike(j: SdkJob)
    ensures SameForm(AsSdkJob(j)) && (SaysService(AsSdkJob(j)) <==> SaysService(j))
  {
    LoweredTypes();
    hide Lower;
    assert |"RUN_PAYLOAD"| == 11 && |"SERVICE"| == 7 && |"DEPLOY_PAYLOAD"| == 14;
  }

  lemma DashboardSeesNoChange(n: Node, gated: set<string>, payload64: string)
    ensures DashboardLine(Rewired(AsSdk(n), gated)) == DashboardLine(Rewired(n, gated))
    ensures DashboardGateLine(AsSdk(n), payload64) == DashboardGateLine(n, payload64)
    ensures SameForm(AsSdk(n).job) && Wait(n) != 0
  {
    TakenAlike(n.job);
    TakenAlike(Rewired(n, gated));
    assert SaysService(Rewired(AsSdk(n), gated)) <==> SaysService(Rewired(n, gated));
    hide SaysService, BaseName, PrintInt, PrintParents, ReplaceChar, RemoveChar, IsService;
  }

  lemma {:induction false} DashboardSeesNoChanges(nodes: seq<Node>, gated: set<string>, payload64: string)
    ensures DashboardLines(AsSdkAll(nodes), gated, payload64) == DashboardLines(nodes, gated, payload64)
  {
    hide DashboardLine, DashboardGateLine, Rewired, AsSdk;
    if nodes != [] {
      var last, all := |nodes| - 1, AsSdkAll(nodes);
      assert all[..last] == AsSdkAll(nodes[..last]);
      DashboardSeesNoChanges(nodes[..last], gated, payload64);
      DashboardSeesNoChange(nodes[last], gated, payload64);
      assert Gated(all[last]) <==> Gated(nodes[last]) by { GatedAlike(nodes[last]); }
    }
  }

  lemma GatedAlike(n: Node)
    ensures (Gated(AsSdk(n)) <==> Gated(n)) && AsSdk(n).job.id == n.job.id && AsSdk(n).job.parents == n.job.parents
  {
  }

  predicate PipeFree(n: Node)
  {
    Gated(n) ==> '|' !in n.job.id
  }

  /**
   Whatever the jobs say of themselves, the dashboard sends the lines of an injected DAG: the one of
   the same jobs as it takes them. This fails only for a gated job with a pipe in its name.
   */
  lemma DashboardSends(nodes: seq<Node>, gated: set<string>, script: string, payload64: string)
    requires BaseName(script) == "hitl_gate.py"
    ensures DashboardLines(nodes, gated, payload64) == Lines(InjectSome(AsSdkAll(nodes), gated, script, payload64))
      <==> forall k :: 0 <= k < |nodes| ==> PipeFree(nodes[k])
  {
    var all := AsSdkAll(nodes);
    SameLines(all, gated, script, payload64);
    DashboardSeesNoChanges(nodes, gated, payload64);
    forall k | 0 <= k < |nodes|
      ensures SameBoth(all[k]) <==> PipeFree(nodes[k])
    {
      DashboardSeesNoChange(nodes[k], gated, payload64);
      hide SameForm, DashboardLine, DashboardGateLine, Rewired;
    }
    hide *;
  }

  /** It is the same DAG: the same jobs depend on each other, and the same ones have gates. */
  lemma SameDag(nodes: seq<Node>)
    ensures Before(AsSdkAll(nodes)) == Before(nodes) && GatedIds(AsSdkAll(nodes)) == GatedIds(nodes)
    ensures FreshGates(nodes) <==> FreshGates(AsSdkAll(nodes))
    ensures forall id :: IsId(AsSdkAll(nodes), id) <==> IsId(nodes, id)
  {
    var all := AsSdkAll(nodes);
    forall k | 0 <= k < |nodes|
      ensures (Gated(all[k]) <==> Gated(nodes[k])) && all[k].job.id == nodes[k].job.id &&
        all[k].job.parents == nodes[k].job.parents
    {
      GatedAlike(nodes[k]);
    }
    hide AsSdk;
    SameNames(Originals(all), Originals(nodes));
    SameNodeNames(all, nodes);
  }

  lemma SameNames(a: seq<SdkJob>, b: seq<SdkJob>)
    requires |a| == |b| && forall k :: 0 <= k < |a| ==> a[k].id == b[k].id && a[k].parents == b[k].parents
    ensures SdkGraph(a) == SdkGraph(b)
  {
    forall id
      ensures id in SdkIds(a) <==> id in SdkIds(b)
    {
      if k :| 0 <= k < |a| && a[k].id == id {
        assert b[k].id == id;
      }
      if k :| 0 <= k < |b| && b[k].id == id {
        assert a[k].id == id;
      }
    }
    forall child, parent
      ensures SdkLists(a, child, parent) <==> SdkLists(b, child, parent)
    {
      if k :| 0 <= k < |a| && a[k].id == child && parent in a[k].parents {
        assert b[k].id == child;
      }
      if k :| 0 <= k < |b| && b[k].id == child && parent in b[k].parents {
        assert a[k].id == child;
      }
    }
    assert SdkIds(a) == SdkIds(b);
    var g, h := SdkGraph(a), SdkGraph(b);
    assert g.Keys == h.Keys;
    forall child | child in g
      ensures g[child] == h[child]
    {
      hide SdkIds, SdkLists;
    }
    hide *;
    assert g == h;
  }

  lemma SameNodeNames(a: seq<Node>, b: seq<Node>)
    requires |a| == |b| && forall k :: 0 <= k < |a| ==>
      (Gated(a[k]) <==> Gated(b[k])) && a[k].job.id == b[k].job.id && a[k].job.parents == b[k].job.parents
    ensures GatedIds(a) == GatedIds(b) && (FreshGates(a) <==> FreshGates(b))
    ensures forall id :: IsId(a, id) <==> IsId(b, id)
  {
    hide Gated;
    forall id
      ensures (id in GatedIds(a) <==> id in GatedIds(b)) && (IsId(a, id) <==> IsId(b, id))
    {
      if k :| 0 <= k < |a| && a[k].job.id == id && Gated(a[k]) {
        assert Gated(b[k]) && b[k].job.id == id;
      }
      if k :| 0 <= k < |b| && b[k].job.id == id && Gated(b[k]) {
        assert Gated(a[k]) && a[k].job.id == id;
      }
      if k :| 0 <= k < |a| && a[k].job.id == id {
        assert b[k].job.id == id;
      }
      if k :| 0 <= k < |b| && b[k].job.id == id {
        assert a[k].job.id == id;
      }
    }
  }

  // ----- the graph -----

  function Before(nodes: seq<Node>): Graph
  {
    SdkGraph(Originals(nodes))
  }

  function After(nodes: seq<Node>, script: string, payload64: string): Graph
  {
    SdkGraph(Inject(nodes, script, payload64))
  }

  predicate IsId(nodes: seq<Node>, id: string)
  {
    exists i :: 0 <= i < |nodes| && nodes[i].job.id == id
  }

  lemma {:induction false} InjectHas(nodes: seq<Node>, gated: set<string>, script: string, payload64: string, i: nat)
    requires i < |nodes|
    ensures Rewired(nodes[i], gated) in InjectSome(nodes, gated, script, payload64)
    ensures Gated(nodes[i]) ==> GateJob(nodes[i], script, payload64) in InjectSome(nodes, gated, script, payload64)
  {
    hide Rewired, GateJob;
    if i < |nodes| - 1 {
      InjectHas(nodes[..|nodes| - 1], gated, script, payload64, i);
    }
  }

  lemma {:induction false} InjectSource(nodes: seq<Node>, gated: set<string>, script: string, payload64: string,
      j: SdkJob)
    returns (i: nat)
    requires j in InjectSome(nodes, gated, script, payload64)
    ensures i < |nodes| && (j == Rewired(nodes[i], gated) ||
      (Gated(nodes[i]) && j == GateJob(nodes[i], script, payload64)))
  {
    hide Rewired, GateJob;
    var n := |nodes| - 1;
    if j in InjectSome(nodes[..n], gated, script, payload64) {
      i := InjectSource(nodes[..n], gated, script, payload64, j);
    } else {
      i := n;
    }
  }

  lemma EdgeIs(jobs: seq<SdkJob>, j: SdkJob, d: string)
    requires j in jobs && d in j.parents && d in SdkIds(jobs)
    ensures Edge(SdkGraph(jobs), j.id, d)
  {
  }

  lemma EdgeFrom(jobs: seq<SdkJob>, c: string, d: string) returns (j: SdkJob)
    requires Edge(SdkGraph(jobs), c, d)
    ensures j in jobs && j.id == c && d in j.parents && d in SdkIds(jobs)
  {
    var i :| 0 <= i < |jobs| && jobs[i].id == c && d in jobs[i].parents;
    j := jobs[i];
  }

  lemma IdIs(jobs: seq<SdkJob>, j: SdkJob)
    requires j in jobs
    ensures j.id in SdkIds(jobs)
  {
  }

  lemma OriginalIds(nodes: seq<Node>, d: string)
    ensures d in SdkIds(Originals(nodes)) <==> IsId(nodes, d)
  {
  }

  lemma GateNames(x: string, y: string)
    ensures GateId(x) == GateId(y) <==> x == y
  {
    assert GateId(x)[|GATE_PREFIX|..] == x && GateId(y)[|GATE_PREFIX|..] == y;
  }

  /** A direct dependency, before: afterwards it goes straight or through the gate. */
  lemma EdgeForward(nodes: seq<Node>, script: string, payload64: string, c: string, d: string)
    requires Edge(Before(nodes), c, d)
    ensures DependsOn(After(nodes, script, payload64), c, d)
    ensures d in GatedIds(nodes) ==>
      Edge(After(nodes, script, payload64), c, GateId(d)) && Edge(After(nodes, script, payload64), GateId(d), d)
  {
    var gated := GatedIds(nodes);
    var jobs := Inject(nodes, script, payload64);
    var g := After(nodes, script, payload64);
    var j := EdgeFrom(Originals(nodes), c, d);
    var i :| 0 <= i < |nodes| && nodes[i].job == j;
    var n :| 0 <= n < |j.parents| && j.parents[n] == d;
    InjectHas(nodes, gated, script, payload64, i);
    assert Rewired(nodes[i], gated).parents[n] == Remap(gated, d);
    if d in gated {
      var k :| 0 <= k < |nodes| && Gated(nodes[k]) && nodes[k].job.id == d;
      InjectHas(nodes, gated, script, payload64, k);
      IdIs(jobs, GateJob(nodes[k], script, payload64));
      IdIs(jobs, Rewired(nodes[k], gated));
      hide SdkGraph, SdkIds;
      EdgeIs(jobs, Rewired(nodes[i], gated), GateId(d));
      EdgeIs(jobs, GateJob(nodes[k], script, payload64), d);
      EdgeDepends(g, c, GateId(d));
      EdgeDepends(g, GateId(d), d);
      DependsTransitive(g, c, GateId(d), d);
    } else {
      OriginalIds(nodes, d);
      var k :| 0 <= k < |nodes| && nodes[k].job.id == d;
      InjectHas(nodes, gated, script, payload64, k);
      IdIs(jobs, Rewired(nodes[k], gated));
      hide SdkGraph, SdkIds;
      EdgeIs(jobs, Rewired(nodes[i], gated), d);
      EdgeDepends(g, c, d);
    }
  }

  /** A direct dependency, afterwards: of a gate on its job, of a job on a gate, or as before. */
  lemma EdgeBackward(nodes: seq<Node>, script: string, payload64: string, c: string, d: string)
    requires FreshGates(nodes) && Edge(After(nodes, script, payload64), c, d)
    ensures IsId(nodes, c) ==>
      (IsId(nodes, d) && d !in GatedIds(nodes) && Edge(Before(nodes), c, d)) ||
      (exists x :: x in GatedIds(nodes) && d == GateId(x) && Edge(Before(nodes), c, x))
    ensures !IsId(nodes, c) ==> d in GatedIds(nodes) && c == GateId(d)
  {
    var gated := GatedIds(nodes);
    var jobs := Inject(nodes, script, payload64);
    var j := EdgeFrom(jobs, c, d);
    var i := InjectSource(nodes, gated, script, payload64, j);
    if j == Rewired(nodes[i], gated) {
      var n :| 0 <= n < |j.parents| && j.parents[n] == d;
      var p := nodes[i].job.parents[n];
      assert nodes[i].job in Originals(nodes) by { assert Originals(nodes)[i] == nodes[i].job; }
      if p in gated {
        OriginalIds(nodes, p);
        hide SdkGraph, SdkIds;
        EdgeIs(Originals(nodes), nodes[i].job, p);
      } else {
        ParentIsOriginal(nodes, script, payload64, i, p);
        OriginalIds(nodes, p);
        hide SdkGraph, SdkIds;
        EdgeIs(Originals(nodes), nodes[i].job, p);
      }
    } else {
      assert j.parents[0] == nodes[i].job.id == d;
      assert !IsId(nodes, c);
    }
  }

  lemma ParentIsOriginal(nodes: seq<Node>, script: string, payload64: string, i: nat, p: string)
    requires FreshGates(nodes) && i < |nodes| && p in nodes[i].job.parents
    requires p in SdkIds(Inject(nodes, script, payload64))
    ensures IsId(nodes, p)
  {
    var jobs := Inject(nodes, script, payload64);
    var k :| 0 <= k < |jobs| && jobs[k].id == p;
    var m := InjectSource(nodes, GatedIds(nodes), script, payload64, jobs[k]);
  }

  /** The first original job a walk comes to, and the rest of the walk. */
  lemma NextOriginal(nodes: seq<Node>, script: string, payload64: string, p: seq<string>, a: string, b: string)
    returns (x: string, q: seq<string>)
    requires FreshGates(nodes) && IsId(nodes, a) && IsId(nodes, b)
    requires WalkBetween(After(nodes, script, payload64), p, a, b)
    ensures Edge(Before(nodes), a, x) && IsId(nodes, x) && |q| < |p|
    ensures x == b || WalkBetween(After(nodes, script, payload64), q, x, b)
  {
    var g := After(nodes, script, payload64);
    FirstStep(g, p, a, b);
    EdgeBackward(nodes, script, payload64, a, p[1]);
    hide Before, After, FreshGates, DependsOn, GatedIds;
    x, q := p[1], p[1..];
    if !(IsId(nodes, x) && x !in GatedIds(nodes) && Edge(Before(nodes), a, x)) {
      x :| x in GatedIds(nodes) && p[1] == GateId(x) && Edge(Before(nodes), a, x);
      GateIsNoJob(nodes, x);
      FirstStep(g, p[1..], p[1], b);
      EdgeBackward(nodes, script, payload64, p[1], p[2]);
      GateNames(x, p[2]);
      q := p[1..][1..];
    }
  }

  /** Every walk between original jobs shrinks to one of the original graph. */
  lemma {:induction false} WalkBackward(nodes: seq<Node>, script: string, payload64: string, p: seq<string>,
      a: string, b: string)
    requires FreshGates(nodes) && IsId(nodes, a) && IsId(nodes, b)
    requires WalkBetween(After(nodes, script, payload64), p, a, b)
    ensures DependsOn(Before(nodes), a, b)
    decreases |p|
  {
    hide Before, After, FreshGates, DependsOn, WalkBetween;
    var x, q := NextOriginal(nodes, script, payload64, p, a, b);
    EdgeDepends(Before(nodes), a, x);
    if x != b {
      WalkBackward(nodes, script, payload64, q, x, b);
      DependsTransitive(Before(nodes), a, x, b);
    }
  }

  lemma GateIsNoJob(nodes: seq<Node>, x: string)
    requires FreshGates(nodes) && x in GatedIds(nodes)
    ensures !IsId(nodes, GateId(x)) && IsId(nodes, x)
  {
  }

  lemma {:induction false} WalkForward(nodes: seq<Node>, script: string, payload64: string, p: seq<string>,
      a: string, b: string)
    requires WalkBetween(Before(nodes), p, a, b)
    ensures DependsOn(After(nodes, script, payload64), a, b)
    decreases |p|
  {
    FirstStep(Before(nodes), p, a, b);
    EdgeForward(nodes, script, payload64, a, p[1]);
    hide Before, After, DependsOn;
    if |p| > 2 {
      WalkForward(nodes, script, payload64, p[1..], p[1], b);
      DependsTransitive(After(nodes, script, payload64), a, p[1], b);
    }
  }

  /** Injection changes nothing about who depends on whom among the author's jobs. */
  lemma ReachabilityKept(nodes: seq<Node>, script: string, payload64: string, a: string, b: string)
    requires FreshGates(nodes) && IsId(nodes, a) && IsId(nodes, b)
    ensures DependsOn(Before(nodes), a, b) <==> DependsOn(After(nodes, script, payload64), a, b)
  {
    if DependsOn(Before(nodes), a, b) {
      var p :| WalkBetween(Before(nodes), p, a, b);
      WalkForward(nodes, script, payload64, p, a, b);
    }
    if DependsOn(After(nodes, script, payload64), a, b) {
      var p :| WalkBetween(After(nodes, script, payload64), p, a, b);
      WalkBackward(nodes, script, payload64, p, a, b);
    }
  }

  /** The only child of a gated job is its gate. */
  lemma OnlyChildIsGate(nodes: seq<Node>, script: string, payload64: string, c: string, x: string)
    requires FreshGates(nodes) && x in GatedIds(nodes) && Edge(After(nodes, script, payload64), c, x)
    ensures c == GateId(x)
  {
    EdgeBackward(nodes, script, payload64, c, x);
    forall y | y in GatedIds(nodes)
      ensures x != GateId(y)
    {
      GateIsNoJob(nodes, y);
      GateIsNoJob(nodes, x);
    }
  }

  /** So whoever is downstream of a gated job is downstream of its gate. */
  lemma {:induction false} DownstreamWaitsForGate(nodes: seq<Node>, script: string, payload64: string,
      p: seq<string>, c: string, x: string)
    requires FreshGates(nodes) && x in GatedIds(nodes) && WalkBetween(After(nodes, script, payload64), p, c, x)
    ensures c == GateId(x) || DependsOn(After(nodes, script, payload64), c, GateId(x))
    decreases |p|
  {
    var g := After(nodes, script, payload64);
    FirstStep(g, p, c, x);
    if |p| == 2 {
      OnlyChildIsGate(nodes, script, payload64, c, x);
    } else {
      EdgeDepends(g, c, p[1]);
      DownstreamWaitsForGate(nodes, script, payload64, p[1..], p[1], x);
      if p[1] != GateId(x) {
        DependsTransitive(g, c, p[1], GateId(x));
      }
    }
  }

  /** The gated DAG is acyclic exactly when the author's is. */
  lemma AcyclicityKept(nodes: seq<Node>, script: string, payload64: string)
    requires FreshGates(nodes)
    ensures Cyclic(Before(nodes)) <==> Cyclic(After(nodes, script, payload64))
  {
    var g := After(nodes, script, payload64);
    if Cyclic(Before(nodes)) {
      var a :| DependsOn(Before(nodes), a, a);
      var p :| WalkBetween(Before(nodes), p, a, a);
      WalkForward(nodes, script, payload64, p, a, a);
    }
    if Cyclic(g) {
      var a :| DependsOn(g, a, a);
      var p :| WalkBetween(g, p, a, a);
      FirstStep(g, p, a, a);
      EdgeBackward(nodes, script, payload64, a, p[1]);
      if IsId(nodes, a) {
        WalkBackward(nodes, script, payload64, p, a, a);
      } else {
        var x := p[1];
        GateIsNoJob(nodes, x);
        EdgeDepends(g, a, x);
        if |p| > 2 {
          assert DependsOn(g, x, a);
          DependsTransitive(g, x, a, x);
          ReachabilityKept(nodes, script, payload64, x, x);
        }
      }
    }
  }
}
