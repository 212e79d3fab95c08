/** When a DAG with its gates reaches the server as the SDK meant it. */
module GatedWire {
  import opened Text
  import opened Wire
  import opened Payloads
  import opened Gates

  predicate NoSemicolon(s: string)
  {
    ';' !in s
  }

  lemma {:induction false} JoinIsFree(parts: seq<string>)
    ensures NoSemicolon(Join(parts, ",")) <==> forall k :: 0 <= k < |parts| ==> NoSemicolon(parts[k])
  {
    if |parts| > 1 {
      JoinIsFree(parts[1..]);
      assert NoSemicolon(",");
      var rest := parts[1..];
      assert forall k :: 1 <= k < |parts| ==> parts[k] == rest[k - 1];
    }
  }

  lemma ParentsAreFree(parents: seq<string>)
    ensures NoSemicolon(PrintParents(parents)) <==> forall k :: 0 <= k < |parents| ==> NoSemicolon(parents[k])
  {
    JoinIsFree(parents);
    hide Join;
  }

  /** A line is free of semicolons exactly if what it is made of is. */
  lemma LineIsFree(j: SdkJob)
    ensures NoSemicolon(ToString(j)) <==>
      NoSemicolon(j.id) && NoSemicolon(Content(j)) && forall k :: 0 <= k < |j.parents| ==> NoSemicolon(j.parents[k])
  {
    ParentsAreFree(j.parents);
    PrintIntClean(j.priority);
    PrintIntClean(j.delay);
    HeaderIsFree(j);
    assert NoSemicolon(PrintInt(j.priority)) && NoSemicolon(PrintInt(j.delay));
    hide PrintInt, PrintParents, Content, Header;
  }

  predicate FreeParts(j: SdkJob)
  {
    NoSemicolon(j.id) && NoSemicolon(Content(j)) && forall k :: 0 <= k < |j.parents| ==> NoSemicolon(j.parents[k])
  }

  lemma SendableParts(j: SdkJob)
    ensures Sendable(j) <==> WireSafe(j) && FreeParts(j)
  {
    LineIsFree(j);
    hide ToString, WireSafe, Content;
  }

  lemma HeaderIsFree(j: SdkJob)
    ensures NoSemicolon(Header(j))
  {
    hide IsService;
  }

  lemma SameContent(j: SdkJob, parents: seq<string>)
    ensures Content(j.(parents := parents)) == Content(j)
  {
    hide ReplaceChar, PrintInt, BaseName, RemoveChar;
  }

  lemma RewiredIsSendable(n: Node, gated: set<string>)
    requires Sendable(n.job)
    ensures Sendable(Rewired(n, gated))
  {
    hide Sendable, Content, CleanName, GateId, NoSemicolon;
    var r := Rewired(n, gated);
    SameContent(n.job, r.parents);
    SendableParts(n.job);
    SendableParts(r);
    forall k | 0 <= k < |r.parents|
      ensures CleanName(r.parents[k]) && NoSemicolon(r.parents[k])
    {
      GateNameIsClean(n.job.parents[k]);
    }
  }

  lemma GateNameIsClean(id: string)
    requires CleanName(id)
    ensures CleanName(GateId(id)) && (NoSemicolon(id) ==> NoSemicolon(GateId(id)))
  {
    var g := GateId(id);
    assert id != [] ==> g[|g| - 1] == id[|id| - 1];
    assert g[0] == 'h';
    forall c | c in g
      ensures c !in "|,[]"
    {
      if c !in id {
        assert c in GATE_PREFIX;
      }
    }
  }

  lemma ReplacedIsFree(s: string)
    ensures NoSemicolon(ReplaceChar(s, '|', ' ')) <==> NoSemicolon(s)
  {
    var r := ReplaceChar(s, '|', ' ');
    forall k | 0 <= k < |s|
      ensures r[k] == ';' <==> s[k] == ';'
    {
    }
  }

  lemma ArgsAreFree(n: Node)
    requires NoSemicolon(n.job.id)
    ensures NoSemicolon(GateArgs(n, n.maxWait)) <==> NoSemicolon(n.message)
  {
    ReplacedIsFree(n.message);
    PrintIntClean(n.maxWait);
    assert NoSemicolon(PrintInt(n.maxWait)) && NoSemicolon(GATE_PREFIX) && NoSemicolon(" ");
    hide ReplaceChar, PrintInt;
  }

  lemma GateContent(n: Node, script: string, payload64: string)
    ensures Content(GateJob(n, script, payload64)) ==
      BaseName(script) + "|" + ReplaceChar(GateArgs(n, n.maxWait), '|', ' ') + "|" + payload64 + "|" + "GENERAL"
  {
    var g := GateJob(n, script, payload64);
    assert g.args == GateArgs(n, n.maxWait);
    RunsPlainly(g);
    hide BaseName, ReplaceChar, IsService, SafeReq, GateArgs;
  }

  lemma ContentIsFree(n: Node, script: string, payload64: string)
    requires NoSemicolon(n.job.id) && NoSemicolon(BaseName(script)) && NoSemicolon(payload64)
    ensures NoSemicolon(Content(GateJob(n, script, payload64))) <==> NoSemicolon(n.message)
  {
    hide Content, ReplaceChar, GateArgs, BaseName, GateJob, NoSemicolon;
    var general := "GENERAL";
    GateContent(n, script, payload64);
    ArgsAreFree(n);
    ReplacedIsFree(GateArgs(n, n.maxWait));
    GeneralIsFree();
    FourParts(BaseName(script), ReplaceChar(GateArgs(n, n.maxWait), '|', ' '), payload64, general);
  }

  lemma GeneralIsFree()
    ensures NoSemicolon("GENERAL")
  {
  }

  lemma FourParts(a: string, b: string, c: string, d: string)
    ensures NoSemicolon(a + "|" + b + "|" + c + "|" + d) <==>
      NoSemicolon(a) && NoSemicolon(b) && NoSemicolon(c) && NoSemicolon(d)
  {
    assert NoSemicolon("|");
    var x := a + "|" + b;
    var y := x + "|" + c;
    assert NoSemicolon(x) <==> NoSemicolon(a) && NoSemicolon(b);
    assert NoSemicolon(y) <==> NoSemicolon(x) && NoSemicolon(c);
  }

  lemma GateShape(n: Node, script: string, payload64: string)
    ensures var g := GateJob(n, script, payload64);
      g.id == GateId(n.job.id) && g.parents == [n.job.id] && g.priority == n.job.priority && g.delay == 0
  {
  }

  /** A gate gets through exactly if the message for the operator holds no semicolon. */
  lemma GateIsSendable(n: Node, script: string, payload64: string)
    requires Sendable(n.job) && NoSemicolon(BaseName(script)) && NoSemicolon(payload64)
    ensures Sendable(GateJob(n, script, payload64)) <==> NoSemicolon(n.message)
  {
    hide Sendable, GateJob, Content, CleanName, GateId, BaseName, NoSemicolon;
    var g := GateJob(n, script, payload64);
    GateShape(n, script, payload64);
    SendableParts(n.job);
    SendableParts(g);
    GateNameIsClean(n.job.id);
    ContentIsFree(n, script, payload64);
  }

  /**
   So when the author's jobs and the gate script get through, the gated DAG does exactly if no message
   holds a semicolon.
   */
  lemma GatedDagIsSendable(nodes: seq<Node>, script: string, payload64: string)
    requires forall k :: 0 <= k < |nodes| ==> Sendable(nodes[k].job)
    requires NoSemicolon(BaseName(script)) && NoSemicolon(payload64)
    ensures (forall j :: j in Inject(nodes, script, payload64) ==> Sendable(j)) <==>
      forall k :: 0 <= k < |nodes| && Gated(nodes[k]) ==> NoSemicolon(nodes[k].message)
  {
    hide Sendable, Rewired, GateJob, InjectSome, NoSemicolon, BaseName;
    var gated, jobs := GatedIds(nodes), Inject(nodes, script, payload64);
    forall k | 0 <= k < |nodes| && Gated(nodes[k]) && !NoSemicolon(nodes[k].message)
      ensures GateJob(nodes[k], script, payload64) in jobs && !Sendable(GateJob(nodes[k], script, payload64))
    {
      InjectHas(nodes, gated, script, payload64, k);
      GateIsSendable(nodes[k], script, payload64);
    }
    forall j | j in jobs && !Sendable(j)
      ensures exists k :: 0 <= k < |nodes| && Gated(nodes[k]) && !NoSemicolon(nodes[k].message)
    {
      var k := InjectSource(nodes, gated, script, payload64, j);
      RewiredIsSendable(nodes[k], gated);
      if Gated(nodes[k]) {
        GateIsSendable(nodes[k], script, payload64);
      }
    }
  }
}
