/** A whole DAG as one request: joined by the SDK, split by the server, the same graph at both ends. */
module Payloads {
  import opened Text
  import opened Wire
  import opened Graphs
  import opened Jobs
  import opened CycleCheck

  /** The lines the SDK prints, and the text it sends. */
  function Lines(jobs: seq<SdkJob>): (r: seq<string>)
    ensures |r| == |jobs|
  {
    seq(|jobs|, k requires 0 <= k < |jobs| => ToString(jobs[k]))
  }

  function PrintDag(jobs: seq<SdkJob>): string
  {
    Join(Lines(jobs), " ; ")
  }

  /** What the server makes of the pieces; blank ones and those that do not parse are skipped. */
  function ParsePieces(pieces: seq<string>): seq<ParsedJob>
  {
    if pieces == [] then []
    else
      var n := |pieces| - 1;
      ParsePieces(pieces[..n]) + ParsePiece(pieces[n])
  }

  function ParsePiece(piece: string): seq<ParsedJob>
  {
    if Trim(piece) == "" then []
    else
      match ParseDagJob(Trim(piece))
      case Some(job) => [job]
      case None => []
  }

  function ParsePayload(request: string): seq<ParsedJob>
  {
    ParsePieces(JavaSplit(request, ';'))
  }

  lemma {:induction false} PiecesConcat(a: seq<string>, b: seq<string>)
    ensures ParsePieces(a + b) == ParsePieces(a) + ParsePieces(b)
  {
    if b == [] {
      assert a + b == a;
    } else {
      var n := |b| - 1;
      hide ParsePiece;
      assert (a + b)[..|a + b| - 1] == a + b[..n];
      assert ParsePieces(a + b) == ParsePieces(a + b[..n]) + ParsePiece(b[n]);
      assert ParsePieces(b) == ParsePieces(b[..n]) + ParsePiece(b[n]);
      hide ParsePieces;
      PiecesConcat(a, b[..n]);
    }
  }

  lemma {:induction false} EmptyPiecesGo(pieces: seq<string>)
    ensures ParsePieces(DropTrailingEmpty(pieces)) == ParsePieces(pieces)
  {
    if pieces != [] && pieces[|pieces| - 1] == [] {
      EmptyPiecesGo(pieces[..|pieces| - 1]);
    }
  }

  lemma ParseIsSplit(request: string)
    ensures ParsePayload(request) == ParsePieces(Split(request, ';'))
  {
    if ';' in request {
      EmptyPiecesGo(Split(request, ';'));
    }
  }

  function ParseLines(lines: seq<string>): seq<ParsedJob>
  {
    if lines == [] then [] else ParsePiece(lines[0]) + ParseLines(lines[1..])
  }

  lemma PaddedPiece(a: string, line: string, b: string)
    requires AllBlank(a) && AllBlank(b) && Tight(line)
    ensures ParsePieces([a + line + b]) == ParsePiece(line)
  {
    TrimPad(a, line, b);
    TrimTight(line);
    var one := [a + line + b];
    assert one[..0] == [];
  }

  /** Splitting at semicolons and trimming undoes joining with " ; ". */
  lemma {:induction false} SplitPadded(lines: seq<string>, pad: string)
    requires lines != [] && (pad == "" || pad == " ")
    requires forall k :: 0 <= k < |lines| ==> Tight(lines[k]) && ';' !in lines[k]
    ensures ParsePieces(Split(pad + Join(lines, " ; "), ';')) == ParseLines(lines)
    decreases |lines|
  {
    hide Split, ParsePieces, ParsePiece, Tight;
    assert ';' !in pad && AllBlank(pad) && AllBlank(" ");
    if |lines| == 1 {
      var s := pad + lines[0] + "";
      assert s == pad + Join(lines, " ; ");
      SplitWhole(s, ';');
      PaddedPiece(pad, lines[0], "");
      assert ParseLines(lines[1..]) == [];
      assert ParseLines(lines) == ParsePiece(lines[0]) + [];
    } else {
      var first, rest := pad + lines[0] + " ", Join(lines[1..], " ; ");
      assert pad + Join(lines, " ; ") == first + ";" + (" " + rest);
      SplitStep(first, ';', " " + rest);
      SplitPadded(lines[1..], " ");
      PiecesConcat([first], Split(" " + rest, ';'));
      PaddedPiece(pad, lines[0], " ");
    }
  }

  predicate Sendable(j: SdkJob)
  {
    WireSafe(j) && ';' !in ToString(j)
  }

  function AllIntended(jobs: seq<SdkJob>): (r: seq<ParsedJob>)
    ensures |r| == |jobs|
  {
    seq(|jobs|, k requires 0 <= k < |jobs| => Intended(jobs[k]))
  }

  lemma LineParses(j: SdkJob)
    requires Sendable(j)
    ensures Tight(ToString(j)) && ParsePiece(ToString(j)) == [Intended(j)]
  {
    hide ToString, Intended, WireSafe, ParseDagJob, Trim;
    JobRoundTrip(j);
    TrimTight(ToString(j));
  }

  lemma {:induction false} LinesParse(jobs: seq<SdkJob>)
    requires forall k :: 0 <= k < |jobs| ==> Sendable(jobs[k])
    ensures ParseLines(Lines(jobs)) == AllIntended(jobs)
    ensures forall k :: 0 <= k < |jobs| ==> Tight(Lines(jobs)[k])
  {
    hide ToString, Intended, Sendable, ParsePiece, Tight;
    if jobs != [] {
      LinesParse(jobs[1..]);
      LineParses(jobs[0]);
      assert Lines(jobs) == [ToString(jobs[0])] + Lines(jobs[1..]);
      assert AllIntended(jobs) == [Intended(jobs[0])] + AllIntended(jobs[1..]);
    }
  }

  /** The server reads the jobs the SDK sent, all of them and in order. */
  lemma PayloadRoundTrip(jobs: seq<SdkJob>)
    requires forall k :: 0 <= k < |jobs| ==> Sendable(jobs[k])
    ensures ParsePayload(PrintDag(jobs)) == AllIntended(jobs)
  {
    LinesParse(jobs);
    ParseIsSplit(PrintDag(jobs));
    hide ToString, Intended, WireSafe, Split, Tight;
    if jobs == [] {
      SplitWhole("", ';');
      assert [""][..0] == [];
    } else {
      assert forall k :: 0 <= k < |jobs| ==> Sendable(jobs[k]) && ';' !in Lines(jobs)[k];
      SplitPadded(Lines(jobs), "");
      assert "" + PrintDag(jobs) == PrintDag(jobs);
    }
  }

  // ----- the graph -----

  function SdkIds(jobs: seq<SdkJob>): set<string>
  {
    set i | 0 <= i < |jobs| :: jobs[i].id
  }

  predicate SdkLists(jobs: seq<SdkJob>, child: string, parent: string)
  {
    exists i :: 0 <= i < |jobs| && jobs[i].id == child && parent in jobs[i].parents
  }

  /** The dependency graph the author of the DAG meant. */
  function SdkGraph(jobs: seq<SdkJob>): Graph
  {
    map child | child in SdkIds(jobs) :: set parent | parent in SdkIds(jobs) && SdkLists(jobs, child, parent)
  }

  /** The master's jobs for a payload, as far as names go. */
  predicate Named(jobs: seq<SdkJob>, dag: seq<Job>)
  {
    |dag| == |jobs| && forall i :: 0 <= i < |dag| ==>
      dag[i].id == Prefix(jobs[i].id) && dag[i].deps == PrefixAll(jobs[i].parents)
  }

  /** Two names the master cannot tell apart: x, and x with the prefix already on it. */
  predicate Clash(x: string, y: string)
  {
    x != y && (y == DAG_PREFIX + x || x == DAG_PREFIX + y) && !(StartsWith(x, DAG_PREFIX) && StartsWith(y, DAG_PREFIX))
  }

  lemma PrefixClash(x: string, y: string)
    ensures Prefix(x) == Prefix(y) <==> x == y || Clash(x, y)
  {
    var a, b := DAG_PREFIX + x, DAG_PREFIX + y;
    assert a[|DAG_PREFIX|..] == x && b[|DAG_PREFIX|..] == y;
  }

  predicate NoClash(jobs: seq<SdkJob>)
  {
    forall i, k :: 0 <= i < |jobs| && 0 <= k < |jobs| ==>
      !Clash(jobs[i].id, jobs[k].id) && forall p :: p in jobs[k].parents ==> !Clash(jobs[i].id, p)
  }

  lemma EdgeThere(jobs: seq<SdkJob>, dag: seq<Job>, a: string, b: string)
    requires Named(jobs, dag) && Edge(SdkGraph(jobs), a, b)
    ensures Edge(PayloadGraph(dag), Prefix(a), Prefix(b))
  {
    var i :| 0 <= i < |jobs| && jobs[i].id == a && b in jobs[i].parents;
    var k :| 0 <= k < |jobs| && jobs[k].id == b;
    var n :| 0 <= n < |jobs[i].parents| && jobs[i].parents[n] == b;
    assert dag[i].id == Prefix(a) && dag[k].id == Prefix(b) && dag[i].deps[n] == Prefix(b);
    assert Lists(dag, Prefix(a), Prefix(b));
  }

  lemma EdgeWitness(jobs: seq<SdkJob>, dag: seq<Job>, c: string, d: string) returns (i: nat, p: string)
    requires Named(jobs, dag) && Edge(PayloadGraph(dag), c, d)
    ensures i < |jobs| && Prefix(jobs[i].id) == c && p in jobs[i].parents && Prefix(p) == d
  {
    hide Prefix;
    i :| 0 <= i < |dag| && dag[i].id == c && d in dag[i].deps;
    var n :| 0 <= n < |dag[i].deps| && dag[i].deps[n] == d;
    p := jobs[i].parents[n];
  }

  lemma EdgeBack(jobs: seq<SdkJob>, dag: seq<Job>, a: string, b: string)
    requires Named(jobs, dag) && NoClash(jobs) && a in SdkIds(jobs) && b in SdkIds(jobs)
    requires Edge(PayloadGraph(dag), Prefix(a), Prefix(b))
    ensures Edge(SdkGraph(jobs), a, b)
  {
    hide Clash, Prefix, PayloadGraph;
    var i, p := EdgeWitness(jobs, dag, Prefix(a), Prefix(b));
    var x, y :| 0 <= x < |jobs| && jobs[x].id == a && 0 <= y < |jobs| && jobs[y].id == b;
    PrefixClash(jobs[i].id, a);
    PrefixClash(b, p);
    assert !Clash(jobs[i].id, jobs[x].id) && !Clash(jobs[y].id, p);
    assert SdkLists(jobs, a, b);
    hide Named, NoClash;
  }

  function PrefixWalk(p: seq<string>): (r: seq<string>)
    ensures |r| == |p| && forall k :: 0 <= k < |r| ==> r[k] == Prefix(p[k])
  {
    PrefixAll(p)
  }

  lemma CycleThere(jobs: seq<SdkJob>, dag: seq<Job>)
    requires Named(jobs, dag) && Cyclic(SdkGraph(jobs))
    ensures Cyclic(PayloadGraph(dag))
  {
    var a :| DependsOn(SdkGraph(jobs), a, a);
    var p :| WalkBetween(SdkGraph(jobs), p, a, a);
    var q := PrefixWalk(p);
    forall i | 0 <= i < |q| - 1
      ensures Edge(PayloadGraph(dag), q[i], q[i + 1])
    {
      EdgeThere(jobs, dag, p[i], p[i + 1]);
    }
    assert WalkBetween(PayloadGraph(dag), q, Prefix(a), Prefix(a));
    assert DependsOn(PayloadGraph(dag), Prefix(a), Prefix(a));
  }

  /** A submitted id behind each node of the master's graph. */
  lemma {:induction false} Unprefix(jobs: seq<SdkJob>, dag: seq<Job>, q: seq<string>) returns (p: seq<string>)
    requires Named(jobs, dag) && forall k :: 0 <= k < |q| ==> q[k] in Ids(dag)
    ensures |p| == |q| && forall k :: 0 <= k < |p| ==> p[k] in SdkIds(jobs) && Prefix(p[k]) == q[k]
  {
    hide Prefix;
    p := [];
    if q != [] {
      var n := |q| - 1;
      var rest := Unprefix(jobs, dag, q[..n]);
      var i :| 0 <= i < |dag| && dag[i].id == q[n];
      p := rest + [jobs[i].id];
    }
  }

  lemma CycleBack(jobs: seq<SdkJob>, dag: seq<Job>)
    requires Named(jobs, dag) && NoClash(jobs) && Cyclic(PayloadGraph(dag))
    ensures Cyclic(SdkGraph(jobs))
  {
    hide Prefix, NoClash;
    var g := PayloadGraph(dag);
    var c :| DependsOn(g, c, c);
    var q :| WalkBetween(g, q, c, c);
    forall k | 0 <= k < |q|
      ensures q[k] in Ids(dag)
    {
      if k < |q| - 1 {
        assert Edge(g, q[k], q[k + 1]);
      } else {
        assert Edge(g, q[k - 1], q[k - 1 + 1]);
      }
    }
    var p := Unprefix(jobs, dag, q[..|q| - 1]);
    var loop := p + [p[0]];
    forall i | 0 <= i < |loop| - 1
      ensures Edge(SdkGraph(jobs), loop[i], loop[i + 1])
    {
      assert Edge(g, q[i], q[i + 1]);
      EdgeBack(jobs, dag, loop[i], loop[i + 1]);
    }
    assert WalkBetween(SdkGraph(jobs), loop, p[0], p[0]);
    assert DependsOn(SdkGraph(jobs), p[0], p[0]);
  }

  /**
   Prefixing every name keeps the graph: between submitted ids the edges are the same, and the
   master's check rejects the payload exactly when the author's graph has a cycle.
   */
  lemma GraphSurvives(jobs: seq<SdkJob>, dag: seq<Job>)
    requires Named(jobs, dag) && NoClash(jobs)
    ensures forall a, b :: a in SdkIds(jobs) && b in SdkIds(jobs) ==>
      (Edge(SdkGraph(jobs), a, b) <==> Edge(PayloadGraph(dag), Prefix(a), Prefix(b)))
    ensures Cyclic(SdkGraph(jobs)) <==> Cyclic(PayloadGraph(dag))
  {
    hide Prefix, NoClash, SdkGraph, Cyclic;
    forall a, b | a in SdkIds(jobs) && b in SdkIds(jobs)
      ensures Edge(SdkGraph(jobs), a, b) <==> Edge(PayloadGraph(dag), Prefix(a), Prefix(b))
    {
      if Edge(SdkGraph(jobs), a, b) {
        EdgeThere(jobs, dag, a, b);
      }
      if Edge(PayloadGraph(dag), Prefix(a), Prefix(b)) {
        EdgeBack(jobs, dag, a, b);
      }
    }
    if Cyclic(SdkGraph(jobs)) {
      CycleThere(jobs, dag);
    }
    if Cyclic(PayloadGraph(dag)) {
      CycleBack(jobs, dag);
    }
  }

  /** With a clash the graph does not survive: a job below its own namesake is rejected as a cycle. */
  lemma ClashMakesCycle(jobs: seq<SdkJob>, dag: seq<Job>)
    requires |jobs| == 2 && jobs[0].id == "a" && jobs[0].parents == ["DAG-a"]
    requires jobs[1].id == "DAG-a" && jobs[1].parents == [] && Named(jobs, dag)
    ensures !Cyclic(SdkGraph(jobs)) && Cyclic(PayloadGraph(dag))
  {
    OneEdgeIsAcyclic(jobs, "a", "DAG-a");
    assert dag[0].id == "DAG-a" && dag[0].deps[0] == "DAG-a";
    hide SdkGraph, Named, Prefix;
    SelfParentIsCycle(dag, 0, "DAG-a");
  }

  lemma OneEdgeIsAcyclic(jobs: seq<SdkJob>, x: string, y: string)
    requires |jobs| == 2 && x != y && jobs[0].id == x && jobs[0].parents == [y] && jobs[1].id == y &&
      jobs[1].parents == []
    ensures !Cyclic(SdkGraph(jobs))
  {
    RankedIsAcyclic(SdkGraph(jobs), map[x := 1, y := 0]);
  }

  lemma SelfParentIsCycle(dag: seq<Job>, i: nat, id: string)
    requires i < |dag| && dag[i].id == id && id in dag[i].deps
    ensures Cyclic(PayloadGraph(dag))
  {
    assert Lists(dag, id, id);
    assert Edge(PayloadGraph(dag), id, id);
    EdgeDepends(PayloadGraph(dag), id, id);
  }
}
