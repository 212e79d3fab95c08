/**
 Dependency graphs over job names, and the two facts every termination or
 deadlock argument about them needs: a ranking rules cycles out, and a finite
 non-empty set in which every member depends on another member contains one.
 */
module Graphs {

  // Each node is mapped to the nodes it depends on.
  type Graph = map<string, set<string>>

  predicate Edge(g: Graph, a: string, b: string)
  {
    a in g && b in g[a]
  }

  /** A walk along dependency edges, from a node towards its ancestors. */
  ghost predicate IsWalk(g: Graph, p: seq<string>)
  {
    forall i :: 0 <= i < |p| - 1 ==> Edge(g, p[i], p[i + 1])
  }

  ghost predicate WalkBetween(g: Graph, p: seq<string>, a: string, b: string)
  {
    |p| >= 2 && IsWalk(g, p) && p[0] == a && p[|p| - 1] == b
  }

  /** a transitively depends on b. */
  ghost predicate DependsOn(g: Graph, a: string, b: string)
  {
    exists p :: WalkBetween(g, p, a, b)
  }

  ghost predicate Cyclic(g: Graph)
  {
    exists a :: DependsOn(g, a, a)
  }

  /** `rank` falls strictly along every edge. */
  ghost predicate Ranked(g: Graph, rank: map<string, int>)
  {
    forall a, b :: Edge(g, a, b) ==> a in rank && b in rank && rank[b] < rank[a]
  }

  ghost predicate HasParentIn(g: Graph, stuck: set<string>, a: string)
  {
    exists b :: b in stuck && Edge(g, a, b)
  }

  /** Every member of `stuck` depends directly on a member of `stuck`. */
  ghost predicate AllStuck(g: Graph, stuck: set<string>)
  {
    forall a {:trigger HasParentIn(g, stuck, a)} :: a in stuck ==> HasParentIn(g, stuck, a)
  }

  /** Nothing in `closed` depends on anything outside it. */
  ghost predicate DependencyClosed(g: Graph, closed: set<string>)
  {
    forall a, b :: a in closed && Edge(g, a, b) ==> b in closed
  }

  ghost predicate Subgraph(small: Graph, big: Graph)
  {
    forall a, b :: Edge(small, a, b) ==> Edge(big, a, b)
  }

  lemma EdgeDepends(g: Graph, a: string, b: string)
    requires Edge(g, a, b)
    ensures DependsOn(g, a, b)
  {
    assert WalkBetween(g, [a, b], a, b);
  }

  lemma JoinWalks(g: Graph, p: seq<string>, q: seq<string>, a: string, b: string, c: string)
    requires WalkBetween(g, p, a, b) && WalkBetween(g, q, b, c)
    ensures WalkBetween(g, p + q[1..], a, c)
  {
  }

  lemma DependsTransitive(g: Graph, a: string, b: string, c: string)
    requires DependsOn(g, a, b) && DependsOn(g, b, c)
    ensures DependsOn(g, a, c)
  {
    var p :| WalkBetween(g, p, a, b);
    var q :| WalkBetween(g, q, b, c);
    JoinWalks(g, p, q, a, b, c);
  }

  /** The first step of a dependency, and what is left of it. */
  lemma FirstStep(g: Graph, p: seq<string>, a: string, c: string)
    requires WalkBetween(g, p, a, c)
    ensures Edge(g, a, p[1])
    ensures p[1] == c || WalkBetween(g, p[1..], p[1], c)
  {
  }

  /** A walk that starts in a dependency-closed set stays in it. */
  lemma {:induction false} WalkStaysClosed(g: Graph, closed: set<string>, p: seq<string>, i: nat)
    requires IsWalk(g, p) && i < |p| && p[0] in closed
    requires DependencyClosed(g, closed)
    ensures p[i] in closed
  {
    if i > 0 {
      WalkStaysClosed(g, closed, p, i - 1);
      assert Edge(g, p[i - 1], p[i]);
    }
  }

  /** Ranks that fall along every edge fall along every walk. */
  lemma {:induction false} RankFalls(g: Graph, rank: map<string, int>, p: seq<string>, i: nat)
    requires IsWalk(g, p) && 1 <= i < |p| && Ranked(g, rank)
    ensures p[0] in rank && p[i] in rank && rank[p[i]] < rank[p[0]]
  {
    assert Edge(g, p[i - 1], p[i]);
    if i > 1 {
      RankFalls(g, rank, p, i - 1);
    }
  }

  lemma RankedIsAcyclic(g: Graph, rank: map<string, int>)
    requires Ranked(g, rank)
    ensures !Cyclic(g)
  {
    if Cyclic(g) {
      var a :| DependsOn(g, a, a);
      var p :| WalkBetween(g, p, a, a);
      RankFalls(g, rank, p, |p| - 1);
    }
  }

  /** Walking backwards inside `stuck` for n steps. */
  lemma {:induction false} LongWalk(g: Graph, stuck: set<string>, n: nat) returns (p: seq<string>)
    requires stuck != {} && AllStuck(g, stuck)
    ensures |p| == n + 1 && IsWalk(g, p) && forall i :: 0 <= i < |p| ==> p[i] in stuck
  {
    if n == 0 {
      var a :| a in stuck;
      p := [a];
    } else {
      var q := LongWalk(g, stuck, n - 1);
      var last := q[|q| - 1];
      assert HasParentIn(g, stuck, last);
      var b :| b in stuck && Edge(g, last, b);
      p := q + [b];
    }
  }

  /** Pigeonhole: more entries than names means a repeated name. */
  lemma {:induction false} RepeatedName(p: seq<string>, names: set<string>) returns (i: nat, k: nat)
    requires |p| > |names| && forall x :: 0 <= x < |p| ==> p[x] in names
    ensures i < k < |p| && p[i] == p[k]
    decreases |p|
  {
    var last := |p| - 1;
    if x :| 0 <= x < last && p[x] == p[last] {
      i, k := x, last;
    } else {
      var rest := names - {p[last]};
      assert forall x :: 0 <= x < last ==> p[..last][x] in rest;
      i, k := RepeatedName(p[..last], rest);
    }
  }

  /** A finite non-empty set whose members all depend on members holds a cycle. */
  lemma StuckSetIsCyclic(g: Graph, stuck: set<string>)
    requires stuck != {} && AllStuck(g, stuck)
    ensures Cyclic(g)
  {
    var p := LongWalk(g, stuck, |stuck|);
    var i, k := RepeatedName(p, stuck);
    var loop := p[i..k + 1];
    forall x | 0 <= x < |loop| - 1
      ensures Edge(g, loop[x], loop[x + 1])
    {
      assert Edge(g, p[i + x], p[i + x + 1]);
    }
    assert WalkBetween(g, loop, p[i], p[i]);
    assert DependsOn(g, p[i], p[i]);
  }

  /** A subgraph has no dependency its host lacks. */
  lemma SubgraphDepends(small: Graph, big: Graph, a: string, b: string)
    requires Subgraph(small, big) && DependsOn(small, a, b)
    ensures DependsOn(big, a, b)
  {
    var p :| WalkBetween(small, p, a, b);
    assert WalkBetween(big, p, a, b);
  }

  lemma SubgraphAcyclic(small: Graph, big: Graph)
    requires Subgraph(small, big) && !Cyclic(big)
    ensures !Cyclic(small)
  {
    if Cyclic(small) {
      var a :| DependsOn(small, a, a);
      SubgraphDepends(small, big, a, a);
    }
  }
}
