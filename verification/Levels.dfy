/** The dashboard's picture of a DAG: columns by longest chain, and boxes that do not overlap. */
module Levels {
  import opened Prelude
  import opened Graphs

  // ----- longest chains -----

  ghost predicate ChainFrom(g: Graph, p: seq<string>, a: string)
  {
    p != [] && p[0] == a && IsWalk(g, p)
  }

  /** `level` is the number of steps in a longest chain of dependencies from a. */
  ghost predicate Longest(g: Graph, a: string, level: nat)
  {
    (exists p :: ChainFrom(g, p, a) && |p| == level + 1) && forall p :: ChainFrom(g, p, a) ==> |p| <= level + 1
  }

  function ParentsIn(g: Graph, a: string): set<string>
  {
    if a in g then g[a] else {}
  }

  lemma ExtendChain(g: Graph, p: seq<string>, a: string, b: string)
    requires Edge(g, a, b) && ChainFrom(g, p, b)
    ensures ChainFrom(g, [a] + p, a)
  {
  }

  lemma ChainTail(g: Graph, p: seq<string>, a: string)
    requires ChainFrom(g, p, a) && |p| > 1
    ensures Edge(g, a, p[1]) && ChainFrom(g, p[1..], p[1])
  {
  }

  lemma LeafLevel(g: Graph, a: string)
    requires ParentsIn(g, a) == {}
    ensures Longest(g, a, 0)
  {
    assert ChainFrom(g, [a], a);
    forall p | ChainFrom(g, p, a)
      ensures |p| <= 1
    {
      if |p| > 1 {
        ChainTail(g, p, a);
      }
    }
  }

  /** One more than the highest parent. */
  lemma ParentLevel(g: Graph, a: string, levels: map<string, nat>, top: string)
    requires top in ParentsIn(g, a) && top in levels
    requires forall b :: b in ParentsIn(g, a) ==> b in levels && Longest(g, b, levels[b]) && levels[b] <= levels[top]
    ensures Longest(g, a, levels[top] + 1)
  {
    var p :| ChainFrom(g, p, top) && |p| == levels[top] + 1;
    ExtendChain(g, p, a, top);
    forall q | ChainFrom(g, q, a)
      ensures |q| <= levels[top] + 2
    {
      if |q| > 1 {
        ChainTail(g, q, a);
      }
    }
  }

  /** Every parent is strictly to the left of its child. */
  lemma ParentIsLeft(g: Graph, a: string, b: string, la: nat, lb: nat)
    requires Edge(g, a, b) && Longest(g, a, la) && Longest(g, b, lb)
    ensures lb < la
  {
    var p :| ChainFrom(g, p, b) && |p| == lb + 1;
    ExtendChain(g, p, a, b);
  }

  // ----- the memoised recursion -----

  /** Entered but not yet finished. */
  function Active(levels: map<string, nat>, visited: set<string>): set<string>
  {
    visited - levels.Keys
  }

  ghost predicate Exact(g: Graph, levels: map<string, nat>)
  {
    forall a :: a in levels ==> Longest(g, a, levels[a])
  }

  /** The tables are right, and everyone on the stack is there because it depends on `a`. */
  ghost predicate Sound(g: Graph, levels: map<string, nat>, stack: set<string>, a: string)
  {
    !Cyclic(g) && Exact(g, levels) && forall b :: b in stack ==> DependsOn(g, b, a)
  }

  /** What a call may do to the tables. */
  ghost predicate Grows(levels0: map<string, nat>, visited0: set<string>, levels: map<string, nat>,
      visited: set<string>)
  {
    && visited0 <= visited && levels0.Keys <= levels.Keys
    && (forall b :: b in levels0 ==> levels[b] == levels0[b])
  }

  /** What a call on `a` achieves. */
  ghost predicate Levelled(g: Graph, a: string, level: nat, levels: map<string, nat>, visited: set<string>,
      stack: set<string>)
  {
    a in levels && level == levels[a] && Exact(g, levels) && Active(levels, visited) == stack
  }

  /** `level` is one more than the highest of the parents seen so far, which is `top`. */
  ghost predicate Highest(levels: map<string, nat>, seen: set<string>, level: nat, top: string)
  {
    && (forall b :: b in seen ==> b in levels && levels[b] < level)
    && (seen == {} ==> level == 0)
    && (seen != {} ==> top in seen && top in levels && level == levels[top] + 1)
  }

  /** A job that is on the stack already would depend on itself. */
  lemma KnownDone(g: Graph, levels: map<string, nat>, visited: set<string>, a: string)
    requires a in levels || a in visited
    ensures Grows(levels, visited, levels, visited)
    ensures Sound(g, levels, Active(levels, visited), a) ==>
      a in levels && Levelled(g, a, levels[a], levels, visited, Active(levels, visited))
  {
    if a !in levels {
      assert a in Active(levels, visited);
      assert Sound(g, levels, Active(levels, visited), a) ==> DependsOn(g, a, a);
    }
  }

  lemma LeafDone(g: Graph, a: string, levels: map<string, nat>, visited: set<string>)
    requires ParentsIn(g, a) == {} && a !in visited && a !in levels
    ensures Grows(levels, visited, levels[a := 0], visited + {a})
    ensures Sound(g, levels, Active(levels, visited), a) ==>
      Levelled(g, a, 0, levels[a := 0], visited + {a}, Active(levels, visited))
  {
    LeafLevel(g, a);
  }

  lemma GrowsMore(levels0: map<string, nat>, visited0: set<string>, levels: map<string, nat>, visited: set<string>,
      a: string, level: nat)
    requires a !in levels0 && Grows(levels0, visited0 + {a}, levels, visited)
    ensures Grows(levels0, visited0, levels[a := level], visited)
  {
  }

  lemma ParentsDone(g: Graph, a: string, level: nat, levels: map<string, nat>, visited: set<string>,
      stack: set<string>, top: string)
    requires ParentsIn(g, a) != {} && a !in stack && Exact(g, levels) && Active(levels, visited) == stack + {a}
    requires Highest(levels, ParentsIn(g, a), level, top)
    ensures Levelled(g, a, level, levels[a := level], visited, stack)
  {
    ParentLevel(g, a, levels, top);
  }

  /**
   get_level, with its tables as arguments. It terminates on every graph; on an acyclic one it
   enters each job once and gets the length of its longest chain.
   */
  method GetLevel(g: Graph, jid: string, levels0: map<string, nat>, visited0: set<string>)
    returns (level: nat, levels: map<string, nat>, visited: set<string>)
    ensures Grows(levels0, visited0, levels, visited)
    ensures Sound(g, levels0, Active(levels0, visited0), jid) ==>
      Levelled(g, jid, level, levels, visited, Active(levels0, visited0))
    decreases |g.Keys - visited0|, 1
  {
    hide Longest, DependsOn, Cyclic, Highest, Sound, Levelled, Exact, Grows;
    ghost var stack := Active(levels0, visited0);
    levels, visited := levels0, visited0;
    if jid in levels || jid in visited {
      KnownDone(g, levels, visited, jid);
      level := if jid in levels then levels[jid] else 0;
      return;
    }
    visited := visited + {jid};
    assert Active(levels, visited) == stack + {jid};
    if jid !in g || g[jid] == {} {
      LeafDone(g, jid, levels0, visited0);
      levels := levels[jid := 0];
      return 0, levels, visited;
    }
    EnterSmaller(g, jid, visited0);
    ghost var top;
    level, levels, visited, top := HighestParent(g, jid, levels, visited, stack);
    GrowsMore(levels0, visited0, levels, visited, jid, level);
    if Sound(g, levels0, stack, jid) {
      ParentsDone(g, jid, level, levels, visited, stack, top);
    }
    levels := levels[jid := level];
  }

  /** The loop over the parents of a job that has just been put on the stack. */
  method HighestParent(g: Graph, jid: string, levels0: map<string, nat>, visited0: set<string>,
      ghost stack: set<string>)
    returns (level: nat, levels: map<string, nat>, visited: set<string>, ghost top: string)
    requires jid in g && g[jid] != {} && Active(levels0, visited0) == stack + {jid}
    ensures Grows(levels0, visited0, levels, visited)
    ensures Sound(g, levels0, stack, jid) ==>
      Exact(g, levels) && Active(levels, visited) == stack + {jid} && Highest(levels, g[jid], level, top)
    decreases |g.Keys - visited0|, 3
  {
    levels, visited, level := levels0, visited0, 0;
    var rest := g[jid];
    top := jid;
    ghost var sound := Sound(g, levels0, stack, jid);
    while rest != {}
      invariant rest <= g[jid] && Grows(levels0, visited0, levels, visited)
      invariant sound ==>
        Exact(g, levels) && Active(levels, visited) == stack + {jid} && Highest(levels, g[jid] - rest, level, top)
    {
      var p :| p in rest;
      SubsetBySize(g.Keys - visited, g.Keys - visited0);
      assert g[jid] - (rest - {p}) == g[jid] - rest + {p};
      level, levels, visited, top := VisitParent(g, jid, p, level, levels, visited, top, stack, g[jid] - rest);
      rest := rest - {p};
    }
    assert g[jid] - {} == g[jid];
  }

  method VisitParent(g: Graph, jid: string, p: string, level0: nat, levels0: map<string, nat>, visited0: set<string>,
      ghost top0: string, ghost stack: set<string>, ghost seen: set<string>)
    returns (level: nat, levels: map<string, nat>, visited: set<string>, ghost top: string)
    requires Edge(g, jid, p)
    ensures Grows(levels0, visited0, levels, visited)
    ensures (Sound(g, levels0, stack, jid) && Active(levels0, visited0) == stack + {jid} &&
        Highest(levels0, seen, level0, top0)) ==>
      Exact(g, levels) && Active(levels, visited) == stack + {jid} && Highest(levels, seen + {p}, level, top)
    decreases |g.Keys - visited0|, 2
  {
    hide Longest, DependsOn, Cyclic;
    if Sound(g, levels0, stack, jid) {
      StackBelow(g, levels0, stack, jid, p);
    }
    var l;
    l, levels, visited := GetLevel(g, p, levels0, visited0);
    level, top := level0, top0;
    if l + 1 > level {
      level := l + 1;
      top := p;
    }
  }

  lemma StackBelow(g: Graph, levels: map<string, nat>, stack: set<string>, jid: string, p: string)
    requires Sound(g, levels, stack, jid) && Edge(g, jid, p)
    ensures Sound(g, levels, stack + {jid}, p)
  {
    EdgeDepends(g, jid, p);
    hide DependsOn, Longest, Cyclic;
    forall b | b in stack + {jid}
      ensures DependsOn(g, b, p)
    {
      if b != jid {
        DependsTransitive(g, b, jid, p);
      }
    }
  }

  lemma EnterSmaller(g: Graph, jid: string, visited: set<string>)
    requires jid in g && jid !in visited
    ensures |g.Keys - (visited + {jid})| < |g.Keys - visited|
  {
    assert g.Keys - (visited + {jid}) == (g.Keys - visited) - {jid};
    SubsetBySize(g.Keys - (visited + {jid}), g.Keys - visited);
  }

  /** The levels of all jobs; on an acyclic graph, the lengths of their longest chains. */
  method ComputeLevels(g: Graph, jobs: seq<string>) returns (levels: map<string, nat>)
    ensures !Cyclic(g) ==> forall i :: 0 <= i < |jobs| ==> jobs[i] in levels && Longest(g, jobs[i], levels[jobs[i]])
  {
    levels := map[];
    var visited := {};
    for i := 0 to |jobs|
      invariant !Cyclic(g) ==> Exact(g, levels) && Active(levels, visited) == {}
      invariant !Cyclic(g) ==> forall k :: 0 <= k < i ==> jobs[k] in levels
    {
      var l;
      l, levels, visited := GetLevel(g, jobs[i], levels, visited);
    }
  }
}
