/** The guard in front of the scheduler: Kahn's algorithm over a submitted payload. */
module CycleCheck {
  import opened Prelude
  import opened Jobs
  import opened Graphs

  function Ids(dag: seq<Job>): set<string>
  {
    set i | 0 <= i < |dag| :: dag[i].id
  }

  ghost predicate Lists(dag: seq<Job>, child: string, parent: string)
  {
    exists i :: 0 <= i < |dag| && dag[i].id == child && parent in dag[i].deps
  }

  /** The dependency graph of a payload, restricted to the payload's own jobs. */
  ghost function PayloadGraph(dag: seq<Job>): Graph
  {
    map child | child in Ids(dag) :: set parent | parent in Ids(dag) && Lists(dag, child, parent)
  }

  // Children of every node, and parents of every node, both with multiplicity.
  type OutEdges = map<string, seq<string>>
  type InEdges = map<string, multiset<string>>

  ghost function OutCount(adj: OutEdges, parent: string, child: string): nat
  {
    if parent in adj then multiset(adj[parent])[child] else 0
  }

  ghost function InCount(inEdges: InEdges, child: string, parent: string): nat
  {
    if child in inEdges then inEdges[child][parent] else 0
  }

  /** The same edges seen from both ends. */
  ghost predicate Mirrors(adj: OutEdges, inEdges: InEdges)
  {
    && adj.Keys == inEdges.Keys
    && forall c, p :: OutCount(adj, p, c) == InCount(inEdges, c, p)
  }

  ghost predicate Counts(degree: map<string, int>, inEdges: InEdges)
  {
    degree.Keys == inEdges.Keys && forall c :: c in inEdges ==> degree[c] == |inEdges[c]|
  }

  /** putIfAbsent on both tables. */
  method AddNode(adj0: OutEdges, degree0: map<string, int>, ghost in0: InEdges, id: string)
    returns (adj: OutEdges, degree: map<string, int>, ghost inEdges: InEdges)
    requires Mirrors(adj0, in0) && Counts(degree0, in0)
    ensures adj == if id in adj0 then adj0 else adj0[id := []]
    ensures degree == if id in adj0 then degree0 else degree0[id := 0]
    ensures Mirrors(adj, inEdges) && Counts(degree, inEdges)
    ensures inEdges.Keys == in0.Keys + {id}
    ensures forall c, p :: InCount(inEdges, c, p) == InCount(in0, c, p)
  {
    adj, degree, inEdges := adj0, degree0, in0;
    if id !in adj {
      adj, degree, inEdges := adj[id := []], degree[id := 0], inEdges[id := multiset{}];
      forall c, p
        ensures OutCount(adj, p, c) == InCount(inEdges, c, p)
      {
        assert OutCount(adj0, p, c) == InCount(in0, c, p);
      }
    }
  }

  method AddEdge(adj0: OutEdges, degree0: map<string, int>, ghost in0: InEdges, parent: string, child: string)
    returns (adj: OutEdges, degree: map<string, int>, ghost inEdges: InEdges)
    requires Mirrors(adj0, in0) && Counts(degree0, in0) && parent in in0 && child in in0
    ensures adj == adj0[parent := adj0[parent] + [child]] && degree == degree0[child := degree0[child] + 1]
    ensures Mirrors(adj, inEdges) && Counts(degree, inEdges)
    ensures inEdges.Keys == in0.Keys
    ensures forall c, p :: InCount(inEdges, c, p) == InCount(in0, c, p) + if c == child && p == parent then 1 else 0
  {
    adj := adj0[parent := adj0[parent] + [child]];
    degree := degree0[child := degree0[child] + 1];
    inEdges := in0[child := in0[child] + multiset{parent}];
    forall c, p
      ensures OutCount(adj, p, c) == InCount(inEdges, c, p)
    {
      assert OutCount(adj0, p, c) == InCount(in0, c, p);
    }
  }

  /** `after` has the edges of `before`, and an edge from `child` to each of `parents`. */
  ghost predicate Gains(before: InEdges, after: InEdges, child: string, parents: set<string>)
  {
    forall c, p :: InCount(after, c, p) > 0 <==> InCount(before, c, p) > 0 || (c == child && p in parents)
  }

  lemma GainsTwice(in0: InEdges, in1: InEdges, in2: InEdges, child: string, ps: set<string>, qs: set<string>)
    requires Gains(in0, in1, child, ps) && Gains(in1, in2, child, qs)
    ensures Gains(in0, in2, child, ps + qs)
  {
  }

  lemma MeetOfUnion<T>(a: set<T>, b: set<T>, c: set<T>)
    ensures (a + b) * c == a * c + b * c
  {
  }

  lemma DepSetGrows(deps: seq<string>, k: nat)
    requires k < |deps|
    ensures DepSet(deps[..k + 1]) == DepSet(deps[..k]) + {deps[k]}
  {
  }

  /** One edge between nodes of the payload. */
  method AddKnownParent(child: string, parent: string, adj0: OutEdges, degree0: map<string, int>, ghost in0: InEdges)
    returns (adj: OutEdges, degree: map<string, int>, ghost inEdges: InEdges)
    requires Mirrors(adj0, in0) && Counts(degree0, in0) && child in in0
    ensures Mirrors(adj, inEdges) && Counts(degree, inEdges) && inEdges.Keys == in0.Keys + {parent}
    ensures forall c, p :: OutCount(adj, p, c) == OutCount(adj0, p, c) + if c == child && p == parent then 1 else 0
    ensures forall c, p :: InCount(inEdges, c, p) == InCount(in0, c, p) + if c == child && p == parent then 1 else 0
  {
    hide OutCount, Counts, Mirrors, InCount;
    adj, degree, inEdges := AddNode(adj0, degree0, in0, parent);
    adj, degree, inEdges := AddEdge(adj, degree, inEdges, parent, child);
    MirrorsGain(adj0, in0, adj, inEdges, child, parent);
  }

  /** One parent of one job; a parent the payload does not know is skipped. */
  method AddParent(dag: seq<Job>, child: string, parent: string,
    adj0: OutEdges, degree0: map<string, int>, ghost in0: InEdges)
    returns (adj: OutEdges, degree: map<string, int>, ghost inEdges: InEdges)
    requires Mirrors(adj0, in0) && Counts(degree0, in0)
    requires child in in0 && in0.Keys <= Ids(dag)
    ensures Mirrors(adj, inEdges) && Counts(degree, inEdges)
    ensures in0.Keys <= inEdges.Keys <= Ids(dag)
    ensures forall c, p ::
      OutCount(adj, p, c) == OutCount(adj0, p, c) + if c == child && p == parent && parent in Ids(dag) then 1 else 0
    ensures Gains(in0, inEdges, child, {parent} * Ids(dag))
  {
    hide OutCount, Counts;
    adj, degree, inEdges := adj0, degree0, in0;
    if parent !in adj && forall i :: 0 <= i < |dag| ==> dag[i].id != parent {
      assert parent !in Ids(dag);
      return;
    }
    assert parent in Ids(dag);
    hide Mirrors, InCount, Ids;
    adj, degree, inEdges := AddKnownParent(child, parent, adj, degree, inEdges);
  }

  lemma MirrorsGain(adj0: OutEdges, in0: InEdges, adj: OutEdges, inEdges: InEdges, child: string, parent: string)
    requires Mirrors(adj0, in0) && Mirrors(adj, inEdges)
    requires forall c, p :: InCount(inEdges, c, p) == InCount(in0, c, p) + if c == child && p == parent then 1 else 0
    ensures forall c, p :: OutCount(adj, p, c) == OutCount(adj0, p, c) + if c == child && p == parent then 1 else 0
  {
    forall c, p
      ensures OutCount(adj, p, c) == OutCount(adj0, p, c) + if c == child && p == parent then 1 else 0
    {
      assert OutCount(adj0, p, c) == InCount(in0, c, p) && OutCount(adj, p, c) == InCount(inEdges, c, p);
    }
  }

  /** One job of the payload: itself, and an edge from each parent the payload knows. */
  method AddJob(dag: seq<Job>, job: Job, adj0: OutEdges, degree0: map<string, int>, ghost in0: InEdges)
    returns (adj: OutEdges, degree: map<string, int>, ghost inEdges: InEdges)
    requires Mirrors(adj0, in0) && Counts(degree0, in0)
    requires in0.Keys <= Ids(dag) && job.id in Ids(dag)
    ensures Mirrors(adj, inEdges) && Counts(degree, inEdges)
    ensures in0.Keys + {job.id} <= inEdges.Keys <= Ids(dag)
    ensures Gains(in0, inEdges, job.id, DepSet(job.deps) * Ids(dag))
  {
    adj, degree, inEdges := AddNode(adj0, degree0, in0, job.id);
    ghost var seen: set<string> := {};
    for k := 0 to |job.deps|
      invariant in0.Keys + {job.id} <= inEdges.Keys <= Ids(dag)
      invariant Mirrors(adj, inEdges) && Counts(degree, inEdges)
      invariant seen == DepSet(job.deps[..k])
      invariant Gains(in0, inEdges, job.id, seen * Ids(dag))
    {
      ghost var in1, seen1 := inEdges, seen;
      adj, degree, inEdges := AddParent(dag, job.id, job.deps[k], adj, degree, inEdges);
      seen := seen + {job.deps[k]};
      GainsTwice(in0, in1, inEdges, job.id, seen1 * Ids(dag), {job.deps[k]} * Ids(dag));
      MeetOfUnion(seen1, {job.deps[k]}, Ids(dag));
      DepSetGrows(job.deps, k);
    }
    assert job.deps[..|job.deps|] == job.deps;
  }

  method BuildEdges(dag: seq<Job>) returns (adj: OutEdges, degree: map<string, int>, ghost inEdges: InEdges)
    ensures adj.Keys == degree.Keys == Ids(dag)
    ensures forall c, p :: OutCount(adj, p, c) > 0 <==> Edge(PayloadGraph(dag), c, p)
    ensures Mirrors(adj, inEdges) && Counts(degree, inEdges)
  {
    adj, degree, inEdges := map[], map[], map[];
    for n := 0 to |dag|
      invariant Ids(dag[..n]) <= inEdges.Keys <= Ids(dag)
      invariant Mirrors(adj, inEdges) && Counts(degree, inEdges)
      invariant forall c, p :: InCount(inEdges, c, p) > 0 <==> p in Ids(dag) && Lists(dag[..n], c, p)
    {
      ghost var in0 := inEdges;
      adj, degree, inEdges := AddJob(dag, dag[n], adj, degree, inEdges);
      ExtendLists(dag, n);
    }
    assert dag[..|dag|] == dag;
    forall c, p
      ensures OutCount(adj, p, c) > 0 <==> Edge(PayloadGraph(dag), c, p)
    {
      assert OutCount(adj, p, c) == InCount(inEdges, c, p);
      assert Lists(dag, c, p) ==> c in Ids(dag);
    }
  }

  lemma ExtendLists(dag: seq<Job>, n: nat)
    requires n < |dag|
    ensures Ids(dag[..n + 1]) == Ids(dag[..n]) + {dag[n].id}
    ensures forall c, p :: Lists(dag[..n + 1], c, p) <==> Lists(dag[..n], c, p) || (c == dag[n].id && p in dag[n].deps)
  {
    var a, b := dag[..n], dag[..n + 1];
    assert b == a + [dag[n]];
    forall c, p
      ensures Lists(b, c, p) <==> Lists(a, c, p) || (c == dag[n].id && p in dag[n].deps)
    {
      if Lists(a, c, p) {
        var i :| 0 <= i < |a| && a[i].id == c && p in a[i].deps;
        assert b[i] == a[i];
      }
      assert b[n] == dag[n];
    }
  }

  // ----- draining the queue -----

  ghost function Unpeeled(inEdges: InEdges, done: set<string>, curr: string, todo: multiset<string>, c: string,
      p: string): nat
  {
    if p in done then 0 else if p == curr then todo[c] else InCount(inEdges, c, p)
  }

  /** What is left of the in-edges once the nodes of `done` are peeled off and, of `curr`, all but `todo`. */
  ghost predicate Peeled(inEdges: InEdges, left: InEdges, done: set<string>, curr: string, todo: multiset<string>)
  {
    && left.Keys == inEdges.Keys
    && forall c, p :: InCount(left, c, p) == Unpeeled(inEdges, done, curr, todo, c, p)
  }

  /** All in-edges that come from `done` are gone, all others are still there. */
  ghost predicate Settled(inEdges: InEdges, left: InEdges, done: set<string>)
  {
    && left.Keys == inEdges.Keys
    && forall c, p :: InCount(left, c, p) == if p in done then 0 else InCount(inEdges, c, p)
  }

  ghost predicate Free(left: InEdges, c: string)
  {
    c in left && left[c] == multiset{}
  }

  /** The queue holds, once each, the free nodes that have not been taken from it. */
  ghost predicate QueueOk(queue: seq<string>, left: InEdges, taken: set<string>)
  {
    && Distinct(queue)
    && (forall c :: c in queue ==> Free(left, c) && c !in taken)
    && (forall c :: c in taken ==> Free(left, c))
    && (forall c :: Free(left, c) ==> c in queue || c in taken)
  }

  /** Every processed node was processed after all its parents. */
  ghost predicate RankOk(inEdges: InEdges, rank: map<string, int>, done: set<string>)
  {
    && rank.Keys == done
    && (forall c :: c in done ==> rank[c] < |done|)
    && (forall c, p :: c in done && InCount(inEdges, c, p) > 0 ==> p in done && rank[p] < rank[c])
  }

  lemma DistinctSnoc(queue: seq<string>, x: string)
    requires Distinct(queue) && x !in queue
    ensures Distinct(queue + [x])
  {
  }

  lemma DistinctTail(queue: seq<string>)
    requires queue != [] && Distinct(queue)
    ensures Distinct(queue[1..]) && queue[0] !in queue[1..]
    ensures forall c :: c in queue <==> c == queue[0] || c in queue[1..]
  {
  }

  /** The first pass over the in-degrees. */
  method InitialQueue(degree: map<string, int>, ghost inEdges: InEdges) returns (queue: seq<string>)
    requires Counts(degree, inEdges)
    ensures QueueOk(queue, inEdges, {})
  {
    queue := [];
    var rest := degree.Keys;
    while rest != {}
      invariant rest <= degree.Keys && Distinct(queue)
      invariant forall c :: c in queue <==> Free(inEdges, c) && c !in rest
    {
      var c :| c in rest;
      if degree[c] == 0 {
        DistinctSnoc(queue, c);
        queue := queue + [c];
      }
      rest := rest - {c};
    }
  }

  /** The inner loop: strike the edges out of `curr`, queueing each child that becomes free. */
  method Relax(children: seq<string>, curr: string, degree0: map<string, int>, queue0: seq<string>,
    ghost inEdges: InEdges, ghost left0: InEdges, ghost done: set<string>)
    returns (degree: map<string, int>, queue: seq<string>, ghost left: InEdges)
    requires curr !in done && Counts(degree0, left0)
    requires Peeled(inEdges, left0, done, curr, multiset(children))
    requires QueueOk(queue0, left0, done + {curr})
    ensures degree.Keys == degree0.Keys && forall c :: c in degree ==> degree[c] == degree0[c] - multiset(children)[c]
    ensures forall c :: c in queue <==> c in queue0 || (c in children && c in degree && degree[c] == 0)
    ensures Counts(degree, left)
    ensures Settled(inEdges, left, done + {curr})
    ensures QueueOk(queue, left, done + {curr})
  {
    degree, queue, left := degree0, queue0, left0;
    assert children[0..] == children;
    for k := 0 to |children|
      invariant forall c :: c in queue0 ==> c in queue
      invariant Counts(degree, left)
      invariant Peeled(inEdges, left, done, curr, multiset(children[k..]))
      invariant QueueOk(queue, left, done + {curr})
    {
      assert children[k..] == [children[k]] + children[k + 1..];
      degree, queue, left := RelaxOne(children[k], curr, degree, queue, inEdges, left, done,
        multiset(children[k + 1..]));
    }
    assert multiset(children[|children|..]) == multiset{};
    PeelDone(inEdges, left, done, curr);
    DegreesFall(inEdges, left0, left, degree0, degree, done, curr, multiset(children));
    NewlyFree(children, queue0, queue, left0, left, degree0, degree, done + {curr});
  }

  /** One edge is struck. */
  method RelaxOne(child: string, curr: string, degree0: map<string, int>, queue0: seq<string>,
    ghost inEdges: InEdges, ghost left0: InEdges, ghost done: set<string>, ghost todo: multiset<string>)
    returns (degree: map<string, int>, queue: seq<string>, ghost left: InEdges)
    requires curr !in done && Counts(degree0, left0)
    requires Peeled(inEdges, left0, done, curr, multiset{child} + todo)
    requires QueueOk(queue0, left0, done + {curr})
    ensures child in degree0 && degree == degree0[child := degree0[child] - 1]
    ensures queue == if degree[child] == 0 then queue0 + [child] else queue0
    ensures Counts(degree, left) && Peeled(inEdges, left, done, curr, todo) && QueueOk(queue, left, done + {curr})
  {
    hide Peeled, QueueOk;
    StrikeOne(inEdges, left0, done, curr, child, todo);
    StrikeQueue(queue0, left0, done + {curr}, curr, child);
    degree, queue := degree0[child := degree0[child] - 1], queue0;
    left := Strike(left0, curr, child);
    if degree[child] == 0 {
      queue := queue + [child];
    }
  }

  /** A node's in-degree falls by the number of its edges from `curr`. */
  lemma DegreesFall(inEdges: InEdges, left0: InEdges, left: InEdges, degree0: map<string, int>,
      degree: map<string, int>,
      done: set<string>, curr: string, children: multiset<string>)
    requires curr !in done && Counts(degree0, left0) && Counts(degree, left)
    requires Peeled(inEdges, left0, done, curr, children) && Settled(inEdges, left, done + {curr})
    ensures degree.Keys == degree0.Keys && forall c :: c in degree ==> degree[c] == degree0[c] - children[c]
  {
    forall c | c in left
      ensures |left[c]| == |left0[c]| - children[c]
    {
      forall p
        ensures left[c][p] == left0[c][curr := 0][p]
      {
        assert InCount(left, c, p) == if p in done + {curr} then 0 else InCount(inEdges, c, p);
        assert InCount(left0, c, p) == Unpeeled(inEdges, done, curr, children, c, p);
      }
      assert left[c] == left0[c][curr := 0];
      assert InCount(left0, c, curr) == Unpeeled(inEdges, done, curr, children, c, curr);
    }
  }

  /** Whoever is in the queue now and was not before has just become free. */
  lemma NewlyFree(children: seq<string>, queue0: seq<string>, queue: seq<string>, left0: InEdges, left: InEdges,
      degree0: map<string, int>, degree: map<string, int>, taken: set<string>)
    requires Counts(degree0, left0) && Counts(degree, left) && degree.Keys == degree0.Keys
    requires forall c :: c in degree ==> degree[c] == degree0[c] - multiset(children)[c]
    requires QueueOk(queue0, left0, taken) && QueueOk(queue, left, taken) && forall c :: c in queue0 ==> c in queue
    ensures forall c :: c in queue <==> c in queue0 || (c in children && c in degree && degree[c] == 0)
  {
    forall c
      ensures c in queue <==> c in queue0 || (c in children && c in degree && degree[c] == 0)
    {
      assert c in degree && degree[c] == 0 <==> Free(left, c);
      assert c in degree0 && degree0[c] == 0 <==> Free(left0, c);
    }
  }

  lemma PeelDone(inEdges: InEdges, left: InEdges, done: set<string>, curr: string)
    requires Peeled(inEdges, left, done, curr, multiset{})
    ensures Settled(inEdges, left, done + {curr})
  {
  }

  ghost function Strike(left: InEdges, curr: string, child: string): InEdges
    requires child in left
  {
    left[child := left[child] - multiset{curr}]
  }

  lemma StrikeOne(inEdges: InEdges, left: InEdges, done: set<string>, curr: string, child: string,
      todo: multiset<string>)
    requires curr !in done
    requires Peeled(inEdges, left, done, curr, multiset{child} + todo)
    ensures child in left && left[child][curr] > 0
    ensures Peeled(inEdges, Strike(left, curr, child), done, curr, todo)
  {
    assert InCount(left, child, curr) == Unpeeled(inEdges, done, curr, multiset{child} + todo, child, curr);
    var after := Strike(left, curr, child);
    forall c, p
      ensures InCount(after, c, p) == Unpeeled(inEdges, done, curr, todo, c, p)
    {
      assert InCount(left, c, p) == Unpeeled(inEdges, done, curr, multiset{child} + todo, c, p);
    }
  }

  lemma StrikeQueue(queue: seq<string>, left: InEdges, taken: set<string>, curr: string, child: string)
    requires QueueOk(queue, left, taken) && child in left && left[child][curr] > 0
    requires curr in taken
    ensures |Strike(left, curr, child)[child]| == |left[child]| - 1
    ensures var after := Strike(left, curr, child);
      QueueOk(if |after[child]| == 0 then queue + [child] else queue, after, taken)
  {
    var after := Strike(left, curr, child);
    assert forall c :: c != child ==> (Free(after, c) <==> Free(left, c));
    assert !Free(left, child);
    assert child !in queue;
  }

  lemma PeelNext(adj: OutEdges, inEdges: InEdges, left: InEdges, done: set<string>, curr: string)
    requires Mirrors(adj, inEdges) && curr in adj
    requires Settled(inEdges, left, done) && curr !in done
    ensures Peeled(inEdges, left, done, curr, multiset(adj[curr]))
  {
  }

  lemma RankNext(inEdges: InEdges, left: InEdges, rank: map<string, int>, done: set<string>, curr: string)
    requires RankOk(inEdges, rank, done) && Settled(inEdges, left, done)
    requires Free(left, curr) && curr !in done
    ensures RankOk(inEdges, rank[curr := |done|], done + {curr})
  {
  }

  /** The edges as a dependency graph. */
  ghost function EdgesOf(inEdges: InEdges): Graph
  {
    map c | c in inEdges :: set p | p in inEdges[c]
  }

  /** Kahn's loop: count how many nodes can be taken from the queue. All of them, exactly if there is no cycle. */
  method Drain(adj: OutEdges, degree0: map<string, int>, ghost inEdges: InEdges) returns (processed: nat)
    requires Mirrors(adj, inEdges) && Counts(degree0, inEdges)
    ensures processed == |degree0| <==> !Cyclic(EdgesOf(inEdges))
  {
    var degree := degree0;
    var queue := InitialQueue(degree, inEdges);
    processed := 0;
    ghost var done: set<string>, left, rank := {}, inEdges, map[];
    while queue != []
      invariant processed == |done| && done <= inEdges.Keys
      invariant Counts(degree, left) && Settled(inEdges, left, done)
      invariant QueueOk(queue, left, done)
      invariant RankOk(inEdges, rank, done)
      decreases inEdges.Keys - done
    {
      var curr := queue[0];
      DistinctTail(queue);
      RankNext(inEdges, left, rank, done, curr);
      PeelNext(adj, inEdges, left, done, curr);
      processed := processed + 1;
      degree, queue, left := Relax(adj[curr], curr, degree, queue[1..], inEdges, left, done);
      rank := rank[curr := |done|];
      done := done + {curr};
    }
    KahnDecides(adj, inEdges, left, done, rank);
  }

  /** What is left when the queue runs dry: nothing, or jobs that all wait for one another. */
  lemma KahnDecides(adj: OutEdges, inEdges: InEdges, left: InEdges, done: set<string>, rank: map<string, int>)
    requires Mirrors(adj, inEdges) && done <= inEdges.Keys && Settled(inEdges, left, done)
    requires RankOk(inEdges, rank, done)
    requires forall c :: c in inEdges && c !in done ==> !Free(left, c)
    ensures |done| == |inEdges.Keys| <==> !Cyclic(EdgesOf(inEdges))
  {
    hide *;
    SubsetBySize(done, inEdges.Keys);
    if done == inEdges.Keys {
      RankedEdges(inEdges, rank);
      RankedIsAcyclic(EdgesOf(inEdges), rank);
    } else {
      assert exists c :: c in inEdges.Keys && c !in done;
      StuckIsCyclic(adj, inEdges, left, done);
    }
  }

  lemma StuckIsCyclic(adj: OutEdges, inEdges: InEdges, left: InEdges, done: set<string>)
    requires Mirrors(adj, inEdges) && Settled(inEdges, left, done)
    requires forall c :: c in inEdges && c !in done ==> !Free(left, c)
    requires exists c :: c in inEdges.Keys && c !in done
    ensures Cyclic(EdgesOf(inEdges))
  {
    hide Mirrors, Settled, Free, EdgesOf, Cyclic, HasParentIn;
    var stuck := inEdges.Keys - done;
    var first :| first in inEdges.Keys && first !in done;
    assert first in stuck;
    forall c | c in stuck
      ensures HasParentIn(EdgesOf(inEdges), stuck, c)
    {
      StuckParent(adj, inEdges, left, done, c);
    }
    StuckSetIsCyclic(EdgesOf(inEdges), stuck);
  }

  lemma EdgeIsCounted(inEdges: InEdges, a: string, b: string)
    requires Edge(EdgesOf(inEdges), a, b)
    ensures InCount(inEdges, a, b) > 0
  {
  }

  lemma RankedEdges(inEdges: InEdges, rank: map<string, int>)
    requires RankOk(inEdges, rank, inEdges.Keys)
    ensures Ranked(EdgesOf(inEdges), rank)
  {
    forall a, b | Edge(EdgesOf(inEdges), a, b)
      ensures a in rank && b in rank && rank[b] < rank[a]
    {
      EdgeIsCounted(inEdges, a, b);
      assert a in inEdges;
      hide EdgesOf;
    }
  }

  lemma StuckParent(adj: OutEdges, inEdges: InEdges, left: InEdges, done: set<string>, c: string)
    requires Mirrors(adj, inEdges) && Settled(inEdges, left, done) && c in inEdges && !Free(left, c)
    ensures HasParentIn(EdgesOf(inEdges), inEdges.Keys - done, c)
  {
    var p :| p in left[c];
    assert InCount(left, c, p) == if p in done then 0 else InCount(inEdges, c, p);
    assert OutCount(adj, p, c) == InCount(inEdges, c, p);
    assert Edge(EdgesOf(inEdges), c, p);
  }

  /**
   The payload is rejected exactly when its own jobs depend on each other in a circle,
   whatever it holds: repeated parents, self-loops, repeated ids, unknown parents.
   */
  method DetectCycle(dag: seq<Job>) returns (cyclic: bool)
    ensures cyclic <==> Cyclic(PayloadGraph(dag))
  {
    var adj, degree, inEdges := BuildEdges(dag);
    var processed := Drain(adj, degree, inEdges);
    cyclic := processed != |degree|;
    SameEdges(dag, adj, inEdges);
  }

  lemma SameEdges(dag: seq<Job>, adj: OutEdges, inEdges: InEdges)
    requires Mirrors(adj, inEdges)
    requires forall c, p :: OutCount(adj, p, c) > 0 <==> Edge(PayloadGraph(dag), c, p)
    ensures Cyclic(EdgesOf(inEdges)) <==> Cyclic(PayloadGraph(dag))
  {
    var g, h := EdgesOf(inEdges), PayloadGraph(dag);
    forall c, p
      ensures Edge(g, c, p) <==> Edge(h, c, p)
    {
      assert OutCount(adj, p, c) == InCount(inEdges, c, p);
    }
    hide EdgesOf, PayloadGraph;
    if !Cyclic(h) {
      SubgraphAcyclic(g, h);
    }
    if !Cyclic(g) {
      SubgraphAcyclic(h, g);
    }
  }
}
