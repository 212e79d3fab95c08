/** From wherever a run has got to, workers that answer can bring it to rest. */
module Progress {
  import opened Prelude
  import opened Jobs
  import opened SchedulerModel
  import opened Invariants
  import opened Runs
  import opened Liveness
  import opened Work
  import opened DagRuns

  /** Steps that submit nothing and forbid no retry. */
  ghost predicate Mild(e: Event)
  {
    !e.SubmitEvent? && Benign(e)
  }

  ghost predicate Possible(s: State, e: Event)
  {
    Mild(e) && Consistent(s) && Enabled(s, e) && FreshId(s, e)
  }

  ghost predicate GoesOn(s: State, states: seq<State>, events: seq<Event>)
  {
    && |states| == |events| + 1 && states[0] == s
    && (forall i :: 0 <= i < |events| ==> MovesAt(states, events, i))
    && (forall i :: 0 <= i < |events| ==> Mild(events[i]))
  }

  lemma {:induction false} EarliestDelayed(delayed: multiset<Job>) returns (first: Job)
    requires delayed != multiset{}
    ensures first in delayed && forall k :: k in delayed ==> first.due <= k.due
    decreases |delayed|
  {
    var j :| j in delayed;
    var rest := delayed[j := 0];
    assert forall k :: k in delayed <==> k in rest || k == j;
    first := j;
    if rest != multiset{} {
      assert delayed == rest + multiset{j}[j := delayed[j]];
      var best := EarliestDelayed(rest);
      if best.due < j.due {
        first := best;
      }
    }
  }

  /** A queued job can be handed over. */
  lemma QueuedCanGo(s: State)
    requires Inv(s) && s.queue != multiset{}
    ensures exists e :: Possible(s, e) && Effective(s, e)
  {
    InvIsConsistent(s);
    var j := TopOfQueue(s.queue);
    var e := DispatchEvent(j, Some(9000), Accepted, {});
    assert Possible(s, e) && Effective(s, e);
  }

  /** d is possible, and after it a step that moves a job. */
  ghost predicate ThenMoves(s: State, d: Event, e: Event)
  {
    Possible(s, d) && Possible(Step(s, d), e) && Effective(Step(s, d), e)
  }

  /** A delayed job can be released, once it is time. */
  lemma DelayedCanGo(s: State)
    requires Inv(s) && s.delayed != multiset{}
    ensures exists d, e :: ThenMoves(s, d, e)
  {
    InvIsConsistent(s);
    var j := EarliestDelayed(s.delayed);
    assert ThenMoves(s, TimePasses(if s.now <= j.due then j.due else s.now), ReleaseEvent(j));
  }

  /** A running job can be reported, if need be after one message that a cancellation swallows. */
  lemma RunningCanGo(s: State, j: Job)
    requires Inv(s) && j in s.jobs && InRunning(s, j)
    ensures exists e :: Possible(s, e) && (Effective(s, e) || ThenMoves(s, e, e))
  {
    InvIsConsistent(s);
    var e := CallbackEvent(j.id, true, {});
    assert Possible(s, e) && (Effective(s, e) || ThenMoves(s, e, e));
  }

  lemma OneStep(s: State, e: Event)
    requires Possible(s, e)
    ensures GoesOn(s, [s, Step(s, e)], [e])
  {
    hide Enabled, Consistent, FreshId, Step, Mild;
    assert MovesAt([s, Step(s, e)], [e], 0);
  }

  lemma GoesFurther(s: State, a: seq<State>, d: seq<Event>, b: seq<State>, e: seq<Event>)
    requires GoesOn(s, a, d) && GoesOn(a[|d|], b, e)
    ensures GoesOn(s, a + b[1..], d + e) && (a + b[1..])[|d + e|] == b[|e|]
  {
    hide Moves, Mild;
    var states, events := a + b[1..], d + e;
    forall i | 0 <= i < |events|
      ensures MovesAt(states, events, i) && Mild(events[i])
    {
      if i < |d| {
        assert states[i] == a[i] && states[i + 1] == a[i + 1] && events[i] == d[i];
        assert MovesAt(a, d, i) && Mild(d[i]);
      } else {
        var k := i - |d|;
        assert states[i] == b[k] && states[i + 1] == b[k + 1] && events[i] == e[k];
        assert MovesAt(b, e, k) && Mild(e[k]);
      }
    }
  }

  /** A run on from s of one or two steps, the last of which moves a job. */
  ghost predicate MovesSoon(s: State, states: seq<State>, events: seq<Event>)
  {
    GoesOn(s, states, events) && 1 <= |events| <= 2 && Effective(states[|events| - 1], events[|events| - 1])
  }

  lemma OneMoves(s: State, e: Event)
    requires Possible(s, e) && Effective(s, e)
    ensures MovesSoon(s, [s, Step(s, e)], [e])
  {
    hide Effective, GoesOn, Step;
    OneStep(s, e);
  }

  lemma TwoMove(s: State, d: Event, e: Event)
    requires ThenMoves(s, d, e)
    ensures exists states, events :: MovesSoon(s, states, events)
  {
    hide Enabled, Consistent, FreshId, Mild, Effective, GoesOn, Step;
    var a, b := [s, Step(s, d)], [Step(s, d), Step(Step(s, d), e)];
    OneStep(s, d);
    OneStep(Step(s, d), e);
    GoesFurther(s, a, [d], b, [e]);
    var states, events := a + b[1..], [d] + [e];
    assert states[1] == a[1] && events[1] == e;
    assert MovesSoon(s, states, events);
  }

  /** A scheduler that is not at rest can do something: one or two steps, the last of which moves a job. */
  lemma NotAtRestMoves(s: State)
    requires Inv(s) && !Quiescent(s)
    ensures exists states, events :: MovesSoon(s, states, events)
  {
    hide Inv, Possible, Effective, ThenMoves, MovesSoon, Enabled, Consistent, FreshId, Step;
    if s.queue != multiset{} {
      QueuedCanGo(s);
      var e :| Possible(s, e) && Effective(s, e);
      OneMoves(s, e);
    } else if s.delayed != multiset{} {
      DelayedCanGo(s);
      var d, e :| ThenMoves(s, d, e);
      TwoMove(s, d, e);
    } else {
      var j :| j in s.jobs && InRunning(s, j);
      RunningCanGo(s, j);
      var e :| Possible(s, e) && (Effective(s, e) || ThenMoves(s, e, e));
      if Effective(s, e) {
        OneMoves(s, e);
      } else {
        TwoMove(s, e, e);
      }
    }
  }

  /** js are the jobs of a state in order, and at most `limit` units of work are left for them. */
  ghost predicate Left(s: State, js: seq<Job>, limit: int)
  {
    Inv(s) && Roster(s, js) && Total(s, js) <= limit
  }

  /** Such steps only ever take work away. */
  lemma {:induction false} WorkGoesDown(s: State, states: seq<State>, events: seq<Event>, js: seq<Job>, n: nat)
    requires Inv(s) && GoesOn(s, states, events) && Roster(s, js) && n < |states|
    ensures Left(states[n], js, Total(s, js) - if n > 0 && Effective(states[n - 1], events[n - 1]) then 1 else 0)
  {
    hide Inv, Moves, Effective, Roster, Total, Benign;
    if n > 0 {
      WorkGoesDown(s, states, events, js, n - 1);
      assert MovesAt(states, events, n - 1) && Mild(events[n - 1]);
      MoveWeights(states[n - 1], events[n - 1], states[n]);
      WorkStep(states[n - 1], events[n - 1], states[n], js);
      assert js + [] == js;
    }
  }

  /** A run on from s that ends at rest, of at most `limit` steps. */
  ghost predicate Rests(s: State, states: seq<State>, events: seq<Event>, limit: int)
  {
    GoesOn(s, states, events) && Quiescent(states[|events|]) && |events| <= limit
  }

  /** From any state of any run the scheduler can come to rest, within two steps for each unit of work left. */
  lemma {:induction false} CanRest(s: State, js: seq<Job>)
    requires Inv(s) && Roster(s, js)
    ensures exists states, events :: Rests(s, states, events, 2 * Total(s, js))
    decreases Total(s, js)
  {
    TotalIsNat(s, js);
    if Quiescent(s) {
      assert GoesOn(s, [s], []);
      assert Rests(s, [s], [], 2 * Total(s, js));
    } else {
      NotAtRestMoves(s);
      var a, d :| MovesSoon(s, a, d);
      WorkGoesDown(s, a, d, js, |d|);
      hide Inv, Quiescent, Roster, Total, GoesOn, Effective;
      TotalIsNat(a[|d|], js);
      CanRest(a[|d|], js);
      var b, e :| Rests(a[|d|], b, e, 2 * Total(a[|d|], js));
      GoesFurther(s, a, d, b, e);
      assert Rests(s, a + b[1..], d + e, 2 * Total(s, js));
    }
  }

  ghost function AsDagEvents(events: seq<Event>): (r: seq<DagEvent>)
    ensures |r| == |events| && forall i :: 0 <= i < |r| ==> r[i] == Other(events[i])
  {
    seq(|events|, i requires 0 <= i < |events| => Other(events[i]))
  }

  lemma DagGoesOn(states: seq<State>, events: seq<DagEvent>, more: seq<State>, later: seq<Event>)
    requires DagRun(states, events) && GoesOn(states[|events|], more, later)
    requires forall k :: 0 <= k < |events| ==> GoodEvent(events[k])
    ensures var all := events + AsDagEvents(later);
      DagRun(states + more[1..], all) && forall k :: 0 <= k < |all| ==> GoodEvent(all[k])
  {
    hide DagMoves, Booted, Moves, Mild, GoodEvent;
    var run, all := states + more[1..], events + AsDagEvents(later);
    forall i | 0 <= i < |all|
      ensures DagMovesAt(run, all, i) && GoodEvent(all[i])
    {
      if i < |events| {
        assert run[i] == states[i] && run[i + 1] == states[i + 1] && all[i] == events[i];
        assert DagMovesAt(states, events, i) && GoodEvent(events[i]);
      } else {
        var k := i - |events|;
        assert run[i] == more[k] && run[i + 1] == more[k + 1] && all[i] == Other(later[k]);
        assert MovesAt(more, later, k) && Mild(later[k]);
        AsDagMove(more[k], later[k], more[k + 1]);
      }
    }
  }

  lemma AsDagMove(s: State, e: Event, t: State)
    requires Moves(s, e, t) && Mild(e)
    ensures DagMoves(s, Other(e), t) && GoodEvent(Other(e))
  {
    hide Moves;
  }

  /** A run on from s, of at most `limit` steps, to where nothing waits and every job is concluded. */
  ghost predicate Concludes(s: State, more: seq<State>, later: seq<Event>, limit: int)
  {
    && Rests(s, more, later, limit) && more[|later|].waiting == map[]
    && forall j {:trigger Concluded(more[|later|], j)} :: j in more[|later|].jobs ==> Concluded(more[|later|], j)
  }

  /**
   Every run of accepted payloads can be carried on, by time passing and by workers that take
   the jobs and report them complete, until nothing waits and every job ever submitted is concluded.
   */
  lemma EverythingCanConclude(states: seq<State>, events: seq<DagEvent>, js: seq<Job>)
    requires DagRun(states, events) && Roster(states[|events|], js)
    requires forall k :: 0 <= k < |events| ==> GoodEvent(events[k])
    ensures exists more, later :: Concludes(states[|events|], more, later, 20 * |js|)
  {
    var n := |events|;
    DagRunKeeps(states, events, n);
    hide DagRun, Inv, Roster, Quiescent, GoodEvent, GoesOn;
    CanRest(states[n], js);
    BootTotal(states[n], js);
    var more, later :| Rests(states[n], more, later, 2 * Total(states[n], js));
    GoesOnSize(states[n], more, later);
    DagGoesOn(states, events, more, later);
    var run, all := states + more[1..], events + AsDagEvents(later);
    LastOf(states, n, more, later);
    NeverDeadlocks(run, all, |all|);
    assert Concludes(states[n], more, later, 20 * |js|);
  }

  lemma GoesOnSize(s: State, states: seq<State>, events: seq<Event>)
    requires GoesOn(s, states, events)
    ensures |states| == |events| + 1 && states[0] == s
  {
  }

  lemma LastOf(states: seq<State>, n: nat, more: seq<State>, later: seq<Event>)
    requires |states| == n + 1 && |more| == |later| + 1 && more[0] == states[n]
    ensures |states + more[1..]| == n + |later| + 1 && (states + more[1..])[n + |later|] == more[|later|]
  {
  }
}
