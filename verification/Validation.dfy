/** The dashboard's second look at job statuses: nothing is complete before its parents are. */
module Validation {
  import opened Prelude

  type Statuses = map<string, string>
  type Deps = map<string, seq<string>>

  function ParentsOf(deps: Deps, id: string): seq<string>
  {
    if id in deps then deps[id] else []
  }

  function StatusOf(statuses: Statuses, id: string): string
  {
    if id in statuses then statuses[id] else "WAITING"
  }

  /** RUNNING and FAILED are reported by workers in the current run; they are never questioned. */
  predicate Certain(status: string)
  {
    status == "RUNNING" || status == "FAILED"
  }

  ghost function Completed(statuses: Statuses): set<string>
  {
    set id | id in statuses && statuses[id] == "COMPLETED"
  }

  ghost predicate Closed(deps: Deps, ids: set<string>)
  {
    forall id, d :: id in ids && d in ParentsOf(deps, id) ==> d in ids
  }

  ghost predicate Tenable(statuses: Statuses, deps: Deps, ids: set<string>)
  {
    ids <= Completed(statuses) && Closed(deps, ids)
  }

  /** The jobs in some dependency-closed set of completed jobs. */
  ghost function Kept(statuses: Statuses, deps: Deps): set<string>
  {
    set id | id in statuses && exists ids :: Tenable(statuses, deps, ids) && id in ids
  }

  /** ... which make up the largest such set. */
  lemma KeptIsGreatest(statuses: Statuses, deps: Deps)
    ensures Tenable(statuses, deps, Kept(statuses, deps))
    ensures forall ids :: Tenable(statuses, deps, ids) ==> ids <= Kept(statuses, deps)
  {
    var kept := Kept(statuses, deps);
    forall id, d | id in kept && d in ParentsOf(deps, id)
      ensures d in kept
    {
      var ids :| Tenable(statuses, deps, ids) && id in ids;
      assert d in ids;
    }
  }

  ghost predicate AllKept(statuses: Statuses, deps: Deps, id: string)
  {
    forall d :: d in ParentsOf(deps, id) ==> d in Kept(statuses, deps)
  }

  /** A doubtful job whose parents are not all kept is reset; all else stays. */
  ghost function Verdict(statuses: Statuses, deps: Deps, id: string): string
    requires id in statuses
  {
    if Certain(statuses[id]) || AllKept(statuses, deps, id) then statuses[id] else "WAITING"
  }

  ghost function Validated(statuses: Statuses, deps: Deps): Statuses
  {
    map id | id in statuses :: Verdict(statuses, deps, id)
  }

  /** The completed jobs of the outcome are exactly the largest dependency-closed set of completed jobs. */
  lemma ValidatedIsKept(statuses: Statuses, deps: Deps)
    ensures Completed(Validated(statuses, deps)) == Kept(statuses, deps)
  {
    KeptIsGreatest(statuses, deps);
    var kept, out := Kept(statuses, deps), Validated(statuses, deps);
    forall id | id in kept
      ensures id in Completed(out)
    {
      assert AllKept(statuses, deps, id);
    }
    assert Tenable(statuses, deps, kept + Completed(out));
  }

  /** Looking again changes nothing. */
  lemma ValidatedTwice(statuses: Statuses, deps: Deps)
    ensures Validated(Validated(statuses, deps), deps) == Validated(statuses, deps)
  {
    var out := Validated(statuses, deps);
    ValidatedIsKept(statuses, deps);
    KeptIsGreatest(statuses, deps);
    KeptIsGreatest(out, deps);
    assert Tenable(out, deps, Kept(statuses, deps));
    assert Kept(out, deps) == Kept(statuses, deps);
    forall id | id in statuses
      ensures Verdict(out, deps, id) == out[id]
    {
      assert AllKept(out, deps, id) <==> AllKept(statuses, deps, id);
    }
  }

  // ----- the loop -----

  ghost function NonWaiting(statuses: Statuses): set<string>
  {
    set id | id in statuses && statuses[id] != "WAITING"
  }

  /** Between the initial statuses and the outcome. */
  ghost predicate OnTheWay(start: Statuses, deps: Deps, now: Statuses)
  {
    && now.Keys == start.Keys
    && (forall id :: id in start ==>
          now[id] == start[id] || (now[id] == "WAITING" == Verdict(start, deps, id) && !Certain(start[id])))
  }

  predicate Stable(now: Statuses, deps: Deps, id: string)
  {
    id in now && (Certain(now[id]) || now[id] == "WAITING" ||
      forall d :: d in ParentsOf(deps, id) ==> StatusOf(now, d) == "COMPLETED")
  }

  lemma KeptStays(start: Statuses, deps: Deps, now: Statuses, d: string)
    requires OnTheWay(start, deps, now)
    ensures d in Kept(start, deps) ==> StatusOf(now, d) == "COMPLETED"
  {
    KeptIsGreatest(start, deps);
    if d in Kept(start, deps) {
      assert AllKept(start, deps, d);
    }
  }

  lemma OnlyDoubtfulReset(start: Statuses, deps: Deps, now: Statuses, id: string, d: string)
    requires OnTheWay(start, deps, now) && id in now && !Certain(now[id]) && now[id] != "WAITING"
    requires d in ParentsOf(deps, id) && StatusOf(now, d) != "COMPLETED"
    ensures OnTheWay(start, deps, now[id := "WAITING"])
    ensures NonWaiting(now[id := "WAITING"]) < NonWaiting(now)
  {
    KeptStays(start, deps, now, d);
    assert !AllKept(start, deps, id);
    assert id in NonWaiting(now) && id !in NonWaiting(now[id := "WAITING"]);
  }

  lemma SettledIsValidated(start: Statuses, deps: Deps, now: Statuses)
    requires OnTheWay(start, deps, now) && forall id :: id in now ==> Stable(now, deps, id)
    ensures now == Validated(start, deps)
  {
    KeptIsGreatest(start, deps);
    assert Tenable(start, deps, Completed(now)) by {
      forall id, d | id in Completed(now) && d in ParentsOf(deps, id)
        ensures d in Completed(now)
      {
        assert Stable(now, deps, id);
      }
    }
    forall id | id in start
      ensures now[id] == Verdict(start, deps, id)
    {
      assert Stable(now, deps, id);
      assert forall d :: StatusOf(now, d) == "COMPLETED" ==> d in Completed(now);
    }
  }

  /**
   The outcome in plain terms: a running or failed job keeps its status; any other is WAITING exactly
   if it was before, or if one of its listed parents does not come out COMPLETED.
   */
  lemma ValidatedSettles(statuses: Statuses, deps: Deps, now: Statuses)
    requires now == Validated(statuses, deps)
    ensures now.Keys == statuses.Keys
    ensures forall id :: id in statuses ==> now[id] == statuses[id] || now[id] == "WAITING"
    ensures forall id :: id in statuses && (statuses[id] == "RUNNING" || statuses[id] == "FAILED") ==>
      now[id] == statuses[id]
    ensures forall id :: id in statuses && statuses[id] != "RUNNING" && statuses[id] != "FAILED" ==>
      (now[id] == "WAITING" <==>
        statuses[id] == "WAITING" || (id in deps && exists d :: d in deps[id] && !(d in now && now[d] == "COMPLETED")))
  {
    ValidatedIsKept(statuses, deps);
    forall id | id in statuses
      ensures AllKept(statuses, deps, id) <==>
        !(id in deps && exists d :: d in deps[id] && !(d in now && now[d] == "COMPLETED"))
    {
      assert forall d :: d in Kept(statuses, deps) <==> d in now && now[d] == "COMPLETED";
    }
  }

  /** One job in one pass. */
  method CheckJob(now0: Statuses, deps: Deps, id: string, ghost start: Statuses) returns (now: Statuses, reset: bool)
    requires OnTheWay(start, deps, now0) && id in now0
    ensures now0[id] == "RUNNING" || now0[id] == "FAILED" || now0[id] == "WAITING" ==> now == now0 && !reset
    ensures now0[id] != "RUNNING" && now0[id] != "FAILED" && now0[id] != "WAITING" ==>
      if id in deps && exists d :: d in deps[id] && !(d in now0 && now0[d] == "COMPLETED") then
        now == now0[id := "WAITING"] && reset
      else now == now0 && !reset
    ensures OnTheWay(start, deps, now)
    ensures !reset ==> now == now0 && Stable(now, deps, id)
    ensures reset ==> NonWaiting(now) < NonWaiting(now0)
  {
    now, reset := now0, false;
    if Certain(now[id]) {
      return;
    }
    var parents := ParentsOf(deps, id);
    for i := 0 to |parents|
      invariant forall k :: 0 <= k < i ==> StatusOf(now, parents[k]) == "COMPLETED"
    {
      if StatusOf(now, parents[i]) != "COMPLETED" {
        if now[id] != "WAITING" {
          OnlyDoubtfulReset(start, deps, now, id, parents[i]);
          now := now[id := "WAITING"];
          reset := true;
        }
        return;
      }
    }
  }

  /**
   The validation pass, repeated until nothing changes. It terminates on any graph, and the
   outcome does not depend on the order in which the jobs are visited.
   */
  method Validate(statuses: Statuses, deps: Deps, order: seq<string>) returns (now: Statuses)
    requires forall id :: id in order <==> id in statuses
    ensures now == Validated(statuses, deps)
    ensures now.Keys == statuses.Keys
    ensures forall id :: id in statuses ==> now[id] == statuses[id] || now[id] == "WAITING"
    ensures forall id :: id in statuses && (statuses[id] == "RUNNING" || statuses[id] == "FAILED") ==>
      now[id] == statuses[id]
    ensures forall id :: id in statuses && statuses[id] != "RUNNING" && statuses[id] != "FAILED" ==>
      (now[id] == "WAITING" <==>
        statuses[id] == "WAITING" || (id in deps && exists d :: d in deps[id] && !(d in now && now[d] == "COMPLETED")))
  {
    now := statuses;
    var changed := true;
    while changed
      invariant OnTheWay(statuses, deps, now)
      invariant !changed ==> forall id :: id in now ==> Stable(now, deps, id)
      decreases |NonWaiting(now)|, changed
    {
      changed := false;
      ghost var before := now;
      for i := 0 to |order|
        invariant OnTheWay(statuses, deps, now)
        invariant !changed ==> now == before && forall k :: 0 <= k < i ==> Stable(now, deps, order[k])
        invariant changed ==> NonWaiting(now) < NonWaiting(before)
      {
        var reset;
        now, reset := CheckJob(now, deps, order[i], statuses);
        changed := changed || reset;
      }
      if changed {
        SubsetBySize(NonWaiting(now), NonWaiting(before));
      }
    }
    SettledIsValidated(statuses, deps, now);
    ValidatedSettles(statuses, deps, now);
  }
}
