/** The server's entrance for DAGs: parse the request, check it for cycles, submit all or nothing. */
module Server {
  import opened Prelude
  import opened Text
  import opened Jobs
  import opened Graphs
  import opened SchedulerModel
  import opened CycleCheck
  import opened DagRuns
  import opened Scheduling
  import opened Wire
  import opened Payloads

  /** A parsed job as the object the master makes of it. */
  predicate Made(p: ParsedJob, j: Job, now: int)
  {
    && j.id == p.id && j.payload == p.payload && j.priority == p.priority
    && j.due == now + p.delay && j.deps == p.deps && j.affinity == p.affinity
  }

  const LONGS := 0x1_0000_0000_0000_0000

  /** The Java long that is left of a sum or a difference. */
  function Long(n: int): (r: int)
    ensures MIN_LONG <= r <= MAX_LONG
    ensures MIN_LONG <= n <= MAX_LONG ==> r == n
  {
    (n - MIN_LONG) % LONGS + MIN_LONG
  }

  /**
   The due time of a job may wrap around, but it is only ever read by taking the clock off it again,
   which wraps it back: what is left of the delay comes out right exactly if it is a Java long.
   */
  lemma RemainingDelay(now: int, delay: int, later: int)
    requires MIN_LONG <= now <= MAX_LONG && MIN_LONG <= delay <= MAX_LONG && MIN_LONG <= later <= MAX_LONG
    ensures Long(Long(now + delay) - later) == now + delay - later <==> MIN_LONG <= now + delay - later <= MAX_LONG
  {
    var sum := now + delay;
    if sum > MAX_LONG {
      assert Long(sum) == sum - LONGS by { Around(sum, -1); }
      Around(sum - later, -1);
    } else if sum < MIN_LONG {
      assert Long(sum) == sum + LONGS by { Around(sum, 1); }
      Around(sum - later, 1);
    }
  }

  lemma Around(n: int, turns: int)
    requires -1 <= turns <= 1
    ensures Long(n + turns * LONGS) == Long(n)
  {
  }

  predicate AllMade(parsed: seq<ParsedJob>, dag: seq<Job>, now: int)
  {
    |dag| == |parsed| && forall i :: 0 <= i < |dag| ==> Made(parsed[i], dag[i], now)
  }

  predicate PrefixedNames(p: ParsedJob)
  {
    DAG_PREFIX <= p.id && forall d :: d in p.deps ==> DAG_PREFIX <= d
  }

  predicate AllPrefixed(dag: seq<Job>)
  {
    forall i :: 0 <= i < |dag| ==> DAG_PREFIX <= dag[i].id && forall d :: d in dag[i].deps ==> DAG_PREFIX <= d
  }

  lemma {:induction false} DepsArePrefixed(pieces: seq<string>)
    ensures forall d :: d in DepsOf(pieces) ==> DAG_PREFIX <= d
  {
    hide Trim, Prefix;
    if pieces != [] {
      DepsArePrefixed(pieces[..|pieces| - 1]);
    }
  }

  lemma ParsedJobIsPrefixed(line: string)
    ensures ParseDagJob(line).Some? ==> PrefixedNames(ParseDagJob(line).value)
  {
    var raw := StripFlag(Trim(line));
    var i := LastIndexOf(raw, '[');
    if i != -1 {
      var clean := Trim(RemoveChar(RemoveChar(raw[i..], '['), ']'));
      DepsArePrefixed(JavaSplit(clean, ','));
    }
    hide Trim, Prefix, DepsOf, StripFlag, ParseInt, JavaSplit, RemoveChar, LastIndexOf;
  }

  /** Every id and every parent the parser lets through carries the prefix, which no auto-scaler job has. */
  lemma {:induction false} ParsedArePrefixed(pieces: seq<string>)
    ensures forall i :: 0 <= i < |ParsePieces(pieces)| ==> PrefixedNames(ParsePieces(pieces)[i])
    ensures forall i :: 0 <= i < |ParsePieces(pieces)| ==>
      var p := ParsePieces(pieces)[i];
      "DAG-" <= p.id && forall d :: d in p.deps ==> "DAG-" <= d
  {
    hide Trim, ParseDagJob;
    if pieces != [] {
      ParsedArePrefixed(pieces[..|pieces| - 1]);
      ParsedJobIsPrefixed(Trim(pieces[|pieces| - 1]));
    }
  }

  /** So whatever the request, its jobs never wait for an auto-scaler job. */
  lemma ParsedHasNoWorkerParents(request: string, dag: seq<Job>, now: int)
    requires AllMade(ParsePayload(request), dag, now)
    ensures AllPrefixed(dag) && NoWorkerParents(dag)
  {
    ParsedArePrefixed(JavaSplit(request, ';'));
    forall i | 0 <= i < |dag|
      ensures DAG_PREFIX <= dag[i].id && (forall d :: d in dag[i].deps ==> DAG_PREFIX <= d) && NoWorkerParent(dag[i])
    {
      assert Made(ParsePayload(request)[i], dag[i], now);
      assert PrefixedNames(ParsePayload(request)[i]);
      hide ParsePayload;
      forall d | d in dag[i].deps
        ensures !IsWorkerJob(d)
      {
        assert d[0] == DAG_PREFIX[0] && DAG_PREFIX[0] != WORKER_PREFIX[0];
      }
    }
  }

  ghost predicate AllFresh(dag: seq<Job>)
    reads dag
  {
    forall i :: 0 <= i < |dag| ==> dag[i].State() == NEW_JOB_STATE
  }

  class SchedulerServer {
    const scheduler: Scheduler

    constructor (scheduler: Scheduler)
      ensures this.scheduler == scheduler
    {
      this.scheduler := scheduler;
    }

    /** The body of the parsing loop: no job for a blank or broken piece, otherwise one. */
    method ParseJob(piece: string) returns (made: seq<Job>)
      ensures AllMade(ParsePiece(piece), made, scheduler.clock) && AllFresh(made)
    {
      hide Trim, ParseDagJob;
      var jobDef := Trim(piece);
      if jobDef == "" {
        return [];
      }
      var parsed := FromDagString(jobDef);
      if parsed.None? {
        return [];
      }
      var p := parsed.value;
      var job := new Job(p.id, p.payload, p.priority, scheduler.clock + p.delay, p.deps, p.affinity);
      made := [job];
    }

    method ParseNext(jobs: seq<string>, i: nat, parsedDagJobs: seq<Job>) returns (more: seq<Job>)
      requires i < |jobs| && AllMade(ParsePieces(jobs[..i]), parsedDagJobs, scheduler.clock) && AllFresh(parsedDagJobs)
      ensures AllMade(ParsePieces(jobs[..i + 1]), more, scheduler.clock) && AllFresh(more)
    {
      hide ParsePiece, Made;
      assert jobs[..i + 1][..i] == jobs[..i];
      var made := ParseJob(jobs[i]);
      more := parsedDagJobs + made;
    }

    method ParseDag(request: string) returns (parsedDagJobs: seq<Job>)
      ensures AllMade(ParsePayload(request), parsedDagJobs, scheduler.clock) && AllFresh(parsedDagJobs)
      ensures |parsedDagJobs| == |ParsePayload(request)|
      ensures forall i :: 0 <= i < |parsedDagJobs| ==>
        var p, job := ParsePayload(request)[i], parsedDagJobs[i];
        && job.id == p.id && job.payload == p.payload && job.priority == p.priority
        && job.due == scheduler.clock + p.delay && job.deps == p.deps && job.affinity == p.affinity
        && job.status == PENDING && job.retries == 0 && job.satisfied == {} && job.preferred == None
    {
      var jobs := JavaSplit(request, ';');
      parsedDagJobs := [];
      for i := 0 to |jobs|
        invariant AllMade(ParsePieces(jobs[..i]), parsedDagJobs, scheduler.clock) && AllFresh(parsedDagJobs)
      {
        parsedDagJobs := ParseNext(jobs, i, parsedDagJobs);
      }
      assert jobs[..|jobs|] == jobs;
    }

    method SubmitAll(dag: seq<Job>)
      requires scheduler.Valid() && AllFresh(dag)
      modifies scheduler
      ensures scheduler.Valid() && scheduler.Model() == AdmitAll(old(scheduler.Model()), dag)
      ensures forall i :: 0 <= i < |dag| ==> dag[i] in scheduler.jobs && dag[i].id in scheduler.redis.active
    {
      ghost var s := scheduler.Model();
      for i := 0 to |dag|
        invariant scheduler.Valid() && AllFresh(dag) && scheduler.Model() == AdmitAll(s, dag[..i])
        invariant forall k :: 0 <= k < i ==> dag[k] in scheduler.jobs && dag[k].id in scheduler.redis.active
      {
        scheduler.SubmitJob(dag[i]);
        assert dag[..i + 1][..i] == dag[..i];
      }
      assert dag[..|dag|] == dag;
    }

    /** parseAndSubmitDAG: the payload is refused whole, exactly when its jobs depend on each other in a circle. */
    method ParseAndSubmitDag(request: string) returns (accepted: bool, dag: seq<Job>)
      requires scheduler.Valid()
      modifies scheduler
      ensures scheduler.Valid() && scheduler.Model() == SubmitPayload(old(scheduler.Model()), dag)
      ensures AllMade(ParsePayload(request), dag, old(scheduler.clock))
      ensures AllPrefixed(dag) && NoWorkerParents(dag)
      ensures accepted <==> !Cyclic(PayloadGraph(dag))
      ensures !accepted ==> scheduler.Model() == old(scheduler.Model())
      ensures accepted ==>
        forall i :: 0 <= i < |dag| ==> dag[i] in scheduler.jobs && dag[i].id in scheduler.redis.active
    {
      dag := ParseDag(request);
      ParsedHasNoWorkerParents(request, dag, scheduler.clock);
      var cyclic := DetectCycle(dag);
      accepted := !cyclic;
      if accepted {
        SubmitAll(dag);
      }
    }
  }

  lemma MadeIsNamed(jobs: seq<SdkJob>, dag: seq<Job>, now: int)
    requires AllMade(AllIntended(jobs), dag, now)
    ensures Named(jobs, dag)
  {
    hide Trim, Header, Content;
    forall i | 0 <= i < |dag|
      ensures dag[i].id == Prefix(jobs[i].id) && dag[i].deps == PrefixAll(jobs[i].parents)
    {
      assert Made(AllIntended(jobs)[i], dag[i], now);
      assert AllIntended(jobs)[i] == Intended(jobs[i]);
    }
  }

  /** A DAG sent by the SDK arrives job by job as it was written, every name prefixed. */
  lemma ArrivesAsWritten(jobs: seq<SdkJob>, dag: seq<Job>, now: int)
    requires forall k :: 0 <= k < |jobs| ==> Sendable(jobs[k])
    requires AllMade(ParsePayload(PrintDag(jobs)), dag, now)
    ensures AllMade(AllIntended(jobs), dag, now) && Named(jobs, dag)
  {
    PayloadRoundTrip(jobs);
    hide *;
    MadeIsNamed(jobs, dag, now);
  }

  /**
   From the author to the verdict: a DAG sent by the SDK arrives as it was written, and is
   refused exactly when the author's own graph has a cycle.
   */
  lemma ServerDecides(jobs: seq<SdkJob>, dag: seq<Job>, now: int)
    requires forall k :: 0 <= k < |jobs| ==> Sendable(jobs[k])
    requires NoClash(jobs) && AllMade(ParsePayload(PrintDag(jobs)), dag, now)
    ensures AllMade(AllIntended(jobs), dag, now)
    ensures Cyclic(PayloadGraph(dag)) <==> Cyclic(SdkGraph(jobs))
  {
    ArrivesAsWritten(jobs, dag, now);
    hide PrintDag, ParsePayload, Sendable, Named, NoClash, Cyclic, SdkGraph, PayloadGraph, AllMade;
    GraphSurvives(jobs, dag);
  }
}
