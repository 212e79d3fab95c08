# Titan: a verified model of the job scheduler and its wire formats

Titan is a distributed job scheduler. A master keeps jobs in a task queue, a delay queue, a
waiting room for jobs whose parents have not finished, and a table of running jobs; it hands
jobs to workers, which report back by callbacks; it writes enough to a Redis store to come
back after a crash. Jobs arrive one by one or as DAGs, printed by a Python SDK or a dashboard,
parsed by the Java master. A DAG may hold human-in-the-loop gates: jobs that wait for an
operator's approval.

This project models the parts of Titan whose correctness spans several functions, and proves
what they are for. It is plain Dafny; `dafny verify dfyconfig.toml` checks all of it.

## How it is organised

- **The scheduler.** `SchedulerModel.dfy` holds one function per handler, from state to state;
  `Scheduling.dfy` holds the class with the fields the master updates in place, and proves that
  each method, loop and recursion takes exactly the step of its function. `Invariants.dfy`
  proves what every step keeps, for arbitrary callbacks, replies and cancellations; `Outcomes.dfy`
  says what each event comes to, for the job it concerns and for all others, without a word about
  the functions that define it; `Runs.dfy`, `Finality.dfy`, `Liveness.dfy`, `WaitingRoom.dfy`, `DagRuns.dfy`, `Work.dfy`, `Progress.dfy`
  and `Recovery.dfy` draw the conclusions about whole runs: order, bounded retries and bounded
  work, conservation, when a completion is final, freedom from deadlock, progress to the end,
  and what a restart brings back. `Witnesses.dfy` holds concrete histories of what goes wrong
  when a parent is outside the payload, late, named twice, or abandoned. Around it: `Jobs.dfy`, `Graphs.dfy`, `CycleCheck.dfy` (Kahn's
  algorithm), `Workers.dfy`, `Server.dfy`.
- **The wire.** `Text.dfy` has the string operations of Java and Python that matter; `Wire.dfy`
  a DAG job as the SDK prints and the master parses it; `Payloads.dfy` a whole DAG and its graph;
  `Requirements.dfy` the search for the capability a job asks for; `Callbacks.dfy` a worker's
  report.
- **Gates.** `Gates.dfy` is the rewriting of a DAG, in the SDK's and the dashboard's version,
  exactly when the two send the same text, and what the dashboard's amounts to; `GatedWire.dfy`
  when a gated DAG survives the wire; `Launch.dfy` how a gate's arguments reach its process;
  `HitlGate.dfy` the polling script, the operator, all gates and the scheduler as one system;
  `Approval.dfy` the guarantees from end to end, and `SharedKeys.dfy` where they fail.
- **The dashboard.** `Validation.dfy` (status repair), `Levels.dfy` and `Layout.dfy` (drawing).
- **Streams.** `Resp.dfy` and `Adapter.dfy` (the Redis protocol), `Framing.dfy` (Titan's own).

A handler of the master is one atomic step; a dispatch includes the worker's immediate reply.
A job's id is used once per run and was not cancelled before (`FreshId`). Replies, callbacks
and cancellations are otherwise arbitrary: late, repeated, contradictory or for unknown ids.
`Log` in the state records what has ever happened; the program keeps no such record, the
statements need it.

## Where the code and its documentation differ

The model follows the code. The documentation of `cancelJob` promises to cancel a job
"regardless of its current state" and to mark queued jobs CANCELLED; the code leaves a delayed
job to run, and a queued one with its status and the answer NOT_FOUND (`Witnesses.CancelReaches`
says exactly what it reaches). The cycle check is there "to prevent deadlock"; it does if every
parent is named once and is in the payload or still held by the scheduler
(`DagRuns.NeverDeadlocks`), not across payloads (`Witnesses.TwoPayloadsDeadlock`), not for a
parent already completed (`Witnesses.LateChildWaits`), and not for a parent named twice, whose
child never runs (`Witnesses.RepeatedParentWaits`, `Runs.RepeatedParentNeverRuns`). Recovery is
to ensure continuity; it restores a job without its parents, so dependency order holds between
restarts, and it restores jobs a cascade killed. A completion reported by callback takes the job
out of `runningJobs` and is final (`Finality.CompletionIsFinal`); one in the worker's own answer
leaves the job there, and then one failed verdict takes it back: the job is queued again
although the store no longer lists it, or, with its retries used up, dies and takes along what
waits for it (`Finality.CompletionTakenBack`; `Finality.DisturbedExactly` says which steps can
do this). The dashboard takes only the word "service" for a service, in any case, and knows no
archives; the SDK takes SERVICE and DEPLOY_PAYLOAD, in capitals (`Gates.SameLine`). A gate is to
wait for its own approval, and a stale decision is cleared first; but the worker cuts a gate's
arguments at spaces, so a gate behind a job with a space in its name asks for the decision of
the gate named by the first word, which nobody cleared and which another gate may own
(`Launch.GatePolls`, `SharedKeys.TwoGatesOneKey`); an approval found there opens it
(`SharedKeys.SpaceOpensGate`). For names without a space the promise holds
(`Approval.SentDagNeedsApproval`).

## Model

| member | source | states |
|---|---|---|
| Graphs.StuckSetIsCyclic | src/main/java/titan/network/SchedulerServer.java:263-307 | a finite non-empty set of jobs each depending on a member of the set holds a dependency cycle; the reason why a rejected payload really has one |
| Graphs.RankedIsAcyclic | src/main/java/titan/network/SchedulerServer.java:263-307 | a ranking that falls along every dependency rules cycles out; the reason why an accepted payload has none |
| CycleCheck.AddParent | src/main/java/titan/network/SchedulerServer.java:271-283 | one parent of one job: nothing if the payload does not know it, otherwise exactly one more edge, counted in both tables |
| CycleCheck.BuildEdges | src/main/java/titan/network/SchedulerServer.java:264-283 | both tables have exactly the ids of the payload, and there is an edge from parent to child exactly when the dependency graph restricted to the payload has it, whatever is repeated or unknown |
| CycleCheck.Relax | src/main/java/titan/network/SchedulerServer.java:297-302 | each in-degree falls by the number of edges from the node taken, and the queue gains exactly the nodes whose in-degree thereby reaches zero |
| CycleCheck.Drain | src/main/java/titan/network/SchedulerServer.java:285-303 | the loop ends, and has counted all nodes exactly if the edges hold no cycle |
| CycleCheck.DetectCycle | src/main/java/titan/network/SchedulerServer.java:263-307 | true exactly when the dependency graph of the payload, restricted to its own jobs, has a cycle; for every list, with repeated parents, self-loops, repeated ids and unknown parents |
| CycleCheck.KahnDecides | src/main/java/titan/network/SchedulerServer.java:304-307 | when the queue runs dry, either every node was counted after all its parents, or the uncounted ones all wait for one another |
| Jobs.ReadyMeansAllSatisfied | src/main/java/titan/scheduler/Job.java:77-85 | readiness only counts, but a ready job has every parent satisfied; and the converse holds exactly if no parent is listed twice |
| Jobs.Job.IsReady | src/main/java/titan/scheduler/Job.java:77-79 | ready when there are no parents or as many satisfied ones as listed |
| Jobs.Job.ResolveDependencies | src/main/java/titan/scheduler/Job.java:81-85 | a parent that is listed is added to the satisfied ones; nothing else changes |
| Scheduling.Scheduler.SubmitJob | src/main/java/titan/scheduler/Scheduler.java:450-475 | the job is written to the store as pending and active, then waits for parents, for the clock, or for a worker; takes exactly the step Admit |
| Scheduling.Scheduler.ReleaseExpired | src/main/java/titan/scheduler/Scheduler.java:121-137 | the earliest delayed job, once expired, moves to the task queue |
| Scheduling.Scheduler.ChooseWorker | src/main/java/titan/scheduler/Scheduler.java:798-830 | a job of highest priority is taken, with exactly the workers capable of what its payload asks for, and the best of them |
| Scheduling.Scheduler.DispatchTo | src/main/java/titan/scheduler/Scheduler.java:808-889 | without a worker the job goes back to the queue as it was; otherwise it is handed over and the reply handled |
| Scheduling.Scheduler.RunDispatchTurn | src/main/java/titan/scheduler/Scheduler.java:795-891 | one turn of the dispatch loop takes exactly the step Dispatch for the head of the queue and the selected worker: nobody only if every capable worker is full, the preferred one if it is capable and has room, else one of the least loaded; its load ends one higher if it accepted the job, at 99 if it called itself saturated, as it was after any other answer; no other load changes |
| Scheduling.Scheduler.HandleAnswer | src/main/java/titan/scheduler/Scheduler.java:843-888 | accepted: nothing more; finished: the job completes at once and stays in runningJobs; failed: it is taken back, and abandoned if the error forbids a retry, or else goes to failure handling; what that comes to is stated by Outcomes.RejectionIsFinal and Outcomes.ErrorIsRetried |
| Scheduling.Scheduler.HandleJobFailure | src/main/java/titan/scheduler/Scheduler.java:901-948 | cancelled jobs are dropped, auto-scaler jobs abandoned, others queued again three times and then dead, with a cascade |
| Scheduling.Scheduler.CancelJob | src/main/java/titan/scheduler/Scheduler.java:961-1023 | takes exactly the step Cancel; answers CANCELLED if the job was waiting for parents or running, and NOT_FOUND also if it was only queued |
| Scheduling.Scheduler.HandleJobCallback | src/main/java/titan/scheduler/Scheduler.java:1032-1081 | a message without a second part is ignored; otherwise exactly the step Callback for its id and verdict |
| Scheduling.Scheduler.HandleVerdict | src/main/java/titan/scheduler/Scheduler.java:1041-1078 | a pending cancellation swallows the callback; an unknown id changes nothing; a job no longer held only has its history changed; otherwise completion or failure |
| Scheduling.Scheduler.CompleteJob | src/main/java/titan/scheduler/Scheduler.java:1092-1118 | marks and retires the job, pins its waiting children, then unlocks them; takes exactly the step Complete |
| Scheduling.Scheduler.PropagateAffinity | src/main/java/titan/scheduler/Scheduler.java:1163-1179 | the loop pins exactly the waiting children that want affinity and have none, and only to a registered worker |
| Scheduling.Scheduler.UnlockChildren | src/main/java/titan/scheduler/Scheduler.java:1605-1617 | the loop ticks the parent off in exactly its waiting children, and submits exactly those that become ready |
| Scheduling.Scheduler.CancelChildren | src/main/java/titan/scheduler/Scheduler.java:1626-1652 | the recursion ends on every graph, cyclic ones included, and although its iterator may return removed entries it kills exactly the waiting jobs that depend on the failed one through waiting jobs |
| Scheduling.VisitChild | src/main/java/titan/scheduler/Scheduler.java:1626-1652 | what killing one child and everything below it adds to the dead; nothing if the child is dead already |
| Scheduling.AllReached | src/main/java/titan/scheduler/Scheduler.java:1626-1652 | once every waiting child of the failed job has been visited, the dead are all of its transitive waiting dependents |
| Scheduling.Scheduler.RecoverState | src/main/java/titan/scheduler/Scheduler.java:722-785 | each active id with a whole record that is not over becomes one new job, queued or delayed; every other id is removed from the active set |
| Scheduling.ReachableIsKnown | src/main/java/titan/scheduler/Scheduler.java:450-475 | what the handlers assume of queue, waiting room and running jobs holds in every state of every run |
| Invariants.StepKeeps | src/main/java/titan/scheduler/Scheduler.java:450-1118 | every step, for any callback, cancellation or reply whatever, keeps: one place per job, retries paid for by hand-overs, ready means parents completed and time come, store and logs agree, pins justified |
| Invariants.InvIsConsistent | src/main/java/titan/scheduler/Scheduler.java:450-1118 | in such a state every event that can occur has a defined step |
| Runs.InitBoots | src/main/java/titan/scheduler/Scheduler.java:97-120 | an empty scheduler is a start of runs |
| Invariants.SubmittedOk | src/main/java/titan/scheduler/Scheduler.java:450-475 | a freshly submitted job satisfies all of that |
| Invariants.UnlockKeeps | src/main/java/titan/scheduler/Scheduler.java:1605-1617 | unlocking the children of a completed job keeps it |
| Invariants.WithdrawKeeps | src/main/java/titan/scheduler/Scheduler.java:961-1023 | a cancellation keeps it |
| Runs.DependencyOrder | src/main/java/titan/scheduler/Scheduler.java:1605-1617 | in every run, when a job is handed to a worker each of its parents was reported complete by an earlier step, its scheduled time has come, and nothing of higher priority is queued |
| Runs.CompletionReleases | src/main/java/titan/scheduler/Scheduler.java:1092-1118 | a completion ticks the parent off in each waiting child, pins the child if it wants affinity and the worker is still registered, and releases it, to the queue or the clock, exactly if it is ready now |
| Runs.CompletionHasStep | src/main/java/titan/scheduler/Scheduler.java:1092-1118 | a completion on record was reported by a step of the run |
| Runs.NothingRunsBelowIncomplete | src/main/java/titan/scheduler/Scheduler.java:1626-1652 | no transitive dependent of a job that never completed - dead, abandoned, cancelled or still under way - was ever handed to a worker |
| Runs.AtMostFourHandOvers | src/main/java/titan/scheduler/Scheduler.java:901-948 | no job is handed to a worker more than 1 + 3 times, however callbacks are repeated or delayed |
| Runs.CounterIsExact | src/main/java/titan/scheduler/Scheduler.java:830-841 | the hand-over counter of a job is the number of hand-overs in the run |
| Runs.NoJobLostOrDuplicated | src/main/java/titan/scheduler/Scheduler.java:450-475 | at any time a job is in at most one of waiting, delayed, queued, running, and if in none it is over or was cancelled; dead jobs are in the dead-letter queue |
| Runs.AffinityIsFinal | src/main/java/titan/scheduler/Scheduler.java:1163-1179 | only jobs that want affinity are pinned, to a worker that one of their parents was handed to and on which it completed, and a pin lasts to the end of the run |
| Runs.WorkerWasHanded | src/main/java/titan/scheduler/Scheduler.java:830-841 | a worker on record for a job, or for its completion, was handed that job earlier in the run |
| Runs.RepeatedCallback | src/main/java/titan/scheduler/Scheduler.java:1032-1081 | after a callback that completed a job, another one for it changes the displayed verdict and nothing else |
| Runs.RepeatedParentNeverRuns | src/main/java/titan/scheduler/Job.java:77-85 | a job that lists a parent twice is never handed to a worker, in any run |
| Outcomes.RejectionIsFinal | src/main/java/titan/scheduler/Scheduler.java:858-884 | an answer that holds "ALREADY in use" or "Deployment Rejected" leaves the job FAILED, in no queue or room, with its retries as they were; no other job, queue entry or record changes |
| Outcomes.ErrorIsRetried | src/main/java/titan/scheduler/Scheduler.java:885-948 | any other error: a cancelled id lapses with its status unchanged, a WRK- job is FAILED, one with fewer than three retries is queued again PENDING with one retry more, listed in the store as before - that is, unless it was once completed or cancelled - and one with three is DEAD, out of the store, in the dead-letter queue, together with exactly its transitive waiting dependents; nothing else changes |
| Outcomes.FailedVerdict | src/main/java/titan/scheduler/Scheduler.java:1068-1078 | a failed verdict on a running job has the same four ends |
| Outcomes.AnswerConcludes | src/main/java/titan/scheduler/Scheduler.java:843-856 | an answer that is neither an acceptance nor an error completes the job, which leaves the active set and stays in runningJobs; each waiting child is served, pinned and released if it was the last parent, and no other job, queue entry or record changes |
| Outcomes.VerdictConcludes | src/main/java/titan/scheduler/Scheduler.java:1047-1066 | a verdict of success on a running job does the same and takes it out of runningJobs; children are pinned to the worker on record |
| Outcomes.UnawaitedVerdict | src/main/java/titan/scheduler/Scheduler.java:1041-1081 | a verdict on a cancelled id only forgets the cancellation, on an unknown id does nothing, on a job no longer held only changes its displayed verdict |
| Outcomes.AcceptedRuns | src/main/java/titan/scheduler/Scheduler.java:808-848 | without a worker nothing changes; an accepted job is RUNNING on record and in the store, listed under its id with the worker, and out of the queue |
| Outcomes.SubmissionPlaces | src/main/java/titan/scheduler/Scheduler.java:450-475 | a job with parents waits for them, one without waits for its time or for a worker; its record holds payload, PENDING, priority and time, and its id is active; nothing else changes |
| Outcomes.CancelFells | src/main/java/titan/scheduler/Scheduler.java:961-1023 | for any id whatever: exactly the jobs that wait for it through waiting jobs die, every other job stays as and where it is, the delay queue included; the id is CANCELLED on record and in the store, and no longer active |
| Finality.DisturbedExactly | src/main/java/titan/scheduler/Scheduler.java:901-1081 | a step takes the completion of a job back exactly if the job is still in runningJobs and the step is a cancellation of it, or a failed verdict on it that no pending cancellation swallows |
| Finality.CompletionIsFinal | src/main/java/titan/scheduler/Scheduler.java:1032-1118 | once a completed job is out of runningJobs it stays completed and is never handed over again, in every continuation of the run |
| Finality.CalledBackIsFinal | src/main/java/titan/scheduler/Scheduler.java:1041-1078 | a completion by callback puts the job in that state |
| Finality.AnsweredIsStillListed | src/main/java/titan/scheduler/Scheduler.java:843-856 | a completion in the worker's own answer does not: the job stays in runningJobs |
| Finality.CompletionTakenBack | src/main/java/titan/scheduler/Scheduler.java:901-948 | a failed verdict on a completed job still in runningJobs queues it again with one retry less, not listed in the store, while retries are left; after that the job is dead and everything that waits for it is killed; an auto-scaler job is merely marked failed |
| Liveness.StuckExactly | src/main/java/titan/scheduler/Scheduler.java:1605-1617 | with nothing queued, delayed or running, jobs are left waiting exactly if one lists a parent twice, or has a parent that can no longer release it, or the waiting jobs wait for each other in a circle |
| WaitingRoom.StepWaits | src/main/java/titan/scheduler/Scheduler.java:1605-1652 | every step other than a submission keeps: a parent of a waiting job is still held somewhere, or completed and ticked off, or was abandoned; and it was not cancelled |
| WaitingRoom.CascadeWaits | src/main/java/titan/scheduler/Scheduler.java:1626-1652 | after a cascade no job is left waiting for one that the cascade took |
| DagRuns.GrownAcyclic | src/main/java/titan/network/SchedulerServer.java:330-338 | an accepted payload keeps the graph of everything submitted acyclic, whatever its parents outside it |
| DagRuns.PayloadKeeps | src/main/java/titan/network/SchedulerServer.java:330-338 | submitting a whole payload keeps the invariants, the promise to the waiting jobs, and the acyclic graph |
| DagRuns.WaitersAreBelowAbandoned | src/main/java/titan/network/SchedulerServer.java:330-338 | with payloads behind the cycle check, whose parents are their own jobs or still held, whoever still waits at rest depends on a job abandoned without retry |
| DagRuns.NeverDeadlocks | src/main/java/titan/network/SchedulerServer.java:330-338 | over any mix of payloads, single jobs and auto-scaler jobs, with fresh ids: if each payload passes the check and names its parents once, among its own jobs and those still held that have not completed, nobody lists an auto-scaler job as a parent and no reply forbids another job its retry, a scheduler at rest has an empty waiting room, and every job completed, died, was cancelled, or is an auto-scaler job that failed |
| Work.StepWeights | src/main/java/titan/scheduler/Scheduler.java:795-1081 | a measure over the jobs never grows and falls on every step that moves a job |
| Work.WorkIsLinear | src/main/java/titan/scheduler/Scheduler.java:795-1081 | a run over N jobs has at most 10 N steps that move a job |
| Progress.NotAtRestMoves | src/main/java/titan/scheduler/Scheduler.java:795-1081 | a scheduler with a job queued, delayed or running has a continuation of one or two steps, the last of which moves a job |
| Progress.CanRest | src/main/java/titan/scheduler/Scheduler.java:795-1081 | so from any state of any run it can come to rest, within two steps for each unit of work left |
| Progress.EverythingCanConclude | src/main/java/titan/scheduler/Scheduler.java:795-1081 | under the conditions of NeverDeadlocks every run over N jobs can be carried on, by time passing and workers that take jobs and report them complete, by at most 20 N steps to where nothing waits and every job is concluded |
| Recovery.RecoveryIsExact | src/main/java/titan/scheduler/Scheduler.java:722-785 | the jobs that come back after a crash are exactly those never reported complete, cancelled or out of retries; with the same payload and priority, due at the later of their time and now |
| Recovery.RestartInPlainTerms | src/main/java/titan/scheduler/Scheduler.java:722-785 | back are the active ids with a payload and a status other than COMPLETED and DEAD; without a priority on record it is 1; each is PENDING without parents or retries, queued if its time has come and delayed otherwise; exactly they stay active |
| Recovery.RecoveryBoots | src/main/java/titan/scheduler/Scheduler.java:722-785 | the restarted scheduler satisfies the invariants, with every restored job in exactly one place, so the theorems about runs hold from there on |
| Recovery.KilledChildComesBack | src/main/java/titan/scheduler/Scheduler.java:1626-1652 | a job killed by a cascade is still restorable, and would come back without parents |
| Witnesses.TwoPayloadsDeadlock | src/main/java/titan/network/SchedulerServer.java:317-340 | two payloads, each accepted, that name each other's jobs as parents leave both waiting for ever |
| Witnesses.LateChildWaits | src/main/java/titan/scheduler/Scheduler.java:450-475 | a child submitted after its parent completed waits for ever |
| Witnesses.AbandonedParentStrands | src/main/java/titan/scheduler/Scheduler.java:880-884 | the child of a job whose failure forbids a retry waits for ever |
| Witnesses.WorkerParentStrands | src/main/java/titan/scheduler/Scheduler.java:905-915 | and so does the child of an auto-scaler job, after any failure of it |
| Witnesses.RepeatedParentWaits | src/main/java/titan/scheduler/Job.java:77-85 | in a payload that is complete in itself and passes the check, a child that names its parent twice waits for ever after the parent completed |
| Witnesses.CancelReaches | src/main/java/titan/scheduler/Scheduler.java:961-1023 | a cancelled job is gone from everywhere but the delay queue, and is marked CANCELLED exactly if it was waiting or running |
| Workers.SelectBestWorker | src/main/java/titan/scheduler/Scheduler.java:1129-1153 | nobody exactly if everyone is saturated; the preferred worker if it is there and has room; else one of the least loaded |
| Workers.WorkerRegistry.AddWorker | src/main/java/titan/scheduler/WorkerRegistry.java:77-97 | a registration replaces the worker by an idle one with the old and the new capabilities; permanence is sticky |
| Workers.WorkerRegistry.GetWorkersByCapability | src/main/java/titan/scheduler/WorkerRegistry.java:157-161 | exactly the registered workers with the capability |
| Text.SplitJoin | src/main/java/titan/network/SchedulerServer.java:318-320 | splitting at a character undoes joining with it |
| Text.ParsePrintInt | src/main/java/titan/scheduler/Job.java:113-121 | a printed number within the range of the Java type parses back to itself |
| Wire.FromDagString | src/main/java/titan/scheduler/Job.java:87-171 | the parser as written, field by field from the outside in, equals its functional description, failures included |
| Wire.CollectDeps | src/main/java/titan/scheduler/Job.java:146-160 | the loop over the parent list: trimmed, blanks skipped, prefixed |
| Wire.ParentsRoundTrip | titan_sdk/titan_sdk.py:74-74 | the printed parent list parses to the parents, prefixed |
| Wire.JobRoundTrip | titan_sdk/titan_sdk.py:73-113 | a printed job parses back to its id and parents prefixed and its header, payload, priority, delay and affinity, though the payload itself holds pipes |
| Wire.LineFields | titan_sdk/titan_sdk.py:73-113 | the fields of a printed line in order: id, one of four commands, what goes with it, the capability without pipes or GENERAL, priority, delay, the parents in brackets, and AFFINITY if wanted |
| Wire.MiddleFields | titan_sdk/titan_sdk.py:82-111 | what goes with the command: path, arguments and port of an archived service; path and arguments of an archive; base name, code and port of a service; base name, arguments and code of a script |
| Payloads.PayloadRoundTrip | titan_sdk/titan_sdk.py:125-127 | the server reads the jobs of a printed DAG, all of them and in order |
| Payloads.PrefixClash | src/main/java/titan/scheduler/Job.java:141-141 | two names become one by prefixing exactly if one is the other with the prefix in front |
| Payloads.GraphSurvives | src/main/java/titan/network/SchedulerServer.java:317-340 | without such a clash prefixing keeps every edge, and the payload graph is cyclic exactly if the author's is |
| Payloads.ClashMakesCycle | src/main/java/titan/scheduler/Job.java:141-155 | with a clash an acyclic DAG is rejected as a cycle |
| Server.SchedulerServer.ParseDag | src/main/java/titan/network/SchedulerServer.java:317-328 | the loop makes one new job of each piece that parses, field by field, due at the clock plus its delay, and skips the rest |
| Server.SchedulerServer.SubmitAll | src/main/java/titan/network/SchedulerServer.java:335-338 | the loop admits all jobs in order |
| Server.SchedulerServer.ParseAndSubmitDag | src/main/java/titan/network/SchedulerServer.java:317-340 | the request is refused whole exactly if its jobs depend on each other in a circle, and otherwise submitted whole; none of its jobs is, or waits for, an auto-scaler job |
| Server.ParsedArePrefixed | src/main/java/titan/scheduler/Job.java:134-160 | every id and every parent that the parser lets through starts with DAG-, whatever the request |
| Server.ArrivesAsWritten | src/main/java/titan/network/SchedulerServer.java:317-328 | the jobs the server makes of what the SDK sent are those of the author, every name prefixed |
| Server.RemainingDelay | src/main/java/titan/scheduler/ScheduledJob.java:58-59 | a due time may wrap around as a Java long, but what is left of the delay comes out right exactly if it is a long itself |
| Server.ServerDecides | src/main/java/titan/network/SchedulerServer.java:317-340 | a DAG sent by the SDK arrives as it was written and is refused exactly if the author's graph has a cycle |
| Requirements.ExtractSkillRequirement | src/main/java/titan/scheduler/Scheduler.java:557-621 | the search as written, with its header search and backward scan, equals its functional description |
| Requirements.WithoutCommand | src/main/java/titan/scheduler/Scheduler.java:557-586 | no payload, or one with the marker of the auto-scaler, asks for GENERAL; without one of the four commands among the first three parts the first part is the capability, or GENERAL if that is the id |
| Requirements.LastPartCounts | src/main/java/titan/scheduler/Scheduler.java:569-621 | with a command: the last part behind it that is not the id, a bracketed list, AFFINITY or a number is the capability, and GENERAL if there is none, or it is empty, of 20 characters or more, or ends in = |
| Requirements.ScanGives | src/main/java/titan/scheduler/Scheduler.java:589-618 | the scan yields GENERAL or a part that qualifies as a capability |
| Requirements.RequirementSurvives | src/main/java/titan/scheduler/Scheduler.java:557-621 | for all four kinds of job, the capability the SDK printed is the one found after parsing exactly if it is 1 to 19 characters, not numeric, not bracketed, not AFFINITY, not the id, not ending in =, and the payload lacks the auto-scaler marker (or it is GENERAL anyway) |
| Callbacks.ExitCodeDecides | src/main/java/titan/network/RpcWorkerServer.java:528-542 | a finished script is reported COMPLETED exactly if it exited with code zero |
| Callbacks.ErrorIsRead | src/main/java/titan/network/RpcWorkerServer.java:528-547 | a null result, one that starts with ERROR, or an exception of the handler reaches the master as a failure, for every id without a pipe |
| Callbacks.PlainResultIsRead | src/main/java/titan/network/RpcWorkerServer.java:528-543 | a result that starts neither with ERROR nor with COMPLETED and a pipe reaches it as a success |
| Callbacks.CodeIsRead | src/main/java/titan/network/RpcWorkerServer.java:534-543 | of a result that starts with COMPLETED and a pipe, the text up to the next pipe decides: the master reads a failure exactly if that is a 32-bit number other than zero, blanks aside |
| Callbacks.CallbackRoundTrip | src/main/java/titan/scheduler/Scheduler.java:1034-1039 | the master reads the id and verdict that the worker sent, whatever the result text, and without one; a message without a pipe says nothing |
| Callbacks.SendCallback | src/main/java/titan/network/RpcWorkerServer.java:568-594 | no attempt for the ids UNKNOWN and TEST-JOB; otherwise at most five with doubling pauses, 15 seconds in all, fewer if a pause is interrupted; success is known exactly if an attempt made was answered, and the master may have received several |
| Gates.InjectHitlGates | titan_sdk/titan_sdk.py:131-192 | for any list, the SDK's loops produce every job with its parents re-wired, and behind each job of a gated name the first gate made for that name; without the gate script, the jobs unchanged |
| Gates.SdkInjectIsInject | titan_sdk/titan_sdk.py:182-192 | when no two jobs share a name, that is every job followed by its own gate |
| Gates.GateRightBehind | titan_sdk/titan_sdk.py:129-193 | each job comes out with hitl-gate-P for exactly those parents P that asked for a gate and is otherwise as it was; right behind it, if it asked for one, a job named hitl-gate- and its name, with its priority, it as only parent, and the script, wait and message |
| Gates.NothingElse | titan_sdk/titan_sdk.py:129-193 | every job that comes out is one of these two |
| Gates.CollectGates | titan_sdk/titan_sdk.py:157-178 | one gate per gated job, and exactly their decisions are cleared |
| Gates.DashboardSubmit | perm_files/server_dashboard.py:1619-1703 | the dashboard's two passes send a line for each job, parents re-wired, and one for each gate behind its job, formatted its own way; they answer with an error exactly if there are no jobs, the gate script is wanted and missing, or a job's script is missing, in the last case after the decisions were cleared |
| Gates.ServiceInAnyCase | perm_files/server_dashboard.py:1666-1692 | the dashboard takes a job for a service exactly if its type spells service in any mix of cases |
| Gates.DefaultWait | perm_files/server_dashboard.py:1697-1697 | a wait of zero stands for two days |
| Gates.SameCleared | perm_files/server_dashboard.py:1646-1653 | both versions clear the decisions of the same gates |
| Gates.SameLine | perm_files/server_dashboard.py:1656-1687 | the dashboard and the SDK format a job the same way exactly if it is no archive and both take it for a service or neither does |
| Gates.SameGateLine | perm_files/server_dashboard.py:1689-1698 | they format a gate the same way exactly if its waiting time is not zero and the name of its job holds no pipe |
| Gates.SameLines | perm_files/server_dashboard.py:1655-1698 | they send the same lines for a DAG exactly if they do for each job and each gate in it |
| Gates.DashboardSends | perm_files/server_dashboard.py:1655-1698 | whatever the jobs say of themselves, the lines the dashboard sends are those of an injected DAG, the one of the jobs as it takes them, exactly if no gated name holds a pipe |
| Gates.SameDag | perm_files/server_dashboard.py:1655-1698 | that DAG has the same dependencies and the same gates |
| Gates.ReachabilityKept | titan_sdk/titan_sdk.py:182-192 | gates do not change who depends on whom among the author's jobs |
| Gates.AcyclicityKept | titan_sdk/titan_sdk.py:182-192 | the gated DAG is acyclic exactly if the author's is |
| Gates.OnlyChildIsGate | titan_sdk/titan_sdk.py:182-192 | the only child of a gated job is its gate |
| Gates.DownstreamWaitsForGate | titan_sdk/titan_sdk.py:131-192 | whoever depends on a gated job depends on its gate |
| HitlGate.RunGate | perm_files/hitl_gate.py:137-181 | the script as written: a decision on record is honoured at once and nothing is written; otherwise the first turn that hears one, or comes too late, decides: APPROVED in time exits 0, REJECTED exits 1, the deadline exits 1 and writes TIMEOUT after WAITING |
| HitlGate.ProcessTurn | perm_files/hitl_gate.py:137-181 | one turn of a process among others, case by case: what it writes under its own name, where it goes, and that nothing else changes |
| HitlGate.WordIsHeard | perm_files/hitl_gate.py:162-177 | a process that polls before its deadline exits 0 on the operator's approval and 1 on the rejection, and goes on polling after a clearing |
| HitlGate.GateKeeps | perm_files/hitl_gate.py:137-181 | only the operator brings a key to APPROVED, or a process that asks for it to exit code zero; clearing the key takes the first back; an exit is for good |
| HitlGate.NothingPassesUnapproved | perm_files/hitl_gate.py:114-181 | in every run of scheduler, gate processes and operator, from any state and whatever decisions were on record, no job depending on a gate is handed over unless the operator approved under the name the gate asks for, after the key of that name was cleared for this submission; whatever the retries, timeouts, repeated callbacks and other gates on the same key. The id of the gate is new to the master, as everywhere |
| Launch.CommandWords | src/main/java/titan/tasks/ScriptExecutorHandler.java:214-221 | the worker's loop makes the words of the command line: cut at spaces, trimmed, blanks skipped |
| Launch.RunIsRead | src/main/java/titan/scheduler/Scheduler.java:1191-1426 | a payload with a script, arguments and code is taken apart by the master and put together again by the worker as the same script with the same arguments |
| Launch.CommandIsFound | src/main/java/titan/scheduler/Scheduler.java:1191-1211 | the first field of a payload is dropped exactly if one of the four commands stands behind it |
| Launch.RunFields | src/main/java/titan/scheduler/Scheduler.java:1390-1426 | with RUN_PAYLOAD in front, or behind a first field: too few fields are refused; of three the second is the script, without arguments; of more the third holds the arguments |
| Launch.MessageIsForwarded | src/main/java/titan/network/RpcWorkerServer.java:503-525 | a message goes to the executor as it is, under the id UNKNOWN if it has none, and under TEST-JOB if that is TEST |
| Launch.ScriptIsRead | src/main/java/titan/tasks/ScriptExecutorHandler.java:126-165 | the second field is the script if it ends in .py or .sh, and all that follows, pipes included, its arguments; otherwise the first, or what follows RUN_PAYLOAD, without arguments |
| Launch.GatePolls | src/main/java/titan/tasks/ScriptExecutorHandler.java:125-221 | from the printed line over the master's payload and the worker's message to the script's first argument: a gate asks under the first word of its name, which is its name exactly if the name of its job holds no space |
| SharedKeys.SpaceOpensGate | src/main/java/titan/tasks/ScriptExecutorHandler.java:214-221 | if that name holds a space, clearing the gate's key does not touch the key it asks for, and an approval found there completes the gate in three steps without any decision |
| SharedKeys.TwoGatesOneKey | src/main/java/titan/tasks/ScriptExecutorHandler.java:214-221 | jobs named a and a b can both be sent, and their gates ask under one name |
| GatedWire.GatedDagIsSendable | titan_sdk/titan_sdk.py:125-192 | when the author's jobs and the gate script get through to the server, the gated DAG does exactly if no message for the operator holds a semicolon |
| Approval.DownstreamNeedsApproval | titan_sdk/titan_sdk.py:131-192 | from the author's side: no job that depends on a gated job in the author's graph is handed over before an approval, under the name its gate asks for, that is later than the clearing of that key |
| Approval.SentDagDecides | titan_sdk/titan_sdk.py:115-192 | the server refuses the text the SDK sends exactly if the author's graph, without the gates, has a cycle |
| Approval.SentDagNeedsApproval | titan_sdk/titan_sdk.py:115-192 | from the text of the request on, and with the key that the SDK really clears: the guarantee holds for a gated job without a space in its name |
| Approval.DashboardDagDecides | perm_files/server_dashboard.py:1655-1703 | the server refuses the text the dashboard sends exactly if the author's graph has a cycle |
| Approval.DashboardDagNeedsApproval | perm_files/server_dashboard.py:1646-1703 | the guarantee of approval holds for what the dashboard sends as it does for the SDK |
| Validation.CheckJob | perm_files/server_dashboard.py:234-242 | one job in one pass: reset to WAITING exactly if it is not RUNNING, FAILED or WAITING and lists a parent that is not COMPLETED |
| Validation.Validate | perm_files/server_dashboard.py:228-242 | the repeated pass ends on every graph, with the same outcome for every order of the jobs: RUNNING and FAILED stay; any other job is WAITING exactly if it was, or lists a parent that does not come out COMPLETED, and keeps its status otherwise |
| Validation.KeptIsGreatest | perm_files/server_dashboard.py:228-242 | the union of all dependency-closed sets of completed jobs is one, and the largest |
| Validation.ValidatedIsKept | perm_files/server_dashboard.py:228-242 | the completed jobs of the outcome are exactly that largest set |
| Validation.ValidatedTwice | perm_files/server_dashboard.py:228-242 | validating again changes nothing |
| Levels.GetLevel | perm_files/server_dashboard.py:1347-1360 | the memoised recursion ends on every graph, and on an acyclic one yields the length of a longest dependency chain |
| Levels.ComputeLevels | perm_files/server_dashboard.py:1347-1362 | so does the table for all jobs |
| Levels.ParentIsLeft | perm_files/server_dashboard.py:1347-1360 | a parent's level is strictly smaller than its child's |
| Layout.PlaceJobs | perm_files/server_dashboard.py:1364-1378 | boxes of 170 by 66 pixels: each in the column of its level, 258 apart, and in some row, 84 apart; no two jobs' boxes overlap, and all lie inside the drawing with a margin of 16; for every list, repeated ids included |
| Layout.EdgesPointRight | perm_files/server_dashboard.py:1347-1378 | on an acyclic graph a parent's box ends left of its child's |
| Resp.RoundTrip | src/main/java/titan/storage/TitanJRedisAdapter.java:228-312 | reading the encoding of any nested value gives the value and leaves exactly what follows it; if there is an error reply anywhere in it, reading raises the first one with its message |
| Resp.BulkAt | src/main/java/titan/storage/TitanJRedisAdapter.java:277-292 | a bulk string is the declared number of bytes, whatever they are |
| Resp.Refusals | src/main/java/titan/storage/TitanJRedisAdapter.java:208-311 | each refusal and its exception: a stream that has ended, an unknown kind, a line that is no number in range, a length below -1, a bulk string that is not there in full |
| Resp.LengthIsHonest | src/main/java/titan/storage/TitanJRedisAdapter.java:208-217 | the length declared for an argument is its length in bytes exactly if it is ASCII |
| Resp.Utf8Bits | src/main/java/titan/storage/TitanJRedisAdapter.java:208-216 | each character as one to four bytes from which its number can be read back, as RFC 3629 has it, and the UTF-16 units Java counts for it |
| Resp.CommandIsUnderstood | src/main/java/titan/storage/TitanJRedisAdapter.java:208-217 | a command is read back as its arguments exactly if they are all ASCII |
| Adapter.RedisAdapter.ReadTheLine | src/main/java/titan/storage/TitanJRedisAdapter.java:256-267 | the loop reads up to the first carriage return or the end |
| Adapter.RedisAdapter.ReadFully | src/main/java/titan/storage/TitanJRedisAdapter.java:282-288 | the loop fills the buffer for every way the stream is cut into pieces |
| Adapter.RedisAdapter.ReadBulkString | src/main/java/titan/storage/TitanJRedisAdapter.java:277-292 | the reader takes from the stream exactly what the functional description says |
| Adapter.RedisAdapter.ReadResponseObject | src/main/java/titan/storage/TitanJRedisAdapter.java:228-247 | the same for a whole response of any kind, nested arrays and errors included |
| Adapter.RedisAdapter.ReadElements | src/main/java/titan/storage/TitanJRedisAdapter.java:308-311 | the loop over the elements of an array |
| Adapter.RedisAdapter.SendCommand | src/main/java/titan/storage/TitanJRedisAdapter.java:208-217 | the loop writes exactly the command |
| Framing.PacketRoundTrip | src/main/java/titan/network/TitanProtocol.java:193-236 | a sent packet is read back exactly if its payload is at most 10 MiB, and otherwise refused as too large |
| Framing.FrameBytes | src/main/java/titan/network/TitanProtocol.java:193-206 | version 1, the op code, two zeros, the length with its highest byte first, the payload |
| Framing.PacketBytes | src/main/java/titan/network/TitanProtocol.java:217-236 | which bytes are read as which packet, and which are refused and why |
| Framing.StreamRoundTrip | src/main/java/titan/network/TitanProtocol.java:193-236 | any sequence of packets within the limit is read back as it was, with nothing left over |
| Framing.Connection.Send | src/main/java/titan/network/TitanProtocol.java:193-206 | version, op code, two zero bytes, the length in four bytes, and the payload |
| Framing.Connection.ReadPacketHere | src/main/java/titan/network/TitanProtocol.java:217-236 | the header is read whole, then judged: version, too large, negative; then exactly the payload |
| Framing.RecvExact | titan_sdk/titan_sdk.py:565-579 | the first n bytes for every way the stream is cut; if it stops short, nothing, except that a timeout yields the part that came |
| Framing.RecvAll | perm_files/server_dashboard.py:54-61 | the first n bytes for every way the stream is cut; if it stops short, nothing or an exception |
| Framing.FrameArrives | titan_sdk/titan_sdk.py:565-579 | however the network cuts a frame and what follows it, both loops get exactly the frame |

## Left out

- Interleavings inside a handler: Java runs the handlers on several threads over concurrent maps; here each is one step, so a dispatch between the submissions of one DAG, which can strand a child as in `Witnesses.LateChildWaits`, is not a step of `DagRuns`.
- Scheduling.Scheduler.CancelChildren: the dead-letter queue is a set here; its order, and the second entry a removed job can get from a stale iterator, are not captured.
- Scheduling.Scheduler.HandleVerdict: the null pointer exception after a repeated COMPLETED callback ends the handler here as it does there, after the history has changed; what the connection thread makes of it is not modelled. A callback of success also takes one off the load of the worker on record; only the dispatch loop counts loads here, and heartbeats overwrite them.
- Scheduling.Scheduler.HandleAnswer: an exception without a message would end the dispatch loop in the program; here every failure has a message.
- Scheduling.Scheduler.SubmitJob: writes to the store succeed; a store that is down, and the keys for worker and result, are not modelled.
- Scheduling.Scheduler.RecoverState: a stored number that does not parse makes the program skip the id; the store of the model holds numbers.
- Recovery.RecoveryIsExact: the two clock readings of a restored job are one.
- Output, start and end times of executions, the recent-history deques, statistics, log streaming, and the JSON built from them: presentation.
- The services a job can deploy (`executeDeploySequence`, archives, the service map) and the auto-scaler: they depend on operating system ports and polling; any reply of theirs is a `Reply` here.
- The raw-string form of `submitJob` and the command line: they guess trailing numbers, with no specification to hold them to.
- Wire.FromDagString: digits outside ASCII, which Java's number parsing also accepts, are not digits here.
- Wire.JobRoundTrip: reading and base64-encoding the job's file; the encoded text is a field.
- HitlGate.NothingPassesUnapproved: takes from `Callbacks.ExitCodeDecides` that a worker reports a gate complete only after one of its processes exited with zero; a report of a process that had done so before the clearing (`stale`) is assumed not to arrive after it. A DAG submitted a second time under the same ids to the same master is outside, like every second use of an id.
- Launch.GatePolls: the gate's name; the waiting time and the message that follow it, and gates written by hand as other kinds of jobs, are not followed.
- Server.SchedulerServer.ParseDag: due times are the sums themselves; where Java's sum wraps, its later difference wraps back (`Server.RemainingDelay`), but the number in the store is the wrapped one.
- Gates.ReachabilityKept: about the list with each gate behind its own job; with a repeated id the SDK sends another list (`Gates.SdkInject`).
- Layout.PlaceJobs: arrows, colours and labels of the drawing are not modelled.
- Runs.NoJobLostOrDuplicated: an id is used once per run; a second submission under the id of a live job would overwrite it in the rooms.
- HitlGate.RunGate: what the script prints, and the keys for message, time and the list of gates.
- Levels.GetLevel: on a cyclic graph only termination is stated; the levels there depend on the order of the jobs.
- Resp.RoundTrip: decoding of bytes to text beyond ASCII; a text is its bytes. Lone surrogates, which Java replaces, are not strings here.
- Framing.RecvExact: opening, closing and timing of sockets; what `recv` returns is a script.
- Flask routes, HTML and JavaScript, the language-model agents and example programs: outside the scheduler.
