# A verified model of slotd's scheduler

slotd is a single-node batch scheduler: a daemon that keeps a table of jobs in a
store, starts them as processes when their dependencies and the machine allow it,
tracks the processes, enforces time limits, and picks up again after a restart.
This project models that daemon, the order of its queue, its calendar and duration
arithmetic, its array and dependency specifications and its shell quoting, and
proves what they promise.

`dafny verify dfyconfig.toml` checks everything. The results are for-all statements:
over every table, every run of the state machine, every sequence of requests,
main-loop turns and restarts, every date, every string. Where the code falls short
of what one would expect, a concrete case stands beside the exact condition.

## How it is built

- `Basics`: option and result types, the machine arithmetic (`saturating_mul`,
  `saturating_add`, `as i64`, truncating division).
- `Jobs`: the job record, the table, and each SQL statement as its effect on a row.
- `Accounting`: the count ledger (sums over RUNNING rows), the id ledger (GPU ids
  held), why they agree, and exactly what they overlook.
- `PendingOrder`: the queue order as a definition by rank within the array and head
  of the array, and the in-place algorithm (sort, group, round-robin merge) proved
  to compute it.
- `Scheduling`: dependencies, blocking reasons, the restart loop of the scheduling
  pass, its maximality, and its refinement to one greedy scan.
- `Lifecycle`: the daemon as a state machine of atomic effects (`Action`), the
  invariant `Safe`, and its preservation by every effect and every run.
- `History`: theorems about whole runs: how often a job changes state and starts,
  dependencies over a run, circles, the store/runner agreement, and exactly when a
  job is left COMPLETING.
- `Namesakes`: what `singleton` does to two waiting jobs of one name.
- `Operations`: what each request, each phase of the main loop and recovery make of
  the two tables, as functions, with the operating system's answers as parameters.
- `Conformance`: every operation is a run of effects.
- `DaemonLife`: any sequence of requests, turns and restarts. A run of effects leads
  from any moment of it to any later one; the theorems about runs, except the bound
  on single writes, are carried over to the daemon one by one.
- `TimeLimits`: what enforcing time limits does, job by job.
- `Outcomes`: what it means that a cancel, a launch, a pass or a turn succeeded, and
  exactly when it does.
- `Processes`: every process the daemon starts, recorded or not, over passes, events
  and its whole life.
- `Submissions`: what it means that a request is refused, and starts before time.
- `Scenarios`: short concrete runs that reach the bounds and the corner cases.
- `JobStore`, `JobRunner`, `Daemon`: the imperative code, as classes and methods with
  the source's loops, each proved equal to the function of `Operations` or
  `Scheduling` it implements.
- `Calendar`, `Text`, `TimeText`, `ArraySpec`, `Dependencies`, `ShellWords`: the
  calendar and the languages.

The main theorem is `DaemonLife.DaemonIsSound`: started on an empty database, a
daemon that serves any requests of disciplined clients, takes any turns of its
loop and is restarted any number of times keeps the CPU, memory and GPU use of RUNNING
jobs within the machine, has RUNNING exclusive jobs alone, no GPU id with two RUNNING
jobs and array limits respected, starts no job before its dependencies and its begin
time allow it, never runs two jobs of one user and name that both ask for `singleton`,
requeues no job twice, tracks only RUNNING jobs and every RUNNING batch job. What lies
beyond RUNNING rows is exact as well: `DaemonLife.DaemonCountsExactly` says when jobs
left COMPLETING make the counts wrong, `Processes.DaemonProcessesExactly` how many
processes no row records. `Daemon.DispatchRequest`, `Daemon.Turn`
and `Daemon.Recover` are the methods whose results that theorem is about.

## Assumptions

- The daemon is single-threaded: each request and each phase runs to completion
  (src/runtime/daemon.rs:29-36). The clock is read once per request or turn.
- The configuration does not change and the machine has fewer than `u32::MAX`
  processors. `Basics.SaturatingMulComparesExactly` shows that this is what makes
  the saturating multiplication of admission exact.
- Clients are disciplined (`Conformance.Disciplined`): `srun` and `salloc` requests
  name no dependency, no begin time (src/command/submit/interactive.rs:96-99,
  src/command/submit/alloc.rs:35-39) and no array, an allocation is adopted while it
  is RUNNING, and `FinishAllocation` carries a terminal state and names an
  allocation or a step that is not to be requeued
  (src/runtime/foreground/allocation.rs:66-94).
- Process ids, exit statuses, out-of-memory flags, the liveness of process groups,
  the order in which the hash map of processes is walked, whether a process can be
  started, and whether the set-up between its start and its row succeeds
  (src/runtime/runner_launch.rs:75-76) are parameters.
- Row ids are ascending and never reused (`AUTOINCREMENT`), and `SELECT` without an
  order returns rows by id.

## What the proofs turned up

- A request that changes a job's time limit and priority together, while the job is
  RUNNING or COMPLETING, is refused but leaves the new time limit behind
  (`Operations.RefusedUpdateLeavesRow`, src/store/control_updates.rs:59-79).
  `Scenarios.RefusedLimitStays` is such a request.
- "No job is COMPLETING between steps" is false. A batch job is COMPLETING exactly if
  the daemon once waited for its process in vain, and then it stays so for good,
  whatever restarts follow (`History.BatchCompletingExactly`,
  `DaemonLife.DaemonCompletesExactly`; src/runtime/runner_lifecycle.rs:71-97,
  src/store/lookup.rs:23-33). For steps and allocations a client's report ends it
  (`History.CompletingExactly`). `Scenarios.StuckCompleting` is a run of three effects
  that ends so.
- "Of two waiting jobs of one user and name with `singleton`, one goes first" is
  false: they block each other, exactly as long as neither is cancelled or given a
  name that is not the other's (`Namesakes.BlockedExactly`,
  `DaemonLife.DaemonBlocksExactly`; src/store/listing.rs:72-85).
  `Namesakes.TwoNightlies` is such a pair.
- A confirmed cancel does not always mean that the job is over: one that is killed for
  lack of memory at that moment and may still be requeued goes back to waiting. That
  is the only exception (`Outcomes.CancelMeans`, `Scenarios.CancelledYetWaiting`;
  src/runtime/runner_lifecycle.rs:99-110, src/store/mod.rs:51-59).
- A turn of the main loop fails, and ends the process, exactly if the wait for an
  overdue job fails, a warning that is due asks for a signal that does not exist, or
  a job that reaches its start cannot be launched (`Outcomes.TickOkExactly`). Any
  number passes as a signal when a job is submitted (src/util/signals.rs:38-41), and
  the error comes only when the warning is due (src/runtime/runner_control.rs:81,
  `Scenarios.UnknownSignalFails`).
- "Counting only RUNNING rows as usage is sound" is false: a job left COMPLETING keeps
  its GPU ids, and its process may be alive, but admission and allocation do not see it
  (src/store/resource_accounting.rs:31-55). At every moment of the daemon's life the
  counts are exact if and only if every top-level job for which the daemon waited in
  vain, with no report of its end since, asked for nothing, and then nothing is given
  out twice (`DaemonLife.DaemonCountsExactly`). `Scenarios.GivenTwice` is a run in which
  one processor and one GPU are given to two jobs.
- "Every process is recorded" and "no job has more than two processes" are false. A
  launch whose set-up fails after the spawn (src/runtime/runner_launch.rs:72-76) leaves
  the process running and both tables alone, and the job may be started again by the next
  pass, any number of times. The processes started for a batch job are as many as its
  row records plus one for every event that strays on it
  (`Processes.DaemonProcessesExactly`). An event does so exactly if the job is the first
  to reach its start that does not launch, and gets a process
  (`Processes.EventStraysExactly`). `Scenarios.ProcessesPileUp` has any number of them.
- A request may be refused after it has taken effect: a batch submission whose
  scheduling pass fails is answered with an error, yet its job is in the queue
  (src/runtime/daemon.rs:88-92). `Submissions.RefusedExactly` says when a request is
  refused, `Submissions.RefusedSubmission` when a refused submission has left everything
  alone; `Scenarios.RefusedYetSubmitted` is one that has not.
- A direct start ignores the begin time (src/runtime/daemon.rs:260-287): exactly which
  submissions start early says `Submissions.EarlyStartExactly`. No client of the
  repository makes one; `Scenarios.StartsTooSoon` does.
- Ending a job writes its state twice, so a batch job can change state six times:
  start, COMPLETING and a requeue or ending, twice. It is never more
  (`History.AtMostSixWrites`, `Scenarios.SixWritesHappen`).
- The documentation writes dependency lists as `afterok:<jobid>[,<jobid>...]`
  (docs/docs-site/src/sbatch.md:134-137), but commas separate clauses
  (src/runtime/daemon.rs:378-382): such a list means what it says exactly if it has
  one id (`Dependencies.CommaListExactly`), and with more the job waits forever
  (`Dependencies.CommaListNeverSatisfied`); colons do what the documentation promises
  (`Dependencies.ColonListRoundTrip`).
- A time limit of 2^63 seconds or more is read as negative and ends the job at once
  (`TimeLimits.TimeLimitExactWhen`, `Scenarios.LongLimitIsOver`).
- Expanding a range such as `0-2147483647` adds the step once more after the last id
  and leaves `i32` (`ArraySpec.OverflowsExactlyWhen`).
- `format_timestamp` output is read back exactly unless the year is negative or
  beyond `i32` (`TimeText.TimestampTextRoundTrip`, `Scenarios.YearMinusOneIsLost`).

## Model

| member | source | states |
|---|---|---|
| DaemonLife.DaemonIsSound | src/runtime/daemon.rs:16-37 | over every sequence of requests, turns and restarts from an empty database: capacity, exclusivity and both GPU ledgers over RUNNING rows, array limits, dependencies, begin times, singletons of one name never active together, at most one requeue; every RUNNING batch job is tracked; nothing is COMPLETING unless a wait failed |
| DaemonLife.LifeIsRun | src/runtime/daemon.rs:16-37 | from any safe moment of the daemon's life to any later one leads a run of the state machine |
| DaemonLife.EventLeads | src/runtime/daemon.rs:81-219 | each request, turn or restart is such a run; no wait fails in it but the one the daemon made in vain, and a job the request does not name is neither cancelled, renamed nor reported finished |
| DaemonLife.DaemonRowsMoveOn | src/store/state_updates.rs:47-99 | between any two moments rows persist, keep their identity and only move forward |
| DaemonLife.DaemonAfterOk | src/runtime/daemon.rs:415-429 | at any moment a job with afterok on a batch job has started only if that one is COMPLETED, and its row is the same at every later moment |
| DaemonLife.DaemonCircleNeverStarts | src/runtime/daemon.rs:391-432 | jobs waiting for each other in a circle are pending or cancelled and never started, restarts or not |
| DaemonLife.DaemonStartsAtMostTwice | src/store/mod.rs:51-59 | starts that are recorded: as many as the row says, at most two, two only with a requeue, and a requeueable batch job shows a failure only after the second |
| Processes.DaemonProcessesExactly | src/runtime/runner_launch.rs:72-76 | over every life from an empty database: processes started for a batch job = starts its row records + events that stray on it; the row accounts for all of them if and only if no event does |
| Processes.PassCounts | src/runtime/daemon.rs:221-258 | in a safe state: processes a pass starts for a job = starts its row gains, plus one if the pass strays on it |
| Processes.PassSpawnsExactly | src/runtime/daemon.rs:221-258 | a pass starts the processes of the pass in which every launch succeeds, in the same order, up to the first job that does not launch, and that one's too if there is a process for it |
| Processes.StrayGoesUnrecorded | src/runtime/runner_launch.rs:72-76 | every process a pass starts is recorded in row and entry, but for the stray's, which is the last; then the pass has failed, and the job waits untracked |
| Processes.EventStraysExactly | src/runtime/daemon.rs:81-258 | an event strays on a job if and only if it is the first to reach its start that does not launch and there is a process for it |
| Scenarios.ProcessesPileUp | src/runtime/runner_launch.rs:72-76 | for every n a life with n + 1 processes for a job that is not to be requeued, none of them recorded |
| DaemonLife.DaemonFewChanges | src/store/state_updates.rs:58-81 | between requests and turns a batch job is seen to change state at most four times |
| DaemonLife.DaemonCompletesExactly | src/runtime/runner_lifecycle.rs:71-110 | a batch job is COMPLETING if and only if the daemon, at some event of its life, waited for its process in vain |
| DaemonLife.DaemonLeavesCompleting | src/runtime/runner_lifecycle.rs:71-110 | a job of any kind is COMPLETING if and only if the daemon waited for it in vain, or it was so at the start, and no client has reported its end since |
| DaemonLife.DaemonCountsExactly | src/store/resource_accounting.rs:31-55 | over every life: RUNNING rows account for all that is RUNNING or COMPLETING, in all sums and GPU ids, if and only if every top-level job waited for in vain and not reported since asked for nothing; then nothing is given out twice |
| DaemonLife.DaemonBlocksExactly | src/store/listing.rs:72-85 | two waiting singleton namesakes block each other at every moment if and only if no request cancels, finishes or renames one of them away from the other |
| Conformance.RespondReaches | src/runtime/daemon.rs:81-219 | each state-changing request of a disciplined client is a run of effects without restart |
| Conformance.TickReaches | src/runtime/daemon.rs:29-36 | each turn of the main loop is a run of effects, with a failed wait only if the system reports one |
| Conformance.PassReaches | src/runtime/daemon.rs:221-258 | a scheduling pass is a run of tellings and starts, also when a launch cuts it short |
| Conformance.PassSucceeds | src/runtime/daemon.rs:221-258 | in a safe state a pass fails only if some process cannot be started; GPU ids are always found |
| Outcomes.PassOkExactly | src/runtime/daemon.rs:221-258 | in a safe state a pass completes if and only if every job that it would start, if all could be launched, can be |
| Outcomes.TickOkExactly | src/runtime/daemon.rs:29-36 | a turn goes through if and only if the time limits do and every job that reaches its start can be launched |
| Conformance.RecoveryIsExact | src/runtime/recovery.rs:8-50 | from any store: tracked jobs = RUNNING jobs = survivors, unchanged; every other formerly RUNNING job is over or requeued for the first time |
| Conformance.RecoveryKeepsLedgers | src/runtime/recovery.rs:8-50 | recovery preserves capacity, exclusivity and GPU disjointness from any store, reachable or not |
| Conformance.RecoveryReaches | src/runtime/recovery.rs:8-50 | recovery is a run of adoptions and endings |
| DaemonLife.RebornIsSound | src/runtime/daemon.rs:25-27 | a restart in any safe state, followed by recovery, re-establishes the store/runner agreement |
| Conformance.InsertedFits | src/runtime/daemon.rs:266-274 | the admission test made before the row exists decides as it would for the row |
| Lifecycle.RunIsSafe | src/runtime/daemon.rs:221-337 | every run keeps the whole invariant |
| Lifecycle.StepIsSafe | src/store/state_updates.rs:11-123 | every effect keeps the whole invariant |
| Lifecycle.AdmissionIsExact | src/runtime/daemon.rs:313-337 | the admission test admits exactly the jobs whose start keeps the totals, meets no exclusive job, and uses GPUs only in a GPU partition |
| Lifecycle.StartKeepsCapacity | src/runtime/daemon.rs:328-336 | a start that admission allowed keeps cpus, memory and GPUs within the totals |
| Lifecycle.StartKeepsExclusive | src/runtime/daemon.rs:322-327 | a RUNNING exclusive job stays the only RUNNING top-level job |
| Lifecycle.StartKeepsArrays | src/runtime/daemon.rs:350-355 | a start below the array limit keeps every array within its limit |
| Lifecycle.SatisfiedMeansKept | src/runtime/daemon.rs:391-432 | dependencies that allow a start are guaranteed by the start; for a singleton clause no other job of the user and name was active |
| Lifecycle.StartKeepsSingletons | src/store/listing.rs:72-85 | a start that the singleton test allowed leaves no two active singleton jobs of one user and name |
| Lifecycle.StepKeepsSingletons | src/store/state_updates.rs:47-99 | nor does any other update of a row |
| Lifecycle.InsertTasksIsSafe | src/store/array_creation.rs:23-37 | creating an array, task by task, keeps the invariant; all tasks share the limit |
| Lifecycle.RowMoves | src/store/state_updates.rs:47-99 | each update moves a row forward: (requeue count, phase) never decreases, terminal batch rows never change |
| History.RowsOverRun | src/store/state_updates.rs:47-99 | over any run rows are never deleted, keep their identity and only move forward |
| History.AtMostSixWrites | src/runtime/runner_lifecycle.rs:71-110 | in any run at most six writes change the state of a batch job, and from any row on at most as many as its state and requeue count leave |
| History.AtMostFourChanges | src/store/state_updates.rs:58-81 | counted by effects, of which a termination is one, a batch job changes state at most four times, and each change uses up what remains |
| Scenarios.SixWritesHappen | src/runtime/runner_lifecycle.rs:71-110 | a job that times out, is requeued and times out again takes all six |
| History.StartsAreRecorded | src/store/mod.rs:51-59 | a job has had exactly as many recorded starts as its row says, at most two, and two only if it asked for a requeue |
| History.FailureIsLastAttempt | src/store/state_updates.rs:58-66 | a job to be requeued shows a failure only after its last attempt |
| History.AfterOkIsSound | src/runtime/daemon.rs:415-429 | a job with afterok on a batch job has started only if that job is COMPLETED, and it stays so in every continuation |
| History.CircleNeverStarts | src/runtime/daemon.rs:391-432 | jobs waiting for each other in a circle are, in every run, pending or cancelled and never started |
| Namesakes.StepUnblocksExactly | src/store/listing.rs:72-85 | an effect ends the blockade of two waiting singleton namesakes if and only if it cancels or finishes one of them or gives it a name that is not the other's |
| Namesakes.BlockedExactly | src/store/listing.rs:72-85 | over every run they block each other after every effect if and only if no effect does so |
| Namesakes.TwoNightlies | src/store/listing.rs:72-85 | one script submitted twice is such a pair; a rename to the same name leaves it one, a rename to another ends it |
| History.LedgersAgree | src/runtime/runner.rs:41-87 | within one daemon lifetime tracked processes are RUNNING jobs and every RUNNING batch job is tracked |
| History.NothingStaysCompleting | src/runtime/runner_lifecycle.rs:71-110 | as long as waits succeed no job is COMPLETING between effects |
| History.CompletingExactly | src/runtime/runner_lifecycle.rs:71-110 | over every run a row is COMPLETING at the end if and only if a wait for it failed, or it was so at the start, and no client has reported its end since |
| History.BatchCompletingExactly | src/runtime/runner_lifecycle.rs:71-110 | for a batch job: if and only if some wait for it failed, however long ago |
| Scenarios.StuckCompleting | src/runtime/runner_lifecycle.rs:71-110 | a submission, a launch and a cancel whose wait fails leave a job that is COMPLETING in every continuation |
| History.LaunchFindsGpus | src/runtime/runner_launch.rs:23-27 | in every reachable state a job that fits finds exactly the number of GPU ids it asked for |
| Accounting.AdmittedMeansAllocatable | src/store/allocation.rs:18-43 | whenever the counts admit a request, the ids for it exist |
| Accounting.CountingExactly | src/store/resource_accounting.rs:31-55 | each sum, and the list of GPU ids, over RUNNING rows equals that over RUNNING or COMPLETING ones if and only if no COMPLETING top-level row has any of it |
| History.RunCountsExactly | src/store/resource_accounting.rs:31-55 | after every run the counts are exact if and only if every top-level job with a failed wait and no report since asked for nothing |
| History.ExactMeansEnough | src/store/resource_accounting.rs:31-55 | where they are exact, RUNNING and COMPLETING jobs together stay within the machine and share no GPU id |
| Scenarios.GivenTwice | src/store/resource_accounting.rs:31-55 | five effects after which a COMPLETING and a RUNNING job both have the only processor and the only GPU |
| Accounting.AllocationIsFresh | src/store/allocation.rs:18-43 | the ids handed out are as many as asked for, in range, held by nobody, and the lowest free ones |
| Basics.SaturatingMulComparesExactly | src/runtime/daemon.rs:329-331 | the saturated comparison is the exact one if and only if the available count is below u32::MAX or the product fits |
| Scheduling.PassIsGreedy | src/runtime/daemon.rs:221-258 | without pending array tasks and after clauses the restart loop equals one greedy scan of the sorted queue |
| Scheduling.PassIsMaximal | src/runtime/daemon.rs:221-258 | when a pass completes, every job still pending has a standing reason to wait, and shows it |
| Scheduling.PassIsExact | src/runtime/daemon.rs:221-258 | a pass starts only waiting jobs that are not held and whose begin time has come, tracks exactly the processes it started, and changes nothing else but reasons |
| Scheduling.FitsIsAntitone | src/runtime/daemon.rs:313-337 | what does not fit does not fit after a start either |
| Scheduling.WaitersKeepWaiting | src/runtime/daemon.rs:339-358 | a plain job passed over before a start is passed over after it, for the same reason |
| Scheduling.QueueHoldsPending | src/store/listing.rs:50-61 | the queue holds every pending top-level job exactly once |
| PendingOrder.OrderPendingJobs | src/store/support.rs:22-68 | sort, group and round-robin merge compute the order defined by rank and head |
| PendingOrder.QueueOrderIsByRankAndHead | src/store/support.rs:36-65 | x precedes y if and only if (rank in its array, head of its array) is smaller |
| PendingOrder.QueueOrderElements | src/store/support.rs:51-67 | the order is a permutation of the pending jobs |
| PendingOrder.FirstIsBest | src/store/support.rs:23-28 | the first job is the best by priority, submit time and id |
| PendingOrder.NoArraysMeansSorted | src/store/support.rs:22-68 | without arrays the order is the sorted list |
| Daemon.SchedulePendingJobs | src/runtime/daemon.rs:221-258 | the loops of the code end and compute the pass, with the same verdict, and start exactly its processes |
| Daemon.ScanQueue | src/runtime/daemon.rs:223-252 | one walk starts the first job that may start, or tells every job why it waits |
| Daemon.SubmitRun | src/runtime/daemon.rs:260-287 | refuses, queues or starts at once as admission decides |
| Daemon.SubmitAlloc | src/runtime/daemon.rs:289-311 | the same for allocations, which need only their row |
| Submissions.RefusedExactly | src/runtime/daemon.rs:61-93 | a request of a disciplined client is refused if and only if it is so outright, and then nothing has changed, or late: a later launch, its own launch, its wait or its edit fails |
| Submissions.RefusedSubmission | src/runtime/daemon.rs:88-92 | a refused submission has left everything alone if and only if it was refused outright; otherwise its job is in the table |
| Submissions.EarlyStartExactly | src/runtime/daemon.rs:260-287 | a direct start comes before the begin time if and only if the job fits, launches and has a later one; no other job has started early |
| Scenarios.RefusedYetSubmitted | src/runtime/daemon.rs:88-92 | a submission answered with an error whose job waits in the table |
| Scenarios.StartsTooSoon | src/runtime/daemon.rs:260-287 | a direct start before the begin time |
| Daemon.DispatchRequest | src/runtime/daemon.rs:81-219 | state, response and processes started after each state-changing request |
| Daemon.Turn | src/runtime/daemon.rs:29-36 | state and processes started after one turn of the loop, and whether the daemon goes on |
| Daemon.Recover | src/runtime/recovery.rs:8-50 | state after recovery of any table |
| JobStore.Store.MarkFinished | src/store/state_updates.rs:47-84 | finishes or requeues exactly one row, and errs exactly on an unknown id |
| JobStore.Store.MarkRunning | src/store/state_updates.rs:11-25 | writes the start of one row and nothing else |
| JobStore.Store.CancelPendingJob | src/store/state_updates.rs:114-122 | cancels exactly a pending row, and says whether it did |
| JobStore.Store.HoldOrRelease | src/store/control_updates.rs:9-23 | holds or releases exactly a pending row |
| JobStore.Store.UpdateJobFields | src/store/control_updates.rs:25-82 | the row left by column-by-column updates, and exactly when the request succeeds |
| Operations.RefusedUpdateLeavesRow | src/store/control_updates.rs:37-80 | a refused update leaves the row alone if and only if it is not the one combination described |
| Scenarios.RefusedLimitStays | src/store/control_updates.rs:59-79 | a refused update that changes the time limit of a running job |
| JobStore.Store.CreateArrayJobs | src/store/array_creation.rs:9-40 | the loop with its back-patched array id creates exactly the rows of the array |
| Jobs.InsertedTasks | src/store/array_creation.rs:23-37 | an array is one row per task id, consecutive, all with the array's id and limit, and nothing else changes |
| JobStore.Store.CreateStep | src/store/step_creation.rs:9-47 | a step starts RUNNING with its parent's resources; an unknown parent is an error |
| JobStore.Store.GpuIdsInUse | src/store/resource_accounting.rs:31-55 | the ids held by RUNNING top-level rows, in row order |
| JobStore.Store.AllocateGpuIds | src/store/allocation.rs:18-43 | the greedy loop returns the lowest free ids, or an error if there are too few |
| JobStore.Store.NextPendingJobs | src/store/listing.rs:50-61 | the rows of the queue, in queue order |
| JobRunner.Runner.Launch | src/runtime/runner_launch.rs:16-86 | ids, then process, then row, then entry; a failure changes neither table; exactly which process it has started, recorded or not |
| Outcomes.LaunchExactly | src/runtime/runner_launch.rs:23-76 | in a safe state a job that fits is launched if and only if it gets a process and its set-up: GPU ids never lack; its row then records one start more |
| JobRunner.Runner.Adopt | src/runtime/runner.rs:46-63 | tracks a recorded positive process group, and nothing otherwise |
| JobRunner.Runner.TerminateRunningJob | src/runtime/runner_lifecycle.rs:63-116 | COMPLETING, then the ending the wait reports; a failed wait leaves COMPLETING |
| JobRunner.Runner.CancelJob | src/runtime/runner_control.rs:48-71 | cancels a pending row, or terminates a tracked process, or reports that there was neither |
| Outcomes.CancelMeans | src/runtime/runner_lifecycle.rs:99-110 | in a safe state a confirmed cancel means the job is over, if and only if it was not killed for lack of memory with a requeue left; a refused one changed nothing or left COMPLETING, and when it is refused |
| Scenarios.CancelledYetWaiting | src/store/mod.rs:51-59 | a cancelled job that waits to run again |
| JobRunner.Runner.EnforceTimeouts | src/runtime/runner_control.rs:15-46 | terminates the overdue, then warns, stopping at the first failure |
| TimeLimits.EnforceOkExactly | src/runtime/runner_control.rs:15-46 | succeeds if and only if the wait for every overdue job does and every warning due names a signal that exists |
| Scenarios.UnknownSignalFails | src/util/signals.rs:38-41 | signal 99, accepted at submission, makes it fail |
| JobRunner.Runner.Poll | src/runtime/runner_monitor.rs:34-50 | exactly the exited children are finished, and forgotten after the walk |
| JobRunner.Runner.ReconcileAdopted | src/runtime/runner_monitor.rs:13-32 | exactly the adopted jobs without process group are finished and forgotten |
| Operations.ChildEnding | src/runtime/terminal.rs:16-34 | COMPLETED if and only if exit code 0, no signal and no out-of-memory kill |
| Operations.LostEnding | src/runtime/runner_support.rs:43-61 | COMPLETED if and only if the status file says 0; lost if and only if there is none |
| Operations.TerminationEnding | src/runtime/runner_lifecycle.rs:77-103 | an out-of-memory kill overrides the reason; a job not seen to end in time shows a signal |
| TimeLimits.EnforceIsExact | src/runtime/runner_control.rs:20-43 | whatever the order, exactly the overdue jobs are terminated, none is left overdue, and each job is warned at most once |
| TimeLimits.TimeLimitExactWhen | src/runtime/runner_lifecycle.rs:27 | the deadline test is "has run for its limit" if and only if the limit fits i64 and the deadline is not cut off |
| TimeLimits.WarningWindow | src/runtime/runner_lifecycle.rs:50-60 | for every start, limit and offset the types allow: a warning is due exactly in the requested last seconds before the deadline as the code sees it, once; that deadline is start plus limit if it fits |
| Calendar.CivilIsDefined | src/util/time.rs:108-133 | a day number exists exactly for month 1-12 and a day up to the month's length |
| Calendar.DateRoundTrip | src/util/time.rs:108-161 | the inverse gives back every valid date, exactly if the year fits i32 |
| Calendar.DayRoundTrip | src/util/time.rs:149-161 | every day number is that of a valid date |
| Calendar.CivilFromDaysExactWhen | src/util/time.rs:149-161 | the final casts are harmless if and only if the year fits i32 |
| Calendar.EpochIsDayZero | src/util/time.rs:121 | 1 January 1970 is day 0 |
| Calendar.NextDateIsNextDay | src/util/time.rs:108-122 | the day number rises by exactly 1 from each date to the next |
| Calendar.DayNumberIsMonotone | src/util/time.rs:108-122 | earlier dates have smaller day numbers |
| Calendar.EpochIsDefined | src/util/time.rs:87-106 | a timestamp exists exactly for valid dates and times |
| Calendar.EpochIsPosix | src/util/time.rs:87-106 | it is the value of section 4.16 of POSIX.1-2017 Base Definitions, from 1970 on |
| Calendar.EpochRoundTrip | src/util/time.rs:139-147 | timestamps are read back as the date and time they came from |
| Calendar.TimestampRoundTrip | src/util/time.rs:87-147 | every timestamp, negative ones too, is that of the date and time it shows, exactly if the year fits i32 |
| Calendar.EpochFitsI64 | src/util/time.rs:104-105 | the day number of an i32 year, its product and every partial sum of the timestamp stay in i64 |
| Calendar.DaysFromCivilFits | src/util/time.rs:108-122 | so does every intermediate value of the conversion to a day number |
| Calendar.CivilFromDaysFits | src/util/time.rs:149-161 | and of the conversion back, for every i64 timestamp |
| TimeText.TimestampTextRoundTrip | src/util/time.rs:20-85 | a printed timestamp is read back exactly if and only if its year is in 0..=i32::MAX |
| TimeText.TimestampShape | src/util/time.rs:35-38 | four-digit years are printed as YYYY-MM-DDThh:mm:ss |
| TimeText.DurationRoundTrip | src/submit/sbatch.rs:175-207 | a printed duration is read back as its seconds, negative ones as 0 |
| Text.GpuIdsRoundTrip | src/store/support.rs:85-102 | stored GPU ids are read back as written, exactly if they fit u32 |
| ArraySpec.ParseArraySpec | src/submit/sbatch.rs:110-143 | the strictly ascending list of exactly the ids denoted; exactly when it is an error and when it overflows |
| ArraySpec.ExpandSegment | src/submit/sbatch.rs:385-398 | the loop ends, yields exactly the stepped range, and fails exactly on overflow |
| ArraySpec.OverflowsExactlyWhen | src/submit/sbatch.rs:391-395 | overflow happens if and only if some id plus the step leaves i32 |
| ArraySpec.SegmentsAreValid | src/submit/sbatch.rs:364-407 | no accepted specification names a negative id or an empty range |
| ArraySpec.SpecRoundTrip | src/submit/sbatch.rs:110-143 | every list of pieces with any limit can be written, and is read as such |
| Dependencies.ColonListRoundTrip | src/runtime/daemon.rs:391-413 | ids separated by colons are one dependency on all of them |
| Dependencies.CommaListNeverSatisfied | src/runtime/daemon.rs:378-400 | two or more ids separated by commas are never satisfied, in any table |
| Dependencies.CommaListExactly | src/runtime/daemon.rs:378-400 | a comma list means what the documentation says if and only if it has one id |
| ShellWords.JoinRoundTrip | src/runtime/launch.rs:57-77 | the shell reads a joined command line as exactly the arguments it was joined from |
| ShellWords.PathRoundTrip | src/runtime/runner_launch.rs:121-123 | a quoted path is one word, the path |
| ShellWords.JoinIsInjective | src/runtime/launch.rs:57-62 | different argument lists give different command lines |

## Left out

- The socket, JSON and SQLite: the table is a map and each statement its effect on it; integers in rows are unbounded except where a cast or a saturating operation matters.
- Spawning, signals, control groups, CPU affinity, `/proc`, notifications and sleeping: their answers are parameters; output files, scripts and environments of jobs are not modelled, nor is `max_rss_kb`.
- I/O errors other than a failed launch, a failed wait and an unsupported warning signal: in the main loop they end the process, and recovery is proved from any store.
- A daemon that dies in the middle of one request or phase, such as half-way through creating an array.
- Dependency text with an id that is not a number, which is an error of the pass; `Dependencies` parses the rest, and jobs carry parsed clauses.
- The round trip between dependency and array text and the job rows: requests carry the parsed form.
- Read-only requests and `SignalJob`; output tables, format strings, `sinfo`, `squeue` and `sacct` rendering; command-line arguments and `#SBATCH` merging.
- The generated bash launcher and the foreground I/O threads.
- `estimate_start_times`, `filter_jobs`, partition statistics and memory-size parsing.
- Sorting and `binary_search` in `allocate_gpu_ids`: modelled as a membership test; `sort_by` and `sort_unstable` are modelled as insertion sort.
- Starting order across arrays over a whole pass: the queue is re-sorted after every start, so only the ordering function interleaves.
- Progress: no claim that a waiting job eventually starts.
- ShellWords.JoinRoundTrip: the word splitter refuses every unquoted character that section 2.2 lists as special, `#` and `=` inside words included, so it is stricter than a shell; field splitting, aliases and reserved words are not modelled.
- DaemonLife.DaemonIsSound: its ledgers cover RUNNING rows, as the code's do; what COMPLETING jobs and unrecorded processes use is the subject of DaemonLife.DaemonCountsExactly and Processes.DaemonProcessesExactly, and whether such a process is still alive is not modelled.
- Conformance.RespondReaches: says nothing about undisciplined clients; `FinishAllocation` on a batch job, for instance, is unguarded in the code.
