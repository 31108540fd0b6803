/** Job records, the table that holds them, and the row updates that the
    store's SQL statements make. */
module Jobs {
  import opened Basics

  /** Row ids: positive, handed out in ascending order, never reused. */
  type JobId = nat

  datatype JobState = Pending | Running | Completing | Completed | Failed | Cancelled | Timeout | OutOfMemory {
    predicate IsTerminal() {
      this in {Completed, Failed, Cancelled, Timeout, OutOfMemory}
    }
  }

  datatype DependencyKind = After | AfterAny | AfterOk | AfterNotOk | UnknownKind

  /** One comma-separated clause of a dependency specification. */
  datatype Clause = Singleton | On(kind: DependencyKind, ids: seq<int>) | NoColon

  datatype WarningSignal = WarningSignal(signal: int, secondsBeforeEnd: nat)

  datatype Job = Job(
    id: JobId,
    parent: Option<JobId>,
    held: bool,
    priority: int,
    name: string,
    userName: string,
    state: JobState,
    partition: string,
    cpus: nat,
    tasks: nat,
    memoryMb: nat,
    gpus: nat,
    allocationOnly: bool,
    dependency: seq<Clause>,
    arrayJobId: Option<JobId>,
    arrayTaskId: Option<nat>,
    arrayTaskCount: Option<nat>,
    arrayTaskLimit: Option<nat>,
    submitTime: int,
    startTime: Option<int>,
    endTime: Option<int>,
    pid: Option<int>,
    pgid: Option<int>,
    exitCode: Option<int>,
    reason: string,
    termSignal: Option<int>,
    timeLimit: Option<nat>,
    beginTime: Option<int>,
    exclusive: bool,
    assignedGpus: seq<nat>,
    warning: Option<WarningSignal>,
    requeue: bool,
    requeueCount: nat)

  datatype SubmitRequest = SubmitRequest(
    name: string,
    userName: string,
    partition: string,
    cpus: nat,
    tasks: nat,
    memoryMb: nat,
    gpus: nat,
    allocationOnly: bool,
    dependency: seq<Clause>,
    timeLimit: Option<nat>,
    beginTime: Option<int>,
    exclusive: bool,
    warning: Option<WarningSignal>,
    requeue: bool)

  /** An expanded array specification. */
  datatype ArrayTasks = ArrayTasks(taskIds: seq<nat>, limit: Option<nat>)

  datatype Config = Config(totalCpus: nat, totalMemoryMb: nat, totalGpus: nat, gpuPartitions: seq<string>) {
    predicate IsGpuPartition(partition: string) {
      partition in gpuPartitions
    }

    /** A machine with fewer than u32::MAX processors. */
    predicate Valid() {
      totalCpus < U32_MAX
    }
  }

  /** The `jobs` table; next is the id the next insertion gets. */
  datatype Table = Table(rows: map<JobId, Job>, next: JobId)

  predicate WellNumbered(t: Table) {
    forall id :: id in t.rows ==> 0 < id < t.next && t.rows[id].id == id
  }

  /** What `WHERE state = 'RUNNING' AND parent_job_id IS NULL` selects. */
  predicate Holds(r: Job) {
    r.state == Running && r.parent.None?
  }

  /** Top-level work that the daemon itself launches. */
  predicate IsBatch(r: Job) {
    r.parent.None? && !r.allocationOnly
  }

  /** The process group a row records; 0 when it records none. */
  function GroupOf(r: Job): int {
    if r.pgid.Some? then r.pgid.value else if r.pid.Some? then r.pid.value else 0
  }

  // ----- UPDATE statements, one row each -----

  function RunningRow(r: Job, pid: int, pgid: int, gpus: seq<nat>, now: int): Job {
    r.(state := Running, reason := "", pid := Some(pid), pgid := Some(pgid), startTime := Some(now),
       assignedGpus := gpus)
  }

  function AllocationRunningRow(r: Job, now: int): Job {
    r.(state := Running, reason := "", startTime := Some(now))
  }

  function AdoptedRow(r: Job, pid: int, pgid: int): Job {
    r.(pid := Some(pid), pgid := Some(pgid))
  }

  /** How a job ended. */
  datatype Ending = Ending(state: JobState, exitCode: Option<int>, termSignal: Option<int>, reason: string)

  predicate ShouldAutoRequeue(r: Job, final: JobState) {
    r.parent.None? && r.requeue && r.requeueCount == 0 && final in {Failed, Timeout, OutOfMemory}
  }

  function RequeuedRow(r: Job): Job {
    r.(state := Pending, exitCode := None, termSignal := None, reason := "Requeued", startTime := None,
       endTime := None, pid := None, pgid := None, assignedGpus := [], requeueCount := r.requeueCount + 1)
  }

  function EndedRow(r: Job, e: Ending, now: int): Job {
    r.(state := e.state, exitCode := e.exitCode, termSignal := e.termSignal, reason := e.reason,
       endTime := Some(now), assignedGpus := [])
  }

  function FinishedRow(r: Job, e: Ending, now: int): Job {
    if ShouldAutoRequeue(r, e.state) then RequeuedRow(r) else EndedRow(r, e, now)
  }

  function MarkedRow(r: Job, state: JobState, reason: string): Job {
    r.(state := state, reason := reason)
  }

  function CancelledRow(r: Job, now: int): Job {
    r.(state := Cancelled, reason := "CancelledByUser", endTime := Some(now))
  }

  /** A change of one column by `scontrol`. */
  datatype Edit = HoldEdit | ReleaseEdit | NameEdit(name: string) | PartitionEdit(partition: string)
                | TimeLimitEdit(limit: nat) | PriorityEdit(priority: int)

  function EditedRow(r: Job, e: Edit): Job {
    match e
    case HoldEdit => r.(held := true, reason := "JobHeldUser")
    case ReleaseEdit => r.(held := false, reason := "Resources")
    case NameEdit(name) => r.(name := name)
    case PartitionEdit(partition) => r.(partition := partition)
    case TimeLimitEdit(limit) => r.(timeLimit := Some(limit))
    case PriorityEdit(priority) => r.(priority := priority)
  }

  /** The edit, if one was asked for. */
  function Edited(r: Job, e: Option<Edit>): Job {
    if e.None? then r else EditedRow(r, e.value)
  }

  // ----- INSERT statements -----

  function NewRow(req: SubmitRequest, id: JobId, arrayJobId: Option<JobId>, taskId: Option<nat>,
                  count: Option<nat>, limit: Option<nat>, now: int): Job
  {
    Job(id, None, false, 0, req.name, req.userName, Pending, req.partition, req.cpus, req.tasks, req.memoryMb,
        req.gpus, req.allocationOnly, req.dependency, arrayJobId, taskId, count, limit, now, None, None, None,
        None, None, "Resources", None, req.timeLimit, req.beginTime, req.exclusive, [], req.warning, req.requeue, 0)
  }

  function StepRow(parent: Job, id: JobId, name: string, userName: string, now: int): Job {
    Job(id, Some(parent.id), false, 0, name, userName, Running, parent.partition, parent.cpus, parent.tasks,
        parent.memoryMb, parent.gpus, false, [], None, None, None, None, now, Some(now), None, None, None, None,
        "", None, None, None, false, [], None, false, 0)
  }

  // ----- statements on the table; an UPDATE whose WHERE selects nothing changes nothing -----

  function Finish(t: Table, id: JobId, e: Ending, now: int): Table {
    if id in t.rows then t.(rows := t.rows[id := FinishedRow(t.rows[id], e, now)]) else t
  }

  function Mark(t: Table, id: JobId, state: JobState, reason: string): Table {
    if id in t.rows then t.(rows := t.rows[id := MarkedRow(t.rows[id], state, reason)]) else t
  }

  function InsertRow(t: Table, r: Job): Table {
    Table(t.rows[t.next := r], t.next + 1)
  }

  /** The row of an array task: the array is named by its first task's id, and ids are consecutive. */
  function TaskRow(req: SubmitRequest, spec: ArrayTasks, first: JobId, id: JobId, now: int): Job
    requires first <= id < first + |spec.taskIds|
  {
    NewRow(req, id, Some(first), Some(spec.taskIds[id - first]), Some(|spec.taskIds|), spec.limit, now)
  }

  /** The remaining tasks of the array that started at the given id. */
  function InsertTasks(t: Table, req: SubmitRequest, spec: ArrayTasks, first: JobId, now: int): Table
    requires first <= t.next <= first + |spec.taskIds|
    decreases first + |spec.taskIds| - t.next
  {
    if t.next == first + |spec.taskIds| then t
    else InsertTasks(InsertRow(t, TaskRow(req, spec, first, t.next, now)), req, spec, first, now)
  }

  /** A whole array: one row per task id, all carrying the same array id and limit. */
  lemma {:induction false} InsertedTasks(t: Table, req: SubmitRequest, spec: ArrayTasks, first: JobId, now: int)
    requires first <= t.next <= first + |spec.taskIds|
    requires forall id :: id in t.rows ==> id < t.next
    ensures var u := InsertTasks(t, req, spec, first, now);
            && u.next == first + |spec.taskIds|
            && (forall id :: id in u.rows <==> id in t.rows || t.next <= id < u.next)
            && (forall id :: id in t.rows ==> u.rows[id] == t.rows[id])
            && (forall id :: t.next <= id < u.next ==> u.rows[id] == TaskRow(req, spec, first, id, now))
    decreases first + |spec.taskIds| - t.next
  {
    if t.next < first + |spec.taskIds| {
      InsertedTasks(InsertRow(t, TaskRow(req, spec, first, t.next, now)), req, spec, first, now);
    }
  }
}
