/** The daemon as a state machine: the atomic effects its requests and phases
    are made of, and what every run of them keeps. */
module Lifecycle {
  import opened Basics
  import opened Jobs
  import opened Accounting
  import opened Scheduling

  datatype Action =
    | Create(req: SubmitRequest, now: int)
    | CreateArray(req: SubmitRequest, spec: ArrayTasks, now: int)
    | CreateStep(parent: JobId, name: string, userName: string, now: int)
      // the scheduler, or a submission that starts its own job at once
    | Tell(id: JobId, reason: string)
    | Launch(id: JobId, pid: int, now: int, direct: bool)
    | StartAllocation(id: JobId, now: int, direct: bool)
      // foreground clients
    | Adopt(id: JobId, pid: int, pgid: int)
    | ClientFinish(id: JobId, ending: Ending, now: int)
      // the runner: a job ended by itself, or is brought to an end; None when waiting for it failed
    | Complete(id: JobId, ending: Ending, now: int)
    | Terminate(id: JobId, reason: string, result: Option<Ending>, now: int)
    | Warn(id: JobId)
      // the user
    | CancelPending(id: JobId, now: int)
    | Change(id: JobId, edit: Edit)
      // a new daemon process on the same database
    | Restart
    | RecoverAdopt(id: JobId)
    | RecoverLost(id: JobId, ending: Ending, now: int)

  /** The state in which an edit is accepted. */
  predicate EditAllowed(r: Job, e: Edit) {
    if e.TimeLimitEdit? then !r.state.IsTerminal() else r.state == Pending
  }

  /** A request that starts its job at once names no dependency, no array and no
      begin time. */
  predicate Unconditional(r: Job) {
    r.dependency == [] && r.arrayJobId.None? && r.beginTime.None?
  }

  /** What must hold when a pending job starts. */
  ghost predicate StartAllowed(cfg: Config, t: Table, id: JobId, now: int, direct: bool) {
    && IsPending(t, id)
    && JobFits(cfg, t, t.rows[id])
    && (if direct then Unconditional(t.rows[id]) else BlockReason(t, t.rows[id], now).None?)
  }

  ghost predicate Enabled(cfg: Config, s: State, a: Action) {
    var rows := s.table.rows;
    match a
    case Create(_, _) => true
    case CreateArray(_, spec, _) => spec.taskIds != []
    case CreateStep(parent, _, _, _) => parent in rows
    case Tell(id, _) => IsPending(s.table, id)
    case Launch(id, _, now, direct) =>
      StartAllowed(cfg, s.table, id, now, direct) && !rows[id].allocationOnly && LaunchGpus(cfg, s.table, rows[id]).Ok?
    case StartAllocation(id, now, direct) => StartAllowed(cfg, s.table, id, now, direct) && rows[id].allocationOnly
    case Adopt(id, _, _) => id in rows && rows[id].state == Running
    case ClientFinish(id, ending, _) =>
      id in rows && ending.state.IsTerminal() && !IsBatch(rows[id]) && !rows[id].requeue
    case Complete(id, ending, _) => id in s.tracked && id in rows && ending.state in {Completed, Failed, OutOfMemory}
    case Terminate(id, _, result, _) =>
      id in s.tracked && id in rows && (result.Some? ==> result.value.state in {Cancelled, Timeout, OutOfMemory})
    case Warn(id) => id in s.tracked && !s.tracked[id].warned
    case CancelPending(id, _) => id in rows && rows[id].state == Pending
    case Change(id, edit) => id in rows && EditAllowed(rows[id], edit)
    case Restart => true
    case RecoverAdopt(id) => id in rows && rows[id].state == Running && GroupOf(rows[id]) > 0
    case RecoverLost(id, ending, _) =>
      id in rows && rows[id].state == Running && id !in s.tracked && ending.state in {Completed, Failed}
  }

  predicate IsInsert(a: Action) { a.Create? || a.CreateArray? || a.CreateStep? }

  /** Actions that only touch the runner's table. */
  predicate IsRunnerOnly(a: Action) { a.Warn? || a.Restart? || a.RecoverAdopt? }

  /** The new content of the row an action updates. */
  ghost function RowAfter(cfg: Config, s: State, a: Action): Job
    requires Enabled(cfg, s, a) && !IsInsert(a) && !IsRunnerOnly(a)
  {
    var r := s.table.rows[a.id];
    match a
    case Tell(_, reason) => MarkedRow(r, Pending, reason)
    case Launch(_, pid, now, _) => RunningRow(r, pid, pid, LaunchGpus(cfg, s.table, r).value, now)
    case StartAllocation(_, now, _) => AllocationRunningRow(r, now)
    case Adopt(_, pid, pgid) => AdoptedRow(r, pid, pgid)
    case ClientFinish(_, ending, now) => FinishedRow(r, ending, now)
    case Complete(_, ending, now) => FinishedRow(r, ending, now)
    case Terminate(_, reason, result, now) =>
      var c := MarkedRow(r, Completing, reason);
      if result.Some? then FinishedRow(c, result.value, now) else c
    case CancelPending(_, now) => CancelledRow(r, now)
    case Change(_, edit) => EditedRow(r, edit)
    case RecoverLost(_, ending, now) => FinishedRow(r, ending, now)
  }

  ghost function TrackedAfter(cfg: Config, s: State, a: Action): map<JobId, Tracked>
    requires Enabled(cfg, s, a)
  {
    match a
    case Launch(id, pid, _, _) => s.tracked[id := Tracked(pid, pid, false, false)]
    case Adopt(id, pid, pgid) => if pgid > 0 then s.tracked[id := Tracked(pgid, pid, true, false)] else s.tracked
    case ClientFinish(id, _, _) => s.tracked - {id}
    case Complete(id, _, _) => s.tracked - {id}
    case Terminate(id, _, _, _) => s.tracked - {id}
    case Warn(id) => s.tracked[id := s.tracked[id].(warned := true)]
    case Restart => map[]
    case RecoverAdopt(id) =>
      var r := s.table.rows[id];
      s.tracked[id := Tracked(GroupOf(r), if r.pid.Some? then r.pid.value else 0, true, false)]
    case _ => s.tracked
  }

  ghost function TableAfter(cfg: Config, s: State, a: Action): Table
    requires Enabled(cfg, s, a)
  {
    var t := s.table;
    if a.Create? then InsertRow(t, NewRow(a.req, t.next, None, None, None, None, a.now))
    else if a.CreateArray? then InsertTasks(t, a.req, a.spec, t.next, a.now)
    else if a.CreateStep? then InsertRow(t, StepRow(t.rows[a.parent], t.next, a.name, a.userName, a.now))
    else if IsRunnerOnly(a) then t
    else t.(rows := t.rows[a.id := RowAfter(cfg, s, a)])
  }

  ghost function Apply(cfg: Config, s: State, a: Action): State
    requires Enabled(cfg, s, a)
  {
    State(TableAfter(cfg, s, a), TrackedAfter(cfg, s, a))
  }

  // ----- runs -----

  ghost predicate Run(cfg: Config, s: State, acts: seq<Action>)
    decreases |acts|
  {
    acts == [] || (Enabled(cfg, s, acts[0]) && Run(cfg, Apply(cfg, s, acts[0]), acts[1..]))
  }

  ghost function Exec(cfg: Config, s: State, acts: seq<Action>): State
    requires Run(cfg, s, acts)
    decreases |acts|
  {
    if acts == [] then s else Exec(cfg, Apply(cfg, s, acts[0]), acts[1..])
  }

  /** The state after the first k effects of a run. */
  ghost function At(cfg: Config, s: State, acts: seq<Action>, k: nat): State
    requires Run(cfg, s, acts) && k <= |acts|
    decreases k
  {
    if k == 0 then s else At(cfg, Apply(cfg, s, acts[0]), acts[1..], k - 1)
  }

  const INITIAL := State(Table(map[], 1), map[])

  lemma {:induction false} RunAppend(cfg: Config, s: State, a: seq<Action>, b: seq<Action>)
    requires Run(cfg, s, a) && Run(cfg, Exec(cfg, s, a), b)
    ensures Run(cfg, s, a + b) && Exec(cfg, s, a + b) == Exec(cfg, Exec(cfg, s, a), b)
    decreases |a|
  {
    if a == [] {
      assert a + b == b;
    } else {
      assert (a + b)[1..] == a[1..] + b;
      RunAppend(cfg, Apply(cfg, s, a[0]), a[1..], b);
    }
  }

  // ----- the legal moves of one row -----

  /** Columns no statement writes after the row is inserted. */
  predicate SameIdentity(r: Job, r': Job) {
    r' == r.(held := r'.held, priority := r'.priority, name := r'.name, state := r'.state, partition := r'.partition,
             startTime := r'.startTime, endTime := r'.endTime, pid := r'.pid, pgid := r'.pgid, exitCode := r'.exitCode,
             reason := r'.reason, termSignal := r'.termSignal, timeLimit := r'.timeLimit,
             assignedGpus := r'.assignedGpus, requeueCount := r'.requeueCount)
  }

  /** Whether the job has been started at least once. */
  predicate EverStarted(r: Job) {
    r.startTime.Some? || r.requeueCount > 0
  }

  /** What the columns of a row say together. */
  predicate RowShape(r: Job) {
    && r.requeueCount <= 1 && (r.requeueCount > 0 ==> r.requeue)
    && (r.state == Pending ==> r.parent.None? && r.startTime.None? && r.assignedGpus == [])
    && (r.state in {Running, Completing} ==> r.startTime.Some?)
    && (r.state in {Completed, Failed, Timeout, OutOfMemory} && IsBatch(r) ==> r.startTime.Some?)
    && (r.parent.Some? ==>
          r.requeueCount == 0 && r.arrayJobId.None? && r.assignedGpus == [] && !r.requeue && r.dependency == [])
    && (r.allocationOnly ==> r.assignedGpus == [])
    && (r.requeue && r.state in {Failed, Timeout, OutOfMemory} ==> r.requeueCount == 1)
    && (r.state.IsTerminal() ==> r.assignedGpus == [])
    && (r.state in {Running, Completing} && IsBatch(r) ==> |r.assignedGpus| == r.gpus)
    && !StartedEarly(r)
  }

  /** The job was started before its begin time. */
  predicate StartedEarly(r: Job) {
    r.startTime.Some? && r.beginTime.Some? && r.startTime.value < r.beginTime.value
  }

  /** Position of a state in a job's life. */
  function Phase(state: JobState): nat {
    match state case Pending => 0 case Running => 1 case Completing => 2 case _ => 3
  }

  /** The lexicographic measure (requeue count, phase), as one number. */
  function Progress(r: Job): nat { 4 * r.requeueCount + Phase(r.state) }

  /** One step of a row's life. Only allocations and steps, whose clients report
      their end themselves, leave a terminal or COMPLETING state again, and then
      only for a terminal one. */
  predicate RowStep(r: Job, r': Job) {
    && SameIdentity(r, r')
    && (EverStarted(r) ==> EverStarted(r'))
    && (r.state != Pending ==> r'.name == r.name)
    && (r.state.IsTerminal() ==> r'.state.IsTerminal() && (IsBatch(r) ==> r' == r))
    && (r.state == Completing ==> r'.state == Completing || (r'.state.IsTerminal() && !IsBatch(r)))
    && (IsBatch(r) ==> Progress(r) <= Progress(r') && (r.state != r'.state ==> Progress(r) < Progress(r')))
    && (r.state == Pending && r'.state != Pending && IsBatch(r) ==> r'.state in {Running, Cancelled})
    && (r.state == Running && r'.state == Pending ==> r.requeue && r.requeueCount == 0 && r'.requeueCount == 1)
  }

  /** A row that becomes no heavier for anything that counts running work. */
  predicate Lighter(r: Job, r': Job) {
    && (r'.state == Running ==> r.state == Running && r'.arrayJobId == r.arrayJobId)
    && (r'.state == Completing ==> r.state in {Running, Completing})
    && (Holds(r') ==> r'.parent == r.parent && LoadView(r') == LoadView(r) && r'.assignedGpus == r.assignedGpus
                      && r'.allocationOnly == r.allocationOnly)
  }

  /** The obligations of an update, on the row alone. */
  predicate RowKept(r: Job, r': Job) {
    RowStep(r, r') && RowShape(r')
  }

  predicate StartsNothing(r: Job, r': Job) {
    Lighter(r, r') && (EverStarted(r') ==> EverStarted(r))
  }

  lemma FinishMoves(r: Job, e: Ending, now: int)
    requires RowShape(r) && e.state.IsTerminal()
    requires r.state == Running || (!IsBatch(r) && !r.requeue)
    ensures RowKept(r, FinishedRow(r, e, now)) && StartsNothing(r, FinishedRow(r, e, now))
  {
  }

  lemma TerminateMoves(r: Job, reason: string, result: Option<Ending>, now: int)
    requires RowShape(r) && r.state == Running && (result.Some? ==> result.value.state.IsTerminal())
    ensures var c := MarkedRow(r, Completing, reason);
            var r' := if result.Some? then FinishedRow(c, result.value, now) else c;
            RowKept(r, r') && StartsNothing(r, r')
  {
  }

  lemma EditMoves(r: Job, e: Edit)
    requires RowShape(r) && EditAllowed(r, e)
    ensures RowKept(r, EditedRow(r, e)) && StartsNothing(r, EditedRow(r, e))
  {
  }

  lemma StartMoves(cfg: Config, s: State, a: Action)
    requires Enabled(cfg, s, a) && (a.Launch? || a.StartAllocation?)
    requires RowShape(s.table.rows[a.id])
    ensures RowKept(s.table.rows[a.id], RowAfter(cfg, s, a))
  {
  }

  lemma RowMoves(cfg: Config, s: State, a: Action)
    requires Enabled(cfg, s, a) && !IsInsert(a) && !IsRunnerOnly(a)
    requires RowShape(s.table.rows[a.id]) && TrackedRuns(s)
    ensures var r, r' := s.table.rows[a.id], RowAfter(cfg, s, a);
            && RowKept(r, r')
            && (!a.Launch? && !a.StartAllocation? ==> StartsNothing(r, r'))
  {
    hide RowKept, StartsNothing, JobFits, BlockReason, AllocateGpuIds, FinishedRow, EditedRow;
    var r := s.table.rows[a.id];
    match a
    case Launch(_, _, _, _) => StartMoves(cfg, s, a);
    case StartAllocation(_, _, _) => StartMoves(cfg, s, a);
    case ClientFinish(_, ending, now) => FinishMoves(r, ending, now);
    case Complete(_, ending, now) => FinishMoves(r, ending, now);
    case RecoverLost(_, ending, now) => FinishMoves(r, ending, now);
    case Terminate(_, reason, result, now) => TerminateMoves(r, reason, result, now);
    case Change(_, edit) => EditMoves(r, edit);
    case Tell(_, reason) => TellMoves(r, reason);
    case Adopt(_, pid, pgid) => AdoptMoves(r, pid, pgid);
    case CancelPending(_, now) => CancelMoves(r, now);
  }

  lemma TellMoves(r: Job, reason: string)
    requires RowShape(r) && r.state == Pending
    ensures RowKept(r, MarkedRow(r, Pending, reason)) && StartsNothing(r, MarkedRow(r, Pending, reason))
  {
  }

  lemma AdoptMoves(r: Job, pid: int, pgid: int)
    requires RowShape(r) && r.state == Running
    ensures RowKept(r, AdoptedRow(r, pid, pgid)) && StartsNothing(r, AdoptedRow(r, pid, pgid))
  {
  }

  lemma CancelMoves(r: Job, now: int)
    requires RowShape(r) && r.state == Pending
    ensures RowKept(r, CancelledRow(r, now)) && StartsNothing(r, CancelledRow(r, now))
  {
  }

  // ----- what holds of the whole state -----

  /** Every tracked process belongs to a RUNNING row. */
  predicate TrackedRuns(s: State) {
    forall id :: id in s.tracked ==> id in s.table.rows && s.table.rows[id].state == Running
  }

  /** A RUNNING exclusive top-level job is the only RUNNING top-level job. */
  predicate ExclusiveAlone(t: Table) {
    forall id, id' :: id in t.rows && id' in t.rows && Holds(t.rows[id]) && Holds(t.rows[id']) && t.rows[id].exclusive
      ==> id == id'
  }

  /** Tasks of one array share its limit, and a positive limit bounds how many of them run. */
  predicate ArrayLimits(t: Table) {
    && (forall id, id' :: id in t.rows && id' in t.rows && t.rows[id].arrayJobId.Some?
                          && t.rows[id].arrayJobId == t.rows[id'].arrayJobId
          ==> t.rows[id].arrayTaskLimit == t.rows[id'].arrayTaskLimit)
    && (forall id :: id in t.rows && t.rows[id].arrayJobId.Some? && t.rows[id].arrayTaskLimit.Some?
                     && t.rows[id].arrayTaskLimit.value > 0
          ==> RunningArrayTasks(t, t.rows[id].arrayJobId.value) <= t.rows[id].arrayTaskLimit.value)
  }

  /** What a dependency still guarantees after the job that names it has started.
      COMPLETED, and every other terminal state, is final for batch jobs. */
  predicate TargetKept(t: Table, kind: DependencyKind, id: int) {
    && id >= 0 && id in t.rows
    && var target := t.rows[id];
       match kind
       case After => EverStarted(target) || target.state.IsTerminal()
       case AfterAny => target.state.IsTerminal()
       case AfterOk => IsBatch(target) ==> target.state == Completed
       case AfterNotOk => target.state.IsTerminal() && (IsBatch(target) ==> target.state != Completed)
       case UnknownKind => false
  }

  predicate ClauseKept(t: Table, c: Clause) {
    match c
    case Singleton => true
    case NoColon => false
    case On(kind, ids) => ids != [] && forall k :: 0 <= k < |ids| ==> TargetKept(t, kind, ids[k])
  }

  /** No job has started before its dependencies allowed it, and they still do. */
  predicate DependenciesKept(t: Table) {
    forall id, k :: id in t.rows && EverStarted(t.rows[id]) && 0 <= k < |t.rows[id].dependency| ==>
      ClauseKept(t, t.rows[id].dependency[k])
  }

  /** A job with a `singleton` clause that has its turn. */
  predicate HasTurn(r: Job) {
    Singleton in r.dependency && r.state in {Running, Completing}
  }

  /** Of the `singleton` jobs of one user and name, at most one has its turn. */
  predicate SingletonsApart(t: Table) {
    forall id, id' :: id in t.rows && id' in t.rows && id != id' && HasTurn(t.rows[id]) && HasTurn(t.rows[id']) ==>
      t.rows[id].userName != t.rows[id'].userName || t.rows[id].name != t.rows[id'].name
  }

  predicate WellFormed(t: Table) {
    && WellNumbered(t) && t.next > 0
    && (forall id :: id in t.rows ==> RowShape(t.rows[id]))
    && (forall id :: id in t.rows && t.rows[id].arrayJobId.Some? ==> t.rows[id].arrayJobId.value < t.next)
  }

  /** Everything the daemon keeps true. */
  predicate Safe(cfg: Config, s: State) {
    && WellFormed(s.table) && TrackedRuns(s)
    && WithinCapacity(cfg, s.table) && ExclusiveAlone(s.table) && GpuLedger(cfg, s.table)
    && ArrayLimits(s.table) && DependenciesKept(s.table) && SingletonsApart(s.table)
  }

  // ----- preservation: updates that start nothing -----

  lemma LighterTotals(t: Table, id: JobId, r': Job, load: Job -> nat)
    requires WellNumbered(t) && id in t.rows && load(r') <= load(t.rows[id])
    ensures Total(t.rows[id := r'], load, t.next) <= Total(t.rows, load, t.next)
  {
    TotalUpdate(t.rows, load, t.next, id, r');
  }

  lemma LighterKeepsLedgers(cfg: Config, t: Table, id: JobId, r': Job)
    requires WellNumbered(t) && id in t.rows && Lighter(t.rows[id], r')
    requires WithinCapacity(cfg, t) && ExclusiveAlone(t) && GpuLedger(cfg, t)
    ensures var u := t.(rows := t.rows[id := r']); WithinCapacity(cfg, u) && ExclusiveAlone(u) && GpuLedger(cfg, u)
  {
    LighterTotals(t, id, r', CpuLoad);
    LighterTotals(t, id, r', MemoryLoad);
    LighterTotals(t, id, r', GpuLoad);
  }

  lemma LighterKeepsArrays(t: Table, id: JobId, r': Job)
    requires WellNumbered(t) && id in t.rows && Lighter(t.rows[id], r') && SameIdentity(t.rows[id], r')
    requires ArrayLimits(t)
    ensures ArrayLimits(t.(rows := t.rows[id := r']))
  {
    var u := t.(rows := t.rows[id := r']);
    forall k | k in u.rows && u.rows[k].arrayJobId.Some? && u.rows[k].arrayTaskLimit.Some?
               && u.rows[k].arrayTaskLimit.value > 0
      ensures RunningArrayTasks(u, u.rows[k].arrayJobId.value) <= u.rows[k].arrayTaskLimit.value
    {
      assert u.rows[k].arrayJobId == t.rows[k].arrayJobId;
      LighterTotals(t, id, r', ArrayLoad(u.rows[k].arrayJobId.value));
    }
  }

  lemma StepKeepsDependencies(t: Table, id: JobId, r': Job)
    requires id in t.rows && RowStep(t.rows[id], r') && DependenciesKept(t)
    requires EverStarted(r') && !EverStarted(t.rows[id]) ==>
               forall k :: 0 <= k < |r'.dependency| ==> ClauseKept(t, r'.dependency[k])
    ensures DependenciesKept(t.(rows := t.rows[id := r']))
  {
  }

  lemma StepKeepsSingletons(t: Table, id: JobId, r': Job)
    requires id in t.rows && RowStep(t.rows[id], r') && Lighter(t.rows[id], r') && SingletonsApart(t)
    ensures SingletonsApart(t.(rows := t.rows[id := r']))
  {
    var r := t.rows[id];
    assert HasTurn(r') ==> HasTurn(r) && r'.name == r.name && r'.userName == r.userName;
    hide RowStep, Lighter, HasTurn;
  }

  lemma StepKeepsForm(t: Table, id: JobId, r': Job)
    requires WellFormed(t) && id in t.rows && SameIdentity(t.rows[id], r') && RowShape(r')
    ensures WellFormed(t.(rows := t.rows[id := r']))
  {
  }

  lemma TrackedAfterUpdate(cfg: Config, s: State, a: Action)
    requires TrackedRuns(s) && Enabled(cfg, s, a) && !IsInsert(a)
    ensures TrackedRuns(Apply(cfg, s, a))
  {
  }

  lemma UpdateIsSafe(cfg: Config, s: State, a: Action)
    requires Safe(cfg, s) && Enabled(cfg, s, a)
    requires !IsInsert(a) && !IsRunnerOnly(a) && !a.Launch? && !a.StartAllocation?
    ensures Safe(cfg, Apply(cfg, s, a))
  {
    var t, r' := s.table, RowAfter(cfg, s, a);
    RowMoves(cfg, s, a);
    assert SameIdentity(t.rows[a.id], r');
    TrackedAfterUpdate(cfg, s, a);
    hide RowAfter, RowStep, Lighter, RowShape, WithinCapacity, ExclusiveAlone, GpuLedger, ArrayLimits, DependenciesKept,
         SingletonsApart,
         SameIdentity, TrackedRuns;
    LighterKeepsLedgers(cfg, t, a.id, r');
    LighterKeepsArrays(t, a.id, r');
    StepKeepsDependencies(t, a.id, r');
    StepKeepsSingletons(t, a.id, r');
    StepKeepsForm(t, a.id, r');
  }

  // ----- preservation: starts -----

  /** A start that the admission test allowed fits beside what already runs. */
  lemma StartKeepsCapacity(cfg: Config, t: Table, id: JobId, r': Job)
    requires cfg.Valid() && WellNumbered(t) && id in t.rows && WithinCapacity(cfg, t)
    requires JobFits(cfg, t, t.rows[id]) && t.rows[id].state == Pending && Holds(r') && SameIdentity(t.rows[id], r')
    ensures WithinCapacity(cfg, t.(rows := t.rows[id := r']))
  {
    var r := t.rows[id];
    TotalUpdate(t.rows, CpuLoad, t.next, id, r');
    TotalUpdate(t.rows, MemoryLoad, t.next, id, r');
    TotalUpdate(t.rows, GpuLoad, t.next, id, r');
    SaturatingMulComparesExactly(r.cpus, r.tasks, Available(cfg, t).cpus);
  }

  /** The admission test, with all its saturating arithmetic, admits exactly the
      jobs whose start would keep the machine within its totals, would not join
      or bring an exclusive job, and would use GPUs only in a GPU partition. */
  lemma AdmissionIsExact(cfg: Config, t: Table, id: JobId, r': Job)
    requires cfg.Valid() && WellNumbered(t) && id in t.rows && WithinCapacity(cfg, t)
    requires t.rows[id].state == Pending && Holds(r') && SameIdentity(t.rows[id], r')
    ensures JobFits(cfg, t, t.rows[id])
       <==> && WithinCapacity(cfg, t.(rows := t.rows[id := r']))
            && (forall k :: k in t.rows && Holds(t.rows[k]) ==> !t.rows[k].exclusive && !r'.exclusive)
            && (cfg.IsGpuPartition(t.rows[id].partition) || t.rows[id].gpus == 0)
  {
    var r := t.rows[id];
    TotalUpdate(t.rows, CpuLoad, t.next, id, r');
    TotalUpdate(t.rows, MemoryLoad, t.next, id, r');
    TotalUpdate(t.rows, GpuLoad, t.next, id, r');
    SaturatingMulComparesExactly(r.cpus, r.tasks, Available(cfg, t).cpus);
  }

  lemma StartKeepsExclusive(cfg: Config, t: Table, id: JobId, r': Job)
    requires id in t.rows && ExclusiveAlone(t)
    requires JobFits(cfg, t, t.rows[id]) && SameIdentity(t.rows[id], r')
    ensures ExclusiveAlone(t.(rows := t.rows[id := r']))
  {
  }

  lemma StartKeepsGpus(cfg: Config, t: Table, id: JobId, r': Job)
    requires id in t.rows && GpuLedger(cfg, t) && GoodAssignment(cfg, r')
    requires forall k :: k in t.rows && k != id && Holds(t.rows[k]) ==>
               Disjoint(r'.assignedGpus, t.rows[k].assignedGpus)
    ensures GpuLedger(cfg, t.(rows := t.rows[id := r']))
  {
  }

  /** The ids a launch takes are the number it asked for, and nobody else's. */
  lemma LaunchTakesFreeGpus(cfg: Config, t: Table, r: Job)
    requires WellNumbered(t) && JobFits(cfg, t, r) && LaunchGpus(cfg, t, r).Ok? && !r.allocationOnly
    ensures var ids := LaunchGpus(cfg, t, r).value;
            && Distinct(ids) && (forall g: nat :: g in ids ==> g < cfg.totalGpus) && |ids| == r.gpus
            && forall k :: k in t.rows && Holds(t.rows[k]) ==> Disjoint(ids, t.rows[k].assignedGpus)
  {
    if cfg.IsGpuPartition(r.partition) { AllocationIsFresh(cfg, t, r.gpus); }
  }

  lemma StartKeepsArrays(t: Table, id: JobId, r': Job)
    requires WellNumbered(t) && id in t.rows && SameIdentity(t.rows[id], r') && ArrayLimits(t)
    requires t.rows[id].arrayJobId.Some? && t.rows[id].arrayTaskLimit.Some? && t.rows[id].arrayTaskLimit.value > 0 ==>
               RunningArrayTasks(t, t.rows[id].arrayJobId.value) < t.rows[id].arrayTaskLimit.value
    ensures ArrayLimits(t.(rows := t.rows[id := r']))
  {
    var r, u := t.rows[id], t.(rows := t.rows[id := r']);
    forall k | k in u.rows && u.rows[k].arrayJobId.Some? && u.rows[k].arrayTaskLimit.Some?
               && u.rows[k].arrayTaskLimit.value > 0
      ensures RunningArrayTasks(u, u.rows[k].arrayJobId.value) <= u.rows[k].arrayTaskLimit.value
    {
      assert u.rows[k].arrayJobId == t.rows[k].arrayJobId && u.rows[k].arrayTaskLimit == t.rows[k].arrayTaskLimit;
      var a := u.rows[k].arrayJobId.value;
      TotalUpdate(t.rows, ArrayLoad(a), t.next, id, r');
    }
  }

  /** Dependencies that allowed a start are kept by it; a `singleton` clause
      allowed it because no other job of the user and name was active. */
  lemma SatisfiedMeansKept(t: Table, r: Job)
    requires DependencySatisfied(t, r)
    ensures forall k :: 0 <= k < |r.dependency| ==> ClauseKept(t, r.dependency[k])
    ensures Singleton in r.dependency ==> !HasActiveJobWithName(t, r.userName, r.name, r.id)
  {
    if Singleton in r.dependency {
      var k :| 0 <= k < |r.dependency| && r.dependency[k] == Singleton;
      assert ClauseSatisfied(t, r, r.dependency[k]);
    }
  }

  lemma StartKeepsSingletons(t: Table, id: JobId, r': Job)
    requires id in t.rows && t.rows[id].id == id && SameIdentity(t.rows[id], r') && r'.name == t.rows[id].name
    requires SingletonsApart(t)
    requires Singleton in t.rows[id].dependency ==> !HasActiveJobWithName(t, t.rows[id].userName, t.rows[id].name, id)
    ensures SingletonsApart(t.(rows := t.rows[id := r']))
  {
    var r := t.rows[id];
    assert r'.dependency == r.dependency && r'.userName == r.userName;
    hide SameIdentity;
  }

  /** What a start does to its row, and what let it happen. */
  lemma StartFacts(cfg: Config, s: State, a: Action)
    requires Safe(cfg, s) && Enabled(cfg, s, a) && (a.Launch? || a.StartAllocation?)
    ensures var t, r, r' := s.table, s.table.rows[a.id], RowAfter(cfg, s, a);
            && SameIdentity(r, r') && Holds(r') && RowStep(r, r') && RowShape(r')
            && r.state == Pending && JobFits(cfg, t, r)
            && (forall k :: 0 <= k < |r.dependency| ==> ClauseKept(t, r.dependency[k]))
            && r'.name == r.name
            && (Singleton in r.dependency ==> !HasActiveJobWithName(t, r.userName, r.name, r.id))
            && (r.arrayJobId.Some? && r.arrayTaskLimit.Some? && r.arrayTaskLimit.value > 0 ==>
                  RunningArrayTasks(t, r.arrayJobId.value) < r.arrayTaskLimit.value)
  {
    var t, r, r' := s.table, s.table.rows[a.id], RowAfter(cfg, s, a);
    assert DependencySatisfied(t, r);
    SatisfiedMeansKept(t, r);
    hide DependencySatisfied, ClauseKept, HasActiveJobWithName, JobFits, RunningArrayTasks, AllocateGpuIds;
    StartMoves(cfg, s, a);
  }

  lemma StartIsSafe(cfg: Config, s: State, a: Action)
    requires cfg.Valid() && Safe(cfg, s) && Enabled(cfg, s, a) && (a.Launch? || a.StartAllocation?)
    ensures Safe(cfg, Apply(cfg, s, a))
  {
    hide RowAfter, RowStep, RowShape, WithinCapacity, ExclusiveAlone, GpuLedger, ArrayLimits, DependenciesKept,
         SingletonsApart,
         TrackedRuns, ClauseKept, RunningArrayTasks, GoodAssignment, JobFits, BlockReason;
    var t, r, r' := s.table, s.table.rows[a.id], RowAfter(cfg, s, a);
    StartFacts(cfg, s, a);
    TrackedAfterUpdate(cfg, s, a);
    StartGetsGpus(cfg, s, a);
    StartKeepsCapacity(cfg, t, a.id, r');
    StartKeepsExclusive(cfg, t, a.id, r');
    StartKeepsGpus(cfg, t, a.id, r');
    StartKeepsArrays(t, a.id, r');
    StartKeepsSingletons(t, a.id, r');
    StepKeepsDependencies(t, a.id, r');
    StepKeepsForm(t, a.id, r');
  }

  lemma StartGetsGpus(cfg: Config, s: State, a: Action)
    requires WellFormed(s.table) && Enabled(cfg, s, a) && (a.Launch? || a.StartAllocation?)
    ensures var r' := RowAfter(cfg, s, a);
            && GoodAssignment(cfg, r')
            && forall k :: k in s.table.rows && k != a.id && Holds(s.table.rows[k]) ==>
                 Disjoint(r'.assignedGpus, s.table.rows[k].assignedGpus)
  {
    if a.Launch? { LaunchTakesFreeGpus(cfg, s.table, s.table.rows[a.id]); }
  }

  // ----- preservation: new rows -----

  /** A row that is added at the end and counts for nothing yet. */
  predicate FreshRow(t: Table, r: Job) {
    && r.id == t.next && RowShape(r) && !Holds(r)
    && (r.arrayJobId.Some? ==> r.state != Running)
    && (EverStarted(r) ==> r.dependency == [])
  }

  lemma NewRowTotals(t: Table, r: Job, load: Job -> nat)
    requires WellNumbered(t) && load(r) == 0
    ensures Total(t.rows[t.next := r], load, t.next + 1) == Total(t.rows, load, t.next)
  {
    TotalUpdate(t.rows, load, t.next + 1, t.next, r);
    TotalBeyond(t.rows, load, t.next, t.next + 1);
  }

  /** A fresh row has no turn and holds nothing, so inserting it changes no ledger. */
  lemma InsertKeepsLedgers(cfg: Config, t: Table, r: Job)
    requires WellFormed(t) && FreshRow(t, r) && (r.arrayJobId.Some? ==> r.arrayJobId.value <= t.next)
    requires WithinCapacity(cfg, t) && ExclusiveAlone(t) && GpuLedger(cfg, t) && DependenciesKept(t)
    requires SingletonsApart(t)
    ensures var u := InsertRow(t, r);
            && WellFormed(u) && WithinCapacity(cfg, u) && ExclusiveAlone(u) && GpuLedger(cfg, u)
            && DependenciesKept(u) && SingletonsApart(u)
  {
    InsertKeepsDependencies(t, r);
    InsertKeepsSingletons(t, r);
    hide DependenciesKept, SingletonsApart;
    NewRowTotals(t, r, CpuLoad);
    NewRowTotals(t, r, MemoryLoad);
    NewRowTotals(t, r, GpuLoad);
    assert t.next !in t.rows;
  }

  lemma InsertKeepsSingletons(t: Table, r: Job)
    requires WellFormed(t) && FreshRow(t, r) && SingletonsApart(t)
    ensures SingletonsApart(InsertRow(t, r))
  {
    assert !HasTurn(r);
    hide HasTurn, FreshRow;
  }

  lemma InsertKeepsDependencies(t: Table, r: Job)
    requires WellFormed(t) && FreshRow(t, r) && DependenciesKept(t)
    ensures DependenciesKept(InsertRow(t, r))
  {
    var u := InsertRow(t, r);
    assert t.next !in t.rows;
    forall id, k | id in u.rows && EverStarted(u.rows[id]) && 0 <= k < |u.rows[id].dependency|
      ensures ClauseKept(u, u.rows[id].dependency[k])
    {
      assert id in t.rows;
      InsertKeepsClause(t, r, u.rows[id].dependency[k]);
    }
  }

  lemma InsertKeepsClause(t: Table, r: Job, c: Clause)
    requires t.next !in t.rows && ClauseKept(t, c)
    ensures ClauseKept(InsertRow(t, r), c)
  {
  }

  lemma InsertKeepsArrays(t: Table, r: Job)
    requires WellFormed(t) && FreshRow(t, r) && ArrayLimits(t)
    requires forall id :: id in t.rows && r.arrayJobId.Some? && t.rows[id].arrayJobId == r.arrayJobId ==>
               t.rows[id].arrayTaskLimit == r.arrayTaskLimit
    requires r.arrayJobId.Some? && r.arrayTaskLimit.Some? && r.arrayTaskLimit.value > 0 ==>
               RunningArrayTasks(t, r.arrayJobId.value) <= r.arrayTaskLimit.value
    ensures ArrayLimits(InsertRow(t, r))
  {
    var u := InsertRow(t, r);
    forall k | k in u.rows && u.rows[k].arrayJobId.Some? && u.rows[k].arrayTaskLimit.Some?
               && u.rows[k].arrayTaskLimit.value > 0
      ensures RunningArrayTasks(u, u.rows[k].arrayJobId.value) <= u.rows[k].arrayTaskLimit.value
    {
      NewRowTotals(t, r, ArrayLoad(u.rows[k].arrayJobId.value));
    }
  }

  lemma InsertOneIsSafe(cfg: Config, s: State, r: Job)
    requires Safe(cfg, s) && FreshRow(s.table, r) && r.arrayJobId.None?
    ensures Safe(cfg, s.(table := InsertRow(s.table, r)))
  {
    InsertKeepsLedgers(cfg, s.table, r);
    InsertKeepsArrays(s.table, r);
  }

  /** The array under construction: its tasks share the limit and none runs. */
  predicate BuildingArray(t: Table, spec: ArrayTasks, first: JobId) {
    forall id :: id in t.rows && t.rows[id].arrayJobId == Some(first) ==>
      t.rows[id].arrayTaskLimit == spec.limit && t.rows[id].state != Running
  }

  lemma NoneRunning(t: Table, first: JobId, n: nat)
    requires forall id :: id in t.rows && t.rows[id].arrayJobId == Some(first) ==> t.rows[id].state != Running
    ensures Total(t.rows, ArrayLoad(first), n) == 0
  {
  }

  lemma {:induction false} InsertTasksIsSafe(cfg: Config, s: State, req: SubmitRequest, spec: ArrayTasks,
                                             first: JobId, now: int)
    requires Safe(cfg, s) && first <= s.table.next <= first + |spec.taskIds| && BuildingArray(s.table, spec, first)
    ensures Safe(cfg, s.(table := InsertTasks(s.table, req, spec, first, now)))
    decreases first + |spec.taskIds| - s.table.next
  {
    var t := s.table;
    if t.next < first + |spec.taskIds| {
      TaskIsSafe(cfg, s, req, spec, first, now);
      hide Safe;
      InsertTasksIsSafe(cfg, s.(table := InsertRow(t, TaskRow(req, spec, first, t.next, now))), req, spec, first, now);
    }
  }

  lemma TaskIsFresh(t: Table, req: SubmitRequest, spec: ArrayTasks, first: JobId, now: int)
    requires first <= t.next < first + |spec.taskIds|
    ensures var r := TaskRow(req, spec, first, t.next, now);
            FreshRow(t, r) && r.arrayJobId == Some(first) && r.arrayTaskLimit == spec.limit && r.state == Pending
  {
  }

  lemma TaskIsSafe(cfg: Config, s: State, req: SubmitRequest, spec: ArrayTasks, first: JobId, now: int)
    requires Safe(cfg, s) && first <= s.table.next < first + |spec.taskIds| && BuildingArray(s.table, spec, first)
    ensures var u := s.(table := InsertRow(s.table, TaskRow(req, spec, first, s.table.next, now)));
            Safe(cfg, u) && BuildingArray(u.table, spec, first)
  {
    hide TaskRow, FreshRow, RowShape;
    hide WithinCapacity, ExclusiveAlone, GpuLedger, ArrayLimits, DependenciesKept, SingletonsApart;
    var t := s.table;
    var r := TaskRow(req, spec, first, t.next, now);
    TaskIsFresh(t, req, spec, first, now);
    NoneRunning(t, first, t.next);
    assert TrackedRuns(s.(table := InsertRow(t, r)));
    assert BuildingArray(InsertRow(t, r), spec, first);
    InsertKeepsLedgers(cfg, t, r);
    TaskKeepsArrays(t, r, spec, first);
  }

  lemma TaskKeepsArrays(t: Table, r: Job, spec: ArrayTasks, first: JobId)
    requires WellFormed(t) && FreshRow(t, r) && ArrayLimits(t) && BuildingArray(t, spec, first)
    requires r.arrayJobId == Some(first) && r.arrayTaskLimit == spec.limit && RunningArrayTasks(t, first) == 0
    ensures ArrayLimits(InsertRow(t, r))
  {
    hide ArrayLimits, WellFormed, FreshRow, InsertRow, RunningArrayTasks;
    InsertKeepsArrays(t, r);
  }

  // ----- the invariant theorem -----

  lemma RunnerOnlyIsSafe(cfg: Config, s: State, a: Action)
    requires Safe(cfg, s) && Enabled(cfg, s, a) && IsRunnerOnly(a)
    ensures Safe(cfg, Apply(cfg, s, a))
  {
  }

  /** Every effect keeps the invariant. */
  lemma StepIsSafe(cfg: Config, s: State, a: Action)
    requires cfg.Valid() && Safe(cfg, s) && Enabled(cfg, s, a)
    ensures Safe(cfg, Apply(cfg, s, a))
  {
    if IsRunnerOnly(a) {
      RunnerOnlyIsSafe(cfg, s, a);
    } else if a.Create? {
      InsertOneIsSafe(cfg, s, NewRow(a.req, s.table.next, None, None, None, None, a.now));
    } else if a.CreateArray? {
      InsertTasksIsSafe(cfg, s, a.req, a.spec, s.table.next, a.now);
    } else if a.CreateStep? {
      InsertOneIsSafe(cfg, s, StepRow(s.table.rows[a.parent], s.table.next, a.name, a.userName, a.now));
    } else if a.Launch? || a.StartAllocation? {
      StartIsSafe(cfg, s, a);
    } else {
      UpdateIsSafe(cfg, s, a);
    }
  }

  /** Every run keeps the invariant: capacity, exclusivity, the two GPU ledgers,
      array limits, dependencies, at most one requeue, and tracking. */
  lemma {:induction false} RunIsSafe(cfg: Config, s: State, acts: seq<Action>)
    requires cfg.Valid() && Safe(cfg, s) && Run(cfg, s, acts)
    ensures Safe(cfg, Exec(cfg, s, acts))
    decreases |acts|
  {
    if acts != [] {
      StepIsSafe(cfg, s, acts[0]);
      RunIsSafe(cfg, Apply(cfg, s, acts[0]), acts[1..]);
    }
  }

  lemma InitialIsSafe(cfg: Config)
    ensures Safe(cfg, INITIAL)
  {
  }
}
