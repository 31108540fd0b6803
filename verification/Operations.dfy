/** The daemon's operations as functions on its state: what a request, a phase of
    the main loop, or a restart makes of the two tables. */
module Operations {
  import opened Basics
  import opened Jobs
  import opened Accounting
  import opened Scheduling

  // ----- what the operating system reports -----

  datatype Exit = Exit(code: Option<int>, signal: Option<int>, oomKilled: bool)

  /** Waiting for a process that was told to stop. */
  datatype Wait = WaitFailed | Waited(exit: Exit, inTime: bool)

  /** What is left of a process group that is gone: its status file and its control group. */
  datatype Remains = Remains(code: Option<int>, oomKilled: bool)

  const SIGKILL := 9

  /** `terminal_state_with_reasons`, as polling uses it. */
  function ChildEnding(e: Exit): (r: Ending)
    ensures r.state == OutOfMemory <==> e.oomKilled
    ensures r.state == Completed <==> !e.oomKilled && e.signal.None? && e.code == Some(0)
    ensures r.exitCode == e.code && r.termSignal == e.signal && r.state in {Completed, Failed, OutOfMemory}
  {
    if e.oomKilled then Ending(OutOfMemory, e.code, e.signal, "OutOfMemory")
    else if e.signal.Some? then Ending(Failed, e.code, e.signal, "Signal")
    else if e.code == Some(0) then Ending(Completed, e.code, e.signal, "Completed")
    else if e.code.Some? then Ending(Failed, e.code, e.signal, "NonZeroExitCode")
    else Ending(Failed, e.code, e.signal, "UnknownFailure")
  }

  /** `recovered_terminal_state`. */
  function LostEnding(m: Remains): (r: Ending)
    ensures r.state == OutOfMemory <==> m.oomKilled
    ensures r.state == Completed <==> !m.oomKilled && m.code == Some(0)
    ensures r.reason == "LostAfterRestart" <==> !m.oomKilled && m.code.None?
    ensures r.termSignal.None? && r.state in {Completed, Failed, OutOfMemory}
  {
    if m.oomKilled then Ending(OutOfMemory, None, None, "OutOfMemory")
    else if m.code == Some(0) then Ending(Completed, m.code, None, "Completed")
    else if m.code.Some? then Ending(Failed, m.code, None, "NonZeroExitCode")
    else Ending(Failed, None, None, "LostAfterRestart")
  }

  /** How a terminated job ends, once waiting for it has succeeded. */
  function TerminationEnding(x: Tracked, exit: Exit, inTime: bool, state: JobState, reason: string): (r: Ending)
    ensures r.state == if exit.oomKilled then OutOfMemory else state
    ensures x.adopted ==> r.exitCode.None? && r.termSignal == Some(SIGKILL)
    ensures !x.adopted ==> r.exitCode == exit.code && (exit.signal.Some? ==> r.termSignal == exit.signal)
    ensures r.termSignal.None? ==> !x.adopted && inTime && exit.signal.None?
  {
    var code := if x.adopted then None else exit.code;
    var signal := if x.adopted then Some(SIGKILL)
                  else if inTime || exit.signal.Some? then exit.signal
                  else Some(SIGKILL);
    if exit.oomKilled then Ending(OutOfMemory, code, signal, "OutOfMemory") else Ending(state, code, signal, reason)
  }

  datatype Outcome = Outcome(state: State, ok: bool)

  predicate Numbered(t: Table) {
    WellNumbered(t) && t.next > 0
  }

  /** What every operation finds and leaves: rows under their ids, and a row for every tracked process. */
  predicate Consistent(s: State) {
    Numbered(s.table) && s.tracked.Keys <= s.table.rows.Keys
  }

  // ----- terminating -----

  /** `terminate_tracked_job`: out of the runner's table, COMPLETING, and ended if the wait succeeds. */
  function Terminated(s: State, id: JobId, wait: Wait, final: JobState, reason: string, now: int): Outcome
    requires id in s.tracked
  {
    var t := Mark(s.table, id, Completing, reason);
    match wait
    case WaitFailed => Outcome(State(t, s.tracked - {id}), false)
    case Waited(exit, inTime) =>
      Outcome(State(Finish(t, id, TerminationEnding(s.tracked[id], exit, inTime, final, reason), now),
                    s.tracked - {id}),
              id in s.table.rows)
  }

  function WaitFor(waits: map<JobId, Wait>, id: JobId): Wait {
    if id in waits then waits[id] else WaitFailed
  }

  function TerminateAll(s: State, ids: seq<JobId>, waits: map<JobId, Wait>, now: int): Outcome
    decreases |ids|
  {
    if ids == [] then Outcome(s, true)
    else if ids[0] !in s.tracked then TerminateAll(s, ids[1..], waits, now)
    else
      var first := Terminated(s, ids[0], WaitFor(waits, ids[0]), Timeout, "TimeLimit", now);
      if first.ok then TerminateAll(first.state, ids[1..], waits, now) else first
  }

  /** The first tracked job of the list whose wait fails: where TerminateAll stops. */
  function FirstFailure(tracked: map<JobId, Tracked>, ids: seq<JobId>, waits: map<JobId, Wait>): Option<JobId> {
    if ids == [] then None
    else if ids[0] in tracked && WaitFor(waits, ids[0]).WaitFailed? then Some(ids[0])
    else FirstFailure(tracked, ids[1..], waits)
  }

  /** A job whose wait has succeeded may be forgotten. */
  lemma {:induction false} SucceededIsNoFailure(tracked: map<JobId, Tracked>, id: JobId, ids: seq<JobId>,
                                                waits: map<JobId, Wait>)
    requires WaitFor(waits, id).Waited?
    ensures FirstFailure(tracked - {id}, ids, waits) == FirstFailure(tracked, ids, waits)
    decreases |ids|
  {
    if ids != [] { SucceededIsNoFailure(tracked, id, ids[1..], waits); }
  }

  /** Terminating succeeds exactly if no wait fails; otherwise it stops at the first
      job whose wait does, and leaves that job COMPLETING. */
  lemma {:induction false} TerminateAllStops(s: State, ids: seq<JobId>, waits: map<JobId, Wait>, now: int)
    requires s.tracked.Keys <= s.table.rows.Keys
    ensures var u, f := TerminateAll(s, ids, waits, now), FirstFailure(s.tracked, ids, waits);
            && u.ok == f.None?
            && (f.Some? ==> f.value in u.state.table.rows && u.state.table.rows[f.value].state == Completing)
    decreases |ids|
  {
    if ids != [] {
      if ids[0] !in s.tracked {
        TerminateAllStops(s, ids[1..], waits, now);
      } else {
        var wait := WaitFor(waits, ids[0]);
        var first := Terminated(s, ids[0], wait, Timeout, "TimeLimit", now);
        assert first.state.tracked == s.tracked - {ids[0]} && s.table.rows.Keys <= first.state.table.rows.Keys;
        if wait.Waited? {
          SucceededIsNoFailure(s.tracked, ids[0], ids[1..], waits);
          TerminateAllStops(first.state, ids[1..], waits, now);
        }
      }
    }
  }

  // ----- time limits -----

  function Deadline(start: int, limit: nat): int {
    SatAddI64(start, AsI64(limit))
  }

  predicate TimedOut(r: Job, now: int) {
    r.state == Running && r.startTime.Some? && r.timeLimit.Some?
    && now >= Deadline(r.startTime.value, r.timeLimit.value)
  }

  predicate Overdue(t: Table, id: JobId, now: int) {
    id in t.rows && TimedOut(t.rows[id], now)
  }

  /** `timed_out_jobs`, for the given order of iteration over the runner's table. */
  function TimedOutIds(t: Table, order: seq<JobId>, now: int): seq<JobId> {
    if order == [] then []
    else (if Overdue(t, order[0], now) then [order[0]] else []) + TimedOutIds(t, order[1..], now)
  }

  lemma {:induction false} TimedOutSelects(t: Table, order: seq<JobId>, now: int)
    ensures forall id :: id in TimedOutIds(t, order, now) <==> id in order && Overdue(t, id, now)
    decreases |order|
  {
    if order != [] { TimedOutSelects(t, order[1..], now); }
  }

  function WarnAt(start: int, limit: nat, secondsBeforeEnd: nat): int {
    var d := Deadline(start, limit) - AsI64(secondsBeforeEnd);
    if d > I64_MAX then I64_MAX else if d < I64_MIN then I64_MIN else d
  }

  /** `warning_signal_to_send`. */
  function WarningDue(s: State, id: JobId, now: int): Option<int> {
    if id !in s.table.rows then None
    else
      var r := s.table.rows[id];
      if r.startTime.None? || r.timeLimit.None? || r.warning.None? then None
      else if WarnAt(r.startTime.value, r.timeLimit.value, r.warning.value.secondsBeforeEnd) <= now
              && now < Deadline(r.startTime.value, r.timeLimit.value)
              && id in s.tracked && !s.tracked[id].warned
      then Some(r.warning.value.signal)
      else None
  }

  /** The signals `Signal::try_from` accepts on Linux. */
  predicate IsSignal(n: int) { 1 <= n <= 31 }

  function UnwarnedIds(tracked: map<JobId, Tracked>, order: seq<JobId>): seq<JobId> {
    if order == [] then []
    else
      (if order[0] in tracked && !tracked[order[0]].warned then [order[0]] else []) + UnwarnedIds(tracked, order[1..])
  }

  function WarnAll(s: State, ids: seq<JobId>, now: int): Outcome
    decreases |ids|
  {
    if ids == [] then Outcome(s, true)
    else
      var signal := WarningDue(s, ids[0], now);
      if signal.None? then WarnAll(s, ids[1..], now)
      else if !IsSignal(signal.value) then Outcome(s, false)
      else WarnAll(s.(tracked := s.tracked[ids[0] := s.tracked[ids[0]].(warned := true)]), ids[1..], now)
  }

  /** `enforce_timeouts`. */
  function Enforce(s: State, order: seq<JobId>, waits: map<JobId, Wait>, now: int): Outcome {
    var ended := TerminateAll(s, TimedOutIds(s.table, order, now), waits, now);
    if ended.ok then WarnAll(ended.state, UnwarnedIds(ended.state.tracked, order), now) else ended
  }

  /** The overdue job whose wait fails, if there is one: the enforcement stops there. */
  function FailedTimeout(s: State, order: seq<JobId>, waits: map<JobId, Wait>, now: int): Option<JobId> {
    FirstFailure(s.tracked, TimedOutIds(s.table, order, now), waits)
  }

  // ----- jobs that ended by themselves -----

  /** All rows of the given endings, finished at once. */
  function FinishMany(t: Table, ends: map<JobId, Ending>, now: int): Table {
    t.(rows := map id | id in t.rows :: if id in ends then FinishedRow(t.rows[id], ends[id], now) else t.rows[id])
  }

  function ChildEndings(tracked: map<JobId, Tracked>, exits: map<JobId, Exit>): map<JobId, Ending> {
    map id | id in tracked && !tracked[id].adopted && id in exits :: ChildEnding(exits[id])
  }

  function LostEndings(tracked: map<JobId, Tracked>, lost: map<JobId, Remains>): map<JobId, Ending> {
    map id | id in tracked && tracked[id].adopted && id in lost :: LostEnding(lost[id])
  }

  function FinishTracked(s: State, ends: map<JobId, Ending>, now: int): State {
    State(FinishMany(s.table, ends, now), s.tracked - ends.Keys)
  }

  /** `poll`. */
  function Polled(s: State, exits: map<JobId, Exit>, now: int): State {
    FinishTracked(s, ChildEndings(s.tracked, exits), now)
  }

  /** `reconcile_adopted`. */
  function Reconciled(s: State, lost: map<JobId, Remains>, now: int): State {
    FinishTracked(s, LostEndings(s.tracked, lost), now)
  }

  // ----- the main loop -----

  /** Everything one turn of the main loop learns from outside; order is how the
      runner's hash map happens to be iterated. */
  datatype World = World(env: Env, order: seq<JobId>, waits: map<JobId, Wait>, exits: map<JobId, Exit>,
                         lost: map<JobId, Remains>)

  /** The state from which a turn schedules, if its first phase succeeds. */
  function BeforePass(s: State, w: World): State {
    var enforced := Enforce(s, w.order, w.waits, w.env.now).state;
    Reconciled(Polled(enforced, w.exits, w.env.now), w.lost, w.env.now)
  }

  /** One turn of the main loop after the requests: time limits, ended children,
      vanished adopted processes, scheduling. A failing phase ends the process. */
  ghost function Tick(cfg: Config, s: State, w: World): Outcome
    requires WellNumbered(s.table)
  {
    var enforced := Enforce(s, w.order, w.waits, w.env.now);
    EnforceNumbered(s, w.order, w.waits, w.env.now);
    if !enforced.ok then enforced
    else
      var p := Pass(cfg, w.env, BeforePass(s, w));
      Outcome(p.state, p.ok)
  }

  lemma {:induction false} TerminateAllNumbered(s: State, ids: seq<JobId>, waits: map<JobId, Wait>, now: int)
    requires WellNumbered(s.table)
    ensures WellNumbered(TerminateAll(s, ids, waits, now).state.table)
    decreases |ids|
  {
    if ids != [] {
      if ids[0] !in s.tracked {
        TerminateAllNumbered(s, ids[1..], waits, now);
      } else {
        var first := Terminated(s, ids[0], WaitFor(waits, ids[0]), Timeout, "TimeLimit", now);
        if first.ok { TerminateAllNumbered(first.state, ids[1..], waits, now); }
      }
    }
  }

  lemma {:induction false} WarnAllKeepsTable(s: State, ids: seq<JobId>, now: int)
    ensures WarnAll(s, ids, now).state.table == s.table
    decreases |ids|
  {
    if ids != [] {
      var signal := WarningDue(s, ids[0], now);
      if signal.None? {
        WarnAllKeepsTable(s, ids[1..], now);
      } else if IsSignal(signal.value) {
        WarnAllKeepsTable(s.(tracked := s.tracked[ids[0] := s.tracked[ids[0]].(warned := true)]), ids[1..], now);
      }
    }
  }

  lemma EnforceNumbered(s: State, order: seq<JobId>, waits: map<JobId, Wait>, now: int)
    requires WellNumbered(s.table)
    ensures WellNumbered(Enforce(s, order, waits, now).state.table)
  {
    TerminateAllNumbered(s, TimedOutIds(s.table, order, now), waits, now);
    var ended := TerminateAll(s, TimedOutIds(s.table, order, now), waits, now);
    WarnAllKeepsTable(ended.state, UnwarnedIds(ended.state.tracked, order), now);
  }

  // ----- requests -----

  datatype Fields = Fields(name: Option<string>, partition: Option<string>, timeLimit: Option<nat>,
                           priority: Option<int>)
  {
    function NameChange(): Option<Edit> { if name.Some? then Some(NameEdit(name.value)) else None }
    function PartitionChange(): Option<Edit> { if partition.Some? then Some(PartitionEdit(partition.value)) else None }
    function LimitChange(): Option<Edit> { if timeLimit.Some? then Some(TimeLimitEdit(timeLimit.value)) else None }
    function PriorityChange(): Option<Edit> { if priority.Some? then Some(PriorityEdit(priority.value)) else None }
  }

  /** When `update_job_fields` succeeds. */
  predicate UpdateAccepted(r: Job, f: Fields) {
    && ((f.name.Some? || f.partition.Some? || f.priority.Some?) ==> r.state == Pending)
    && (f.timeLimit.Some? ==> !r.state.IsTerminal())
  }

  /** The row `update_job_fields` leaves: the columns are written one by one, and
      the first one that may not be written ends the update. */
  function UpdatedRow(r: Job, f: Fields): Job {
    if r.state == Pending then
      Edited(Edited(Edited(Edited(r, f.NameChange()), f.PartitionChange()), f.LimitChange()), f.PriorityChange())
    else if f.name.None? && f.partition.None? && !r.state.IsTerminal() then Edited(r, f.LimitChange())
    else r
  }

  lemma EditKeepsId(r: Job, e: Option<Edit>)
    ensures Edited(r, e).id == r.id
  {
  }

  lemma UpdateKeepsId(r: Job, f: Fields)
    ensures UpdatedRow(r, f).id == r.id
  {
    var r1 := Edited(r, f.NameChange());
    var r2 := Edited(r1, f.PartitionChange());
    EditKeepsId(r, f.NameChange());
    EditKeepsId(r1, f.PartitionChange());
    EditKeepsId(r2, f.LimitChange());
    EditKeepsId(Edited(r2, f.LimitChange()), f.PriorityChange());
    EditKeepsId(r, f.LimitChange());
    hide Edited;
  }

  /** A refused update leaves the row alone exactly unless it asks for a new time
      limit and a new priority, and nothing before them, on a job that has
      started and not finished: then the new time limit stays. */
  lemma RefusedUpdateLeavesRow(r: Job, f: Fields)
    requires !UpdateAccepted(r, f)
    ensures UpdatedRow(r, f) == r
       <==> !(r.state in {Running, Completing} && f.name.None? && f.partition.None? && f.timeLimit.Some?
              && f.priority.Some? && f.timeLimit != r.timeLimit)
  {
    if r.state in {Running, Completing} && f.name.None? && f.partition.None? && f.timeLimit.Some? {
      assert UpdatedRow(r, f).timeLimit == f.timeLimit;
    }
  }

  datatype Request =
    | SubmitBatch(req: SubmitRequest, spec: Option<ArrayTasks>)
    | SubmitRun(req: SubmitRequest, immediate: bool)
    | SubmitAlloc(req: SubmitRequest, immediate: bool)
    | StartStep(parent: JobId, name: string, userName: string)
    | AdoptAllocation(id: JobId, pid: int, pgid: int)
    | FinishAllocation(id: JobId, ending: Ending)
    | HoldJob(id: JobId)
    | ReleaseJob(id: JobId)
    | UpdateJob(id: JobId, fields: Fields)
    | CancelJob(id: JobId)

  datatype Response = Submitted(id: JobId) | CancelDone(id: JobId) | Refused

  datatype Reply = Reply(state: State, response: Response)

  function RequestFits(cfg: Config, t: Table, req: SubmitRequest): bool {
    ResourcesFit(cfg, t, req.partition, req.cpus, req.tasks, req.memoryMb, req.gpus, req.exclusive)
  }

  /** A submission without an array: one row. */
  function Inserted(t: Table, req: SubmitRequest, now: int): Table {
    InsertRow(t, NewRow(req, t.next, None, None, None, None, now))
  }

  function Created(t: Table, req: SubmitRequest, spec: Option<ArrayTasks>, now: int): Table {
    if spec.None? then Inserted(t, req, now) else InsertTasks(t, req, spec.value, t.next, now)
  }

  function Held(t: Table, id: JobId, held: bool): Table {
    if id in t.rows && t.rows[id].state == Pending
    then t.(rows := t.rows[id := t.rows[id].(held := held, reason := if held then "JobHeldUser" else "Resources")])
    else t
  }

  function CancelledIn(t: Table, id: JobId, now: int): Table {
    if id in t.rows && t.rows[id].state == Pending then t.(rows := t.rows[id := CancelledRow(t.rows[id], now)]) else t
  }

  function AdoptedEntry(r: Job): Tracked {
    Tracked(GroupOf(r), if r.pid.Some? then r.pid.value else 0, true, false)
  }

  /** `Runner::adopt`, given a row. */
  function Adopted(tracked: map<JobId, Tracked>, r: Job): map<JobId, Tracked> {
    if GroupOf(r) <= 0 then tracked else tracked[r.id := AdoptedEntry(r)]
  }

  /** Answering after one more scheduling pass. */
  ghost function Scheduled(cfg: Config, s: State, env: Env, response: Response): Reply
    requires WellNumbered(s.table)
  {
    var p := Pass(cfg, env, s);
    Reply(p.state, if p.ok then response else Refused)
  }

  lemma CreatedNumbered(t: Table, req: SubmitRequest, spec: Option<ArrayTasks>, now: int)
    requires Numbered(t)
    ensures Numbered(Created(t, req, spec, now))
  {
    if spec.Some? { InsertedTasks(t, req, spec.value, t.next, now); }
  }

  lemma FinishNumbered(t: Table, id: JobId, e: Ending, now: int)
    requires Numbered(t)
    ensures Numbered(Finish(t, id, e, now))
  {
  }

  lemma HeldNumbered(t: Table, id: JobId, held: bool)
    requires Numbered(t)
    ensures Numbered(Held(t, id, held))
  {
  }

  ghost function SubmittedBatch(cfg: Config, s: State, req: SubmitRequest, spec: Option<ArrayTasks>, env: Env): Reply
    requires Numbered(s.table)
  {
    if spec.Some? && spec.value.taskIds == [] then Reply(s, Refused)
    else
      CreatedNumbered(s.table, req, spec, env.now);
      Scheduled(cfg, s.(table := Created(s.table, req, spec, env.now)), env, Submitted(s.table.next))
  }

  /** `submit_run`. */
  function SubmittedRun(cfg: Config, s: State, req: SubmitRequest, immediate: bool, env: Env): Reply {
    var fits := RequestFits(cfg, s.table, req);
    if immediate && !fits then Reply(s, Refused)
    else
      var s1 := s.(table := Inserted(s.table, req, env.now));
      if !fits then Reply(s1, Submitted(s.table.next))
      else
        var launched := TryLaunch(cfg, s1, s.table.next, env);
        if launched.Some? then Reply(launched.value, Submitted(s.table.next)) else Reply(s1, Refused)
  }

  /** `submit_alloc`. */
  function SubmittedAlloc(cfg: Config, s: State, req: SubmitRequest, immediate: bool, now: int): Reply {
    var id, fits := s.table.next, RequestFits(cfg, s.table, req);
    if immediate && !fits then Reply(s, Refused)
    else
      var u := Inserted(s.table, req, now);
      var started := u.(rows := u.rows[id := AllocationRunningRow(u.rows[id], now)]);
      Reply(s.(table := if fits then started else u), Submitted(id))
  }

  function StartedStep(s: State, parent: JobId, name: string, userName: string, now: int): Reply {
    if parent !in s.table.rows then Reply(s, Refused)
    else Reply(s.(table := InsertRow(s.table, StepRow(s.table.rows[parent], s.table.next, name, userName, now))),
               Submitted(s.table.next))
  }

  function AllocationAdopted(s: State, id: JobId, pid: int, pgid: int): Reply {
    if id !in s.table.rows then Reply(s, Submitted(id))
    else
      var r := AdoptedRow(s.table.rows[id], pid, pgid);
      Reply(State(s.table.(rows := s.table.rows[id := r]), Adopted(s.tracked, r)), Submitted(id))
  }

  ghost function AllocationFinished(cfg: Config, s: State, id: JobId, ending: Ending, env: Env): Reply
    requires Numbered(s.table)
  {
    FinishNumbered(s.table, id, ending, env.now);
    var s1 := State(Finish(s.table, id, ending, env.now), s.tracked - {id});
    if id !in s.table.rows then Reply(s1, Refused)
    else if s1.table.rows[id].state == Pending then Scheduled(cfg, s1, env, Submitted(id))
    else Reply(s1, Submitted(id))
  }

  ghost function JobUpdated(cfg: Config, s: State, id: JobId, fields: Fields, env: Env): Reply
    requires Numbered(s.table)
  {
    if id !in s.table.rows then Reply(s, Refused)
    else
      UpdateKeepsId(s.table.rows[id], fields);
      var s1 := s.(table := s.table.(rows := s.table.rows[id := UpdatedRow(s.table.rows[id], fields)]));
      if UpdateAccepted(s.table.rows[id], fields) then Scheduled(cfg, s1, env, Submitted(id)) else Reply(s1, Refused)
  }

  /** `cancel_job`. */
  function JobCancelled(s: State, id: JobId, wait: Wait, now: int): Reply {
    if id in s.table.rows && s.table.rows[id].state == Pending
    then Reply(s.(table := CancelledIn(s.table, id, now)), CancelDone(id))
    else if id !in s.tracked then Reply(s, Refused)
    else
      var ended := Terminated(s, id, wait, JobState.Cancelled, "CancelledByUser", now);
      Reply(ended.state, if ended.ok then CancelDone(id) else Refused)
  }

  /** A cancel that comes to wait for a process, in vain. */
  predicate CancelFails(s: State, id: JobId, wait: Wait) {
    !(id in s.table.rows && s.table.rows[id].state == Pending) && id in s.tracked && wait.WaitFailed?
  }

  /** `dispatch_request`, for the requests that change something. */
  ghost function Respond(cfg: Config, s: State, request: Request, env: Env, wait: Wait): Reply
    requires Numbered(s.table)
  {
    match request
    case SubmitBatch(req, spec) => SubmittedBatch(cfg, s, req, spec, env)
    case SubmitRun(req, immediate) => SubmittedRun(cfg, s, req, immediate, env)
    case SubmitAlloc(req, immediate) => SubmittedAlloc(cfg, s, req, immediate, env.now)
    case StartStep(parent, name, userName) => StartedStep(s, parent, name, userName, env.now)
    case AdoptAllocation(id, pid, pgid) => AllocationAdopted(s, id, pid, pgid)
    case FinishAllocation(id, ending) => AllocationFinished(cfg, s, id, ending, env)
    case HoldJob(id) => Reply(s.(table := Held(s.table, id, true)), Submitted(id))
    case ReleaseJob(id) =>
      HeldNumbered(s.table, id, false);
      Scheduled(cfg, s.(table := Held(s.table, id, false)), env, Submitted(id))
    case UpdateJob(id, fields) => JobUpdated(cfg, s, id, fields, env)
    case CancelJob(id) => JobCancelled(s, id, wait, env.now)
  }

  /** The state from which a request schedules, if it comes to that. */
  ghost function BeforeScheduling(s: State, request: Request, env: Env): (v: Option<State>)
    requires Numbered(s.table)
    ensures v.Some? ==> Numbered(v.value.table)
  {
    match request
    case SubmitBatch(req, spec) =>
      if spec.Some? && spec.value.taskIds == [] then None
      else
        CreatedNumbered(s.table, req, spec, env.now);
        Some(s.(table := Created(s.table, req, spec, env.now)))
    case FinishAllocation(id, ending) =>
      FinishNumbered(s.table, id, ending, env.now);
      var s1 := State(Finish(s.table, id, ending, env.now), s.tracked - {id});
      if id in s.table.rows && s1.table.rows[id].state == Pending then Some(s1) else None
    case ReleaseJob(id) =>
      HeldNumbered(s.table, id, false);
      Some(s.(table := Held(s.table, id, false)))
    case UpdateJob(id, fields) =>
      if id !in s.table.rows || !UpdateAccepted(s.table.rows[id], fields) then None
      else
        UpdateKeepsId(s.table.rows[id], fields);
        Some(s.(table := s.table.(rows := s.table.rows[id := UpdatedRow(s.table.rows[id], fields)])))
    case _ => None
  }

  /** The row of a job that `srun` submits. */
  function RunRow(s: State, req: SubmitRequest, now: int): Job {
    NewRow(req, s.table.next, None, None, None, None, now)
  }

  /** The processes that serving a request starts, in order, recorded or not. */
  ghost function RequestSpawns(cfg: Config, s: State, request: Request, env: Env): seq<Process>
    requires Numbered(s.table)
  {
    var v := BeforeScheduling(s, request, env);
    if request.SubmitRun? && RequestFits(cfg, s.table, request.req) then
      LaunchSpawns(cfg, Inserted(s.table, request.req, env.now), RunRow(s, request.req, env.now), env)
    else if v.Some? then PassSpawns(cfg, env, v.value)
    else []
  }

  /** The job for which serving a request starts a process and then fails. */
  ghost function RequestStray(cfg: Config, s: State, request: Request, env: Env): Option<JobId>
    requires Numbered(s.table)
  {
    var v := BeforeScheduling(s, request, env);
    if request.SubmitRun? && RequestFits(cfg, s.table, request.req) then
      var strays := Strays(cfg, Inserted(s.table, request.req, env.now), RunRow(s, request.req, env.now), env);
      if strays then Some(s.table.next) else None
    else if v.Some? then PassStray(cfg, env, v.value)
    else None
  }

  lemma BeforePassNumbered(s: State, w: World)
    requires WellNumbered(s.table)
    ensures WellNumbered(BeforePass(s, w).table)
  {
    EnforceNumbered(s, w.order, w.waits, w.env.now);
  }

  ghost function TickSpawns(cfg: Config, s: State, w: World): seq<Process>
    requires WellNumbered(s.table)
  {
    BeforePassNumbered(s, w);
    if Enforce(s, w.order, w.waits, w.env.now).ok then PassSpawns(cfg, w.env, BeforePass(s, w)) else []
  }

  ghost function TickStray(cfg: Config, s: State, w: World): Option<JobId>
    requires WellNumbered(s.table)
  {
    BeforePassNumbered(s, w);
    if Enforce(s, w.order, w.waits, w.env.now).ok then PassStray(cfg, w.env, BeforePass(s, w)) else None
  }

  // ----- recovery -----

  /** What a new daemon process finds out about the jobs its predecessor left. */
  datatype Survey = Survey(alive: set<JobId>, codes: map<JobId, int>, now: int)

  function HasGroup(r: Job): bool { r.pgid.Some? || r.pid.Some? }

  /** The job's process group exists; a group id that is not positive never does. */
  predicate Survives(r: Job, v: Survey) {
    GroupOf(r) > 0 && r.id in v.alive
  }

  function RecoveryEnding(r: Job, v: Survey): Ending {
    LostEnding(Remains(if HasGroup(r) && r.id in v.codes then Some(v.codes[r.id]) else None, false))
  }

  function RecoveredRow(r: Job, v: Survey): Job {
    if r.state == Running && !Survives(r, v) then FinishedRow(r, RecoveryEnding(r, v), v.now) else r
  }

  /** `recover`, on a fresh runner. */
  function Recovered(t: Table, v: Survey): State {
    State(t.(rows := map id | id in t.rows :: RecoveredRow(t.rows[id], v)),
          map id | id in t.rows && t.rows[id].state == Running && Survives(t.rows[id], v) ::
            AdoptedEntry(t.rows[id]))
  }

  /** Recovery of the given rows only. */
  function RecoveredSome(t: Table, v: Survey, ids: set<JobId>): State {
    State(t.(rows := map id | id in t.rows :: if id in ids then RecoveredRow(t.rows[id], v) else t.rows[id]),
          map id | id in t.rows && id in ids && t.rows[id].state == Running && Survives(t.rows[id], v) ::
            AdoptedEntry(t.rows[id]))
  }

  lemma RecoveredNone(t: Table, v: Survey)
    ensures RecoveredSome(t, v, {}) == State(t, map[])
  {
  }

  lemma RecoverOneMore(t: Table, v: Survey, ids: set<JobId>, id: JobId)
    requires id in t.rows && id !in ids && t.rows[id].state == Running && t.rows[id].id == id
    ensures var s, u := RecoveredSome(t, v, ids), RecoveredSome(t, v, ids + {id});
            && id in s.table.rows
            && u == if Survives(t.rows[id], v) then s.(tracked := s.tracked[id := AdoptedEntry(t.rows[id])])
                    else s.(table := Finish(s.table, id, RecoveryEnding(t.rows[id], v), v.now))
  {
    hide AdoptedEntry;
  }

  lemma NothingToRecover(t: Table, v: Survey, ids: set<JobId>, id: JobId)
    requires id in t.rows ==> t.rows[id].state != Running
    ensures RecoveredSome(t, v, ids + {id}) == RecoveredSome(t, v, ids)
  {
    var s, u := RecoveredSome(t, v, ids + {id}), RecoveredSome(t, v, ids);
    assert s.table.rows == u.table.rows;
    assert s.tracked == u.tracked;
  }

  lemma RecoveredAll(t: Table, v: Survey, ids: set<JobId>)
    requires forall id :: id in t.rows && t.rows[id].state == Running ==> id in ids
    ensures RecoveredSome(t, v, ids) == Recovered(t, v)
  {
    var s, u := RecoveredSome(t, v, ids), Recovered(t, v);
    assert s.table.rows == u.table.rows;
    assert s.tracked == u.tracked;
  }
}
