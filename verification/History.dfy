/** Theorems about whole runs: what happens to one job over its life, and how
    the store and the runner agree. */
module History {
  import opened Jobs
  import opened Accounting
  import opened Scheduling
  import opened Lifecycle

  // ----- rows over a run -----

  /** A row as it is inserted: waiting, or a step of a running allocation. */
  predicate Newborn(r: Job) {
    && r.requeueCount == 0
    && (if r.parent.Some? then r.state == Running else r.state == Pending && r.startTime.None?)
  }

  /** An insertion leaves the rows that are there and adds newborn ones. */
  lemma InsertAddsNewborns(cfg: Config, s: State, a: Action)
    requires Enabled(cfg, s, a) && IsInsert(a) && WellNumbered(s.table)
    ensures var t, u := s.table, Apply(cfg, s, a).table;
            && (forall id :: id in t.rows ==> id in u.rows && u.rows[id] == t.rows[id])
            && (forall id :: id in u.rows && id !in t.rows ==> Newborn(u.rows[id]))
  {
    if a.CreateArray? { InsertedTasks(s.table, a.req, a.spec, s.table.next, a.now); }
  }

  /** Anything else keeps the set of rows and changes at most the row it names. */
  lemma UpdateTouchesOne(cfg: Config, s: State, a: Action)
    requires Enabled(cfg, s, a) && !IsInsert(a)
    ensures var t, u := s.table, Apply(cfg, s, a).table;
            && u.rows.Keys == t.rows.Keys
            && (IsRunnerOnly(a) ==> u == t)
            && (!IsRunnerOnly(a) ==> a.id in t.rows && u.rows == t.rows[a.id := RowAfter(cfg, s, a)])
  {
  }

  lemma StepMovesRow(cfg: Config, s: State, a: Action, id: JobId)
    requires Safe(cfg, s) && Enabled(cfg, s, a) && id in s.table.rows
    ensures var u := Apply(cfg, s, a).table; id in u.rows && RowStep(s.table.rows[id], u.rows[id])
  {
    hide Enabled, RowShape, Apply, RowAfter, JobFits, BlockReason;
    hide WithinCapacity, ExclusiveAlone, GpuLedger, ArrayLimits, DependenciesKept, SingletonsApart;
    if IsInsert(a) {
      InsertAddsNewborns(cfg, s, a);
    } else {
      UpdateTouchesOne(cfg, s, a);
      if !IsRunnerOnly(a) { RowMoves(cfg, s, a); }
    }
  }

  /** What many steps leave of a row. */
  predicate RowPath(r: Job, r': Job) {
    && SameIdentity(r, r')
    && (EverStarted(r) ==> EverStarted(r'))
    && (r.state.IsTerminal() ==> r'.state.IsTerminal())
    && (IsBatch(r) && r.state.IsTerminal() ==> r' == r)
    && (IsBatch(r) && r.state == Completing ==> r'.state == Completing)
    && (IsBatch(r) ==> Progress(r) <= Progress(r'))
  }

  lemma StepThenPath(r: Job, r1: Job, r2: Job)
    requires RowStep(r, r1) && RowPath(r1, r2)
    ensures RowPath(r, r2)
  {
  }

  /** Rows are never deleted, keep their identity, and only move forward: a batch
      job's terminal row never changes again, and a batch job left COMPLETING by
      a failed wait stays COMPLETING, across restarts too. */
  lemma {:induction false} RowsOverRun(cfg: Config, s: State, acts: seq<Action>, id: JobId)
    requires cfg.Valid() && Safe(cfg, s) && Run(cfg, s, acts) && id in s.table.rows
    ensures var u := Exec(cfg, s, acts).table; id in u.rows && RowPath(s.table.rows[id], u.rows[id])
    decreases |acts|
  {
    if acts != [] {
      var s1 := Apply(cfg, s, acts[0]);
      StepIsSafe(cfg, s, acts[0]);
      StepMovesRow(cfg, s, acts[0], id);
      RowsOverRun(cfg, s1, acts[1..], id);
      StepThenPath(s.table.rows[id], s1.table.rows[id], Exec(cfg, s, acts).table.rows[id]);
    }
  }

  // ----- how often a job changes state, and how often it starts -----

  /** Steps of the run that change the state of the given row. */
  ghost function StateChanges(cfg: Config, s: State, acts: seq<Action>, id: JobId): nat
    requires Run(cfg, s, acts)
    decreases |acts|
  {
    if acts == [] then 0
    else
      var s1 := Apply(cfg, s, acts[0]);
      (if id in s.table.rows && id in s1.table.rows && s.table.rows[id].state != s1.table.rows[id].state then 1 else 0)
        + StateChanges(cfg, s1, acts[1..], id)
  }

  /** Changes of state a job has ahead of it at most. */
  function Remaining(r: Job): nat {
    if r.state == Pending then (if r.requeueCount == 0 then 4 else 2)
    else if r.state == Running then (if r.requeueCount == 0 then 3 else 1)
    else 0
  }

  lemma ChangeUsesRemaining(r: Job, r': Job)
    requires RowStep(r, r') && RowShape(r) && RowShape(r') && IsBatch(r)
    ensures Remaining(r') + (if r.state != r'.state then 1 else 0) <= Remaining(r)
  {
  }

  /** No more than four effects change the state of a batch job: start, requeue,
      start, end. A termination is one effect, though it writes the state twice. */
  lemma {:induction false} AtMostFourChanges(cfg: Config, s: State, acts: seq<Action>, id: JobId)
    requires cfg.Valid() && Safe(cfg, s) && Run(cfg, s, acts)
    requires id in s.table.rows && IsBatch(s.table.rows[id])
    ensures id in Exec(cfg, s, acts).table.rows
    ensures StateChanges(cfg, s, acts, id) + Remaining(Exec(cfg, s, acts).table.rows[id])
         <= Remaining(s.table.rows[id]) <= 4
    decreases |acts|
  {
    if acts != [] {
      var s1 := Apply(cfg, s, acts[0]);
      StepIsSafe(cfg, s, acts[0]);
      StepMovesRow(cfg, s, acts[0], id);
      ChangeUsesRemaining(s.table.rows[id], s1.table.rows[id]);
      AtMostFourChanges(cfg, s1, acts[1..], id);
    }
  }

  lemma {:induction false} SeenMeansChanged(cfg: Config, s: State, acts: seq<Action>, id: JobId)
    requires cfg.Valid() && Safe(cfg, s) && Run(cfg, s, acts)
    requires id in s.table.rows && id in Exec(cfg, s, acts).table.rows
    ensures Exec(cfg, s, acts).table.rows[id].state != s.table.rows[id].state ==> StateChanges(cfg, s, acts, id) > 0
    decreases |acts|
  {
    if acts != [] {
      hide Safe, Enabled, Apply;
      StepIsSafe(cfg, s, acts[0]);
      StepMovesRow(cfg, s, acts[0], id);
      SeenMeansChanged(cfg, Apply(cfg, s, acts[0]), acts[1..], id);
    }
  }

  /** The states an effect writes into its row, in order: a termination writes
      COMPLETING before it waits and the ending after that. */
  function StatesWritten(a: Action, r': Job): seq<JobState> {
    if a.Terminate? then (if a.result.None? then [Completing] else [Completing, r'.state]) else [r'.state]
  }

  /** How many of the writes change the state. */
  function Differences(from: JobState, written: seq<JobState>): nat
    decreases |written|
  {
    if written == [] then 0 else (if written[0] != from then 1 else 0) + Differences(written[0], written[1..])
  }

  /** Writes of the run that change the state of the given row. */
  ghost function StateWrites(cfg: Config, s: State, acts: seq<Action>, id: JobId): nat
    requires Run(cfg, s, acts)
    decreases |acts|
  {
    if acts == [] then 0
    else
      var s1 := Apply(cfg, s, acts[0]);
      (if id in s.table.rows && id in s1.table.rows && !IsInsert(acts[0]) && !IsRunnerOnly(acts[0]) && acts[0].id == id
       then Differences(s.table.rows[id].state, StatesWritten(acts[0], s1.table.rows[id])) else 0)
        + StateWrites(cfg, s1, acts[1..], id)
  }

  /** State-changing writes a job has ahead of it at most: three per attempt. */
  function RemainingWrites(r: Job): nat {
    if r.state == Pending then (if r.requeueCount == 0 then 6 else 3)
    else if r.state == Running then (if r.requeueCount == 0 then 5 else 2)
    else 0
  }

  lemma WritesUseRemaining(a: Action, r: Job, r': Job)
    requires RowStep(r, r') && RowShape(r) && RowShape(r') && IsBatch(r) && (a.Terminate? ==> r.state == Running)
    requires a.Terminate? ==>
               if a.result.None? then r'.state == Completing else r'.state == Pending || r'.state.IsTerminal()
    ensures RemainingWrites(r') + Differences(r.state, StatesWritten(a, r')) <= RemainingWrites(r)
  {
    assert Differences(r'.state, []) == 0;
    if a.Terminate? && a.result.Some? {
      assert StatesWritten(a, r')[1..] == [r'.state];
      assert Differences(Completing, [r'.state]) == 1;
      assert r'.state == Pending ==> r.requeueCount == 0;
    }
  }

  lemma UnwrittenKeepsState(cfg: Config, s: State, a: Action, id: JobId)
    requires Safe(cfg, s) && Enabled(cfg, s, a) && id in s.table.rows
    requires IsInsert(a) || IsRunnerOnly(a) || a.id != id
    ensures id in Apply(cfg, s, a).table.rows && Apply(cfg, s, a).table.rows[id] == s.table.rows[id]
  {
    SafeIsWellNumbered(cfg, s);
    hide Safe, Enabled, Apply, RowAfter, WellNumbered;
    if IsInsert(a) { InsertAddsNewborns(cfg, s, a); } else { UpdateTouchesOne(cfg, s, a); }
  }

  lemma TerminationWrites(cfg: Config, s: State, a: Action)
    requires Safe(cfg, s) && Enabled(cfg, s, a) && a.Terminate?
    ensures a.id in s.table.rows && s.table.rows[a.id].state == Running
    ensures a.id in Apply(cfg, s, a).table.rows
    ensures var r' := Apply(cfg, s, a).table.rows[a.id];
            if a.result.None? then r'.state == Completing else r'.state == Pending || r'.state.IsTerminal()
  {
    var r := s.table.rows[a.id];
    assert r.state == Running;
    if a.result.Some? { FinishEndsOrRequeues(MarkedRow(r, Completing, a.reason), a.result.value, a.now); }
    hide Safe, FinishedRow;
  }

  lemma FinishEndsOrRequeues(r: Job, e: Ending, now: int)
    requires e.state.IsTerminal()
    ensures FinishedRow(r, e, now).state == Pending || FinishedRow(r, e, now).state.IsTerminal()
  {
  }

  /** No more than six writes change the state of a batch job: RUNNING, COMPLETING
      and an ending or a requeue, for each of two attempts. */
  lemma {:induction false} AtMostSixWrites(cfg: Config, s: State, acts: seq<Action>, id: JobId)
    requires cfg.Valid() && Safe(cfg, s) && Run(cfg, s, acts)
    requires id in s.table.rows && IsBatch(s.table.rows[id])
    ensures StateWrites(cfg, s, acts, id) <= RemainingWrites(s.table.rows[id]) <= 6
    decreases |acts|
  {
    if acts != [] {
      var a, s1 := acts[0], Apply(cfg, s, acts[0]);
      StepIsSafe(cfg, s, a);
      StepMovesRow(cfg, s, a, id);
      var r, r' := s.table.rows[id], s1.table.rows[id];
      SafeShapes(cfg, s, id);
      SafeShapes(cfg, s1, id);
      hide Safe, Enabled, Apply, RowStep, RowShape, RemainingWrites, StatesWritten, Differences;
      if IsInsert(a) || IsRunnerOnly(a) || a.id != id {
        UnwrittenKeepsState(cfg, s, a, id);
      } else {
        if a.Terminate? { TerminationWrites(cfg, s, a); }
        WritesUseRemaining(a, r, r');
      }
      BatchStays(r, r');
      AtMostSixWrites(cfg, s1, acts[1..], id);
    }
    RemainingAtMostSix(s.table.rows[id]);
  }

  lemma RemainingAtMostSix(r: Job)
    ensures RemainingWrites(r) <= 6
  {
  }

  lemma BatchStays(r: Job, r': Job)
    requires RowStep(r, r')
    ensures IsBatch(r') == IsBatch(r)
  {
  }

  lemma SafeShapes(cfg: Config, s: State, id: JobId)
    requires Safe(cfg, s) && id in s.table.rows
    ensures RowShape(s.table.rows[id])
  {
  }

  predicate StartsJob(a: Action, id: JobId) {
    (a.Launch? || a.StartAllocation?) && a.id == id
  }

  function Starts(acts: seq<Action>, id: JobId): nat {
    if acts == [] then 0 else (if StartsJob(acts[0], id) then 1 else 0) + Starts(acts[1..], id)
  }

  /** The number of attempts a top-level row records. */
  function RowAttempts(r: Job): nat {
    if r.parent.None? then r.requeueCount + (if r.startTime.Some? then 1 else 0) else 0
  }

  function Attempts(s: State, id: JobId): nat {
    if id in s.table.rows then RowAttempts(s.table.rows[id]) else 0
  }

  lemma FinishKeepsAttempts(r: Job, e: Ending, now: int)
    requires RowShape(r) && (r.state == Running || r.state == Completing || !r.requeue)
    ensures RowAttempts(FinishedRow(r, e, now)) == RowAttempts(r)
  {
  }

  lemma EditKeepsAttempts(r: Job, e: Edit)
    ensures RowAttempts(EditedRow(r, e)) == RowAttempts(r)
  {
  }

  lemma UpdateCountsStart(cfg: Config, s: State, a: Action)
    requires Enabled(cfg, s, a) && !IsInsert(a) && !IsRunnerOnly(a) && a.id in s.table.rows
    requires RowShape(s.table.rows[a.id]) && TrackedRuns(s)
    ensures RowAttempts(RowAfter(cfg, s, a)) == RowAttempts(s.table.rows[a.id]) + (if StartsJob(a, a.id) then 1 else 0)
  {
    hide JobFits, BlockReason, AllocateGpuIds, FinishedRow, LaunchGpus, EditedRow;
    var r := s.table.rows[a.id];
    if a.Change? { EditKeepsAttempts(r, a.edit); }
    if a.ClientFinish? || a.Complete? || a.RecoverLost? {
      FinishKeepsAttempts(r, a.ending, a.now);
    } else if a.Terminate? && a.result.Some? {
      FinishKeepsAttempts(MarkedRow(r, Completing, a.reason), a.result.value, a.now);
    }
  }

  lemma StepCountsStart(cfg: Config, s: State, a: Action, id: JobId)
    requires Safe(cfg, s) && Enabled(cfg, s, a)
    ensures Attempts(Apply(cfg, s, a), id) == Attempts(s, id) + (if StartsJob(a, id) then 1 else 0)
  {
    hide Enabled, RowShape, Apply, RowAfter;
    hide WithinCapacity, ExclusiveAlone, GpuLedger, ArrayLimits, DependenciesKept, SingletonsApart;
    if IsInsert(a) {
      InsertAddsNewborns(cfg, s, a);
    } else {
      UpdateTouchesOne(cfg, s, a);
      if !IsRunnerOnly(a) { UpdateCountsStart(cfg, s, a); }
    }
  }

  lemma {:induction false} StartsAddUp(cfg: Config, s: State, acts: seq<Action>, id: JobId)
    requires cfg.Valid() && Safe(cfg, s) && Run(cfg, s, acts)
    ensures Attempts(Exec(cfg, s, acts), id) == Attempts(s, id) + Starts(acts, id)
    decreases |acts|
  {
    if acts != [] {
      StepIsSafe(cfg, s, acts[0]);
      StepCountsStart(cfg, s, acts[0], id);
      StartsAddUp(cfg, Apply(cfg, s, acts[0]), acts[1..], id);
    }
  }

  /** Over any run a job has been started, with a record of it, exactly as often as
      its row says: requeue_count times, and once more if it shows a start time. So
      it is so at most twice, and twice only if it asked for a requeue. A launch
      that fails after it started a process is no start in this sense. */
  lemma StartsAreRecorded(cfg: Config, acts: seq<Action>, id: JobId)
    requires cfg.Valid() && Run(cfg, INITIAL, acts)
    ensures var s := Exec(cfg, INITIAL, acts);
            && Starts(acts, id) == Attempts(s, id) <= 2
            && (Starts(acts, id) == 2 ==> s.table.rows[id].requeue)
            && (id in s.table.rows && s.table.rows[id].state == Pending ==>
                  Starts(acts, id) == s.table.rows[id].requeueCount)
  {
    InitialIsSafe(cfg);
    RunIsSafe(cfg, INITIAL, acts);
    StartsAddUp(cfg, INITIAL, acts, id);
    var s := Exec(cfg, INITIAL, acts);
    if id in s.table.rows { assert RowShape(s.table.rows[id]); }
  }

  /** A job that is to be requeued never shows the failure of its first attempt:
      FAILED, TIMEOUT and OUT_OF_MEMORY are seen only after the last one. */
  lemma FailureIsLastAttempt(cfg: Config, acts: seq<Action>, id: JobId)
    requires cfg.Valid() && Run(cfg, INITIAL, acts)
    requires id in Exec(cfg, INITIAL, acts).table.rows
    ensures var r := Exec(cfg, INITIAL, acts).table.rows[id];
            r.requeue && r.state in {Failed, Timeout, OutOfMemory} ==>
              r.requeueCount == 1 && (IsBatch(r) ==> Starts(acts, id) == 2)
  {
    InitialIsSafe(cfg);
    RunIsSafe(cfg, INITIAL, acts);
    StartsAddUp(cfg, INITIAL, acts, id);
    assert RowShape(Exec(cfg, INITIAL, acts).table.rows[id]);
  }

  // ----- dependencies over a run -----

  /** A job with `afterok` on a batch job has started only if that job is
      COMPLETED, and however the run goes on, it stays so, row and all. */
  lemma AfterOkIsSound(cfg: Config, acts: seq<Action>, more: seq<Action>, id: JobId, k: nat, target: JobId)
    requires cfg.Valid() && Run(cfg, INITIAL, acts) && Run(cfg, Exec(cfg, INITIAL, acts), more)
    requires var rows := Exec(cfg, INITIAL, acts).table.rows;
             && id in rows && EverStarted(rows[id]) && k < |rows[id].dependency|
             && rows[id].dependency[k].On? && rows[id].dependency[k].kind == AfterOk
             && target in rows[id].dependency[k].ids && target in rows && IsBatch(rows[target])
    ensures var s := Exec(cfg, INITIAL, acts); var u := Exec(cfg, s, more);
            && s.table.rows[target].state == Completed
            && target in u.table.rows && u.table.rows[target] == s.table.rows[target]
  {
    InitialIsSafe(cfg);
    RunIsSafe(cfg, INITIAL, acts);
    var s := Exec(cfg, INITIAL, acts);
    var c := s.table.rows[id].dependency[k];
    assert ClauseKept(s.table, c);
    var m :| 0 <= m < |c.ids| && c.ids[m] == target;
    assert TargetKept(s.table, AfterOk, c.ids[m]);
    RowsOverRun(cfg, s, more, target);
  }

  /** Every job of the set is batch work that waits, with `afterok`, for another one of it. */
  ghost predicate WaitInCircles(t: Table, circle: set<JobId>) {
    forall c :: c in circle && c in t.rows ==>
      IsBatch(t.rows[c]) && exists k, m :: WaitsFor(t.rows[c], k, m, circle)
  }

  predicate WaitsFor(r: Job, k: int, m: int, circle: set<JobId>) {
    && 0 <= k < |r.dependency| && r.dependency[k].On? && r.dependency[k].kind == AfterOk
    && 0 <= m < |r.dependency[k].ids| && r.dependency[k].ids[m] >= 0
    && (r.dependency[k].ids[m] as nat) in circle
  }

  ghost predicate NoneStarted(t: Table, circle: set<JobId>) {
    forall c :: c in circle && c in t.rows ==> !EverStarted(t.rows[c])
  }

  /** A member of the circle cannot start: the one it waits for has not completed. */
  lemma CircleBlocks(cfg: Config, s: State, a: Action, circle: set<JobId>)
    requires Safe(cfg, s) && WaitInCircles(s.table, circle) && NoneStarted(s.table, circle)
    requires Enabled(cfg, s, a) && (a.Launch? || a.StartAllocation?)
    ensures a.id !in circle
  {
  }

  lemma CircleNotStartedBy(cfg: Config, s: State, a: Action, circle: set<JobId>)
    requires Safe(cfg, s) && Enabled(cfg, s, a)
    requires WaitInCircles(s.table, circle) && NoneStarted(s.table, circle)
    requires WaitInCircles(Apply(cfg, s, a).table, circle)
    ensures NoneStarted(Apply(cfg, s, a).table, circle)
  {
    var u := Apply(cfg, s, a).table;
    AllBatch(u, circle);
    hide Safe, WaitInCircles, Enabled, Apply, RowAfter, IsBatch, EverStarted;
    SafeIsWellNumbered(cfg, s);
    if a.Launch? || a.StartAllocation? { CircleBlocks(cfg, s, a, circle); }
    if IsInsert(a) {
      InsertAddsNewborns(cfg, s, a);
      assert forall r: Job :: Newborn(r) && IsBatch(r) ==> !EverStarted(r) by { NewbornBatch(); }
    } else {
      UpdateTouchesOne(cfg, s, a);
      if !IsRunnerOnly(a) { UpdateStartsNothing(cfg, s, a); }
    }
  }

  lemma NewbornBatch()
    ensures forall r: Job :: Newborn(r) && IsBatch(r) ==> !EverStarted(r)
  {
  }

  lemma AllBatch(t: Table, circle: set<JobId>)
    requires WaitInCircles(t, circle)
    ensures forall c :: c in circle && c in t.rows ==> IsBatch(t.rows[c])
  {
  }

  lemma SafeIsWellNumbered(cfg: Config, s: State)
    requires Safe(cfg, s)
    ensures WellNumbered(s.table) && TrackedRuns(s)
  {
  }

  lemma UpdateStartsNothing(cfg: Config, s: State, a: Action)
    requires Safe(cfg, s) && Enabled(cfg, s, a) && !IsInsert(a) && !IsRunnerOnly(a) && a.id in s.table.rows
    ensures !a.Launch? && !a.StartAllocation? && EverStarted(RowAfter(cfg, s, a)) ==> EverStarted(s.table.rows[a.id])
  {
    assert RowShape(s.table.rows[a.id]) && TrackedRuns(s);
    hide Safe, Enabled, RowAfter, RowKept, RowShape, Lighter, TrackedRuns, EverStarted;
    RowMoves(cfg, s, a);
  }

  /** Earlier tables know less, but nothing different, about who waits for whom. */
  lemma CirclesWereThere(cfg: Config, s: State, acts: seq<Action>, circle: set<JobId>)
    requires cfg.Valid() && Safe(cfg, s) && Run(cfg, s, acts) && WaitInCircles(Exec(cfg, s, acts).table, circle)
    ensures WaitInCircles(s.table, circle)
  {
    var u := Exec(cfg, s, acts).table;
    forall c | c in circle && c in s.table.rows
      ensures IsBatch(s.table.rows[c]) && exists k, m :: WaitsFor(s.table.rows[c], k, m, circle)
    {
      RowsOverRun(cfg, s, acts, c);
      var k, m :| WaitsFor(u.rows[c], k, m, circle);
      assert WaitsFor(s.table.rows[c], k, m, circle);
    }
  }

  lemma {:induction false} CirclesStayUnstarted(cfg: Config, s: State, acts: seq<Action>, circle: set<JobId>)
    requires cfg.Valid() && Safe(cfg, s) && Run(cfg, s, acts)
    requires NoneStarted(s.table, circle) && WaitInCircles(Exec(cfg, s, acts).table, circle)
    ensures NoneStarted(Exec(cfg, s, acts).table, circle)
    decreases |acts|
  {
    if acts != [] {
      var s1 := Apply(cfg, s, acts[0]);
      CirclesWereThere(cfg, s, acts, circle);
      StepIsSafe(cfg, s, acts[0]);
      CirclesWereThere(cfg, s1, acts[1..], circle);
      CircleNotStartedBy(cfg, s, acts[0], circle);
      CirclesStayUnstarted(cfg, s1, acts[1..], circle);
    }
  }

  /** Jobs that wait for each other in a circle are, in every run, still pending
      or cancelled, whatever order they were submitted in. */
  lemma CircleNeverStarts(cfg: Config, acts: seq<Action>, circle: set<JobId>)
    requires cfg.Valid() && Run(cfg, INITIAL, acts) && WaitInCircles(Exec(cfg, INITIAL, acts).table, circle)
    ensures forall c :: c in circle && c in Exec(cfg, INITIAL, acts).table.rows ==>
              && Exec(cfg, INITIAL, acts).table.rows[c].state in {Pending, Cancelled}
              && Starts(acts, c) == 0
  {
    InitialIsSafe(cfg);
    RunIsSafe(cfg, INITIAL, acts);
    CirclesStayUnstarted(cfg, INITIAL, acts, circle);
    var s := Exec(cfg, INITIAL, acts);
    forall c | c in circle && c in s.table.rows
      ensures s.table.rows[c].state in {Pending, Cancelled} && Starts(acts, c) == 0
    {
      StartsAddUp(cfg, INITIAL, acts, c);
      assert RowShape(s.table.rows[c]);
    }
  }

  // ----- the store and the runner -----

  /** Every RUNNING batch job has a tracked process. */
  predicate BatchTracked(s: State) {
    forall id :: id in s.table.rows && s.table.rows[id].state == Running && IsBatch(s.table.rows[id]) ==>
                   id in s.tracked
  }

  lemma FinishStopsRunning(r: Job, e: Ending, now: int)
    requires e.state.IsTerminal()
    ensures FinishedRow(r, e, now).state !in {Running, Completing}
  {
  }

  lemma UpdateKeepsBatchTracked(cfg: Config, s: State, a: Action)
    requires Enabled(cfg, s, a) && !IsInsert(a) && !IsRunnerOnly(a) && BatchTracked(s)
    requires a.id in s.table.rows
    ensures var r' := RowAfter(cfg, s, a);
            r'.state == Running && IsBatch(r') ==> a.id in TrackedAfter(cfg, s, a)
    ensures forall id :: id in s.tracked && id != a.id ==> id in TrackedAfter(cfg, s, a)
  {
    var r := s.table.rows[a.id];
    if a.ClientFinish? || a.Complete? || a.RecoverLost? {
      FinishStopsRunning(r, a.ending, a.now);
    } else if a.Terminate? && a.result.Some? {
      FinishStopsRunning(MarkedRow(r, Completing, a.reason), a.result.value, a.now);
    }
    hide JobFits, BlockReason, AllocateGpuIds, FinishedRow, LaunchGpus;
  }

  lemma InsertKeepsTracked(cfg: Config, s: State, a: Action)
    requires Enabled(cfg, s, a) && !a.Restart? && (IsInsert(a) || IsRunnerOnly(a))
    ensures s.tracked.Keys <= TrackedAfter(cfg, s, a).Keys
  {
  }

  lemma StepKeepsBatchTracked(cfg: Config, s: State, a: Action)
    requires Safe(cfg, s) && Enabled(cfg, s, a) && BatchTracked(s) && !a.Restart?
    ensures BatchTracked(Apply(cfg, s, a))
  {
    hide Safe, Enabled, TrackedAfter, TableAfter, RowAfter, WellNumbered, TrackedRuns;
    SafeIsWellNumbered(cfg, s);
    if IsInsert(a) || IsRunnerOnly(a) { InsertKeepsTracked(cfg, s, a); }
    if IsInsert(a) {
      InsertAddsNewborns(cfg, s, a);
    } else {
      UpdateTouchesOne(cfg, s, a);
      if !IsRunnerOnly(a) { UpdateKeepsBatchTracked(cfg, s, a); }
    }
  }

  /** Within one daemon lifetime the tracked processes are RUNNING jobs, and every
      RUNNING batch job is tracked, after every effect. */
  lemma {:induction false} LedgersAgree(cfg: Config, s: State, acts: seq<Action>)
    requires cfg.Valid() && Safe(cfg, s) && Run(cfg, s, acts) && BatchTracked(s)
    requires forall k :: 0 <= k < |acts| ==> !acts[k].Restart?
    ensures BatchTracked(Exec(cfg, s, acts)) && TrackedRuns(Exec(cfg, s, acts))
    decreases |acts|
  {
    if acts != [] {
      StepIsSafe(cfg, s, acts[0]);
      StepKeepsBatchTracked(cfg, s, acts[0]);
      LedgersAgree(cfg, Apply(cfg, s, acts[0]), acts[1..]);
    }
  }

  predicate NoneCompleting(t: Table) {
    forall id :: id in t.rows ==> t.rows[id].state != Completing
  }

  predicate WaitFails(a: Action) {
    a.Terminate? && a.result.None?
  }

  lemma UpdateKeepsNoneCompleting(cfg: Config, s: State, a: Action)
    requires Enabled(cfg, s, a) && !IsInsert(a) && !IsRunnerOnly(a) && !WaitFails(a)
    requires a.id in s.table.rows && s.table.rows[a.id].state != Completing
    ensures RowAfter(cfg, s, a).state != Completing
  {
    var r := s.table.rows[a.id];
    if a.ClientFinish? || a.Complete? || a.RecoverLost? {
      FinishStopsRunning(r, a.ending, a.now);
    } else if a.Terminate? {
      FinishStopsRunning(MarkedRow(r, Completing, a.reason), a.result.value, a.now);
    }
    hide JobFits, BlockReason, AllocateGpuIds, FinishedRow, LaunchGpus;
  }

  lemma StepKeepsNoneCompleting(cfg: Config, s: State, a: Action)
    requires Safe(cfg, s) && Enabled(cfg, s, a) && NoneCompleting(s.table) && !WaitFails(a)
    ensures NoneCompleting(Apply(cfg, s, a).table)
  {
    hide Enabled, RowShape, Apply, RowAfter;
    hide WithinCapacity, ExclusiveAlone, GpuLedger, ArrayLimits, DependenciesKept, SingletonsApart;
    if IsInsert(a) {
      InsertAddsNewborns(cfg, s, a);
    } else {
      UpdateTouchesOne(cfg, s, a);
      if !IsRunnerOnly(a) { UpdateKeepsNoneCompleting(cfg, s, a); }
    }
  }

  /** As long as waiting for terminated processes never fails, no job is seen
      COMPLETING, so counting only RUNNING rows counts everything in use. */
  lemma {:induction false} NothingStaysCompleting(cfg: Config, s: State, acts: seq<Action>)
    requires cfg.Valid() && Safe(cfg, s) && Run(cfg, s, acts) && NoneCompleting(s.table)
    requires forall k :: 0 <= k < |acts| ==> !WaitFails(acts[k])
    ensures NoneCompleting(Exec(cfg, s, acts).table)
    decreases |acts|
  {
    if acts != [] {
      StepIsSafe(cfg, s, acts[0]);
      StepKeepsNoneCompleting(cfg, s, acts[0]);
      NothingStaysCompleting(cfg, Apply(cfg, s, acts[0]), acts[1..]);
    }
  }

  predicate WaitFailsFor(a: Action, id: JobId) {
    WaitFails(a) && a.id == id
  }

  predicate ReportsEnd(a: Action, id: JobId) {
    a.ClientFinish? && a.id == id
  }

  lemma UpdateCompletes(cfg: Config, s: State, a: Action)
    requires Enabled(cfg, s, a) && !IsInsert(a) && !IsRunnerOnly(a) && TrackedRuns(s)
    requires a.id in s.table.rows
    ensures RowAfter(cfg, s, a).state == Completing
       <==> WaitFails(a) || (s.table.rows[a.id].state == Completing && !a.ClientFinish?)
  {
    var r := s.table.rows[a.id];
    if a.ClientFinish? || a.Complete? || a.RecoverLost? {
      FinishStopsRunning(r, a.ending, a.now);
    } else if a.Terminate? && a.result.Some? {
      FinishStopsRunning(MarkedRow(r, Completing, a.reason), a.result.value, a.now);
    }
    hide JobFits, BlockReason, AllocateGpuIds, FinishedRow, LaunchGpus;
  }

  /** After an effect a row is COMPLETING exactly if a wait for it has just failed,
      or it was COMPLETING before and no client has reported its end. */
  lemma StepCompletes(cfg: Config, s: State, a: Action, id: JobId)
    requires Safe(cfg, s) && Enabled(cfg, s, a) && id in Apply(cfg, s, a).table.rows
    ensures WaitFailsFor(a, id) ==> id in s.table.rows
    ensures Apply(cfg, s, a).table.rows[id].state == Completing
       <==> || WaitFailsFor(a, id)
            || (id in s.table.rows && s.table.rows[id].state == Completing && !ReportsEnd(a, id))
  {
    hide Safe, Enabled, TableAfter, TrackedAfter, RowAfter, WellNumbered, TrackedRuns;
    SafeIsWellNumbered(cfg, s);
    if IsInsert(a) {
      InsertAddsNewborns(cfg, s, a);
    } else {
      UpdateTouchesOne(cfg, s, a);
      if !IsRunnerOnly(a) { UpdateCompletes(cfg, s, a); }
    }
  }

  ghost predicate NoneReports(acts: seq<Action>, id: JobId) {
    forall j :: 0 <= j < |acts| ==> !ReportsEnd(acts[j], id)
  }

  /** A wait for the job failed, and no client has reported its end since. */
  ghost predicate SomeWaitLeft(acts: seq<Action>, id: JobId) {
    exists k :: 0 <= k < |acts| && WaitFailsFor(acts[k], id) && NoneReports(acts[k + 1..], id)
  }

  lemma FirstReports(acts: seq<Action>, id: JobId)
    requires acts != []
    ensures NoneReports(acts, id) <==> !ReportsEnd(acts[0], id) && NoneReports(acts[1..], id)
  {
    assert forall j :: 1 <= j < |acts| ==> acts[j] == acts[1..][j - 1];
    hide ReportsEnd;
  }

  lemma FirstWaitLeft(acts: seq<Action>, id: JobId)
    requires acts != []
    ensures SomeWaitLeft(acts, id)
       <==> SomeWaitLeft(acts[1..], id) || (WaitFailsFor(acts[0], id) && NoneReports(acts[1..], id))
  {
    hide WaitFailsFor, NoneReports;
    var rest := acts[1..];
    forall k | 0 <= k < |rest| ensures rest[k] == acts[k + 1] && rest[k + 1..] == acts[k + 2..] {
    }
    if k :| 0 <= k < |acts| && WaitFailsFor(acts[k], id) && NoneReports(acts[k + 1..], id) && k > 0 {
      assert rest[k - 1] == acts[k] && rest[k..] == acts[k + 1..];
      assert WaitFailsFor(rest[k - 1], id) && NoneReports(rest[k - 1 + 1..], id);
    }
    if k :| 0 <= k < |rest| && WaitFailsFor(rest[k], id) && NoneReports(rest[k + 1..], id) {
      assert WaitFailsFor(acts[k + 1], id) && NoneReports(acts[k + 1 + 1..], id);
    }
  }

  /** Over any run a row is COMPLETING at the end exactly if a wait for its process
      failed, or it was so from the start, and no client has reported its end since. */
  lemma {:induction false} CompletingExactly(cfg: Config, s: State, acts: seq<Action>, id: JobId)
    requires cfg.Valid() && Safe(cfg, s) && Run(cfg, s, acts) && id in Exec(cfg, s, acts).table.rows
    ensures Exec(cfg, s, acts).table.rows[id].state == Completing
       <==> || SomeWaitLeft(acts, id)
            || (id in s.table.rows && s.table.rows[id].state == Completing && NoneReports(acts, id))
    decreases |acts|
  {
    hide Safe, Enabled, Apply, WaitFailsFor, ReportsEnd, NoneReports, WellNumbered;
    if acts == [] {
      assert NoneReports(acts, id) by { NothingReports(id); }
    } else {
      hide SomeWaitLeft;
      var a, s1, rest := acts[0], Apply(cfg, s, acts[0]), acts[1..];
      StepIsSafe(cfg, s, a);
      CompletingExactly(cfg, s1, rest, id);
      if id in s1.table.rows {
        StepCompletes(cfg, s, a, id);
      } else {
        SafeIsWellNumbered(cfg, s);
        OnlyRowsAreStopped(cfg, s, a, id);
      }
      FirstReports(acts, id);
      FirstWaitLeft(acts, id);
      FailingIsNoReport(a, id);
    }
  }

  lemma NothingReports(id: JobId)
    ensures NoneReports([], id)
  {
  }

  lemma FailingIsNoReport(a: Action, id: JobId)
    ensures WaitFailsFor(a, id) ==> !ReportsEnd(a, id)
  {
  }

  lemma OnlyRowsAreStopped(cfg: Config, s: State, a: Action, id: JobId)
    requires Enabled(cfg, s, a) && id !in Apply(cfg, s, a).table.rows && WellNumbered(s.table)
    ensures !WaitFailsFor(a, id) && id !in s.table.rows
  {
    if IsInsert(a) { InsertAddsNewborns(cfg, s, a); }
  }

  /** For a batch job, whose end no client reports: it is COMPLETING at the end
      exactly if some wait for it failed, however long ago and whatever came since. */
  lemma BatchCompletingExactly(cfg: Config, s: State, acts: seq<Action>, id: JobId)
    requires cfg.Valid() && Safe(cfg, s) && Run(cfg, s, acts)
    requires id in s.table.rows ==> s.table.rows[id].state != Completing
    requires id in Exec(cfg, s, acts).table.rows && IsBatch(Exec(cfg, s, acts).table.rows[id])
    ensures Exec(cfg, s, acts).table.rows[id].state == Completing
       <==> exists k :: 0 <= k < |acts| && WaitFailsFor(acts[k], id)
  {
    hide Safe, Enabled, Apply, Run, Exec, IsBatch, WaitFailsFor, ReportsEnd;
    CompletingExactly(cfg, s, acts, id);
    BatchNeverReported(cfg, s, acts, id);
    if k :| 0 <= k < |acts| && WaitFailsFor(acts[k], id) {
      assert NoneReports(acts[k + 1..], id);
    }
  }

  /** A job that ends up a batch job has always been one, and no client reports its end. */
  lemma {:induction false} BatchNeverReported(cfg: Config, s: State, acts: seq<Action>, id: JobId)
    requires cfg.Valid() && Safe(cfg, s) && Run(cfg, s, acts)
    requires id in Exec(cfg, s, acts).table.rows && IsBatch(Exec(cfg, s, acts).table.rows[id])
    ensures NoneReports(acts, id)
    decreases |acts|
  {
    if acts != [] {
      hide Safe, Enabled, Apply, IsBatch, ReportsEnd, NoneReports;
      var s1 := Apply(cfg, s, acts[0]);
      StepIsSafe(cfg, s, acts[0]);
      BatchNeverReported(cfg, s1, acts[1..], id);
      FirstReports(acts, id);
      if id in s.table.rows {
        RowsOverRun(cfg, s, acts, id);
        BatchUnreported(cfg, s, acts[0], id, Exec(cfg, s, acts).table.rows[id]);
      } else {
        OnlyRowsReport(cfg, s, acts[0], id);
      }
    }
  }

  lemma BatchUnreported(cfg: Config, s: State, a: Action, id: JobId, end: Job)
    requires Enabled(cfg, s, a) && id in s.table.rows && RowPath(s.table.rows[id], end) && IsBatch(end)
    ensures !ReportsEnd(a, id)
  {
  }

  lemma OnlyRowsReport(cfg: Config, s: State, a: Action, id: JobId)
    requires Enabled(cfg, s, a) && id !in s.table.rows
    ensures !ReportsEnd(a, id)
  {
  }

  // ----- what admission counts -----

  /** The sums and the GPU ids that admission goes by are those of all jobs that
      are RUNNING or COMPLETING. */
  predicate CountsExact(t: Table) {
    RunningUsage(t) == OccupiedUsage(t) && IdsInUse(t.rows, t.next) == IdsOccupied(t.rows, t.next)
  }

  predicate AsksNothing(r: Job) {
    r.cpus * r.tasks == 0 && r.memoryMb == 0 && r.gpus == 0
  }

  /** Counting RUNNING rows only is exact exactly if no COMPLETING top-level job
      asked for anything. */
  lemma CountsExactly(cfg: Config, s: State)
    requires Safe(cfg, s)
    ensures CountsExact(s.table)
       <==> forall id :: id in s.table.rows && LeftOver(s.table.rows[id]) ==> AsksNothing(s.table.rows[id])
  {
    SafeIsWellNumbered(cfg, s);
    CountingExactly(s.table);
    forall id | id in s.table.rows && LeftOver(s.table.rows[id])
      ensures s.table.rows[id].gpus == 0 ==> s.table.rows[id].assignedGpus == []
    {
      SafeShapes(cfg, s, id);
    }
    hide Safe, RunningUsage, OccupiedUsage, IdsInUse, IdsOccupied;
  }

  /** What is RUNNING or COMPLETING is within the machine, and no GPU id belongs to
      two such jobs. */
  predicate NothingTwice(cfg: Config, t: Table) {
    && OccupiedUsage(t).cpus <= cfg.totalCpus && OccupiedUsage(t).memoryMb <= cfg.totalMemoryMb
    && OccupiedUsage(t).gpus <= cfg.totalGpus
    && forall id, id' :: id in t.rows && id' in t.rows && id != id' && Occupies(t.rows[id]) && Occupies(t.rows[id']) ==>
                           Disjoint(t.rows[id].assignedGpus, t.rows[id'].assignedGpus)
  }

  /** Where the counts are exact nothing is given out twice. */
  lemma ExactMeansEnough(cfg: Config, s: State)
    requires Safe(cfg, s) && CountsExact(s.table)
    ensures NothingTwice(cfg, s.table)
  {
    SafeIsWellNumbered(cfg, s);
    CountingExactly(s.table);
    hide RunningUsage, OccupiedUsage, IdsInUse, IdsOccupied, WellFormed, ArrayLimits, DependenciesKept, SingletonsApart;
  }

  ghost predicate WaitsCostNothing(t: Table, acts: seq<Action>) {
    forall id :: id in t.rows && t.rows[id].parent.None? && SomeWaitLeft(acts, id) ==> AsksNothing(t.rows[id])
  }

  /** Over every run: the counts are exact at the end exactly if every top-level job
      for which a wait failed, with no report of its end by a client since, asked
      for nothing. */
  lemma RunCountsExactly(cfg: Config, acts: seq<Action>)
    requires cfg.Valid() && Run(cfg, INITIAL, acts)
    ensures CountsExact(Exec(cfg, INITIAL, acts).table) <==> WaitsCostNothing(Exec(cfg, INITIAL, acts).table, acts)
  {
    InitialIsSafe(cfg);
    RunIsSafe(cfg, INITIAL, acts);
    var s := Exec(cfg, INITIAL, acts);
    CountsExactly(cfg, s);
    hide Safe, CountsExact, AsksNothing, SomeWaitLeft, Run, Exec;
    forall id | id in s.table.rows
      ensures LeftOver(s.table.rows[id]) <==> s.table.rows[id].parent.None? && SomeWaitLeft(acts, id)
    {
      CompletingExactly(cfg, INITIAL, acts, id);
    }
  }

  /** The admission counts and the id ledger never disagree: in every reachable
      state a job that fits finds the GPU ids it asked for. */
  lemma LaunchFindsGpus(cfg: Config, acts: seq<Action>, r: Job)
    requires cfg.Valid() && Run(cfg, INITIAL, acts) && JobFits(cfg, Exec(cfg, INITIAL, acts).table, r)
    ensures LaunchGpus(cfg, Exec(cfg, INITIAL, acts).table, r).Ok?
    ensures |LaunchGpus(cfg, Exec(cfg, INITIAL, acts).table, r).value| == r.gpus
  {
    InitialIsSafe(cfg);
    RunIsSafe(cfg, INITIAL, acts);
    FittingFindsGpus(cfg, Exec(cfg, INITIAL, acts).table, r);
  }

  lemma FittingFindsGpus(cfg: Config, t: Table, r: Job)
    requires GpuLedger(cfg, t) && WellNumbered(t) && JobFits(cfg, t, r)
    ensures LaunchGpus(cfg, t, r).Ok? && |LaunchGpus(cfg, t, r).value| == r.gpus
  {
    if cfg.IsGpuPartition(r.partition) {
      AdmittedMeansAllocatable(cfg, t, r.gpus);
    }
  }
}
