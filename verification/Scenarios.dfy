/** Short runs that reach the bounds and the corner cases of the theorems. */
module Scenarios {
  import opened Basics
  import opened Jobs
  import opened Accounting
  import opened Scheduling
  import opened Lifecycle
  import opened History
  import opened Operations
  import opened DaemonLife
  import opened Processes
  import opened Submissions
  import opened Calendar
  import opened TimeText

  const SMALL := SubmitRequest("job", "ann", "cpu", 1, 1, 0, 0, false, [], Some(60), None, false, None, true)

  /** A table with one small waiting job. */
  predicate OneWaiting(s: State) {
    && s.table.next == 2 && s.table.rows.Keys == {1} && s.tracked == map[]
    && var r := s.table.rows[1];
       && r.id == 1 && r.state == Pending && IsBatch(r) && !r.held && r.beginTime.None? && r.dependency == []
       && r.arrayJobId.None? && r.cpus == r.tasks == 1 && r.memoryMb == r.gpus == 0 && !r.exclusive
  }

  lemma {:induction false} IdleTotal(rows: map<JobId, Job>, load: Job -> nat, n: nat)
    requires forall id :: id in rows ==> load(rows[id]) == 0
    ensures Total(rows, load, n) == 0
  {
    if n > 0 { IdleTotal(rows, load, n - 1); }
  }

  /** It can be launched, directly or by the scheduler. */
  lemma OneWaitingLaunches(cfg: Config, s: State, pid: int, now: int, direct: bool)
    requires cfg.totalCpus >= 1 && OneWaiting(s)
    ensures Enabled(cfg, s, Launch(1, pid, now, direct))
    ensures var u := Apply(cfg, s, Launch(1, pid, now, direct));
            && u.table.next == 2 && u.table.rows.Keys == {1} && u.tracked.Keys == {1}
            && exists gpus :: u.table.rows[1] == RunningRow(s.table.rows[1], pid, pid, gpus, now)
  {
    var t, r := s.table, s.table.rows[1];
    IdleTotal(t.rows, CpuLoad, t.next);
    IdleTotal(t.rows, MemoryLoad, t.next);
    IdleTotal(t.rows, GpuLoad, t.next);
    assert JobFits(cfg, t, r) && LaunchGpus(cfg, t, r).Ok? && BlockReason(t, r, now).None?;
    assert Apply(cfg, s, Launch(1, pid, now, direct)).table.rows[1]
           == RunningRow(r, pid, pid, LaunchGpus(cfg, t, r).value, now);
  }

  /** A run of one effect, then others. */
  lemma RunOn(cfg: Config, s: State, a: Action, rest: seq<Action>)
    requires Enabled(cfg, s, a) && Run(cfg, Apply(cfg, s, a), rest)
    ensures Run(cfg, s, [a] + rest) && Exec(cfg, s, [a] + rest) == Exec(cfg, Apply(cfg, s, a), rest)
  {
    hide Enabled, Apply;
    assert ([a] + rest)[0] == a && ([a] + rest)[1..] == rest;
  }

  /** A job is submitted, launched and cancelled, and the wait for it fails. It is
      COMPLETING, and stays so in every run that follows. */
  lemma StuckCompleting(cfg: Config, pid: int, more: seq<Action>)
    requires cfg.Valid() && cfg.totalCpus >= 1
    ensures var acts := [Create(SMALL, 0), Launch(1, pid, 0, true), Terminate(1, "CancelledByUser", None, 5)];
            && Run(cfg, INITIAL, acts)
            && var s := Exec(cfg, INITIAL, acts);
               && 1 in s.table.rows && s.table.rows[1].state == Completing && IsBatch(s.table.rows[1])
               && s.tracked == map[]
               && (Run(cfg, s, more) ==>
                     var u := Exec(cfg, s, more).table; 1 in u.rows && u.rows[1].state == Completing)
  {
    var a0, a1, a2 := Create(SMALL, 0), Launch(1, pid, 0, true), Terminate(1, "CancelledByUser", None, 5);
    var s1 := Apply(cfg, INITIAL, a0);
    assert s1.table.rows == map[1 := NewRow(SMALL, 1, None, None, None, None, 0)];
    OneWaitingLaunches(cfg, s1, pid, 0, true);
    var s2 := Apply(cfg, s1, a1);
    assert Enabled(cfg, s2, a2);
    var s3 := Apply(cfg, s2, a2);
    assert s3.table.rows[1].state == Completing && IsBatch(s3.table.rows[1]) && s3.tracked == map[];
    hide Apply, Enabled, OneWaiting;
    assert Run(cfg, s3, []) && Exec(cfg, s3, []) == s3;
    RunOn(cfg, s2, a2, []);
    RunOn(cfg, s1, a1, [a2]);
    RunOn(cfg, INITIAL, a0, [a1, a2]);
    assert [a2] + [] == [a2] && [a1] + [a2] == [a1, a2] && [a0] + [a1, a2] == [a0, a1, a2];
    InitialIsSafe(cfg);
    RunIsSafe(cfg, INITIAL, [a0, a1, a2]);
    if Run(cfg, s3, more) { RowsOverRun(cfg, s3, more, 1); }
  }

  const EXPIRED := Ending(Timeout, None, Some(9), "TimeLimit")

  /** An attempt that times out after a minute. */
  function Attempt(pid: int, now: int): seq<Action> {
    [Launch(1, pid, now, false), Terminate(1, "TimeLimit", Some(EXPIRED), now + 60)]
  }

  ghost predicate CanAttempt(cfg: Config, s: State, pid: int, now: int) {
    Enabled(cfg, s, Attempt(pid, now)[0]) && Enabled(cfg, Apply(cfg, s, Attempt(pid, now)[0]), Attempt(pid, now)[1])
  }

  ghost function AfterAttempt(cfg: Config, s: State, pid: int, now: int): State
    requires CanAttempt(cfg, s, pid, now)
  {
    Apply(cfg, Apply(cfg, s, Attempt(pid, now)[0]), Attempt(pid, now)[1])
  }

  predicate WaitsToRequeue(s: State) {
    OneWaiting(s) && s.table.rows[1].requeue && s.table.rows[1].parent.None?
  }

  lemma AttemptTimesOut(cfg: Config, s: State, pid: int, now: int)
    requires cfg.totalCpus >= 1 && WaitsToRequeue(s)
    ensures CanAttempt(cfg, s, pid, now)
    ensures var v, u := Apply(cfg, s, Attempt(pid, now)[0]), AfterAttempt(cfg, s, pid, now);
            && v.table.rows.Keys == u.table.rows.Keys == {1} && v.table.rows[1].state == Running
            && u.table.rows[1].state != Completing
            && (s.table.rows[1].requeueCount == 0 ==> WaitsToRequeue(u))
  {
    OneWaitingLaunches(cfg, s, pid, now, false);
    hide JobFits, BlockReason, AllocateGpuIds;
  }

  lemma WritesOn(cfg: Config, s: State, a: Action, rest: seq<Action>, id: JobId)
    requires Enabled(cfg, s, a) && Run(cfg, Apply(cfg, s, a), rest)
    requires id in s.table.rows && id in Apply(cfg, s, a).table.rows && !IsInsert(a) && !IsRunnerOnly(a) && a.id == id
    ensures Run(cfg, s, [a] + rest)
    ensures StateWrites(cfg, s, [a] + rest, id)
         == Differences(s.table.rows[id].state, StatesWritten(a, Apply(cfg, s, a).table.rows[id]))
            + StateWrites(cfg, Apply(cfg, s, a), rest, id)
  {
    hide Enabled, Apply, Differences, StatesWritten;
    assert ([a] + rest)[0] == a && ([a] + rest)[1..] == rest;
  }

  /** Each attempt writes three states: RUNNING, COMPLETING and what comes then. */
  lemma AttemptWrites(cfg: Config, s: State, pid: int, now: int, rest: seq<Action>)
    requires cfg.totalCpus >= 1 && WaitsToRequeue(s)
    requires CanAttempt(cfg, s, pid, now) && Run(cfg, AfterAttempt(cfg, s, pid, now), rest)
    ensures Run(cfg, s, Attempt(pid, now) + rest) && 1 in s.table.rows
    ensures StateWrites(cfg, s, Attempt(pid, now) + rest, 1)
         == 3 + StateWrites(cfg, AfterAttempt(cfg, s, pid, now), rest, 1)
  {
    var a1, a2 := Attempt(pid, now)[0], Attempt(pid, now)[1];
    var v, u := Apply(cfg, s, a1), AfterAttempt(cfg, s, pid, now);
    AttemptTimesOut(cfg, s, pid, now);
    var r2 := u.table.rows[1];
    TwoWrites(r2.state);
    assert s.table.rows[1].state == Pending && Differences(Pending, [Running]) == 1;
    hide Enabled, Apply, OneWaiting, Differences;
    WritesOn(cfg, v, a2, rest, 1);
    WritesOn(cfg, s, a1, [a2] + rest, 1);
    assert [a1] + ([a2] + rest) == Attempt(pid, now) + rest;
  }

  lemma TwoWrites(state: JobState)
    requires state != Completing
    ensures Differences(Running, [Completing, state]) == 2
  {
    assert [Completing, state][1..] == [state];
    assert Differences(Completing, [state]) == 1;
  }

  lemma SmallWaits(cfg: Config)
    ensures Run(cfg, INITIAL, [Create(SMALL, 0)])
    ensures var s := Exec(cfg, INITIAL, [Create(SMALL, 0)]);
            WaitsToRequeue(s) && s.table.rows[1].requeueCount == 0 && IsBatch(s.table.rows[1])
  {
    var s := Apply(cfg, INITIAL, Create(SMALL, 0));
    assert s.table.rows == map[1 := NewRow(SMALL, 1, None, None, None, None, 0)];
    assert Run(cfg, s, []) && Exec(cfg, s, []) == s;
    assert [Create(SMALL, 0)][1..] == [];
  }

  /** The bound of six state writes is reached: a job that times out, is requeued
      and times out again. */
  lemma SixWritesHappen(cfg: Config, pid: int)
    requires cfg.Valid() && cfg.totalCpus >= 1
    ensures Run(cfg, INITIAL, [Create(SMALL, 0)])
    ensures var s, acts := Exec(cfg, INITIAL, [Create(SMALL, 0)]), Attempt(pid, 0) + Attempt(pid, 60);
            && 1 in s.table.rows && IsBatch(s.table.rows[1])
            && Run(cfg, s, acts) && StateWrites(cfg, s, acts, 1) == 6
  {
    SmallWaits(cfg);
    var s := Exec(cfg, INITIAL, [Create(SMALL, 0)]);
    assert 1 in s.table.rows;
    AttemptTimesOut(cfg, s, pid, 0);
    hide Exec, WaitsToRequeue, CanAttempt, AfterAttempt, IsBatch, Attempt;
    var w := AfterAttempt(cfg, s, pid, 0);
    AttemptTimesOut(cfg, w, pid, 60);
    var e := AfterAttempt(cfg, w, pid, 60);
    assert Run(cfg, e, []) && StateWrites(cfg, e, [], 1) == 0;
    hide Run, StateWrites;
    AttemptWrites(cfg, w, pid, 60, []);
    assert Attempt(pid, 60) + [] == Attempt(pid, 60);
    AttemptWrites(cfg, s, pid, 0, Attempt(pid, 60));
  }

  // ----- where the code does not do what one would expect -----

  /** A job that fits anywhere and need not wait. */
  predicate Modest(req: SubmitRequest) {
    && req.cpus == req.tasks == 1 && req.memoryMb == req.gpus == 0 && !req.exclusive
    && !req.allocationOnly && req.dependency == [] && req.beginTime.None?
  }

  lemma ModestLaunches(cfg: Config, req: SubmitRequest, pid: int)
    requires cfg.totalCpus >= 1 && Modest(req)
    ensures var acts := [Create(req, 0), Launch(1, pid, 0, true)];
            && Run(cfg, INITIAL, acts)
            && var s := Exec(cfg, INITIAL, acts);
               && s.tracked == map[1 := Tracked(pid, pid, false, false)] && s.table.rows.Keys == {1}
               && exists gpus ::
                    s.table.rows[1] == RunningRow(NewRow(req, 1, None, None, None, None, 0), pid, pid, gpus, 0)
  {
    var a0, a1 := Create(req, 0), Launch(1, pid, 0, true);
    var s1 := Apply(cfg, INITIAL, a0);
    assert s1.table.rows == map[1 := NewRow(req, 1, None, None, None, None, 0)];
    OneWaitingLaunches(cfg, s1, pid, 0, true);
    var s2 := Apply(cfg, s1, a1);
    hide Apply, Enabled, OneWaiting;
    assert Run(cfg, s2, []) && Exec(cfg, s2, []) == s2;
    RunOn(cfg, s1, a1, []);
    RunOn(cfg, INITIAL, a0, [a1]);
    assert [a1] + [] == [a1] && [a0] + [a1] == [a0, a1];
  }

  /** A cancel is confirmed, and the job waits to run again. */
  lemma CancelledYetWaiting(cfg: Config, pid: int)
    requires cfg.totalCpus >= 1
    ensures var acts := [Create(SMALL, 0), Launch(1, pid, 0, true)];
            && Run(cfg, INITIAL, acts)
            && var reply := JobCancelled(Exec(cfg, INITIAL, acts), 1, Waited(Exit(None, Some(SIGKILL), true), true), 5);
               && reply.response == CancelDone(1)
               && 1 in reply.state.table.rows && reply.state.table.rows[1].state == Pending
  {
    ModestLaunches(cfg, SMALL, pid);
    hide Run, Exec;
  }

  const NOISY := SMALL.(warning := Some(WarningSignal(99, 60)))

  /** A job that asks for signal 99, which does not exist, ends the daemon's turn. */
  lemma UnknownSignalFails(cfg: Config, pid: int)
    requires cfg.totalCpus >= 1
    ensures var acts := [Create(NOISY, 0), Launch(1, pid, 0, true)];
            Run(cfg, INITIAL, acts) && !Enforce(Exec(cfg, INITIAL, acts), [1], map[], 30).ok
  {
    ModestLaunches(cfg, NOISY, pid);
    var s := Exec(cfg, INITIAL, [Create(NOISY, 0), Launch(1, pid, 0, true)]);
    hide Run, Exec;
    assert [1][1..] == [];
    assert TimedOutIds(s.table, [1], 30) == [];
    assert WarningDue(s, 1, 30) == Some(99);
  }

  /** A refused update changes the time limit of a running job. */
  lemma RefusedLimitStays(gpus: seq<nat>)
    ensures var r := RunningRow(NewRow(SMALL, 1, None, None, None, None, 0), 7, 7, gpus, 0);
            var f := Fields(None, None, Some(600), Some(5));
            !UpdateAccepted(r, f) && r.timeLimit == Some(60) && UpdatedRow(r, f).timeLimit == Some(600)
  {
  }

  /** A limit of 2^63 seconds is over at once. */
  lemma LongLimitIsOver()
    ensures 0 >= Deadline(0, 0x8000_0000_0000_0000)
  {
  }

  lemma LastYearBeforeZero()
    ensures CivilFromDaysExact(-719_893) == Date(-1, 1, 1)
  {
    assert DaysFromCivil(-1, 1, 1) == Some(-719_893);
    hide CivilFromDaysExact, DaysFromCivil;
    ExactRoundTrip(Date(-1, 1, 1));
  }

  /** The first moment of the year -1 is printed, but not read back. */
  lemma YearMinusOneIsLost(now: int)
    ensures CivilFromEpoch(-62_198_755_200).date == Date(-1, 1, 1)
    ensures ParseTimeFilter(FormatTimestamp(-62_198_755_200), now) != Ok(-62_198_755_200)
  {
    hide CivilFromDaysExact, ParseTimeFilter, FormatTimestamp;
    LastYearBeforeZero();
    assert -62_198_755_200 / 86_400 == -719_893;
    TimestampTextRoundTrip(-62_198_755_200, now);
  }

  // ----- processes that nothing records -----

  const ONCE := SMALL.(requeue := false)

  /** Process 7 for job 1, whose set-up fails. */
  const BROKEN := Env(0, map[1 := 7], {1})

  const ASK := Asked(ReleaseJob(1), BROKEN, WaitFailed)

  /** A pass starts the process of the only job, fails, and leaves everything as it was. */
  lemma BrokenPass(cfg: Config, s: State)
    requires cfg.totalCpus >= 1 && OneWaiting(s) && WellNumbered(s.table)
    ensures Pass(cfg, BROKEN, s) == PassResult(s, false) && PassSpawns(cfg, BROKEN, s) == [Process(1, 7)]
  {
    var q := Queue(s.table);
    QueueHoldsPending(s.table);
    assert |q| > 1 ==> q[0] != q[1];
    OneWaitingLaunches(cfg, s, 7, 0, false);
    assert IsPending(s.table, 1) && MayStart(cfg, s.table, 0, 1) && LaunchGpus(cfg, s.table, s.table.rows[1]).Ok?;
    assert forall id :: IsPending(s.table, id) ==> id == 1;
    hide Queue, MayStart, AllocateGpuIds, OneWaiting, WellNumbered;
    assert 1 in q;
    var k :| 0 <= k < |q| && q[k] == 1;
    forall j | 0 <= j < |q| ensures q[j] == 1 { assert q[j] in q; }
    assert q == [1];
    assert FirstToStart(cfg, s.table, 0, q) == 0 && q[..0] == [];
    assert Annotate(cfg, s.table, 0, []).rows == s.table.rows;
    assert TryStart(cfg, s, 1, BROKEN).None?;
    assert StartSpawns(cfg, s.table, s.table.rows[1], BROKEN) == [Process(1, 7)];
  }

  function Asks(n: nat): seq<Event> {
    if n == 0 then [] else [ASK] + Asks(n - 1)
  }

  /** Releasing a job that is not held changes nothing. */
  predicate AsReleased(s: State) {
    OneWaiting(s) && s.table.rows[1].reason == "Resources" && WellNumbered(s.table)
  }

  lemma OneAsk(cfg: Config, s: State)
    requires cfg.totalCpus >= 1 && AsReleased(s)
    ensures Numbered(s.table) && Allowed(s, ASK) && StateAfter(cfg, s, ASK) == s
    ensures EventSpawns(cfg, s, ASK) == [Process(1, 7)]
  {
    BrokenPass(cfg, s);
    assert Held(s.table, 1, false).rows == s.table.rows;
    hide Pass, PassSpawns;
  }

  lemma {:induction false} ManyAsks(cfg: Config, s: State, n: nat)
    requires cfg.totalCpus >= 1 && AsReleased(s)
    ensures Life(cfg, s, Asks(n)) && Outlived(cfg, s, Asks(n)) == s
    ensures CountOf(LifeSpawns(cfg, s, Asks(n)), 1) == n
  {
    hide AsReleased, StateAfter, EventSpawns, Allowed, Numbered;
    if n > 0 {
      OneAsk(cfg, s);
      ManyAsks(cfg, s, n - 1);
      assert Asks(n)[0] == ASK && Asks(n)[1..] == Asks(n - 1);
      var rest := LifeSpawns(cfg, s, Asks(n - 1));
      assert ([Process(1, 7)] + rest)[1..] == rest;
    }
  }

  /** A job that is not to be requeued is submitted, and released n times, while the
      set-up of its processes fails: n + 1 processes run for it, its row records
      none, and it waits to be started. */
  lemma ProcessesPileUp(cfg: Config, n: nat)
    requires cfg.Valid() && cfg.totalCpus >= 1
    ensures var events := [Asked(SubmitBatch(ONCE, None), BROKEN, WaitFailed)] + Asks(n);
            && Life(cfg, INITIAL, events)
            && CountOf(LifeSpawns(cfg, INITIAL, events), 1) == n + 1
            && var u := Outlived(cfg, INITIAL, events);
               && 1 in u.table.rows && u.table.rows[1].state == Pending && !u.table.rows[1].requeue
               && RowAttempts(u.table.rows[1]) == 0 && u.tracked == map[]
  {
    var e := Asked(SubmitBatch(ONCE, None), BROKEN, WaitFailed);
    var s := State(Created(INITIAL.table, ONCE, None, 0), map[]);
    assert s.table.rows == map[1 := NewRow(ONCE, 1, None, None, None, None, 0)] && s.table.next == 2;
    BrokenPass(cfg, s);
    ManyAsks(cfg, s, n);
    assert AsReleased(s) && BeforeScheduling(INITIAL, e.request, BROKEN) == Some(s);
    assert StateAfter(cfg, INITIAL, e) == s && EventSpawns(cfg, INITIAL, e) == [Process(1, 7)];
    hide Pass, PassSpawns, StateAfter, EventSpawns, OneWaiting;
    var events := [e] + Asks(n);
    assert events[0] == e && events[1..] == Asks(n);
    var rest := LifeSpawns(cfg, s, Asks(n));
    assert ([Process(1, 7)] + rest)[1..] == rest;
  }

  /** The submission itself is refused, yet its job is there. */
  lemma RefusedYetSubmitted(cfg: Config)
    requires cfg.Valid() && cfg.totalCpus >= 1
    ensures var reply := Respond(cfg, INITIAL, SubmitBatch(ONCE, None), BROKEN, WaitFailed);
            reply.response == Refused && 1 in reply.state.table.rows && reply.state.table.rows[1].state == Pending
  {
    var s := State(Created(INITIAL.table, ONCE, None, 0), map[]);
    assert s.table.rows == map[1 := NewRow(ONCE, 1, None, None, None, None, 0)] && s.table.next == 2;
    BrokenPass(cfg, s);
    assert BeforeScheduling(INITIAL, SubmitBatch(ONCE, None), BROKEN) == Some(s);
    hide Pass, PassSpawns, OneWaiting;
  }

  /** A job that is to begin at 100 is started at 0. */
  lemma StartsTooSoon(cfg: Config)
    requires cfg.Valid() && cfg.totalCpus >= 1
    ensures var req := SMALL.(beginTime := Some(100));
            var u := SubmittedRun(cfg, INITIAL, req, false, Env(0, map[1 := 7], {})).state.table;
            1 in u.rows && StartedEarly(u.rows[1])
  {
    InitialIsSafe(cfg);
    assert RequestFits(cfg, INITIAL.table, SMALL.(beginTime := Some(100)));
    hide RequestFits, Safe, SubmittedRun;
    EarlyStartExactly(cfg, INITIAL, SMALL.(beginTime := Some(100)), false, Env(0, map[1 := 7], {}));
  }

  // ----- what counting RUNNING rows overlooks -----

  /** One processor and one GPU. */
  const TINY := Config(1, 0, 1, ["gpu"])

  const RENDER := SMALL.(partition := "gpu", gpus := 1)

  function RenderRow(id: JobId): Job {
    NewRow(RENDER, id, None, None, None, None, 0)
  }

  lemma {:induction false} IdleIds(rows: map<JobId, Job>, n: nat)
    requires forall id :: id in rows ==> !Holds(rows[id])
    ensures IdsInUse(rows, n) == []
  {
    if n > 0 { IdleIds(rows, n - 1); }
  }

  /** A waiting job gets the GPU of the tiny machine if nothing there is RUNNING. */
  lemma RenderLaunches(s: State, id: JobId, pid: int)
    requires id in s.table.rows && s.table.rows[id] == RenderRow(id)
    requires forall k :: k in s.table.rows ==> !Holds(s.table.rows[k])
    ensures Enabled(TINY, s, Launch(id, pid, 0, true))
    ensures Apply(TINY, s, Launch(id, pid, 0, true))
         == State(s.table.(rows := s.table.rows[id := RunningRow(RenderRow(id), pid, pid, [0], 0)]),
                  s.tracked[id := Tracked(pid, pid, false, false)])
  {
    var t := s.table;
    IdleTotal(t.rows, CpuLoad, t.next);
    IdleTotal(t.rows, MemoryLoad, t.next);
    IdleTotal(t.rows, GpuLoad, t.next);
    IdleIds(t.rows, t.next);
    assert FreeIds([], 1) == [0] && FreeIds([], 1)[..1] == [0];
    assert JobFits(TINY, t, t.rows[id]) && LaunchGpus(TINY, t, t.rows[id]) == Ok([0]);
  }

  lemma RenderIsCreated(s: State)
    ensures Enabled(TINY, s, Create(RENDER, 0))
    ensures Apply(TINY, s, Create(RENDER, 0)) == State(InsertRow(s.table, RenderRow(s.table.next)), s.tracked)
  {
  }

  lemma TerminatedInVain(s: State, id: JobId)
    requires id in s.tracked && id in s.table.rows
    ensures Enabled(TINY, s, Terminate(id, "CancelledByUser", None, 5))
    ensures Apply(TINY, s, Terminate(id, "CancelledByUser", None, 5))
         == State(s.table.(rows := s.table.rows[id := MarkedRow(s.table.rows[id], Completing, "CancelledByUser")]),
                  s.tracked - {id})
  {
  }

  function Rendering(id: JobId, pid: int): Job {
    RunningRow(RenderRow(id), pid, pid, [0], 0)
  }

  lemma FiveEffects()
    ensures var acts := [Create(RENDER, 0), Launch(1, 7, 0, true), Terminate(1, "CancelledByUser", None, 5),
                         Create(RENDER, 0), Launch(2, 8, 0, true)];
            && Run(TINY, INITIAL, acts)
            && Exec(TINY, INITIAL, acts).table
               == Table(map[1 := MarkedRow(Rendering(1, 7), Completing, "CancelledByUser"), 2 := Rendering(2, 8)], 3)
  {
    hide Apply, Enabled, Run, Exec;
    var a0, a1, a2 := Create(RENDER, 0), Launch(1, 7, 0, true), Terminate(1, "CancelledByUser", None, 5);
    RenderIsCreated(INITIAL);
    var s1 := Apply(TINY, INITIAL, a0);
    RenderLaunches(s1, 1, 7);
    var s2 := Apply(TINY, s1, a1);
    TerminatedInVain(s2, 1);
    var s3 := Apply(TINY, s2, a2);
    assert s3.table.rows == map[1 := MarkedRow(Rendering(1, 7), Completing, "CancelledByUser")];
    SecondRender(s3);
    var rest := [a0, Launch(2, 8, 0, true)];
    RunOn(TINY, s2, a2, rest);
    RunOn(TINY, s1, a1, [a2] + rest);
    RunOn(TINY, INITIAL, a0, [a1] + ([a2] + rest));
    assert [a0] + ([a1] + ([a2] + rest)) == [a0, a1, a2, a0, Launch(2, 8, 0, true)];
  }

  lemma SecondRender(s: State)
    requires s.table.next == 2 && s.table.rows.Keys == {1} && !Holds(s.table.rows[1])
    ensures var acts := [Create(RENDER, 0), Launch(2, 8, 0, true)];
            && Run(TINY, s, acts)
            && Exec(TINY, s, acts).table == Table(map[1 := s.table.rows[1], 2 := Rendering(2, 8)], 3)
  {
    hide Apply, Enabled, Run, Exec, Holds;
    var a0, a1 := Create(RENDER, 0), Launch(2, 8, 0, true);
    RenderIsCreated(s);
    var s1 := Apply(TINY, s, a0);
    assert !Holds(RenderRow(2)) by { RenderWaits(); }
    RenderLaunches(s1, 2, 8);
    var s2 := Apply(TINY, s1, a1);
    NoMore(TINY, s2);
    RunOn(TINY, s1, a1, []);
    assert [a1] + [] == [a1];
    RunOn(TINY, s, a0, [a1]);
    assert [a0] + [a1] == [a0, a1];
  }

  lemma RenderWaits()
    ensures !Holds(RenderRow(2))
  {
  }

  lemma NoMore(cfg: Config, s: State)
    ensures Run(cfg, s, []) && Exec(cfg, s, []) == s
  {
  }

  /** On a machine with one processor and one GPU: a job is cancelled in vain, and the
      next one is given the processor and the GPU that it has not been seen to leave. */
  lemma GivenTwice()
    ensures var acts := [Create(RENDER, 0), Launch(1, 7, 0, true), Terminate(1, "CancelledByUser", None, 5),
                         Create(RENDER, 0), Launch(2, 8, 0, true)];
            && TINY.Valid() && Run(TINY, INITIAL, acts)
            && var t := Exec(TINY, INITIAL, acts).table;
               && t.rows.Keys == {1, 2} && t.rows[1].state == Completing && t.rows[2].state == Running
               && t.rows[1].assignedGpus == t.rows[2].assignedGpus == [0]
               && OccupiedUsage(t) == Usage(2, 0, 2) && RunningUsage(t) == Usage(1, 0, 1)
  {
    FiveEffects();
    var rows := map[1 := MarkedRow(Rendering(1, 7), Completing, "CancelledByUser"), 2 := Rendering(2, 8)];
    assert rows.Keys == {1, 2};
    hide Run, Exec;
    TwoRows(rows, CpuLoad);
    TwoRows(rows, MemoryLoad);
    TwoRows(rows, GpuLoad);
    TwoRows(rows, OccupiedCpus);
    TwoRows(rows, OccupiedMemory);
    TwoRows(rows, OccupiedGpus);
  }

  lemma TwoRows(rows: map<JobId, Job>, load: Job -> nat)
    requires rows.Keys == {1, 2}
    ensures Total(rows, load, 3) == load(rows[1]) + load(rows[2])
  {
    assert 0 !in rows && 1 in rows && 2 in rows;
    assert Total(rows, load, 1) == 0;
    assert Total(rows, load, 2) == load(rows[1]);
  }
}
