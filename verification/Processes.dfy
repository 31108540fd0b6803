/** The processes the daemon starts, whether or not it records them. */
module Processes {
  import opened Basics
  import opened Jobs
  import opened Accounting
  import opened Scheduling
  import opened Lifecycle
  import opened History
  import opened Operations
  import opened Conformance
  import opened DaemonLife
  import opened Outcomes

  /** How many of the processes were started for the job. */
  function CountOf(p: seq<Process>, id: JobId): nat {
    if p == [] then 0 else (if p[0].job == id then 1 else 0) + CountOf(p[1..], id)
  }

  function OneIf(stray: Option<JobId>, id: JobId): nat {
    if stray == Some(id) then 1 else 0
  }

  lemma {:induction false} CountAppend(a: seq<Process>, b: seq<Process>, id: JobId)
    ensures CountOf(a + b, id) == CountOf(a, id) + CountOf(b, id)
    decreases |a|
  {
    if a == [] {
      assert a + b == b;
    } else {
      assert (a + b)[1..] == a[1..] + b;
      CountAppend(a[1..], b, id);
    }
  }

  // ----- one pass -----

  lemma StartCounts(cfg: Config, s: State, x: JobId, env: Env, id: JobId)
    requires WellFormed(s.table) && IsPending(s.table, x) && (id in s.table.rows ==> !s.table.rows[id].allocationOnly)
    ensures var r, started := s.table.rows[x], TryStart(cfg, s, x, env);
            CountOf(StartSpawns(cfg, s.table, r, env), id) + Attempts(s, id)
            == if started.Some? then Attempts(started.value, id)
               else Attempts(s, id) + OneIf(if Strays(cfg, s.table, r, env) then Some(x) else None, id)
  {
    assert RowShape(s.table.rows[x]);
    hide AllocateGpuIds;
  }

  lemma ToldAttempts(cfg: Config, s: State, q: seq<JobId>, now: int, id: JobId)
    ensures var told := s.(table := Annotate(cfg, s.table, now, q));
            && Attempts(told, id) == Attempts(s, id)
            && (id in s.table.rows ==> told.table.rows[id].allocationOnly == s.table.rows[id].allocationOnly)
            && told.table.rows.Keys == s.table.rows.Keys
  {
    hide WaitReason;
  }

  lemma SafeIsWellFormed(cfg: Config, s: State)
    requires Safe(cfg, s)
    ensures WellFormed(s.table) && WellNumbered(s.table)
  {
  }

  lemma StartKeepsKind(cfg: Config, s: State, x: JobId, env: Env, id: JobId)
    requires x in s.table.rows && TryStart(cfg, s, x, env).Some? && id in s.table.rows
    ensures var u := TryStart(cfg, s, x, env).value.table;
            u.rows.Keys == s.table.rows.Keys && u.rows[id].allocationOnly == s.table.rows[id].allocationOnly
  {
    hide AllocateGpuIds;
  }

  /** The processes a pass starts for a batch job are those its row records, and
      one more if the pass strays on it. */
  lemma {:induction false} PassCounts(cfg: Config, env: Env, s: State, id: JobId)
    requires cfg.Valid() && Safe(cfg, s) && (id in s.table.rows ==> !s.table.rows[id].allocationOnly)
    ensures WellNumbered(s.table)
    ensures CountOf(PassSpawns(cfg, env, s), id) + Attempts(s, id)
         == Attempts(Pass(cfg, env, s).state, id) + OneIf(PassStray(cfg, env, s), id)
    decreases PendingCount(s.table)
  {
    hide Annotate, TryStart, Queue, Alike, PendingCount, IsPending, MayStart, Safe, WellFormed, WellNumbered;
    hide StartSpawns, Strays, Attempts, Reaches, Enabled;
    SafeIsWellFormed(cfg, s);
    var q := Queue(s.table);
    var i := FirstToStart(cfg, s.table, env.now, q);
    var told := s.(table := Annotate(cfg, s.table, env.now, q[..i]));
    QueueHoldsPending(s.table);
    AnnotateIsAlike(cfg, s.table, env.now, q[..i]);
    AlikePending(s.table, told.table);
    ToldIsSafe(cfg, env.now, s, q, i);
    ToldAttempts(cfg, s, q[..i], env.now, id);
    if i < |q| {
      var x := q[i];
      assert x in q;
      SafeIsWellFormed(cfg, told);
      StartCounts(cfg, told, x, env, id);
      var spawns := StartSpawns(cfg, told.table, told.table.rows[x], env);
      var started := TryStart(cfg, told, x, env);
      if started.Some? {
        StartTakesPending(cfg, told, x, env);
        StartReaches(cfg, told, x, env, ANYHOW);
        ReachesKeepsSafe(cfg, told, started.value, ANYHOW);
        if id in s.table.rows { StartKeepsKind(cfg, told, x, env, id); }
        PassCounts(cfg, env, started.value, id);
        CountAppend(spawns, PassSpawns(cfg, env, started.value), id);
      } else {
        assert spawns + [] == spawns;
      }
    }
  }

  /** Position of the first of the processes whose launch does not succeed. */
  function FirstToFail(p: seq<Process>, env: Env): (k: nat)
    ensures k <= |p| && (forall j :: 0 <= j < k ==> env.Launches(p[j].job)) && (k < |p| ==> !env.Launches(p[k].job))
  {
    if p == [] || !env.Launches(p[0].job) then 0 else 1 + FirstToFail(p[1..], env)
  }

  /** What is left of the processes that a pass would start if all launches
      succeeded: those before the first that does not, and that one too if there
      is a process for it. */
  function Cut(p: seq<Process>, env: Env): seq<Process> {
    var k := FirstToFail(p, env);
    p[..k] + if k < |p| && p[k].job in env.spawn then [Process(p[k].job, env.spawn[p[k].job])] else []
  }

  /** The first that does not launch, if there is a process for it. */
  function StrayOf(p: seq<Process>, env: Env): Option<JobId> {
    var k := FirstToFail(p, env);
    if k < |p| && p[k].job in env.spawn then Some(p[k].job) else None
  }

  lemma CutFirst(x: Process, rest: seq<Process>, env: Env)
    ensures env.Launches(x.job) ==>
              && Cut([x] + rest, env) == [x] + Cut(rest, env) && StrayOf([x] + rest, env) == StrayOf(rest, env)
              && (FirstToFail([x] + rest, env) == |[x] + rest| <==> FirstToFail(rest, env) == |rest|)
    ensures !env.Launches(x.job) ==>
              && FirstToFail([x] + rest, env) == 0
              && Cut([x] + rest, env) == if x.job in env.spawn then [Process(x.job, env.spawn[x.job])] else []
  {
    var p := [x] + rest;
    assert p[1..] == rest;
    if env.Launches(x.job) {
      var k := FirstToFail(rest, env);
      assert p[..k + 1] == [x] + rest[..k];
    } else {
      assert p[..0] == [];
    }
  }

  lemma StartSpawnsExactly(cfg: Config, s: State, x: JobId, env: Env, full: Env)
    requires Safe(cfg, s) && IsPending(s.table, x) && MayStart(cfg, s.table, env.now, x)
    requires Idealizes(full, env, s.table)
    ensures var r := s.table.rows[x];
            && StartSpawns(cfg, s.table, r, full) == (if r.allocationOnly then [] else [Process(x, full.spawn[x])])
            && StartSpawns(cfg, s.table, r, env)
               == (if r.allocationOnly || x !in env.spawn then [] else [Process(x, env.spawn[x])])
            && (!r.allocationOnly && !env.Launches(x) ==> (Strays(cfg, s.table, r, env) <==> x in env.spawn))
  {
    assert s.table.rows[x].id == x;
    FittingFindsGpus(cfg, s.table, s.table.rows[x]);
    hide Safe, JobFits, BlockReason, AllocateGpuIds;
  }

  /** Against the pass in which every launch succeeds: a pass starts the same
      processes, in the same order, up to the first job that does not launch. If
      there is a process for that one it is started too, and it is the stray. */
  lemma {:induction false} PassSpawnsExactly(cfg: Config, env: Env, full: Env, s: State)
    requires cfg.Valid() && Safe(cfg, s) && Idealizes(full, env, s.table)
    ensures WellNumbered(s.table)
    ensures PassSpawns(cfg, env, s) == Cut(PassSpawns(cfg, full, s), env)
    ensures PassStray(cfg, env, s) == StrayOf(PassSpawns(cfg, full, s), env)
    ensures Pass(cfg, env, s).ok <==> FirstToFail(PassSpawns(cfg, full, s), env) == |PassSpawns(cfg, full, s)|
    decreases PendingCount(s.table)
  {
    hide Annotate, TryStart, Queue, Alike, PendingCount, IsPending, MayStart, Safe, WellFormed, WellNumbered;
    hide StartSpawns, Strays, Spawnable, Idealizes, Reaches, Enabled, Cut, StrayOf, FirstToFail;
    SafeIsWellFormed(cfg, s);
    IdealNow(full, env, s.table);
    var q := Queue(s.table);
    var i := FirstToStart(cfg, s.table, env.now, q);
    var told := s.(table := Annotate(cfg, s.table, env.now, q[..i]));
    QueueHoldsPending(s.table);
    AnnotateIsAlike(cfg, s.table, env.now, q[..i]);
    AlikePending(s.table, told.table);
    ToldIsSafe(cfg, env.now, s, q, i);
    ToldIdeal(cfg, s.table, q[..i], env, full);
    if i == |q| {
      NothingToCut(env);
    } else {
      var x := q[i];
      assert x in q;
      SafeIsWellFormed(cfg, told);
      IdealStart(cfg, told, x, env, full);
      StartSpawnsExactly(cfg, told, x, env, full);
      IdealPid(full, env, told.table, x);
      var s1 := TryStart(cfg, told, x, full).value;
      StartTakesPending(cfg, told, x, full);
      var rest := PassSpawns(cfg, full, s1);
      if told.table.rows[x].allocationOnly || env.Launches(x) {
        StartReaches(cfg, told, x, full, ANYHOW);
        ReachesKeepsSafe(cfg, told, s1, ANYHOW);
        PassSpawnsExactly(cfg, env, full, s1);
      }
      if told.table.rows[x].allocationOnly {
        assert forall p: seq<Process> :: [] + p == p;
      } else {
        CutFirst(Process(x, full.spawn[x]), rest, env);
        if !env.Launches(x) { StrayFirst(Process(x, full.spawn[x]), rest, env); }
      }
    }
  }

  lemma NothingToCut(env: Env)
    ensures Cut([], env) == [] && StrayOf([], env) == None && FirstToFail([], env) == 0
  {
  }

  lemma StrayFirst(x: Process, rest: seq<Process>, env: Env)
    requires !env.Launches(x.job)
    ensures StrayOf([x] + rest, env) == (if x.job in env.spawn then Some(x.job) else None)
  {
  }

  lemma IdealPid(full: Env, env: Env, t: Table, x: JobId)
    requires Idealizes(full, env, t) && IsPending(t, x)
    ensures !t.rows[x].allocationOnly ==> x in full.spawn
    ensures env.Launches(x) ==> x in full.spawn && full.spawn[x] == env.spawn[x]
  {
  }

  /** The store and the runner know the process. */
  predicate Recorded(s: State, p: Process) {
    && p.job in s.table.rows && s.table.rows[p.job].state == Running && s.table.rows[p.job].pid == Some(p.pid)
    && p.job in s.tracked && s.tracked[p.job] == Tracked(p.pid, p.pid, false, false)
  }

  /** The job waits as if nothing had been started for it. */
  predicate StillWaiting(s: State, id: JobId) {
    id in s.table.rows && s.table.rows[id].state == Pending && id !in s.tracked
  }

  lemma ToldKeeps(cfg: Config, s: State, q: seq<JobId>, now: int, p: Process)
    requires forall k :: 0 <= k < |q| ==> IsPending(s.table, q[k])
    ensures var told := s.(table := Annotate(cfg, s.table, now, q));
            (Recorded(s, p) ==> Recorded(told, p)) && (StillWaiting(s, p.job) ==> StillWaiting(told, p.job))
  {
    hide WaitReason;
  }

  lemma StartKeepsRecorded(cfg: Config, s: State, x: JobId, env: Env, p: Process)
    requires IsPending(s.table, x) && TryStart(cfg, s, x, env).Some? && Recorded(s, p)
    ensures Recorded(TryStart(cfg, s, x, env).value, p)
  {
    hide AllocateGpuIds;
  }

  lemma {:induction false} PassKeepsRecorded(cfg: Config, env: Env, s: State, p: Process)
    requires WellNumbered(s.table) && Recorded(s, p)
    ensures Recorded(Pass(cfg, env, s).state, p)
    decreases PendingCount(s.table)
  {
    hide Annotate, TryStart, Queue, Alike, PendingCount, IsPending, MayStart, WellNumbered, Recorded;
    var q := Queue(s.table);
    var i := FirstToStart(cfg, s.table, env.now, q);
    var told := s.(table := Annotate(cfg, s.table, env.now, q[..i]));
    QueueHoldsPending(s.table);
    AnnotateIsAlike(cfg, s.table, env.now, q[..i]);
    AlikePending(s.table, told.table);
    assert forall k :: 0 <= k < i ==> q[..i][k] == q[k] && q[k] in q;
    ToldKeeps(cfg, s, q[..i], env.now, p);
    if i < |q| {
      assert q[i] in q;
      if TryStart(cfg, told, q[i], env).Some? {
        StartTakesPending(cfg, told, q[i], env);
        StartKeepsRecorded(cfg, told, q[i], env, p);
        PassKeepsRecorded(cfg, env, TryStart(cfg, told, q[i], env).value, p);
      }
    }
  }

  lemma StartRecords(cfg: Config, s: State, x: JobId, env: Env)
    requires WellNumbered(s.table) && TrackedRuns(s) && IsPending(s.table, x)
    ensures var spawns := StartSpawns(cfg, s.table, s.table.rows[x], env); var started := TryStart(cfg, s, x, env);
            && (started.Some? ==> forall p :: p in spawns ==> Recorded(started.value, p))
            && (started.None? && spawns != [] ==>
                  && Strays(cfg, s.table, s.table.rows[x], env) && StillWaiting(s, x)
                  && spawns == [Process(x, env.spawn[x])])
            && (started.None? && Strays(cfg, s.table, s.table.rows[x], env) ==> spawns != [])
  {
    hide AllocateGpuIds;
  }

  lemma SafeTracks(cfg: Config, s: State)
    requires Safe(cfg, s)
    ensures TrackedRuns(s)
  {
  }

  /** All are recorded, but for the last one if there is a stray. */
  predicate RecordedButStray(spawns: seq<Process>, stray: Option<JobId>, pass: PassResult) {
    && (stray.None? ==> forall p :: p in spawns ==> Recorded(pass.state, p))
    && (stray.Some? ==>
          && !pass.ok && StillWaiting(pass.state, stray.value)
          && spawns != [] && spawns[|spawns| - 1].job == stray.value
          && forall k :: 0 <= k < |spawns| - 1 ==> Recorded(pass.state, spawns[k]))
  }

  lemma FirstRecorded(first: seq<Process>, rest: seq<Process>, stray: Option<JobId>, pass: PassResult)
    requires RecordedButStray(rest, stray, pass) && forall p :: p in first ==> Recorded(pass.state, p)
    ensures RecordedButStray(first + rest, stray, pass)
  {
    var all := first + rest;
    hide Recorded, StillWaiting;
    if stray.None? {
      forall p | p in all ensures Recorded(pass.state, p) {
        assert p in first || p in rest;
      }
    } else {
      assert all[|all| - 1] == rest[|rest| - 1];
      forall k | 0 <= k < |all| - 1 ensures Recorded(pass.state, all[k]) {
        if k < |first| { assert all[k] in first; } else { assert all[k] == rest[k - |first|]; }
      }
    }
  }

  lemma NoneRecorded(pass: PassResult)
    ensures RecordedButStray([], None, pass)
  {
  }

  lemma StrayAlone(p: Process, pass: PassResult)
    requires !pass.ok && StillWaiting(pass.state, p.job)
    ensures RecordedButStray([p], Some(p.job), pass)
  {
  }

  /** What becomes of the processes a pass starts: each is recorded, row and entry,
      but for that of the stray, which comes last; the pass has failed then, and
      the job waits as if nothing had been started for it. */
  lemma {:induction false} StrayGoesUnrecorded(cfg: Config, env: Env, s: State)
    requires cfg.Valid() && Safe(cfg, s)
    ensures WellNumbered(s.table)
    ensures RecordedButStray(PassSpawns(cfg, env, s), PassStray(cfg, env, s), Pass(cfg, env, s))
    decreases PendingCount(s.table)
  {
    hide Annotate, TryStart, Queue, Alike, PendingCount, IsPending, MayStart, Safe, WellFormed, WellNumbered;
    hide StartSpawns, Strays, TrackedRuns, Recorded, StillWaiting, RecordedButStray, Reaches, Enabled;
    SafeIsWellFormed(cfg, s);
    var q := Queue(s.table);
    var i := FirstToStart(cfg, s.table, env.now, q);
    var told := s.(table := Annotate(cfg, s.table, env.now, q[..i]));
    QueueHoldsPending(s.table);
    AnnotateIsAlike(cfg, s.table, env.now, q[..i]);
    AlikePending(s.table, told.table);
    ToldIsSafe(cfg, env.now, s, q, i);
    if i < |q| {
      var x := q[i];
      assert x in q;
      SafeIsWellFormed(cfg, told);
      SafeTracks(cfg, told);
      StartRecords(cfg, told, x, env);
      var spawns := StartSpawns(cfg, told.table, told.table.rows[x], env);
      var started := TryStart(cfg, told, x, env);
      if started.Some? {
        var s1 := started.value;
        StartTakesPending(cfg, told, x, env);
        StartReaches(cfg, told, x, env, ANYHOW);
        ReachesKeepsSafe(cfg, told, s1, ANYHOW);
        StrayGoesUnrecorded(cfg, env, s1);
        forall p | p in spawns ensures Recorded(Pass(cfg, env, s1).state, p) {
          PassKeepsRecorded(cfg, env, s1, p);
        }
        FirstRecorded(spawns, PassSpawns(cfg, env, s1), PassStray(cfg, env, s1), Pass(cfg, env, s1));
      } else {
        assert spawns + [] == spawns;
        NoneRecorded(PassResult(told, false));
        if spawns != [] { StrayAlone(spawns[0], PassResult(told, false)); }
      }
    } else {
      NoneRecorded(PassResult(told, true));
    }
  }

  // ----- a request, a turn, a restart -----

  const STILL := ANYHOW.(still := true)

  lemma {:induction false} NoStarts(acts: seq<Action>, id: JobId)
    requires forall k :: 0 <= k < |acts| ==> STILL.Permit(acts[k])
    ensures Starts(acts, id) == 0
  {
    if acts != [] {
      assert STILL.Permit(acts[0]);
      forall k | 0 <= k < |acts[1..]| ensures STILL.Permit(acts[1..][k]) {
        assert acts[1..][k] == acts[k + 1];
      }
      NoStarts(acts[1..], id);
    }
  }

  lemma StillKeepsAttempts(cfg: Config, s: State, u: State, id: JobId)
    requires cfg.Valid() && Safe(cfg, s) && Reaches(cfg, s, u, STILL)
    ensures Safe(cfg, u) && Attempts(u, id) == Attempts(s, id)
  {
    var acts :| RunsTo(cfg, s, acts, u, STILL);
    hide Safe, Run, Exec, Attempts;
    ReachesKeepsSafe(cfg, s, u, STILL);
    StartsAddUp(cfg, s, acts, id);
    NoStarts(acts, id);
  }

  /** A request that schedules does so from a state it reaches without starting
      anything, and ends where that pass does. */
  lemma RequestThenPass(cfg: Config, s: State, request: Request, env: Env, wait: Wait)
    requires Consistent(s) && Disciplined(s, request) && BeforeScheduling(s, request, env).Some?
    ensures var v := BeforeScheduling(s, request, env).value;
            && Reaches(cfg, s, v, STILL)
            && Respond(cfg, s, request, env, wait).state == Pass(cfg, env, v).state
            && (Respond(cfg, s, request, env, wait).response == Refused <==> !Pass(cfg, env, v).ok)
  {
    hide Reaches, Pass, Created, Held, UpdatedRow, UpdateAccepted, EditedRow;
    match request
    case SubmitBatch(req, spec) => CreatedReaches(cfg, s, req, spec, env.now, STILL);
    case ReleaseJob(id) => HeldReaches(cfg, s, id, false, STILL);
    case UpdateJob(id, fields) => UpdatedReaches(cfg, s, id, fields, STILL);
    case FinishAllocation(id, ending) => FinishReaches(cfg, s, id, ending, env, STILL);
  }

  /** Any other request, but those that start their own job, starts nothing. */
  lemma RequestThenNothing(cfg: Config, s: State, request: Request, env: Env, wait: Wait)
    requires Consistent(s) && Disciplined(s, request) && BeforeScheduling(s, request, env).None?
    requires !request.SubmitAlloc? && (request.SubmitRun? ==> !RequestFits(cfg, s.table, request.req))
    ensures Reaches(cfg, s, Respond(cfg, s, request, env, wait).state, STILL)
  {
    assert forall req :: Created(s.table, req, None, env.now) == Inserted(s.table, req, env.now);
    hide Reaches, Pass, Created, Held, UpdatedRow, UpdateAccepted, RequestFits, Terminated;
    ReachesItself(cfg, s, STILL);
    match request
    case SubmitBatch(_, _) =>
    case SubmitRun(req, _) => CreatedReaches(cfg, s, req, None, env.now, STILL);
    case StartStep(parent, name, userName) => StartedStepReaches(cfg, s, parent, name, userName, env.now, STILL);
    case AdoptAllocation(id, pid, pgid) => AdoptReaches(cfg, s, id, pid, pgid, STILL);
    case FinishAllocation(id, ending) => FinishReaches(cfg, s, id, ending, env, STILL);
    case HoldJob(id) => HeldReaches(cfg, s, id, true, STILL);
    case UpdateJob(id, fields) => if id in s.table.rows { UpdatedReaches(cfg, s, id, fields, STILL); }
    case CancelJob(id) => CancelReaches(cfg, s, id, wait, env.now, STILL);
  }

  lemma AllocCounts(cfg: Config, s: State, req: SubmitRequest, immediate: bool, now: int, id: JobId)
    requires Numbered(s.table) && req.allocationOnly
    ensures var u := SubmittedAlloc(cfg, s, req, immediate, now).state;
            (id in u.table.rows ==> !u.table.rows[id].allocationOnly) ==> Attempts(u, id) == Attempts(s, id)
  {
    hide RequestFits;
  }

  lemma RunCounts(cfg: Config, s: State, req: SubmitRequest, immediate: bool, env: Env, id: JobId)
    requires Numbered(s.table) && !req.allocationOnly && RequestFits(cfg, s.table, req)
    ensures var request := Request.SubmitRun(req, immediate);
            CountOf(RequestSpawns(cfg, s, request, env), id) + Attempts(s, id)
            == Attempts(SubmittedRun(cfg, s, req, immediate, env).state, id)
               + OneIf(RequestStray(cfg, s, request, env), id)
  {
    hide RequestFits, AllocateGpuIds;
  }

  lemma PassKeepsKind(cfg: Config, env: Env, s: State, id: JobId)
    requires WellNumbered(s.table)
    ensures var u := Pass(cfg, env, s).state.table;
            && (id in s.table.rows <==> id in u.rows)
            && (id in s.table.rows ==> u.rows[id].allocationOnly == s.table.rows[id].allocationOnly)
  {
    PassIsExact(cfg, env, s);
    hide Pass;
    if id in s.table.rows {
      var r, r' := s.table.rows[id], Pass(cfg, env, s).state.table.rows[id];
      assert MerelyTold(r, r') || Started(r, r', env.now);
    }
  }

  lemma RequestCounts(cfg: Config, s: State, request: Request, env: Env, wait: Wait, id: JobId)
    requires cfg.Valid() && Safe(cfg, s) && Numbered(s.table) && Disciplined(s, request)
    requires var u := Respond(cfg, s, request, env, wait).state; id in u.table.rows ==> !u.table.rows[id].allocationOnly
    ensures CountOf(RequestSpawns(cfg, s, request, env), id) + Attempts(s, id)
         == Attempts(Respond(cfg, s, request, env, wait).state, id) + OneIf(RequestStray(cfg, s, request, env), id)
  {
    hide Safe, Reaches, Pass, PassSpawns, PassStray, Attempts, RequestFits, LaunchSpawns, Strays;
    hide SubmittedBatch, SubmittedRun, SubmittedAlloc, AllocationFinished, JobUpdated, JobCancelled;
    SafeIsConsistent(cfg, s);
    var before := BeforeScheduling(s, request, env);
    if before.Some? {
      var v := before.value;
      hide BeforeScheduling;
      RequestThenPass(cfg, s, request, env, wait);
      StillKeepsAttempts(cfg, s, v, id);
      PassKeepsKind(cfg, env, v, id);
      PassCounts(cfg, env, v, id);
    } else if request.SubmitAlloc? {
      AllocCounts(cfg, s, request.req, request.immediate, env.now, id);
    } else if request.SubmitRun? && RequestFits(cfg, s.table, request.req) {
      RunCounts(cfg, s, request.req, request.immediate, env, id);
    } else {
      hide BeforeScheduling;
      RequestThenNothing(cfg, s, request, env, wait);
      StillKeepsAttempts(cfg, s, Respond(cfg, s, request, env, wait).state, id);
    }
  }

  /** What a turn does before it schedules starts nothing. */
  lemma TurnThenPass(cfg: Config, s: State, w: World)
    requires cfg.Valid() && Safe(cfg, s)
    ensures Consistent(s) && Reaches(cfg, s, Enforce(s, w.order, w.waits, w.env.now).state, STILL)
    ensures Reaches(cfg, s, BeforePass(s, w), STILL)
  {
    hide Safe, Reaches, Enforce, Polled, Reconciled;
    var now := w.env.now;
    var e := Enforce(s, w.order, w.waits, now).state;
    var p := Polled(e, w.exits, now);
    SafeIsConsistent(cfg, s);
    EnforceReaches(cfg, s, w.order, w.waits, now, STILL);
    ReachesKeepsSafe(cfg, s, e, STILL);
    SafeIsConsistent(cfg, e);
    PolledReaches(cfg, e, w.exits, now, STILL);
    ReachesKeepsSafe(cfg, e, p, STILL);
    SafeIsConsistent(cfg, p);
    ReconciledReaches(cfg, p, w.lost, now, STILL);
    ReachesThrough(cfg, s, e, p, STILL);
    ReachesThrough(cfg, s, p, BeforePass(s, w), STILL);
  }

  lemma TurnCounts(cfg: Config, s: State, w: World, id: JobId)
    requires cfg.Valid() && Safe(cfg, s) && WellNumbered(s.table)
    requires var u := Tick(cfg, s, w).state; id in u.table.rows ==> !u.table.rows[id].allocationOnly
    ensures CountOf(TickSpawns(cfg, s, w), id) + Attempts(s, id)
         == Attempts(Tick(cfg, s, w).state, id) + OneIf(TickStray(cfg, s, w), id)
  {
    hide Safe, Reaches, Enforce, BeforePass, Pass, PassSpawns, PassStray, Attempts, WellNumbered;
    TurnThenPass(cfg, s, w);
    if Enforce(s, w.order, w.waits, w.env.now).ok {
      var v := BeforePass(s, w);
      BeforePassNumbered(s, w);
      StillKeepsAttempts(cfg, s, v, id);
      PassKeepsKind(cfg, w.env, v, id);
      PassCounts(cfg, w.env, v, id);
    } else {
      StillKeepsAttempts(cfg, s, Tick(cfg, s, w).state, id);
    }
  }

  lemma RestartCounts(cfg: Config, s: State, v: Survey, id: JobId)
    requires cfg.Valid() && Safe(cfg, s)
    ensures Attempts(Recovered(s.table, v), id) == Attempts(s, id)
  {
    SafeIsConsistent(cfg, s);
    StepIsSafe(cfg, s, Restart);
    var empty := State(s.table, map[]);
    assert empty == Apply(cfg, s, Restart);
    RecoveryReaches(cfg, s.table, v, STILL);
    hide Safe, Reaches, Recovered;
    StillKeepsAttempts(cfg, empty, Recovered(s.table, v), id);
  }

  // ----- the daemon's life -----

  /** The processes the daemon starts during an event, in order. */
  ghost function EventSpawns(cfg: Config, s: State, e: Event): seq<Process>
    requires Numbered(s.table)
  {
    match e
    case Asked(request, env, _) => RequestSpawns(cfg, s, request, env)
    case Turn(world) => TickSpawns(cfg, s, world)
    case Reborn(_) => []
  }

  /** The job on which the event strays: the daemon starts a process for it whose
      set-up fails, and records nothing. */
  ghost function EventStray(cfg: Config, s: State, e: Event): Option<JobId>
    requires Numbered(s.table)
  {
    match e
    case Asked(request, env, _) => RequestStray(cfg, s, request, env)
    case Turn(world) => TickStray(cfg, s, world)
    case Reborn(_) => None
  }

  lemma EventCounts(cfg: Config, s: State, e: Event, id: JobId)
    requires cfg.Valid() && Safe(cfg, s) && Numbered(s.table) && Allowed(s, e)
    requires var u := StateAfter(cfg, s, e); id in u.table.rows ==> IsBatch(u.table.rows[id])
    ensures CountOf(EventSpawns(cfg, s, e), id) + Attempts(s, id)
         == Attempts(StateAfter(cfg, s, e), id) + OneIf(EventStray(cfg, s, e), id)
  {
    hide Safe, Respond, Tick, Recovered, RequestSpawns, RequestStray, TickSpawns, TickStray, Attempts, Disciplined;
    match e
    case Asked(request, env, wait) => RequestCounts(cfg, s, request, env, wait, id);
    case Turn(world) => TurnCounts(cfg, s, world, id);
    case Reborn(survey) => RestartCounts(cfg, s, survey, id);
  }

  /** All processes the daemon ever starts, in order. */
  ghost function LifeSpawns(cfg: Config, s: State, events: seq<Event>): seq<Process>
    requires Life(cfg, s, events)
    decreases |events|
  {
    if events == [] then []
    else EventSpawns(cfg, s, events[0]) + LifeSpawns(cfg, StateAfter(cfg, s, events[0]), events[1..])
  }

  /** How many events stray on the job. */
  ghost function StrayEvents(cfg: Config, s: State, events: seq<Event>, id: JobId): nat
    requires Life(cfg, s, events)
    decreases |events|
  {
    if events == [] then 0
    else OneIf(EventStray(cfg, s, events[0]), id) + StrayEvents(cfg, StateAfter(cfg, s, events[0]), events[1..], id)
  }

  lemma {:induction false} LifeCounts(cfg: Config, s: State, events: seq<Event>, id: JobId)
    requires cfg.Valid() && Safe(cfg, s) && Life(cfg, s, events)
    requires id in Outlived(cfg, s, events).table.rows && IsBatch(Outlived(cfg, s, events).table.rows[id])
    ensures CountOf(LifeSpawns(cfg, s, events), id) + Attempts(s, id)
         == Attempts(Outlived(cfg, s, events), id) + StrayEvents(cfg, s, events, id)
    decreases |events|
  {
    if events != [] {
      hide Safe, Allowed, StateAfter, EventSpawns, EventStray, Attempts, IsBatch, OneIf, RowPath;
      var s1, rest := StateAfter(cfg, s, events[0]), events[1..];
      EventKeepsSafe(cfg, s, events[0]);
      if id in s1.table.rows {
        DaemonRowsMoveOn(cfg, s1, rest, id);
        PathKeepsBatch(s1.table.rows[id], Outlived(cfg, s1, rest).table.rows[id]);
      }
      EventCounts(cfg, s, events[0], id);
      CountAppend(EventSpawns(cfg, s, events[0]), LifeSpawns(cfg, s1, rest), id);
      LifeCounts(cfg, s1, rest, id);
    }
  }

  ghost predicate NeverStrays(cfg: Config, s: State, events: seq<Event>, id: JobId)
    requires Life(cfg, s, events)
    decreases |events|
  {
    events == [] || (EventStray(cfg, s, events[0]) != Some(id)
                     && NeverStrays(cfg, StateAfter(cfg, s, events[0]), events[1..], id))
  }

  lemma {:induction false} NoStrayEvents(cfg: Config, s: State, events: seq<Event>, id: JobId)
    requires Life(cfg, s, events)
    ensures StrayEvents(cfg, s, events, id) == 0 <==> NeverStrays(cfg, s, events, id)
    decreases |events|
  {
    if events != [] {
      hide Allowed, StateAfter, EventStray;
      NoStrayEvents(cfg, StateAfter(cfg, s, events[0]), events[1..], id);
    }
  }

  /** Over the daemon's life, started on an empty database: the processes started
      for a batch job are as many as its row records, and one more for every event
      that strays on it. So its row accounts for all of them exactly if none does;
      then they are at most two, and two only with a requeue, and a job to be
      requeued shows a failure only after the second. */
  lemma DaemonProcessesExactly(cfg: Config, events: seq<Event>, id: JobId)
    requires cfg.Valid() && Life(cfg, INITIAL, events)
    requires id in Outlived(cfg, INITIAL, events).table.rows && IsBatch(Outlived(cfg, INITIAL, events).table.rows[id])
    ensures var r := Outlived(cfg, INITIAL, events).table.rows[id];
            var started, recorded := CountOf(LifeSpawns(cfg, INITIAL, events), id), RowAttempts(r);
            && started == recorded + StrayEvents(cfg, INITIAL, events, id)
            && (started == recorded <==> NeverStrays(cfg, INITIAL, events, id))
            && recorded <= 2 && (recorded == 2 ==> r.requeue)
            && (r.requeue && r.state in {Failed, Timeout, OutOfMemory} ==> recorded == 2)
  {
    InitialIsSafe(cfg);
    LifeCounts(cfg, INITIAL, events, id);
    NoStrayEvents(cfg, INITIAL, events, id);
    hide LifeSpawns, StrayEvents, NeverStrays, Life, Outlived;
    DaemonIsSound(cfg, events);
    assert RowShape(Outlived(cfg, INITIAL, events).table.rows[id]);
  }

  // ----- when an event strays -----

  /** The job is the first of those listed that does not launch; there is a process
      for it, but not its set-up. */
  ghost predicate FirstUnset(p: seq<Process>, env: Env, id: JobId) {
    exists k :: 0 <= k < |p| && p[k].job == id && id in env.spawn && id in env.unset
                && forall j :: 0 <= j < k ==> env.Launches(p[j].job)
  }

  lemma StrayOfIs(p: seq<Process>, env: Env, id: JobId)
    ensures StrayOf(p, env) == Some(id) <==> FirstUnset(p, env, id)
  {
    var k := FirstToFail(p, env);
    if j :| 0 <= j < |p| && p[j].job == id && id in env.spawn && id in env.unset
            && forall i :: 0 <= i < j ==> env.Launches(p[i].job) {
      assert !env.Launches(p[j].job);
      assert j == k;
    }
  }

  /** What a pass from the given state would start if every launch succeeded. */
  ghost function IdealSpawns(cfg: Config, env: Env, s: State): seq<Process>
    requires WellNumbered(s.table)
  {
    PassSpawns(cfg, Ideal(env, s.table), s)
  }

  lemma PassStraysExactly(cfg: Config, env: Env, s: State, id: JobId)
    requires cfg.Valid() && Safe(cfg, s) && WellNumbered(s.table)
    ensures PassStray(cfg, env, s) == Some(id) <==> FirstUnset(IdealSpawns(cfg, env, s), env, id)
  {
    hide Safe, PassStray, PassSpawns, Ideal, Idealizes, StrayOf, FirstUnset, Pass, WellNumbered;
    PassSpawnsExactly(cfg, env, Ideal(env, s.table), s);
    StrayOfIs(IdealSpawns(cfg, env, s), env, id);
  }

  /** A submission that is to start at once strays exactly if it fits and gets a
      process without set-up; any other event exactly if it comes to schedule and
      the job is the first to reach its start that does not launch. */
  ghost predicate StraysOn(cfg: Config, s: State, e: Event, id: JobId)
    requires Numbered(s.table)
  {
    match e
    case Asked(request, env, _) =>
      if request.SubmitRun? then
        RequestFits(cfg, s.table, request.req) && id == s.table.next && id in env.spawn && id in env.unset
      else
        var v := BeforeScheduling(s, request, env);
        v.Some? && FirstUnset(IdealSpawns(cfg, env, v.value), env, id)
    case Turn(w) =>
      BeforePassNumbered(s, w);
      Enforce(s, w.order, w.waits, w.env.now).ok && FirstUnset(IdealSpawns(cfg, w.env, BeforePass(s, w)), w.env, id)
    case Reborn(_) => false
  }

  lemma RunStraysExactly(cfg: Config, s: State, req: SubmitRequest, env: Env)
    requires cfg.Valid() && Safe(cfg, s) && Numbered(s.table) && RequestFits(cfg, s.table, req)
    ensures LaunchGpus(cfg, Inserted(s.table, req, env.now), RunRow(s, req, env.now)).Ok?
    ensures Strays(cfg, Inserted(s.table, req, env.now), RunRow(s, req, env.now), env)
       <==> s.table.next in env.spawn && s.table.next in env.unset
  {
    var t, r := Inserted(s.table, req, env.now), RunRow(s, req, env.now);
    assert Created(s.table, req, None, env.now) == t;
    hide Safe, Reaches, RequestFits, JobFits, AllocateGpuIds, WellNumbered;
    CreatedReaches(cfg, s, req, None, env.now, ANYHOW);
    ReachesKeepsSafe(cfg, s, s.(table := t), ANYHOW);
    SafeIsWellFormed(cfg, s.(table := t));
    SafeLedger(cfg, s.(table := t));
    InsertedFits(cfg, s.table, req, env.now);
    FittingFindsGpus(cfg, t, r);
  }

  lemma SafeLedger(cfg: Config, s: State)
    requires Safe(cfg, s)
    ensures GpuLedger(cfg, s.table)
  {
  }

  lemma EventStraysExactly(cfg: Config, s: State, e: Event, id: JobId)
    requires cfg.Valid() && Safe(cfg, s) && Numbered(s.table) && Allowed(s, e)
    ensures EventStray(cfg, s, e) == Some(id) <==> StraysOn(cfg, s, e, id)
  {
    hide Safe, Reaches, PassStray, IdealSpawns, FirstUnset, RequestFits, Enforce, BeforePass, WellNumbered;
    hide Strays, Disciplined;
    SafeIsWellFormed(cfg, s);
    match e
    case Asked(request, env, wait) =>
      var v := BeforeScheduling(s, request, env);
      SafeIsConsistent(cfg, s);
      if request.SubmitRun? {
        if RequestFits(cfg, s.table, request.req) { RunStraysExactly(cfg, s, request.req, env); }
      } else if v.Some? {
        hide BeforeScheduling;
        RequestThenPass(cfg, s, request, env, wait);
        ReachesKeepsSafe(cfg, s, v.value, STILL);
        PassStraysExactly(cfg, env, v.value, id);
      }
    case Turn(w) =>
      TurnThenPass(cfg, s, w);
      BeforePassNumbered(s, w);
      ReachesKeepsSafe(cfg, s, BeforePass(s, w), STILL);
      PassStraysExactly(cfg, w.env, BeforePass(s, w), id);
    case Reborn(_) =>
  }
}
