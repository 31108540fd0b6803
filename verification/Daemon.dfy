/** The daemon: its scheduling pass, its answers to requests, its main loop and
    its recovery, as the code runs them on the store and the runner. */
module Daemon {
  import opened Basics
  import opened Jobs
  import opened Scheduling
  import opened Operations
  import opened JobStore
  import opened JobRunner

  // ----- scheduling -----

  /** Tries the queue from the front until a job has been started; then the queue
      is listed and ordered anew. */
  method SchedulePendingJobs(store: Store, runner: Runner, env: Env) returns (ok: bool)
    requires Consistent(runner.With(store))
    modifies runner`jobs, runner`spawned, store`table
    ensures PassResult(runner.With(store), ok) == Pass(store.config, env, old(runner.With(store)))
    ensures runner.spawned == old(runner.spawned) + PassSpawns(store.config, env, old(runner.With(store)))
    ensures Consistent(runner.With(store))
  {
    hide Pass, PassSpawns;
    ghost var pass := Pass(store.config, env, runner.With(store));
    ghost var spawns := runner.spawned + PassSpawns(store.config, env, runner.With(store));
    var started := true;
    ok := true;
    while started
      invariant Consistent(runner.With(store))
      invariant started ==> ok && Pass(store.config, env, runner.With(store)) == pass
      invariant started ==> runner.spawned + PassSpawns(store.config, env, runner.With(store)) == spawns
      invariant !started ==> PassResult(runner.With(store), ok) == pass && runner.spawned == spawns
      decreases started, PendingCount(store.table)
    {
      started, ok := ScanQueue(store, runner, env);
    }
  }

  /** One walk over the queue, up to the first job that may start. */
  method ScanQueue(store: Store, runner: Runner, env: Env) returns (started: bool, ok: bool)
    requires Consistent(runner.With(store))
    modifies runner`jobs, runner`spawned, store`table
    ensures Consistent(runner.With(store))
    ensures started ==> ok && PendingCount(store.table) < old(PendingCount(store.table))
    ensures started ==> Pass(store.config, env, runner.With(store)) == old(Pass(store.config, env, runner.With(store)))
    ensures !started ==> PassResult(runner.With(store), ok) == old(Pass(store.config, env, runner.With(store)))
    ensures runner.spawned + (if started then PassSpawns(store.config, env, runner.With(store)) else [])
         == old(runner.spawned) + old(PassSpawns(store.config, env, runner.With(store)))
  {
    hide StartSpawns, PassSpawns;
    hide Consistent, Queue, Pass, Scanned, WaitReason, PendingCount, TryStart, Mark;
    ghost var s0, before := runner.With(store), runner.spawned;
    ConsistentIsNumbered(s0);
    var pending := store.NextPendingJobs();
    ghost var q := Queue(store.table);
    ScanBegins(store.config, s0, q, env.now);
    for i := 0 to |pending|
      invariant Scanned(store.config, s0, q, env.now, i, runner.With(store))
      invariant runner.spawned == before
    {
      var job := pending[i];
      ScanSees(store.config, s0, q, env.now, i, runner.With(store));
      var reason := WaitReason(store.config, store.table, job, env.now);
      if reason.Some? {
        ScanGoesOn(store.config, s0, q, env.now, i, runner.With(store));
        store.MarkState(job.id, Pending, reason.value);
      } else {
        ghost var told := runner.With(store);
        ok := StartJob(store, runner, job, env);
        ScanFinds(store.config, env, s0, q, i, told, ok, runner.With(store));
        return ok, ok;
      }
    }
    ScanStartsNothing(store.config, env, s0, q, runner.With(store));
    return false, true;
  }

  /** An allocation needs only its row; other work is launched. */
  method StartJob(store: Store, runner: Runner, job: Job, env: Env) returns (ok: bool)
    requires Consistent(runner.With(store)) && job.id in store.table.rows && store.table.rows[job.id] == job
    modifies runner`jobs, runner`spawned, store`table
    ensures var started := TryStart(store.config, old(runner.With(store)), job.id, env);
            ok == started.Some? && runner.With(store) == if ok then started.value else old(runner.With(store))
    ensures runner.spawned == old(runner.spawned) + StartSpawns(store.config, old(store.table), job, env)
    ensures Consistent(runner.With(store))
  {
    ghost var s0 := runner.With(store);
    if job.allocationOnly {
      store.MarkAllocationRunning(job.id, env.now);
      ok := true;
    } else {
      hide TryLaunch, LaunchSpawns;
      ok := runner.Launch(store, job, env);
    }
    if ok { StartKeepsConsistent(store.config, s0, job.id, env); }
  }

  lemma StartKeepsConsistent(cfg: Config, s: State, id: JobId, env: Env)
    requires Consistent(s) && id in s.table.rows && TryStart(cfg, s, id, env).Some?
    ensures Consistent(TryStart(cfg, s, id, env).value)
  {
  }

  lemma ConsistentIsNumbered(s: State)
    requires Consistent(s)
    ensures Numbered(s.table)
  {
  }

  /** A scan that has told the first i jobs of the queue why they wait. */
  ghost predicate Scanned(cfg: Config, s0: State, q: seq<JobId>, now: int, i: nat, s: State) {
    && i <= |q| && s == s0.(table := Annotate(cfg, s0.table, now, q[..i]))
    && forall k :: 0 <= k < i ==> !MayStart(cfg, s0.table, now, q[k])
  }

  lemma ScanBegins(cfg: Config, s0: State, q: seq<JobId>, now: int)
    ensures Scanned(cfg, s0, q, now, 0, s0)
  {
  }

  lemma ScannedIsAlike(cfg: Config, s0: State, q: seq<JobId>, now: int, i: nat, s: State)
    requires Consistent(s0) && q == Queue(s0.table) && Scanned(cfg, s0, q, now, i, s)
    ensures Consistent(s) && Alike(s0.table, s.table) && PendingCount(s.table) == PendingCount(s0.table)
    ensures forall k :: 0 <= k < |q| ==> IsPending(s0.table, q[k]) && IsPending(s.table, q[k])
  {
    hide PendingCount, Queue, IsPending, MayStart, DistinctJobs;
    AnnotateIsAlike(cfg, s0.table, now, q[..i]);
    AlikePending(s0.table, s.table);
    QueueHoldsPending(s0.table);
    assert forall k :: 0 <= k < |q| ==> q[k] in q;
  }

  /** The snapshot of a job and its current row lead to the same decision. */
  lemma ScanSees(cfg: Config, s0: State, q: seq<JobId>, now: int, i: nat, s: State)
    requires Consistent(s0) && q == Queue(s0.table) && Scanned(cfg, s0, q, now, i, s) && i < |q|
    ensures Consistent(s) && IsPending(s0.table, q[i]) && s0.table.rows[q[i]].id == q[i]
    ensures q[i] in s.table.rows && s.table.rows[q[i]] == s0.table.rows[q[i]]
    ensures WaitReason(cfg, s.table, s0.table.rows[q[i]], now) == WaitReason(cfg, s0.table, s0.table.rows[q[i]], now)
  {
    ScannedIsAlike(cfg, s0, q, now, i, s);
    var r := s0.table.rows[q[i]];
    QueueHoldsPending(s0.table);
    assert q[i] !in q[..i];
    hide Queue, WaitReason, MayStart, DistinctJobs;
    AnnotateIsAlike(cfg, s0.table, now, q[..i]);
    AlikeDecides(cfg, s0.table, s.table, r, now, r.reason);
  }

  lemma ScanGoesOn(cfg: Config, s0: State, q: seq<JobId>, now: int, i: nat, s: State)
    requires i < |q| && IsPending(s0.table, q[i]) && Scanned(cfg, s0, q, now, i, s)
    requires WaitReason(cfg, s0.table, s0.table.rows[q[i]], now).Some?
    ensures var reason := WaitReason(cfg, s0.table, s0.table.rows[q[i]], now).value;
            Scanned(cfg, s0, q, now, i + 1, s.(table := Mark(s.table, q[i], Pending, reason)))
  {
    hide WaitReason;
    assert q[..i + 1][..i] == q[..i] && q[..i + 1][i] == q[i];
  }

  lemma FirstIs(cfg: Config, t: Table, now: int, q: seq<JobId>, i: nat)
    requires i <= |q| && (forall k :: 0 <= k < i ==> !MayStart(cfg, t, now, q[k]))
    requires i < |q| ==> MayStart(cfg, t, now, q[i])
    ensures FirstToStart(cfg, t, now, q) == i
  {
  }

  /** The scan has reached the job the pass starts, and has tried to start it. */
  lemma ScanFinds(cfg: Config, env: Env, s0: State, q: seq<JobId>, i: nat, told: State, ok: bool, s: State)
    requires Consistent(s0) && q == Queue(s0.table) && i < |q| && Scanned(cfg, s0, q, env.now, i, told)
    requires q[i] in s0.table.rows && WaitReason(cfg, s0.table, s0.table.rows[q[i]], env.now).None?
    requires q[i] in told.table.rows && Consistent(s)
    requires var started := TryStart(cfg, told, q[i], env);
             ok == started.Some? && s == if ok then started.value else told
    ensures ok ==> PendingCount(s.table) < PendingCount(s0.table) && Pass(cfg, env, s) == Pass(cfg, env, s0)
    ensures !ok ==> PassResult(s, false) == Pass(cfg, env, s0)
    ensures StartSpawns(cfg, told.table, told.table.rows[q[i]], env) + (if ok then PassSpawns(cfg, env, s) else [])
         == PassSpawns(cfg, env, s0)
  {
    ScannedIsAlike(cfg, s0, q, env.now, i, told);
    assert IsPending(s0.table, q[i]) && IsPending(told.table, q[i]);
    hide WaitReason, Queue, Annotate, TryStart, PendingCount, IsPending, Alike, StartSpawns;
    FirstIs(cfg, s0.table, env.now, q, i);
    if ok { StartTakesPending(cfg, told, q[i], env); }
  }

  lemma ScanStartsNothing(cfg: Config, env: Env, s0: State, q: seq<JobId>, s: State)
    requires Consistent(s0) && q == Queue(s0.table) && Scanned(cfg, s0, q, env.now, |q|, s)
    ensures Consistent(s) && Pass(cfg, env, s0) == PassResult(s, true) && PassSpawns(cfg, env, s0) == []
  {
    ScannedIsAlike(cfg, s0, q, env.now, |q|, s);
    FirstIs(cfg, s0.table, env.now, q, |q|);
    hide Consistent, Queue, Alike, MayStart;
  }

  // ----- requests -----

  method SubmitRun(store: Store, runner: Runner, req: SubmitRequest, immediate: bool, env: Env)
    returns (response: Response)
    requires Consistent(runner.With(store))
    modifies runner`jobs, runner`spawned, store`table
    ensures Reply(runner.With(store), response)
         == SubmittedRun(store.config, old(runner.With(store)), req, immediate, env)
    ensures runner.spawned
         == old(runner.spawned)
            + RequestSpawns(store.config, old(runner.With(store)), Request.SubmitRun(req, immediate), env)
    ensures Consistent(runner.With(store))
  {
    var canStartNow := RequestFits(store.config, store.table, req);
    if immediate && !canStartNow { return Refused; }
    hide RequestFits, TryLaunch, LaunchSpawns;
    var id := store.CreateJob(req, None, env.now);
    if canStartNow {
      ghost var s1 := runner.With(store);
      var launched := runner.Launch(store, store.table.rows[id.value], env);
      if !launched { return Refused; }
      LaunchKeepsConsistent(store.config, s1, id.value, env);
    }
    response := Submitted(id.value);
  }

  lemma LaunchKeepsConsistent(cfg: Config, s: State, id: JobId, env: Env)
    requires Consistent(s) && id in s.table.rows && TryLaunch(cfg, s, id, env).Some?
    ensures Consistent(TryLaunch(cfg, s, id, env).value)
  {
  }

  method SubmitAlloc(store: Store, runner: Runner, req: SubmitRequest, immediate: bool, now: int)
    returns (response: Response)
    requires Consistent(runner.With(store))
    modifies store`table
    ensures Reply(runner.With(store), response)
         == SubmittedAlloc(store.config, old(runner.With(store)), req, immediate, now)
    ensures Consistent(runner.With(store))
  {
    var canStartNow := RequestFits(store.config, store.table, req);
    if immediate && !canStartNow { return Refused; }
    hide RequestFits;
    var id := store.CreateJob(req, None, now);
    if canStartNow { store.MarkAllocationRunning(id.value, now); }
    response := Submitted(id.value);
  }

  method SubmitBatch(store: Store, runner: Runner, req: SubmitRequest, spec: Option<ArrayTasks>, env: Env)
    returns (response: Response)
    requires Consistent(runner.With(store))
    modifies runner`jobs, runner`spawned, store`table
    ensures Reply(runner.With(store), response) == SubmittedBatch(store.config, old(runner.With(store)), req, spec, env)
    ensures runner.spawned
         == old(runner.spawned)
            + RequestSpawns(store.config, old(runner.With(store)), Request.SubmitBatch(req, spec), env)
    ensures Consistent(runner.With(store))
  {
    hide Pass, PassSpawns;
    CreatedKeepsRows(store.table, req, spec, env.now);
    var id := store.CreateJob(req, spec, env.now);
    if id.Err? { return Refused; }
    hide Created;
    var ok := SchedulePendingJobs(store, runner, env);
    response := if ok then Submitted(id.value) else Refused;
  }

  lemma CreatedKeepsRows(t: Table, req: SubmitRequest, spec: Option<ArrayTasks>, now: int)
    requires Numbered(t)
    ensures t.rows.Keys <= Created(t, req, spec, now).rows.Keys
  {
    if spec.Some? { InsertedTasks(t, req, spec.value, t.next, now); }
  }

  method FinishAllocation(store: Store, runner: Runner, id: JobId, ending: Ending, env: Env)
    returns (response: Response)
    requires Consistent(runner.With(store))
    modifies runner`jobs, runner`spawned, store`table
    ensures Reply(runner.With(store), response)
         == AllocationFinished(store.config, old(runner.With(store)), id, ending, env)
    ensures runner.spawned
         == old(runner.spawned)
            + RequestSpawns(store.config, old(runner.With(store)), Request.FinishAllocation(id, ending), env)
    ensures Consistent(runner.With(store))
  {
    hide Pass, PassSpawns;
    runner.Forget(id);
    FinishNumbered(store.table, id, ending, env.now);
    var job := store.MarkFinished(id, ending, env.now);
    hide FinishedRow;
    if job.Err? { return Refused; }
    response := Submitted(id);
    if !job.value.state.IsTerminal() && job.value.state == Pending {
      var ok := SchedulePendingJobs(store, runner, env);
      if !ok { response := Refused; }
    }
  }

  method UpdateJob(store: Store, runner: Runner, id: JobId, fields: Fields, env: Env) returns (response: Response)
    requires Consistent(runner.With(store))
    modifies runner`jobs, runner`spawned, store`table
    ensures Reply(runner.With(store), response) == JobUpdated(store.config, old(runner.With(store)), id, fields, env)
    ensures runner.spawned
         == old(runner.spawned)
            + RequestSpawns(store.config, old(runner.With(store)), Request.UpdateJob(id, fields), env)
    ensures Consistent(runner.With(store))
  {
    hide Pass, PassSpawns, UpdatedRow, UpdateAccepted;
    if id in store.table.rows { UpdateKeepsId(store.table.rows[id], fields); }
    var updated := store.UpdateJobFields(id, fields);
    if !updated { return Refused; }
    var ok := SchedulePendingJobs(store, runner, env);
    response := if ok then Submitted(id) else Refused;
  }

  method AdoptAllocation(store: Store, runner: Runner, id: JobId, pid: int, pgid: int) returns (response: Response)
    requires Consistent(runner.With(store))
    modifies runner`jobs, store`table
    ensures Reply(runner.With(store), response) == AllocationAdopted(old(runner.With(store)), id, pid, pgid)
    ensures Consistent(runner.With(store))
  {
    store.AdoptAllocation(id, pid, pgid);
    if id in store.table.rows { runner.Adopt(store.table.rows[id]); }
    response := Submitted(id);
  }

  /** `dispatch_request`. */
  method DispatchRequest(store: Store, runner: Runner, request: Request, env: Env, wait: Wait)
    returns (response: Response)
    requires Consistent(runner.With(store))
    modifies runner`jobs, runner`spawned, store`table
    ensures Reply(runner.With(store), response) == Respond(store.config, old(runner.With(store)), request, env, wait)
    ensures runner.spawned
         == old(runner.spawned) + RequestSpawns(store.config, old(runner.With(store)), request, env)
    ensures Consistent(runner.With(store))
  {
    hide SubmittedBatch, SubmittedRun, SubmittedAlloc, AllocationFinished, JobUpdated, AllocationAdopted;
    hide Pass, PassSpawns;
    match request
    case SubmitBatch(req, spec) => response := SubmitBatch(store, runner, req, spec, env);
    case SubmitRun(req, immediate) => response := SubmitRun(store, runner, req, immediate, env);
    case SubmitAlloc(req, immediate) => response := SubmitAlloc(store, runner, req, immediate, env.now);
    case StartStep(parent, name, userName) =>
      var id := store.CreateStep(parent, name, userName, env.now);
      response := if id.Ok? then Submitted(id.value) else Refused;
    case AdoptAllocation(id, pid, pgid) => response := AdoptAllocation(store, runner, id, pid, pgid);
    case FinishAllocation(id, ending) => response := FinishAllocation(store, runner, id, ending, env);
    case HoldJob(id) =>
      store.HoldOrRelease(id, true);
      response := Submitted(id);
    case ReleaseJob(id) =>
      HeldNumbered(store.table, id, false);
      store.HoldOrRelease(id, false);
      hide Held;
      var ok := SchedulePendingJobs(store, runner, env);
      response := if ok then Submitted(id) else Refused;
    case UpdateJob(id, fields) => response := UpdateJob(store, runner, id, fields, env);
    case CancelJob(id) =>
      CancelKeepsConsistent(runner.With(store), id, wait, env.now);
      var done := runner.CancelJob(store, id, wait, env.now);
      response := if done == Ok(true) then CancelDone(id) else Refused;
  }

  lemma CancelKeepsConsistent(s: State, id: JobId, wait: Wait, now: int)
    requires Consistent(s)
    ensures Consistent(JobCancelled(s, id, wait, now).state)
  {
  }

  // ----- the main loop -----

  /** The processes still tracked, in the order of the walk. */
  function StillTracked(order: seq<JobId>, jobs: map<JobId, Tracked>): (walk: seq<JobId>) {
    if order == [] then []
    else (if order[0] in jobs then [order[0]] else []) + StillTracked(order[1..], jobs)
  }

  lemma {:induction false} StillTrackedWalks(order: seq<JobId>, jobs: map<JobId, Tracked>)
    requires DistinctJobs(order)
    ensures forall id :: id in StillTracked(order, jobs) <==> id in order && id in jobs
    ensures DistinctJobs(StillTracked(order, jobs))
    decreases |order|
  {
    if order != [] {
      var rest := StillTracked(order[1..], jobs);
      StillTrackedWalks(order[1..], jobs);
      forall i | 0 <= i < |rest| ensures rest[i] != order[0] {
        assert rest[i] in order[1..];
      }
    }
  }

  /** One turn: time limits, ended children, vanished adopted processes, scheduling. */
  method Turn(store: Store, runner: Runner, w: World) returns (ok: bool)
    requires Consistent(runner.With(store)) && IsWalk(w.order, runner.jobs)
    modifies runner`jobs, runner`spawned, store`table
    ensures Outcome(runner.With(store), ok) == Tick(store.config, old(runner.With(store)), w)
    ensures runner.spawned == old(runner.spawned) + TickSpawns(store.config, old(runner.With(store)), w)
    ensures Consistent(runner.With(store))
  {
    hide Enforce, FinishMany, Pass, PassSpawns, IsWalk, ChildEnding, LostEnding;
    var now := w.env.now;
    EnforceKeepsConsistent(runner.With(store), w.order, w.waits, now);
    ok := runner.EnforceTimeouts(store, w.order, w.waits, now);
    if !ok { return; }
    WalkGoesOnWith(w.order, old(runner.jobs), runner.jobs);
    FinishKeepsConsistent(runner.With(store), ChildEndings(runner.jobs, w.exits), now);
    ok := runner.Poll(store, StillTracked(w.order, runner.jobs), w.exits, now);
    WalkGoesOnWith(w.order, old(runner.jobs), runner.jobs);
    FinishKeepsConsistent(runner.With(store), LostEndings(runner.jobs, w.lost), now);
    ok := runner.ReconcileAdopted(store, StillTracked(w.order, runner.jobs), w.lost, now);
    ok := SchedulePendingJobs(store, runner, w.env);
  }

  lemma WalkGoesOnWith(order: seq<JobId>, before: map<JobId, Tracked>, jobs: map<JobId, Tracked>)
    requires IsWalk(order, before) && jobs.Keys <= before.Keys
    ensures IsWalk(StillTracked(order, jobs), jobs)
  {
    StillTrackedWalks(order, jobs);
  }

  lemma FinishKeepsConsistent(s: State, ends: map<JobId, Ending>, now: int)
    requires Consistent(s)
    ensures Consistent(FinishTracked(s, ends, now))
  {
  }

  lemma {:induction false} TerminateAllKeepsConsistent(s: State, ids: seq<JobId>, waits: map<JobId, Wait>, now: int)
    requires Consistent(s)
    ensures var u := TerminateAll(s, ids, waits, now).state; Consistent(u) && u.tracked.Keys <= s.tracked.Keys
    decreases |ids|
  {
    if ids != [] {
      if ids[0] !in s.tracked {
        TerminateAllKeepsConsistent(s, ids[1..], waits, now);
      } else {
        var first := Terminated(s, ids[0], WaitFor(waits, ids[0]), Timeout, "TimeLimit", now);
        TerminatedKeepsConsistent(s, ids[0], WaitFor(waits, ids[0]), Timeout, "TimeLimit", now);
        if first.ok { TerminateAllKeepsConsistent(first.state, ids[1..], waits, now); }
      }
    }
  }

  lemma TerminatedKeepsConsistent(s: State, id: JobId, wait: Wait, final: JobState, reason: string, now: int)
    requires Consistent(s) && id in s.tracked
    ensures Consistent(Terminated(s, id, wait, final, reason, now).state)
    ensures Terminated(s, id, wait, final, reason, now).state.tracked.Keys <= s.tracked.Keys
  {
  }

  lemma {:induction false} WarnAllKeepsKeys(s: State, ids: seq<JobId>, now: int)
    ensures WarnAll(s, ids, now).state.tracked.Keys == s.tracked.Keys
    decreases |ids|
  {
    if ids != [] {
      var signal := WarningDue(s, ids[0], now);
      if signal.None? {
        WarnAllKeepsKeys(s, ids[1..], now);
      } else if IsSignal(signal.value) {
        WarnAllKeepsKeys(s.(tracked := s.tracked[ids[0] := s.tracked[ids[0]].(warned := true)]), ids[1..], now);
      }
    }
  }

  lemma EnforceKeepsConsistent(s: State, order: seq<JobId>, waits: map<JobId, Wait>, now: int)
    requires Consistent(s)
    ensures var u := Enforce(s, order, waits, now).state; Consistent(u) && u.tracked.Keys <= s.tracked.Keys
  {
    var late := TimedOutIds(s.table, order, now);
    TerminateAllKeepsConsistent(s, late, waits, now);
    var ended := TerminateAll(s, late, waits, now).state;
    WarnAllKeepsKeys(ended, UnwarnedIds(ended.tracked, order), now);
    WarnAllKeepsTable(ended, UnwarnedIds(ended.tracked, order), now);
  }

  // ----- recovery -----

  /** `list_running_jobs`: a snapshot, by id. */
  function RunningJobs(t: Table, n: nat): (jobs: seq<Job>)
    ensures forall k :: 0 <= k < |jobs| ==> jobs[k].state == Running
  {
    if n == 0 then []
    else RunningJobs(t, n - 1) + (if n - 1 in t.rows && t.rows[n - 1].state == Running then [t.rows[n - 1]] else [])
  }

  /** Rows of the table with ids below n, none twice. */
  ghost predicate IsSnapshot(t: Table, n: nat, jobs: seq<Job>) {
    && (forall k :: 0 <= k < |jobs| ==> jobs[k].id in t.rows && jobs[k].id < n && jobs[k] == t.rows[jobs[k].id])
    && (forall i, j :: 0 <= i < j < |jobs| ==> jobs[i].id != jobs[j].id)
  }

  lemma {:induction false} RunningJobsSelect(t: Table, n: nat)
    requires WellNumbered(t)
    ensures IsSnapshot(t, n, RunningJobs(t, n))
    ensures forall id :: id in t.rows && id < n && t.rows[id].state == Running ==> t.rows[id] in RunningJobs(t, n)
  {
    if n > 0 { RunningJobsSelect(t, n - 1); }
  }

  /** A new daemon process takes over what its predecessor left: survivors are
      adopted, the others are brought to an end. */
  method Recover(store: Store, runner: Runner, v: Survey) returns (ok: bool)
    requires Numbered(store.table) && runner.jobs == map[]
    modifies runner`jobs, runner`spawned, store`table
    ensures ok && runner.With(store) == Recovered(old(store.table), v)
    ensures Consistent(runner.With(store))
  {
    ghost var t0 := store.table;
    var jobs := RunningJobs(store.table, store.table.next);
    RunningJobsSelect(t0, t0.next);
    assert IdsOfJobs(jobs[..0]) == {};
    RecoveredNone(t0, v);
    hide Recovered, RecoveredRow, RunningJobs, Survives, RecoveryEnding;
    for k := 0 to |jobs|
      invariant runner.With(store) == RecoveredSome(t0, v, IdsOfJobs(jobs[..k]))
    {
      var job := jobs[k];
      RecoverGoesOn(t0, v, jobs, k);
      if Survives(job, v) {
        runner.Adopt(job);
      } else {
        var finished := store.MarkFinished(job.id, RecoveryEnding(job, v), v.now);
        if finished.Err? { return false; }
      }
    }
    assert jobs[..|jobs|] == jobs;
    RecoverEnds(t0, v, jobs);
    ok := true;
  }

  function IdsOfJobs(jobs: seq<Job>): set<JobId> {
    set k | 0 <= k < |jobs| :: jobs[k].id
  }

  lemma RecoverGoesOn(t: Table, v: Survey, jobs: seq<Job>, k: nat)
    requires k < |jobs| && jobs[k].id in t.rows && jobs[k] == t.rows[jobs[k].id] && jobs[k].state == Running
    requires forall i, j :: 0 <= i < j < |jobs| ==> jobs[i].id != jobs[j].id
    ensures var s, u := RecoveredSome(t, v, IdsOfJobs(jobs[..k])), RecoveredSome(t, v, IdsOfJobs(jobs[..k + 1]));
            var job := jobs[k];
            u == if Survives(job, v) then s.(tracked := Adopted(s.tracked, job))
                 else s.(table := Finish(s.table, job.id, RecoveryEnding(job, v), v.now))
    ensures jobs[k].id in RecoveredSome(t, v, IdsOfJobs(jobs[..k])).table.rows
  {
    IdsGrow(jobs, k);
    assert Survives(jobs[k], v) ==> GroupOf(jobs[k]) > 0;
    hide IdsOfJobs, RecoveredSome, Survives, AdoptedEntry, FinishedRow, RecoveryEnding, GroupOf;
    RecoverOneMore(t, v, IdsOfJobs(jobs[..k]), jobs[k].id);
  }

  lemma IdsGrow(jobs: seq<Job>, k: nat)
    requires k < |jobs| && forall i, j :: 0 <= i < j < |jobs| ==> jobs[i].id != jobs[j].id
    ensures IdsOfJobs(jobs[..k + 1]) == IdsOfJobs(jobs[..k]) + {jobs[k].id} && jobs[k].id !in IdsOfJobs(jobs[..k])
  {
  }

  lemma RecoverEnds(t: Table, v: Survey, jobs: seq<Job>)
    requires Numbered(t) && forall id :: id in t.rows && t.rows[id].state == Running ==> t.rows[id] in jobs
    ensures RecoveredSome(t, v, IdsOfJobs(jobs)) == Recovered(t, v) && Consistent(Recovered(t, v))
  {
    forall id | id in t.rows && t.rows[id].state == Running ensures id in IdsOfJobs(jobs) {
      var k :| 0 <= k < |jobs| && jobs[k] == t.rows[id];
      assert jobs[k].id == id;
    }
    RecoveredAll(t, v, IdsOfJobs(jobs));
  }
}
