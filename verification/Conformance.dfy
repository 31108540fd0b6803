/** Every operation of the daemon is a run of the state machine's effects, so
    what holds of every run holds of every request, phase and restart. */
module Conformance {
  import opened Basics
  import opened Jobs
  import opened Accounting
  import opened Scheduling
  import opened Lifecycle
  import opened History
  import opened Operations

  // ----- reaching one state from another within a daemon's lifetime -----

  /** What must not happen on the way: no wait fails at all, or none for some
      jobs; some jobs are neither cancelled, renamed nor reported finished, or are
      at least not reported finished; nothing is started. */
  datatype Terms = Terms(clean: bool, waited: set<JobId>, spared: set<JobId>, silent: set<JobId>, still: bool) {
    predicate Waits(id: JobId) {
      clean || id in waited
    }

    predicate Permit(a: Action) {
      && (WaitFails(a) ==> !Waits(a.id))
      && (a.CancelPending? || a.ClientFinish? || (a.Change? && a.edit.NameEdit?) ==> a.id !in spared)
      && (a.ClientFinish? ==> a.id !in silent)
      && (a.Launch? || a.StartAllocation? ==> !still)
    }
  }

  const ANYHOW := Terms(false, {}, {}, {}, false)

  ghost predicate RunsTo(cfg: Config, s: State, acts: seq<Action>, u: State, on: Terms) {
    && Run(cfg, s, acts) && Exec(cfg, s, acts) == u
    && forall k :: 0 <= k < |acts| ==> !acts[k].Restart? && on.Permit(acts[k])
  }

  /** Without a restart, and on the given terms. */
  ghost predicate Reaches(cfg: Config, s: State, u: State, on: Terms) {
    exists acts :: RunsTo(cfg, s, acts, u, on)
  }

  lemma ReachesItself(cfg: Config, s: State, on: Terms)
    ensures Reaches(cfg, s, s, on)
  {
    assert RunsTo(cfg, s, [], s, on);
  }

  lemma ReachesByOne(cfg: Config, s: State, a: Action, on: Terms)
    requires Enabled(cfg, s, a) && !a.Restart? && on.Permit(a)
    ensures Reaches(cfg, s, Apply(cfg, s, a), on)
  {
    hide Enabled, Apply;
    var u := Apply(cfg, s, a);
    assert [a][1..] == [];
    assert Run(cfg, u, []) && Exec(cfg, u, []) == u;
    assert RunsTo(cfg, s, [a], u, on);
  }

  lemma ReachesThrough(cfg: Config, s: State, v: State, u: State, on: Terms)
    requires Reaches(cfg, s, v, on) && Reaches(cfg, v, u, on)
    ensures Reaches(cfg, s, u, on)
  {
    var a :| RunsTo(cfg, s, a, v, on);
    var b :| RunsTo(cfg, v, b, u, on);
    hide Run, Exec;
    RunAppend(cfg, s, a, b);
    assert RunsTo(cfg, s, a + b, u, on);
  }

  /** All that is known about a daemon between two steps of one lifetime. */
  predicate Sound(cfg: Config, s: State, clean: bool) {
    Safe(cfg, s) && BatchTracked(s) && (clean ==> NoneCompleting(s.table))
  }

  lemma ReachesKeepsSound(cfg: Config, s: State, u: State, on: Terms)
    requires cfg.Valid() && Sound(cfg, s, on.clean) && Reaches(cfg, s, u, on)
    ensures Sound(cfg, u, on.clean)
  {
    var acts :| RunsTo(cfg, s, acts, u, on);
    RunIsSafe(cfg, s, acts);
    LedgersAgree(cfg, s, acts);
    if on.clean { NothingStaysCompleting(cfg, s, acts); }
  }

  // ----- the scheduling pass -----

  lemma TellReaches(cfg: Config, s: State, id: JobId, now: int, on: Terms)
    requires IsPending(s.table, id) && WaitReason(cfg, s.table, s.table.rows[id], now).Some?
    ensures Reaches(cfg, s, s.(table := Annotate(cfg, s.table, now, [id])), on)
  {
    var reason := WaitReason(cfg, s.table, s.table.rows[id], now).value;
    var a := Tell(id, reason);
    var u := s.(table := Annotate(cfg, s.table, now, [id]));
    assert Apply(cfg, s, a).table.rows == u.table.rows;
    ReachesByOne(cfg, s, a, on);
  }

  lemma {:induction false} TellsReach(cfg: Config, s: State, q: seq<JobId>, now: int, on: Terms)
    requires DistinctJobs(q)
    requires forall k :: 0 <= k < |q| ==> IsPending(s.table, q[k]) && !MayStart(cfg, s.table, now, q[k])
    ensures Reaches(cfg, s, s.(table := Annotate(cfg, s.table, now, q)), on)
    decreases |q|
  {
    if q == [] {
      assert Annotate(cfg, s.table, now, []).rows == s.table.rows;
      ReachesItself(cfg, s, on);
    } else {
      var front, id := q[..|q| - 1], q[|q| - 1];
      TellsReach(cfg, s, front, now, on);
      var told := s.(table := Annotate(cfg, s.table, now, front));
      AnnotateIsAlike(cfg, s.table, now, front);
      AlikePending(s.table, told.table);
      assert id !in front && q == front + [id];
      AnnotateTwice(cfg, s.table, now, front, id);
      hide Annotate, WaitReason, Alike, IsPending, Reaches;
      TellReaches(cfg, told, id, now, on);
      ReachesThrough(cfg, s, told, told.(table := Annotate(cfg, told.table, now, [id])), on);
    }
  }

  lemma StartReaches(cfg: Config, s: State, id: JobId, env: Env, on: Terms)
    requires !on.still && IsPending(s.table, id) && MayStart(cfg, s.table, env.now, id)
    requires TryStart(cfg, s, id, env).Some?
    ensures Reaches(cfg, s, TryStart(cfg, s, id, env).value, on)
  {
    hide JobFits, BlockReason, AllocateGpuIds, Reaches;
    if s.table.rows[id].allocationOnly {
      ReachesByOne(cfg, s, StartAllocation(id, env.now, false), on);
    } else {
      ReachesByOne(cfg, s, Launch(id, env.spawn[id], env.now, false), on);
    }
  }

  /** A scheduling pass, finished or cut short, is a run of tellings and starts. */
  lemma {:induction false} PassReaches(cfg: Config, env: Env, s: State, on: Terms)
    requires !on.still && WellNumbered(s.table)
    ensures Reaches(cfg, s, Pass(cfg, env, s).state, on)
    decreases PendingCount(s.table)
  {
    hide Annotate, TryStart, Queue, Alike, PendingCount, IsPending, MayStart, WellNumbered, Reaches;
    var t := s.table;
    var q := Queue(t);
    var i := FirstToStart(cfg, t, env.now, q);
    var told := s.(table := Annotate(cfg, t, env.now, q[..i]));
    QueueHoldsPending(t);
    AnnotateIsAlike(cfg, t, env.now, q[..i]);
    AlikePending(t, told.table);
    assert forall k :: 0 <= k < i ==> q[..i][k] == q[k] && q[k] in q;
    TellsReach(cfg, s, q[..i], env.now, on);
    if i < |q| {
      var x := q[i];
      assert x in q;
      ToldMayStart(cfg, t, env.now, q, i);
      if TryStart(cfg, told, x, env).Some? {
        var s' := TryStart(cfg, told, x, env).value;
        StartTakesPending(cfg, told, x, env);
        StartReaches(cfg, told, x, env, on);
        PassReaches(cfg, env, s', on);
        ReachesThrough(cfg, s, told, s', on);
        ReachesThrough(cfg, s, s', Pass(cfg, env, s').state, on);
      }
    }
  }

  lemma SafeIsConsistent(cfg: Config, s: State)
    requires Safe(cfg, s)
    ensures Consistent(s)
  {
  }

  lemma ReachesKeepsSafe(cfg: Config, s: State, u: State, on: Terms)
    requires cfg.Valid() && Safe(cfg, s) && Reaches(cfg, s, u, on)
    ensures Safe(cfg, u)
  {
    var acts :| RunsTo(cfg, s, acts, u, on);
    RunIsSafe(cfg, s, acts);
  }

  /** Every pending job the daemon launches itself could get a process. */
  predicate Spawnable(t: Table, env: Env) {
    forall id :: id in t.rows && t.rows[id].state == Pending && !t.rows[id].allocationOnly ==> env.Launches(id)
  }

  lemma FittingStarts(cfg: Config, s: State, id: JobId, env: Env)
    requires Safe(cfg, s) && IsPending(s.table, id) && MayStart(cfg, s.table, env.now, id) && Spawnable(s.table, env)
    ensures TryStart(cfg, s, id, env).Some? && Spawnable(TryStart(cfg, s, id, env).value.table, env)
  {
    FittingFindsGpus(cfg, s.table, s.table.rows[id]);
    hide JobFits, BlockReason, AllocateGpuIds;
    hide WithinCapacity, ExclusiveAlone, GpuLedger, ArrayLimits, DependenciesKept, SingletonsApart;
  }

  /** In a safe state a pass can only be cut short by a process that cannot be
      started: the GPU ids are always there. With PassIsMaximal: if processes
      start, a pass starts all it can. */
  lemma {:induction false} PassSucceeds(cfg: Config, env: Env, s: State)
    requires cfg.Valid() && Safe(cfg, s) && Spawnable(s.table, env)
    ensures Pass(cfg, env, s).ok
    decreases PendingCount(s.table)
  {
    hide Annotate, TryStart, Queue, Alike, PendingCount, IsPending, MayStart, Safe, Spawnable;
    var t := s.table;
    var q := Queue(t);
    var i := FirstToStart(cfg, t, env.now, q);
    var told := s.(table := Annotate(cfg, t, env.now, q[..i]));
    SafeIsConsistent(cfg, s);
    QueueHoldsPending(t);
    if i < |q| {
      ScanKeepsSafe(cfg, env, s, q, i);
      AnnotateIsAlike(cfg, t, env.now, q[..i]);
      AlikePending(t, told.table);
      var x := q[i];
      assert x in q;
      FittingStarts(cfg, told, x, env);
      var s' := TryStart(cfg, told, x, env).value;
      StartTakesPending(cfg, told, x, env);
      StartReaches(cfg, told, x, env, ANYHOW);
      ReachesKeepsSafe(cfg, told, s', ANYHOW);
      PassSucceeds(cfg, env, s');
    }
  }

  lemma ToldSpawnable(cfg: Config, t: Table, q: seq<JobId>, env: Env)
    requires Spawnable(t, env)
    ensures Spawnable(Annotate(cfg, t, env.now, q), env)
  {
  }

  /** After the jobs before position i have been told why they wait. */
  lemma ToldIsSafe(cfg: Config, now: int, s: State, q: seq<JobId>, i: nat)
    requires cfg.Valid() && Safe(cfg, s) && q == Queue(s.table) && i <= |q| && i == FirstToStart(cfg, s.table, now, q)
    ensures var told := s.(table := Annotate(cfg, s.table, now, q[..i]));
            && Safe(cfg, told) && told.table.rows.Keys == s.table.rows.Keys
            && (i < |q| ==> IsPending(told.table, q[i]) && MayStart(cfg, told.table, now, q[i]))
  {
    hide Annotate, Queue, Alike, MayStart, Safe, Reaches, IsPending;
    var told := s.(table := Annotate(cfg, s.table, now, q[..i]));
    SafeIsConsistent(cfg, s);
    QueueHoldsPending(s.table);
    AnnotateIsAlike(cfg, s.table, now, q[..i]);
    AlikePending(s.table, told.table);
    assert forall k :: 0 <= k < |q| ==> q[k] in q;
    assert forall k :: 0 <= k < i ==> q[..i][k] == q[k];
    TellsReach(cfg, s, q[..i], now, ANYHOW);
    ReachesKeepsSafe(cfg, s, told, ANYHOW);
    if i < |q| { ToldMayStart(cfg, s.table, now, q, i); }
  }

  lemma ScanKeepsSafe(cfg: Config, env: Env, s: State, q: seq<JobId>, i: nat)
    requires cfg.Valid() && Safe(cfg, s) && Spawnable(s.table, env) && q == Queue(s.table) && i < |q|
    requires i == FirstToStart(cfg, s.table, env.now, q)
    ensures var told := s.(table := Annotate(cfg, s.table, env.now, q[..i]));
            && Safe(cfg, told) && Spawnable(told.table, env)
            && q[i] in told.table.rows && IsPending(told.table, q[i]) && MayStart(cfg, told.table, env.now, q[i])
  {
    hide Annotate, Queue, MayStart, Safe, Spawnable;
    ToldIsSafe(cfg, env.now, s, q, i);
    ToldSpawnable(cfg, s.table, q[..i], env);
  }

  // ----- the phases before scheduling -----

  lemma TerminatedReaches(cfg: Config, s: State, id: JobId, wait: Wait, final: JobState, reason: string, now: int,
                          on: Terms)
    requires id in s.tracked && id in s.table.rows && final in {Cancelled, Timeout} && (on.Waits(id) ==> wait.Waited?)
    ensures Reaches(cfg, s, Terminated(s, id, wait, final, reason, now).state, on)
  {
    var result := if wait.WaitFailed? then None
                  else Some(TerminationEnding(s.tracked[id], wait.exit, wait.inTime, final, reason));
    var a := Terminate(id, reason, result, now);
    hide Reaches, FinishedRow;
    ReachesByOne(cfg, s, a, on);
    assert Apply(cfg, s, a).table.rows == Terminated(s, id, wait, final, reason, now).state.table.rows;
  }

  /** Bringing jobs to an end: everything tracked belongs to a row, so only a
      failed wait can stop it. */
  lemma {:induction false} TerminateAllReaches(cfg: Config, s: State, ids: seq<JobId>, waits: map<JobId, Wait>,
                                               now: int, on: Terms)
    requires s.tracked.Keys <= s.table.rows.Keys
    requires var f := FirstFailure(s.tracked, ids, waits); f.Some? ==> !on.Waits(f.value)
    ensures Reaches(cfg, s, TerminateAll(s, ids, waits, now).state, on)
    decreases |ids|
  {
    hide Reaches;
    if ids == [] {
      ReachesItself(cfg, s, on);
    } else if ids[0] !in s.tracked {
      TerminateAllReaches(cfg, s, ids[1..], waits, now, on);
    } else {
      var wait := WaitFor(waits, ids[0]);
      var first := Terminated(s, ids[0], wait, Timeout, "TimeLimit", now);
      assert s.table.rows.Keys <= first.state.table.rows.Keys;
      TerminatedReaches(cfg, s, ids[0], wait, Timeout, "TimeLimit", now, on);
      hide Terminated;
      if first.ok {
        SucceededIsNoFailure(s.tracked, ids[0], ids[1..], waits);
        TerminateAllReaches(cfg, first.state, ids[1..], waits, now, on);
        ReachesThrough(cfg, s, first.state, TerminateAll(first.state, ids[1..], waits, now).state, on);
      }
    }
  }

  lemma {:induction false} WarnAllReaches(cfg: Config, s: State, ids: seq<JobId>, now: int, on: Terms)
    ensures Reaches(cfg, s, WarnAll(s, ids, now).state, on)
    decreases |ids|
  {
    hide Reaches;
    if ids == [] {
      ReachesItself(cfg, s, on);
    } else {
      var signal := WarningDue(s, ids[0], now);
      if signal.None? {
        WarnAllReaches(cfg, s, ids[1..], now, on);
      } else if !IsSignal(signal.value) {
        ReachesItself(cfg, s, on);
      } else {
        var warned := s.(tracked := s.tracked[ids[0] := s.tracked[ids[0]].(warned := true)]);
        ReachesByOne(cfg, s, Warn(ids[0]), on);
        WarnAllReaches(cfg, warned, ids[1..], now, on);
        ReachesThrough(cfg, s, warned, WarnAll(warned, ids[1..], now).state, on);
      }
    }
  }

  lemma EnforceReaches(cfg: Config, s: State, order: seq<JobId>, waits: map<JobId, Wait>, now: int, on: Terms)
    requires s.tracked.Keys <= s.table.rows.Keys
    requires var f := FailedTimeout(s, order, waits, now); f.Some? ==> !on.Waits(f.value)
    ensures Reaches(cfg, s, Enforce(s, order, waits, now).state, on)
  {
    hide Reaches;
    var late := TimedOutIds(s.table, order, now);
    TerminateAllReaches(cfg, s, late, waits, now, on);
    var ended := TerminateAll(s, late, waits, now);
    if ended.ok {
      WarnAllReaches(cfg, ended.state, UnwarnedIds(ended.state.tracked, order), now, on);
      ReachesThrough(cfg, s, ended.state, Enforce(s, order, waits, now).state, on);
    }
  }

  /** The endings below a bound, finished. */
  function FinishBelow(s: State, ends: map<JobId, Ending>, now: int, n: nat): State {
    FinishTracked(s, map id | id in ends && id < n :: ends[id], now)
  }

  predicate OwnEndings(ends: map<JobId, Ending>) {
    forall id :: id in ends ==> ends[id].state in {Completed, Failed, OutOfMemory}
  }

  lemma CompleteReaches(cfg: Config, s: State, ends: map<JobId, Ending>, now: int, n: nat, on: Terms)
    requires ends.Keys <= s.tracked.Keys <= s.table.rows.Keys && OwnEndings(ends)
    ensures Reaches(cfg, FinishBelow(s, ends, now, n), FinishBelow(s, ends, now, n + 1), on)
  {
    var v, u := FinishBelow(s, ends, now, n), FinishBelow(s, ends, now, n + 1);
    FinishOne(s, ends, now, n);
    hide FinishBelow, Reaches, FinishedRow;
    if n in ends {
      ReachesByOne(cfg, v, Complete(n, ends[n], now), on);
    } else {
      ReachesItself(cfg, v, on);
    }
  }

  lemma FinishOne(s: State, ends: map<JobId, Ending>, now: int, n: nat)
    requires ends.Keys <= s.tracked.Keys <= s.table.rows.Keys
    ensures var v, u := FinishBelow(s, ends, now, n), FinishBelow(s, ends, now, n + 1);
            if n in ends
            then n in v.tracked && n in v.table.rows && u == State(Finish(v.table, n, ends[n], now), v.tracked - {n})
            else u == v
  {
  }

  lemma FinishNone(s: State, ends: map<JobId, Ending>, now: int)
    ensures FinishBelow(s, ends, now, 0) == s
  {
  }

  lemma {:induction false} FinishBelowReaches(cfg: Config, s: State, ends: map<JobId, Ending>, now: int, n: nat,
                                              on: Terms)
    requires ends.Keys <= s.tracked.Keys <= s.table.rows.Keys && OwnEndings(ends)
    ensures Reaches(cfg, s, FinishBelow(s, ends, now, n), on)
  {
    hide Reaches, FinishBelow, OwnEndings;
    if n == 0 {
      FinishNone(s, ends, now);
      ReachesItself(cfg, s, on);
    } else {
      FinishBelowReaches(cfg, s, ends, now, n - 1, on);
      CompleteReaches(cfg, s, ends, now, n - 1, on);
      ReachesThrough(cfg, s, FinishBelow(s, ends, now, n - 1), FinishBelow(s, ends, now, n), on);
    }
  }

  lemma FinishTrackedReaches(cfg: Config, s: State, ends: map<JobId, Ending>, now: int, on: Terms)
    requires ends.Keys <= s.tracked.Keys <= s.table.rows.Keys && OwnEndings(ends) && WellNumbered(s.table)
    ensures Reaches(cfg, s, FinishTracked(s, ends, now), on)
  {
    FinishBelowReaches(cfg, s, ends, now, s.table.next, on);
    assert (map id | id in ends && id < s.table.next :: ends[id]) == ends;
  }

  lemma PolledReaches(cfg: Config, s: State, exits: map<JobId, Exit>, now: int, on: Terms)
    requires s.tracked.Keys <= s.table.rows.Keys && WellNumbered(s.table)
    ensures Reaches(cfg, s, Polled(s, exits, now), on)
  {
    FinishTrackedReaches(cfg, s, ChildEndings(s.tracked, exits), now, on);
  }

  lemma ReconciledReaches(cfg: Config, s: State, lost: map<JobId, Remains>, now: int, on: Terms)
    requires s.tracked.Keys <= s.table.rows.Keys && WellNumbered(s.table)
    ensures Reaches(cfg, s, Reconciled(s, lost, now), on)
  {
    FinishTrackedReaches(cfg, s, LostEndings(s.tracked, lost), now, on);
  }

  /** One turn of the main loop is a run. */
  lemma TickReaches(cfg: Config, s: State, w: World, on: Terms)
    requires !on.still && cfg.Valid() && Safe(cfg, s)
    requires var f := FailedTimeout(s, w.order, w.waits, w.env.now); f.Some? ==> !on.Waits(f.value)
    ensures Reaches(cfg, s, Tick(cfg, s, w).state, on)
  {
    hide Reaches, Safe, Enforce, Polled, Reconciled, Pass;
    SafeIsConsistent(cfg, s);
    var now := w.env.now;
    EnforceReaches(cfg, s, w.order, w.waits, now, on);
    EnforceNumbered(s, w.order, w.waits, now);
    var e := Enforce(s, w.order, w.waits, now);
    if e.ok {
      ReachesKeepsSafe(cfg, s, e.state, on);
      SafeIsConsistent(cfg, e.state);
      PolledReaches(cfg, e.state, w.exits, now, on);
      var p := Polled(e.state, w.exits, now);
      ReachesKeepsSafe(cfg, e.state, p, on);
      SafeIsConsistent(cfg, p);
      ReconciledReaches(cfg, p, w.lost, now, on);
      var r := Reconciled(p, w.lost, now);
      ReachesKeepsSafe(cfg, p, r, on);
      SafeIsConsistent(cfg, r);
      PassReaches(cfg, w.env, r, on);
      ReachesThrough(cfg, s, e.state, p, on);
      ReachesThrough(cfg, s, p, r, on);
      ReachesThrough(cfg, s, r, Tick(cfg, s, w).state, on);
    }
  }

  // ----- requests -----

  /** What srun and salloc ask for. */
  predicate AtOnce(req: SubmitRequest) {
    req.dependency == [] && req.beginTime.None?
  }

  /** What well-behaved clients send: srun and salloc name no dependency and no
      begin time, allocations are adopted while they run and reported finished
      with a terminal state, and only work that is not requeued is reported. */
  predicate Disciplined(s: State, request: Request) {
    match request
    case SubmitBatch(_, spec) => true
    case SubmitRun(req, _) => AtOnce(req) && !req.allocationOnly
    case SubmitAlloc(req, _) => AtOnce(req) && req.allocationOnly
    case AdoptAllocation(id, _, _) => id in s.table.rows ==> s.table.rows[id].state == Running
    case FinishAllocation(id, ending) =>
      id in s.table.rows ==> ending.state.IsTerminal() && !IsBatch(s.table.rows[id]) && !s.table.rows[id].requeue
    case _ => true
  }

  lemma CreatedReaches(cfg: Config, s: State, req: SubmitRequest, spec: Option<ArrayTasks>, now: int, on: Terms)
    requires spec.Some? ==> spec.value.taskIds != []
    ensures Reaches(cfg, s, s.(table := Created(s.table, req, spec, now)), on)
  {
    hide Reaches;
    ReachesByOne(cfg, s, if spec.None? then Create(req, now) else CreateArray(req, spec.value, now), on);
  }

  lemma ScheduledReaches(cfg: Config, s: State, v: State, env: Env, response: Response, on: Terms)
    requires !on.still && WellNumbered(v.table) && Reaches(cfg, s, v, on)
    ensures Reaches(cfg, s, Scheduled(cfg, v, env, response).state, on)
  {
    hide Reaches, Pass;
    PassReaches(cfg, env, v, on);
    ReachesThrough(cfg, s, v, Scheduled(cfg, v, env, response).state, on);
  }

  /** The admission test before the row exists decides as it would for the row. */
  lemma InsertedFits(cfg: Config, t: Table, req: SubmitRequest, now: int)
    requires WellNumbered(t)
    ensures JobFits(cfg, Inserted(t, req, now), NewRow(req, t.next, None, None, None, None, now))
         == RequestFits(cfg, t, req)
  {
    var u, r := Inserted(t, req, now), NewRow(req, t.next, None, None, None, None, now);
    NewRowTotals(t, r, CpuLoad);
    NewRowTotals(t, r, MemoryLoad);
    NewRowTotals(t, r, GpuLoad);
    assert RunningUsage(u) == RunningUsage(t);
    assert AnyRunningTopLevel(u) == AnyRunningTopLevel(t) && AnyRunningExclusive(u) == AnyRunningExclusive(t) by {
      InsertedRuns(t, r);
    }
    hide RunningUsage, AnyRunningTopLevel, AnyRunningExclusive;
  }

  lemma InsertedRuns(t: Table, r: Job)
    requires WellNumbered(t) && !Holds(r)
    ensures AnyRunningTopLevel(InsertRow(t, r)) == AnyRunningTopLevel(t)
    ensures AnyRunningExclusive(InsertRow(t, r)) == AnyRunningExclusive(t)
  {
    var u := InsertRow(t, r);
    assert forall id :: id in t.rows ==> id in u.rows && u.rows[id] == t.rows[id];
  }

  lemma SubmitRunReaches(cfg: Config, s: State, req: SubmitRequest, env: Env, on: Terms)
    requires !on.still && Numbered(s.table) && AtOnce(req) && !req.allocationOnly && RequestFits(cfg, s.table, req)
    ensures var s1 := s.(table := Inserted(s.table, req, env.now));
            var launched := TryLaunch(cfg, s1, s.table.next, env);
            launched.Some? ==> Reaches(cfg, s1, launched.value, on)
  {
    hide Reaches, RequestFits, JobFits, AllocateGpuIds;
    var id := s.table.next;
    var s1 := s.(table := Inserted(s.table, req, env.now));
    InsertedFits(cfg, s.table, req, env.now);
    if TryLaunch(cfg, s1, id, env).Some? {
      ReachesByOne(cfg, s1, Launch(id, env.spawn[id], env.now, true), on);
    }
  }

  lemma SubmitAllocReaches(cfg: Config, s: State, req: SubmitRequest, now: int, on: Terms)
    requires !on.still && Numbered(s.table) && AtOnce(req) && req.allocationOnly && RequestFits(cfg, s.table, req)
    ensures var u := Inserted(s.table, req, now); var id := s.table.next;
            var started := u.(rows := u.rows[id := AllocationRunningRow(u.rows[id], now)]);
            Reaches(cfg, s.(table := u), s.(table := started), on)
  {
    hide Reaches, RequestFits, JobFits;
    InsertedFits(cfg, s.table, req, now);
    ReachesByOne(cfg, s.(table := Inserted(s.table, req, now)), StartAllocation(s.table.next, now, true), on);
  }

  function WithRow(s: State, id: JobId, r: Job): State {
    s.(table := s.table.(rows := s.table.rows[id := r]))
  }

  lemma ChangeReaches(cfg: Config, s: State, id: JobId, e: Edit, on: Terms)
    requires id in s.table.rows && EditAllowed(s.table.rows[id], e) && (e.NameEdit? ==> id !in on.spared)
    ensures Reaches(cfg, s, WithRow(s, id, EditedRow(s.table.rows[id], e)), on)
  {
    hide Reaches;
    ReachesByOne(cfg, s, Change(id, e), on);
  }

  /** One optional edit, after others. */
  lemma EditReaches(cfg: Config, s: State, id: JobId, r: Job, e: Option<Edit>, on: Terms)
    requires id in s.table.rows && Reaches(cfg, s, WithRow(s, id, r), on)
    requires e.Some? ==> EditAllowed(r, e.value) && (e.value.NameEdit? ==> id !in on.spared)
    ensures Reaches(cfg, s, WithRow(s, id, Edited(r, e)), on)
    ensures Edited(r, e).state == r.state
  {
    if e.Some? {
      assert EditedRow(r, e.value).state == r.state;
      hide Reaches, EditedRow, EditAllowed;
      var v, r' := WithRow(s, id, r), EditedRow(r, e.value);
      ChangeReaches(cfg, v, id, e.value, on);
      assert WithRow(v, id, r').table.rows == WithRow(s, id, r').table.rows;
      ReachesThrough(cfg, s, v, WithRow(v, id, r'), on);
    }
  }

  lemma UpdatedReaches(cfg: Config, s: State, id: JobId, f: Fields, on: Terms)
    requires id in s.table.rows && (f.name.Some? ==> id !in on.spared)
    ensures Reaches(cfg, s, WithRow(s, id, UpdatedRow(s.table.rows[id], f)), on)
  {
    var r := s.table.rows[id];
    assert WithRow(s, id, r).table.rows == s.table.rows;
    ReachesItself(cfg, s, on);
    hide Reaches, WithRow, Edited, EditedRow;
    if r.state == Pending {
      var r1 := Edited(r, f.NameChange());
      var r2 := Edited(r1, f.PartitionChange());
      var r3 := Edited(r2, f.LimitChange());
      EditReaches(cfg, s, id, r, f.NameChange(), on);
      EditReaches(cfg, s, id, r1, f.PartitionChange(), on);
      EditReaches(cfg, s, id, r2, f.LimitChange(), on);
      EditReaches(cfg, s, id, r3, f.PriorityChange(), on);
    } else if f.name.None? && f.partition.None? && !r.state.IsTerminal() {
      EditReaches(cfg, s, id, r, f.LimitChange(), on);
    }
  }

  lemma HeldReaches(cfg: Config, s: State, id: JobId, held: bool, on: Terms)
    ensures Reaches(cfg, s, s.(table := Held(s.table, id, held)), on)
  {
    hide Reaches;
    if id in s.table.rows && s.table.rows[id].state == Pending {
      ChangeReaches(cfg, s, id, if held then HoldEdit else ReleaseEdit, on);
    } else {
      ReachesItself(cfg, s, on);
    }
  }

  lemma CancelReaches(cfg: Config, s: State, id: JobId, wait: Wait, now: int, on: Terms)
    requires Consistent(s) && id !in on.spared && (CancelFails(s, id, wait) ==> !on.Waits(id))
    ensures Reaches(cfg, s, JobCancelled(s, id, wait, now).state, on)
  {
    hide Reaches, Terminated;
    if id in s.table.rows && s.table.rows[id].state == Pending {
      ReachesByOne(cfg, s, CancelPending(id, now), on);
    } else if id !in s.tracked {
      ReachesItself(cfg, s, on);
    } else {
      TerminatedReaches(cfg, s, id, wait, JobState.Cancelled, "CancelledByUser", now, on);
    }
  }

  lemma FinishReaches(cfg: Config, s: State, id: JobId, ending: Ending, env: Env, on: Terms)
    requires Consistent(s) && Disciplined(s, FinishAllocation(id, ending)) && id !in on.spared + on.silent
    ensures Reaches(cfg, s, AllocationFinished(cfg, s, id, ending, env).state, on)
  {
    hide Reaches, Pass, Scheduled;
    if id !in s.table.rows {
      assert s.tracked - {id} == s.tracked;
      ReachesItself(cfg, s, on);
    } else {
      ReachesByOne(cfg, s, ClientFinish(id, ending, env.now), on);
    }
  }

  lemma AdoptReaches(cfg: Config, s: State, id: JobId, pid: int, pgid: int, on: Terms)
    requires Consistent(s) && Disciplined(s, AdoptAllocation(id, pid, pgid))
    ensures Reaches(cfg, s, AllocationAdopted(s, id, pid, pgid).state, on)
  {
    hide Reaches;
    if id in s.table.rows {
      ReachesByOne(cfg, s, Adopt(id, pid, pgid), on);
    } else {
      ReachesItself(cfg, s, on);
    }
  }

  lemma SubmittedRunReaches(cfg: Config, s: State, req: SubmitRequest, immediate: bool, env: Env, on: Terms)
    requires !on.still && Numbered(s.table) && AtOnce(req) && !req.allocationOnly
    ensures Reaches(cfg, s, SubmittedRun(cfg, s, req, immediate, env).state, on)
  {
    hide Reaches, TryLaunch, RequestFits;
    ReachesItself(cfg, s, on);
    CreatedReaches(cfg, s, req, None, env.now, on);
    var s1, u := s.(table := Inserted(s.table, req, env.now)), SubmittedRun(cfg, s, req, immediate, env).state;
    if u != s && u != s1 {
      SubmitRunReaches(cfg, s, req, env, on);
      ReachesThrough(cfg, s, s1, u, on);
    }
  }

  lemma SubmittedAllocReaches(cfg: Config, s: State, req: SubmitRequest, immediate: bool, now: int, on: Terms)
    requires !on.still && Numbered(s.table) && AtOnce(req) && req.allocationOnly
    ensures Reaches(cfg, s, SubmittedAlloc(cfg, s, req, immediate, now).state, on)
  {
    hide Reaches, RequestFits;
    ReachesItself(cfg, s, on);
    CreatedReaches(cfg, s, req, None, now, on);
    var s1, u := s.(table := Inserted(s.table, req, now)), SubmittedAlloc(cfg, s, req, immediate, now).state;
    if u != s && u != s1 {
      SubmitAllocReaches(cfg, s, req, now, on);
      ReachesThrough(cfg, s, s1, u, on);
    }
  }

  lemma SubmittedBatchReaches(cfg: Config, s: State, req: SubmitRequest, spec: Option<ArrayTasks>, env: Env,
                              on: Terms)
    requires !on.still && Numbered(s.table)
    ensures Reaches(cfg, s, SubmittedBatch(cfg, s, req, spec, env).state, on)
  {
    hide Reaches, Scheduled, Created;
    if spec.Some? && spec.value.taskIds == [] {
      ReachesItself(cfg, s, on);
    } else {
      CreatedNumbered(s.table, req, spec, env.now);
      CreatedReaches(cfg, s, req, spec, env.now, on);
      ScheduledReaches(cfg, s, s.(table := Created(s.table, req, spec, env.now)), env, Submitted(s.table.next), on);
    }
  }

  lemma StartedStepReaches(cfg: Config, s: State, parent: JobId, name: string, userName: string, now: int, on: Terms)
    ensures Reaches(cfg, s, StartedStep(s, parent, name, userName, now).state, on)
  {
    hide Reaches;
    if parent in s.table.rows {
      ReachesByOne(cfg, s, CreateStep(parent, name, userName, now), on);
    } else {
      ReachesItself(cfg, s, on);
    }
  }

  lemma JobUpdatedReaches(cfg: Config, s: State, id: JobId, fields: Fields, env: Env, on: Terms)
    requires !on.still && Numbered(s.table) && (fields.name.Some? ==> id !in on.spared)
    ensures Reaches(cfg, s, JobUpdated(cfg, s, id, fields, env).state, on)
  {
    hide Reaches, Scheduled, UpdatedRow, UpdateAccepted;
    if id !in s.table.rows {
      ReachesItself(cfg, s, on);
    } else {
      UpdatedReaches(cfg, s, id, fields, on);
      UpdateKeepsId(s.table.rows[id], fields);
      ScheduledReaches(cfg, s, WithRow(s, id, UpdatedRow(s.table.rows[id], fields)), env, Submitted(id), on);
    }
  }

  /** The job that a request cancels, renames or reports finished. */
  function Touched(request: Request): set<JobId> {
    match request
    case CancelJob(id) => {id}
    case FinishAllocation(id, _) => {id}
    case UpdateJob(id, fields) => if fields.name.Some? then {id} else {}
    case _ => {}
  }

  /** The job whose end a client reports. */
  function Reported(request: Request): set<JobId> {
    if request.FinishAllocation? then {request.id} else {}
  }

  /** Every request of a disciplined client is a run. */
  lemma RespondReaches(cfg: Config, s: State, request: Request, env: Env, wait: Wait, on: Terms)
    requires !on.still && Consistent(s) && Disciplined(s, request)
    requires request.CancelJob? && CancelFails(s, request.id, wait) ==> !on.Waits(request.id)
    requires Touched(request) !! on.spared && Reported(request) !! on.silent
    ensures Reaches(cfg, s, Respond(cfg, s, request, env, wait).state, on)
  {
    hide Reaches, Scheduled, SubmittedBatch, SubmittedRun, SubmittedAlloc, StartedStep, AllocationAdopted;
    hide AllocationFinished, JobUpdated, JobCancelled, Held;
    match request
    case SubmitBatch(req, spec) => SubmittedBatchReaches(cfg, s, req, spec, env, on);
    case SubmitRun(req, immediate) => SubmittedRunReaches(cfg, s, req, immediate, env, on);
    case SubmitAlloc(req, immediate) => SubmittedAllocReaches(cfg, s, req, immediate, env.now, on);
    case StartStep(parent, name, userName) => StartedStepReaches(cfg, s, parent, name, userName, env.now, on);
    case AdoptAllocation(id, pid, pgid) => AdoptReaches(cfg, s, id, pid, pgid, on);
    case FinishAllocation(id, ending) => FinishReaches(cfg, s, id, ending, env, on);
    case HoldJob(id) => HeldReaches(cfg, s, id, true, on);
    case ReleaseJob(id) =>
      HeldReaches(cfg, s, id, false, on);
      HeldNumbered(s.table, id, false);
      ScheduledReaches(cfg, s, s.(table := Held(s.table, id, false)), env, Submitted(id), on);
    case UpdateJob(id, fields) => JobUpdatedReaches(cfg, s, id, fields, env, on);
    case CancelJob(id) => CancelReaches(cfg, s, id, wait, env.now, on);
  }

  // ----- recovery -----

  lemma AdoptOneReaches(cfg: Config, s: State, id: JobId, v: Survey, on: Terms)
    requires id in s.table.rows && s.table.rows[id].state == Running && Survives(s.table.rows[id], v)
    ensures Reaches(cfg, s, s.(tracked := s.tracked[id := AdoptedEntry(s.table.rows[id])]), on)
  {
    hide Reaches;
    ReachesByOne(cfg, s, RecoverAdopt(id), on);
  }

  lemma LoseOneReaches(cfg: Config, s: State, id: JobId, v: Survey, on: Terms)
    requires id in s.table.rows && s.table.rows[id].state == Running && id !in s.tracked
    ensures Reaches(cfg, s, s.(table := Finish(s.table, id, RecoveryEnding(s.table.rows[id], v), v.now)), on)
  {
    RecoveryEndingIsOwn(s.table.rows[id], v);
    hide Reaches, RecoveryEnding, FinishedRow;
    ReachesByOne(cfg, s, RecoverLost(id, RecoveryEnding(s.table.rows[id], v), v.now), on);
  }

  lemma RecoverOneReaches(cfg: Config, t: Table, v: Survey, n: nat, on: Terms)
    requires WellNumbered(t)
    ensures Reaches(cfg, RecoveredSome(t, v, Below(n)), RecoveredSome(t, v, Below(n + 1)), on)
  {
    var s := RecoveredSome(t, v, Below(n));
    assert Below(n + 1) == Below(n) + {n} && n !in Below(n);
    if n in t.rows && t.rows[n].state == Running {
      assert s.table.rows[n] == t.rows[n] && n !in s.tracked;
      RecoverOneMore(t, v, Below(n), n);
      hide Below, RecoveredSome, RecoveryEnding, Finish, Reaches, WellNumbered, Survives, AdoptedEntry;
      if Survives(t.rows[n], v) {
        AdoptOneReaches(cfg, s, n, v, on);
      } else {
        LoseOneReaches(cfg, s, n, v, on);
      }
    } else {
      NothingToRecover(t, v, Below(n), n);
      ReachesItself(cfg, s, on);
    }
  }

  lemma RecoveryEndingIsOwn(r: Job, v: Survey)
    ensures RecoveryEnding(r, v).state in {Completed, Failed}
  {
  }

  function Below(n: nat): (ids: set<JobId>)
    ensures forall k: nat :: k in ids <==> k < n
  {
    if n == 0 then {} else Below(n - 1) + {n - 1}
  }

  lemma {:induction false} RecoveredBelowReaches(cfg: Config, t: Table, v: Survey, n: nat, on: Terms)
    requires WellNumbered(t)
    ensures Reaches(cfg, State(t, map[]), RecoveredSome(t, v, Below(n)), on)
  {
    if n == 0 {
      assert Below(0) == {};
      RecoveredNone(t, v);
      ReachesItself(cfg, State(t, map[]), on);
    } else {
      hide Reaches, RecoveredSome, WellNumbered, Below;
      RecoveredBelowReaches(cfg, t, v, n - 1, on);
      RecoverOneReaches(cfg, t, v, n - 1, on);
      ReachesThrough(cfg, State(t, map[]), RecoveredSome(t, v, Below(n - 1)), RecoveredSome(t, v, Below(n)), on);
    }
  }

  lemma RecoveryReaches(cfg: Config, t: Table, v: Survey, on: Terms)
    requires WellNumbered(t)
    ensures Reaches(cfg, State(t, map[]), Recovered(t, v), on)
  {
    RecoveredBelowReaches(cfg, t, v, t.next, on);
    assert forall id :: id in t.rows ==> id in Below(t.next);
    hide Reaches, Below;
    RecoveredAll(t, v, Below(t.next));
  }

  /** What recovery makes of a RUNNING row whose process is gone. */
  predicate OverOrRequeued(r: Job, r': Job) {
    r'.state in {Completed, Failed} || (r'.state == Pending && r.requeue && r.requeueCount == 0 && r'.requeueCount == 1)
  }

  lemma RecoveredRowIsExact(r: Job, v: Survey)
    ensures if r.state != Running || Survives(r, v) then RecoveredRow(r, v) == r
            else OverOrRequeued(r, RecoveredRow(r, v)) && RecoveredRow(r, v).id == r.id
  {
  }

  lemma SurvivorsRun(t: Table, v: Survey, id: JobId)
    requires id in t.rows
    ensures var u := Recovered(t, v);
            && (id in u.tracked <==> t.rows[id].state == Running && Survives(t.rows[id], v))
            && (id in u.tracked ==> u.tracked[id].adopted && u.tracked[id].pgid == GroupOf(t.rows[id]) > 0)
            && u.table.rows[id] == RecoveredRow(t.rows[id], v)
  {
    hide RecoveredRow;
  }

  /** From any store: afterwards the tracked jobs are exactly the RUNNING ones,
      those are the ones whose processes survived, with their rows as they were,
      and every other formerly RUNNING job is over or requeued for the first time. */
  lemma RecoveryIsExact(t: Table, v: Survey)
    requires WellNumbered(t)
    ensures var u := Recovered(t, v);
            && u.table.rows.Keys == t.rows.Keys
            && (forall id :: id in u.tracked <==> id in u.table.rows && u.table.rows[id].state == Running)
            && (forall id :: id in u.tracked ==> u.tracked[id].adopted && u.tracked[id].pgid == GroupOf(t.rows[id]) > 0)
            && (forall id :: id in t.rows ==>
                  if t.rows[id].state != Running || Survives(t.rows[id], v) then u.table.rows[id] == t.rows[id]
                  else OverOrRequeued(t.rows[id], u.table.rows[id]))
  {
    var u := Recovered(t, v);
    assert u.table.rows.Keys == t.rows.Keys;
    assert forall id :: id in u.tracked ==> id in t.rows;
    hide RecoveredRow, Survives, Recovered;
    forall id | id in t.rows
      ensures id in u.tracked <==> u.table.rows[id].state == Running
      ensures id in u.tracked ==> u.tracked[id].adopted && u.tracked[id].pgid == GroupOf(t.rows[id]) > 0
      ensures if t.rows[id].state != Running || Survives(t.rows[id], v) then u.table.rows[id] == t.rows[id]
              else OverOrRequeued(t.rows[id], u.table.rows[id])
    {
      SurvivorsRun(t, v, id);
      RecoveredRowIsExact(t.rows[id], v);
    }
  }

  /** Recovery preserves the resource invariants from any store, reachable or not. */
  lemma RecoveryKeepsLedgers(cfg: Config, t: Table, v: Survey)
    ensures var u := Recovered(t, v).table;
            && (WithinCapacity(cfg, t) ==> WithinCapacity(cfg, u))
            && (ExclusiveAlone(t) ==> ExclusiveAlone(u))
            && (GpuLedger(cfg, t) ==> GpuLedger(cfg, u))
  {
    var u := Recovered(t, v).table;
    assert (forall id :: id in t.rows && Holds(u.rows[id]) ==> u.rows[id] == t.rows[id]) by { RecoveredHold(t, v); }
    assert u.next == t.next && u.rows.Keys == t.rows.Keys;
    hide RecoveredRow, Recovered, GoodAssignment;
    TotalGrows(u.rows, t.rows, CpuLoad, t.next);
    TotalGrows(u.rows, t.rows, MemoryLoad, t.next);
    TotalGrows(u.rows, t.rows, GpuLoad, t.next);
  }

  lemma RecoveredHold(t: Table, v: Survey)
    ensures var u := Recovered(t, v).table;
            && u.next == t.next && u.rows.Keys == t.rows.Keys
            && forall id :: id in t.rows && Holds(u.rows[id]) ==> u.rows[id] == t.rows[id]
  {
  }
}
