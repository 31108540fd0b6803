/** The runner: the table of processes the daemon has started or adopted. */
module JobRunner {
  import opened Basics
  import opened Jobs
  import opened Scheduling
  import opened Operations
  import opened JobStore

  class Runner {
    var jobs: map<JobId, Tracked>
    /** Every process started so far, recorded or not; the runner itself does not know them all. */
    ghost var spawned: seq<Process>

    constructor ()
      ensures jobs == map[] && spawned == []
    {
      jobs := map[];
      spawned := [];
    }

    ghost function With(store: Store): State
      reads this, store
    {
      State(store.table, jobs)
    }

    /** GPU ids, then the process, then its set-up, then the row; only then the
        table entry. A failure on the way leaves both tables as they were, but one
        after the spawn leaves a process as well. */
    method Launch(store: Store, job: Job, env: Env) returns (ok: bool)
      requires job.id in store.table.rows && store.table.rows[job.id] == job
      modifies this`jobs, this`spawned, store`table
      ensures var launched := TryLaunch(store.config, old(With(store)), job.id, env);
              ok == launched.Some? && With(store) == (if launched.Some? then launched.value else old(With(store)))
      ensures spawned == old(spawned) + LaunchSpawns(store.config, old(store.table), job, env)
    {
      var gpus: seq<nat> := [];
      if store.config.IsGpuPartition(job.partition) {
        var found := store.AllocateGpuIds(job.gpus);
        if found.Err? { return false; }
        gpus := found.value;
      }
      if job.id !in env.spawn { return false; }
      var pid := env.spawn[job.id];
      spawned := spawned + [Process(job.id, pid)];
      if job.id in env.unset { return false; }
      store.MarkRunning(job.id, pid, pid, gpus, env.now);
      jobs := jobs[job.id := Tracked(pid, pid, false, false)];
      ok := true;
    }

    method Adopt(job: Job)
      modifies this`jobs
      ensures jobs == Adopted(old(jobs), job)
    {
      var pgid := if job.pgid.Some? then job.pgid.value else if job.pid.Some? then job.pid.value else 0;
      if pgid <= 0 { return; }
      jobs := jobs[job.id := Tracked(pgid, if job.pid.Some? then job.pid.value else 0, true, false)];
    }

    method Forget(id: JobId)
      modifies this`jobs
      ensures jobs == old(jobs) - {id}
    {
      jobs := jobs - {id};
    }

    // ----- termination -----

    /** `terminate_running_job`: COMPLETING first, the outcome after the wait; a
        failed wait leaves the row COMPLETING. */
    method TerminateRunningJob(store: Store, id: JobId, running: Tracked, wait: Wait, final: JobState,
                               reason: string, now: int)
      returns (ok: bool)
      modifies store`table
      ensures var t := Mark(old(store.table), id, Completing, reason);
              && (wait.WaitFailed? ==> !ok && store.table == t)
              && (wait.Waited? ==>
                    && ok == (id in old(store.table).rows)
                    && store.table
                       == Finish(t, id, TerminationEnding(running, wait.exit, wait.inTime, final, reason), now))
    {
      store.MarkState(id, Completing, reason);
      if wait.WaitFailed? { return false; }
      var exit := wait.exit;
      var code, signal;
      if running.adopted {
        code, signal := None, Some(SIGKILL);
      } else if wait.inTime {
        code, signal := exit.code, exit.signal;
      } else {
        code, signal := exit.code, if exit.signal.Some? then exit.signal else Some(SIGKILL);
      }
      var ending := if exit.oomKilled then Ending(OutOfMemory, code, signal, "OutOfMemory")
                    else Ending(final, code, signal, reason);
      var job := store.MarkFinished(id, ending, now);
      ok := job.Ok?;
    }

    method TerminateTrackedJob(store: Store, id: JobId, wait: Wait, final: JobState, reason: string, now: int)
      returns (ok: bool)
      modifies this`jobs, store`table
      ensures id !in old(jobs) ==> ok && With(store) == old(With(store))
      ensures id in old(jobs) ==>
                Outcome(With(store), ok) == Terminated(old(With(store)), id, wait, final, reason, now)
    {
      if id !in jobs { return true; }
      var running := jobs[id];
      jobs := jobs - {id};
      ok := TerminateRunningJob(store, id, running, wait, final, reason, now);
    }

    /** True if the job was waiting or running, and has been dealt with. */
    method CancelJob(store: Store, id: JobId, wait: Wait, now: int) returns (done: Result<bool>)
      modifies this`jobs, store`table
      ensures Reply(With(store), if done == Ok(true) then CancelDone(id) else Refused)
              == JobCancelled(old(With(store)), id, wait, now)
    {
      var cancelled := store.CancelPendingJob(id, now);
      if cancelled { return Ok(true); }
      if id !in jobs { return Ok(false); }
      var ok := TerminateTrackedJob(store, id, wait, JobState.Cancelled, "CancelledByUser", now);
      done := if ok then Ok(true) else Err;
    }

    // ----- time limits -----

    method CollectTimedOut(store: Store, order: seq<JobId>, now: int) returns (late: seq<JobId>)
      ensures late == TimedOutIds(store.table, order, now)
    {
      late := [];
      for k := 0 to |order|
        invariant late + TimedOutIds(store.table, order[k..], now) == TimedOutIds(store.table, order, now)
      {
        var id := order[k];
        assert order[k..][1..] == order[k + 1..];
        if id in store.table.rows {
          var job := store.table.rows[id];
          if job.startTime.Some? && job.timeLimit.Some? && job.state == Running
             && now >= SatAddI64(job.startTime.value, AsI64(job.timeLimit.value)) {
            late := late + [id];
          }
        }
      }
    }

    method EnforceTimeouts(store: Store, order: seq<JobId>, waits: map<JobId, Wait>, now: int) returns (ok: bool)
      modifies this`jobs, store`table
      ensures Outcome(With(store), ok) == Enforce(old(With(store)), order, waits, now)
    {
      var late := CollectTimedOut(store, order, now);
      ghost var whole := TerminateAll(With(store), late, waits, now);
      for k := 0 to |late|
        invariant TerminateAll(With(store), late[k..], waits, now) == whole
      {
        assert late[k..][1..] == late[k + 1..];
        ok := TerminateTrackedJob(store, late[k], WaitFor(waits, late[k]), Timeout, "TimeLimit", now);
        if !ok { return false; }
      }
      ok := WarnJobs(store, order, now);
    }

    method WarnJobs(store: Store, order: seq<JobId>, now: int) returns (ok: bool)
      modifies this`jobs
      ensures Outcome(With(store), ok) == WarnAll(old(With(store)), UnwarnedIds(old(jobs), order), now)
    {
      var toWarn := CollectUnwarned(order);
      ghost var whole := WarnAll(With(store), toWarn, now);
      for k := 0 to |toWarn|
        invariant WarnAll(With(store), toWarn[k..], now) == whole
      {
        assert toWarn[k..][1..] == toWarn[k + 1..];
        var id := toWarn[k];
        var signal := WarningDue(State(store.table, jobs), id, now);
        if signal.Some? {
          if !IsSignal(signal.value) { return false; }
          jobs := jobs[id := jobs[id].(warned := true)];
        }
      }
      ok := true;
    }

    method CollectUnwarned(order: seq<JobId>) returns (ids: seq<JobId>)
      ensures ids == UnwarnedIds(jobs, order)
    {
      ids := [];
      for k := 0 to |order|
        invariant ids + UnwarnedIds(jobs, order[k..]) == UnwarnedIds(jobs, order)
      {
        assert order[k..][1..] == order[k + 1..];
        if order[k] in jobs && !jobs[order[k]].warned { ids := ids + [order[k]]; }
      }
    }

    // ----- jobs that ended by themselves -----

    method ForgetFinishedJobs(finished: seq<JobId>)
      modifies this`jobs
      ensures jobs == old(jobs) - (set id | id in finished)
    {
      for k := 0 to |finished|
        invariant jobs == old(jobs) - (set id | id in finished[..k])
      {
        jobs := jobs - {finished[k]};
        assert finished[..k + 1] == finished[..k] + [finished[k]];
      }
      assert finished[..|finished|] == finished;
    }

    /** Rows of children that have exited are finished while the table of processes
        is walked; the entries are removed after the walk. */
    method Poll(store: Store, order: seq<JobId>, exits: map<JobId, Exit>, now: int) returns (ok: bool)
      requires IsWalk(order, jobs)
      modifies this`jobs, store`table
      ensures ok == (ChildEndings(old(jobs), exits).Keys <= old(store.table).rows.Keys)
      ensures ok ==> With(store) == Polled(old(With(store)), exits, now)
      ensures !ok ==> jobs == old(jobs)
    {
      ghost var t0, ends := store.table, ChildEndings(jobs, exits);
      var finished: seq<JobId> := [];
      WalkBegins(t0, order, ends, now);
      hide Walked;
      for k := 0 to |order|
        invariant jobs == old(jobs) && Walked(store.table, t0, order[..k], ends, finished, now)
      {
        var id := order[k];
        assert id in jobs;
        WalkGoesOn(store.table, t0, order, k, ends, finished, now);
        if !jobs[id].adopted && id in exits {
          var job := store.MarkFinished(id, ChildEnding(exits[id]), now);
          if job.Err? { return false; }
          finished := finished + [id];
        }
      }
      assert order[..|order|] == order;
      WalkEnds(store.table, t0, order, ends, finished, now);
      ForgetFinishedJobs(finished);
      ok := true;
    }

    /** The same for adopted jobs whose process group is gone. */
    method ReconcileAdopted(store: Store, order: seq<JobId>, lost: map<JobId, Remains>, now: int) returns (ok: bool)
      requires IsWalk(order, jobs)
      modifies this`jobs, store`table
      ensures ok == (LostEndings(old(jobs), lost).Keys <= old(store.table).rows.Keys)
      ensures ok ==> With(store) == Reconciled(old(With(store)), lost, now)
      ensures !ok ==> jobs == old(jobs)
    {
      ghost var t0, ends := store.table, LostEndings(jobs, lost);
      var finished: seq<JobId> := [];
      WalkBegins(t0, order, ends, now);
      hide Walked;
      for k := 0 to |order|
        invariant jobs == old(jobs) && Walked(store.table, t0, order[..k], ends, finished, now)
      {
        var id := order[k];
        assert id in jobs;
        WalkGoesOn(store.table, t0, order, k, ends, finished, now);
        if jobs[id].adopted && id in lost {
          var job := store.MarkFinished(id, LostEnding(lost[id]), now);
          if job.Err? { return false; }
          finished := finished + [id];
        }
      }
      assert order[..|order|] == order;
      WalkEnds(store.table, t0, order, ends, finished, now);
      ForgetFinishedJobs(finished);
      ok := true;
    }
  }

  /** Some order in which a hash map with these keys may be walked. */
  ghost predicate IsWalk(order: seq<JobId>, jobs: map<JobId, Tracked>) {
    DistinctJobs(order) && forall id :: id in order <==> id in jobs
  }

  function Among(ends: map<JobId, Ending>, ids: seq<JobId>): map<JobId, Ending> {
    map id | id in ends && id in ids :: ends[id]
  }

  /** Midway through a walk: the endings among the jobs already visited are in the table. */
  ghost predicate Walked(t: Table, t0: Table, visited: seq<JobId>, ends: map<JobId, Ending>, finished: seq<JobId>,
                         now: int) {
    && t == FinishMany(t0, Among(ends, visited), now)
    && (forall id :: id in finished <==> id in ends && id in visited)
    && (forall id :: id in finished ==> id in t0.rows)
  }

  lemma WalkBegins(t0: Table, order: seq<JobId>, ends: map<JobId, Ending>, now: int)
    ensures Walked(t0, t0, order[..0], ends, [], now)
  {
  }

  lemma WalkGoesOn(t: Table, t0: Table, order: seq<JobId>, k: nat, ends: map<JobId, Ending>, finished: seq<JobId>,
                   now: int)
    requires k < |order| && DistinctJobs(order)
    requires Walked(t, t0, order[..k], ends, finished, now)
    ensures t.rows.Keys == t0.rows.Keys
    ensures var id := order[k];
            if id !in ends then Walked(t, t0, order[..k + 1], ends, finished, now)
            else id in t.rows ==> Walked(Finish(t, id, ends[id], now), t0, order[..k + 1], ends, finished + [id], now)
  {
    var id := order[k];
    assert order[..k + 1] == order[..k] + [id];
    assert id !in order[..k];
    var u := FinishMany(t0, Among(ends, order[..k + 1]), now);
    hide FinishedRow;
    if id in ends {
      assert u.rows == Finish(t, id, ends[id], now).rows;
    } else {
      assert u.rows == t.rows;
    }
  }

  lemma WalkEnds(t: Table, t0: Table, order: seq<JobId>, ends: map<JobId, Ending>, finished: seq<JobId>, now: int)
    requires Walked(t, t0, order, ends, finished, now) && forall id :: id in ends ==> id in order
    ensures t == FinishMany(t0, ends, now) && (set id | id in finished) == ends.Keys <= t0.rows.Keys
  {
  }
}
