/** The job store: the `jobs` table and the statements that change or query it. */
module JobStore {
  import opened Basics
  import opened Jobs
  import opened Accounting
  import opened Scheduling
  import opened PendingOrder
  import opened Operations

  /** UPDATE of one row by id; no such row, no change. */
  function Updated(t: Table, id: JobId, row: Job -> Job): Table {
    if id in t.rows then t.(rows := t.rows[id := row(t.rows[id])]) else t
  }

  class Store {
    const config: Config
    var table: Table

    constructor (config: Config)
      ensures this.config == config && table == Table(map[], 1)
    {
      this.config := config;
      table := Table(map[], 1);
    }

    /** What the primary key guarantees. */
    predicate Valid()
      reads this
    {
      Numbered(table)
    }

    // ----- state updates -----

    method MarkRunning(id: JobId, pid: int, pgid: int, gpus: seq<nat>, now: int)
      modifies this`table
      ensures table == Updated(old(table), id, (r: Job) => RunningRow(r, pid, pgid, gpus, now))
    {
      if id in table.rows {
        var r := table.rows[id];
        r := r.(state := Running, reason := "", pid := Some(pid), pgid := Some(pgid), startTime := Some(now));
        r := r.(assignedGpus := gpus);
        table := table.(rows := table.rows[id := r]);
      }
    }

    method MarkAllocationRunning(id: JobId, now: int)
      modifies this`table
      ensures table == Updated(old(table), id, (r: Job) => AllocationRunningRow(r, now))
    {
      if id in table.rows {
        var r := table.rows[id];
        table := table.(rows := table.rows[id := r.(state := Running, reason := "", startTime := Some(now))]);
      }
    }

    method AdoptAllocation(id: JobId, pid: int, pgid: int)
      modifies this`table
      ensures table == Updated(old(table), id, (r: Job) => AdoptedRow(r, pid, pgid))
    {
      if id in table.rows {
        table := table.(rows := table.rows[id := table.rows[id].(pid := Some(pid), pgid := Some(pgid))]);
      }
    }

    /** Ends a job, or sends it back to the queue if it is to be requeued and has not been yet. */
    method MarkFinished(id: JobId, e: Ending, now: int) returns (job: Result<Job>)
      modifies this`table
      ensures table == Finish(old(table), id, e, now)
      ensures job == if id in table.rows then Ok(table.rows[id]) else Err
    {
      if id !in table.rows { return Err; }
      var r := table.rows[id];
      if ShouldAutoRequeue(r, e.state) {
        r := r.(state := Pending, exitCode := None, termSignal := None, reason := "Requeued", startTime := None,
                endTime := None, pid := None, pgid := None, assignedGpus := [], requeueCount := r.requeueCount + 1);
      } else {
        r := r.(state := e.state, exitCode := e.exitCode, termSignal := e.termSignal, reason := e.reason,
                endTime := Some(now), assignedGpus := []);
      }
      table := table.(rows := table.rows[id := r]);
      job := Ok(r);
    }

    method MarkState(id: JobId, state: JobState, reason: string)
      modifies this`table
      ensures table == Mark(old(table), id, state, reason)
    {
      if id in table.rows {
        table := table.(rows := table.rows[id := table.rows[id].(state := state, reason := reason)]);
      }
    }

    method CancelPendingJob(id: JobId, now: int) returns (changed: bool)
      modifies this`table
      ensures table == CancelledIn(old(table), id, now)
      ensures changed == (id in old(table).rows && old(table).rows[id].state == Pending)
    {
      changed := id in table.rows && table.rows[id].state == Pending;
      if changed {
        var r := table.rows[id];
        table := table.(rows := table.rows[id := r.(state := Cancelled, reason := "CancelledByUser",
                                                    endTime := Some(now))]);
      }
    }

    // ----- control updates -----

    method HoldOrRelease(id: JobId, held: bool)
      modifies this`table
      ensures table == Held(old(table), id, held)
    {
      if id in table.rows && table.rows[id].state == Pending {
        var r := table.rows[id];
        var reason := if held then "JobHeldUser" else "Resources";
        table := table.(rows := table.rows[id := r.(held := held, reason := reason)]);
      }
    }

    /** Column by column; the first refused column ends the update and keeps what was written before it. */
    method UpdateJobFields(id: JobId, f: Fields) returns (ok: bool)
      modifies this`table
      ensures table == Updated(old(table), id, (r: Job) => UpdatedRow(r, f))
      ensures ok == (id in old(table).rows && UpdateAccepted(old(table).rows[id], f))
    {
      if id !in table.rows { return false; }
      ghost var rows := table.rows;
      var job := table.rows[id];
      if f.name.Some? {
        if job.state != Pending { UnchangedRow(table, id); return false; }
        table := table.(rows := table.rows[id := table.rows[id].(name := f.name.value)]);
      }
      assert Sets(rows, table.rows, id, Edited(job, f.NameChange()));
      if f.partition.Some? {
        if job.state != Pending { UnchangedRow(table, id); return false; }
        table := table.(rows := table.rows[id := table.rows[id].(partition := f.partition.value)]);
      }
      assert Sets(rows, table.rows, id, Edited(Edited(job, f.NameChange()), f.PartitionChange()));
      if f.timeLimit.Some? {
        if job.state.IsTerminal() { UnchangedRow(table, id); return false; }
        table := table.(rows := table.rows[id := table.rows[id].(timeLimit := f.timeLimit)]);
      }
      ghost var limited := Edited(Edited(Edited(job, f.NameChange()), f.PartitionChange()), f.LimitChange());
      assert Sets(rows, table.rows, id, limited);
      if f.priority.Some? {
        if job.state != Pending { return false; }
        table := table.(rows := table.rows[id := table.rows[id].(priority := f.priority.value)]);
      }
      assert Sets(rows, table.rows, id, Edited(limited, f.PriorityChange()));
      return true;
    }

    // ----- creation -----

    method CreateJobEntry(req: SubmitRequest, arrayJobId: Option<JobId>, taskId: Option<nat>, count: Option<nat>,
                          limit: Option<nat>, now: int) returns (id: JobId)
      modifies this`table
      ensures id == old(table).next
      ensures table == InsertRow(old(table), NewRow(req, id, arrayJobId, taskId, count, limit, now))
    {
      id := table.next;
      var r := Job(
        parent := None, held := false, priority := 0, name := req.name, userName := req.userName, state := Pending,
        partition := req.partition, cpus := req.cpus, memoryMb := req.memoryMb, tasks := req.tasks, gpus := req.gpus,
        allocationOnly := req.allocationOnly, dependency := req.dependency,
        arrayJobId := arrayJobId, arrayTaskId := taskId, arrayTaskCount := count, arrayTaskLimit := limit,
        submitTime := now, reason := "Resources", timeLimit := req.timeLimit, beginTime := req.beginTime,
        exclusive := req.exclusive, warning := req.warning, requeue := req.requeue, requeueCount := 0,
        startTime := None, endTime := None, pid := None, pgid := None, exitCode := None, termSignal := None,
        assignedGpus := [], id := id);
      table := Table(table.rows[id := r], id + 1);
    }

    /** One row per task; the first row's id becomes the array's id, and is patched into that row afterwards. */
    method CreateArrayJobs(req: SubmitRequest, spec: ArrayTasks, now: int) returns (first: Result<JobId>)
      modifies this`table
      ensures spec.taskIds == [] ==> first == Err && table == old(table)
      ensures spec.taskIds != [] ==> first == Ok(old(table).next)
      ensures table == InsertTasks(old(table), req, spec, old(table).next, now)
    {
      var arrayJobId: Option<JobId> := None;
      ghost var t0 := table;
      for i := 0 to |spec.taskIds|
        invariant arrayJobId == if i == 0 then None else Some(t0.next)
        invariant table.next == t0.next + i
        invariant InsertTasks(table, req, spec, t0.next, now) == InsertTasks(t0, req, spec, t0.next, now)
      {
        ghost var before := table;
        var id := CreateJobEntry(req, arrayJobId, Some(spec.taskIds[i]), Some(|spec.taskIds|), spec.limit, now);
        if arrayJobId.None? {
          arrayJobId := Some(id);
          table := table.(rows := table.rows[id := table.rows[id].(arrayJobId := Some(id))]);
        }
        assert table.rows == before.rows[id := TaskRow(req, spec, t0.next, id, now)];
        assert table == InsertRow(before, TaskRow(req, spec, t0.next, before.next, now));
      }
      first := if arrayJobId.Some? then Ok(arrayJobId.value) else Err;
    }

    method CreateJob(req: SubmitRequest, spec: Option<ArrayTasks>, now: int) returns (id: Result<JobId>)
      requires Valid()
      modifies this`table
      ensures spec.Some? && spec.value.taskIds == [] ==> id == Err && table == old(table)
      ensures !(spec.Some? && spec.value.taskIds == []) ==> id == Ok(old(table).next)
      ensures table == Created(old(table), req, spec, now) && Valid()
    {
      CreatedNumbered(table, req, spec, now);
      if spec.Some? {
        id := CreateArrayJobs(req, spec.value, now);
      } else {
        var entry := CreateJobEntry(req, None, None, None, None, now);
        id := Ok(entry);
      }
    }

    method CreateStep(parent: JobId, name: string, userName: string, now: int) returns (id: Result<JobId>)
      modifies this`table
      ensures parent !in old(table).rows ==> id == Err && table == old(table)
      ensures parent in old(table).rows ==>
                id == Ok(old(table).next)
                && table
                   == InsertRow(old(table), StepRow(old(table).rows[parent], old(table).next, name, userName, now))
    {
      if parent !in table.rows { return Err; }
      var p := table.rows[parent];
      var r := Job(
        parent := Some(p.id), held := false, priority := 0, name := name, userName := userName, state := Running,
        partition := p.partition, cpus := p.cpus, memoryMb := p.memoryMb, tasks := p.tasks, gpus := p.gpus,
        allocationOnly := false, dependency := [],
        arrayJobId := None, arrayTaskId := None, arrayTaskCount := None, arrayTaskLimit := None,
        submitTime := now, startTime := Some(now), reason := "", timeLimit := None, beginTime := None,
        exclusive := false, warning := None, requeue := false, requeueCount := 0,
        endTime := None, pid := None, pgid := None, exitCode := None, termSignal := None,
        assignedGpus := [], id := table.next);
      id := Ok(table.next);
      table := Table(table.rows[table.next := r], table.next + 1);
    }

    // ----- GPU ids -----

    method GpuIdsInUse() returns (ids: seq<nat>)
      ensures ids == IdsInUse(table.rows, table.next)
    {
      ids := [];
      for id := 0 to table.next
        invariant ids == IdsInUse(table.rows, id)
      {
        if id in table.rows && Holds(table.rows[id]) {
          ids := ids + table.rows[id].assignedGpus;
        }
      }
    }

    /** The lowest free ids, found by walking up until there are enough. */
    method AllocateGpuIds(requested: nat) returns (ids: Result<seq<nat>>)
      ensures ids == Accounting.AllocateGpuIds(config, table, requested)
    {
      if requested == 0 { return Ok([]); }
      var used := GpuIdsInUse();
      var chosen := [];
      for g := 0 to config.totalGpus
        invariant chosen == FreeIds(used, g) && |chosen| < requested
      {
        if g !in used {
          chosen := chosen + [g];
          if |chosen| == requested {
            FreeIdsExtend(used, g + 1, config.totalGpus);
            break;
          }
        }
      }
      ids := if |chosen| == requested then Ok(chosen) else Err;
    }

    // ----- queries -----

    /** SELECT of the pending top-level rows, in the order the scheduler tries them. */
    method NextPendingJobs() returns (jobs: seq<Job>)
      requires Valid()
      ensures |jobs| == |Queue(table)|
      ensures forall k :: 0 <= k < |jobs| ==> Queue(table)[k] in table.rows && jobs[k] == table.rows[Queue(table)[k]]
    {
      var entries := PendingEntries(table, table.next);
      PendingSelects(table, table.next);
      var ordered := OrderPendingJobs(entries);
      QueueHoldsPending(table);
      var rows := table.rows;
      ghost var q := Queue(table);
      forall k | 0 <= k < |ordered| ensures q[k] == ordered[k].id && ordered[k].id in rows {
        assert q[k] in q;
      }
      jobs := seq(|ordered|, k requires 0 <= k < |ordered| && ordered[k].id in rows => rows[ordered[k].id]);
    }
  }

  predicate Sets(before: map<JobId, Job>, after: map<JobId, Job>, id: JobId, r: Job) {
    after == before[id := r]
  }

  lemma UnchangedRow(t: Table, id: JobId)
    requires id in t.rows
    ensures t.rows[id := t.rows[id]] == t.rows
  {
  }

  lemma {:induction false} FreeIdsExtend(used: seq<nat>, m: nat, n: nat)
    requires m <= n
    ensures |FreeIds(used, m)| <= |FreeIds(used, n)| && FreeIds(used, n)[..|FreeIds(used, m)|] == FreeIds(used, m)
  {
    if m < n { FreeIdsExtend(used, m, n - 1); }
  }
}
