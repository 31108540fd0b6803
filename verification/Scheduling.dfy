/** The scheduling decision and the pass over the pending queue. */
module Scheduling {
  import opened Basics
  import opened Jobs
  import opened Accounting
  import opened PendingOrder

  /** An entry of the runner's table of processes. */
  datatype Tracked = Tracked(pgid: int, pid: int, adopted: bool, warned: bool)

  /** The daemon's whole state: the store's table and the runner's. */
  datatype State = State(table: Table, tracked: map<JobId, Tracked>)

  /** What a pass reads from outside: the clock, the process id each launch would
      get, if a process can be started at all, and the jobs whose set-up after
      that (the control group) fails. */
  datatype Env = Env(now: int, spawn: map<JobId, int>, unset: set<JobId>) {
    /** The launch would succeed, given its GPU ids. */
    predicate Launches(id: JobId) {
      id in spawn && id !in unset
    }
  }

  /** A process that the daemon has started for a job, recorded or not. */
  datatype Process = Process(job: JobId, pid: int)

  // ----- dependencies -----

  predicate HasActiveJobWithName(t: Table, userName: string, name: string, exclude: JobId) {
    exists id :: id in t.rows && id != exclude && t.rows[id].userName == userName && t.rows[id].name == name
                 && t.rows[id].state in {Pending, Running, Completing}
  }

  predicate TargetSatisfies(t: Table, kind: DependencyKind, id: int) {
    && id >= 0 && id in t.rows
    && var target := t.rows[id];
       match kind
       case After => target.startTime.Some? || target.state.IsTerminal()
       case AfterAny => target.state.IsTerminal()
       case AfterOk => target.state == Completed
       case AfterNotOk => target.state.IsTerminal() && target.state != Completed
       case UnknownKind => false
  }

  predicate ClauseSatisfied(t: Table, r: Job, c: Clause) {
    match c
    case Singleton => !HasActiveJobWithName(t, r.userName, r.name, r.id)
    case NoColon => false
    case On(kind, ids) => ids != [] && forall k :: 0 <= k < |ids| ==> TargetSatisfies(t, kind, ids[k])
  }

  predicate DependencySatisfied(t: Table, r: Job) {
    forall k :: 0 <= k < |r.dependency| ==> ClauseSatisfied(t, r, r.dependency[k])
  }

  // ----- the decision about one job -----

  /** `pending_block_reason`. */
  function BlockReason(t: Table, r: Job, now: int): Option<string> {
    if r.beginTime.Some? && r.beginTime.value > now then Some("BeginTime")
    else if r.held then Some("JobHeldUser")
    else if !DependencySatisfied(t, r) then Some("Dependency")
    else if r.arrayJobId.Some? && r.arrayTaskLimit.Some? && r.arrayTaskLimit.value > 0
            && RunningArrayTasks(t, r.arrayJobId.value) >= r.arrayTaskLimit.value
    then Some("JobArrayTaskLimit")
    else None
  }

  /** Why a job must wait, if it must. */
  function WaitReason(cfg: Config, t: Table, r: Job, now: int): Option<string> {
    var block := BlockReason(t, r, now);
    if block.Some? then block
    else if !JobFits(cfg, t, r) then Some("Resources")
    else None
  }

  // ----- the queue -----

  predicate IsPending(t: Table, id: JobId) {
    id in t.rows && t.rows[id].state == Pending && t.rows[id].parent.None?
  }

  function EntryOf(r: Job): Entry {
    Entry(r.id, r.arrayJobId, r.priority, r.submitTime)
  }

  /** The pending top-level rows below n, by id. */
  function PendingEntries(t: Table, n: nat): seq<Entry> {
    if n == 0 then []
    else PendingEntries(t, n - 1) + (if IsPending(t, n - 1) then [EntryOf(t.rows[n - 1])] else [])
  }

  function IdsOf(q: seq<Entry>): seq<JobId> {
    seq(|q|, i requires 0 <= i < |q| => q[i].id)
  }

  /** `next_pending_jobs`. */
  ghost function Queue(t: Table): seq<JobId> {
    IdsOf(QueueOrder(PendingEntries(t, t.next)))
  }

  function PendingLoad(r: Job): nat { if r.state == Pending && r.parent.None? then 1 else 0 }

  function PendingCount(t: Table): nat { Total(t.rows, PendingLoad, t.next) }

  lemma {:induction false} PendingSelects(t: Table, n: nat)
    requires WellNumbered(t)
    ensures DistinctIds(PendingEntries(t, n))
    ensures forall e :: e in PendingEntries(t, n) <==> IsPending(t, e.id) && e.id < n && e == EntryOf(t.rows[e.id])
  {
    if n > 0 {
      PendingSelects(t, n - 1);
      var front := PendingEntries(t, n - 1);
      forall i | 0 <= i < |front| ensures front[i].id < n - 1 { assert front[i] in front; }
    }
  }

  ghost predicate DistinctJobs(q: seq<JobId>) {
    forall i, j :: 0 <= i < j < |q| ==> q[i] != q[j]
  }

  /** The queue holds every pending top-level job once. */
  lemma QueueHoldsPending(t: Table)
    requires WellNumbered(t)
    ensures forall id :: id in Queue(t) <==> IsPending(t, id)
    ensures forall id :: id in Queue(t) ==> id in t.rows
    ensures DistinctJobs(Queue(t))
  {
    var jobs := PendingEntries(t, t.next);
    PendingSelects(t, t.next);
    QueueOrderElements(jobs);
    var q := QueueOrder(jobs);
    assert forall id :: IsPending(t, id) ==> id in t.rows;
    hide QueueOrder, PendingEntries, IsPending;
    forall id ensures id in Queue(t) <==> IsPending(t, id) {
      IdsOfSelects(q, id);
      if IsPending(t, id) {
        EntryOfPending(t, id);
        assert EntryOf(t.rows[id]) in jobs;
      }
    }
  }

  lemma EntryOfPending(t: Table, id: JobId)
    requires WellNumbered(t) && IsPending(t, id)
    ensures id in t.rows && EntryOf(t.rows[id]).id == id < t.next
  {
  }

  lemma IdsOfSelects(q: seq<Entry>, id: JobId)
    ensures id in IdsOf(q) <==> exists e :: e in q && e.id == id
  {
    if e :| e in q && e.id == id {
      var i :| 0 <= i < |q| && q[i] == e;
      assert IdsOf(q)[i] == id;
    }
    if id in IdsOf(q) {
      var i :| 0 <= i < |q| && IdsOf(q)[i] == id;
      assert q[i] in q;
    }
  }

  // ----- one scan -----

  predicate MayStart(cfg: Config, t: Table, now: int, id: JobId) {
    id in t.rows && WaitReason(cfg, t, t.rows[id], now).None?
  }

  /** Position of the first job that may start; the length of the queue if none may. */
  function FirstToStart(cfg: Config, t: Table, now: int, q: seq<JobId>): (i: nat)
    ensures i <= |q|
    ensures forall k :: 0 <= k < i ==> !MayStart(cfg, t, now, q[k])
    ensures i < |q| ==> MayStart(cfg, t, now, q[i])
  {
    if q == [] || MayStart(cfg, t, now, q[0]) then 0 else 1 + FirstToStart(cfg, t, now, q[1..])
  }

  /** The table after the given jobs have been told why they wait. */
  function Annotate(cfg: Config, t: Table, now: int, jobs: seq<JobId>): Table {
    t.(rows := map id | id in t.rows ::
         if id in jobs && WaitReason(cfg, t, t.rows[id], now).Some?
         then t.rows[id].(reason := WaitReason(cfg, t, t.rows[id], now).value)
         else t.rows[id])
  }

  /** The ids a launch takes. */
  function LaunchGpus(cfg: Config, t: Table, r: Job): Result<seq<nat>> {
    if cfg.IsGpuPartition(r.partition) then AllocateGpuIds(cfg, t, r.gpus) else Ok([])
  }

  /** `Runner::launch`: ids first, then the process, then the row and the table entry. */
  function TryLaunch(cfg: Config, s: State, id: JobId, env: Env): Option<State>
    requires id in s.table.rows
  {
    var r := s.table.rows[id];
    var gpus := LaunchGpus(cfg, s.table, r);
    if gpus.Err? || !env.Launches(id) then None
    else
      var pid := env.spawn[id];
      Some(State(s.table.(rows := s.table.rows[id := RunningRow(r, pid, pid, gpus.value, env.now)]),
                 s.tracked[id := Tracked(pid, pid, false, false)]))
  }

  /** The process a launch starts, whether or not its set-up then succeeds. */
  function LaunchSpawns(cfg: Config, t: Table, r: Job, env: Env): seq<Process> {
    if LaunchGpus(cfg, t, r).Ok? && r.id in env.spawn then [Process(r.id, env.spawn[r.id])] else []
  }

  /** A launch that starts a process and then fails: the process is recorded nowhere. */
  predicate Strays(cfg: Config, t: Table, r: Job, env: Env) {
    LaunchSpawns(cfg, t, r, env) != [] && r.id in env.unset
  }

  /** Starting a job that may start: an allocation needs only its row, other work is launched. */
  function TryStart(cfg: Config, s: State, id: JobId, env: Env): Option<State>
    requires id in s.table.rows
  {
    var r := s.table.rows[id];
    if r.allocationOnly
    then Some(s.(table := s.table.(rows := s.table.rows[id := AllocationRunningRow(r, env.now)])))
    else TryLaunch(cfg, s, id, env)
  }

  function StartSpawns(cfg: Config, t: Table, r: Job, env: Env): seq<Process> {
    if r.allocationOnly then [] else LaunchSpawns(cfg, t, r, env)
  }

  datatype PassResult = PassResult(state: State, ok: bool)

  /** Rows that differ at most in the reason shown. */
  predicate Alike(t: Table, u: Table) {
    && t.next == u.next && t.rows.Keys == u.rows.Keys
    && forall id :: id in t.rows ==> u.rows[id] == t.rows[id].(reason := u.rows[id].reason)
  }

  lemma AlikeTotals(t: Table, u: Table, load: Job -> nat)
    requires Alike(t, u)
    requires forall r: Job, reason: string :: load(r.(reason := reason)) == load(r)
    ensures Total(t.rows, load, t.next) == Total(u.rows, load, u.next)
  {
    forall id | 0 <= id < t.next
      ensures (if id in t.rows then load(t.rows[id]) else 0) == (if id in u.rows then load(u.rows[id]) else 0)
    {
      if id in t.rows { assert u.rows[id] == t.rows[id].(reason := u.rows[id].reason); }
    }
    TotalAgrees(t.rows, u.rows, load, t.next);
  }

  /** Reasons do not influence decisions. */
  lemma AlikeDecides(cfg: Config, t: Table, u: Table, r: Job, now: int, reason: string)
    requires Alike(t, u)
    ensures WaitReason(cfg, t, r, now) == WaitReason(cfg, u, r.(reason := reason), now)
  {
    AlikeFits(cfg, t, u, r, reason);
    AlikeBlocks(t, u, r, now, reason);
    hide JobFits, BlockReason, Alike;
  }

  lemma AlikeFits(cfg: Config, t: Table, u: Table, r: Job, reason: string)
    requires Alike(t, u)
    ensures JobFits(cfg, t, r) == JobFits(cfg, u, r.(reason := reason))
  {
    AlikeTotals(t, u, CpuLoad);
    AlikeTotals(t, u, MemoryLoad);
    AlikeTotals(t, u, GpuLoad);
    AlikeFlags(t, u);
    assert RunningUsage(t) == RunningUsage(u);
    hide RunningUsage, Total, Alike, AnyRunningTopLevel, AnyRunningExclusive;
  }

  lemma AlikeBlocks(t: Table, u: Table, r: Job, now: int, reason: string)
    requires Alike(t, u)
    ensures BlockReason(t, r, now) == BlockReason(u, r.(reason := reason), now)
  {
    if r.arrayJobId.Some? { AlikeTotals(t, u, ArrayLoad(r.arrayJobId.value)); }
    AlikeDependency(t, u, r, reason);
    hide DependencySatisfied, Total, Alike;
  }

  lemma AlikeFlags(t: Table, u: Table)
    requires Alike(t, u)
    ensures AnyRunningTopLevel(t) == AnyRunningTopLevel(u)
    ensures AnyRunningExclusive(t) == AnyRunningExclusive(u)
  {
  }

  lemma AlikeDependency(t: Table, u: Table, r: Job, reason: string)
    requires Alike(t, u)
    ensures DependencySatisfied(t, r) == DependencySatisfied(u, r.(reason := reason))
  {
  }

  lemma AnnotateIsAlike(cfg: Config, t: Table, now: int, jobs: seq<JobId>)
    ensures Alike(t, Annotate(cfg, t, now, jobs))
    ensures WellNumbered(t) ==> WellNumbered(Annotate(cfg, t, now, jobs))
  {
  }

  lemma AlikePending(t: Table, u: Table)
    requires Alike(t, u)
    ensures PendingCount(u) == PendingCount(t)
    ensures forall id :: IsPending(u, id) <==> IsPending(t, id)
    ensures u.rows.Keys == t.rows.Keys
  {
    AlikeTotals(t, u, PendingLoad);
  }

  /** A start takes exactly one job off the pending list. */
  lemma StartTakesPending(cfg: Config, s: State, id: JobId, env: Env)
    requires WellNumbered(s.table) && IsPending(s.table, id) && TryStart(cfg, s, id, env).Some?
    ensures var u := TryStart(cfg, s, id, env).value.table;
            && WellNumbered(u) && u.next == s.table.next && u.rows.Keys == s.table.rows.Keys
            && PendingCount(u) == PendingCount(s.table) - 1
  {
    var u := TryStart(cfg, s, id, env).value.table;
    TotalUpdate(s.table.rows, PendingLoad, s.table.next, id, u.rows[id]);
  }

  // ----- the pass -----

  /** `schedule_pending_jobs`: scan, start the first job that may start, and
      scan again, until a scan starts nothing or a launch fails. */
  ghost function Pass(cfg: Config, env: Env, s: State): PassResult
    requires WellNumbered(s.table)
    decreases PendingCount(s.table)
  {
    var q := Queue(s.table);
    var i := FirstToStart(cfg, s.table, env.now, q);
    var told := s.(table := Annotate(cfg, s.table, env.now, q[..i]));
    AnnotateIsAlike(cfg, s.table, env.now, q[..i]);
    if i == |q| then PassResult(told, true)
    else if TryStart(cfg, told, q[i], env).None? then PassResult(told, false)
    else
      QueueHoldsPending(s.table);
      AlikePending(s.table, told.table);
      assert q[i] in q;
      StartTakesPending(cfg, told, q[i], env);
      Pass(cfg, env, TryStart(cfg, told, q[i], env).value)
  }

  /** The processes a pass starts, in order, recorded or not. */
  ghost function PassSpawns(cfg: Config, env: Env, s: State): seq<Process>
    requires WellNumbered(s.table)
    decreases PendingCount(s.table)
  {
    var q := Queue(s.table);
    var i := FirstToStart(cfg, s.table, env.now, q);
    var told := s.(table := Annotate(cfg, s.table, env.now, q[..i]));
    AnnotateIsAlike(cfg, s.table, env.now, q[..i]);
    if i == |q| then []
    else
      StartSpawns(cfg, told.table, told.table.rows[q[i]], env)
      + if TryStart(cfg, told, q[i], env).None? then []
        else
          QueueHoldsPending(s.table);
          AlikePending(s.table, told.table);
          assert q[i] in q;
          StartTakesPending(cfg, told, q[i], env);
          PassSpawns(cfg, env, TryStart(cfg, told, q[i], env).value)
  }

  /** The job for which a pass starts a process and then fails. */
  ghost function PassStray(cfg: Config, env: Env, s: State): Option<JobId>
    requires WellNumbered(s.table)
    decreases PendingCount(s.table)
  {
    var q := Queue(s.table);
    var i := FirstToStart(cfg, s.table, env.now, q);
    var told := s.(table := Annotate(cfg, s.table, env.now, q[..i]));
    AnnotateIsAlike(cfg, s.table, env.now, q[..i]);
    if i == |q| then None
    else if TryStart(cfg, told, q[i], env).None? then
      if Strays(cfg, told.table, told.table.rows[q[i]], env) then Some(q[i]) else None
    else
      QueueHoldsPending(s.table);
      AlikePending(s.table, told.table);
      assert q[i] in q;
      StartTakesPending(cfg, told, q[i], env);
      PassStray(cfg, env, TryStart(cfg, told, q[i], env).value)
  }

  /** When a pass completes, every job still pending has a standing reason to
      wait, and its row shows that reason: nothing startable is left behind. */
  lemma {:induction false} PassIsMaximal(cfg: Config, env: Env, s: State)
    requires WellNumbered(s.table)
    ensures var p := Pass(cfg, env, s);
            && WellNumbered(p.state.table)
            && var u := p.state.table;
               p.ok ==> forall id :: IsPending(u, id) ==>
                          WaitReason(cfg, u, u.rows[id], env.now) == Some(u.rows[id].reason)
    decreases PendingCount(s.table)
  {
    hide Queue, TryStart, BlockReason, WellNumbered, PendingCount;
    var t := s.table;
    var q := Queue(t);
    var i := FirstToStart(cfg, t, env.now, q);
    var told := s.(table := Annotate(cfg, t, env.now, q[..i]));
    AnnotateIsAlike(cfg, t, env.now, q[..i]);
    QueueHoldsPending(t);
    AlikePending(t, told.table);
    if i == |q| {
      forall id | IsPending(told.table, id)
        ensures WaitReason(cfg, told.table, told.table.rows[id], env.now) == Some(told.table.rows[id].reason)
      {
        assert q[..i] == q && id in q;
        var k :| 0 <= k < |q| && q[k] == id;
        assert !MayStart(cfg, t, env.now, q[k]);
        AlikeDecides(cfg, t, told.table, t.rows[id], env.now, told.table.rows[id].reason);
      }
    } else if TryStart(cfg, told, q[i], env).Some? {
      assert q[i] in q;
      StartTakesPending(cfg, told, q[i], env);
      PassIsMaximal(cfg, env, TryStart(cfg, told, q[i], env).value);
    }
  }

  // ----- what a pass changes -----

  /** A row that shows, at most, another reason to wait. */
  predicate MerelyTold(r: Job, r': Job) {
    r' == r.(reason := r'.reason) && (r.state != Pending ==> r' == r)
  }

  /** A waiting row that was free to start, and the row of the started job. */
  predicate Started(r: Job, r': Job, now: int) {
    && r.state == Pending && r.parent.None? && !r.held && (r.beginTime.Some? ==> r.beginTime.value <= now)
    && (if r.allocationOnly then r' == AllocationRunningRow(r, now)
        else r'.pid.Some? && r' == RunningRow(r, r'.pid.value, r'.pid.value, r'.assignedGpus, now))
  }

  lemma ToldThen(r: Job, r1: Job, r2: Job, now: int)
    requires MerelyTold(r, r1)
    ensures MerelyTold(r1, r2) ==> MerelyTold(r, r2)
    ensures Started(r1, r2, now) ==> Started(r, r2, now)
  {
  }

  lemma StartedThen(r: Job, r1: Job, r2: Job, now: int)
    requires Started(r, r1, now) && (MerelyTold(r1, r2) || Started(r1, r2, now))
    ensures r2 == r1
  {
  }

  /** The rows after are those before, some told why they wait, some started; and
      the runner has gained exactly the started ones that are processes. */
  ghost predicate Passed(s: State, u: State, now: int) {
    && u.table.next == s.table.next && u.table.rows.Keys == s.table.rows.Keys
    && (forall id :: id in s.table.rows ==>
          MerelyTold(s.table.rows[id], u.table.rows[id]) || Started(s.table.rows[id], u.table.rows[id], now))
    && (forall id :: id in u.tracked <==>
          id in s.tracked
          || (id in s.table.rows && !s.table.rows[id].allocationOnly
              && Started(s.table.rows[id], u.table.rows[id], now)))
  }

  lemma ToldRows(cfg: Config, t: Table, now: int, q: seq<JobId>, id: JobId)
    requires id in t.rows && forall k :: 0 <= k < |q| ==> IsPending(t, q[k])
    ensures var u := Annotate(cfg, t, now, q); id in u.rows && MerelyTold(t.rows[id], u.rows[id])
    ensures id !in q ==> Annotate(cfg, t, now, q).rows[id] == t.rows[id]
  {
    hide WaitReason;
  }

  lemma StartedRow(cfg: Config, s: State, x: JobId, env: Env)
    requires IsPending(s.table, x) && MayStart(cfg, s.table, env.now, x) && TryStart(cfg, s, x, env).Some?
    ensures var u := TryStart(cfg, s, x, env).value;
            && u.table.next == s.table.next && u.table.rows.Keys == s.table.rows.Keys
            && Started(s.table.rows[x], u.table.rows[x], env.now)
            && (forall id :: id in s.table.rows && id != x ==> u.table.rows[id] == s.table.rows[id])
            && u.tracked.Keys == s.tracked.Keys + (if s.table.rows[x].allocationOnly then {} else {x})
  {
    hide JobFits, DependencySatisfied, AllocateGpuIds, RunningArrayTasks;
  }

  /** A told-and-started step, followed by what the rest of the pass did. */
  ghost predicate ThenPassed(s: State, told: State, s1: State, u: State, x: JobId, now: int) {
    && told.tracked == s.tracked && told.table.next == s.table.next && told.table.rows.Keys == s.table.rows.Keys
    && (forall id :: id in s.table.rows ==> MerelyTold(s.table.rows[id], told.table.rows[id]))
    && x in s.table.rows && s1.table.next == told.table.next && s1.table.rows.Keys == told.table.rows.Keys
    && Started(told.table.rows[x], s1.table.rows[x], now)
    && (forall id :: id in told.table.rows && id != x ==> s1.table.rows[id] == told.table.rows[id])
    && s1.tracked.Keys == told.tracked.Keys + (if told.table.rows[x].allocationOnly then {} else {x})
    && Passed(s1, u, now)
  }

  lemma RowOn(s: State, told: State, s1: State, u: State, x: JobId, now: int, id: JobId)
    requires ThenPassed(s, told, s1, u, x, now) && id in s.table.rows
    ensures id in s1.table.rows && id in u.table.rows
    ensures MerelyTold(s.table.rows[id], u.table.rows[id]) || Started(s.table.rows[id], u.table.rows[id], now)
    ensures if id == x then Started(s.table.rows[id], u.table.rows[id], now)
            else Started(s1.table.rows[id], u.table.rows[id], now) <==> Started(s.table.rows[id], u.table.rows[id], now)
    ensures told.table.rows[id].allocationOnly == s.table.rows[id].allocationOnly == s1.table.rows[id].allocationOnly
  {
    hide MerelyTold, Started;
    OneRowOn(s.table.rows[id], told.table.rows[id], s1.table.rows[id], u.table.rows[id], id == x, now);
  }

  lemma PassedOn(s: State, told: State, s1: State, u: State, x: JobId, now: int)
    requires ThenPassed(s, told, s1, u, x, now)
    ensures Passed(s, u, now)
  {
    hide MerelyTold, Started;
    forall id | id in s.table.rows
      ensures MerelyTold(s.table.rows[id], u.table.rows[id]) || Started(s.table.rows[id], u.table.rows[id], now)
    {
      RowOn(s, told, s1, u, x, now, id);
    }
    forall id: JobId
      ensures id in u.tracked
         <==> id in s.tracked
              || (id in s.table.rows && !s.table.rows[id].allocationOnly
                  && Started(s.table.rows[id], u.table.rows[id], now))
    {
      if id in s.table.rows { RowOn(s, told, s1, u, x, now, id); }
    }
  }

  lemma OneRowOn(r: Job, told: Job, r1: Job, r2: Job, started: bool, now: int)
    requires MerelyTold(r, told) && (MerelyTold(r1, r2) || Started(r1, r2, now))
    requires if started then Started(told, r1, now) else r1 == told
    ensures MerelyTold(r, r2) || Started(r, r2, now)
    ensures if started then Started(r, r2, now) else (Started(r1, r2, now) <==> Started(r, r2, now))
    ensures told.allocationOnly == r.allocationOnly == r1.allocationOnly
  {
    assert told.allocationOnly == r.allocationOnly == r1.allocationOnly;
    if started {
      StartedThen(told, r1, r2, now);
      ToldThen(r, told, r1, now);
    } else {
      ToldThen(r, told, r2, now);
      if Started(r, r2, now) { StartedFromTold(r, told, r2, now); }
    }
  }

  lemma StartedFromTold(r: Job, told: Job, r2: Job, now: int)
    requires MerelyTold(r, told) && Started(r, r2, now)
    ensures Started(told, r2, now)
  {
  }

  /** A pass, finished or cut short, starts only waiting jobs that are not held
      and whose begin time has come, and changes nothing else but reasons. */
  lemma {:induction false} PassIsExact(cfg: Config, env: Env, s: State)
    requires WellNumbered(s.table)
    ensures Passed(s, Pass(cfg, env, s).state, env.now)
    decreases PendingCount(s.table)
  {
    hide Annotate, TryStart, Queue, Alike, PendingCount, IsPending, MayStart, WellNumbered, Started, MerelyTold, Passed,
         DistinctJobs;
    var t := s.table;
    var q := Queue(t);
    var i := FirstToStart(cfg, t, env.now, q);
    var told := s.(table := Annotate(cfg, t, env.now, q[..i]));
    QueueHoldsPending(t);
    AnnotateIsAlike(cfg, t, env.now, q[..i]);
    AlikePending(t, told.table);
    assert told.table.next == t.next by { AlikeNext(t, told.table); }
    assert forall k :: 0 <= k < i ==> q[..i][k] == q[k] && q[k] in q;
    forall id | id in t.rows ensures MerelyTold(t.rows[id], told.table.rows[id]) {
      ToldRows(cfg, t, env.now, q[..i], id);
    }
    if i < |q| && TryStart(cfg, told, q[i], env).Some? {
      var x := q[i];
      assert x in q;
      ToldMayStart(cfg, t, env.now, q, i);
      var s' := TryStart(cfg, told, x, env).value;
      StartTakesPending(cfg, told, x, env);
      StartedRow(cfg, told, x, env);
      PassIsExact(cfg, env, s');
      PassedOn(s, told, s', Pass(cfg, env, s').state, x, env.now);
    } else {
      NobodyStarted(s, told, env.now);
    }
  }

  /** Telling the jobs before it does not stop a job from starting. */
  lemma ToldMayStart(cfg: Config, t: Table, now: int, q: seq<JobId>, i: nat)
    requires DistinctJobs(q) && i < |q| && q[i] in t.rows && MayStart(cfg, t, now, q[i])
    ensures MayStart(cfg, Annotate(cfg, t, now, q[..i]), now, q[i])
  {
    assert q[i] !in q[..i];
    hide MayStart, Annotate;
    AnnotateTwice(cfg, t, now, q[..i], q[i]);
  }

  lemma AlikeNext(t: Table, u: Table)
    requires Alike(t, u)
    ensures u.next == t.next
  {
  }

  lemma NobodyStarted(s: State, told: State, now: int)
    requires told.tracked == s.tracked && told.table.next == s.table.next && told.table.rows.Keys == s.table.rows.Keys
    requires forall id :: id in s.table.rows ==> MerelyTold(s.table.rows[id], told.table.rows[id])
    ensures Passed(s, told, now)
  {
    forall id | id in s.table.rows ensures !Started(s.table.rows[id], told.table.rows[id], now) {
      ToldIsNotStarted(s.table.rows[id], told.table.rows[id], now);
    }
  }

  lemma ToldIsNotStarted(r: Job, r': Job, now: int)
    requires MerelyTold(r, r')
    ensures !Started(r, r', now)
  {
  }

  // ----- the pass as one greedy scan -----

  /** A single walk over the queue: each job is started if it may start when its
      turn comes, and told why it waits otherwise. */
  function Greedy(cfg: Config, env: Env, s: State, q: seq<JobId>): PassResult
    requires forall id :: id in q ==> id in s.table.rows
    decreases |q|
  {
    if q == [] then PassResult(s, true)
    else if !MayStart(cfg, s.table, env.now, q[0]) then
      Greedy(cfg, env, s.(table := Annotate(cfg, s.table, env.now, [q[0]])), q[1..])
    else
      var started := TryStart(cfg, s, q[0], env);
      if started.None? then PassResult(s, false) else Greedy(cfg, env, started.value, q[1..])
  }

  /** The pending jobs carry no array membership and no `after` clause. */
  ghost predicate Plain(t: Table) {
    forall id :: IsPending(t, id) ==>
      && t.rows[id].arrayJobId.None?
      && forall k :: 0 <= k < |t.rows[id].dependency| ==>
                       !(t.rows[id].dependency[k].On? && t.rows[id].dependency[k].kind.After?)
  }

  lemma AnnotateTwice(cfg: Config, t: Table, now: int, q: seq<JobId>, id: JobId)
    requires id in t.rows && id !in q
    ensures var u := Annotate(cfg, t, now, q);
            && MayStart(cfg, u, now, id) == MayStart(cfg, t, now, id)
            && Annotate(cfg, u, now, [id]) == Annotate(cfg, t, now, q + [id])
  {
    var u := Annotate(cfg, t, now, q);
    AnnotateIsAlike(cfg, t, now, q);
    AlikeDecides(cfg, t, u, t.rows[id], now, t.rows[id].reason);
    assert u.rows[id] == t.rows[id].(reason := t.rows[id].reason);
    var a, b := Annotate(cfg, u, now, [id]), Annotate(cfg, t, now, q + [id]);
    assert forall x :: x in q + [id] <==> x in q || x == id;
    assert a.rows == b.rows;
  }

  /** The walk over jobs that cannot start only leaves them their reasons. */
  lemma {:induction false} GreedySkips(cfg: Config, env: Env, s: State, q: seq<JobId>, n: nat)
    requires (forall id :: id in q ==> id in s.table.rows) && DistinctJobs(q)
    requires n <= |q| && forall k :: 0 <= k < n ==> !MayStart(cfg, s.table, env.now, q[k])
    ensures Greedy(cfg, env, s, q) == Greedy(cfg, env, s.(table := Annotate(cfg, s.table, env.now, q[..n])), q[n..])
  {
    if n == 0 {
      assert Annotate(cfg, s.table, env.now, q[..0]).rows == s.table.rows;
      assert q[0..] == q;
    } else {
      GreedySkips(cfg, env, s, q, n - 1);
      var id := q[n - 1];
      assert q[..n] == q[..n - 1] + [id] && q[n - 1..][0] == id && q[n - 1..][1..] == q[n..];
      assert id in q && id !in q[..n - 1];
      AnnotateTwice(cfg, s.table, env.now, q[..n - 1], id);
    }
  }

  /** The step from t to u: job x went from pending to running, rows otherwise differ only in reasons. */
  predicate OneStarted(t: Table, u: Table, x: JobId) {
    && t.next == u.next && t.rows.Keys == u.rows.Keys && IsPending(t, x)
    && (forall id :: id in t.rows && id != x ==> u.rows[id] == t.rows[id].(reason := u.rows[id].reason))
    && var r, v := t.rows[x], u.rows[x];
       v == r.(state := Running, reason := v.reason, startTime := v.startTime, pid := v.pid, pgid := v.pgid,
               assignedGpus := v.assignedGpus)
  }

  lemma StartIsOneStarted(cfg: Config, t: Table, env: Env, told: State, x: JobId)
    requires Alike(t, told.table) && IsPending(t, x) && TryStart(cfg, told, x, env).Some?
    ensures OneStarted(t, TryStart(cfg, told, x, env).value.table, x)
  {
  }

  lemma RowLoadsGrow(t: Table, u: Table, x: JobId, id: JobId)
    requires OneStarted(t, u, x) && id in t.rows
    ensures id in u.rows
    ensures CpuLoad(t.rows[id]) <= CpuLoad(u.rows[id])
    ensures MemoryLoad(t.rows[id]) <= MemoryLoad(u.rows[id])
    ensures GpuLoad(t.rows[id]) <= GpuLoad(u.rows[id])
  {
  }

  lemma LoadsGrow(t: Table, u: Table, x: JobId, load: Job -> nat)
    requires OneStarted(t, u, x)
    requires load in {CpuLoad, MemoryLoad, GpuLoad}
    ensures Total(t.rows, load, t.next) <= Total(u.rows, load, u.next)
  {
    assert t.next == u.next;
    forall id | id in t.rows ensures id in u.rows && load(t.rows[id]) <= load(u.rows[id]) {
      RowLoadsGrow(t, u, x, id);
    }
    hide OneStarted, CpuLoad, MemoryLoad, GpuLoad;
    TotalGrows(t.rows, u.rows, load, t.next);
  }

  /** Fitting is antitone in what runs. */
  lemma FitsIsAntitone(cfg: Config, t: Table, u: Table, x: JobId, r: Job, reason: string)
    requires OneStarted(t, u, x) && !JobFits(cfg, t, r)
    ensures !JobFits(cfg, u, r.(reason := reason))
  {
    LoadsGrow(t, u, x, CpuLoad);
    LoadsGrow(t, u, x, MemoryLoad);
    LoadsGrow(t, u, x, GpuLoad);
    assert forall id :: id in t.rows && Holds(t.rows[id]) ==>
             id in u.rows && Holds(u.rows[id]) && (u.rows[id].exclusive <==> t.rows[id].exclusive);
  }

  /** Without `after` clauses a dependency does not notice a start. */
  lemma DependencyUnmoved(t: Table, u: Table, x: JobId, r: Job, reason: string)
    requires OneStarted(t, u, x)
    requires forall k :: 0 <= k < |r.dependency| ==> !(r.dependency[k].On? && r.dependency[k].kind.After?)
    ensures DependencySatisfied(t, r) == DependencySatisfied(u, r.(reason := reason))
  {
  }

  /** A job that had to wait before a start has to wait, for the same reason, after it. */
  lemma WaitersKeepWaiting(cfg: Config, t: Table, u: Table, x: JobId, id: JobId, now: int)
    requires OneStarted(t, u, x) && Plain(t) && IsPending(t, id) && id != x
    requires WaitReason(cfg, t, t.rows[id], now).Some?
    ensures WaitReason(cfg, u, u.rows[id], now) == WaitReason(cfg, t, t.rows[id], now)
  {
    var r := t.rows[id];
    DependencyUnmoved(t, u, x, r, u.rows[id].reason);
    if BlockReason(t, r, now).None? {
      FitsIsAntitone(cfg, t, u, x, r, u.rows[id].reason);
    }
  }

  /** Starting a job removes it from the queue and leaves the rest in place. */
  lemma QueueAfterStart(t: Table, u: Table, i: nat)
    requires WellNumbered(t) && WellNumbered(u) && Plain(t)
    requires i < |Queue(t)| && OneStarted(t, u, Queue(t)[i])
    ensures Queue(u) == Queue(t)[..i] + Queue(t)[i + 1..] && Plain(u)
  {
    var jobs, rest := PendingEntries(t, t.next), PendingEntries(u, u.next);
    var q := QueueOrder(jobs);
    assert Queue(t) == IdsOf(q) && Queue(u) == IdsOf(QueueOrder(rest));
    var shorter := q[..i] + q[i + 1..];
    assert IdsOf(shorter) == IdsOf(q)[..i] + IdsOf(q)[i + 1..];
    StillPlain(t, u, q[i].id);
    PlainQueueIsSorted(t);
    PlainQueueIsSorted(u);
    PendingAfterStart(t, u, q[i].id);
    hide Queue, Plain, OneStarted, PendingEntries, QueueOrder, IsPending, WellNumbered, IdsOf;
    WithoutOne(q, i, jobs, rest);
    BeforeIsStrict(rest);
    SameQueue(QueueOrder(rest), shorter, rest);
  }

  lemma SameQueue(a: seq<Entry>, b: seq<Entry>, jobs: seq<Entry>)
    requires DistinctIds(jobs) && SameElements(a, jobs) && SameElements(jobs, b)
    requires Sorted(a, Before) && Sorted(b, Before)
    ensures a == b
  {
    BeforeIsStrict(jobs);
    SortedOnce(a, b, Before);
  }

  lemma StillPlain(t: Table, u: Table, x: JobId)
    requires Plain(t) && OneStarted(t, u, x)
    ensures Plain(u)
  {
  }

  lemma PlainQueueIsSorted(t: Table)
    requires WellNumbered(t) && Plain(t)
    ensures var jobs := PendingEntries(t, t.next);
            && DistinctIds(jobs) && SameElements(QueueOrder(jobs), jobs) && Sorted(QueueOrder(jobs), Before)
  {
    var jobs := PendingEntries(t, t.next);
    PendingSelects(t, t.next);
    BeforeIsStrict(jobs);
    SortBySorts(jobs, Before);
    NoArraysMeansSorted(jobs);
  }

  lemma PendingAfterStart(t: Table, u: Table, x: JobId)
    requires WellNumbered(t) && WellNumbered(u) && OneStarted(t, u, x)
    ensures forall e :: e in PendingEntries(u, u.next) <==> e in PendingEntries(t, t.next) && e.id != x
  {
    PendingSelects(t, t.next);
    PendingSelects(u, u.next);
    forall id ensures IsPending(u, id) <==> IsPending(t, id) && id != x {
    }
    forall id | IsPending(u, id) ensures EntryOf(u.rows[id]) == EntryOf(t.rows[id]) {
    }
  }

  lemma ShorterIsSorted(q: seq<Entry>, i: nat)
    requires Sorted(q, Before) && i < |q|
    ensures Sorted(q[..i] + q[i + 1..], Before)
  {
    hide Before;
  }

  lemma SortedDiffer(q: seq<Entry>, k: nat, i: nat)
    requires Sorted(q, Before) && k < |q| && i < |q| && k != i
    ensures q[k] != q[i]
  {
    assert Before(q[k], q[i]) || Before(q[i], q[k]);
  }

  lemma WithoutOne(q: seq<Entry>, i: nat, jobs: seq<Entry>, rest: seq<Entry>)
    requires DistinctIds(jobs) && SameElements(q, jobs) && Sorted(q, Before) && i < |q|
    requires forall e :: e in rest <==> e in jobs && e.id != q[i].id
    ensures var shorter := q[..i] + q[i + 1..]; SameElements(rest, shorter) && Sorted(shorter, Before)
  {
    var shorter := q[..i] + q[i + 1..];
    ShorterIsSorted(q, i);
    hide Sorted, Before;
    forall k | 0 <= k < |q| && k != i ensures q[k].id != q[i].id {
      assert q[k] in q && q[i] in q;
      SortedDiffer(q, k, i);
      var a :| 0 <= a < |jobs| && jobs[a] == q[k];
      var b :| 0 <= b < |jobs| && jobs[b] == q[i];
    }
    forall e ensures e in rest <==> e in shorter {
      if e in rest {
        assert e in q;
        var k :| 0 <= k < |q| && q[k] == e;
        assert k < i ==> shorter[k] == e;
        assert k > i ==> shorter[k - 1] == e;
      }
      if e in shorter {
        var k :| 0 <= k < |shorter| && shorter[k] == e;
        assert e == q[if k < i then k else k + 1];
        assert e in q;
      }
    }
  }

  /** The restart loop and the single greedy walk reach the same state, with the
      same verdict, whenever the pending jobs are plain. */
  lemma {:induction false} PassIsGreedy(cfg: Config, env: Env, s: State)
    requires WellNumbered(s.table) && Plain(s.table)
    ensures (forall id :: id in Queue(s.table) ==> id in s.table.rows)
    ensures Pass(cfg, env, s) == Greedy(cfg, env, s, Queue(s.table))
    decreases PendingCount(s.table)
  {
    hide Annotate, TryStart, Queue, Plain, OneStarted, Alike, PendingCount, IsPending, MayStart, WellNumbered;
    var t := s.table;
    var q := Queue(t);
    var i := FirstToStart(cfg, t, env.now, q);
    var told := s.(table := Annotate(cfg, t, env.now, q[..i]));
    QueueHoldsPending(t);
    AnnotateIsAlike(cfg, t, env.now, q[..i]);
    AlikePending(t, told.table);
    GreedySkips(cfg, env, s, q, i);
    if i < |q| {
      var x := q[i];
      assert x in q;
      ToldMayStart(cfg, t, env.now, q, i);
      assert q[i..] == [x] + q[i + 1..];
      GreedyStarts(cfg, env, told, x, q[i + 1..]);
      if TryStart(cfg, told, x, env).Some? {
        var s' := TryStart(cfg, told, x, env).value;
        StartTakesPending(cfg, told, x, env);
        StartIsOneStarted(cfg, t, env, told, x);
        QueueAfterStart(t, s'.table, i);
        PassIsGreedy(cfg, env, s');
        ToldKeepReasons(cfg, env, s, told, s', q, i);
        SkippedStaySkipped(cfg, env, s, s', q, Queue(s'.table), i);
      }
    }
  }

  lemma GreedyStarts(cfg: Config, env: Env, s: State, x: JobId, tail: seq<JobId>)
    requires x in s.table.rows && (forall id :: id in tail ==> id in s.table.rows) && MayStart(cfg, s.table, env.now, x)
    ensures forall id :: id in [x] + tail ==> id in s.table.rows
    ensures Greedy(cfg, env, s, [x] + tail)
         == var started := TryStart(cfg, s, x, env);
            if started.None? then PassResult(s, false) else Greedy(cfg, env, started.value, tail)
  {
  }

  lemma ToldKeepReasons(cfg: Config, env: Env, s: State, told: State, s': State, q: seq<JobId>, i: nat)
    requires (forall id :: id in q ==> id in s.table.rows) && DistinctJobs(q) && i < |q|
    requires told == s.(table := Annotate(cfg, s.table, env.now, q[..i]))
    requires TryStart(cfg, told, q[i], env) == Some(s')
    requires forall k :: 0 <= k < i ==> !MayStart(cfg, s.table, env.now, q[k])
    ensures forall k :: 0 <= k < i ==>
              && q[k] in s'.table.rows
              && WaitReason(cfg, s.table, s.table.rows[q[k]], env.now) == Some(s'.table.rows[q[k]].reason)
  {
  }

  /** The jobs passed over before a start are passed over again, and nothing changes for them. */
  lemma SkippedStaySkipped(cfg: Config, env: Env, s: State, s': State, q: seq<JobId>, p: seq<JobId>, i: nat)
    requires Plain(s.table) && i < |q| && DistinctJobs(q) && (forall id :: id in q ==> IsPending(s.table, id))
    requires OneStarted(s.table, s'.table, q[i])
    requires forall k :: 0 <= k < i ==>
               && q[k] in s'.table.rows
               && WaitReason(cfg, s.table, s.table.rows[q[k]], env.now) == Some(s'.table.rows[q[k]].reason)
    requires p == q[..i] + q[i + 1..]
    ensures forall id :: id in p ==> id in s'.table.rows
    ensures Greedy(cfg, env, s', p) == Greedy(cfg, env, s', q[i + 1..])
  {
    forall id | id in p ensures id in s'.table.rows {
      assert id in q;
    }
    forall k | 0 <= k < i
      ensures WaitReason(cfg, s'.table, s'.table.rows[p[k]], env.now) == Some(s'.table.rows[p[k]].reason)
    {
      assert p[k] == q[k];
      WaitersKeepWaiting(cfg, s.table, s'.table, q[i], q[k], env.now);
    }
    assert DistinctJobs(p);
    NothingToTell(cfg, s'.table, env.now, p[..i]);
    hide OneStarted, Plain, IsPending, WaitReason, Annotate;
    GreedySkips(cfg, env, s', p, i);
    assert p[i..] == q[i + 1..];
  }

  /** Telling jobs the reasons they already show changes nothing. */
  lemma NothingToTell(cfg: Config, t: Table, now: int, q: seq<JobId>)
    requires forall k :: 0 <= k < |q| ==>
               q[k] in t.rows && WaitReason(cfg, t, t.rows[q[k]], now) == Some(t.rows[q[k]].reason)
    ensures Annotate(cfg, t, now, q) == t
  {
  }
}
