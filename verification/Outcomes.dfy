/** When operations succeed, and what it means that they did. */
module Outcomes {
  import opened Basics
  import opened Jobs
  import opened Accounting
  import opened Scheduling
  import opened Lifecycle
  import opened History
  import opened Operations
  import opened Conformance
  import opened TimeLimits

  // ----- cancelling -----

  /** The process was killed for lack of memory, and the job still has a requeue. */
  predicate EscapesCancel(r: Job, wait: Wait) {
    r.state == Running && wait.Waited? && wait.exit.oomKilled && r.parent.None? && r.requeue && r.requeueCount == 0
  }

  /** A confirmed cancel means that the job is over, with one exception: killed for
      lack of memory at that moment, a job that may be requeued goes back to
      waiting, and may run again. A refused one either changes nothing, or has
      waited for the process in vain and leaves the job COMPLETING. */
  lemma CancelMeans(cfg: Config, s: State, id: JobId, wait: Wait, now: int)
    requires Safe(cfg, s)
    ensures var reply := JobCancelled(s, id, wait, now); var t, u := s.table, reply.state.table;
            && (reply.response == CancelDone(id) ==>
                  && id in t.rows && id in u.rows && id !in reply.state.tracked
                  && (u.rows[id].state.IsTerminal() <==> !EscapesCancel(t.rows[id], wait))
                  && (EscapesCancel(t.rows[id], wait) ==> u.rows[id].state == Pending && u.rows[id].requeueCount == 1))
            && (reply.response == Refused ==>
                  if CancelFails(s, id, wait) then
                    id in u.rows && u.rows[id].state == Completing && id !in reply.state.tracked
                  else reply.state == s)
            && (reply.response == Refused <==>
                  CancelFails(s, id, wait) || (id !in s.tracked && !(id in t.rows && t.rows[id].state == Pending)))
  {
    if id in s.tracked {
      assert id in s.table.rows && s.table.rows[id].state == Running;
      if wait.Waited? { CancelEnds(s.table.rows[id], s.tracked[id], wait, now); }
    }
    if id in s.table.rows { PendingIsUntracked(cfg, s, id); }
    hide Safe, FinishedRow, TerminationEnding;
  }

  lemma PendingIsUntracked(cfg: Config, s: State, id: JobId)
    requires Safe(cfg, s) && id in s.table.rows
    ensures s.table.rows[id].state == Pending ==> id !in s.tracked
  {
  }

  lemma CancelEnds(r: Job, x: Tracked, wait: Wait, now: int)
    requires r.state == Running && wait.Waited?
    ensures var r' := FinishedRow(MarkedRow(r, Completing, "CancelledByUser"),
                        TerminationEnding(x, wait.exit, wait.inTime, JobState.Cancelled, "CancelledByUser"), now);
            && (r'.state.IsTerminal() <==> !EscapesCancel(r, wait))
            && (EscapesCancel(r, wait) ==> r'.state == Pending && r'.requeueCount == 1)
  {
  }

  // ----- launching -----

  /** In a safe state a job that fits is launched exactly if the system gives it a
      process and that process its set-up: GPU ids are always there. The launch
      starts a process even if the set-up fails, and then records nothing. */
  lemma LaunchExactly(cfg: Config, s: State, id: JobId, env: Env)
    requires Safe(cfg, s) && IsPending(s.table, id) && !s.table.rows[id].allocationOnly
    requires JobFits(cfg, s.table, s.table.rows[id])
    ensures var r, launched := s.table.rows[id], TryLaunch(cfg, s, id, env);
            && (launched.Some? <==> env.Launches(id))
            && (launched.Some? ==>
                  && RowAttempts(launched.value.table.rows[id]) == RowAttempts(r) + 1
                  && launched.value.tracked.Keys == s.tracked.Keys + {id})
            && LaunchSpawns(cfg, s.table, r, env) == (if id in env.spawn then [Process(id, env.spawn[id])] else [])
            && (Strays(cfg, s.table, r, env) <==> id in env.spawn && launched.None?)
  {
    assert RowShape(s.table.rows[id]);
    FittingFindsGpus(cfg, s.table, s.table.rows[id]);
    hide JobFits, AllocateGpuIds;
  }

  // ----- the scheduling pass -----

  /** An environment like the given one in which, besides, every waiting job could be launched. */
  ghost predicate Idealizes(full: Env, env: Env, t: Table) {
    && full.now == env.now && Spawnable(t, full)
    && forall id :: env.Launches(id) ==> full.Launches(id) && full.spawn[id] == env.spawn[id]
  }

  /** The given environment with a process for every row that has none. */
  function Ideal(env: Env, t: Table): (full: Env)
    ensures Idealizes(full, env, t)
  {
    var spawn := map id: JobId | id in t.rows.Keys + env.spawn.Keys :: if env.Launches(id) then env.spawn[id] else 1;
    Env(env.now, spawn, {})
  }

  /** Every process that was started on the way from one state to the other can be launched. */
  ghost predicate AllLaunch(s: State, u: State, env: Env) {
    forall id :: StartsProcess(s, u, id, env.now) ==> env.Launches(id)
  }

  predicate StartsProcess(s: State, u: State, id: JobId, now: int) {
    && id in s.table.rows && id in u.table.rows && !s.table.rows[id].allocationOnly
    && Started(s.table.rows[id], u.table.rows[id], now)
  }

  lemma IdealStart(cfg: Config, s: State, id: JobId, env: Env, full: Env)
    requires Safe(cfg, s) && IsPending(s.table, id) && MayStart(cfg, s.table, env.now, id)
    requires Idealizes(full, env, s.table)
    ensures TryStart(cfg, s, id, full).Some? && Idealizes(full, env, TryStart(cfg, s, id, full).value.table)
    ensures TryStart(cfg, s, id, env)
         == if s.table.rows[id].allocationOnly || env.Launches(id) then TryStart(cfg, s, id, full) else None
  {
    FittingFindsGpus(cfg, s.table, s.table.rows[id]);
    FittingStarts(cfg, s, id, full);
    hide Safe, JobFits, BlockReason, AllocateGpuIds, MayStart, Spawnable;
  }

  lemma FirstStartMatters(s: State, s1: State, u: State, x: JobId, env: Env)
    requires x in s.table.rows && s1.table.rows.Keys == s.table.rows.Keys == u.table.rows.Keys
    requires Started(s.table.rows[x], u.table.rows[x], env.now)
    requires s1.table.rows[x].allocationOnly == s.table.rows[x].allocationOnly
    requires forall id :: id in s.table.rows && id != x ==>
               && (Started(s1.table.rows[id], u.table.rows[id], env.now)
                   <==> Started(s.table.rows[id], u.table.rows[id], env.now))
               && s1.table.rows[id].allocationOnly == s.table.rows[id].allocationOnly
    ensures if s.table.rows[x].allocationOnly || env.Launches(x) then AllLaunch(s, u, env) <==> AllLaunch(s1, u, env)
            else !AllLaunch(s, u, env)
  {
    hide Started;
    if s.table.rows[x].allocationOnly || env.Launches(x) {
      if AllLaunch(s1, u, env) {
        forall id | StartsProcess(s, u, id, env.now)
          ensures env.Launches(id)
        {
        }
      }
    }
  }

  /** What the first start of a pass does. */
  lemma PassStarts(cfg: Config, env: Env, s: State, q: seq<JobId>, i: nat)
    requires WellNumbered(s.table) && q == Queue(s.table) && i == FirstToStart(cfg, s.table, env.now, q) && i < |q|
    requires q[i] in s.table.rows
    requires var told := s.(table := Annotate(cfg, s.table, env.now, q[..i]));
             TryStart(cfg, told, q[i], env).Some? && WellNumbered(TryStart(cfg, told, q[i], env).value.table)
    ensures var x, told := q[i], s.(table := Annotate(cfg, s.table, env.now, q[..i]));
            var s1 := TryStart(cfg, told, x, env).value; var u := Pass(cfg, env, s1).state;
            && s1.table.rows.Keys == s.table.rows.Keys == u.table.rows.Keys
            && Started(s.table.rows[x], u.table.rows[x], env.now)
            && s1.table.rows[x].allocationOnly == s.table.rows[x].allocationOnly
            && (forall id :: id in s.table.rows && id != x ==>
                  && (Started(s1.table.rows[id], u.table.rows[id], env.now)
                      <==> Started(s.table.rows[id], u.table.rows[id], env.now))
                  && s1.table.rows[id].allocationOnly == s.table.rows[id].allocationOnly)
  {
    hide Annotate, TryStart, Queue, Alike, IsPending, MayStart, WellNumbered, Started, MerelyTold, Passed, DistinctJobs;
    var t, x := s.table, q[i];
    var told := s.(table := Annotate(cfg, t, env.now, q[..i]));
    QueueHoldsPending(t);
    AnnotateIsAlike(cfg, t, env.now, q[..i]);
    AlikePending(t, told.table);
    AlikeNext(t, told.table);
    assert forall k :: 0 <= k < i ==> q[..i][k] == q[k] && q[k] in q;
    assert x in q;
    ToldMayStart(cfg, t, env.now, q, i);
    forall id | id in t.rows ensures MerelyTold(t.rows[id], told.table.rows[id]) {
      ToldRows(cfg, t, env.now, q[..i], id);
    }
    var s1 := TryStart(cfg, told, x, env).value;
    StartedRow(cfg, told, x, env);
    PassIsExact(cfg, env, s1);
    PassedKeys(s1, Pass(cfg, env, s1).state, env.now);
    assert ThenPassed(s, told, s1, Pass(cfg, env, s1).state, x, env.now);
    hide ThenPassed;
    forall id | id in t.rows
      ensures if id == x then Started(t.rows[id], Pass(cfg, env, s1).state.table.rows[id], env.now)
              else Started(s1.table.rows[id], Pass(cfg, env, s1).state.table.rows[id], env.now)
                   <==> Started(t.rows[id], Pass(cfg, env, s1).state.table.rows[id], env.now)
      ensures s1.table.rows[id].allocationOnly == t.rows[id].allocationOnly
    {
      RowOn(s, told, s1, Pass(cfg, env, s1).state, x, env.now, id);
    }
  }

  lemma PassedKeys(s: State, u: State, now: int)
    requires Passed(s, u, now)
    ensures u.table.rows.Keys == s.table.rows.Keys
  {
  }

  /** A pass completes exactly if every job that reaches its start can be launched:
      every job that a pass would start if all could be. So it fails for lack of a
      process only; GPU ids are always there. */
  lemma {:induction false} PassOkExactly(cfg: Config, env: Env, full: Env, s: State)
    requires cfg.Valid() && Safe(cfg, s) && Idealizes(full, env, s.table)
    ensures Pass(cfg, env, s).ok <==> AllLaunch(s, Pass(cfg, full, s).state, env)
    decreases PendingCount(s.table)
  {
    hide Annotate, TryStart, Queue, Alike, PendingCount, IsPending, MayStart, Safe;
    hide Spawnable, Idealizes, AllLaunch, Started;
    var t := s.table;
    var q := Queue(t);
    var i := FirstToStart(cfg, t, env.now, q);
    var told := s.(table := Annotate(cfg, t, env.now, q[..i]));
    SafeIsConsistent(cfg, s);
    IdealNow(full, env, t);
    QueueHoldsPending(t);
    AnnotateIsAlike(cfg, t, env.now, q[..i]);
    AlikePending(t, told.table);
    if i < |q| {
      var x := q[i];
      assert x in q;
      ScanKeepsSafe(cfg, full, s, q, i);
      ToldIdeal(cfg, t, q[..i], env, full);
      IdealStart(cfg, told, x, env, full);
      var s1 := TryStart(cfg, told, x, full).value;
      StartTakesPending(cfg, told, x, full);
      PassStarts(cfg, full, s, q, i);
      FirstStartMatters(s, s1, Pass(cfg, full, s1).state, x, env);
      ToldKind(cfg, t, q[..i], env.now, x);
      if told.table.rows[x].allocationOnly || env.Launches(x) {
        StartReaches(cfg, told, x, full, ANYHOW);
        ReachesKeepsSafe(cfg, told, s1, ANYHOW);
        PassOkExactly(cfg, env, full, s1);
      }
    } else {
      NoneLaunched(cfg, s, q, env);
    }
  }

  lemma IdealNow(full: Env, env: Env, t: Table)
    requires Idealizes(full, env, t)
    ensures full.now == env.now && Spawnable(t, full)
  {
  }

  lemma ToldIdeal(cfg: Config, t: Table, q: seq<JobId>, env: Env, full: Env)
    requires Idealizes(full, env, t)
    ensures Idealizes(full, env, Annotate(cfg, t, env.now, q))
  {
    ToldSpawnable(cfg, t, q, full);
  }

  lemma ToldKind(cfg: Config, t: Table, q: seq<JobId>, now: int, id: JobId)
    requires id in t.rows
    ensures id in Annotate(cfg, t, now, q).rows
    ensures Annotate(cfg, t, now, q).rows[id].allocationOnly == t.rows[id].allocationOnly
  {
  }

  lemma NoneLaunched(cfg: Config, s: State, q: seq<JobId>, env: Env)
    requires WellNumbered(s.table) && q == Queue(s.table)
    ensures AllLaunch(s, s.(table := Annotate(cfg, s.table, env.now, q[..|q|])), env)
  {
    QueueHoldsPending(s.table);
    assert forall k :: 0 <= k < |q| ==> q[..|q|][k] == q[k] && q[k] in q;
    hide Annotate, Queue, IsPending, Started, MerelyTold;
    forall id | id in s.table.rows
      ensures id in Annotate(cfg, s.table, env.now, q[..|q|]).rows
      ensures !Started(s.table.rows[id], Annotate(cfg, s.table, env.now, q[..|q|]).rows[id], env.now)
    {
      ToldRows(cfg, s.table, env.now, q[..|q|], id);
      ToldIsNotStarted(s.table.rows[id], Annotate(cfg, s.table, env.now, q[..|q|]).rows[id], env.now);
    }
  }

  // ----- a turn of the main loop -----

  lemma BeforePassIsSafe(cfg: Config, s: State, w: World)
    requires cfg.Valid() && Safe(cfg, s)
    ensures Safe(cfg, BeforePass(s, w))
  {
    hide Safe, Reaches, Enforce, Polled, Reconciled;
    var now := w.env.now;
    var e := Enforce(s, w.order, w.waits, now).state;
    SafeIsConsistent(cfg, s);
    EnforceReaches(cfg, s, w.order, w.waits, now, ANYHOW);
    ReachesKeepsSafe(cfg, s, e, ANYHOW);
    SafeIsConsistent(cfg, e);
    PolledReaches(cfg, e, w.exits, now, ANYHOW);
    var p := Polled(e, w.exits, now);
    ReachesKeepsSafe(cfg, e, p, ANYHOW);
    SafeIsConsistent(cfg, p);
    ReconciledReaches(cfg, p, w.lost, now, ANYHOW);
    ReachesKeepsSafe(cfg, p, Reconciled(p, w.lost, now), ANYHOW);
  }

  /** No wait for an overdue job fails, and no warning that is due asks for a
      signal that does not exist. */
  predicate LimitsGoThrough(s: State, w: World) {
    && (forall id :: id in OverdueIds(s, w.env.now) ==> WaitFor(w.waits, id).Waited?)
    && forall id :: id in s.tracked && id !in OverdueIds(s, w.env.now) && WarningDue(s, id, w.env.now).Some? ==>
                      IsSignal(WarningDue(s, id, w.env.now).value)
  }

  /** A turn goes through, and the daemon lives on, exactly if the time limits do and
      every job that reaches its start can be launched: every job that the turn
      would start if all could be. */
  lemma TickOkExactly(cfg: Config, s: State, w: World)
    requires cfg.Valid() && Safe(cfg, s) && (forall id :: id in w.order <==> id in s.tracked)
    ensures Numbered(s.table) && Numbered(BeforePass(s, w).table)
    ensures forall id :: id in s.tracked ==> id in s.table.rows
    ensures var before := BeforePass(s, w); var full := Ideal(w.env, before.table);
            Tick(cfg, s, w).ok <==> LimitsGoThrough(s, w) && AllLaunch(before, Pass(cfg, full, before).state, w.env)
  {
    SafeIsConsistent(cfg, s);
    assert TrackedRuns(s);
    hide Safe, Enforce, Polled, Reconciled, Pass, AllLaunch, Idealizes, WarningDue, OverdueIds, Ideal;
    BeforePassIsSafe(cfg, s, w);
    SafeIsConsistent(cfg, BeforePass(s, w));
    EnforceOkExactly(s, w.order, w.waits, w.env.now);
    PassOkExactly(cfg, w.env, Ideal(w.env, BeforePass(s, w).table), BeforePass(s, w));
  }
}
