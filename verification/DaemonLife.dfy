/** The daemon over its whole life: any requests of disciplined clients, any turns
    of its main loop, any restarts. Between any two moments of it lies a run of
    the state machine, so the theorems about runs are theorems about the daemon. */
module DaemonLife {
  import opened Basics
  import opened Jobs
  import opened Accounting
  import opened Scheduling
  import opened Lifecycle
  import opened History
  import opened Operations
  import opened Conformance
  import opened Namesakes

  datatype Event = Asked(request: Request, env: Env, wait: Wait) | Turn(world: World) | Reborn(survey: Survey)

  ghost function StateAfter(cfg: Config, s: State, e: Event): State
    requires Numbered(s.table)
  {
    match e
    case Asked(request, env, wait) => Respond(cfg, s, request, env, wait).state
    case Turn(world) => Tick(cfg, s, world).state
    case Reborn(survey) => Recovered(s.table, survey)
  }

  ghost predicate Allowed(s: State, e: Event) {
    e.Asked? ==> Disciplined(s, e.request)
  }

  /** The job for which the daemon, during the event, waits in vain. */
  function FailedWait(s: State, e: Event): Option<JobId> {
    match e
    case Asked(request, _, wait) =>
      if request.CancelJob? && CancelFails(s, request.id, wait) then Some(request.id) else None
    case Turn(w) => FailedTimeout(s, w.order, w.waits, w.env.now)
    case Reborn(_) => None
  }

  /** A sequence of events that the daemon may meet, one after the other. */
  ghost predicate Life(cfg: Config, s: State, events: seq<Event>)
    decreases |events|
  {
    events == [] || (Numbered(s.table) && Allowed(s, events[0])
                     && Life(cfg, StateAfter(cfg, s, events[0]), events[1..]))
  }

  ghost function Outlived(cfg: Config, s: State, events: seq<Event>): State
    requires Life(cfg, s, events)
    decreases |events|
  {
    if events == [] then s else Outlived(cfg, StateAfter(cfg, s, events[0]), events[1..])
  }

  ghost predicate NoWaitFails(cfg: Config, s: State, events: seq<Event>)
    requires Life(cfg, s, events)
    decreases |events|
  {
    events == [] || (FailedWait(s, events[0]).None? && NoWaitFails(cfg, StateAfter(cfg, s, events[0]), events[1..]))
  }

  // ----- the invariant -----

  /** Restart and recovery, from whatever the old process left, give a sound daemon. */
  lemma RebornIsSound(cfg: Config, s: State, v: Survey, clean: bool)
    requires cfg.Valid() && Safe(cfg, s) && (clean ==> NoneCompleting(s.table))
    ensures Sound(cfg, Recovered(s.table, v), clean)
  {
    SafeIsConsistent(cfg, s);
    var empty := State(s.table, map[]);
    StepIsSafe(cfg, s, Restart);
    assert empty == Apply(cfg, s, Restart);
    var on := ANYHOW.(clean := clean);
    RecoveryReaches(cfg, s.table, v, on);
    var acts :| RunsTo(cfg, empty, acts, Recovered(s.table, v), on);
    hide Safe, Recovered;
    RunIsSafe(cfg, empty, acts);
    if clean { NothingStaysCompleting(cfg, empty, acts); }
    RecoveryIsExact(s.table, v);
  }

  lemma EventKeepsSound(cfg: Config, s: State, e: Event, clean: bool)
    requires cfg.Valid() && Sound(cfg, s, clean) && Numbered(s.table) && Allowed(s, e)
    requires clean ==> FailedWait(s, e).None?
    ensures Sound(cfg, StateAfter(cfg, s, e), clean)
  {
    hide Safe, Reaches, Respond, Tick, Recovered, BatchTracked, NoneCompleting, Disciplined;
    SafeIsConsistent(cfg, s);
    var on := ANYHOW.(clean := clean);
    match e
    case Asked(request, env, wait) =>
      RespondReaches(cfg, s, request, env, wait, on);
      ReachesKeepsSound(cfg, s, StateAfter(cfg, s, e), on);
    case Turn(world) =>
      TickReaches(cfg, s, world, on);
      ReachesKeepsSound(cfg, s, StateAfter(cfg, s, e), on);
    case Reborn(survey) => RebornIsSound(cfg, s, survey, clean);
  }

  lemma {:induction false} LifeKeepsSound(cfg: Config, s: State, events: seq<Event>, clean: bool)
    requires cfg.Valid() && Sound(cfg, s, clean) && Life(cfg, s, events)
    requires clean ==> NoWaitFails(cfg, s, events)
    ensures Sound(cfg, Outlived(cfg, s, events), clean)
    decreases |events|
  {
    if events != [] {
      hide Sound, Allowed, FailedWait;
      EventKeepsSound(cfg, s, events[0], clean);
      LifeKeepsSound(cfg, StateAfter(cfg, s, events[0]), events[1..], clean);
    }
  }

  /** The daemon, started on an empty database, through any requests of
      disciplined clients, any turns of its main loop and any restarts: every
      invariant of Safe holds throughout, and every RUNNING batch job is tracked.
      If no wait fails, nothing is COMPLETING between two events either. */
  lemma DaemonIsSound(cfg: Config, events: seq<Event>)
    requires cfg.Valid() && Life(cfg, INITIAL, events)
    ensures var s := Outlived(cfg, INITIAL, events);
            && Safe(cfg, s) && BatchTracked(s)
            && (NoWaitFails(cfg, INITIAL, events) ==> NoneCompleting(s.table))
  {
    InitialIsSafe(cfg);
    LifeKeepsSound(cfg, INITIAL, events, false);
    if NoWaitFails(cfg, INITIAL, events) { LifeKeepsSound(cfg, INITIAL, events, true); }
  }

  // ----- the run between two moments -----

  ghost predicate LeadsBy(cfg: Config, s: State, acts: seq<Action>, u: State, on: Terms) {
    Run(cfg, s, acts) && Exec(cfg, s, acts) == u && forall k :: 0 <= k < |acts| ==> on.Permit(acts[k])
  }

  /** Some run, restarts included, leads from one state to the other on the given terms. */
  ghost predicate Leads(cfg: Config, s: State, u: State, on: Terms) {
    exists acts :: LeadsBy(cfg, s, acts, u, on)
  }

  lemma ReachingLeads(cfg: Config, s: State, u: State, on: Terms)
    requires Reaches(cfg, s, u, on)
    ensures Leads(cfg, s, u, on)
  {
    var acts :| RunsTo(cfg, s, acts, u, on);
    assert LeadsBy(cfg, s, acts, u, on);
  }

  lemma LeadsThrough(cfg: Config, s: State, v: State, u: State, on: Terms)
    requires Leads(cfg, s, v, on) && Leads(cfg, v, u, on)
    ensures Leads(cfg, s, u, on)
  {
    var a :| LeadsBy(cfg, s, a, v, on);
    var b :| LeadsBy(cfg, v, b, u, on);
    hide Run, Exec;
    RunAppend(cfg, s, a, b);
    assert LeadsBy(cfg, s, a + b, u, on);
  }

  lemma RestartLeads(cfg: Config, s: State, on: Terms)
    ensures Leads(cfg, s, State(s.table, map[]), on)
  {
    var u := State(s.table, map[]);
    assert [Restart][1..] == [];
    assert Apply(cfg, s, Restart) == u;
    assert Run(cfg, u, []) && Exec(cfg, u, []) == u;
    assert LeadsBy(cfg, s, [Restart], u, on);
  }

  lemma EventLeads(cfg: Config, s: State, e: Event, on: Terms)
    requires cfg.Valid() && Safe(cfg, s) && Numbered(s.table) && Allowed(s, e)
    requires FailedWait(s, e).Some? ==> !on.Waits(FailedWait(s, e).value)
    requires !on.still && (e.Asked? ==> Touched(e.request) !! on.spared && Reported(e.request) !! on.silent)
    ensures Leads(cfg, s, StateAfter(cfg, s, e), on)
  {
    hide Safe, Reaches, Leads, Respond, Tick, Recovered, Disciplined;
    SafeIsConsistent(cfg, s);
    match e
    case Asked(request, env, wait) =>
      RespondReaches(cfg, s, request, env, wait, on);
      ReachingLeads(cfg, s, StateAfter(cfg, s, e), on);
    case Turn(world) =>
      TickReaches(cfg, s, world, on);
      ReachingLeads(cfg, s, StateAfter(cfg, s, e), on);
    case Reborn(survey) =>
      RestartLeads(cfg, s, on);
      RecoveryReaches(cfg, s.table, survey, on);
      ReachingLeads(cfg, State(s.table, map[]), StateAfter(cfg, s, e), on);
      LeadsThrough(cfg, s, State(s.table, map[]), StateAfter(cfg, s, e), on);
  }

  lemma LeadsKeepsSafe(cfg: Config, s: State, u: State, on: Terms)
    requires cfg.Valid() && Safe(cfg, s) && Leads(cfg, s, u, on)
    ensures Safe(cfg, u)
  {
    var acts :| LeadsBy(cfg, s, acts, u, on);
    RunIsSafe(cfg, s, acts);
  }

  lemma EventKeepsSafe(cfg: Config, s: State, e: Event)
    requires cfg.Valid() && Safe(cfg, s) && Numbered(s.table) && Allowed(s, e)
    ensures Safe(cfg, StateAfter(cfg, s, e))
  {
    hide Safe, Leads, Allowed, StateAfter;
    EventLeads(cfg, s, e, ANYHOW);
    LeadsKeepsSafe(cfg, s, StateAfter(cfg, s, e), ANYHOW);
  }

  /** From any moment of the daemon's life to any later one leads a run. */
  lemma {:induction false} LifeIsRun(cfg: Config, s: State, events: seq<Event>)
    requires cfg.Valid() && Safe(cfg, s) && Life(cfg, s, events)
    ensures exists acts :: Run(cfg, s, acts) && Exec(cfg, s, acts) == Outlived(cfg, s, events)
    ensures Safe(cfg, Outlived(cfg, s, events))
    decreases |events|
  {
    hide Safe, Allowed, StateAfter, Enabled, Apply;
    if events == [] {
      assert Run(cfg, s, []) && Exec(cfg, s, []) == s;
    } else {
      var s1 := StateAfter(cfg, s, events[0]);
      EventKeepsSafe(cfg, s, events[0]);
      EventLeads(cfg, s, events[0], ANYHOW);
      LifeIsRun(cfg, s1, events[1..]);
      var a :| LeadsBy(cfg, s, a, s1, ANYHOW);
      var b :| Run(cfg, s1, b) && Exec(cfg, s1, b) == Outlived(cfg, s1, events[1..]);
      RunAppend(cfg, s, a, b);
    }
  }

  // ----- what follows for the daemon -----

  /** Between any two moments rows persist, keep their identity and only move
      forward; batch jobs that are over, or COMPLETING, stay so. */
  lemma DaemonRowsMoveOn(cfg: Config, s: State, events: seq<Event>, id: JobId)
    requires cfg.Valid() && Safe(cfg, s) && Life(cfg, s, events) && id in s.table.rows
    ensures var u := Outlived(cfg, s, events); id in u.table.rows && RowPath(s.table.rows[id], u.table.rows[id])
  {
    LifeIsRun(cfg, s, events);
    var acts :| Run(cfg, s, acts) && Exec(cfg, s, acts) == Outlived(cfg, s, events);
    RowsOverRun(cfg, s, acts, id);
  }

  /** A job with `afterok` on a batch job has, at any moment, started only if that
      job is COMPLETED, and at every later moment it is so still, row and all. */
  lemma DaemonAfterOk(cfg: Config, before: seq<Event>, later: seq<Event>, id: JobId, k: nat, target: JobId)
    requires cfg.Valid() && Life(cfg, INITIAL, before) && Life(cfg, Outlived(cfg, INITIAL, before), later)
    requires var rows := Outlived(cfg, INITIAL, before).table.rows;
             && id in rows && EverStarted(rows[id]) && k < |rows[id].dependency|
             && rows[id].dependency[k].On? && rows[id].dependency[k].kind == AfterOk
             && target in rows[id].dependency[k].ids && target in rows && IsBatch(rows[target])
    ensures var s := Outlived(cfg, INITIAL, before); var u := Outlived(cfg, s, later);
            && s.table.rows[target].state == Completed
            && target in u.table.rows && u.table.rows[target] == s.table.rows[target]
  {
    var s := Outlived(cfg, INITIAL, before);
    InitialIsSafe(cfg);
    LifeIsRun(cfg, INITIAL, before);
    LifeIsRun(cfg, s, later);
    var acts :| Run(cfg, INITIAL, acts) && Exec(cfg, INITIAL, acts) == s;
    var more :| Run(cfg, s, more) && Exec(cfg, s, more) == Outlived(cfg, s, later);
    AfterOkIsSound(cfg, acts, more, id, k, target);
  }

  /** Jobs that wait for each other in a circle never start. */
  lemma DaemonCircleNeverStarts(cfg: Config, events: seq<Event>, circle: set<JobId>)
    requires cfg.Valid() && Life(cfg, INITIAL, events) && WaitInCircles(Outlived(cfg, INITIAL, events).table, circle)
    ensures var rows := Outlived(cfg, INITIAL, events).table.rows;
            forall c :: c in circle && c in rows ==> rows[c].state in {Pending, Cancelled} && !EverStarted(rows[c])
  {
    InitialIsSafe(cfg);
    LifeIsRun(cfg, INITIAL, events);
    var acts :| Run(cfg, INITIAL, acts) && Exec(cfg, INITIAL, acts) == Outlived(cfg, INITIAL, events);
    CirclesStayUnstarted(cfg, INITIAL, acts, circle);
    CircleNeverStarts(cfg, acts, circle);
  }

  /** A job has been started, with a record of it, as often as its row says, at most
      twice, and shows a failure only after its last attempt. How many processes that
      makes is said in the module Processes. */
  lemma DaemonStartsAtMostTwice(cfg: Config, events: seq<Event>, id: JobId)
    requires cfg.Valid() && Life(cfg, INITIAL, events) && id in Outlived(cfg, INITIAL, events).table.rows
    ensures var s := Outlived(cfg, INITIAL, events); var r := s.table.rows[id];
            && (exists acts :: && Run(cfg, INITIAL, acts) && Exec(cfg, INITIAL, acts) == s
                               && Starts(acts, id) == RowAttempts(r))
            && RowAttempts(r) <= 2 && (RowAttempts(r) == 2 ==> r.requeue)
            && (r.requeue && IsBatch(r) && r.state in {Failed, Timeout, OutOfMemory} ==> RowAttempts(r) == 2)
  {
    InitialIsSafe(cfg);
    LifeIsRun(cfg, INITIAL, events);
    var acts :| Run(cfg, INITIAL, acts) && Exec(cfg, INITIAL, acts) == Outlived(cfg, INITIAL, events);
    StartsAreRecorded(cfg, acts, id);
    FailureIsLastAttempt(cfg, acts, id);
  }

  /** How often a job is seen in another state than at the moment before. */
  ghost function ChangesSeen(cfg: Config, s: State, events: seq<Event>, id: JobId): nat
    requires Life(cfg, s, events)
    decreases |events|
  {
    if events == [] then 0
    else
      var s1 := StateAfter(cfg, s, events[0]);
      (if id in s.table.rows && id in s1.table.rows && s.table.rows[id].state != s1.table.rows[id].state then 1 else 0)
        + ChangesSeen(cfg, s1, events[1..], id)
  }

  /** A batch job is seen to change state at most four times. */
  lemma {:induction false} DaemonFewChanges(cfg: Config, s: State, events: seq<Event>, id: JobId)
    requires cfg.Valid() && Safe(cfg, s) && Life(cfg, s, events) && id in s.table.rows && IsBatch(s.table.rows[id])
    ensures ChangesSeen(cfg, s, events, id) <= Remaining(s.table.rows[id]) <= 4
    decreases |events|
  {
    if events != [] {
      hide Safe, Allowed, StateAfter, Remaining, IsBatch, RowPath, Enabled, Apply;
      var s1 := StateAfter(cfg, s, events[0]);
      EventLeads(cfg, s, events[0], ANYHOW);
      EventKeepsSafe(cfg, s, events[0]);
      var acts :| LeadsBy(cfg, s, acts, s1, ANYHOW);
      RowsOverRun(cfg, s, acts, id);
      AtMostFourChanges(cfg, s, acts, id);
      SeenMeansChanged(cfg, s, acts, id);
      PathKeepsBatch(s.table.rows[id], s1.table.rows[id]);
      DaemonFewChanges(cfg, s1, events[1..], id);
    }
    RemainingAtMostFour(s.table.rows[id]);
  }

  lemma RemainingAtMostFour(r: Job)
    ensures Remaining(r) <= 4
  {
  }

  lemma PathKeepsBatch(r: Job, r': Job)
    requires RowPath(r, r')
    ensures IsBatch(r') == IsBatch(r)
  {
  }

  // ----- COMPLETING, at the level of the daemon -----

  /** A client reports the end of the job. */
  predicate Reports(e: Event, id: JobId) {
    e.Asked? && e.request.FinishAllocation? && e.request.id == id
  }

  /** After an event a job is COMPLETING exactly if the daemon has just waited for it
      in vain, or it was so before and the event does not report its end. */
  lemma EventCompletesExactly(cfg: Config, s: State, e: Event, id: JobId)
    requires cfg.Valid() && Safe(cfg, s) && Numbered(s.table) && Allowed(s, e) && id in StateAfter(cfg, s, e).table.rows
    ensures StateAfter(cfg, s, e).table.rows[id].state == Completing
       <==> || FailedWait(s, e) == Some(id)
            || (id in s.table.rows && s.table.rows[id].state == Completing && !Reports(e, id))
  {
    var u := StateAfter(cfg, s, e);
    if FailedWait(s, e) == Some(id) {
      FailedWaitCompletes(cfg, s, e);
    } else if Reports(e, id) {
      ReportEnds(cfg, s, e);
    } else {
      hide Safe, Allowed, StateAfter;
      var on := ANYHOW.(waited := {id}, silent := {id});
      EventLeads(cfg, s, e, on);
      var acts :| LeadsBy(cfg, s, acts, u, on);
      CompletingExactly(cfg, s, acts, id);
      assert forall k :: 0 <= k < |acts| ==> on.Permit(acts[k]);
    }
  }

  lemma ReportEnds(cfg: Config, s: State, e: Event)
    requires Safe(cfg, s) && Numbered(s.table) && Allowed(s, e) && e.Asked? && e.request.FinishAllocation?
    requires e.request.id in StateAfter(cfg, s, e).table.rows
    ensures StateAfter(cfg, s, e).table.rows[e.request.id].state.IsTerminal()
  {
    hide Safe, Pass, Scheduled;
  }

  lemma FailedWaitCompletes(cfg: Config, s: State, e: Event)
    requires Safe(cfg, s) && Numbered(s.table) && FailedWait(s, e).Some?
    ensures var id, u := FailedWait(s, e).value, StateAfter(cfg, s, e);
            id in u.table.rows && u.table.rows[id].state == Completing
  {
    SafeIsConsistent(cfg, s);
    hide Safe, Pass;
    if e.Turn? {
      var w := e.world;
      TerminateAllStops(s, TimedOutIds(s.table, w.order, w.env.now), w.waits, w.env.now);
    }
  }

  /** At some event of the daemon's life it waited for the job in vain. */
  ghost predicate EverWaitedInVain(cfg: Config, s: State, events: seq<Event>, id: JobId)
    requires Life(cfg, s, events)
    decreases |events|
  {
    events != [] && (FailedWait(s, events[0]) == Some(id)
                     || EverWaitedInVain(cfg, StateAfter(cfg, s, events[0]), events[1..], id))
  }

  ghost predicate NoneReport(events: seq<Event>, id: JobId) {
    forall k :: 0 <= k < |events| ==> !Reports(events[k], id)
  }

  /** At some event the daemon waited for the job in vain, and no client has reported
      its end since. */
  ghost predicate LeftCompleting(cfg: Config, s: State, events: seq<Event>, id: JobId)
    requires Life(cfg, s, events)
    decreases |events|
  {
    events != [] && ((FailedWait(s, events[0]) == Some(id) && NoneReport(events[1..], id))
                     || LeftCompleting(cfg, StateAfter(cfg, s, events[0]), events[1..], id))
  }

  lemma FirstReport(events: seq<Event>, id: JobId)
    requires events != []
    ensures NoneReport(events, id) <==> !Reports(events[0], id) && NoneReport(events[1..], id)
  {
    assert forall j :: 1 <= j < |events| ==> events[j] == events[1..][j - 1];
    hide Reports;
  }

  lemma FailingIsNoEventReport(cfg: Config, s: State, e: Event, id: JobId)
    requires Safe(cfg, s) && Numbered(s.table)
    ensures FailedWait(s, e) == Some(id) ==> !Reports(e, id) && id in StateAfter(cfg, s, e).table.rows
  {
    if FailedWait(s, e) == Some(id) { FailedWaitCompletes(cfg, s, e); }
    hide Safe, StateAfter;
  }

  lemma RowsStay(cfg: Config, s: State, e: Event, id: JobId)
    requires cfg.Valid() && Safe(cfg, s) && Numbered(s.table) && Allowed(s, e) && id in s.table.rows
    ensures id in StateAfter(cfg, s, e).table.rows
  {
    hide Safe, Allowed, StateAfter;
    EventLeads(cfg, s, e, ANYHOW);
    var acts :| LeadsBy(cfg, s, acts, StateAfter(cfg, s, e), ANYHOW);
    RowsOverRun(cfg, s, acts, id);
  }

  /** Over the daemon's whole life a job, of whatever kind, is COMPLETING at the end
      exactly if the daemon once waited for its process in vain, or it was so from
      the start, and no client has reported its end since. */
  lemma {:induction false} DaemonLeavesCompleting(cfg: Config, s: State, events: seq<Event>, id: JobId)
    requires cfg.Valid() && Safe(cfg, s) && Life(cfg, s, events) && id in Outlived(cfg, s, events).table.rows
    ensures Outlived(cfg, s, events).table.rows[id].state == Completing
       <==> || LeftCompleting(cfg, s, events, id)
            || (id in s.table.rows && s.table.rows[id].state == Completing && NoneReport(events, id))
    decreases |events|
  {
    hide Safe, Allowed, StateAfter, FailedWait, Reports, NoneReport;
    if events == [] {
      assert NoneReport([], id) by { NothingToReport(id); }
    } else {
      var e, s1, rest := events[0], StateAfter(cfg, s, events[0]), events[1..];
      EventKeepsSafe(cfg, s, e);
      DaemonLeavesCompleting(cfg, s1, rest, id);
      FirstReport(events, id);
      FailingIsNoEventReport(cfg, s, e, id);
      if id in s.table.rows { RowsStay(cfg, s, e, id); }
      if id in s1.table.rows { EventCompletesExactly(cfg, s, e, id); }
    }
  }

  lemma NothingToReport(id: JobId)
    ensures NoneReport([], id)
  {
  }

  /** For a batch job, whose end no client reports: exactly if the daemon once waited
      for its process in vain. That is the only way in, and there is no way out. */
  lemma {:induction false} DaemonCompletesExactly(cfg: Config, s: State, events: seq<Event>, id: JobId)
    requires cfg.Valid() && Safe(cfg, s) && Life(cfg, s, events)
    requires id in s.table.rows ==> s.table.rows[id].state != Completing
    requires id in Outlived(cfg, s, events).table.rows && IsBatch(Outlived(cfg, s, events).table.rows[id])
    ensures Outlived(cfg, s, events).table.rows[id].state == Completing <==> EverWaitedInVain(cfg, s, events, id)
    decreases |events|
  {
    if events != [] {
      hide Safe, Allowed, StateAfter, FailedWait, IsBatch, Reports;
      var e, s1, rest := events[0], StateAfter(cfg, s, events[0]), events[1..];
      EventKeepsSafe(cfg, s, e);
      FailingIsNoEventReport(cfg, s, e, id);
      if id in s1.table.rows {
        DaemonRowsMoveOn(cfg, s1, rest, id);
        PathKeepsBatch(s1.table.rows[id], Outlived(cfg, s1, rest).table.rows[id]);
        EventCompletesExactly(cfg, s, e, id);
        if s1.table.rows[id].state == Completing {
          CompletingStays(s1.table.rows[id], Outlived(cfg, s1, rest).table.rows[id]);
        } else {
          DaemonCompletesExactly(cfg, s1, rest, id);
        }
      } else {
        DaemonCompletesExactly(cfg, s1, rest, id);
      }
    }
  }

  lemma CompletingStays(r: Job, r': Job)
    requires RowPath(r, r') && IsBatch(r) && r.state == Completing
    ensures r'.state == Completing
  {
  }

  // ----- what admission counts, at the level of the daemon -----

  /** Every top-level job for which the daemon once waited in vain, with no report by
      a client since, asked for nothing. */
  ghost predicate WaitedForNothing(cfg: Config, events: seq<Event>)
    requires Life(cfg, INITIAL, events)
  {
    var t := Outlived(cfg, INITIAL, events).table;
    forall id :: id in t.rows && t.rows[id].parent.None? && LeftCompleting(cfg, INITIAL, events, id) ==>
                   AsksNothing(t.rows[id])
  }

  /** At every moment of the daemon's life, started on an empty database: admission
      counts all that is RUNNING or COMPLETING exactly if every top-level job for
      which the daemon once waited in vain, with no report by a client since, asked
      for nothing. Then nothing of the machine, and no GPU id, is given out twice. */
  lemma DaemonCountsExactly(cfg: Config, events: seq<Event>)
    requires cfg.Valid() && Life(cfg, INITIAL, events)
    ensures CountsExact(Outlived(cfg, INITIAL, events).table) <==> WaitedForNothing(cfg, events)
    ensures WaitedForNothing(cfg, events) ==> NothingTwice(cfg, Outlived(cfg, INITIAL, events).table)
  {
    var s := Outlived(cfg, INITIAL, events);
    DaemonIsSound(cfg, events);
    InitialIsSafe(cfg);
    hide Safe, CountsExact, NothingTwice, AsksNothing, LeftCompleting, Life, Outlived, BatchTracked, NoneCompleting;
    CountsExactly(cfg, s);
    forall id | id in s.table.rows
      ensures LeftOver(s.table.rows[id]) <==> s.table.rows[id].parent.None? && LeftCompleting(cfg, INITIAL, events, id)
    {
      DaemonLeavesCompleting(cfg, INITIAL, events, id);
    }
    if CountsExact(s.table) { ExactMeansEnough(cfg, s); }
  }

  // ----- two jobs of one name, at the level of the daemon -----

  /** The request cancels one of the two, reports it finished, or gives it a name
      that is not the other's. */
  predicate EventSeparates(s: State, e: Event, a: JobId, b: JobId) {
    && e.Asked? && a in s.table.rows && b in s.table.rows
    && match e.request
       case CancelJob(id) => id == a || id == b
       case FinishAllocation(id, _) => id == a || id == b
       case UpdateJob(id, f) =>
         f.name.Some? && ((id == a && f.name.value != s.table.rows[b].name)
                          || (id == b && f.name.value != s.table.rows[a].name))
       case _ => false
  }

  lemma LeadsKeepsBlocked(cfg: Config, s: State, u: State, a: JobId, b: JobId)
    requires cfg.Valid() && Safe(cfg, s) && Blocked(s.table, a, b) && Leads(cfg, s, u, ANYHOW.(spared := {a, b}))
    ensures Blocked(u.table, a, b)
  {
    var on := ANYHOW.(spared := {a, b});
    var acts :| LeadsBy(cfg, s, acts, u, on);
    hide Safe, Blocked;
    BlockedExactly(cfg, s, acts, a, b);
    forall k | 0 <= k < |acts| ensures !Separates(At(cfg, s, acts, k).table, acts[k], a, b) {
      assert on.Permit(acts[k]);
    }
    AtEnd(cfg, s, acts);
  }

  lemma {:induction false} AtEnd(cfg: Config, s: State, acts: seq<Action>)
    requires Run(cfg, s, acts)
    ensures At(cfg, s, acts, |acts|) == Exec(cfg, s, acts)
    decreases |acts|
  {
    if acts != [] { AtEnd(cfg, Apply(cfg, s, acts[0]), acts[1..]); }
  }

  lemma EditedStays(r: Job, e: Option<Edit>)
    ensures StillWaits(r, Edited(r, e), if e.Some? && e.value.NameEdit? then e.value.name else r.name)
         == (r.state == Pending)
  {
    if e.Some? { EditStays(r, e.value); }
    hide EditedRow;
  }

  /** What an update of a waiting row does to its name. */
  lemma UpdatedStays(r: Job, f: Fields)
    requires r.state == Pending
    ensures StillWaits(r, UpdatedRow(r, f), if f.name.Some? then f.name.value else r.name)
  {
    var r1 := Edited(r, f.NameChange());
    var r2 := Edited(r1, f.PartitionChange());
    var r3 := Edited(r2, f.LimitChange());
    EditedStays(r, f.NameChange());
    EditedStays(r1, f.PartitionChange());
    EditedStays(r2, f.LimitChange());
    EditedStays(r3, f.PriorityChange());
    hide Edited;
  }

  /** A rename to the other's name leaves the two as they were for each other. */
  lemma RenamedAlike(cfg: Config, s: State, id: JobId, f: Fields, a: JobId, b: JobId)
    requires Blocked(s.table, a, b) && (id == a || id == b)
    ensures var v, renamed := WithRow(s, id, UpdatedRow(s.table.rows[id], f)),
                              f.name.Some? && f.name.value != s.table.rows[a].name;
            && (Blocked(v.table, a, b) <==> !renamed)
            && (renamed ==> v.table.rows[a].name != v.table.rows[b].name)
  {
    UpdatedStays(s.table.rows[id], f);
    hide UpdatedRow;
  }

  /** A pass renames nobody. */
  lemma PassKeepsNames(cfg: Config, env: Env, s: State, id: JobId)
    requires WellNumbered(s.table) && id in s.table.rows
    ensures var u := Pass(cfg, env, s).state.table; id in u.rows && u.rows[id].name == s.table.rows[id].name
  {
    PassIsExact(cfg, env, s);
    var r, r' := s.table.rows[id], Pass(cfg, env, s).state.table.rows[id];
    assert MerelyTold(r, r') || Started(r, r', env.now);
  }

  /** An update of one of the two. */
  lemma UpdateUnblocksExactly(cfg: Config, s: State, id: JobId, f: Fields, env: Env, a: JobId, b: JobId)
    requires cfg.Valid() && Safe(cfg, s) && Numbered(s.table) && Blocked(s.table, a, b) && (id == a || id == b)
    ensures Blocked(JobUpdated(cfg, s, id, f, env).state.table, a, b)
       <==> !(f.name.Some? && f.name.value != s.table.rows[a].name)
  {
    hide Pass, Safe, RowShape, Reaches;
    var v := WithRow(s, id, UpdatedRow(s.table.rows[id], f));
    assert id in s.table.rows && UpdateAccepted(s.table.rows[id], f);
    RenamedAlike(cfg, s, id, f, a, b);
    UpdateKeepsId(s.table.rows[id], f);
    assert a in v.table.rows && b in v.table.rows;
    hide UpdatedRow, UpdateAccepted, Blocked;
    if f.name.Some? && f.name.value != s.table.rows[a].name {
      PassKeepsNames(cfg, env, v, a);
      PassKeepsNames(cfg, env, v, b);
      DifferentNamesUnblocked(Pass(cfg, env, v).state.table, a, b);
    } else {
      UpdatedReaches(cfg, s, id, f, ANYHOW);
      ReachesKeepsSafe(cfg, s, v, ANYHOW);
      var on := ANYHOW.(spared := {a, b});
      PassReaches(cfg, env, v, on);
      ReachingLeads(cfg, v, Pass(cfg, env, v).state, on);
      LeadsKeepsBlocked(cfg, v, Pass(cfg, env, v).state, a, b);
    }
  }

  lemma DifferentNamesUnblocked(t: Table, a: JobId, b: JobId)
    requires a in t.rows && b in t.rows && t.rows[a].name != t.rows[b].name
    ensures !Blocked(t, a, b)
  {
  }

  lemma OneEndedUnblocked(cfg: Config, s: State, e: Event, a: JobId, b: JobId)
    requires Safe(cfg, s) && Numbered(s.table) && Allowed(s, e) && Blocked(s.table, a, b) && e.Asked?
    requires e.request.CancelJob? || e.request.FinishAllocation?
    requires e.request.id == a || e.request.id == b
    ensures !Blocked(StateAfter(cfg, s, e).table, a, b)
  {
    hide RowShape, FinishedRow, Pass, Scheduled, Terminated, WellNumbered, Numbered;
    var r := s.table.rows[e.request.id];
    assert e.request.id !in s.tracked;
    hide Safe;
    if e.request.FinishAllocation? { FinishEnds(r, e.request.ending, e.env.now); }
  }

  /** After an event two such jobs still block each other exactly if the event is
      not a request that separates them. */
  lemma EventUnblocksExactly(cfg: Config, s: State, e: Event, a: JobId, b: JobId)
    requires cfg.Valid() && Safe(cfg, s) && Numbered(s.table) && Allowed(s, e) && Blocked(s.table, a, b)
    ensures Blocked(StateAfter(cfg, s, e).table, a, b) <==> !EventSeparates(s, e, a, b)
  {
    BlockedNames(s.table, a, b);
    if e.Asked? && (a in Touched(e.request) || b in Touched(e.request)) {
      if e.request.UpdateJob? {
        UpdateUnblocksExactly(cfg, s, e.request.id, e.request.fields, e.env, a, b);
        hide Safe, Allowed, Blocked, JobUpdated;
      } else {
        OneEndedUnblocked(cfg, s, e, a, b);
        hide Safe, Allowed, Blocked, StateAfter;
      }
    } else {
      hide Safe, Allowed, Blocked, StateAfter;
      var on := ANYHOW.(spared := {a, b});
      EventLeads(cfg, s, e, on);
      LeadsKeepsBlocked(cfg, s, StateAfter(cfg, s, e), a, b);
    }
  }

  lemma BlockedNames(t: Table, a: JobId, b: JobId)
    requires Blocked(t, a, b)
    ensures a in t.rows && b in t.rows && t.rows[a].name == t.rows[b].name
  {
  }

  ghost predicate BlockedThroughout(cfg: Config, s: State, events: seq<Event>, a: JobId, b: JobId)
    requires Life(cfg, s, events)
    decreases |events|
  {
    && Blocked(s.table, a, b)
    && (events == [] || BlockedThroughout(cfg, StateAfter(cfg, s, events[0]), events[1..], a, b))
  }

  ghost predicate NoneSeparates(cfg: Config, s: State, events: seq<Event>, a: JobId, b: JobId)
    requires Life(cfg, s, events)
    decreases |events|
  {
    events == [] || (!EventSeparates(s, events[0], a, b)
                     && NoneSeparates(cfg, StateAfter(cfg, s, events[0]), events[1..], a, b))
  }

  /** Over the daemon's life: two `singleton` jobs of one name wait at every moment,
      each for the other, exactly if no request separates them. */
  lemma {:induction false} DaemonBlocksExactly(cfg: Config, s: State, events: seq<Event>, a: JobId, b: JobId)
    requires cfg.Valid() && Safe(cfg, s) && Life(cfg, s, events) && Blocked(s.table, a, b)
    ensures BlockedThroughout(cfg, s, events, a, b) <==> NoneSeparates(cfg, s, events, a, b)
    decreases |events|
  {
    if events != [] {
      hide Safe, Allowed, Blocked, StateAfter, EventSeparates;
      var s1 := StateAfter(cfg, s, events[0]);
      EventKeepsSafe(cfg, s, events[0]);
      EventUnblocksExactly(cfg, s, events[0], a, b);
      if Blocked(s1.table, a, b) { DaemonBlocksExactly(cfg, s1, events[1..], a, b); }
    }
  }
}
