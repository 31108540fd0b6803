/** What it means that a request is refused, and when a job starts before its time. */
module Submissions {
  import opened Basics
  import opened Jobs
  import opened Accounting
  import opened Scheduling
  import opened Lifecycle
  import opened History
  import opened Operations
  import opened Conformance
  import opened Outcomes
  import opened Processes

  // ----- refused requests -----

  /** The request is refused before it changes anything. */
  predicate RefusedOutright(cfg: Config, s: State, request: Request) {
    match request
    case SubmitBatch(_, spec) => spec.Some? && spec.value.taskIds == []
    case SubmitRun(req, immediate) => immediate && !RequestFits(cfg, s.table, req)
    case SubmitAlloc(req, immediate) => immediate && !RequestFits(cfg, s.table, req)
    case StartStep(parent, _, _) => parent !in s.table.rows
    case FinishAllocation(id, _) => id !in s.table.rows
    case UpdateJob(id, _) => id !in s.table.rows
    case CancelJob(id) => id !in s.tracked && !(id in s.table.rows && s.table.rows[id].state == Pending)
    case _ => false
  }

  /** The request has taken effect, wholly or in part, and is refused nevertheless:
      the scheduling after it comes to a job that does not launch, its own job does
      not launch, the wait for the process fails, or the update is not allowed. */
  ghost predicate RefusedLate(cfg: Config, s: State, request: Request, env: Env, wait: Wait)
    requires Numbered(s.table)
  {
    var v := BeforeScheduling(s, request, env);
    || (v.Some? && FirstToFail(IdealSpawns(cfg, env, v.value), env) < |IdealSpawns(cfg, env, v.value)|)
    || (request.SubmitRun? && RequestFits(cfg, s.table, request.req) && !env.Launches(s.table.next))
    || (request.CancelJob? && CancelFails(s, request.id, wait))
    || (request.UpdateJob? && request.id in s.table.rows
        && !UpdateAccepted(s.table.rows[request.id], request.fields))
  }

  lemma RunRefusedExactly(cfg: Config, s: State, req: SubmitRequest, immediate: bool, env: Env)
    requires cfg.Valid() && Safe(cfg, s) && Numbered(s.table)
    ensures SubmittedRun(cfg, s, req, immediate, env).response == Refused
       <==> if RequestFits(cfg, s.table, req) then !env.Launches(s.table.next) else immediate
  {
    if RequestFits(cfg, s.table, req) { RunStraysExactly(cfg, s, req, env); }
    hide Safe, RequestFits, AllocateGpuIds;
  }

  lemma ScheduledRefusedExactly(cfg: Config, s: State, request: Request, env: Env, wait: Wait)
    requires cfg.Valid() && Safe(cfg, s) && Numbered(s.table) && Disciplined(s, request)
    requires BeforeScheduling(s, request, env).Some?
    ensures var ideal := IdealSpawns(cfg, env, BeforeScheduling(s, request, env).value);
            Respond(cfg, s, request, env, wait).response == Refused <==> FirstToFail(ideal, env) < |ideal|
  {
    hide Safe, Reaches, Respond, BeforeScheduling, Disciplined, Pass, PassSpawns, PassStray, FirstToFail, Cut, StrayOf;
    var v := BeforeScheduling(s, request, env).value;
    SafeIsConsistent(cfg, s);
    RequestThenPass(cfg, s, request, env, wait);
    ReachesKeepsSafe(cfg, s, v, STILL);
    PassSpawnsExactly(cfg, env, Ideal(env, v.table), v);
    assert FirstToFail(IdealSpawns(cfg, env, v), env) <= |IdealSpawns(cfg, env, v)|;
  }

  lemma OtherRefusedExactly(cfg: Config, s: State, request: Request, env: Env, wait: Wait)
    requires Consistent(s) && TrackedRuns(s) && Disciplined(s, request)
    requires BeforeScheduling(s, request, env).None? && !request.SubmitRun?
    ensures Respond(cfg, s, request, env, wait).response == Refused
       <==> RefusedOutright(cfg, s, request) || RefusedLate(cfg, s, request, env, wait)
    ensures RefusedOutright(cfg, s, request) ==> Respond(cfg, s, request, env, wait).state == s
  {
    hide Pass, PassSpawns, FirstToFail, RequestFits, IdealSpawns, Created, Held, UpdatedRow, UpdateAccepted;
    hide FinishedRow, Numbered;
    if request.FinishAllocation? && request.id !in s.table.rows {
      assert s.tracked - {request.id} == s.tracked;
    }
  }

  /** A request is refused exactly if it is so outright or late. */
  lemma RefusedExactly(cfg: Config, s: State, request: Request, env: Env, wait: Wait)
    requires cfg.Valid() && Safe(cfg, s) && Numbered(s.table) && Disciplined(s, request)
    ensures Respond(cfg, s, request, env, wait).response == Refused
       <==> RefusedOutright(cfg, s, request) || RefusedLate(cfg, s, request, env, wait)
    ensures RefusedOutright(cfg, s, request) ==> Respond(cfg, s, request, env, wait).state == s
  {
    hide Safe, Numbered, TrackedRuns, FirstToFail, RequestFits, IdealSpawns, Disciplined, Consistent;
    hide Pass, Created, Held, UpdatedRow, UpdateAccepted, FinishedRow, TryLaunch;
    SafeIsConsistent(cfg, s);
    SafeTracks(cfg, s);
    if BeforeScheduling(s, request, env).Some? {
      ScheduledRefusedExactly(cfg, s, request, env, wait);
      hide Respond;
    } else if request.SubmitRun? {
      RunRefusedExactly(cfg, s, request.req, request.immediate, env);
    } else {
      OtherRefusedExactly(cfg, s, request, env, wait);
    }
  }

  /** A refused submission has left everything alone exactly if it was refused
      outright; otherwise its job is in the table, and may run some time. */
  lemma RefusedSubmission(cfg: Config, s: State, request: Request, env: Env, wait: Wait)
    requires cfg.Valid() && Safe(cfg, s) && Numbered(s.table) && Disciplined(s, request)
    requires request.SubmitBatch? || request.SubmitRun? || request.SubmitAlloc? || request.StartStep?
    requires Respond(cfg, s, request, env, wait).response == Refused
    ensures var u := Respond(cfg, s, request, env, wait).state;
            && (u == s <==> RefusedOutright(cfg, s, request))
            && (u != s ==> s.table.next !in s.table.rows && s.table.next in u.table.rows)
  {
    RefusedExactly(cfg, s, request, env, wait);
    assert s.table.next !in s.table.rows;
    if request.SubmitBatch? && !RefusedOutright(cfg, s, request) {
      var v := BeforeScheduling(s, request, env).value;
      CreatedHasNew(s.table, request.req, request.spec, env.now);
      PassIsExact(cfg, env, v);
    }
    hide Safe, Pass, RequestFits, Created, AllocateGpuIds, IdealSpawns, FirstToFail, Started, MerelyTold;
  }

  lemma CreatedHasNew(t: Table, req: SubmitRequest, spec: Option<ArrayTasks>, now: int)
    requires Numbered(t) && (spec.Some? ==> spec.value.taskIds != [])
    ensures t.next in Created(t, req, spec, now).rows
  {
    if spec.Some? { InsertedTasks(t, req, spec.value, t.next, now); }
  }

  // ----- begin times -----

  /** A job that `srun` submits is started before its begin time exactly if it fits,
      launches, and has such a time: the direct start does not look at it. Clients
      do not ask for this, and in no state they lead to has any job started early. */
  lemma EarlyStartExactly(cfg: Config, s: State, req: SubmitRequest, immediate: bool, env: Env)
    requires cfg.Valid() && Safe(cfg, s) && Numbered(s.table)
    ensures var u, id := SubmittedRun(cfg, s, req, immediate, env).state.table, s.table.next;
            && (id in u.rows && StartedEarly(u.rows[id])
                <==> RequestFits(cfg, s.table, req) && env.Launches(id)
                     && req.beginTime.Some? && env.now < req.beginTime.value)
            && forall k :: k in s.table.rows ==> k in u.rows && u.rows[k] == s.table.rows[k] && !StartedEarly(u.rows[k])
  {
    if RequestFits(cfg, s.table, req) { RunStraysExactly(cfg, s, req, env); }
    forall k | k in s.table.rows ensures !StartedEarly(s.table.rows[k]) && k != s.table.next {
      SafeShapes(cfg, s, k);
    }
    hide Safe, RequestFits, AllocateGpuIds, RowShape;
  }
}
