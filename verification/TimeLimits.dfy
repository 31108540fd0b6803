/** What enforcing time limits does, job by job, and when a limit means what it says. */
module TimeLimits {
  import opened Basics
  import opened Jobs
  import opened Scheduling
  import opened Lifecycle
  import opened Operations

  /** The row of a terminated job once waiting for it has succeeded. */
  function TimedOutRow(r: Job, x: Tracked, wait: Wait, now: int): Job
    requires wait.Waited?
  {
    FinishedRow(MarkedRow(r, Completing, "TimeLimit"),
                TerminationEnding(x, wait.exit, wait.inTime, Timeout, "TimeLimit"), now)
  }

  function LateRow(s: State, id: JobId, waits: map<JobId, Wait>, now: int): Job
    requires id in s.table.rows
  {
    if id in s.tracked && WaitFor(waits, id).Waited? then
      TimedOutRow(s.table.rows[id], s.tracked[id], WaitFor(waits, id), now)
    else s.table.rows[id]
  }

  /** The given jobs terminated at once. */
  function EndedAtOnce(s: State, ids: set<JobId>, waits: map<JobId, Wait>, now: int): State {
    var rows := s.table.rows;
    State(s.table.(rows := map id | id in rows :: if id in ids then LateRow(s, id, waits, now) else rows[id]),
          s.tracked - ids)
  }

  lemma {:induction false} TerminateAllAtOnce(s: State, ids: seq<JobId>, waits: map<JobId, Wait>, now: int)
    requires s.tracked.Keys <= s.table.rows.Keys && TerminateAll(s, ids, waits, now).ok
    ensures TerminateAll(s, ids, waits, now).state == EndedAtOnce(s, (set id | id in ids), waits, now)
    decreases |ids|
  {
    var all := set id | id in ids;
    if ids == [] {
      assert EndedAtOnce(s, all, waits, now).table.rows == s.table.rows;
      assert EndedAtOnce(s, all, waits, now).tracked == s.tracked;
    } else {
      var later := set id | id in ids[1..];
      assert all == later + {ids[0]};
      if ids[0] !in s.tracked {
        TerminateAllAtOnce(s, ids[1..], waits, now);
        hide TerminateAll, TimedOutRow;
        assert EndedAtOnce(s, all, waits, now).table.rows == EndedAtOnce(s, later, waits, now).table.rows;
        assert EndedAtOnce(s, all, waits, now).tracked == EndedAtOnce(s, later, waits, now).tracked;
      } else {
        var first := Terminated(s, ids[0], WaitFor(waits, ids[0]), Timeout, "TimeLimit", now);
        FirstOfAll(s, ids[0], waits, now);
        TerminateAllAtOnce(first.state, ids[1..], waits, now);
        FirstThenLater(s, ids[0], later, waits, now);
      }
    }
  }

  lemma FirstOfAll(s: State, id: JobId, waits: map<JobId, Wait>, now: int)
    requires id in s.tracked && s.tracked.Keys <= s.table.rows.Keys
    ensures var first := Terminated(s, id, WaitFor(waits, id), Timeout, "TimeLimit", now);
            && (first.ok ==> first.state == EndedAtOnce(s, {id}, waits, now))
            && first.state.tracked.Keys <= first.state.table.rows.Keys
  {
  }

  lemma FirstThenLater(s: State, id: JobId, later: set<JobId>, waits: map<JobId, Wait>, now: int)
    requires s.tracked.Keys <= s.table.rows.Keys
    ensures EndedAtOnce(EndedAtOnce(s, {id}, waits, now), later, waits, now) == EndedAtOnce(s, later + {id}, waits, now)
  {
  }

  lemma {:induction false} WarnAllAtOnce(s: State, ids: seq<JobId>, now: int)
    requires WarnAll(s, ids, now).ok
    ensures var u := WarnAll(s, ids, now).state;
            && u.table == s.table && u.tracked.Keys == s.tracked.Keys
            && forall id :: id in s.tracked ==>
                 var warned := s.tracked[id].warned || (id in ids && WarningDue(s, id, now).Some?);
                 u.tracked[id] == s.tracked[id].(warned := warned)
    decreases |ids|
  {
    if ids != [] {
      var signal := WarningDue(s, ids[0], now);
      if signal.None? {
        WarnAllAtOnce(s, ids[1..], now);
      } else {
        var v := s.(tracked := s.tracked[ids[0] := s.tracked[ids[0]].(warned := true)]);
        WarnAllAtOnce(v, ids[1..], now);
        assert forall id :: id != ids[0] ==> WarningDue(v, id, now) == WarningDue(s, id, now);
      }
    }
  }

  /** The order iterates over every tracked job. */
  predicate Covers(order: seq<JobId>, tracked: map<JobId, Tracked>) {
    forall id :: id in tracked ==> id in order
  }

  function OverdueIds(s: State, now: int): set<JobId> {
    set id | id in s.tracked && Overdue(s.table, id, now)
  }

  /** What the terminations, all successful, leave for the warnings. */
  lemma AfterTimeouts(s: State, order: seq<JobId>, waits: map<JobId, Wait>, now: int)
    requires TrackedRuns(s) && Covers(order, s.tracked)
    requires TerminateAll(s, TimedOutIds(s.table, order, now), waits, now).ok
    ensures var u, late := TerminateAll(s, TimedOutIds(s.table, order, now), waits, now).state, OverdueIds(s, now);
            && u.table == EndedAtOnce(s, late, waits, now).table && u.tracked == s.tracked - late
            && (forall id :: id in u.tracked ==>
                  && WarningDue(u, id, now) == WarningDue(s, id, now)
                  && Overdue(u.table, id, now) == Overdue(s.table, id, now))
  {
    hide TerminateAll, TimedOutIds, TimedOutRow, WarningDue, Overdue;
    var ids := TimedOutIds(s.table, order, now);
    TimedOutSelects(s.table, order, now);
    var late := OverdueIds(s, now);
    var u := TerminateAll(s, ids, waits, now).state;
    TerminateAllAtOnce(s, ids, waits, now);
    var all := set id | id in ids;
    assert EndedAtOnce(s, all, waits, now).table.rows == EndedAtOnce(s, late, waits, now).table.rows;
    assert s.tracked - all == s.tracked - late;
    forall id | id in u.tracked
      ensures WarningDue(u, id, now) == WarningDue(s, id, now) && Overdue(u.table, id, now) == Overdue(s.table, id, now)
    {
      SameRowSameAnswers(s, u, id, now);
    }
  }

  /** When nothing fails, the jobs terminated are exactly the tracked ones past
      their deadline: whatever the order of iteration, no tracked job is overdue
      afterwards and no other job's row has changed. A job is told to hurry only
      inside its warning window, and only once. */
  lemma EnforceIsExact(s: State, order: seq<JobId>, waits: map<JobId, Wait>, now: int)
    requires TrackedRuns(s) && Covers(order, s.tracked) && Enforce(s, order, waits, now).ok
    ensures var u, late := Enforce(s, order, waits, now).state, OverdueIds(s, now);
            && u.table == EndedAtOnce(s, late, waits, now).table
            && u.tracked.Keys == s.tracked.Keys - late
            && (forall id :: id in u.tracked ==> !Overdue(u.table, id, now))
            && (forall id :: id in s.table.rows && id !in late ==>
                  id in u.table.rows && u.table.rows[id] == s.table.rows[id])
            && (forall id :: id in u.tracked ==>
                  u.tracked[id] == s.tracked[id].(warned := s.tracked[id].warned || WarningDue(s, id, now).Some?))
  {
    var ended := TerminateAll(s, TimedOutIds(s.table, order, now), waits, now).state;
    AfterTimeouts(s, order, waits, now);
    var unwarned := UnwarnedIds(ended.tracked, order);
    UnwarnedSelected(ended.tracked, order);
    WarnAllAtOnce(ended, unwarned, now);
    hide TerminateAll, TimedOutIds, Overdue, TimedOutRow, WarnAll, UnwarnedIds;
    assert forall id :: id in ended.tracked && WarningDue(s, id, now).Some? ==> !s.tracked[id].warned;
    hide WarningDue;
  }

  lemma {:induction false} NoFailureMeans(tracked: map<JobId, Tracked>, ids: seq<JobId>, waits: map<JobId, Wait>)
    ensures FirstFailure(tracked, ids, waits).None?
       <==> forall id :: id in ids && id in tracked ==> WaitFor(waits, id).Waited?
    decreases |ids|
  {
    if ids != [] { NoFailureMeans(tracked, ids[1..], waits); }
  }

  lemma {:induction false} WarnAllStops(s: State, ids: seq<JobId>, now: int)
    ensures WarnAll(s, ids, now).ok
       <==> forall id :: id in ids && WarningDue(s, id, now).Some? ==> IsSignal(WarningDue(s, id, now).value)
    decreases |ids|
  {
    if ids != [] {
      var signal := WarningDue(s, ids[0], now);
      if signal.None? {
        WarnAllStops(s, ids[1..], now);
      } else {
        var v := s.(tracked := s.tracked[ids[0] := s.tracked[ids[0]].(warned := true)]);
        WarnAllStops(v, ids[1..], now);
        assert forall id :: id != ids[0] ==> WarningDue(v, id, now) == WarningDue(s, id, now);
        assert WarningDue(v, ids[0], now).None?;
      }
    }
  }

  /** Enforcing time limits fails, and with it the daemon ends, exactly if waiting
      for an overdue job fails or a warning that is due asks for a signal that does
      not exist; a submission may ask for any number. */
  lemma EnforceOkExactly(s: State, order: seq<JobId>, waits: map<JobId, Wait>, now: int)
    requires TrackedRuns(s) && (forall id :: id in order <==> id in s.tracked)
    ensures Enforce(s, order, waits, now).ok
       <==> && (forall id :: id in OverdueIds(s, now) ==> WaitFor(waits, id).Waited?)
            && (forall id :: id in s.tracked && id !in OverdueIds(s, now) && WarningDue(s, id, now).Some? ==>
                  IsSignal(WarningDue(s, id, now).value))
  {
    var late := TimedOutIds(s.table, order, now);
    TimedOutSelects(s.table, order, now);
    TerminateAllStops(s, late, waits, now);
    NoFailureMeans(s.tracked, late, waits);
    var ended := TerminateAll(s, late, waits, now);
    if ended.ok {
      AfterTimeouts(s, order, waits, now);
      UnwarnedSelected(ended.state.tracked, order);
      WarnAllStops(ended.state, UnwarnedIds(ended.state.tracked, order), now);
      assert forall id :: id in ended.state.tracked && WarningDue(ended.state, id, now).Some? ==>
               !ended.state.tracked[id].warned;
    }
    hide TerminateAll, TimedOutIds, Overdue, WarningDue, IsSignal, WarnAll, UnwarnedIds;
  }

  lemma SameRowSameAnswers(s: State, u: State, id: JobId, now: int)
    requires id in s.table.rows && id in u.table.rows && s.table.rows[id] == u.table.rows[id]
    requires id in s.tracked && id in u.tracked && s.tracked[id] == u.tracked[id]
    ensures WarningDue(u, id, now) == WarningDue(s, id, now) && Overdue(u.table, id, now) == Overdue(s.table, id, now)
  {
  }

  lemma {:induction false} UnwarnedSelected(tracked: map<JobId, Tracked>, order: seq<JobId>)
    ensures forall id :: id in UnwarnedIds(tracked, order) <==> id in order && id in tracked && !tracked[id].warned
    decreases |order|
  {
    if order != [] { UnwarnedSelected(tracked, order[1..]); }
  }

  /** The deadline test means "the job has run for its limit" exactly when the
      limit fits i64 and the deadline is not cut off at the end of time; a larger
      limit turns negative and ends the job at once. */
  lemma TimeLimitExactWhen(start: int, limit: nat, now: int)
    requires 0 <= start <= now <= I64_MAX && limit <= U64_MAX
    ensures (now >= Deadline(start, limit) <==> now - start >= limit)
       <==> (limit <= I64_MAX && (start + limit <= I64_MAX || now < I64_MAX))
  {
  }

  /** The deadline as the code sees it: limits of 2^63 seconds or more count
      backwards, and no deadline lies beyond the range of i64. */
  function SeenDeadline(start: int, limit: nat): int {
    if limit <= I64_MAX then (if start + limit <= I64_MAX then start + limit else I64_MAX)
    else if start + limit - 0x1_0000_0000_0000_0000 >= I64_MIN then start + limit - 0x1_0000_0000_0000_0000
    else I64_MIN
  }

  /** A warning is due exactly to a tracked job that has not been warned, in the last
      seconds before that deadline, as many as it asked for; an offset of 2^63
      seconds or more means never. The deadline is start plus limit if that fits. */
  lemma WarningWindow(s: State, id: JobId, now: int)
    requires id in s.table.rows && IsI64(now)
    requires var r := s.table.rows[id];
             && r.startTime.Some? && IsI64(r.startTime.value) && r.timeLimit.Some? && r.timeLimit.value <= U64_MAX
             && r.warning.Some? && r.warning.value.secondsBeforeEnd <= U64_MAX
    ensures var r := s.table.rows[id];
            var left := SeenDeadline(r.startTime.value, r.timeLimit.value) - now;
            var seconds := r.warning.value.secondsBeforeEnd;
            WarningDue(s, id, now)
            == if id in s.tracked && !s.tracked[id].warned && seconds <= I64_MAX && 0 < left <= seconds
               then Some(r.warning.value.signal) else None
    ensures var r := s.table.rows[id];
            r.timeLimit.value <= I64_MAX && r.startTime.value + r.timeLimit.value <= I64_MAX ==>
              SeenDeadline(r.startTime.value, r.timeLimit.value) == r.startTime.value + r.timeLimit.value
  {
    var r := s.table.rows[id];
    DeadlineIs(r.startTime.value, r.timeLimit.value);
    WarnAtIs(r.startTime.value, r.timeLimit.value, r.warning.value.secondsBeforeEnd, now);
    hide Deadline, WarnAt;
  }

  lemma DeadlineIs(start: int, limit: nat)
    requires IsI64(start) && limit <= U64_MAX
    ensures Deadline(start, limit) == SeenDeadline(start, limit) && IsI64(SeenDeadline(start, limit))
  {
  }

  lemma WarnAtIs(start: int, limit: nat, seconds: nat, now: int)
    requires IsI64(start) && limit <= U64_MAX && seconds <= U64_MAX && IsI64(now)
    ensures (WarnAt(start, limit, seconds) <= now < Deadline(start, limit))
       <==> (seconds <= I64_MAX && 0 < Deadline(start, limit) - now <= seconds)
  {
    DeadlineIs(start, limit);
    hide Deadline, SeenDeadline;
  }
}
