/** What `singleton` does to two waiting jobs of one user and name. */
module Namesakes {
  import opened Basics
  import opened Jobs
  import opened Scheduling
  import opened Lifecycle
  import opened History

  /** Two waiting jobs of one user and name, each with a `singleton` clause. */
  predicate Blocked(t: Table, a: JobId, b: JobId) {
    && a != b && a in t.rows && b in t.rows
    && t.rows[a].state == Pending && t.rows[b].state == Pending
    && t.rows[a].userName == t.rows[b].userName && t.rows[a].name == t.rows[b].name
    && Singleton in t.rows[a].dependency && Singleton in t.rows[b].dependency
  }

  /** One of the two is cancelled or reported finished, or gets a name that is
      not the other's. */
  predicate Separates(t: Table, act: Action, a: JobId, b: JobId) {
    && a in t.rows && b in t.rows
    && match act
       case CancelPending(id, _) => id == a || id == b
       case ClientFinish(id, _, _) => id == a || id == b
       case Change(id, NameEdit(name)) => (id == a && name != t.rows[b].name) || (id == b && name != t.rows[a].name)
       case _ => false
  }

  /** Each of the two sees the other as an active job of its name. */
  lemma BlockedWaits(t: Table, a: JobId, b: JobId)
    requires WellNumbered(t) && Blocked(t, a, b)
    ensures !DependencySatisfied(t, t.rows[a])
  {
    assert HasActiveJobWithName(t, t.rows[a].userName, t.rows[a].name, t.rows[a].id);
    var k :| 0 <= k < |t.rows[a].dependency| && t.rows[a].dependency[k] == Singleton;
    assert !ClauseSatisfied(t, t.rows[a], t.rows[a].dependency[k]);
  }

  /** All that can happen to the row of such a job. */
  lemma WaitingActions(cfg: Config, s: State, act: Action)
    requires Enabled(cfg, s, act) && !IsInsert(act) && !IsRunnerOnly(act)
    requires act.id in s.table.rows && act.id !in s.tracked
    requires var r := s.table.rows[act.id];
             r.state == Pending && r.dependency != [] && !DependencySatisfied(s.table, r)
    ensures act.Tell? || act.Change? || act.CancelPending? || act.ClientFinish?
  {
  }

  /** What the effect leaves of the row that the verdict depends on. */
  predicate StillWaits(r: Job, r': Job, name: string) {
    && r'.state == Pending && r'.userName == r.userName && r'.dependency == r.dependency && r'.name == name
  }

  lemma BlockedRow(cfg: Config, s: State, act: Action, a: JobId, b: JobId)
    requires Safe(cfg, s) && Blocked(s.table, a, b) && Enabled(cfg, s, act) && !IsInsert(act) && !IsRunnerOnly(act)
    requires act.id == a
    ensures var r, r' := s.table.rows[a], RowAfter(cfg, s, act);
            if act.CancelPending? || act.ClientFinish? then r'.state != Pending
            else StillWaits(r, r', if act.Change? && act.edit.NameEdit? then act.edit.name else r.name)
  {
    var r := s.table.rows[a];
    assert a !in s.tracked && WellNumbered(s.table) && r.dependency != [];
    BlockedWaits(s.table, a, b);
    hide Safe, DependencySatisfied, WellNumbered;
    WaitingActions(cfg, s, act);
    if act.ClientFinish? { FinishEnds(r, act.ending, act.now); }
    if act.Change? { EditStays(r, act.edit); }
    hide Enabled, EditedRow, FinishedRow, LaunchGpus;
  }

  lemma FinishEnds(r: Job, e: Ending, now: int)
    requires e.state.IsTerminal() && !r.requeue
    ensures FinishedRow(r, e, now).state != Pending
  {
  }

  lemma EditStays(r: Job, e: Edit)
    ensures EditedRow(r, e).state == r.state && EditedRow(r, e).userName == r.userName
    ensures EditedRow(r, e).dependency == r.dependency
    ensures EditedRow(r, e).name == if e.NameEdit? then e.name else r.name
  {
  }

  /** An effect ends the blockade exactly if it separates the two. */
  lemma StepUnblocksExactly(cfg: Config, s: State, act: Action, a: JobId, b: JobId)
    requires Safe(cfg, s) && Blocked(s.table, a, b) && Enabled(cfg, s, act)
    ensures Blocked(Apply(cfg, s, act).table, a, b) <==> !Separates(s.table, act, a, b)
  {
    hide Safe, Enabled, TableAfter, TrackedAfter, RowAfter, WellNumbered, Apply;
    SafeIsWellNumbered(cfg, s);
    if IsInsert(act) {
      InsertAddsNewborns(cfg, s, act);
    } else {
      UpdateTouchesOne(cfg, s, act);
      if !IsRunnerOnly(act) && act.id == a { BlockedRow(cfg, s, act, a, b); }
      if !IsRunnerOnly(act) && act.id == b { BlockedRow(cfg, s, act, b, a); }
    }
  }

  /** The two block each other before the run and after each of its effects. */
  ghost predicate AlwaysBlocked(cfg: Config, s: State, acts: seq<Action>, a: JobId, b: JobId)
    requires Run(cfg, s, acts)
  {
    forall k :: 0 <= k <= |acts| ==> Blocked(At(cfg, s, acts, k).table, a, b)
  }

  ghost predicate NeverSeparated(cfg: Config, s: State, acts: seq<Action>, a: JobId, b: JobId)
    requires Run(cfg, s, acts)
  {
    forall k :: 0 <= k < |acts| ==> !Separates(At(cfg, s, acts, k).table, acts[k], a, b)
  }

  lemma AlwaysFromFirst(cfg: Config, s: State, acts: seq<Action>, a: JobId, b: JobId)
    requires Run(cfg, s, acts) && acts != []
    ensures AlwaysBlocked(cfg, s, acts, a, b)
       <==> Blocked(s.table, a, b) && AlwaysBlocked(cfg, Apply(cfg, s, acts[0]), acts[1..], a, b)
  {
    hide Blocked, Enabled, Apply;
    var s1, rest := Apply(cfg, s, acts[0]), acts[1..];
    assert At(cfg, s, acts, 0) == s;
    forall k: nat | k <= |rest| ensures At(cfg, s1, rest, k) == At(cfg, s, acts, k + 1) {
    }
    assert forall k: nat :: 0 < k <= |acts| ==> At(cfg, s, acts, k) == At(cfg, s1, rest, k - 1);
  }

  lemma NeverFromFirst(cfg: Config, s: State, acts: seq<Action>, a: JobId, b: JobId)
    requires Run(cfg, s, acts) && acts != []
    ensures NeverSeparated(cfg, s, acts, a, b)
       <==> !Separates(s.table, acts[0], a, b) && NeverSeparated(cfg, Apply(cfg, s, acts[0]), acts[1..], a, b)
  {
    hide Separates, Enabled, Apply;
    var s1, rest := Apply(cfg, s, acts[0]), acts[1..];
    assert At(cfg, s, acts, 0) == s;
    forall k: nat | k < |rest| ensures At(cfg, s1, rest, k) == At(cfg, s, acts, k + 1) && rest[k] == acts[k + 1] {
    }
    assert forall k: nat :: 0 < k < |acts| ==>
             At(cfg, s, acts, k) == At(cfg, s1, rest, k - 1) && acts[k] == rest[k - 1];
  }

  /** Over a run: the two block each other after every effect exactly if no effect
      separates them. So `singleton` does not let the older of the two go first. */
  lemma {:induction false} BlockedExactly(cfg: Config, s: State, acts: seq<Action>, a: JobId, b: JobId)
    requires cfg.Valid() && Safe(cfg, s) && Run(cfg, s, acts) && Blocked(s.table, a, b)
    ensures AlwaysBlocked(cfg, s, acts, a, b) <==> NeverSeparated(cfg, s, acts, a, b)
    decreases |acts|
  {
    if acts != [] {
      hide Safe, Blocked, Separates, Enabled, Apply, AlwaysBlocked, NeverSeparated;
      var s1 := Apply(cfg, s, acts[0]);
      StepIsSafe(cfg, s, acts[0]);
      StepUnblocksExactly(cfg, s, acts[0], a, b);
      AlwaysFromFirst(cfg, s, acts, a, b);
      NeverFromFirst(cfg, s, acts, a, b);
      if Blocked(s1.table, a, b) {
        BlockedExactly(cfg, s1, acts[1..], a, b);
      } else if AlwaysBlocked(cfg, s1, acts[1..], a, b) {
        AlwaysFromStart(cfg, s1, acts[1..], a, b);
      }
    }
  }

  lemma AlwaysFromStart(cfg: Config, s: State, acts: seq<Action>, a: JobId, b: JobId)
    requires Run(cfg, s, acts) && AlwaysBlocked(cfg, s, acts, a, b)
    ensures Blocked(s.table, a, b)
  {
    assert At(cfg, s, acts, 0) == s;
  }

  // ----- a pair that any user can make -----

  const NIGHTLY :=
    SubmitRequest("nightly", "ann", "cpu", 1, 1, 0, 0, false, [Singleton], None, None, false, None, false)

  /** The same script submitted twice with `singleton`: neither copy will run. A
      rename to the name it has changes nothing; one to another name ends it. */
  lemma TwoNightlies(cfg: Config, now: int)
    ensures Run(cfg, INITIAL, [Create(NIGHTLY, now), Create(NIGHTLY, now)])
    ensures var s := Exec(cfg, INITIAL, [Create(NIGHTLY, now), Create(NIGHTLY, now)]);
            && Blocked(s.table, 1, 2)
            && Enabled(cfg, s, Change(1, NameEdit("nightly"))) && Enabled(cfg, s, Change(1, NameEdit("weekly")))
            && Blocked(Apply(cfg, s, Change(1, NameEdit("nightly"))).table, 1, 2)
            && !Blocked(Apply(cfg, s, Change(1, NameEdit("weekly"))).table, 1, 2)
  {
    var a := Create(NIGHTLY, now);
    var s1 := Apply(cfg, INITIAL, a);
    var s2 := Apply(cfg, s1, a);
    assert [a, a][1..] == [a] && [a][1..] == [];
    assert Run(cfg, s2, []) && Exec(cfg, s2, []) == s2;
    assert Run(cfg, s1, [a]) && Exec(cfg, s1, [a]) == s2;
    assert s2.table.rows[1] == NewRow(NIGHTLY, 1, None, None, None, None, now);
    assert s2.table.rows[2] == NewRow(NIGHTLY, 2, None, None, None, None, now);
    assert "nightly"[0] != "weekly"[0];
  }
}
