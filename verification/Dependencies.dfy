/** Dependency specifications as text, and what their separators mean. */
module Dependencies {
  import opened Basics
  import opened Jobs
  import opened Scheduling
  import opened Text

  /** Trimmed, non-empty pieces. */
  function Pieces(s: string, c: char): seq<string> { Kept(Split(s, c)) }

  function Kept(parts: seq<string>): seq<string> {
    if parts == [] then []
    else (if Trim(parts[0]) == [] then [] else [Trim(parts[0])]) + Kept(parts[1..])
  }

  function KindOf(name: string): DependencyKind {
    if name == "after" then After
    else if name == "afterany" then AfterAny
    else if name == "afterok" then AfterOk
    else if name == "afternotok" then AfterNotOk
    else UnknownKind
  }

  function ParseJobIds(parts: seq<string>): Option<seq<int>> {
    if parts == [] then Some([])
    else
      var first, rest := ParseSigned(parts[0], I64_MIN, I64_MAX), ParseJobIds(parts[1..]);
      if first.None? || rest.None? then None else Some([first.value] + rest.value)
  }

  /** One clause; None if an id is not a number. */
  function ParseClause(clause: string): Option<Clause> {
    if EqIgnoreCase(clause, "singleton") then Some(Singleton)
    else
      var halves := SplitOnce(clause, ':');
      if halves.None? then Some(NoColon)
      else
        var ids := ParseJobIds(Pieces(halves.value.1, ':'));
        if ids.None? then None else Some(On(KindOf(halves.value.0), ids.value))
  }

  function ParseClauses(clauses: seq<string>): Option<seq<Clause>> {
    if clauses == [] then Some([])
    else
      var first, rest := ParseClause(clauses[0]), ParseClauses(clauses[1..]);
      if first.None? || rest.None? then None else Some([first.value] + rest.value)
  }

  function ParseDependency(spec: string): Option<seq<Clause>> {
    ParseClauses(Pieces(Trim(spec), ','))
  }

  // ----- printing -----

  function KindName(kind: DependencyKind): string
    requires kind != UnknownKind
  {
    match kind
    case After => "after"
    case AfterAny => "afterany"
    case AfterOk => "afterok"
    case AfterNotOk => "afternotok"
  }

  /** The separator of ids decides: ':' keeps them in one clause, ',' does not. */
  function Render(kind: DependencyKind, ids: seq<nat>, separator: char): string
    requires kind != UnknownKind
  {
    KindName(kind) + ":" + Join(Decimals(ids), separator)
  }

  predicate Ids(ids: seq<nat>) {
    ids != [] && forall k :: 0 <= k < |ids| ==> ids[k] <= I64_MAX
  }

  /** Pieces of text that survive trimming unchanged. */
  predicate Tidy(parts: seq<string>) {
    forall k :: 0 <= k < |parts| ==> parts[k] != [] && NoSpace(parts[k])
  }

  lemma {:induction false} TidyIsKept(parts: seq<string>)
    requires Tidy(parts)
    ensures Kept(parts) == parts
  {
    if parts != [] {
      TrimIsIdentity(parts[0]);
      TidyIsKept(parts[1..]);
      assert [parts[0]] + parts[1..] == parts;
    }
  }

  lemma DecimalsAreTidy(ids: seq<nat>)
    ensures Tidy(Decimals(ids))
    ensures forall k, c :: 0 <= k < |ids| && !IsDigit(c) ==> c !in Decimals(ids)[k]
  {
  }

  lemma DecimalIsJobId(n: nat)
    requires n <= I64_MAX
    ensures ParseSigned(Decimal(n), I64_MIN, I64_MAX) == Some(n)
  {
    SignedRoundTrip(n, 0, I64_MIN, I64_MAX);
    assert Zeros(0) + Decimal(n) == Decimal(n);
  }

  lemma {:induction false} JobIdsRoundTrip(ids: seq<nat>)
    requires forall k :: 0 <= k < |ids| ==> ids[k] <= I64_MAX
    ensures ParseJobIds(Decimals(ids)) == Some(ids)
  {
    if ids != [] {
      DecimalIsJobId(ids[0]);
      JobIdsRoundTrip(ids[1..]);
      hide ParseSigned, Decimal;
      assert Decimals(ids)[1..] == Decimals(ids[1..]);
      assert [ids[0]] + ids[1..] == ids;
    }
  }

  lemma NamesArePlain(kind: DependencyKind)
    requires kind != UnknownKind
    ensures KindOf(KindName(kind)) == kind
    ensures ':' !in KindName(kind) && ',' !in KindName(kind) && NoSpace(KindName(kind)) && KindName(kind) != []
  {
  }

  lemma NotSingleton(clause: string, k: nat)
    requires k < |clause| && clause[k] == ':'
    ensures !EqIgnoreCase(clause, "singleton")
  {
  }

  /** One clause with its ids, as text and back. */
  lemma ClauseRoundTrip(kind: DependencyKind, ids: seq<nat>)
    requires kind != UnknownKind && Ids(ids)
    ensures ParseClause(Render(kind, ids, ':')) == Some(On(kind, ids))
  {
    var name, body := KindName(kind), Join(Decimals(ids), ':');
    NamesArePlain(kind);
    assert Render(kind, ids, ':')[|name|] == ':';
    NotSingleton(Render(kind, ids, ':'), |name|);
    SplitOnceAt(name, body, ':');
    DecimalsAreTidy(ids);
    SplitJoin(Decimals(ids), ':');
    TidyIsKept(Decimals(ids));
    JobIdsRoundTrip(ids);
  }

  lemma {:induction false} JoinTidy(parts: seq<string>, c: char)
    requires Tidy(parts) && !IsSpace(c) && parts != []
    ensures NoSpace(Join(parts, c)) && Join(parts, c) != []
  {
    if |parts| > 1 { JoinTidy(parts[1..], c); }
  }

  lemma {:induction false} JoinAvoids(parts: seq<string>, c: char, d: char)
    requires c != d && forall k :: 0 <= k < |parts| ==> d !in parts[k]
    ensures d !in Join(parts, c)
  {
    if |parts| > 1 { JoinAvoids(parts[1..], c, d); }
  }

  lemma OneClause(text: string, clause: Clause)
    requires ParseClause(text) == Some(clause) && text != [] && NoSpace(text) && ',' !in text
    ensures ParseDependency(text) == Some([clause])
  {
    TrimIsIdentity(text);
    SplitNothing(text, ',');
    TidyIsKept([text]);
    hide ParseClause, Trim, Split, Kept, NoSpace;
    assert [text][1..] == [];
    assert ParseClauses([]) == Some([]);
    assert [clause] + [] == [clause];
  }

  /** Ids separated by colons are one dependency on all of them. */
  lemma ColonListRoundTrip(kind: DependencyKind, ids: seq<nat>)
    requires kind != UnknownKind && Ids(ids)
    ensures ParseDependency(Render(kind, ids, ':')) == Some([On(kind, ids)])
  {
    ClauseRoundTrip(kind, ids);
    NamesArePlain(kind);
    DecimalsAreTidy(ids);
    JoinTidy(Decimals(ids), ':');
    JoinAvoids(Decimals(ids), ':', ',');
    hide ParseClause, ParseDependency, KindName, Decimals;
    OneClause(Render(kind, ids, ':'), On(kind, ids));
  }

  function NoColons(n: nat): seq<Clause> {
    if n == 0 then [] else [NoColon] + NoColons(n - 1)
  }

  lemma {:induction false} NumbersAreNoClauses(ids: seq<nat>)
    ensures ParseClauses(Decimals(ids)) == Some(NoColons(|ids|))
  {
    if ids != [] {
      var s := Decimal(ids[0]);
      SplitOnceNone(s, ':');
      assert !EqIgnoreCase(s, "singleton") by {
        if |s| == 9 { assert IsDigit(s[0]) && Lower(s[0]) == s[0]; assert Lower("singleton"[0]) == 's'; }
      }
      NumbersAreNoClauses(ids[1..]);
      hide ParseClause, Decimal;
      assert Decimals(ids)[1..] == Decimals(ids[1..]);
    }
  }

  /** Ids separated by commas, as the documentation writes them, are a dependency
      on the first one and clauses that no table of jobs satisfies: with more
      than one id the job waits forever. */
  lemma CommaListNeverSatisfied(kind: DependencyKind, ids: seq<nat>, t: Table, r: Job)
    requires kind != UnknownKind && Ids(ids) && |ids| > 1
    requires ParseDependency(Render(kind, ids, ',')) == Some(r.dependency)
    ensures !DependencySatisfied(t, r)
  {
    CommaListParses(kind, ids);
    var clauses := r.dependency;
    assert clauses[1] == NoColon;
    assert !ClauseSatisfied(t, r, clauses[1]);
  }

  /** The documented comma list means what the documentation says for a single id
      and never for more. */
  lemma CommaListExactly(kind: DependencyKind, ids: seq<nat>)
    requires kind != UnknownKind && Ids(ids)
    ensures ParseDependency(Render(kind, ids, ',')) == Some([On(kind, ids)]) <==> |ids| == 1
  {
    CommaListParses(kind, ids);
    hide ParseDependency, Render, Ids;
    if |ids| == 1 {
      assert ids[..1] == ids && NoColons(0) == [] && [On(kind, ids)] + NoColons(0) == [On(kind, ids)];
    } else {
      assert |[On(kind, ids[..1])] + NoColons(|ids| - 1)| > 1;
    }
  }

  /** A comma list is one clause for the first id, and one that means nothing for each further id. */
  lemma CommaListParses(kind: DependencyKind, ids: seq<nat>)
    requires kind != UnknownKind && Ids(ids)
    ensures ParseDependency(Render(kind, ids, ',')) == Some([On(kind, ids[..1])] + NoColons(|ids| - 1))
  {
    var text, rest := Render(kind, ids, ','), Decimals(ids[1..]);
    var head := Render(kind, ids[..1], ':');
    var parts := [head] + rest;
    CommaListSplits(kind, ids);
    ClauseRoundTrip(kind, ids[..1]);
    NumbersAreNoClauses(ids[1..]);
    hide Render, ParseClause, Decimals, Trim, Split, Kept;
    assert parts[1..] == rest;
  }

  lemma CommaListSplits(kind: DependencyKind, ids: seq<nat>)
    requires kind != UnknownKind && Ids(ids)
    ensures Pieces(Trim(Render(kind, ids, ',')), ',') == [Render(kind, ids[..1], ':')] + Decimals(ids[1..])
  {
    var text, rest := Render(kind, ids, ','), Decimals(ids[1..]);
    var parts := [Render(kind, ids[..1], ':')] + rest;
    RenderedPieces(kind, ids);
    JoinTidy(parts, ',');
    TrimIsIdentity(text);
    SplitJoin(parts, ',');
    TidyIsKept(parts);
  }

  lemma RenderedPieces(kind: DependencyKind, ids: seq<nat>)
    requires kind != UnknownKind && Ids(ids)
    ensures var parts := [Render(kind, ids[..1], ':')] + Decimals(ids[1..]);
            && Render(kind, ids, ',') == Join(parts, ',') && Tidy(parts)
            && forall k :: 0 <= k < |parts| ==> ',' !in parts[k]
  {
    var text, rest := Render(kind, ids, ','), Decimals(ids[1..]);
    var head := Render(kind, ids[..1], ':');
    var parts := [head] + rest;
    NamesArePlain(kind);
    DecimalsAreTidy(ids);
    DecimalsAreTidy(ids[1..]);
    assert Decimals(ids[..1]) == [Decimal(ids[0])] && head == KindName(kind) + ":" + Decimal(ids[0]);
    assert Decimals(ids) == [Decimal(ids[0])] + rest;
    forall k | 0 <= k < |parts| ensures ',' !in parts[k] && parts[k] != [] && NoSpace(parts[k]) {
      if k > 0 { assert parts[k] == rest[k - 1]; }
    }
    hide KindName, Decimal, NoSpace, Decimals;
    if rest == [] {
      assert parts == [head];
    } else {
      assert parts[1..] == rest && Decimals(ids)[1..] == rest;
      assert text == head + [','] + Join(rest, ',');
    }
  }
}
