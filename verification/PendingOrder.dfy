/** The order in which the scheduler visits pending jobs: a sort, a grouping by
    array, and a round-robin merge, specified as one sort by (rank, group head). */
module PendingOrder {
  import opened Basics

  /** The fields of a job record that the ordering reads. */
  datatype Entry = Entry(id: nat, arrayJobId: Option<nat>, priority: int, submitTime: int)

  function GroupKey(e: Entry): nat {
    if e.arrayJobId.Some? then e.arrayJobId.value else e.id
  }

  /** Higher priority first, then earlier submission, then smaller id. */
  predicate Before(a: Entry, b: Entry) {
    a.priority > b.priority
    || (a.priority == b.priority && a.submitTime < b.submitTime)
    || (a.priority == b.priority && a.submitTime == b.submitTime && a.id < b.id)
  }

  ghost predicate DistinctIds(q: seq<Entry>) {
    forall i, j :: 0 <= i < j < |q| ==> q[i].id != q[j].id
  }

  // ----- sorting -----

  ghost predicate Sorted(q: seq<Entry>, less: (Entry, Entry) -> bool) {
    forall i, j :: 0 <= i < j < |q| ==> less(q[i], q[j])
  }

  ghost predicate SameElements(a: seq<Entry>, b: seq<Entry>) {
    forall e :: e in a <==> e in b
  }

  /** A strict total order on the entries of q. */
  ghost predicate StrictOn(q: seq<Entry>, less: (Entry, Entry) -> bool) {
    && (forall a :: a in q ==> !less(a, a))
    && (forall a, b :: a in q && b in q && a != b ==> less(a, b) || less(b, a))
    && (forall a, b, c :: a in q && b in q && c in q && less(a, b) && less(b, c) ==> less(a, c))
  }

  function Insert(e: Entry, q: seq<Entry>, less: (Entry, Entry) -> bool): seq<Entry> {
    if q == [] || less(e, q[0]) then [e] + q else [q[0]] + Insert(e, q[1..], less)
  }

  function SortBy(q: seq<Entry>, less: (Entry, Entry) -> bool): seq<Entry> {
    if q == [] then [] else Insert(q[0], SortBy(q[1..], less), less)
  }

  lemma {:induction false} InsertSorts(e: Entry, q: seq<Entry>, less: (Entry, Entry) -> bool)
    requires Sorted(q, less)
    requires forall x :: x in q ==> less(e, x) || less(x, e)
    requires forall x, y :: x in q && y in q && less(e, x) && less(x, y) ==> less(e, y)
    ensures Sorted(Insert(e, q, less), less)
    ensures forall x :: x in Insert(e, q, less) <==> x == e || x in q
    ensures multiset(Insert(e, q, less)) == multiset{e} + multiset(q)
  {
    if q == [] {
    } else if less(e, q[0]) {
      forall k | 0 <= k < |q| ensures less(e, q[k]) {
        assert k > 0 ==> less(q[0], q[k]);
      }
    } else {
      var rest := q[1..];
      assert q == [q[0]] + rest;
      InsertSorts(e, rest, less);
      var r := Insert(e, rest, less);
      forall k | 0 <= k < |r| ensures less(q[0], r[k]) {
        assert r[k] in r;
      }
    }
  }

  lemma {:induction false} SortBySorts(q: seq<Entry>, less: (Entry, Entry) -> bool)
    requires DistinctIds(q) && StrictOn(q, less)
    ensures Sorted(SortBy(q, less), less)
    ensures multiset(SortBy(q, less)) == multiset(q)
    ensures SameElements(SortBy(q, less), q)
  {
    if q != [] {
      var s := SortBy(q[1..], less);
      assert q == [q[0]] + q[1..];
      assert forall x :: x in q[1..] ==> x in q && x != q[0];
      SortBySorts(q[1..], less);
      InsertSorts(q[0], s, less);
    }
  }

  lemma FirstIsLeast(q: seq<Entry>, e: Entry, less: (Entry, Entry) -> bool)
    requires Sorted(q, less) && e in q
    ensures e == q[0] || less(q[0], e)
  {
  }

  /** A strict order sorts a set of entries in one way only. */
  lemma {:induction false} SortedOnce(a: seq<Entry>, b: seq<Entry>, less: (Entry, Entry) -> bool)
    requires Sorted(a, less) && Sorted(b, less) && SameElements(a, b)
    requires forall x, y :: x in a && y in a && less(x, y) ==> !less(y, x) && x != y
    ensures a == b
  {
    if a == [] || b == [] {
      assert multiset(a) == multiset{} && multiset(b) == multiset{};
      assert |multiset(a)| == |a| && |multiset(b)| == |b|;
    } else {
      assert a[0] in b && b[0] in a;
      FirstIsLeast(a, b[0], less);
      FirstIsLeast(b, a[0], less);
      assert a[0] == b[0];
      forall e ensures e in a[1..] <==> e in b[1..] {
        if e in a[1..] { assert e in a && less(a[0], e); }
        if e in b[1..] { assert e in b && less(b[0], e); }
      }
      SortedOnce(a[1..], b[1..], less);
    }
  }

  lemma BeforeIsStrict(q: seq<Entry>)
    requires DistinctIds(q)
    ensures StrictOn(q, Before)
  {
  }

  // ----- the closed form -----

  ghost function Ahead(jobs: seq<Entry>, e: Entry): set<Entry> {
    set y | y in jobs && GroupKey(y) == GroupKey(e) && Before(y, e)
  }

  /** The number of members of its group that come before e. */
  ghost function Rank(jobs: seq<Entry>, e: Entry): nat {
    |Ahead(jobs, e)|
  }

  ghost predicate IsHead(jobs: seq<Entry>, h: Entry, e: Entry) {
    && h in jobs && GroupKey(h) == GroupKey(e)
    && forall y :: y in jobs && GroupKey(y) == GroupKey(e) && y != h ==> Before(h, y)
  }

  /** The best member of the group of e. */
  ghost function Head(jobs: seq<Entry>, e: Entry): Entry {
    if exists h :: IsHead(jobs, h, e) then var h :| IsHead(jobs, h, e); h else e
  }

  ghost predicate Precedes(jobs: seq<Entry>, a: Entry, b: Entry) {
    Rank(jobs, a) < Rank(jobs, b)
    || (Rank(jobs, a) == Rank(jobs, b) && Before(Head(jobs, a), Head(jobs, b)))
  }

  ghost function PrecedesIn(jobs: seq<Entry>): (Entry, Entry) -> bool {
    (a, b) => Precedes(jobs, a, b)
  }

  /** The specification of `order_pending_jobs`. */
  ghost function QueueOrder(jobs: seq<Entry>): seq<Entry> {
    SortBy(jobs, PrecedesIn(jobs))
  }

  lemma HeadIs(jobs: seq<Entry>, h: Entry, e: Entry)
    requires IsHead(jobs, h, e)
    ensures Head(jobs, e) == h
  {
  }

  lemma PrecedesIsAsymmetric(jobs: seq<Entry>, a: Entry, b: Entry)
    ensures !(Precedes(jobs, a, b) && Precedes(jobs, b, a))
  {
  }

  // ----- groups -----

  function Group(q: seq<Entry>, key: nat): seq<Entry> {
    if q == [] then []
    else Group(q[..|q| - 1], key) + (if GroupKey(q[|q| - 1]) == key then [q[|q| - 1]] else [])
  }

  lemma {:induction false} GroupSelects(q: seq<Entry>, key: nat)
    ensures forall e :: e in Group(q, key) <==> e in q && GroupKey(e) == key
    ensures Sorted(q, Before) ==> Sorted(Group(q, key), Before)
  {
    if q != [] {
      var front, last := q[..|q| - 1], q[|q| - 1];
      assert q == front + [last];
      GroupSelects(front, key);
      var g := Group(front, key);
      forall i | Sorted(q, Before) && 0 <= i < |g| ensures Before(g[i], last) {
        assert g[i] in front;
      }
    }
  }

  /** The entries one round takes from the first m groups. */
  function Round(order: seq<Entry>, groups: map<nat, seq<Entry>>, r: nat, m: nat): seq<Entry>
    requires m <= |order| && forall h :: h in order ==> GroupKey(h) in groups
  {
    if m == 0 then []
    else
      var g := groups[GroupKey(order[m - 1])];
      Round(order, groups, r, m - 1) + (if r < |g| then [g[r]] else [])
  }

  function Rounds(order: seq<Entry>, groups: map<nat, seq<Entry>>, r: nat): seq<Entry>
    requires forall h :: h in order ==> GroupKey(h) in groups
  {
    if r == 0 then [] else Rounds(order, groups, r - 1) + Round(order, groups, r - 1, |order|)
  }

  /** What the grouping phase establishes. */
  ghost predicate Grouped(jobs: seq<Entry>, order: seq<Entry>, groups: map<nat, seq<Entry>>) {
    && (forall key :: key in groups ==>
          && groups[key] != [] && Sorted(groups[key], Before)
          && (forall e :: e in groups[key] <==> e in jobs && GroupKey(e) == key))
    && (forall e :: e in jobs ==> GroupKey(e) in groups)
    && Sorted(order, Before)
    && (forall h :: h in order <==> GroupKey(h) in groups && groups[GroupKey(h)][0] == h)
  }

  lemma MemberRankAndHead(jobs: seq<Entry>, order: seq<Entry>, groups: map<nat, seq<Entry>>, key: nat, r: nat)
    requires Grouped(jobs, order, groups) && key in groups && r < |groups[key]|
    ensures Rank(jobs, groups[key][r]) == r
    ensures Head(jobs, groups[key][r]) == groups[key][0]
    ensures groups[key][0] in order && groups[key][r] in jobs && GroupKey(groups[key][0]) == key
  {
    var g := groups[key];
    assert g[r] in g && g[0] in g;
    HeadIs(jobs, g[0], g[r]);
    assert Ahead(jobs, g[r]) == set y | y in g[..r] by {
      forall y ensures y in Ahead(jobs, g[r]) <==> y in g[..r] {
        if y in Ahead(jobs, g[r]) {
          assert y in g;
          var k :| 0 <= k < |g| && g[k] == y;
          assert k < r;
          assert y == g[..r][k];
        }
        if y in g[..r] { assert y in g; }
      }
    }
    DistinctCount(g[..r]);
  }

  lemma {:induction false} DistinctCount(q: seq<Entry>)
    requires Sorted(q, Before)
    ensures |set y | y in q| == |q|
  {
    if q != [] {
      var front, last := q[..|q| - 1], q[|q| - 1];
      DistinctCount(front);
      assert last !in front;
      assert (set y | y in q) == (set y | y in front) + {last};
    }
  }

  lemma {:induction false} RoundIsSorted(jobs: seq<Entry>, order: seq<Entry>, groups: map<nat, seq<Entry>>, r: nat,
                                         m: nat)
    requires Grouped(jobs, order, groups) && m <= |order|
    ensures Sorted(Round(order, groups, r, m), PrecedesIn(jobs))
    ensures forall e :: e in Round(order, groups, r, m) ==>
              e in jobs && Rank(jobs, e) == r && Head(jobs, e) in order[..m]
  {
    if m > 0 {
      RoundIsSorted(jobs, order, groups, r, m - 1);
      var h := order[m - 1];
      assert h in order;
      var g := groups[GroupKey(h)];
      var front := Round(order, groups, r, m - 1);
      if r < |g| {
        MemberRankAndHead(jobs, order, groups, GroupKey(h), r);
        forall i | 0 <= i < |front| ensures Precedes(jobs, front[i], g[r]) {
          assert front[i] in front;
        }
      }
      assert forall x :: x in order[..m - 1] ==> x in order[..m];
    }
  }

  lemma {:induction false} RoundsAreSorted(jobs: seq<Entry>, order: seq<Entry>, groups: map<nat, seq<Entry>>, r: nat)
    requires Grouped(jobs, order, groups)
    ensures Sorted(Rounds(order, groups, r), PrecedesIn(jobs))
    ensures forall e :: e in Rounds(order, groups, r) ==> e in jobs && Rank(jobs, e) < r
  {
    assert forall h :: h in order ==> GroupKey(h) in groups;
    hide Grouped, Round, Head, Rank, Sorted, Precedes;
    if r > 0 {
      RoundsAreSorted(jobs, order, groups, r - 1);
      RoundIsSorted(jobs, order, groups, r - 1, |order|);
      var a, b := Rounds(order, groups, r - 1), Round(order, groups, r - 1, |order|);
      forall x, y | x in a && y in b ensures PrecedesIn(jobs)(x, y) {
        RankDecides(jobs, x, y);
      }
      SortedOneAfterOther(a, b, PrecedesIn(jobs));
    } else {
      NothingIsSorted(PrecedesIn(jobs));
    }
  }

  lemma RankDecides(jobs: seq<Entry>, x: Entry, y: Entry)
    requires Rank(jobs, x) < Rank(jobs, y)
    ensures Precedes(jobs, x, y)
  {
  }

  lemma NothingIsSorted(less: (Entry, Entry) -> bool)
    ensures Sorted([], less)
  {
  }

  lemma SortedOneAfterOther(a: seq<Entry>, b: seq<Entry>, less: (Entry, Entry) -> bool)
    requires Sorted(a, less) && Sorted(b, less) && forall x, y :: x in a && y in b ==> less(x, y)
    ensures Sorted(a + b, less)
  {
    forall i, j | 0 <= i < j < |a + b| ensures less((a + b)[i], (a + b)[j]) {
      assert (a + b)[i] == if i < |a| then a[i] else b[i - |a|];
      assert (a + b)[j] == if j < |a| then a[j] else b[j - |a|];
      if i < |a| <= j { assert a[i] in a && b[j - |a|] in b; }
    }
  }

  lemma {:induction false} RoundTakes(order: seq<Entry>, groups: map<nat, seq<Entry>>, r: nat, m: nat, i: nat)
    requires i < m <= |order| && forall h :: h in order ==> GroupKey(h) in groups
    requires r < |groups[GroupKey(order[i])]|
    ensures groups[GroupKey(order[i])][r] in Round(order, groups, r, m)
  {
    if i < m - 1 { RoundTakes(order, groups, r, m - 1, i); }
  }

  lemma {:induction false} RoundsTake(jobs: seq<Entry>, order: seq<Entry>, groups: map<nat, seq<Entry>>, r: nat,
                                      key: nat, i: nat)
    requires Grouped(jobs, order, groups) && key in groups && i < |groups[key]| && i < r
    ensures groups[key][i] in Rounds(order, groups, r)
  {
    assert forall h :: h in order ==> GroupKey(h) in groups;
    hide Sorted, Round, Head, Rank, PrecedesIn;
    if i == r - 1 {
      MemberRankAndHead(jobs, order, groups, key, i);
      var k :| 0 <= k < |order| && order[k] == groups[key][0];
      RoundTakes(order, groups, i, |order|, k);
    } else {
      RoundsTake(jobs, order, groups, r - 1, key, i);
    }
  }

  /** Enough rounds empty every group, and what they took is the closed form. */
  lemma RoundsAreQueueOrder(jobs: seq<Entry>, order: seq<Entry>, groups: map<nat, seq<Entry>>, r: nat)
    requires DistinctIds(jobs) && Grouped(jobs, order, groups)
    requires forall key :: key in groups ==> |groups[key]| <= r
    ensures Rounds(order, groups, r) == QueueOrder(jobs)
    ensures StrictOn(jobs, PrecedesIn(jobs))
  {
    var q := Rounds(order, groups, r);
    RoundsAreSorted(jobs, order, groups, r);
    forall e | e in jobs ensures e in q {
      var g := groups[GroupKey(e)];
      var i :| 0 <= i < |g| && g[i] == e;
      RoundsTake(jobs, order, groups, r, GroupKey(e), i);
    }
    SortedListOrders(jobs, q);
    SortBySorts(jobs, PrecedesIn(jobs));
    SortedOnce(q, QueueOrder(jobs), PrecedesIn(jobs));
  }

  /** A list of all the jobs that is sorted shows that the order is strict and total on them. */
  lemma SortedListOrders(jobs: seq<Entry>, q: seq<Entry>)
    requires Sorted(q, PrecedesIn(jobs)) && SameElements(q, jobs)
    ensures StrictOn(jobs, PrecedesIn(jobs))
  {
  }

  /** The entries taken never outnumber the jobs. */
  lemma RoundsAreBounded(jobs: seq<Entry>, order: seq<Entry>, groups: map<nat, seq<Entry>>, r: nat)
    requires Grouped(jobs, order, groups)
    ensures |Rounds(order, groups, r)| <= |jobs|
  {
    var q := Rounds(order, groups, r);
    RoundsAreSorted(jobs, order, groups, r);
    CountSorted(jobs, q);
    CountElements(jobs);
    assert (set y | y in q) <= (set y | y in jobs);
    SubsetCount(set y | y in q, set y | y in jobs);
  }

  lemma {:induction false} CountSorted(jobs: seq<Entry>, q: seq<Entry>)
    requires Sorted(q, PrecedesIn(jobs))
    ensures |set y | y in q| == |q|
  {
    if q != [] {
      var front, last := q[..|q| - 1], q[|q| - 1];
      CountSorted(jobs, front);
      forall i | 0 <= i < |front| ensures front[i] != last {
        assert Precedes(jobs, q[i], last);
      }
      assert (set y | y in q) == (set y | y in front) + {last};
    }
  }

  lemma {:induction false} CountElements(q: seq<Entry>)
    ensures |set y | y in q| <= |q|
  {
    if q != [] {
      var front, last := q[..|q| - 1], q[|q| - 1];
      CountElements(front);
      assert (set y | y in q) == (set y | y in front) + {last};
    }
  }

  lemma {:induction false} EmptyRoundMeans(order: seq<Entry>, groups: map<nat, seq<Entry>>, r: nat, m: nat, k: nat)
    requires k < m <= |order| && forall h :: h in order ==> GroupKey(h) in groups
    requires Round(order, groups, r, m) == []
    ensures |groups[GroupKey(order[k])]| <= r
  {
    if k < m - 1 { EmptyRoundMeans(order, groups, r, m - 1, k); }
  }

  lemma NoProgressMeansDone(jobs: seq<Entry>, order: seq<Entry>, groups: map<nat, seq<Entry>>, r: nat)
    requires DistinctIds(jobs) && Grouped(jobs, order, groups) && Round(order, groups, r, |order|) == []
    ensures Rounds(order, groups, r) == QueueOrder(jobs)
  {
    forall key | key in groups ensures |groups[key]| <= r {
      MemberRankAndHead(jobs, order, groups, key, 0);
      var k :| 0 <= k < |order| && order[k] == groups[key][0];
      EmptyRoundMeans(order, groups, r, |order|, k);
    }
    RoundsAreQueueOrder(jobs, order, groups, r);
  }

  // ----- the program -----

  /** `order_pending_jobs`: sort, group, order the groups by their heads, merge. */
  method OrderPendingJobs(jobs: seq<Entry>) returns (ordered: seq<Entry>)
    requires DistinctIds(jobs)
    ensures ordered == QueueOrder(jobs)
  {
    var sorted := SortBy(jobs, Before);
    BeforeIsStrict(jobs);
    SortBySorts(jobs, Before);
    var grouped := GroupJobs(sorted);
    forall key ensures key in grouped <==> exists e :: e in jobs && GroupKey(e) == key {
      GroupSelects(sorted, key);
      if key in grouped { assert grouped[key][0] in grouped[key]; }
    }
    forall key | key in grouped
      ensures Sorted(grouped[key], Before) && forall e :: e in grouped[key] <==> e in jobs && GroupKey(e) == key
    {
      GroupSelects(sorted, key);
    }
    var groupOrder := OrderGroups(jobs, grouped);
    ordered := Merge(jobs, groupOrder, grouped);
  }

  /** Fills the map of groups, keeping the sorted order inside each. */
  method GroupJobs(sorted: seq<Entry>) returns (grouped: map<nat, seq<Entry>>)
    ensures forall key :: key in grouped <==> Group(sorted, key) != []
    ensures forall key :: key in grouped ==> grouped[key] == Group(sorted, key)
  {
    grouped := map[];
    for i := 0 to |sorted|
      invariant forall key :: key in grouped <==> Group(sorted[..i], key) != []
      invariant forall key :: key in grouped ==> grouped[key] == Group(sorted[..i], key)
    {
      var key := GroupKey(sorted[i]);
      assert sorted[..i + 1][..i] == sorted[..i];
      grouped := grouped[key := (if key in grouped then grouped[key] else []) + [sorted[i]]];
    }
    assert sorted[..|sorted|] == sorted;
  }

  /** The groups, by their heads. The order in which the map yields its keys
      does not show, because the heads are sorted right after. */
  method OrderGroups(ghost jobs: seq<Entry>, grouped: map<nat, seq<Entry>>) returns (groupOrder: seq<Entry>)
    requires DistinctIds(jobs)
    requires forall key :: key in grouped ==>
               grouped[key] != [] && forall e :: e in grouped[key] <==> e in jobs && GroupKey(e) == key
    ensures Sorted(groupOrder, Before)
    ensures forall h :: h in groupOrder <==> GroupKey(h) in grouped && grouped[GroupKey(h)][0] == h
  {
    var heads: seq<Entry> := [];
    var keys: set<nat> := grouped.Keys;
    while keys != {}
      invariant keys <= grouped.Keys && DistinctIds(heads)
      invariant forall h :: h in heads <==> GroupKey(h) in grouped.Keys - keys && grouped[GroupKey(h)][0] == h
    {
      var key := SomeKey(keys);
      var top := grouped[key][0];
      assert top in grouped[key];
      HeadIsNew(jobs, grouped, heads, top);
      heads := heads + [top];
      keys := keys - {key};
    }
    groupOrder := SortBy(heads, Before);
    BeforeIsStrict(heads);
    SortBySorts(heads, Before);
  }

  method SomeKey(keys: set<nat>) returns (key: nat)
    requires keys != {}
    ensures key in keys
  {
    key :| key in keys;
  }

  lemma HeadIsNew(jobs: seq<Entry>, grouped: map<nat, seq<Entry>>, heads: seq<Entry>, top: Entry)
    requires DistinctIds(jobs) && top in jobs && top !in heads
    requires forall key :: key in grouped ==> grouped[key] != [] && forall e :: e in grouped[key] ==> e in jobs
    requires forall h :: h in heads ==> GroupKey(h) in grouped && grouped[GroupKey(h)][0] == h
    ensures forall i :: 0 <= i < |heads| ==> heads[i].id != top.id
  {
    forall i | 0 <= i < |heads| ensures heads[i].id != top.id {
      var h := heads[i];
      assert h in heads && h in grouped[GroupKey(h)];
      var j :| 0 <= j < |jobs| && jobs[j] == h;
      var k :| 0 <= k < |jobs| && jobs[k] == top;
    }
  }

  function Rest(q: seq<Entry>, r: nat): seq<Entry> {
    if r <= |q| then q[r..] else []
  }

  /** During round r the first m groups have given up one entry more than the others. */
  ghost predicate MidRound(order: seq<Entry>, groups: map<nat, seq<Entry>>, grouped: map<nat, seq<Entry>>, r: nat,
                           m: nat) {
    forall k :: 0 <= k < |order| ==>
      var key := GroupKey(order[k]);
      key in groups && key in grouped && grouped[key] == Rest(groups[key], if k < m then r + 1 else r)
  }

  /** The round-robin merge: takes the first entry off each group in turn, until
      a round makes no progress. */
  method Merge(ghost jobs: seq<Entry>, groupOrder: seq<Entry>, groups: map<nat, seq<Entry>>)
    returns (ordered: seq<Entry>)
    requires DistinctIds(jobs) && Grouped(jobs, groupOrder, groups)
    ensures ordered == QueueOrder(jobs)
  {
    var grouped := groups;
    ordered := [];
    ghost var r := 0;
    RoundsBegin(jobs, groupOrder, groups);
    hide Grouped, MidRound, QueueOrder, Rounds, Round, DistinctIds;
    while true
      invariant MidRound(groupOrder, groups, grouped, r, 0)
      invariant ordered == Rounds(groupOrder, groups, r)
      invariant |ordered| <= |jobs|
      decreases |jobs| - |ordered|
    {
      var progressed, taken;
      progressed, taken, grouped := TakeRound(jobs, groupOrder, groups, grouped, r);
      ordered := ordered + taken;
      RoundIsTaken(jobs, groupOrder, groups, r);
      if !progressed {
        break;
      }
      r := r + 1;
    }
  }

  lemma RoundsBegin(jobs: seq<Entry>, order: seq<Entry>, groups: map<nat, seq<Entry>>)
    requires Grouped(jobs, order, groups)
    ensures MidRound(order, groups, groups, 0, 0) && Rounds(order, groups, 0) == []
  {
    forall k | 0 <= k < |order| ensures GroupKey(order[k]) in groups {
      assert order[k] in order;
    }
  }

  /** After one more round there is more, or all is done. */
  lemma RoundIsTaken(jobs: seq<Entry>, order: seq<Entry>, groups: map<nat, seq<Entry>>, r: nat)
    requires DistinctIds(jobs) && Grouped(jobs, order, groups)
    ensures Rounds(order, groups, r + 1) == Rounds(order, groups, r) + Round(order, groups, r, |order|)
    ensures |Rounds(order, groups, r + 1)| <= |jobs|
    ensures Round(order, groups, r, |order|) == [] ==> Rounds(order, groups, r) == QueueOrder(jobs)
  {
    assert forall h :: h in order ==> GroupKey(h) in groups;
    hide Grouped, QueueOrder, Round, DistinctIds;
    RoundsAreBounded(jobs, order, groups, r + 1);
    if Round(order, groups, r, |order|) == [] { NoProgressMeansDone(jobs, order, groups, r); }
  }

  /** One round: the first entry of every group that still has one. */
  method TakeRound(ghost jobs: seq<Entry>, groupOrder: seq<Entry>, ghost groups: map<nat, seq<Entry>>,
                   remaining: map<nat, seq<Entry>>, ghost r: nat)
    returns (progressed: bool, taken: seq<Entry>, grouped: map<nat, seq<Entry>>)
    requires Grouped(jobs, groupOrder, groups) && MidRound(groupOrder, groups, remaining, r, 0)
    ensures taken == Round(groupOrder, groups, r, |groupOrder|)
    ensures progressed <==> taken != []
    ensures MidRound(groupOrder, groups, grouped, r + 1, 0)
  {
    hide MidRound;
    grouped, taken, progressed := remaining, [], false;
    for m := 0 to |groupOrder|
      invariant MidRound(groupOrder, groups, grouped, r, m)
      invariant taken == Round(groupOrder, groups, r, m)
      invariant progressed <==> taken != []
    {
      var key := GroupKey(groupOrder[m]);
      KeysDiffer(jobs, groupOrder, groups, m);
      MidRoundStep(groupOrder, groups, grouped, r, m);
      if grouped[key] != [] {
        taken := taken + [grouped[key][0]];
        grouped := grouped[key := grouped[key][1..]];
        progressed := true;
      }
    }
    RoundOver(groupOrder, groups, grouped, r);
  }

  lemma RoundOver(order: seq<Entry>, groups: map<nat, seq<Entry>>, grouped: map<nat, seq<Entry>>, r: nat)
    requires MidRound(order, groups, grouped, r, |order|)
    ensures MidRound(order, groups, grouped, r + 1, 0)
  {
  }

  lemma MidRoundStep(order: seq<Entry>, groups: map<nat, seq<Entry>>, grouped: map<nat, seq<Entry>>, r: nat, m: nat)
    requires MidRound(order, groups, grouped, r, m) && m < |order|
    requires forall k :: 0 <= k < |order| && k != m ==> GroupKey(order[k]) != GroupKey(order[m])
    ensures var key := GroupKey(order[m]);
            && key in groups && key in grouped
            && (grouped[key] == [] <==> |groups[key]| <= r)
            && (grouped[key] != [] ==> grouped[key][0] == groups[key][r])
            && var taken := if grouped[key] == [] then grouped else grouped[key := grouped[key][1..]];
               MidRound(order, groups, taken, r, m + 1)
  {
  }

  lemma KeysDiffer(jobs: seq<Entry>, order: seq<Entry>, groups: map<nat, seq<Entry>>, m: nat)
    requires Grouped(jobs, order, groups) && m < |order|
    ensures forall k :: 0 <= k < |order| && k != m ==> GroupKey(order[k]) != GroupKey(order[m])
  {
  }

  // ----- what the order means -----

  /** Every job is visited once, and a job comes before another exactly when its
      rank is smaller, or its rank is equal and its group's head comes first. */
  lemma QueueOrderIsByRankAndHead(jobs: seq<Entry>)
    requires DistinctIds(jobs)
    ensures multiset(QueueOrder(jobs)) == multiset(jobs) && |QueueOrder(jobs)| == |jobs|
    ensures forall i, j :: 0 <= i < |QueueOrder(jobs)| && 0 <= j < |QueueOrder(jobs)| ==>
              (i < j <==> Precedes(jobs, QueueOrder(jobs)[i], QueueOrder(jobs)[j]))
  {
    QueueOrderIsStrict(jobs);
    SortBySorts(jobs, PrecedesIn(jobs));
    var q := QueueOrder(jobs);
    assert |multiset(q)| == |q| && |multiset(jobs)| == |jobs|;
    forall i, j | 0 <= i < |q| && 0 <= j < |q| ensures i < j <==> Precedes(jobs, q[i], q[j]) {
      OrderedBothWays(jobs, q, i, j);
    }
  }

  lemma OrderedBothWays(jobs: seq<Entry>, q: seq<Entry>, i: nat, j: nat)
    requires Sorted(q, PrecedesIn(jobs)) && i < |q| && j < |q|
    ensures i < j <==> Precedes(jobs, q[i], q[j])
  {
  }

  lemma QueueOrderIsStrict(jobs: seq<Entry>)
    requires DistinctIds(jobs)
    ensures StrictOn(jobs, PrecedesIn(jobs))
  {
    var order, groups := SomeGrouping(jobs);
    var r := |jobs|;
    forall key | key in groups ensures |groups[key]| <= r {
      DistinctCount(groups[key]);
      CountElements(jobs);
      assert (set y | y in groups[key]) <= (set y | y in jobs);
      SubsetCount(set y | y in groups[key], set y | y in jobs);
    }
    RoundsAreQueueOrder(jobs, order, groups, r);
  }

  lemma SomeGrouping(jobs: seq<Entry>) returns (order: seq<Entry>, groups: map<nat, seq<Entry>>)
    requires DistinctIds(jobs)
    ensures Grouped(jobs, order, groups)
  {
    var sorted := SortBy(jobs, Before);
    BeforeIsStrict(jobs);
    SortBySorts(jobs, Before);
    var keys := set e | e in jobs :: GroupKey(e);
    groups := map key | key in keys :: Group(sorted, key);
    forall key | key in groups
      ensures groups[key] != [] && Sorted(groups[key], Before)
      ensures forall e :: e in groups[key] <==> e in jobs && GroupKey(e) == key
    {
      GroupSelects(sorted, key);
      var e :| e in jobs && GroupKey(e) == key;
      assert e in groups[key];
    }
    order := Heads(jobs, sorted, groups);
  }

  /** The heads, read off the sorted list. */
  lemma {:induction false} Heads(jobs: seq<Entry>, sorted: seq<Entry>, groups: map<nat, seq<Entry>>)
    returns (order: seq<Entry>)
    requires Sorted(sorted, Before)
    requires forall key :: key in groups ==> groups[key] != []
    requires forall e :: e in sorted ==> GroupKey(e) in groups
    ensures Sorted(order, Before)
    ensures forall h :: h in order <==> h in sorted && groups[GroupKey(h)][0] == h
  {
    if sorted == [] {
      order := [];
    } else {
      var front, last := sorted[..|sorted| - 1], sorted[|sorted| - 1];
      assert sorted == front + [last];
      order := Heads(jobs, front, groups);
      forall i | 0 <= i < |order| ensures Before(order[i], last) { assert order[i] in order && order[i] in front; }
      if groups[GroupKey(last)][0] == last { order := order + [last]; }
    }
  }

  lemma QueueOrderElements(jobs: seq<Entry>)
    requires DistinctIds(jobs)
    ensures SameElements(QueueOrder(jobs), jobs)
    ensures forall i, j :: 0 <= i < j < |QueueOrder(jobs)| ==> QueueOrder(jobs)[i].id != QueueOrder(jobs)[j].id
  {
    QueueOrderIsStrict(jobs);
    SortBySorts(jobs, PrecedesIn(jobs));
    var q := QueueOrder(jobs);
    hide QueueOrder, SortBy;
    forall i, j | 0 <= i < j < |q| ensures q[i].id != q[j].id {
      assert PrecedesIn(jobs)(q[i], q[j]);
      assert q[i] in q && q[j] in q;
      var k :| 0 <= k < |jobs| && jobs[k] == q[i];
      var l :| 0 <= l < |jobs| && jobs[l] == q[j];
    }
  }

  /** The first job visited is the best one by priority, submission and id. */
  lemma FirstIsBest(jobs: seq<Entry>)
    requires DistinctIds(jobs) && jobs != []
    ensures QueueOrder(jobs) != [] && QueueOrder(jobs)[0] in jobs
    ensures forall e :: e in jobs && e != QueueOrder(jobs)[0] ==> Before(QueueOrder(jobs)[0], e)
  {
    QueueOrderIsStrict(jobs);
    SortBySorts(jobs, PrecedesIn(jobs));
    BeforeIsStrict(jobs);
    SortBySorts(jobs, Before);
    var sorted, q := SortBy(jobs, Before), QueueOrder(jobs);
    assert jobs[0] in sorted && jobs[0] in q;
    var best := sorted[0];
    assert best in sorted;
    forall e | e in jobs && e != best ensures Before(best, e) && Precedes(jobs, best, e) {
      assert e in sorted;
      BestPrecedes(jobs, best, e);
    }
    FirstIsLeast(q, best, PrecedesIn(jobs));
    PrecedesIsAsymmetric(jobs, q[0], best);
    assert q[0] in q;
  }

  lemma BestPrecedes(jobs: seq<Entry>, best: Entry, e: Entry)
    requires StrictOn(jobs, PrecedesIn(jobs)) && best in jobs && e in jobs && e != best
    requires forall x :: x in jobs && x != best ==> Before(best, x)
    ensures Precedes(jobs, best, e)
  {
  }

  /** Without arrays the queue is plainly the sorted list. */
  lemma NoArraysMeansSorted(jobs: seq<Entry>)
    requires DistinctIds(jobs) && forall e :: e in jobs ==> e.arrayJobId.None?
    ensures QueueOrder(jobs) == SortBy(jobs, Before)
  {
    BeforeIsStrict(jobs);
    SortBySorts(jobs, Before);
    QueueOrderIsStrict(jobs);
    SortBySorts(jobs, PrecedesIn(jobs));
    var sorted := SortBy(jobs, Before);
    forall e | e in jobs ensures Rank(jobs, e) == 0 && Head(jobs, e) == e {
      AloneInGroup(jobs, e);
    }
    forall i, j | 0 <= i < j < |sorted| ensures PrecedesIn(jobs)(sorted[i], sorted[j]) {
      assert sorted[i] in sorted && sorted[j] in sorted;
    }
    SortedOnce(QueueOrder(jobs), sorted, PrecedesIn(jobs));
  }

  lemma AloneInGroup(jobs: seq<Entry>, e: Entry)
    requires DistinctIds(jobs) && e in jobs && forall x :: x in jobs ==> x.arrayJobId.None?
    ensures Rank(jobs, e) == 0 && Head(jobs, e) == e
  {
  }
}
