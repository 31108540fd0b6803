/** Array specifications: `0-6:2,9%3` and the task ids it stands for. */
module ArraySpec {
  import opened Basics
  import opened Text

  /** One comma-separated piece, parsed. */
  datatype Segment = One(id: int) | Range(start: int, end: int, step: int) {
    predicate Valid() {
      match this
      case One(id) => 0 <= id <= I32_MAX
      case Range(start, end, step) => 0 <= start <= end <= I32_MAX && 0 < step <= I32_MAX
    }

    /** The task ids the piece stands for. */
    predicate Denotes(t: int) {
      match this
      case One(id) => t == id
      case Range(start, end, step) => step > 0 && start <= t <= end && (t - start) % step == 0
    }

    /** The last id of a range; the loop still adds the step to it. */
    function Last(): int
      requires Valid()
    {
      match this
      case One(id) => id
      case Range(start, end, step) => end - (end - start) % step
    }

    /** Whether the loop that expands the piece leaves i32. */
    predicate Overflows()
      requires Valid()
    {
      Range? && Last() + step > I32_MAX
    }
  }

  datatype Spec = Spec(segments: seq<Segment>, limit: Option<nat>)

  // ----- parsing -----

  function ParseId(text: string): Option<int> {
    ParseSigned(text, I32_MIN, I32_MAX)
  }

  /** The part of `parse_array_segment` before its loop. A single id may carry a
      step, which is checked and ignored. */
  function ParseSegment(segment: string): (r: Option<Segment>)
  {
    if segment == [] then None
    else
      var halves := SplitOnce(segment, ':');
      var range := if halves.Some? then Trim(halves.value.0) else segment;
      var step := if halves.Some? then ParseId(Trim(halves.value.1)) else Some(1);
      if step.None? || step.value <= 0 then None
      else
        var ends := SplitOnce(range, '-');
        if ends.Some? then
          var start, end := ParseId(Trim(ends.value.0)), ParseId(Trim(ends.value.1));
          if start.None? || end.None? || start.value > end.value then None
          else Some(Range(start.value, end.value, step.value))
        else
          var id := ParseId(Trim(range));
          if id.None? then None else Some(One(id.value))
  }

  lemma {:induction false} FirstPartAvoids(s: string, c: char)
    requires SplitOnce(s, c).Some?
    ensures c !in SplitOnce(s, c).value.0
  {
    if s[0] != c { FirstPartAvoids(s[1..], c); }
  }

  lemma {:induction false} TrimStartSelects(s: string)
    ensures forall c :: c in TrimStart(s) ==> c in s
  {
    if s != [] && IsSpace(s[0]) { TrimStartSelects(s[1..]); }
  }

  lemma {:induction false} TrimEndSelects(s: string)
    ensures forall c :: c in TrimEnd(s) ==> c in s
  {
    if s != [] && IsSpace(s[|s| - 1]) { TrimEndSelects(s[..|s| - 1]); }
  }

  lemma NoMinusNoNegative(s: string)
    requires '-' !in s && ParseId(Trim(s)).Some?
    ensures ParseId(Trim(s)).value >= 0
  {
    TrimStartSelects(s);
    TrimEndSelects(TrimStart(s));
  }

  /** A minus sign always separates, so no task id is negative. */
  lemma SegmentsAreValid(segment: string)
    requires ParseSegment(segment).Some?
    ensures ParseSegment(segment).value.Valid()
  {
    var halves := SplitOnce(segment, ':');
    var range := if halves.Some? then Trim(halves.value.0) else segment;
    SplitOnceNone(range, '-');
    var ends := SplitOnce(range, '-');
    if ends.Some? {
      FirstPartAvoids(range, '-');
      NoMinusNoNegative(ends.value.0);
    } else {
      NoMinusNoNegative(range);
    }
  }

  function ParseSegments(parts: seq<string>): Option<seq<Segment>> {
    if parts == [] then Some([])
    else
      var first, rest := ParseSegment(Trim(parts[0])), ParseSegments(parts[1..]);
      if first.None? || rest.None? then None else Some([first.value] + rest.value)
  }

  /** The text before and after the percent sign; a limit that is not a number is an error. */
  function Header(value: string): Option<(string, Option<nat>)> {
    var trimmed := Trim(value);
    if trimmed == [] then None
    else
      var halves := SplitOnce(trimmed, '%');
      if halves.None? then Some((trimmed, None))
      else
        var limit := ParseUnsigned(Trim(halves.value.1), U32_MAX);
        if limit.None? then None else Some((Trim(halves.value.0), limit))
  }

  /** A well-formed specification, before expansion. */
  function ParseSpec(value: string): Option<Spec> {
    var header := Header(value);
    if header.None? then None
    else
      var segments := ParseSegments(Split(header.value.0, ','));
      if segments.None? then None else Some(Spec(segments.value, header.value.1))
  }

  // ----- expansion -----

  predicate Ascending(ids: seq<int>) {
    forall i, j :: 0 <= i < j < |ids| ==> ids[i] < ids[j]
  }

  predicate Denoted(segments: seq<Segment>, t: int) {
    exists k :: 0 <= k < |segments| && segments[k].Denotes(t)
  }

  /** The loop over one range. It fails, by overflow, exactly when the step after
      the last id leaves i32. */
  method ExpandSegment(segment: Segment) returns (ids: Option<seq<int>>)
    requires segment.Valid()
    ensures ids.None? <==> segment.Overflows()
    ensures ids.Some? ==> Ascending(ids.value) && ids.value != [] && forall t :: t in ids.value <==> segment.Denotes(t)
  {
    if segment.One? { return Some([segment.id]); }
    var start, end, step := segment.start, segment.end, segment.step;
    var pushed: seq<int> := [];
    var current := start;
    ghost var n: nat := 0;
    while current <= end
      invariant current == start + n * step <= I32_MAX
      invariant |pushed| == n && forall k :: 0 <= k < n ==> pushed[k] == start + k * step <= end
      invariant n > 0 ==> pushed[n - 1] == current - step
      decreases end + step - current
    {
      pushed := pushed + [current];
      n := n + 1;
      NextMultiple(start, n, step);
      if current + step > I32_MAX {
        LastIs(segment, n - 1);
        return None;
      }
      current := current + step;
    }
    if n > 0 { LastIs(segment, n - 1); }
    RangeSteps(start, end, step, n, pushed);
    ids := Some(pushed);
  }

  lemma NextMultiple(start: int, n: nat, step: int)
    requires n > 0
    ensures start + n * step == start + (n - 1) * step + step
  {
  }

  /** The last multiple within the range. */
  lemma LastIs(segment: Segment, k: nat)
    requires segment.Range? && segment.Valid()
    requires segment.start + k * segment.step <= segment.end < segment.start + k * segment.step + segment.step
    ensures segment.Last() == segment.start + k * segment.step
  {
    var d, step := segment.end - segment.start, segment.step;
    RemainderIs(d, k, step);
  }

  lemma RemainderIs(d: nat, k: nat, step: int)
    requires step > 0 && k * step <= d < k * step + step
    ensures d % step == d - k * step
  {
    QuotientIs(d, step, k);
  }

  lemma RangeSteps(start: int, end: int, step: int, n: nat, ids: seq<int>)
    requires 0 <= start <= end && step > 0 && start + n * step > end
    requires |ids| == n && forall k :: 0 <= k < n ==> ids[k] == start + k * step <= end
    ensures Ascending(ids) && ids != []
    ensures forall t :: t in ids <==> Range(start, end, step).Denotes(t)
  {
    forall i, j | 0 <= i < j < n ensures ids[i] < ids[j] {
      ScaledStep(i, j, step);
    }
    forall k | 0 <= k < n ensures Range(start, end, step).Denotes(ids[k]) {
      MultipleHasNoRemainder(k, step);
    }
    forall t | Range(start, end, step).Denotes(t) ensures t in ids {
      var k := StepOf(start, end, step, t, n);
      assert ids[k] == t;
    }
  }

  lemma StepOf(start: int, end: int, step: int, t: int, n: nat) returns (k: nat)
    requires step > 0 && start + n * step > end && Range(start, end, step).Denotes(t)
    ensures k < n && t == start + k * step
  {
    k := (t - start) / step;
    assert t - start == k * step;
    ScaledStep(n, k, step);
  }

  lemma MultipleHasNoRemainder(k: nat, step: int)
    requires step > 0
    ensures k * step >= 0 && k * step % step == 0
  {
    assert k * step >= 0;
    RemainderIs(k * step, k, step);
  }

  lemma Quotient(d: nat, step: int) returns (q: nat)
    requires step > 0
    ensures q * step <= d < q * step + step
  {
    q := d / step;
    assert d == q * step + d % step;
  }

  /** The last id of a range is one of its ids, and the greatest. */
  lemma LastIsGreatest(segment: Segment)
    requires segment.Valid() && segment.Range?
    ensures segment.Denotes(segment.Last())
    ensures forall t :: segment.Denotes(t) ==> t <= segment.Last()
  {
    var start, end, step := segment.start, segment.end, segment.step;
    var q := Quotient(end - start, step);
    LastIs(segment, q);
    DenotesMultiple(segment, q);
    forall t | segment.Denotes(t) ensures t <= start + q * step {
      GreatestMultiple(start, end, step, t, q);
    }
  }

  lemma DenotesMultiple(segment: Segment, k: nat)
    requires segment.Range? && segment.step > 0 && segment.start + k * segment.step <= segment.end
    ensures segment.Denotes(segment.start + k * segment.step)
  {
    MultipleHasNoRemainder(k, segment.step);
  }

  lemma GreatestMultiple(start: int, end: int, step: int, t: int, q: int)
    requires Range(start, end, step).Denotes(t) && end < start + q * step + step
    ensures t <= start + q * step
  {
    var k := (t - start) / step;
    assert t - start == k * step;
    ScaledStep(q, k, step);
    if k < q { ScaledStep(k, q, step); }
  }

  /** Expanding a range fails exactly when some id of it plus the step leaves i32.
      An end plus step within i32 rules that out, but is not necessary. */
  lemma OverflowsExactlyWhen(segment: Segment)
    requires segment.Valid() && segment.Range?
    ensures segment.Overflows() <==> exists t :: segment.Denotes(t) && t + segment.step > I32_MAX
    ensures segment.end + segment.step <= I32_MAX ==> !segment.Overflows()
    ensures Range(0, I32_MAX, 1).Overflows() && !Range(0, I32_MAX - 1, I32_MAX).Overflows()
  {
    LastIsGreatest(segment);
  }

  function InsertId(t: int, ids: seq<int>): seq<int> {
    if ids == [] || t <= ids[0] then [t] + ids else [ids[0]] + InsertId(t, ids[1..])
  }

  /** `sort_unstable`. */
  function SortIds(ids: seq<int>): seq<int> {
    if ids == [] then [] else InsertId(ids[0], SortIds(ids[1..]))
  }

  /** `dedup`: of equal neighbours, the first stays. */
  function Dedup(ids: seq<int>): seq<int>
    decreases |ids|
  {
    if |ids| <= 1 then ids
    else if ids[0] == ids[1] then Dedup([ids[0]] + ids[2..])
    else [ids[0]] + Dedup(ids[1..])
  }

  predicate NonDescending(ids: seq<int>) {
    forall i, j :: 0 <= i < j < |ids| ==> ids[i] <= ids[j]
  }

  lemma {:induction false} InsertIdSorts(t: int, ids: seq<int>)
    requires NonDescending(ids)
    ensures NonDescending(InsertId(t, ids))
    ensures forall x :: x in InsertId(t, ids) <==> x == t || x in ids
  {
    if ids != [] && t > ids[0] {
      InsertIdSorts(t, ids[1..]);
      var rest := InsertId(t, ids[1..]);
      forall k | 0 <= k < |rest| ensures ids[0] <= rest[k] { assert rest[k] in rest; }
      assert ids == [ids[0]] + ids[1..];
    }
  }

  lemma {:induction false} SortIdsSorts(ids: seq<int>)
    ensures NonDescending(SortIds(ids))
    ensures forall x :: x in SortIds(ids) <==> x in ids
  {
    if ids != [] {
      SortIdsSorts(ids[1..]);
      InsertIdSorts(ids[0], SortIds(ids[1..]));
      assert ids == [ids[0]] + ids[1..];
    }
  }

  lemma {:induction false} DedupAscends(ids: seq<int>)
    requires NonDescending(ids)
    ensures Ascending(Dedup(ids))
    ensures forall x :: x in Dedup(ids) <==> x in ids
    ensures ids != [] ==> Dedup(ids) != [] && Dedup(ids)[0] == ids[0]
    decreases |ids|
  {
    if |ids| > 1 {
      assert ids == [ids[0]] + ids[1..];
      if ids[0] == ids[1] {
        var shorter := [ids[0]] + ids[2..];
        assert ids[1..] == [ids[1]] + ids[2..] == shorter;
        DedupAscends(shorter);
      } else {
        DedupAscends(ids[1..]);
        var rest := Dedup(ids[1..]);
        forall k | 0 <= k < |rest| ensures ids[0] < rest[k] { assert rest[k] in ids[1..]; }
      }
    }
  }

  datatype Expansion = Expanded(taskIds: seq<int>, limit: Option<nat>) | Invalid | Overflowed

  /** Some piece overflows and every piece before it is well formed. */
  predicate OverflowFirst(parts: seq<string>) {
    parts != [] && var first := ParseSegment(Trim(parts[0]));
                   first.Some? && first.value.Valid() && (first.value.Overflows() || OverflowFirst(parts[1..]))
  }

  /** `parse_array_spec`: for a well-formed specification whose ranges stay within
      i32, the strictly ascending list of exactly the ids it stands for. */
  method ParseArraySpec(value: string) returns (r: Expansion)
    ensures r.Expanded? <==> ParseSpec(value).Some? && !OverflowFirst(Split(Header(value).value.0, ','))
    ensures r.Overflowed? <==> Header(value).Some? && OverflowFirst(Split(Header(value).value.0, ','))
    ensures r.Expanded? ==>
              && r.limit == ParseSpec(value).value.limit
              && r.taskIds != [] && Ascending(r.taskIds)
              && (forall t :: t in r.taskIds <==> Denoted(ParseSpec(value).value.segments, t))
  {
    var header := Header(value);
    if header.None? { return Invalid; }
    var parts := Split(header.value.0, ',');
    var taskIds: seq<int> := [];
    ghost var done: seq<Segment> := [];
    assert parts[0..] == parts;
    assert forall rest: seq<Segment> :: done + rest == rest;
    hide ParseSegment, Trim, Split, Header;
    for i := 0 to |parts|
      invariant OverflowFirst(parts) <==> OverflowFirst(parts[i..])
      invariant ParseSegments(parts) == Continued(done, ParseSegments(parts[i..]))
      invariant forall t :: t in taskIds <==> Denoted(done, t)
      invariant i > 0 ==> taskIds != []
    {
      assert parts[i..][1..] == parts[i + 1..];
      var segment := ParseSegment(Trim(parts[i]));
      if segment.None? { return Invalid; }
      SegmentsAreValid(Trim(parts[i]));
      var ids := ExpandSegment(segment.value);
      if ids.None? { return Overflowed; }
      OneMoreSegment(done, segment.value, taskIds, ids.value);
      OneMoreParsed(done, segment.value, ParseSegments(parts[i + 1..]));
      taskIds := taskIds + ids.value;
      done := done + [segment.value];
    }
    assert done + [] == done;
    SortIdsSorts(taskIds);
    DedupAscends(SortIds(taskIds));
    ghost var expanded := taskIds;
    taskIds := Dedup(SortIds(taskIds));
    assert expanded[0] in taskIds;
    if taskIds == [] { return Invalid; }
    r := Expanded(taskIds, header.value.1);
  }

  function Continued(done: seq<Segment>, rest: Option<seq<Segment>>): Option<seq<Segment>> {
    if rest.None? then None else Some(done + rest.value)
  }

  lemma OneMoreParsed(done: seq<Segment>, segment: Segment, rest: Option<seq<Segment>>)
    ensures Continued(done, if rest.None? then None else Some([segment] + rest.value))
         == Continued(done + [segment], rest)
  {
    if rest.Some? { assert done + ([segment] + rest.value) == done + [segment] + rest.value; }
  }

  lemma OneMoreSegment(done: seq<Segment>, segment: Segment, taskIds: seq<int>, ids: seq<int>)
    requires forall t :: t in taskIds <==> Denoted(done, t)
    requires forall t :: t in ids <==> segment.Denotes(t)
    ensures forall t :: t in taskIds + ids <==> Denoted(done + [segment], t)
  {
    forall t ensures Denoted(done + [segment], t) <==> Denoted(done, t) || segment.Denotes(t) {
      var all := done + [segment];
      if k :| 0 <= k < |done| && done[k].Denotes(t) { assert all[k].Denotes(t); }
      if segment.Denotes(t) { assert all[|done|].Denotes(t); }
    }
  }

  // ----- the language accepted -----

  function RenderSegment(segment: Segment): string
    requires segment.Valid()
  {
    match segment
    case One(id) => Decimal(id)
    case Range(start, end, step) => Decimal(start) + "-" + Decimal(end) + ":" + Decimal(step)
  }

  predicate AllValid(segments: seq<Segment>) {
    forall k :: 0 <= k < |segments| ==> segments[k].Valid()
  }

  function RenderSegments(segments: seq<Segment>): seq<string>
    requires AllValid(segments)
  {
    seq(|segments|, k requires 0 <= k < |segments| => RenderSegment(segments[k]))
  }

  function RenderSpec(spec: Spec): string
    requires AllValid(spec.segments)
  {
    Join(RenderSegments(spec.segments), ',') + (if spec.limit.Some? then "%" + Decimal(spec.limit.value) else "")
  }

  lemma DecimalIsId(n: nat)
    requires n <= I32_MAX
    ensures ParseId(Decimal(n)) == Some(n) && Trim(Decimal(n)) == Decimal(n)
  {
    SignedRoundTrip(n, 0, I32_MIN, I32_MAX);
    assert Zeros(0) + Decimal(n) == Decimal(n);
    TrimIsIdentity(Decimal(n));
  }

  lemma OneRoundTrip(id: nat)
    requires id <= I32_MAX
    ensures ParseSegment(Decimal(id)) == Some(One(id))
  {
    DecimalIsId(id);
    SplitOnceNone(Decimal(id), ':');
    SplitOnceNone(Decimal(id), '-');
  }

  predicate Plain(s: string) {
    NoSpace(s) && ',' !in s && '%' !in s
  }

  /** Digits, as an id and as characters. */
  predicate Reads(s: string, n: int) {
    ParseId(s) == Some(n) && Trim(s) == s && Plain(s) && ':' !in s && '-' !in s
  }

  lemma DecimalReadsAs(n: nat)
    requires n <= I32_MAX
    ensures Reads(Decimal(n), n)
  {
    DecimalIsId(n);
  }

  lemma PlainTogether(a: string, c: char, b: string)
    requires Plain(a) && Plain(b) && Plain([c])
    ensures Plain(a + [c] + b)
  {
  }

  lemma Avoids(a: string, c: char, b: string, d: char)
    requires d !in a && d !in b && c != d
    ensures d !in a + [c] + b
  {
  }

  lemma RangeReads(a: string, b: string, c: string, start: int, end: int, step: int)
    requires Reads(a, start) && Reads(b, end) && Reads(c, step) && start <= end && step > 0
    ensures ParseSegment(a + "-" + b + ":" + c) == Some(Range(start, end, step))
    ensures Plain(a + "-" + b + ":" + c)
  {
    var range := a + "-" + b;
    PlainTogether(a, '-', b);
    PlainTogether(range, ':', c);
    Avoids(a, '-', b, ':');
    TrimIsIdentity(range);
    hide ParseId, Trim, SplitOnce, Plain, NoSpace;
    SplitOnceAt(range, c, ':');
    SplitOnceAt(a, b, '-');
    assert |range + ":" + c| > 0;
  }

  lemma SegmentRoundTrip(segment: Segment)
    requires segment.Valid()
    ensures ParseSegment(RenderSegment(segment)) == Some(segment) && Plain(RenderSegment(segment))
  {
    hide Reads, Plain, ParseSegment, Decimal;
    match segment
    case One(id) =>
      DecimalReadsAs(id);
      OneRoundTrip(id);
      assert Plain(Decimal(id)) by { ReadsIsPlain(Decimal(id), id); }
    case Range(start, end, step) =>
      DecimalReadsAs(start);
      DecimalReadsAs(end);
      DecimalReadsAs(step);
      RangeReads(Decimal(start), Decimal(end), Decimal(step), start, end, step);
  }

  lemma ReadsIsPlain(s: string, n: int)
    requires Reads(s, n)
    ensures Plain(s)
  {
  }

  lemma ParseOneMore(part: string, segment: Segment, parts: seq<string>, segments: seq<Segment>)
    requires ParseSegment(part) == Some(segment) && Plain(part) && ParseSegments(parts) == Some(segments)
    ensures ParseSegments([part] + parts) == Some([segment] + segments)
  {
  }

  lemma {:induction false} SegmentsRoundTrip(segments: seq<Segment>)
    requires AllValid(segments)
    ensures ParseSegments(RenderSegments(segments)) == Some(segments)
  {
    if segments != [] {
      var texts := RenderSegments(segments);
      SegmentRoundTrip(segments[0]);
      SegmentsRoundTrip(segments[1..]);
      hide RenderSegment, ParseSegment, Trim, Plain, ParseSegments;
      ParseOneMore(texts[0], segments[0], RenderSegments(segments[1..]), segments[1..]);
      assert texts == [texts[0]] + RenderSegments(segments[1..]);
      assert [segments[0]] + segments[1..] == segments;
    }
  }

  lemma {:induction false} JoinKeeps(parts: seq<string>, c: char)
    requires forall k :: 0 <= k < |parts| ==> NoSpace(parts[k]) && '%' !in parts[k]
    requires c != '%' && !IsSpace(c)
    ensures NoSpace(Join(parts, c)) && '%' !in Join(parts, c)
    ensures parts != [] && parts[0] != [] ==> Join(parts, c) != []
  {
    if |parts| > 1 { JoinKeeps(parts[1..], c); }
  }

  /** Every list of valid pieces, with any limit, is written as a specification
      that is read as those pieces and that limit. */
  lemma SpecRoundTrip(spec: Spec)
    requires spec.segments != [] && AllValid(spec.segments) && (spec.limit.Some? ==> spec.limit.value <= U32_MAX)
    ensures ParseSpec(RenderSpec(spec)) == Some(spec)
  {
    var parts := RenderSegments(spec.segments);
    var body, text := Join(parts, ','), RenderSpec(spec);
    forall k | 0 <= k < |parts| ensures NoSpace(parts[k]) && '%' !in parts[k] && ',' !in parts[k] {
      SegmentRoundTrip(spec.segments[k]);
    }
    assert parts[0] != [] by {
      SegmentRoundTrip(spec.segments[0]);
      assert ParseSegment("").None?;
    }
    JoinKeeps(parts, ',');
    SplitJoin(parts, ',');
    SegmentsRoundTrip(spec.segments);
    hide RenderSegment, RenderSegments, ParseSegments, Split, Join, ParseSegment;
    HeaderRoundTrip(body, spec.limit);
  }

  lemma HeaderRoundTrip(body: string, limit: Option<nat>)
    requires body != [] && NoSpace(body) && '%' !in body && (limit.Some? ==> limit.value <= U32_MAX)
    ensures Header(body + (if limit.Some? then "%" + Decimal(limit.value) else "")) == Some((body, limit))
  {
    TrimIsIdentity(body);
    if limit.Some? {
      var number := Decimal(limit.value);
      DecimalIsPlain(limit.value);
      assert body + ("%" + number) == body + "%" + number;
      SplitOnceAt(body, number, '%');
      TrimIsIdentity(body + "%" + number);
    } else {
      assert body + "" == body;
      SplitOnceNone(body, '%');
    }
  }
}
