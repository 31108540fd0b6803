/** The string operations the parsers and printers are built from: trimming,
    splitting, joining, and reading and writing decimal numbers. */
module Text {
  import opened Basics

  // ----- characters -----

  predicate IsDigit(c: char) { '0' <= c <= '9' }

  /** `char::is_whitespace`. */
  predicate IsSpace(c: char) {
    || '\t' <= c <= '\r' || c == ' ' || c == '\U{0085}' || c == '\U{00A0}' || c == '\U{1680}'
    || '\U{2000}' <= c <= '\U{200A}' || c == '\U{2028}' || c == '\U{2029}' || c == '\U{202F}' || c == '\U{205F}'
    || c == '\U{3000}'
  }

  /** Letters compared as `eq_ignore_ascii_case` compares them. */
  function Lower(c: char): char {
    if 'A' <= c <= 'Z' then c - 'A' + 'a' else c
  }

  predicate EqIgnoreCase(a: string, b: string) {
    |a| == |b| && forall k :: 0 <= k < |a| ==> Lower(a[k]) == Lower(b[k])
  }

  // ----- trimming -----

  function TrimStart(s: string): string {
    if s != [] && IsSpace(s[0]) then TrimStart(s[1..]) else s
  }

  function TrimEnd(s: string): string {
    if s != [] && IsSpace(s[|s| - 1]) then TrimEnd(s[..|s| - 1]) else s
  }

  function Trim(s: string): string { TrimEnd(TrimStart(s)) }

  predicate NoSpace(s: string) {
    forall k :: 0 <= k < |s| ==> !IsSpace(s[k])
  }

  lemma TrimIsIdentity(s: string)
    requires NoSpace(s)
    ensures Trim(s) == s
  {
  }

  // ----- splitting and joining -----

  /** `split`: the pieces between occurrences of a character; at least one piece. */
  function Split(s: string, c: char): (parts: seq<string>)
    ensures |parts| > 0
  {
    if s == [] then [""]
    else
      var rest := Split(s[1..], c);
      if s[0] == c then [""] + rest else [[s[0]] + rest[0]] + rest[1..]
  }

  /** `split_once`: around the first occurrence. */
  function SplitOnce(s: string, c: char): Option<(string, string)> {
    if s == [] then None
    else if s[0] == c then Some(("", s[1..]))
    else
      var rest := SplitOnce(s[1..], c);
      if rest.None? then None else Some(([s[0]] + rest.value.0, rest.value.1))
  }

  function Join(parts: seq<string>, c: char): string {
    if parts == [] then ""
    else if |parts| == 1 then parts[0]
    else parts[0] + [c] + Join(parts[1..], c)
  }

  lemma {:induction false} SplitPrefix(a: string, s: string, c: char)
    requires c !in a
    ensures Split(a + s, c) == [a + Split(s, c)[0]] + Split(s, c)[1..]
  {
    if a == [] {
      assert a + s == s && a + Split(s, c)[0] == Split(s, c)[0];
    } else {
      SplitPrefix(a[1..], s, c);
      assert (a + s)[1..] == a[1..] + s;
      var rest := Split(a[1..] + s, c);
      assert rest[1..] == Split(s, c)[1..];
      assert [a[0]] + (a[1..] + Split(s, c)[0]) == a + Split(s, c)[0];
    }
  }

  lemma SplitAtSeparator(a: string, s: string, c: char)
    requires c !in a
    ensures Split(a + [c] + s, c) == [a] + Split(s, c)
  {
    SplitPrefix(a, [c] + s, c);
    assert a + [c] + s == a + ([c] + s);
    assert ([c] + s)[1..] == s;
    assert Split([c] + s, c) == [""] + Split(s, c);
    assert a + "" == a;
  }

  lemma SplitNothing(a: string, c: char)
    requires c !in a
    ensures Split(a, c) == [a]
  {
    SplitPrefix(a, "", c);
    assert a + "" == a;
  }

  /** Splitting undoes joining, as long as no piece contains the separator. */
  lemma {:induction false} SplitJoin(parts: seq<string>, c: char)
    requires parts != [] && forall k :: 0 <= k < |parts| ==> c !in parts[k]
    ensures Split(Join(parts, c), c) == parts
  {
    if |parts| == 1 {
      SplitNothing(parts[0], c);
    } else {
      SplitJoin(parts[1..], c);
      SplitAtSeparator(parts[0], Join(parts[1..], c), c);
    }
  }

  lemma {:induction false} SplitOnceAt(a: string, s: string, c: char)
    requires c !in a
    ensures SplitOnce(a + [c] + s, c) == Some((a, s))
  {
    var whole := a + [c] + s;
    if a == [] {
      assert whole == [c] + s;
    } else {
      SplitOnceAt(a[1..], s, c);
      assert whole[1..] == a[1..] + [c] + s;
      assert [a[0]] + a[1..] == a;
    }
  }

  lemma {:induction false} SplitOnceNone(s: string, c: char)
    ensures SplitOnce(s, c).None? <==> c !in s
  {
    if s != [] { SplitOnceNone(s[1..], c); }
  }

  // ----- decimal numbers -----

  function Digit(n: nat): char
    requires n < 10
  {
    '0' + (n as char)
  }

  function DigitValue(c: char): nat
    requires IsDigit(c)
  {
    c as nat - '0' as nat
  }

  predicate AllDigits(s: string) {
    forall k :: 0 <= k < |s| ==> IsDigit(s[k])
  }

  /** Decimal digits of a number, without leading zeros. */
  function Decimal(n: nat): (s: string)
    ensures s != [] && AllDigits(s)
  {
    if n < 10 then [Digit(n)] else Decimal(n / 10) + [Digit(n % 10)]
  }

  function Zeros(n: nat): (s: string)
    ensures |s| == n && AllDigits(s)
  {
    seq(n, _ => '0')
  }

  /** `{:0w}` of a non-negative number. */
  function Padded(n: nat, w: nat): (s: string)
    ensures s != [] && AllDigits(s)
  {
    Zeros(if |Decimal(n)| < w then w - |Decimal(n)| else 0) + Decimal(n)
  }

  /** `{:0w}` of a signed number; the sign takes one place. */
  function PaddedInt(n: int, w: nat): string {
    if n >= 0 then Padded(n, w) else ['-'] + Padded(-n, if w > 0 then w - 1 else 0)
  }

  function Value(s: string): nat
    requires AllDigits(s)
  {
    if s == [] then 0 else 10 * Value(s[..|s| - 1]) + DigitValue(s[|s| - 1])
  }

  /** `parse` to an unsigned type: an optional plus sign and digits. */
  function ParseUnsigned(s: string, max: nat): Option<nat> {
    var digits := if s != [] && s[0] == '+' then s[1..] else s;
    if digits == [] || !AllDigits(digits) || Value(digits) > max then None else Some(Value(digits))
  }

  /** `parse` to a signed type: an optional sign and digits. */
  function ParseSigned(s: string, min: int, max: int): Option<int> {
    if s == [] then None
    else
      var digits := if s[0] == '+' || s[0] == '-' then s[1..] else s;
      if digits == [] || !AllDigits(digits) then None
      else
        var v: int := if s[0] == '-' then -(Value(digits) as int) else Value(digits);
        if min <= v <= max then Some(v) else None
  }

  lemma {:induction false} DecimalValue(n: nat)
    ensures Value(Decimal(n)) == n
  {
    if n >= 10 {
      DecimalValue(n / 10);
      var s := Decimal(n);
      assert s[..|s| - 1] == Decimal(n / 10);
    }
  }

  lemma {:induction false} LeadingZeros(k: nat, s: string)
    requires AllDigits(s)
    ensures AllDigits(Zeros(k) + s) && Value(Zeros(k) + s) == Value(s)
    decreases |s|, k
  {
    var t := Zeros(k) + s;
    if s != [] {
      LeadingZeros(k, s[..|s| - 1]);
      assert t[..|t| - 1] == Zeros(k) + s[..|s| - 1];
    } else if k > 0 {
      LeadingZeros(k - 1, s);
      assert t[..|t| - 1] == Zeros(k - 1) + s;
    }
  }

  lemma PaddedValue(n: nat, w: nat)
    ensures Value(Padded(n, w)) == n
  {
    DecimalValue(n);
    LeadingZeros(if |Decimal(n)| < w then w - |Decimal(n)| else 0, Decimal(n));
  }

  /** Reading back a printed number, however it was padded. */
  lemma UnsignedRoundTrip(n: nat, w: nat, max: nat)
    ensures ParseUnsigned(Padded(n, w), max) == if n <= max then Some(n) else None
  {
    PaddedValue(n, w);
    assert IsDigit(Padded(n, w)[0]);
  }

  lemma SignedRoundTrip(n: nat, w: nat, min: int, max: int)
    requires min <= 0
    ensures ParseSigned(Padded(n, w), min, max) == if n <= max then Some(n) else None
  {
    PaddedValue(n, w);
    assert IsDigit(Padded(n, w)[0]);
  }

  /** Digits contain no separator. */
  lemma DigitsAvoid(s: string, c: char)
    requires AllDigits(s) && !IsDigit(c)
    ensures c !in s
  {
  }

  // ----- GPU id lists -----

  function Decimals(ids: seq<nat>): seq<string> {
    seq(|ids|, k requires 0 <= k < |ids| => Decimal(ids[k]))
  }

  function JoinGpuIds(ids: seq<nat>): string {
    Join(Decimals(ids), ',')
  }

  function ParseIds(parts: seq<string>): Result<seq<nat>> {
    if parts == [] then Ok([])
    else
      var first, rest := ParseUnsigned(Trim(parts[0]), U32_MAX), ParseIds(parts[1..]);
      if first.None? || rest.Err? then Err else Ok([first.value] + rest.value)
  }

  function ParseGpuIds(value: string): Result<seq<nat>> {
    if Trim(value) == [] then Ok([]) else ParseIds(Split(value, ','))
  }

  lemma DecimalIsPlain(n: nat)
    ensures Trim(Decimal(n)) == Decimal(n)
    ensures ParseUnsigned(Decimal(n), U32_MAX) == if n <= U32_MAX then Some(n) else None
  {
    TrimIsIdentity(Decimal(n));
    UnsignedRoundTrip(n, 0, U32_MAX);
    assert Zeros(0) + Decimal(n) == Decimal(n);
  }

  predicate FitU32(ids: seq<nat>) {
    forall k :: 0 <= k < |ids| ==> ids[k] <= U32_MAX
  }

  lemma FitSplits(ids: seq<nat>)
    requires ids != []
    ensures FitU32(ids) <==> ids[0] <= U32_MAX && FitU32(ids[1..])
  {
  }

  lemma {:induction false} ParseIdsInverts(ids: seq<nat>)
    ensures ParseIds(Decimals(ids)) == if FitU32(ids) then Ok(ids) else Err
  {
    if ids != [] {
      DecimalIsPlain(ids[0]);
      FitSplits(ids);
      ParseIdsInverts(ids[1..]);
      hide FitU32, Trim, ParseUnsigned, Decimal;
      assert Decimals(ids)[1..] == Decimals(ids[1..]);
      assert [ids[0]] + ids[1..] == ids;
    }
  }

  /** Stored GPU ids are read back as they were written. */
  lemma GpuIdsRoundTrip(ids: seq<nat>)
    ensures ParseGpuIds(JoinGpuIds(ids)) == Ok(ids) <==> FitU32(ids)
  {
    if ids != [] {
      ParseIdsInverts(ids);
      forall k | 0 <= k < |ids| ensures ',' !in Decimals(ids)[k] { DigitsAvoid(Decimals(ids)[k], ','); }
      SplitJoin(Decimals(ids), ',');
      JoinedStartsWithDigit(ids);
    }
  }

  lemma JoinedStartsWithDigit(ids: seq<nat>)
    requires ids != []
    ensures Trim(JoinGpuIds(ids)) != []
  {
    var s := JoinGpuIds(ids);
    assert s[0] == Decimal(ids[0])[0] && IsDigit(s[0]);
    TrimKeepsFirst(s);
  }

  lemma {:induction false} TrimKeepsFirst(s: string)
    requires s != [] && !IsSpace(s[0])
    ensures TrimEnd(s) != [] && TrimEnd(s)[0] == s[0]
  {
    if IsSpace(s[|s| - 1]) { TrimKeepsFirst(s[..|s| - 1]); }
  }
}
