/** Timestamps and durations as text. */
module TimeText {
  import opened Basics
  import opened Calendar
  import opened Text

  // ----- timestamps -----

  function FormatDate(d: Date): string
    requires d.month >= 0 && d.day >= 0
  {
    PaddedInt(d.year, 4) + "-" + Padded(d.month, 2) + "-" + Padded(d.day, 2)
  }

  function FormatClock(hour: nat, minute: nat, second: nat): string {
    Padded(hour, 2) + ":" + Padded(minute, 2) + ":" + Padded(second, 2)
  }

  function FormatDateTime(t: DateTime): string
    requires t.date.month >= 0 && t.date.day >= 0 && t.hour >= 0 && t.minute >= 0 && t.second >= 0
  {
    FormatDate(t.date) + "T" + FormatClock(t.hour, t.minute, t.second)
  }

  /** `format_timestamp`. */
  function FormatTimestamp(timestamp: int): string {
    CivilFieldsInRange(timestamp);
    FormatDateTime(CivilFromEpoch(timestamp))
  }

  lemma CivilFieldsInRange(timestamp: int)
    ensures var t := CivilFromEpoch(timestamp);
            1 <= t.date.month && 1 <= t.date.day && 0 <= t.hour && 0 <= t.minute && 0 <= t.second
  {
    DayRoundTrip(timestamp / 86_400);
    TimestampRoundTrip(timestamp);
  }

  function ParseDate(value: string): Option<Date> {
    var parts := Split(value, '-');
    if |parts| != 3 then None
    else
      var year, month, day :=
        ParseSigned(parts[0], I32_MIN, I32_MAX), ParseUnsigned(parts[1], U32_MAX), ParseUnsigned(parts[2], U32_MAX);
      if year.None? || month.None? || day.None? then None else Some(Date(year.value, month.value, day.value))
  }

  function ParseClock(value: string): Option<(nat, nat, nat)> {
    var parts := Split(value, ':');
    if |parts| != 3 then None
    else
      var hour, minute, second :=
        ParseUnsigned(parts[0], U32_MAX), ParseUnsigned(parts[1], U32_MAX), ParseUnsigned(parts[2], U32_MAX);
      if hour.None? || minute.None? || second.None? then None else Some((hour.value, minute.value, second.value))
  }

  /** `parse_datetime_parts`. */
  function ParseDateTime(value: string): Option<DateTime> {
    var atT := SplitOnce(value, 'T');
    var halves := if atT.Some? then atT else SplitOnce(value, ' ');
    if halves.Some? then
      var date, clock := ParseDate(halves.value.0), ParseClock(halves.value.1);
      if date.None? || clock.None? then None
      else Some(DateTime(date.value, clock.value.0, clock.value.1, clock.value.2))
    else
      var date := ParseDate(value);
      if date.None? then None else Some(DateTime(date.value, 0, 0, 0))
  }

  /** `parse_time_filter`, at the given time. */
  function ParseTimeFilter(value: string, now: int): Result<int> {
    var number := ParseSigned(value, I64_MIN, I64_MAX);
    if number.Some? then Ok(number.value)
    else if EqIgnoreCase(value, "now") then Ok(now)
    else
      var t := ParseDateTime(value);
      if t.None? then Err else DatetimeToEpoch(t.value)
  }

  lemma SplitThree(a: string, b: string, d: string, c: char)
    requires AllDigits(a) && AllDigits(b) && AllDigits(d) && !IsDigit(c)
    ensures Split(a + [c] + b + [c] + d, c) == [a, b, d]
  {
    SplitAtSeparator(a, b + [c] + d, c);
    SplitAtSeparator(b, d, c);
    SplitNothing(d, c);
    assert a + [c] + b + [c] + d == a + [c] + (b + [c] + d);
  }

  lemma ClockRoundTrip(hour: nat, minute: nat, second: nat)
    requires hour <= 23 && minute <= 59 && second <= 59
    ensures ParseClock(FormatClock(hour, minute, second)) == Some((hour, minute, second))
  {
    SplitThree(Padded(hour, 2), Padded(minute, 2), Padded(second, 2), ':');
    UnsignedRoundTrip(hour, 2, U32_MAX);
    UnsignedRoundTrip(minute, 2, U32_MAX);
    UnsignedRoundTrip(second, 2, U32_MAX);
  }

  /** A printed date is read back exactly if its year has no minus sign. */
  lemma DateTextRoundTrip(d: Date)
    requires IsI32(d.year) && 0 <= d.month <= 12 && 0 <= d.day <= 31
    ensures ParseDate(FormatDate(d)) == if d.year >= 0 then Some(d) else None
  {
    if d.year >= 0 {
      SplitThree(Padded(d.year, 4), Padded(d.month, 2), Padded(d.day, 2), '-');
      SignedRoundTrip(d.year, 4, I32_MIN, I32_MAX);
      UnsignedRoundTrip(d.month, 2, U32_MAX);
      UnsignedRoundTrip(d.day, 2, U32_MAX);
    } else {
      NegativeYearIsRefused(d);
    }
  }

  lemma NegativeYearIsRefused(d: Date)
    requires d.year < 0 <= d.month && d.day >= 0
    ensures ParseDate(FormatDate(d)) == None
  {
    hide Padded, Split, ParseSigned, ParseUnsigned;
    var year, month, day := Padded(-d.year, 3), Padded(d.month, 2), Padded(d.day, 2);
    SplitThree(year, month, day, '-');
    SplitAtSeparator("", year + "-" + month + "-" + day, '-');
    assert FormatDate(d) == "" + "-" + (year + "-" + month + "-" + day);
  }

  lemma FormatDateAvoids(d: Date, c: char)
    requires d.month >= 0 && d.day >= 0 && !IsDigit(c) && c != '-'
    ensures c !in FormatDate(d)
  {
  }

  /** A printed date and time is neither a number nor "now". */
  lemma FormattedIsNoNumber(t: DateTime)
    requires t.date.month >= 0 && t.date.day >= 0 && t.hour >= 0 && t.minute >= 0 && t.second >= 0
    ensures ParseSigned(FormatDateTime(t), I64_MIN, I64_MAX).None?
    ensures !EqIgnoreCase(FormatDateTime(t), "now")
  {
    var date, clock := FormatDate(t.date), FormatClock(t.hour, t.minute, t.second);
    var s := FormatDateTime(t);
    assert s[|date|] == 'T' && !IsDigit('T');
    assert |date| > 1;
    assert s[1..][|date| - 1] == 'T';
    assert IsDigit(s[|s| - 1]) && Lower(s[|s| - 1]) != 'w' by {
      assert s[|s| - 1] == clock[|clock| - 1] == Padded(t.second, 2)[|Padded(t.second, 2)| - 1];
    }
  }

  lemma DateTimeRoundTrip(t: DateTime)
    requires IsI32(t.date.year) && 0 <= t.date.month <= 12 && 0 <= t.date.day <= 31
    requires 0 <= t.hour <= 23 && 0 <= t.minute <= 59 && 0 <= t.second <= 59
    ensures ParseDateTime(FormatDateTime(t)) == if t.date.year >= 0 then Some(t) else None
  {
    FormatDateAvoids(t.date, 'T');
    SplitOnceAt(FormatDate(t.date), FormatClock(t.hour, t.minute, t.second), 'T');
    DateTextRoundTrip(t.date);
    ClockRoundTrip(t.hour, t.minute, t.second);
  }

  /** A printed timestamp is read back as itself exactly when its year is
      neither negative nor beyond i32. */
  lemma TimestampTextRoundTrip(timestamp: int, now: int)
    ensures ParseTimeFilter(FormatTimestamp(timestamp), now) == Ok(timestamp)
       <==> 0 <= CivilFromDaysExact(timestamp / 86_400).year <= I32_MAX
  {
    var t := CivilFromEpoch(timestamp);
    DayRoundTrip(timestamp / 86_400);
    TimestampRoundTrip(timestamp);
    CivilFieldsInRange(timestamp);
    hide CivilFromDaysExact, FormatDateTime, ParseDateTime, DatetimeToEpoch, ParseSigned, EqIgnoreCase;
    FormattedIsNoNumber(t);
    DateTimeRoundTrip(t);
  }

  lemma DecimalLength(n: nat, w: nat)
    requires w == 2 || w == 4
    requires n < (if w == 2 then 100 else 10_000)
    ensures |Padded(n, w)| == w
  {
    DigitsOf(n);
    if w == 4 {
      DigitsOf(n / 10);
      DigitsOf(n / 100);
    }
  }

  lemma DigitsOf(n: nat)
    ensures |Decimal(n)| == if n < 10 then 1 else |Decimal(n / 10)| + 1
    ensures n / 10 / 10 == n / 100
    ensures n < 100 ==> |Decimal(n)| <= 2
  {
  }

  /** Timestamps of four-digit years all have the same shape: YYYY-MM-DDThh:mm:ss. */
  lemma TimestampShape(timestamp: int)
    requires 0 <= CivilFromDaysExact(timestamp / 86_400).year <= 9_999
    ensures var s := FormatTimestamp(timestamp);
            && |s| == 19 && s[4] == s[7] == '-' && s[10] == 'T' && s[13] == s[16] == ':'
            && (forall k :: 0 <= k < 19 && k !in {4, 7, 10, 13, 16} ==> IsDigit(s[k]))
  {
    hide CivilFromDaysExact, Padded;
    var t := CivilFromEpoch(timestamp);
    DayRoundTrip(timestamp / 86_400);
    TimestampRoundTrip(timestamp);
    CivilFieldsInRange(timestamp);
    DecimalLength(t.date.year, 4);
    DecimalLength(t.date.month, 2);
    DecimalLength(t.date.day, 2);
    DecimalLength(t.hour, 2);
    DecimalLength(t.minute, 2);
    DecimalLength(t.second, 2);
    var y, m, d := Padded(t.date.year, 4), Padded(t.date.month, 2), Padded(t.date.day, 2);
    var h, n, c := Padded(t.hour, 2), Padded(t.minute, 2), Padded(t.second, 2);
    assert FormatTimestamp(timestamp) == y + "-" + m + "-" + d + "T" + h + ":" + n + ":" + c;
  }

  // ----- durations -----

  /** `format_duration_secs`. */
  function FormatDuration(seconds: int): string {
    var s: nat := if seconds < 0 then 0 else seconds;
    var days, hours, minutes, secs := s / 86_400, s % 86_400 / 3_600, s % 86_400 % 3_600 / 60, s % 86_400 % 60;
    (if days > 0 then Decimal(days) + "-" else "") + FormatClock(hours, minutes, secs)
  }

  /** A parse of an unsigned quantity; the arithmetic overflows u64 in the last case. */
  datatype Parsed = Parsed(value: nat) | Malformed | Overflow

  function ParseComponents(parts: seq<string>): Option<seq<nat>> {
    if parts == [] then Some([])
    else
      var first, rest := ParseUnsigned(parts[0], U64_MAX), ParseComponents(parts[1..]);
      if first.None? || rest.None? then None else Some([first.value] + rest.value)
  }

  function TotalSeconds(days: nat, hours: nat, minutes: nat, seconds: nat): Parsed {
    var total := days * 86_400 + hours * 3_600 + minutes * 60 + seconds;
    if total <= U64_MAX then Parsed(total) else Overflow
  }

  /** `parse_time_limit_secs`: [days-]minutes, [days-]minutes:seconds or [days-]hours:minutes:seconds. */
  function ParseTimeLimit(value: string): Parsed {
    var trimmed := Trim(value);
    if trimmed == [] then Malformed
    else
      var halves := SplitOnce(trimmed, '-');
      var days := if halves.Some? then ParseUnsigned(halves.value.0, U64_MAX) else Some(0);
      var numbers := ParseComponents(Split(if halves.Some? then halves.value.1 else trimmed, ':'));
      if days.None? || numbers.None? then Malformed
      else
        var n := numbers.value;
        if |n| == 1 then TotalSeconds(days.value, 0, n[0], 0)
        else if |n| == 2 then TotalSeconds(days.value, 0, n[0], n[1])
        else if |n| == 3 then TotalSeconds(days.value, n[0], n[1], n[2])
        else Malformed
  }

  lemma ClockComponents(hour: nat, minute: nat, second: nat)
    requires hour <= 23 && minute <= 59 && second <= 59
    ensures ParseComponents(Split(FormatClock(hour, minute, second), ':')) == Some([hour, minute, second])
  {
    var h, m, s := Padded(hour, 2), Padded(minute, 2), Padded(second, 2);
    SplitThree(h, m, s, ':');
    UnsignedRoundTrip(hour, 2, U64_MAX);
    UnsignedRoundTrip(minute, 2, U64_MAX);
    UnsignedRoundTrip(second, 2, U64_MAX);
    hide ParseUnsigned, Padded;
    assert [s] + [] == [s] && [second] + [] == [second];
    assert [m] + [s] == [m, s] && [minute] + [second] == [minute, second];
    assert [h] + [m, s] == [h, m, s] && [hour] + [minute, second] == [hour, minute, second];
    ParseOneMore(s, second, [], []);
    ParseOneMore(m, minute, [s], [second]);
    ParseOneMore(h, hour, [m, s], [minute, second]);
  }

  lemma ParseOneMore(part: string, n: nat, rest: seq<string>, ns: seq<nat>)
    requires ParseUnsigned(part, U64_MAX) == Some(n) && ParseComponents(rest) == Some(ns)
    ensures ParseComponents([part] + rest) == Some([n] + ns)
  {
  }

  lemma ClockIsPlain(hour: nat, minute: nat, second: nat)
    ensures NoSpace(FormatClock(hour, minute, second)) && '-' !in FormatClock(hour, minute, second)
  {
  }

  lemma WithoutDays(clock: string, hours: nat, minutes: nat, secs: nat)
    requires NoSpace(clock) && '-' !in clock && ParseComponents(Split(clock, ':')) == Some([hours, minutes, secs])
    ensures ParseTimeLimit(clock) == TotalSeconds(0, hours, minutes, secs)
  {
    hide ParseComponents, TotalSeconds;
    SplitOnceNone(clock, '-');
    TrimIsIdentity(clock);
    assert clock != [] by {
      if clock == [] { NothingIsNoClock(); }
    }
  }

  lemma NothingIsNoClock()
    ensures ParseComponents(Split("", ':')).None?
  {
  }

  lemma WithDays(days: nat, clock: string, hours: nat, minutes: nat, secs: nat)
    requires days <= U64_MAX && NoSpace(clock) && ParseComponents(Split(clock, ':')) == Some([hours, minutes, secs])
    ensures ParseTimeLimit(Decimal(days) + "-" + clock) == TotalSeconds(days, hours, minutes, secs)
  {
    hide ParseComponents, TotalSeconds;
    var text := Decimal(days) + "-" + clock;
    DecimalReads(days);
    SplitOnceAt(Decimal(days), clock, '-');
    TrimIsIdentity(text);
    hide Decimal, ParseUnsigned;
    assert text != [];
  }

  /** A printed duration is read back as the number of seconds it was printed
      from, negative ones as zero; so exactly the non-negative ones survive. */
  lemma DurationRoundTrip(seconds: int)
    requires IsI64(seconds)
    ensures ParseTimeLimit(FormatDuration(seconds)) == Parsed(if seconds < 0 then 0 else seconds)
  {
    hide FormatClock, ParseComponents, ParseTimeLimit, Decimal;
    var s: nat := if seconds < 0 then 0 else seconds;
    var days, hours, minutes, secs := s / 86_400, s % 86_400 / 3_600, s % 86_400 % 3_600 / 60, s % 86_400 % 60;
    ClockParts(s);
    var clock := FormatClock(hours, minutes, secs);
    ClockComponents(hours, minutes, secs);
    ClockIsPlain(hours, minutes, secs);
    assert TotalSeconds(days, hours, minutes, secs) == Parsed(s);
    if days > 0 {
      WithDays(days, clock, hours, minutes, secs);
      assert FormatDuration(seconds) == Decimal(days) + "-" + clock;
    } else {
      WithoutDays(clock, hours, minutes, secs);
      assert FormatDuration(seconds) == "" + clock == clock;
    }
  }

  lemma DecimalReads(n: nat)
    requires n <= U64_MAX
    ensures ParseUnsigned(Decimal(n), U64_MAX) == Some(n)
  {
    UnsignedRoundTrip(n, 0, U64_MAX);
    assert Zeros(0) + Decimal(n) == Decimal(n);
  }

  lemma ClockParts(s: nat)
    ensures s == s / 86_400 * 86_400 + s % 86_400 / 3_600 * 3_600 + s % 86_400 % 3_600 / 60 * 60 + s % 86_400 % 60
    ensures s % 86_400 / 3_600 <= 23 && s % 86_400 % 3_600 / 60 <= 59 && s % 86_400 % 60 <= 59
    ensures s / 86_400 <= s
  {
  }
}
