/** The civil-calendar arithmetic of the timestamp code: the day number of a
    proleptic Gregorian date and its inverse. */
module Calendar {
  import opened Basics

  datatype Date = Date(year: int, month: int, day: int)

  datatype DateTime = DateTime(date: Date, hour: int, minute: int, second: int)

  // ----- the program -----

  predicate IsLeapYear(year: int) {
    (TruncRem(year, 4) == 0 && TruncRem(year, 100) != 0) || TruncRem(year, 400) == 0
  }

  function DaysInMonth(year: int, month: int): Option<int> {
    if month in {1, 3, 5, 7, 8, 10, 12} then Some(31)
    else if month in {4, 6, 9, 11} then Some(30)
    else if month == 2 && IsLeapYear(year) then Some(29)
    else if month == 2 then Some(28)
    else None
  }

  function DaysFromCivil(year: int, month: int, day: int): Option<int> {
    var length := DaysInMonth(year, month);
    if length.None? || day > length.value then None
    else
      var y := year - (if month <= 2 then 1 else 0);
      var era := TruncDiv(if y >= 0 then y else y - 399, 400);
      var yoe := y - era * 400;
      var doy := TruncDiv(153 * (month + (if month > 2 then -3 else 9)) + 2, 5) + day - 1;
      var doe := yoe * 365 + TruncDiv(yoe, 4) - TruncDiv(yoe, 100) + doy;
      Some(era * 146_097 + doe - 719_468)
  }

  /** `civil_from_days` before its final casts. */
  function CivilFromDaysExact(days: int): Date {
    var z := days + 719_468;
    var era := TruncDiv(if z >= 0 then z else z - 146_096, 146_097);
    var doe := z - era * 146_097;
    var yoe := TruncDiv(doe - TruncDiv(doe, 1_460) + TruncDiv(doe, 36_524) - TruncDiv(doe, 146_096), 365);
    var y := yoe + era * 400;
    var doy := doe - (365 * yoe + TruncDiv(yoe, 4) - TruncDiv(yoe, 100));
    var mp := TruncDiv(5 * doy + 2, 153);
    var day := doy - TruncDiv(153 * mp + 2, 5) + 1;
    var month := mp + (if mp < 10 then 3 else -9);
    Date(y + (if month <= 2 then 1 else 0), month, day)
  }

  function CivilFromDays(days: int): Date {
    var d := CivilFromDaysExact(days);
    Date(AsI32(d.year), d.month, d.day)
  }

  function DatetimeToEpoch(t: DateTime): Result<int> {
    if !(1 <= t.date.month <= 12) || !(1 <= t.date.day <= 31) || t.hour > 23 || t.minute > 59 || t.second > 59
    then Err
    else
      var days := DaysFromCivil(t.date.year, t.date.month, t.date.day);
      if days.None? then Err
      else Ok(days.value * 86_400 + t.hour * 3_600 + t.minute * 60 + t.second)
  }

  function CivilFromEpoch(timestamp: int): DateTime {
    var days := timestamp / 86_400;
    var secs := timestamp % 86_400;
    DateTime(CivilFromDays(days), secs / 3_600, secs % 3_600 / 60, secs % 60)
  }

  // ----- the calendar itself -----

  predicate Leap(year: int) {
    year % 4 == 0 && (year % 100 != 0 || year % 400 == 0)
  }

  function MonthLength(year: int, month: int): (n: int)
    requires 1 <= month <= 12
    ensures 28 <= n <= 31
  {
    if month == 2 then (if Leap(year) then 29 else 28)
    else if month in {4, 6, 9, 11} then 30
    else 31
  }

  predicate ValidDate(d: Date) {
    1 <= d.month <= 12 && 1 <= d.day <= MonthLength(d.year, d.month)
  }

  predicate ValidDateTime(t: DateTime) {
    ValidDate(t.date) && 0 <= t.hour <= 23 && 0 <= t.minute <= 59 && 0 <= t.second <= 59
  }

  /** The date after d. */
  function NextDate(d: Date): (n: Date)
    requires ValidDate(d)
    ensures ValidDate(n)
  {
    if d.day < MonthLength(d.year, d.month) then Date(d.year, d.month, d.day + 1)
    else if d.month < 12 then Date(d.year, d.month + 1, 1)
    else Date(d.year + 1, 1, 1)
  }

  predicate DateBefore(a: Date, b: Date) {
    a.year < b.year
    || (a.year == b.year && a.month < b.month)
    || (a.year == b.year && a.month == b.month && a.day < b.day)
  }

  /** Days of the year that precede the given month. */
  function DaysBeforeMonth(year: int, month: int): int
    requires 1 <= month <= 12
    decreases month
  {
    if month == 1 then 0 else DaysBeforeMonth(year, month - 1) + MonthLength(year, month - 1)
  }

  /** Section 4.16 of POSIX.1-2017 Base Definitions, with tm_year counted from 1900. */
  function PosixSeconds(t: DateTime): int
    requires ValidDateTime(t)
  {
    var tm_year := t.date.year - 1900;
    var tm_yday := DaysBeforeMonth(t.date.year, t.date.month) + t.date.day - 1;
    t.second + t.minute * 60 + t.hour * 3600 + tm_yday * 86400
      + (tm_year - 70) * 31536000 + ((tm_year - 69) / 4) * 86400
      - ((tm_year - 1) / 100) * 86400 + ((tm_year + 299) / 400) * 86400
  }

  /** The day number of a valid date. */
  function DayNumber(d: Date): int
    requires ValidDate(d)
  {
    CivilIsDefined(d.year, d.month, d.day);
    DaysFromCivil(d.year, d.month, d.day).value
  }

  // ----- arithmetic -----

  lemma RemainderZero(a: int, d: int)
    requires d > 0
    ensures TruncRem(a, d) == 0 <==> a % d == 0
  {
    if a < 0 {
      if a % d == 0 { QuotientIs(-a, d, -(a / d)); }
      if (-a) % d == 0 { QuotientIs(a, d, -((-a) / d)); }
    }
  }

  lemma LeapAgrees(year: int)
    ensures IsLeapYear(year) <==> Leap(year)
  {
    RemainderZero(year, 4);
    RemainderZero(year, 100);
    RemainderZero(year, 400);
    if year % 400 == 0 { QuotientIs(year, 4, 100 * (year / 400)); }
  }

  /** A day number exists exactly for a known month and a day not past its end. */
  lemma CivilIsDefined(year: int, month: int, day: int)
    ensures DaysFromCivil(year, month, day).Some? <==> 1 <= month <= 12 && day <= MonthLength(year, month)
  {
    LeapAgrees(year);
  }

  /** Truncating division after the sign adjustment is division by flooring. */
  lemma EraIsFloor(y: int, d: int)
    requires d > 1
    ensures TruncDiv(if y >= 0 then y else y - (d - 1), d) == y / d
  {
    if y < 0 {
      var q := y / d;
      assert y == q * d + y % d;
      var n := d - 1 - y;
      assert n == (-q) * d + (d - 1 - y % d);
      QuotientIs(n, d, -q);
    }
  }

  /** Days from 1 March of year 0 to 1 March of year y. */
  function MarchStart(y: int): int {
    365 * y + y / 4 - y / 100 + y / 400
  }

  /** Days from 1 March to the first of the month that is mp months later. */
  function MonthStart(mp: int): int {
    (153 * mp + 2) / 5
  }

  predicate MarchLeap(y: int) { Leap(y + 1) }

  /** The year, counted from March, that a date lies in; its month and its day of that year. */
  function MarchYear(d: Date): int { if d.month > 2 then d.year else d.year - 1 }

  function MarchMonth(d: Date): int { if d.month > 2 then d.month - 3 else d.month + 9 }

  function MarchDay(d: Date): int { MonthStart(MarchMonth(d)) + d.day - 1 }

  function DateOfMarch(y: int, mp: int, doy: int): Date {
    Date(if mp < 10 then y else y + 1, if mp < 10 then mp + 3 else mp - 9, doy - MonthStart(mp) + 1)
  }

  /** A day of a March year that falls in the given month of it. */
  predicate InMarchYear(y: int, mp: int, doy: int) {
    && 0 <= mp <= 11 && MonthStart(mp) <= doy <= 365
    && (mp < 11 ==> doy < MonthStart(mp + 1))
    && (doy == 365 ==> MarchLeap(y))
  }

  lemma MarchStartOfEra(y: int)
    ensures var era := y / 400; var yoe := y - era * 400;
            && 0 <= yoe < 400
            && era * 146_097 + yoe * 365 + yoe / 4 - yoe / 100 == MarchStart(y)
  {
  }

  lemma DayNumberForm(d: Date)
    requires ValidDate(d)
    ensures DayNumber(d) == MarchStart(MarchYear(d)) + MarchDay(d) - 719_468
  {
    CivilIsDefined(d.year, d.month, d.day);
    EraIsFloor(MarchYear(d), 400);
    MarchStartOfEra(MarchYear(d));
  }

  lemma MarchYearLength(y: int)
    ensures MarchStart(y + 1) - MarchStart(y) == if MarchLeap(y) then 366 else 365
  {
    DivStep(y, 4);
    DivStep(y, 100);
    DivStep(y, 400);
    assert (y + 1) % 400 == 0 ==> (y + 1) % 100 == 0 && (y + 1) % 4 == 0;
    assert (y + 1) % 100 == 0 ==> (y + 1) % 4 == 0;
  }

  lemma DivStep(y: int, d: int)
    requires d > 1
    ensures (y + 1) / d == y / d + (if (y + 1) % d == 0 then 1 else 0)
  {
    var q := (y + 1) / d;
    assert y + 1 == q * d + (y + 1) % d;
    if (y + 1) % d == 0 {
      assert q * d == (q - 1) * d + d;
      QuotientIs(y, d, q - 1);
    } else {
      QuotientIs(y, d, q);
    }
  }

  /** The year-of-era formula inverts the day count of an era, written over
      centuries c, four-year groups q, years r and days doy. */
  lemma YearOfEra(c: int, q: int, r: int, doy: int)
    requires 0 <= c <= 3 && 0 <= q <= 24 && 0 <= r <= 3 && 0 <= doy <= 365
    requires doy == 365 ==> r == 3 && (q < 24 || c == 3)
    ensures var doe := 36_524 * c + 1_461 * q + 365 * r + doy;
            var yoe := 100 * c + 4 * q + r;
            && 0 <= doe <= 146_096
            && doe == 365 * yoe + yoe / 4 - yoe / 100 + doy
            && (doe - doe / 1_460 + doe / 36_524 - doe / 146_096) / 365 == yoe
  {
    var doe := 36_524 * c + 1_461 * q + 365 * r + doy;
    FourYearGroups(c, q, r, doy, doe);
    Centuries(c, q, r, doy, doe);
    QuotientIs(100 * c + 4 * q + r, 4, 25 * c + q);
    QuotientIs(100 * c + 4 * q + r, 100, c);
    YearOfEraSum(c, q, r, doy, if 24 * c + q + 365 * r + doy >= 1_460 then 1 else 0);
  }

  lemma FourYearGroups(c: int, q: int, r: int, doy: int, doe: int)
    requires 0 <= c <= 3 && 0 <= q <= 24 && 0 <= r <= 3 && 0 <= doy <= 365
    requires doe == 36_524 * c + 1_461 * q + 365 * r + doy
    ensures doe / 1_460 == 25 * c + q + (if 24 * c + q + 365 * r + doy >= 1_460 then 1 else 0)
  {
  }

  lemma Centuries(c: int, q: int, r: int, doy: int, doe: int)
    requires 0 <= c <= 3 && 0 <= q <= 24 && 0 <= r <= 3 && 0 <= doy <= 365
    requires doy == 365 ==> r == 3 && (q < 24 || c == 3)
    requires doe == 36_524 * c + 1_461 * q + 365 * r + doy
    ensures 0 <= doe <= 146_096
    ensures doe / 36_524 - doe / 146_096 == c
  {
  }

  lemma YearOfEraSum(c: int, q: int, r: int, doy: int, carry: int)
    requires 0 <= c <= 3 && 0 <= q <= 24 && 0 <= r <= 3 && 0 <= doy <= 365
    requires doy == 365 ==> r == 3 && (q < 24 || c == 3)
    requires carry == if 24 * c + q + 365 * r + doy >= 1_460 then 1 else 0
    ensures (36_524 * c + 1_461 * q + 365 * r + doy - (25 * c + q + carry) + c) / 365 == 100 * c + 4 * q + r
  {
  }

  /** Splits a year of an era and a day of it the way YearOfEra wants them. */
  lemma YearOfEraInverts(yoe: int, doy: int)
    requires 0 <= yoe < 400 && 0 <= doy <= 365
    requires doy == 365 ==> MarchLeap(yoe)
    ensures var doe := 365 * yoe + yoe / 4 - yoe / 100 + doy;
            && 0 <= doe <= 146_096
            && (doe - doe / 1_460 + doe / 36_524 - doe / 146_096) / 365 == yoe
  {
    var c, q, r := yoe / 100, yoe % 100 / 4, yoe % 4;
    assert yoe == 100 * c + 4 * q + r;
    YearOfEra(c, q, r, doy);
  }

  /** Every day of an era lies in some year of it. */
  lemma EraDaySplits(doe: int) returns (yoe: int, doy: int)
    requires 0 <= doe <= 146_096
    ensures 0 <= yoe < 400 && 0 <= doy <= 365 && (doy == 365 ==> MarchLeap(yoe))
    ensures doe == 365 * yoe + yoe / 4 - yoe / 100 + doy
  {
    var c := if doe == 146_096 then 3 else doe / 36_524;
    var inCentury := doe - 36_524 * c;
    var q := inCentury / 1_461;
    var inGroup := inCentury - 1_461 * q;
    var r := if inGroup == 1_460 then 3 else inGroup / 365;
    yoe, doy := 100 * c + 4 * q + r, inGroup - 365 * r;
    YearOfEra(c, q, r, doy);
  }

  /** Month lengths, counted from March. */
  lemma MonthSpan(year: int, mp: int)
    requires 0 <= mp <= 10
    ensures MonthStart(mp + 1) - MonthStart(mp) == MonthLength(year, if mp < 10 then mp + 3 else 1)
  {
  }

  lemma DateInMarchYear(d: Date)
    requires ValidDate(d)
    ensures InMarchYear(MarchYear(d), MarchMonth(d), MarchDay(d))
    ensures DateOfMarch(MarchYear(d), MarchMonth(d), MarchDay(d)) == d
  {
  }

  lemma MonthsAscend(a: int, b: int)
    requires 0 <= a <= b <= 11
    ensures 0 <= MonthStart(a) <= MonthStart(b)
  {
  }

  /** The date a day of a March year stands for has the day number they add up to. */
  lemma ShiftedDate(y: int, mp: int, doy: int)
    requires InMarchYear(y, mp, doy)
    ensures var d := DateOfMarch(y, mp, doy);
            ValidDate(d) && DayNumber(d) == MarchStart(y) + doy - 719_468
  {
    var d := DateOfMarch(y, mp, doy);
    if mp < 11 { MonthSpan(d.year, mp); } else { assert MonthStart(11) == 337; }
    DayNumberForm(d);
  }

  lemma MonthOfDay(mp: int, doy: int)
    requires 0 <= mp <= 11 && MonthStart(mp) <= doy <= 365
    requires mp < 11 ==> doy < MonthStart(mp + 1)
    ensures (5 * doy + 2) / 153 == mp
  {
  }

  // ----- the theorems -----

  /** The inverse read off any era, year of it and day of that year. */
  lemma CivilOfEra(era: int, yoe: int, mp: int, doy: int)
    requires 0 <= yoe < 400 && InMarchYear(yoe, mp, doy)
    ensures CivilFromDaysExact(era * 146_097 + 365 * yoe + yoe / 4 - yoe / 100 + doy - 719_468)
         == DateOfMarch(era * 400 + yoe, mp, doy)
  {
    var doe := 365 * yoe + yoe / 4 - yoe / 100 + doy;
    var z := era * 146_097 + doe;
    YearOfEraInverts(yoe, doy);
    assert TruncDiv(if z >= 0 then z else z - 146_096, 146_097) == era by {
      EraIsFloor(z, 146_097);
      QuotientIs(z, 146_097, era);
    }
    MonthOfDay(mp, doy);
    CivilAssembled(z, era, doe, yoe, doy, mp);
  }

  lemma CivilAssembled(z: int, era: int, doe: int, yoe: int, doy: int, mp: int)
    requires z == era * 146_097 + doe && 0 <= doe <= 146_096 && 0 <= yoe < 400 && 0 <= doy <= 365 && 0 <= mp <= 11
    requires TruncDiv(if z >= 0 then z else z - 146_096, 146_097) == era
    requires (doe - doe / 1_460 + doe / 36_524 - doe / 146_096) / 365 == yoe
    requires doe == 365 * yoe + yoe / 4 - yoe / 100 + doy
    requires (5 * doy + 2) / 153 == mp
    ensures CivilFromDaysExact(z - 719_468) == DateOfMarch(era * 400 + yoe, mp, doy)
  {
    assert z - era * 146_097 == doe;
    EraDayTerm(doe);
    assert TruncDiv(doe - TruncDiv(doe, 1_460) + TruncDiv(doe, 36_524) - TruncDiv(doe, 146_096), 365) == yoe;
    assert TruncDiv(5 * doy + 2, 153) == mp;
    assert TruncDiv(153 * mp + 2, 5) == MonthStart(mp);
  }

  lemma EraDayTerm(doe: int)
    requires 0 <= doe <= 146_096
    ensures 0 <= doe - doe / 1_460 + doe / 36_524 - doe / 146_096
  {
  }

  lemma EraOf(y: int, era: int, yoe: int)
    requires y == era * 400 + yoe && 0 <= yoe < 400
    ensures y / 400 == era && y % 400 == yoe
  {
  }

  /** The same for a shifted year. */
  lemma CivilOfShifted(y: int, mp: int, doy: int)
    requires InMarchYear(y, mp, doy)
    ensures CivilFromDaysExact(MarchStart(y) + doy - 719_468) == DateOfMarch(y, mp, doy)
  {
    hide CivilFromDaysExact, MarchStart;
    var era, yoe := y / 400, y % 400;
    assert InMarchYear(yoe, mp, doy) by { LeapOfEra(y); }
    assert MarchStart(y) == era * 146_097 + 365 * yoe + yoe / 4 - yoe / 100 by { MarchStartOfEra(y); }
    CivilOfEra(era, yoe, mp, doy);
    assert DateOfMarch(era * 400 + yoe, mp, doy) == DateOfMarch(y, mp, doy);
  }

  lemma LeapOfEra(y: int)
    ensures MarchLeap(y) <==> MarchLeap(y % 400)
  {
    var era, n := y / 400, y % 400 + 1;
    assert y + 1 == 400 * era + n;
    QuotientIs(y + 1, 4, 100 * era + n / 4);
    QuotientIs(y + 1, 100, 4 * era + n / 100);
    QuotientIs(y + 1, 400, era + n / 400);
  }

  lemma ExactRoundTrip(d: Date)
    requires ValidDate(d)
    ensures CivilFromDaysExact(DayNumber(d)) == d
  {
    hide DayNumber, MarchStart, MonthStart, CivilFromDaysExact, InMarchYear;
    DayNumberForm(d);
    DateInMarchYear(d);
    CivilOfShifted(MarchYear(d), MarchMonth(d), MarchDay(d));
  }

  /** From a date to its day number and back. */
  lemma DateRoundTrip(d: Date)
    requires ValidDate(d)
    ensures CivilFromDaysExact(DayNumber(d)) == d
    ensures CivilFromDays(DayNumber(d)) == d <==> IsI32(d.year)
  {
    var n := DayNumber(d);
    assert CivilFromDaysExact(n) == d by { ExactRoundTrip(d); }
    CastDate(n);
  }

  lemma CastDate(days: int)
    ensures CivilFromDays(days) == CivilFromDaysExact(days) <==> IsI32(CivilFromDaysExact(days).year)
  {
  }

  /** From a day number to its date and back: every integer is the number of exactly one date. */
  lemma DayRoundTrip(days: int)
    ensures ValidDate(CivilFromDaysExact(days))
    ensures DayNumber(CivilFromDaysExact(days)) == days
  {
    hide MarchStart, MonthStart, DayNumber, CivilFromDaysExact;
    var z := days + 719_468;
    var era := z / 146_097;
    var yoe, doy := EraDaySplits(z - era * 146_097);
    var y := era * 400 + yoe;
    EraOf(y, era, yoe);
    MarchStartOfEra(y);
    assert MarchStart(y) + doy == z;
    LeapOfEra(y);
    var mp := MonthHolding(doy);
    CivilOfShifted(y, mp, doy);
    ShiftedDate(y, mp, doy);
  }

  lemma MonthHolding(doy: int) returns (mp: int)
    requires 0 <= doy <= 365
    ensures 0 <= mp <= 11 && MonthStart(mp) <= doy
    ensures mp < 11 ==> doy < MonthStart(mp + 1)
  {
    mp := 0;
    while mp < 11 && MonthStart(mp + 1) <= doy
      invariant 0 <= mp <= 11 && MonthStart(mp) <= doy
    {
      mp := mp + 1;
    }
  }

  /** The program's inverse is exact precisely while the year fits 32 bits. */
  lemma CivilFromDaysExactWhen(days: int)
    ensures var d := CivilFromDays(days);
            (ValidDate(d) && DayNumber(d) == days) <==> IsI32(CivilFromDaysExact(days).year)
  {
    DayRoundTrip(days);
    var d := CivilFromDays(days);
    if ValidDate(d) && DayNumber(d) == days {
      DateRoundTrip(d);
    }
  }

  /** Consecutive dates have consecutive day numbers. */
  lemma NextDateIsNextDay(d: Date)
    requires ValidDate(d)
    ensures DayNumber(NextDate(d)) == DayNumber(d) + 1
  {
    hide MarchStart, MonthStart, Leap, DayNumber;
    var n := NextDate(d);
    DayNumberForm(d);
    DayNumberForm(n);
    if d.day == MonthLength(d.year, d.month) {
      if MarchMonth(d) < 11 { MonthSpan(d.year, MarchMonth(d)); } else { FebruaryEnds(d); }
    }
  }

  lemma FebruaryEnds(d: Date)
    requires ValidDate(d) && d.month == 2 && d.day == MonthLength(d.year, 2)
    ensures MarchStart(d.year) + MonthStart(0) == MarchStart(d.year - 1) + MarchDay(d) + 1
  {
    MarchYearLength(d.year - 1);
    assert MonthStart(11) == 337;
  }

  /** The count starts where Unix time does. */
  lemma EpochIsDayZero()
    ensures DayNumber(Date(1970, 1, 1)) == 0
  {
  }

  lemma YearSpan(y: int, k: nat)
    ensures MarchStart(y + k) >= MarchStart(y) + 365 * k
  {
    if k > 0 {
      YearSpan(y, k - 1);
      MarchYearLength(y + k - 1);
    }
  }

  lemma YearGap(y: int, z: int)
    requires y < z
    ensures MarchStart(y) + (if MarchLeap(y) then 366 else 365) <= MarchStart(z)
  {
    YearSpan(y + 1, z - y - 1);
    MarchYearLength(y);
  }

  lemma LaterDateLaterDay(a: Date, b: Date)
    requires ValidDate(a) && ValidDate(b) && DateBefore(a, b)
    ensures DayNumber(a) < DayNumber(b)
  {
    hide MarchStart, MonthStart, Leap, MonthLength, DayNumber;
    DayNumberForm(a);
    DayNumberForm(b);
    DateInMarchYear(a);
    DateInMarchYear(b);
    MonthsAscend(0, MarchMonth(b));
    if MarchYear(a) < MarchYear(b) {
      YearGap(MarchYear(a), MarchYear(b));
    } else if MarchMonth(a) < MarchMonth(b) {
      MonthsAscend(MarchMonth(a) + 1, MarchMonth(b));
    }
  }

  /** Day numbers order dates as the calendar does. */
  lemma DayNumberIsMonotone(a: Date, b: Date)
    requires ValidDate(a) && ValidDate(b)
    ensures DateBefore(a, b) <==> DayNumber(a) < DayNumber(b)
  {
    if DateBefore(a, b) {
      LaterDateLaterDay(a, b);
    } else if a != b {
      LaterDateLaterDay(b, a);
    }
  }

  /** A timestamp is produced exactly for a valid date and time. */
  lemma EpochIsDefined(t: DateTime)
    requires t.hour >= 0 && t.minute >= 0 && t.second >= 0
    ensures DatetimeToEpoch(t).Ok? <==> ValidDateTime(t)
  {
    CivilIsDefined(t.date.year, t.date.month, t.date.day);
  }

  lemma YearDay(year: int, month: int)
    requires 1 <= month <= 12
    ensures DaysBeforeMonth(year, month) == if month > 2
              then MonthStart(month - 3) + 59 + (if Leap(year) then 1 else 0)
              else MonthStart(month + 9) - 306
  {
  }

  /** The timestamp is the one POSIX defines. */
  lemma EpochIsPosix(t: DateTime)
    requires ValidDateTime(t) && t.date.year >= 1970
    ensures DatetimeToEpoch(t) == Ok(PosixSeconds(t))
  {
    EpochIsDefined(t);
    PosixDays(t.date);
  }

  lemma PosixDays(d: Date)
    requires ValidDate(d) && d.year >= 1970
    ensures DayNumber(d) == DaysBeforeMonth(d.year, d.month) + d.day - 1 + (d.year - 1970) * 365
                            + (d.year - 1969) / 4 - (d.year - 1901) / 100 + (d.year - 1601) / 400
  {
    DayNumberForm(d);
    YearDay(d.year, d.month);
    PosixLeaps(d.year);
    if d.month > 2 { MarchYearLength(d.year - 1); }
  }

  lemma PosixLeaps(year: int)
    requires year >= 1970
    ensures (year - 1970) * 365 + (year - 1969) / 4 - (year - 1901) / 100 + (year - 1601) / 400
         == MarchStart(year - 1) - 719_468 + 306
  {
    QuotientIs(year - 1969, 4, (year - 1) / 4 - 492);
    QuotientIs(year - 1901, 100, (year - 1) / 100 - 19);
    QuotientIs(year - 1601, 400, (year - 1) / 400 - 4);
  }

  /** Reading a timestamp back, for negative ones too. */
  lemma EpochRoundTrip(t: DateTime)
    requires ValidDateTime(t)
    ensures DatetimeToEpoch(t).Ok?
    ensures CivilFromEpoch(DatetimeToEpoch(t).value) == t <==> IsI32(t.date.year)
  {
    EpochIsDefined(t);
    var n := DayNumber(t.date);
    SplitSeconds(n, t.hour, t.minute, t.second);
    assert CivilFromDays(n) == t.date <==> IsI32(t.date.year) by { DateRoundTrip(t.date); }
    assert CivilFromEpoch(DatetimeToEpoch(t).value) == DateTime(CivilFromDays(n), t.hour, t.minute, t.second);
  }

  lemma SplitSeconds(days: int, hour: int, minute: int, second: int)
    requires 0 <= hour <= 23 && 0 <= minute <= 59 && 0 <= second <= 59
    ensures var secs := hour * 3_600 + minute * 60 + second;
            var ts := days * 86_400 + secs;
            && ts / 86_400 == days && ts % 86_400 == secs
            && secs / 3_600 == hour && secs % 3_600 / 60 == minute && secs % 60 == second
  {
  }

  /** Every timestamp is the value of the date and time read from it, as long
      as that date's year fits 32 bits; otherwise it is not. */
  lemma TimestampRoundTrip(timestamp: int)
    ensures var t := CivilFromEpoch(timestamp);
            && 0 <= t.hour <= 23 && 0 <= t.minute <= 59 && 0 <= t.second <= 59
            && (DatetimeToEpoch(t) == Ok(timestamp)
                <==> IsI32(CivilFromDaysExact(timestamp / 86_400).year))
  {
    var t := CivilFromEpoch(timestamp);
    ClockOf(timestamp % 86_400);
    CivilFromDaysExactWhen(timestamp / 86_400);
    EpochIsDefined(t);
  }

  lemma ClockOf(secs: int)
    requires 0 <= secs < 86_400
    ensures 0 <= secs / 3_600 <= 23 && 0 <= secs % 3_600 / 60 <= 59 && 0 <= secs % 60 <= 59
    ensures secs == secs / 3_600 * 3_600 + secs % 3_600 / 60 * 60 + secs % 60
  {
  }

  /** No value that the conversion of a date computes on the way leaves i64. */
  lemma DaysFromCivilFits(d: Date)
    requires ValidDate(d) && IsI32(d.year)
    ensures var y := d.year - (if d.month <= 2 then 1 else 0);
            var era := TruncDiv(if y >= 0 then y else y - 399, 400);
            var yoe := y - era * 400;
            var shifted := 153 * (d.month + (if d.month > 2 then -3 else 9)) + 2;
            var doy := TruncDiv(shifted, 5) + d.day - 1;
            && IsI64(y) && IsI64(y - 399) && IsI64(era * 400) && 0 <= yoe < 400
            && IsI64(shifted) && 0 <= doy <= 366
            && IsI64(yoe * 365 + TruncDiv(yoe, 4)) && IsI64(yoe * 365 + TruncDiv(yoe, 4) - TruncDiv(yoe, 100) + doy)
            && IsI64(era * 146_097)
            && IsI64(era * 146_097 + (yoe * 365 + TruncDiv(yoe, 4) - TruncDiv(yoe, 100) + doy))
  {
    EraIsFloor(d.year - (if d.month <= 2 then 1 else 0), 400);
  }

  /** Nor does one that the conversion of a timestamp computes. */
  lemma CivilFromDaysFits(timestamp: int)
    requires IsI64(timestamp)
    ensures var z := timestamp / 86_400 + 719_468;
            var era := TruncDiv(if z >= 0 then z else z - 146_096, 146_097);
            var doe := z - era * 146_097;
            var yoe := TruncDiv(doe - TruncDiv(doe, 1_460) + TruncDiv(doe, 36_524) - TruncDiv(doe, 146_096), 365);
            && IsI64(z) && IsI64(z - 146_096) && IsI64(era * 146_097) && 0 <= doe <= 146_096
            && 0 <= yoe <= 400 && IsI64(era * 400) && IsI64(yoe + era * 400) && IsI64(365 * yoe + TruncDiv(yoe, 4))
            && IsI64(CivilFromDaysExact(timestamp / 86_400).year)
  {
    var z := timestamp / 86_400 + 719_468;
    EraIsFloor(z, 146_097);
  }

  /** Nothing overflows 64 bits on the way to a timestamp of a 32-bit year. */
  lemma EpochFitsI64(t: DateTime)
    requires ValidDateTime(t) && IsI32(t.date.year)
    ensures -784_353_015_833 <= DayNumber(t.date) <= 784_351_576_776
    ensures IsI64(DayNumber(t.date) * 86_400) && IsI64(DayNumber(t.date) * 86_400 + t.hour * 3_600)
    ensures IsI64(DayNumber(t.date) * 86_400 + t.hour * 3_600 + t.minute * 60) && IsI64(DatetimeToEpoch(t).value)
  {
    FirstAndLastDay();
    EpochIsDefined(t);
    var first, last := Date(I32_MIN, 1, 1), Date(I32_MAX, 12, 31);
    hide DayNumber, MonthLength;
    DayNumberIsMonotone(t.date, first);
    DayNumberIsMonotone(last, t.date);
  }

  lemma FirstAndLastDay()
    ensures DayNumber(Date(I32_MIN, 1, 1)) == -784_353_015_833
    ensures DayNumber(Date(I32_MAX, 12, 31)) == 784_351_576_776
  {
    hide DayNumber;
    DayNumberForm(Date(I32_MIN, 1, 1));
    DayNumberForm(Date(I32_MAX, 12, 31));
    assert MonthStart(10) == 306 && MonthStart(9) == 275;
    assert MarchStart(I32_MIN - 1) == -784_352_296_671;
    assert MarchStart(I32_MAX) == 784_352_295_939;
  }
}
