/** The proleptic Gregorian calendar that JavaScript's `Date` uses, on a timeline of whole
    milliseconds since 1970-01-01T00:00:00.000 (ECMA-262, section 21.4.1: Day, TimeWithinDay,
    YearFromTime, MonthFromTime, DateFromTime, MakeDay, MakeDate).

    Days are converted with the closed forms known as days_from_civil / civil_from_days, which
    count from a 400-year era that starts on March 1 of a year divisible by 400. */
module CivilCalendar {

  datatype Date = Date(year: int, month: int, day: int)

  /** A calendar date and a time of day. */
  datatype DateTime = DateTime(date: Date, hour: int, minute: int, second: int, millisecond: int)

  const MsPerSecond: int := 1000
  const MsPerMinute: int := 60_000
  const MsPerHour: int := 3_600_000
  const MsPerDay: int := 86_400_000

  predicate IsLeapYear(y: int) {
    y % 4 == 0 && (y % 100 != 0 || y % 400 == 0)
  }

  function DaysInMonth(y: int, m: int): int
    requires 1 <= m <= 12
  {
    if m == 2 then (if IsLeapYear(y) then 29 else 28)
    else if m == 4 || m == 6 || m == 9 || m == 11 then 30
    else 31
  }

  predicate IsValidDate(d: Date) {
    1 <= d.month <= 12 && 1 <= d.day <= DaysInMonth(d.year, d.month)
  }

  predicate IsValidDateTime(dt: DateTime) {
    IsValidDate(dt.date) && 0 <= dt.hour < 24 && 0 <= dt.minute < 60 && 0 <= dt.second < 60
    && 0 <= dt.millisecond < 1000
  }

  // ---------------------------------------------------------------------------------------
  // Days

  /** Days from March 1 to the start of March-based month `mp` (0 = March, 11 = February). */
  function MonthStart(mp: int): int {
    (153 * mp + 2) / 5
  }

  /** March-based month lengths: March = 0, ..., January = 10, February = 11. */
  function MonthLength(mp: int, leap: bool): int
    requires 0 <= mp <= 11
  {
    if mp == 11 then (if leap then 29 else 28)
    else if mp == 1 || mp == 3 || mp == 6 || mp == 8 then 30
    else 31
  }

  /** Days from the start of an era to the start of its year `yoe` (years start on March 1). */
  function DaysBeforeYearOfEra(yoe: int): int {
    365 * yoe + yoe / 4 - yoe / 100
  }

  /** Year `yoe` of an era has 366 days: the February that ends it has a leap day. */
  predicate LongYearOfEra(yoe: int) {
    (yoe + 1) % 4 == 0 && ((yoe + 1) % 100 != 0 || yoe == 399)
  }

  /** The year that starts on March 1 before the given month: January and February belong to
      the previous one. */
  function MarchYear(d: Date): int {
    if d.month <= 2 then d.year - 1 else d.year
  }

  /** The March-based month of a calendar month. */
  function MarchMonth(month: int): int {
    if month > 2 then month - 3 else month + 9
  }

  /** Day number (days since 1970-01-01) of March 1 of year `y`. */
  function DaysToMarchFirst(y: int): int {
    var era := y / 400;
    era * 146097 + DaysBeforeYearOfEra(y - era * 400) - 719468
  }

  /** The day number of a date. */
  function DaysFromCivil(d: Date): int {
    DaysToMarchFirst(MarchYear(d)) + MonthStart(MarchMonth(d.month)) + d.day - 1
  }

  /** The year of its era that a day of the era (0 .. 146096) falls in. */
  function YearOfEra(doe: int): int {
    (doe - doe / 1460 + doe / 36524 - doe / 146096) / 365
  }

  /** The date that lies `doy` days after March 1 of year `y`. */
  function DateOfMarchYear(y: int, doy: int): Date {
    var mp := (5 * doy + 2) / 153;
    var month := if mp < 10 then mp + 3 else mp - 9;
    Date(y + (if month <= 2 then 1 else 0), month, doy - MonthStart(mp) + 1)
  }

  /** The date of day `doe` of era `era`. */
  function DateOfEraDay(era: int, doe: int): Date {
    var yoe := YearOfEra(doe);
    DateOfMarchYear(era * 400 + yoe, doe - DaysBeforeYearOfEra(yoe))
  }

  /** The date of a day number. */
  function CivilFromDays(z: int): Date {
    var era := (z + 719468) / 146097;
    DateOfEraDay(era, z + 719468 - era * 146097)
  }

  // Division facts, each by one constant so that the solver's reasoning stays linear.

  lemma Div4(x: int, q: int)
    requires 4 * q <= x < 4 * q + 4
    ensures x / 4 == q
  {
  }

  lemma Div100(x: int, q: int)
    requires 100 * q <= x < 100 * q + 100
    ensures x / 100 == q
  {
  }

  lemma Div365(x: int, q: int)
    requires 365 * q <= x < 365 * q + 365
    ensures x / 365 == q
  {
  }

  lemma Div400(x: int, q: int)
    requires 400 * q <= x < 400 * q + 400
    ensures x / 400 == q
  {
  }

  lemma Div1460(x: int, q: int)
    requires 1460 * q <= x < 1460 * q + 1460
    ensures x / 1460 == q
  {
  }

  lemma Div146097(x: int, q: int)
    requires 146097 * q <= x < 146097 * q + 146097
    ensures x / 146097 == q
  {
  }

  /** Days of century `cen` of an era: the corrections `doe / 36524 - doe / 146096` add up to the
      century number. */
  lemma CenturyCorrection(doe: int, cen: int)
    requires 0 <= cen <= 3
    requires 36524 * cen <= doe < 36524 * (cen + 1) || (cen == 3 && doe == 146096)
    ensures doe / 36524 - doe / 146096 == cen
  {
  }

  lemma YearOfEraCentury(doe: int, cen: int)
    requires 0 <= cen <= 3
    requires 36524 * cen <= doe < 36524 * (cen + 1)
    ensures var yoe := (doe - doe / 1460 + cen) / 365;
      0 <= yoe <= 399 && 0 <= doe - DaysBeforeYearOfEra(yoe) <= 365
  {
    // doe is day j of four-year block k of the century
    var k := (doe - 36524 * cen) / 1461;
    var j := doe - 36524 * cen - 1461 * k;
    assert 0 <= k <= 24 && 0 <= j < 1461;
    var e := if 24 * cen + k + j >= 1460 then 1 else 0;
    Div1460(doe, 25 * cen + k + e);
    assert 0 <= j - e < 1460;
    var r := (j - e) / 365;
    var yoe := 100 * cen + 4 * k + r;
    Div365(doe - doe / 1460 + cen, yoe);
    Div4(yoe, 25 * cen + k);
    Div100(yoe, cen);
  }

  lemma YearOfEraBounds(doe: int)
    requires 0 <= doe < 146097
    ensures 0 <= YearOfEra(doe) <= 399
    ensures 0 <= doe - DaysBeforeYearOfEra(YearOfEra(doe)) <= 365
  {
    if doe < 146096 {
      var cen := doe / 36524;
      CenturyCorrection(doe, cen);
      YearOfEraCentury(doe, cen);
    } else {
      CenturyCorrection(doe, 3);
    }
  }

  lemma MonthOfYear(doy: int)
    requires 0 <= doy <= 365
    ensures var mp := (5 * doy + 2) / 153; 0 <= mp <= 11 && MonthStart(mp) <= doy
    ensures var mp := (5 * doy + 2) / 153; doy - MonthStart(mp) + 1 <= MonthLength(mp, true)
    ensures var mp := (5 * doy + 2) / 153; mp == 11 && doy <= 364 ==>
      doy - MonthStart(mp) + 1 <= MonthLength(mp, false)
  {
  }

  lemma MonthOfDay(mp: int, leap: bool, day: int)
    requires 0 <= mp <= 11
    requires 1 <= day <= MonthLength(mp, leap)
    ensures (5 * (MonthStart(mp) + day - 1) + 2) / 153 == mp
    ensures MonthStart(mp) + day - 1 < (if leap then 366 else 365)
  {
  }

  /** March 1 of year `y` opens day `DaysBeforeYearOfEra(yoe)` of era `era`. */
  lemma MarchFirstOfEra(y: int, era: int, yoe: int)
    requires 0 <= yoe < 400 && y == era * 400 + yoe
    ensures y / 400 == era
    ensures DaysToMarchFirst(y) + 719468 == era * 146097 + DaysBeforeYearOfEra(yoe)
  {
    Div400(y, era);
  }

  /** `(yoe + n) % m` does not change when a multiple of 400 is added to `yoe`. */
  lemma LeapShift(k: int, era: int)
    ensures (k + era * 400) % 4 == k % 4
    ensures (k + era * 400) % 100 == k % 100
    ensures (k + era * 400) % 400 == k % 400
  {
    ModFourShift(k, era * 100);
    ModHundredShift(k, era * 4);
    ModFourHundredShift(k, era);
  }

  lemma ModFourShift(k: int, q: int)
    ensures (k + q * 4) % 4 == k % 4
  {
  }

  lemma ModHundredShift(k: int, q: int)
    ensures (k + q * 100) % 100 == k % 100
  {
  }

  lemma ModFourHundredShift(k: int, q: int)
    ensures (k + q * 400) % 400 == k % 400
  {
  }

  /** The year after year `yoe` of an era is a leap year exactly when year `yoe` is long. */
  lemma LongYearIsLeap(era: int, yoe: int)
    requires 0 <= yoe < 400
    ensures LongYearOfEra(yoe) <==> IsLeapYear(era * 400 + yoe + 1)
  {
    LeapShift(yoe + 1, era);
  }

  lemma YearOfEraInverseCentury(yoe: int, doy: int, cen: int)
    requires 0 <= cen <= 3 && 100 * cen <= yoe < 100 * (cen + 1)
    requires 0 <= doy < (if LongYearOfEra(yoe) then 366 else 365)
    ensures YearOfEra(DaysBeforeYearOfEra(yoe) + doy) == yoe
  {
    var k4, r := yoe / 4, yoe % 4;
    Div100(yoe, cen);
    var doe := DaysBeforeYearOfEra(yoe) + doy;
    assert doe == 1461 * k4 + 365 * r + doy - cen;
    assert 36524 * cen <= doe < 36524 * (cen + 1) || (cen == 3 && doe == 146096) by {
      if doy == 365 { assert r == 3; }
    }
    CenturyCorrection(doe, cen);
    var rest := k4 + 365 * r + doy - cen;
    var e := if rest < 0 then -1 else if rest < 1460 then 0 else 1;
    Div1460(doe, k4 + e);
    assert 0 <= doy - e < 365 by {
      if doy == 365 { assert r == 3 && k4 >= cen; }
    }
    Div365(365 * yoe + doy - e, yoe);
  }

  lemma YearOfEraInverse(yoe: int, doy: int)
    requires 0 <= yoe <= 399
    requires 0 <= doy < (if LongYearOfEra(yoe) then 366 else 365)
    ensures YearOfEra(DaysBeforeYearOfEra(yoe) + doy) == yoe
  {
    YearOfEraInverseCentury(yoe, doy, yoe / 100);
  }

  /** Every day number is the day number of the date computed for it. */
  lemma DaysRoundTrip(z: int)
    ensures DaysFromCivil(CivilFromDays(z)) == z
  {
    var era := (z + 719468) / 146097;
    var doe := z + 719468 - era * 146097;
    YearOfEraBounds(doe);
    var yoe := YearOfEra(doe);
    var doy := doe - DaysBeforeYearOfEra(yoe);
    MonthOfYear(doy);
    var d := CivilFromDays(z);
    assert d == DateOfMarchYear(era * 400 + yoe, doy);
    assert MarchYear(d) == era * 400 + yoe;
    assert MarchMonth(d.month) == (5 * doy + 2) / 153;
    MarchFirstOfEra(era * 400 + yoe, era, yoe);
  }

  /** The date computed for a day number is a valid date. */
  lemma CivilFromDaysValid(z: int)
    ensures IsValidDate(CivilFromDays(z))
  {
    var era := (z + 719468) / 146097;
    var doe := z + 719468 - era * 146097;
    DayOfYearOfEra(doe);
    var yoe := YearOfEra(doe);
    var doy := doe - DaysBeforeYearOfEra(yoe);
    assert CivilFromDays(z) == DateOfMarchYear(era * 400 + yoe, doy);
    MarchYearDayValid(era, yoe, doy);
  }

  /** A day of an era lies in its year: the 366th day only in a long year. */
  lemma DayOfYearOfEra(doe: int)
    requires 0 <= doe < 146097
    ensures var yoe := YearOfEra(doe); var doy := doe - DaysBeforeYearOfEra(yoe);
      0 <= yoe < 400 && (0 <= doy <= 364 || (doy == 365 && LongYearOfEra(yoe)))
  {
    YearOfEraBounds(doe);
    var yoe := YearOfEra(doe);
    if doe - DaysBeforeYearOfEra(yoe) == 365 && !LongYearOfEra(yoe) {
      NextYearOfEra(yoe);
      YearOfEraInverse(yoe + 1, 0);
    }
  }

  /** Year `yoe + 1` of an era starts 365 or 366 days after year `yoe`. */
  lemma NextYearOfEra(yoe: int)
    requires 0 <= yoe < 399
    ensures DaysBeforeYearOfEra(yoe + 1) == DaysBeforeYearOfEra(yoe) + (if LongYearOfEra(yoe) then 366 else 365)
  {
    var k4, r := yoe / 4, yoe % 4;
    var c, rc := yoe / 100, yoe % 100;
    if r == 3 { Div4(yoe + 1, k4 + 1); } else { Div4(yoe + 1, k4); }
    if rc == 99 { Div100(yoe + 1, c + 1); } else { Div100(yoe + 1, c); }
  }

  lemma MarchYearDayValid(era: int, yoe: int, doy: int)
    requires 0 <= yoe < 400
    requires 0 <= doy <= 364 || (doy == 365 && LongYearOfEra(yoe))
    ensures IsValidDate(DateOfMarchYear(era * 400 + yoe, doy))
  {
    MonthOfYear(doy);
    LongYearIsLeap(era, yoe);
  }

  /** Day `MonthStart(mp) + day - 1` after March 1 of year `y` is day `day` of month `mp`. */
  lemma DateOfMarchYearInverse(y: int, mp: int, leap: bool, day: int)
    requires 0 <= mp <= 11
    requires 1 <= day <= MonthLength(mp, leap)
    ensures var month := if mp < 10 then mp + 3 else mp - 9;
      DateOfMarchYear(y, MonthStart(mp) + day - 1) == Date(y + (if month <= 2 then 1 else 0), month, day)
  {
    MonthOfDay(mp, leap, day);
  }

  /** Every valid date is the date of its own day number. */
  lemma CivilRoundTrip(d: Date)
    requires IsValidDate(d)
    ensures CivilFromDays(DaysFromCivil(d)) == d
  {
    var y := MarchYear(d);
    var era := y / 400;
    var yoe := y - era * 400;
    var mp := MarchMonth(d.month);
    var leap := LongYearOfEra(yoe);
    LongYearIsLeap(era, yoe);
    assert d.day <= MonthLength(mp, leap);
    MonthOfDay(mp, leap, d.day);
    var doy := MonthStart(mp) + d.day - 1;
    assert DaysFromCivil(d) == DaysToMarchFirst(y) + doy;
    MarchFirstOfEra(y, era, yoe);
    EraDayInverse(DaysFromCivil(d), y, era, yoe, doy);
    MarchDateInverse(d, y, mp, leap, doy);
  }

  lemma MarchDateInverse(d: Date, y: int, mp: int, leap: bool, doy: int)
    requires IsValidDate(d) && y == MarchYear(d) && mp == MarchMonth(d.month)
    requires d.day <= MonthLength(mp, leap) && doy == MonthStart(mp) + d.day - 1
    ensures DateOfMarchYear(y, doy) == d
  {
    DateOfMarchYearInverse(y, mp, leap, d.day);
  }

  /** The day number `z` is day `doe` of era `era`. */
  lemma CivilFromEraDay(z: int, era: int, doe: int)
    requires 0 <= doe < 146097 && z + 719468 == era * 146097 + doe
    ensures CivilFromDays(z) == DateOfEraDay(era, doe)
  {
    Div146097(z + 719468, era);
  }

  /** The day number of day `doy` of the year of era `era` that starts in year `y` is read
      back as that year and day. */
  lemma EraDayInverse(z: int, y: int, era: int, yoe: int, doy: int)
    requires 0 <= yoe < 400 && y == era * 400 + yoe
    requires 0 <= doy < (if LongYearOfEra(yoe) then 366 else 365)
    requires z + 719468 == era * 146097 + DaysBeforeYearOfEra(yoe) + doy
    ensures CivilFromDays(z) == DateOfMarchYear(y, doy)
  {
    YearOfEraInverse(yoe, doy);
    var doe := DaysBeforeYearOfEra(yoe) + doy;
    YearOfEraBounds(doe);
    CivilFromEraDay(z, era, doe);
    EraDayOfYear(era, yoe, doe, y, doy);
  }

  lemma EraDayOfYear(era: int, yoe: int, doe: int, y: int, doy: int)
    requires YearOfEra(doe) == yoe && y == era * 400 + yoe && doy == doe - DaysBeforeYearOfEra(yoe)
    ensures DateOfEraDay(era, doe) == DateOfMarchYear(y, doy)
  {
  }

  /** Day numbers of different valid dates differ. */
  lemma DaysFromCivilInjective(d1: Date, d2: Date)
    requires IsValidDate(d1) && IsValidDate(d2)
    requires DaysFromCivil(d1) == DaysFromCivil(d2)
    ensures d1 == d2
  {
    CivilRoundTrip(d1);
    CivilRoundTrip(d2);
  }

  // ---------------------------------------------------------------------------------------
  // Time values

  /** MakeDate(MakeDay(...), MakeTime(...)) for a valid date and time of day. */
  function TimeFromDateTime(dt: DateTime): int {
    DaysFromCivil(dt.date) * MsPerDay + dt.hour * MsPerHour + dt.minute * MsPerMinute
    + dt.second * MsPerSecond + dt.millisecond
  }

  /** YearFromTime, MonthFromTime, DateFromTime, HourFromTime, MinFromTime, SecFromTime and
      msFromTime of a time value. */
  function DateTimeFromTime(t: int): DateTime {
    var ms := t % MsPerDay;
    DateTime(CivilFromDays(t / MsPerDay), ms / MsPerHour, (ms % MsPerHour) / MsPerMinute,
             (ms % MsPerMinute) / MsPerSecond, ms % MsPerSecond)
  }

  lemma TimeJoin(days: int, h: int, mi: int, s: int, ms: int)
    requires 0 <= h < 24 && 0 <= mi < 60 && 0 <= s < 60 && 0 <= ms < 1000
    ensures var t := days * MsPerDay + h * MsPerHour + mi * MsPerMinute + s * MsPerSecond + ms;
      t / MsPerDay == days && (t % MsPerDay) / MsPerHour == h
      && ((t % MsPerDay) % MsPerHour) / MsPerMinute == mi
      && ((t % MsPerDay) % MsPerMinute) / MsPerSecond == s && (t % MsPerDay) % MsPerSecond == ms
  {
  }

  lemma TimeSplit(t: int)
    ensures var ms := t % MsPerDay;
      t == (t / MsPerDay) * MsPerDay + (ms / MsPerHour) * MsPerHour
           + ((ms % MsPerHour) / MsPerMinute) * MsPerMinute
           + ((ms % MsPerMinute) / MsPerSecond) * MsPerSecond + ms % MsPerSecond
      && 0 <= ms / MsPerHour < 24
  {
    var ms := t % MsPerDay;
    var h, r := ms / MsPerHour, ms % MsPerHour;
    assert ms == h * MsPerHour + r;
    var mi, r' := r / MsPerMinute, r % MsPerMinute;
    assert ms == (h * 60 + mi) * MsPerMinute + r';
    assert ms % MsPerMinute == r' by { ModMinute(ms, h * 60 + mi, r'); }
  }

  lemma ModMinute(x: int, q: int, r: int)
    requires x == q * MsPerMinute + r && 0 <= r < MsPerMinute
    ensures x % MsPerMinute == r
  {
  }

  /** A valid date and time of day is read back from its time value. */
  lemma DateTimeRoundTrip(dt: DateTime)
    requires IsValidDateTime(dt)
    ensures DateTimeFromTime(TimeFromDateTime(dt)) == dt
  {
    TimeJoin(DaysFromCivil(dt.date), dt.hour, dt.minute, dt.second, dt.millisecond);
    CivilRoundTrip(dt.date);
  }

  /** Every time value is the time value of the date and time read from it. */
  lemma TimeRoundTrip(t: int)
    ensures IsValidDate(DateTimeFromTime(t).date)
    ensures TimeFromDateTime(DateTimeFromTime(t)) == t
  {
    var days := t / MsPerDay;
    DaysRoundTrip(days);
    CivilFromDaysValid(days);
    TimeSplit(t);
  }
}
