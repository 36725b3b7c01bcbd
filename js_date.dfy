/** The parts of JavaScript's `Date` that reminder arithmetic goes through: parsing a string in
    the Date Time String Format (ECMA-262, section 21.4.1.32), TimeClip (section 21.4.1.31),
    `getTime`, the local-time getters and `toISOString` (section 21.4.4.43).

    A time value is a whole number of milliseconds since 1970-01-01T00:00:00Z, or NaN, written
    here as `None`. The host's local time zone is a fixed offset `zone` in minutes east of UTC;
    daylight-saving changes are not modelled. */
module JsDate {
  import opened Wrappers
  import opened JsText
  import opened CivilCalendar

  /** The largest magnitude a time value may have: 100,000,000 days. */
  const MaxTimeValue: int := 8_640_000_000_000_000

  /** The error `toISOString` throws on an invalid date ("Invalid time value"). */
  datatype DateError = RangeError

  /** TimeClip: NaN for times more than 100,000,000 days from the epoch. */
  function TimeClip(t: int): (r: Option<int>)
    ensures r.Some? <==> -MaxTimeValue <= t <= MaxTimeValue
    ensures r.Some? ==> r.value == t
  {
    if -MaxTimeValue <= t <= MaxTimeValue then Some(t) else None
  }

  /** `new Date(ms)` for an integral `ms`. */
  function DateFromTime(t: int): Option<int> {
    TimeClip(t)
  }

  /** The fields a local-time getter (`getFullYear`, `getDate`, `getHours`, ...) reads in
      time zone `zone`. */
  function LocalDateTime(t: int, zone: int): DateTime {
    DateTimeFromTime(LocalTime(t, zone))
  }

  /** LocalTime(t): the time value `t` shifted by the zone's offset. */
  function LocalTime(t: int, zone: int): int {
    t + zone * MsPerMinute
  }

  // ---------------------------------------------------------------------------------------
  // Parsing

  predicate CharAt(s: string, i: int, c: char) {
    0 <= i < |s| && s[i] == c
  }

  /** The value of the `n` decimal digits of `s` at position `i`, if there are `n` digits. */
  function DigitsAt(s: string, i: int, n: nat): Option<nat> {
    if 0 <= i && i + n <= |s| && AllDigits(s[i..i + n]) then Some(DigitsValue(s[i..i + n]))
    else None
  }

  /** The year at the start of `s` and the number of characters it takes: four digits, or a
      sign and six digits (the expanded years); `-000000` is not a year. */
  function ParseYear(s: string): (r: Option<(int, nat)>)
    ensures r.Some? ==> r.value.1 <= |s|
  {
    if |s| >= 4 && AllDigits(s[..4]) then Some((DigitsValue(s[..4]) as int, 4))
    else if |s| >= 7 && (s[0] == '+' || s[0] == '-') && AllDigits(s[1..7]) then
      var v := DigitsValue(s[1..7]);
      if s[0] == '-' && v == 0 then None
      else Some((if s[0] == '-' then -(v as int) else v, 7))
    else None
  }

  /** The date at the start of `s` (`YYYY`, `YYYY-MM` or `YYYY-MM-DD`; a missing month or day
      is 1) and the number of characters it takes. */
  function ParseCalendarDate(s: string): (r: Option<(Date, nat)>)
    ensures r.Some? ==> r.value.1 <= |s|
  {
    match ParseYear(s)
    case None => None
    case Some((y, p)) =>
      if CharAt(s, p, '-') && DigitsAt(s, p + 1, 2).Some? then
        var m := DigitsAt(s, p + 1, 2).value;
        if CharAt(s, p + 3, '-') && DigitsAt(s, p + 4, 2).Some? then
          Some((Date(y, m, DigitsAt(s, p + 4, 2).value), p + 6))
        else Some((Date(y, m, 1), p + 3))
      else Some((Date(y, 1, 1), p))
  }

  /** The time of day that starts at position `p` (`HH:mm`, `HH:mm:ss` or `HH:mm:ss.sss`) as
      hour, minute, second, millisecond and the position after it. */
  function ParseClock(s: string, p: nat): (r: Option<(int, int, int, int, nat)>)
    ensures r.Some? ==> r.value.4 <= |s|
  {
    if DigitsAt(s, p, 2).Some? && CharAt(s, p + 2, ':') && DigitsAt(s, p + 3, 2).Some? then
      var h, mi := DigitsAt(s, p, 2).value, DigitsAt(s, p + 3, 2).value;
      if CharAt(s, p + 5, ':') && DigitsAt(s, p + 6, 2).Some? then
        var sec := DigitsAt(s, p + 6, 2).value;
        if CharAt(s, p + 8, '.') && DigitsAt(s, p + 9, 3).Some? then
          Some((h, mi, sec, DigitsAt(s, p + 9, 3).value, p + 12))
        else Some((h, mi, sec, 0, p + 8))
      else Some((h, mi, 0, 0, p + 5))
    else None
  }

  /** What ends a date-time string at position `q`: nothing (`None`, local time), `Z`
      (`Some(0)`) or `+HH:mm` / `-HH:mm` (`Some` of the offset in minutes east of UTC). The
      outer `None` means the string does not end in one of these. */
  function ParseOffset(s: string, q: nat): Option<Option<int>> {
    if q == |s| then Some(None)
    else if q + 1 == |s| && s[q] == 'Z' then Some(Some(0))
    else if q + 6 == |s| && (s[q] == '+' || s[q] == '-') && DigitsAt(s, q + 1, 2).Some?
      && CharAt(s, q + 3, ':') && DigitsAt(s, q + 4, 2).Some?
    then
      var hh, mm := DigitsAt(s, q + 1, 2).value, DigitsAt(s, q + 4, 2).value;
      if hh > 23 || mm > 59 then None
      else Some(Some(if s[q] == '-' then -(hh * 60 + mm) else hh * 60 + mm))
    else None
  }

  /** The fields of a date-time string, and its offset from UTC: `None` for local time. */
  datatype Fields = Fields(local: DateTime, offset: Option<int>)

  /** Splits a string in the Date Time String Format into its fields. Date-only forms are
      UTC; date-time forms without an offset are local time. */
  function ParseFields(s: string): Option<Fields> {
    match ParseCalendarDate(s)
    case None => None
    case Some((date, p)) =>
      if p == |s| then Some(Fields(DateTime(date, 0, 0, 0, 0), Some(0)))
      else if s[p] != 'T' then None
      else
        match ParseClock(s, p + 1)
        case None => None
        case Some((h, mi, sec, ms, q)) =>
          match ParseOffset(s, q)
          case None => None
          case Some(offset) => Some(Fields(DateTime(date, h, mi, sec, ms), offset))
  }

  /** Month, day and time fields lie in their ranges; `24:00` (with zero seconds) is the end of
      the day. */
  predicate FieldsInRange(dt: DateTime) {
    IsValidDate(dt.date)
    && ((0 <= dt.hour < 24 && 0 <= dt.minute < 60 && 0 <= dt.second < 60)
        || (dt.hour == 24 && dt.minute == 0 && dt.second == 0 && dt.millisecond == 0))
  }

  /** `new Date(s)` (equally `Date.parse(s)`) for a string in the Date Time String Format, in
      time zone `zone`; NaN for any other string and for out-of-range fields. */
  function ParseDate(s: string, zone: int): (r: Option<int>)
    ensures r.Some? ==> -MaxTimeValue <= r.value <= MaxTimeValue
  {
    match ParseFields(s)
    case None => None
    case Some(f) =>
      if !FieldsInRange(f.local) then None
      else TimeClip(TimeFromDateTime(f.local) - f.offset.GetOr(zone) * MsPerMinute)
  }

  // ---------------------------------------------------------------------------------------
  // Printing

  /** DateTimeFromTime gives fields in range. */
  lemma DateTimeFromTimeValid(t: int)
    ensures IsValidDateTime(DateTimeFromTime(t))
  {
    CivilFromDaysValid(t / MsPerDay);
  }

  function Pow10(n: nat): nat {
    if n == 0 then 1 else 10 * Pow10(n - 1)
  }

  /** The last `w` decimal digits of `n`, most significant first (leading zeros included). */
  function FixedDigits(n: nat, w: nat): (r: string)
    ensures |r| == w && AllDigits(r)
  {
    if w == 0 then [] else FixedDigits(n / 10, w - 1) + [DigitChar(n % 10)]
  }

  /** The year as `toISOString` prints it: four digits for 0 .. 9999, otherwise a sign and six
      digits. */
  function IsoYear(y: int): string {
    if 0 <= y <= 9999 then FixedDigits(y, 4)
    else if y < 0 then "-" + FixedDigits(-y, 6)
    else "+" + FixedDigits(y, 6)
  }

  function Tens(n: nat): char { DigitChar(n / 10 % 10) }
  function Units(n: nat): char { DigitChar(n % 10) }

  /** Everything `toISOString` prints after the year: `-MM-DDTHH:mm:ss.sssZ`. */
  function IsoTail(dt: DateTime): (r: string)
    requires IsValidDateTime(dt)
    ensures |r| == 20
  {
    var d := dt.date;
    ['-', Tens(d.month), Units(d.month), '-', Tens(d.day), Units(d.day),
     'T', Tens(dt.hour), Units(dt.hour), ':', Tens(dt.minute), Units(dt.minute),
     ':', Tens(dt.second), Units(dt.second),
     '.', DigitChar(dt.millisecond / 100), Tens(dt.millisecond), Units(dt.millisecond), 'Z']
  }

  /** The string `toISOString` returns for the time value `t`: its UTC fields. */
  function IsoString(t: int): string {
    var dt := DateTimeFromTime(t);
    DateTimeFromTimeValid(t);
    IsoYear(dt.date.year) + IsoTail(dt)
  }

  /** `date.toISOString()`: throws a RangeError on an invalid date. */
  function ToIsoString(tv: Option<int>): Result<string, DateError> {
    match tv
    case None => Failure(RangeError)
    case Some(t) => Success(IsoString(t))
  }

  // ---------------------------------------------------------------------------------------
  // Facts about printing and parsing

  /** `w` fixed digits of a number below 10^w read back as the number. */
  lemma {:induction false} FixedDigitsValue(n: nat, w: nat)
    requires n < Pow10(w)
    ensures DigitsValue(FixedDigits(n, w)) == n
  {
    if w > 0 {
      var r := FixedDigits(n, w);
      assert r[..w - 1] == FixedDigits(n / 10, w - 1);
      FixedDigitsValue(n / 10, w - 1);
    }
  }

  lemma TwoDigitsValue(n: nat)
    requires n < 100
    ensures DigitsValue([Tens(n), Units(n)]) == n
  {
    var s := [Tens(n), Units(n)];
    assert s[..1] == [Tens(n)];
    assert [Tens(n)][..0] == [];
    assert Tens(n) as int - '0' as int == n / 10;
    assert Units(n) as int - '0' as int == n % 10;
    assert DigitsValue([Tens(n)]) == n / 10;
    assert DigitsValue(s) == DigitsValue(s[..1]) * 10 + n % 10;
  }

  /** Hundreds, tens and units recompose a number below 1000. */
  lemma ThreeDigitsSplit(n: nat, h: nat, t: nat, u: nat)
    requires n < 1000 && h == n / 100 && t == n / 10 % 10 && u == n % 10
    ensures (h * 10 + t) * 10 + u == n
  {
    var q := n / 10;
    assert n == 10 * q + u;
    assert q / 10 == h;
  }

  lemma ThreeDigitsValue(n: nat)
    requires n < 1000
    ensures DigitsValue([DigitChar(n / 100), Tens(n), Units(n)]) == n
  {
    var s := [DigitChar(n / 100), Tens(n), Units(n)];
    var h, t, u := n / 100, n / 10 % 10, n % 10;
    assert s[..2] == [DigitChar(h), Tens(n)];
    assert s[..2][..1] == [DigitChar(h)];
    assert [DigitChar(h)][..0] == [];
    assert DigitsValue([DigitChar(h)]) == h;
    assert DigitsValue(s[..2]) == h * 10 + t;
    assert DigitsValue(s) == (h * 10 + t) * 10 + u;
    ThreeDigitsSplit(n, h, t, u);
  }

  /** Years of dates within TimeClip's range have at most six digits. */
  lemma YearOfClippedTime(t: int)
    requires -MaxTimeValue <= t <= MaxTimeValue
    ensures -999_999 <= DateTimeFromTime(t).date.year <= 999_999
  {
    var z := t / MsPerDay;
    assert -100_000_000 <= z <= 100_000_000;
    var era := (z + 719468) / 146097;
    var doe := z + 719468 - era * 146097;
    YearOfEraBounds(doe);
    assert -700 <= era <= 700;
  }

  /** The shape the test of `calculateNotifyAt` expects of an ISO string: digits and
      separators at fixed places, `YYYY-MM-DDTHH:mm:ss.sssZ`. */
  predicate IsIsoShape(s: string) {
    |s| == 24
    && AllDigits(s[0..4]) && s[4] == '-' && AllDigits(s[5..7]) && s[7] == '-'
    && AllDigits(s[8..10]) && s[10] == 'T' && AllDigits(s[11..13]) && s[13] == ':'
    && AllDigits(s[14..16]) && s[16] == ':' && AllDigits(s[17..19]) && s[19] == '.'
    && AllDigits(s[20..23]) && s[23] == 'Z'
  }

  /** For years 0 .. 9999, `toISOString` has the fixed 24-character shape. */
  lemma IsoStringShape(t: int)
    requires 0 <= DateTimeFromTime(t).date.year <= 9999
    ensures IsIsoShape(IsoString(t))
  {
    var dt := DateTimeFromTime(t);
    DateTimeFromTimeValid(t);
    var y, r := IsoYear(dt.date.year), IsoTail(dt);
    var s := IsoString(t);
    assert s == y + r;
    assert s[0..4] == y;
    assert s[5..7] == r[1..3] && s[8..10] == r[4..6] && s[11..13] == r[7..9];
    assert s[14..16] == r[10..12] && s[17..19] == r[13..15] && s[20..23] == r[16..19];
  }

  /** Reading back the groups of digits of the tail, wherever it starts. */
  lemma DigitsOfTail(y: string, dt: DateTime)
    requires IsValidDateTime(dt)
    ensures var s, p := y + IsoTail(dt), |y|;
      CharAt(s, p, '-') && DigitsAt(s, p + 1, 2) == Some(dt.date.month)
      && CharAt(s, p + 3, '-') && DigitsAt(s, p + 4, 2) == Some(dt.date.day)
      && p + 6 != |s| && s[p + 6] == 'T'
      && DigitsAt(s, p + 7, 2) == Some(dt.hour) && CharAt(s, p + 9, ':')
      && DigitsAt(s, p + 10, 2) == Some(dt.minute) && CharAt(s, p + 12, ':')
      && DigitsAt(s, p + 13, 2) == Some(dt.second) && CharAt(s, p + 15, '.')
      && DigitsAt(s, p + 16, 3) == Some(dt.millisecond)
      && p + 20 == |s| && s[p + 19] == 'Z'
  {
    DateDigitsOfTail(y, dt);
    ClockDigitsOfTail(y, dt);
  }

  lemma DateDigitsOfTail(y: string, dt: DateTime)
    requires IsValidDateTime(dt)
    ensures var s, p := y + IsoTail(dt), |y|;
      CharAt(s, p, '-') && DigitsAt(s, p + 1, 2) == Some(dt.date.month)
      && CharAt(s, p + 3, '-') && DigitsAt(s, p + 4, 2) == Some(dt.date.day)
      && p + 6 != |s| && s[p + 6] == 'T'
  {
    var s, p := y + IsoTail(dt), |y|;
    var d := dt.date;
    assert s[p + 1..p + 3] == [Tens(d.month), Units(d.month)];
    TwoDigitsValue(d.month);
    assert s[p + 4..p + 6] == [Tens(d.day), Units(d.day)];
    TwoDigitsValue(d.day);
  }

  lemma ClockDigitsOfTail(y: string, dt: DateTime)
    requires IsValidDateTime(dt)
    ensures var s, p := y + IsoTail(dt), |y|;
      DigitsAt(s, p + 7, 2) == Some(dt.hour) && CharAt(s, p + 9, ':')
      && DigitsAt(s, p + 10, 2) == Some(dt.minute) && CharAt(s, p + 12, ':')
      && DigitsAt(s, p + 13, 2) == Some(dt.second) && CharAt(s, p + 15, '.')
      && DigitsAt(s, p + 16, 3) == Some(dt.millisecond)
      && p + 20 == |s| && s[p + 19] == 'Z'
  {
    var s, p := y + IsoTail(dt), |y|;
    assert s[p + 7..p + 9] == [Tens(dt.hour), Units(dt.hour)];
    TwoDigitsValue(dt.hour);
    assert s[p + 10..p + 12] == [Tens(dt.minute), Units(dt.minute)];
    TwoDigitsValue(dt.minute);
    assert s[p + 13..p + 15] == [Tens(dt.second), Units(dt.second)];
    TwoDigitsValue(dt.second);
    assert s[p + 16..p + 19] == [DigitChar(dt.millisecond / 100), Tens(dt.millisecond), Units(dt.millisecond)];
    ThreeDigitsValue(dt.millisecond);
  }

  /** The year `toISOString` prints is read back, and nothing more is taken with it. */
  lemma ParseIsoYear(y: int, r: string)
    requires -999_999 <= y <= 999_999
    requires r != [] && r[0] == '-'
    ensures ParseYear(IsoYear(y) + r) == Some((y, |IsoYear(y)|))
  {
    var s := IsoYear(y) + r;
    if 0 <= y <= 9999 {
      FixedDigitsValue(y, 4);
      assert s[..4] == IsoYear(y);
    } else {
      var a := if y < 0 then -y else y;
      FixedDigitsValue(a, 6);
      assert s[1..7] == FixedDigits(a, 6);
      assert !IsDigit(s[0]);
    }
  }

  /** The date, the clock and the `Z` of an ISO string are read back. */
  lemma ParseIsoPieces(y: string, year: int, dt: DateTime)
    requires IsValidDateTime(dt)
    requires ParseYear(y + IsoTail(dt)) == Some((year, |y|))
    ensures var s, p := y + IsoTail(dt), |y|;
      ParseCalendarDate(s) == Some((Date(year, dt.date.month, dt.date.day), p + 6))
      && ParseClock(s, p + 7) == Some((dt.hour, dt.minute, dt.second, dt.millisecond, p + 19))
      && ParseOffset(s, p + 19) == Some(Some(0))
  {
    DigitsOfTail(y, dt);
  }

  /** The ISO text of valid fields is read back as those fields, at offset zero. */
  lemma ParseIsoText(dt: DateTime)
    requires IsValidDateTime(dt) && -999_999 <= dt.date.year <= 999_999
    ensures ParseFields(IsoYear(dt.date.year) + IsoTail(dt)) == Some(Fields(dt, Some(0)))
  {
    var y, r := IsoYear(dt.date.year), IsoTail(dt);
    ParseIsoYear(dt.date.year, r);
    ParseIsoPieces(y, dt.date.year, dt);
    var s := y + r;
    assert s[|y| + 6] == 'T';
  }

  /** The fields of an ISO string are the UTC fields of its time value. */
  lemma ParseIsoFields(t: int)
    requires -MaxTimeValue <= t <= MaxTimeValue
    ensures ParseFields(IsoString(t)) == Some(Fields(DateTimeFromTime(t), Some(0)))
  {
    var dt := DateTimeFromTime(t);
    DateTimeFromTimeValid(t);
    YearOfClippedTime(t);
    assert IsoString(t) == IsoYear(dt.date.year) + IsoTail(dt);
    ParseIsoText(dt);
  }

  /** Text whose fields are valid and carry offset zero is read as their time value. */
  lemma ParseUtcFields(s: string, zone: int, dt: DateTime)
    requires ParseFields(s) == Some(Fields(dt, Some(0))) && IsValidDateTime(dt)
    requires -MaxTimeValue <= TimeFromDateTime(dt) <= MaxTimeValue
    ensures ParseDate(s, zone) == Some(TimeFromDateTime(dt))
  {
  }

  /** `new Date(d.toISOString())` is `d`, in every time zone. */
  lemma ParseIsoString(t: int, zone: int)
    requires -MaxTimeValue <= t <= MaxTimeValue
    ensures ParseDate(IsoString(t), zone) == Some(t)
  {
    ParseIsoFields(t);
    DateTimeFromTimeValid(t);
    TimeRoundTrip(t);
    ParseUtcFields(IsoString(t), zone, DateTimeFromTime(t));
  }

  /** `toISOString` throws exactly on NaN, and otherwise prints a string that `new Date` reads
      back as the same time value, in every time zone. */
  lemma ToIsoStringReadsBack(tv: Option<int>, zone: int)
    requires tv.Some? ==> -MaxTimeValue <= tv.value <= MaxTimeValue
    ensures tv.None? ==> ToIsoString(tv) == Failure(RangeError)
    ensures tv.Some? ==> ToIsoString(tv).Success? && ParseDate(ToIsoString(tv).value, zone) == tv
  {
    if tv.Some? {
      ParseIsoString(tv.value, zone);
    }
  }

  /** A date-only string is read as UTC midnight of that date, whatever the time zone. */
  lemma DateOnlyIsUtc(s: string, zone: int, zone': int)
    requires ParseCalendarDate(s).Some? && ParseCalendarDate(s).value.1 == |s|
    ensures ParseDate(s, zone) == ParseDate(s, zone')
    ensures ParseDate(s, zone).Some? ==>
      ParseDate(s, zone).value == DaysFromCivil(ParseCalendarDate(s).value.0) * MsPerDay
  {
  }

  /** A date-time string without an offset is read as local time: the local-time getters give
      back the fields it names, in every time zone in which it is a valid time value. */
  lemma LocalTimeReadsBack(s: string, zone: int)
    requires ParseFields(s).Some? && ParseFields(s).value.offset.None?
    requires IsValidDateTime(ParseFields(s).value.local)
    requires ParseDate(s, zone).Some?
    ensures LocalDateTime(ParseDate(s, zone).value, zone) == ParseFields(s).value.local
  {
    var local := ParseFields(s).value.local;
    var t := ParseDate(s, zone).value;
    assert t == TimeFromDateTime(local) - zone * MsPerMinute;
    LocalOfTime(local, zone, t);
  }

  /** The local fields of the instant whose local fields are `local` are `local`. */
  lemma LocalOfTime(local: DateTime, zone: int, t: int)
    requires IsValidDateTime(local) && t == TimeFromDateTime(local) - zone * MsPerMinute
    ensures LocalDateTime(t, zone) == local
  {
    DateTimeRoundTrip(local);
  }
}
