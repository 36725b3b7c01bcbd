/** When a reminder fires: `calculateNotifyAt` in lib/hooks/useNotifications.ts. A due date
    (`YYYY-MM-DD`) and an optional due time (`HH:mm`, 09:00 when absent) name an instant in the
    host's local time; the reminder's preset moves it back by a number of minutes, and the
    result is printed with `toISOString`. */
module ReminderTime {
  import opened Wrappers
  import opened JsText
  import opened CivilCalendar
  import opened JsDate

  /** `ReminderPreset`. */
  datatype ReminderPreset = FifteenMinutes | OneHour | OneDay | Custom

  /** How a reminder is delivered: on the device, by push from the server, or both. */
  datatype NotificationType = Local | Push | Both

  /** A stored reminder, `TodoNotification`: `notifyAt` is the ISO string `calculateNotifyAt`
      produced, `message` is `null` when absent. */
  datatype TodoNotification = TodoNotification(id: string, todoId: string, userId: string,
                                               notifyAt: string, notificationType: NotificationType,
                                               message: Option<string>, sent: bool,
                                               createdAt: string)

  /** How many minutes before the due instant the reminder fires: `customMinutes || 0` for a
      custom preset, so a missing value gives 0. */
  function MinutesBefore(preset: ReminderPreset, customMinutes: Option<int>): (m: int)
    ensures preset == FifteenMinutes ==> m == 15
    ensures preset == OneHour ==> m == 60
    ensures preset == OneDay ==> m == 60 * 24
    ensures preset == Custom ==> (customMinutes.Some? ==> m == customMinutes.value)
    ensures preset == Custom && customMinutes.None? ==> m == 0
    ensures preset != Custom ==> m > 0
  {
    match preset
    case FifteenMinutes => 15
    case OneHour => 60
    case OneDay => 60 * 24
    case Custom => customMinutes.GetOr(0)
  }

  /** The default time of day of a reminder for a todo without a due time. */
  const DefaultDueTime: string := "09:00"

  /** The string handed to `new Date`: the due date, `T`, and the due time when it is given
      (truthy: present and non-empty), otherwise 09:00. */
  function AnchorString(dueDate: string, dueTime: Option<string>): string {
    if dueTime.Some? && dueTime.value != "" then dueDate + "T" + dueTime.value
    else dueDate + "T" + DefaultDueTime
  }

  /** `new Date(due.getTime() - minutes * 60 * 1000)`: NaN stays NaN, and an instant moved out
      of range becomes NaN. */
  function ShiftBack(due: Option<int>, minutes: int): Option<int> {
    match due
    case None => None
    case Some(d) => DateFromTime(d - minutes * MsPerMinute)
  }

  /** The instant the reminder fires, or NaN. */
  function NotifyInstant(dueDate: string, dueTime: Option<string>, preset: ReminderPreset,
                         customMinutes: Option<int>, zone: int): Option<int>
  {
    ShiftBack(ParseDate(AnchorString(dueDate, dueTime), zone), MinutesBefore(preset, customMinutes))
  }

  /** `calculateNotifyAt(dueDate, dueTime, preset, customMinutes)` run in time zone `zone`:
      the ISO string of the notify instant, or the RangeError `toISOString` throws when the
      due date does not parse or the instant is out of range. */
  function CalculateNotifyAt(dueDate: string, dueTime: Option<string>, preset: ReminderPreset,
                             customMinutes: Option<int>, zone: int): Result<string, DateError>
  {
    ToIsoString(NotifyInstant(dueDate, dueTime, preset, customMinutes, zone))
  }

  // ---------------------------------------------------------------------------------------
  // What the result means

  /** Both falsy due times fall back to 09:00. */
  lemma DefaultAnchor(dueDate: string)
    ensures AnchorString(dueDate, None) == AnchorString(dueDate, Some("09:00"))
    ensures AnchorString(dueDate, Some("")) == AnchorString(dueDate, Some("09:00"))
  {
    assert "09:00" != "";
  }

  /** A missing or empty due time is 09:00. */
  lemma DefaultTimeIsNine(dueDate: string, preset: ReminderPreset, customMinutes: Option<int>,
                          zone: int)
    ensures CalculateNotifyAt(dueDate, None, preset, customMinutes, zone)
         == CalculateNotifyAt(dueDate, Some("09:00"), preset, customMinutes, zone)
    ensures CalculateNotifyAt(dueDate, Some(""), preset, customMinutes, zone)
         == CalculateNotifyAt(dueDate, Some("09:00"), preset, customMinutes, zone)
  {
    DefaultAnchor(dueDate);
  }

  /** Moving a due instant back: NaN stays NaN; otherwise the instant `minutes` earlier when
      that is a valid time value, and NaN when it is not. */
  lemma ShiftBackInstant(due: Option<int>, minutes: int)
    ensures var tv := ShiftBack(due, minutes);
      (due.None? ==> tv.None?)
      && (due.Some? ==>
            var at := due.value - minutes * MsPerMinute;
            (tv.Some? <==> -MaxTimeValue <= at <= MaxTimeValue) && (tv.Some? ==> tv.value == at))
  {
  }

  /** The result is the due instant moved back by the preset's minutes, printed as an ISO
      string; it fails exactly when the due instant is NaN or the moved instant is out of
      range. Reading the string back, in any time zone, gives that instant. */
  lemma NotifyAtIsShiftedDue(dueDate: string, dueTime: Option<string>, preset: ReminderPreset,
                             customMinutes: Option<int>, zone: int, zone': int)
    ensures var due := ParseDate(AnchorString(dueDate, dueTime), zone);
      var r := CalculateNotifyAt(dueDate, dueTime, preset, customMinutes, zone);
      (due.None? ==> r == Failure(RangeError))
      && (due.Some? ==>
            var at := due.value - MinutesBefore(preset, customMinutes) * MsPerMinute;
            (r.Success? <==> -MaxTimeValue <= at <= MaxTimeValue)
            && (r.Success? ==> ParseDate(r.value, zone') == Some(at)))
  {
    var due := ParseDate(AnchorString(dueDate, dueTime), zone);
    var minutes := MinutesBefore(preset, customMinutes);
    ShiftBackInstant(due, minutes);
    ToIsoStringReadsBack(ShiftBack(due, minutes), zone');
  }

  /** Moving back by a non-negative number of minutes never gives a later instant, and a
      larger number never gives a later one than a smaller. */
  lemma ShiftBackMonotone(due: Option<int>, m1: int, m2: int)
    requires m1 <= m2 && ShiftBack(due, m1).Some? && ShiftBack(due, m2).Some?
    ensures ShiftBack(due, m2).value <= ShiftBack(due, m1).value
    ensures 0 <= m1 ==> ShiftBack(due, m1).value <= due.value
  {
  }

  /** With a non-negative offset the reminder is never later than the due instant. */
  lemma NeverAfterDue(dueDate: string, dueTime: Option<string>, preset: ReminderPreset,
                      customMinutes: Option<int>, zone: int)
    requires MinutesBefore(preset, customMinutes) >= 0
    requires NotifyInstant(dueDate, dueTime, preset, customMinutes, zone).Some?
    ensures NotifyInstant(dueDate, dueTime, preset, customMinutes, zone).value
         <= ParseDate(AnchorString(dueDate, dueTime), zone).value
  {
    var m := MinutesBefore(preset, customMinutes);
    ShiftBackMonotone(ParseDate(AnchorString(dueDate, dueTime), zone), m, m);
  }

  /** A larger offset never gives a later reminder. */
  lemma LargerOffsetEarlier(dueDate: string, dueTime: Option<string>, m1: int, m2: int,
                            zone: int)
    requires m1 <= m2
    requires NotifyInstant(dueDate, dueTime, Custom, Some(m1), zone).Some?
    requires NotifyInstant(dueDate, dueTime, Custom, Some(m2), zone).Some?
    ensures NotifyInstant(dueDate, dueTime, Custom, Some(m2), zone).value
         <= NotifyInstant(dueDate, dueTime, Custom, Some(m1), zone).value
  {
    ShiftBackMonotone(ParseDate(AnchorString(dueDate, dueTime), zone), m1, m2);
  }

  /** Moving a valid instant back by zero minutes leaves it, and NaN, as they are. */
  lemma ShiftBackZero(due: Option<int>)
    requires due.Some? ==> -MaxTimeValue <= due.value <= MaxTimeValue
    ensures ShiftBack(due, 0) == due
  {
  }

  /** A custom preset of 0 minutes, or without minutes, fires at the due instant. */
  lemma CustomZeroIsDue(dueDate: string, dueTime: Option<string>, zone: int)
    ensures NotifyInstant(dueDate, dueTime, Custom, Some(0), zone)
         == ParseDate(AnchorString(dueDate, dueTime), zone)
    ensures NotifyInstant(dueDate, dueTime, Custom, None, zone)
         == ParseDate(AnchorString(dueDate, dueTime), zone)
  {
    ShiftBackZero(ParseDate(AnchorString(dueDate, dueTime), zone));
  }

  // ---------------------------------------------------------------------------------------
  // Inputs as the date and time pickers produce them

  /** A value of an HTML date input: `YYYY-MM-DD`. */
  predicate IsDateInput(s: string) {
    |s| == 10 && AllDigits(s[0..4]) && s[4] == '-' && AllDigits(s[5..7]) && s[7] == '-'
    && AllDigits(s[8..10])
  }

  /** A value of an HTML time input: `HH:mm`. */
  predicate IsTimeInput(s: string) {
    |s| == 5 && AllDigits(s[0..2]) && s[2] == ':' && AllDigits(s[3..5])
  }

  function InputDate(s: string): Date
    requires IsDateInput(s)
  {
    Date(DigitsValue(s[0..4]), DigitsValue(s[5..7]), DigitsValue(s[8..10]))
  }

  /** A due date and due time from the pickers are read as that date and time in local time. */
  lemma AnchorFields(dueDate: string, dueTime: string)
    requires IsDateInput(dueDate) && IsTimeInput(dueTime)
    ensures ParseFields(dueDate + "T" + dueTime)
         == Some(Fields(DateTime(InputDate(dueDate), DigitsValue(dueTime[0..2]),
                                 DigitsValue(dueTime[3..5]), 0, 0), None))
  {
    var s := dueDate + "T" + dueTime;
    assert s[..4] == dueDate[0..4];
    assert s[5..7] == dueDate[5..7];
    assert s[8..10] == dueDate[8..10];
    assert ParseYear(s) == Some((DigitsValue(dueDate[0..4]) as int, 4));
    assert ParseCalendarDate(s) == Some((InputDate(dueDate), 10));
    assert s[11..13] == dueTime[0..2];
    assert s[14..16] == dueTime[3..5];
    assert ParseClock(s, 11) == Some((DigitsValue(dueTime[0..2]), DigitsValue(dueTime[3..5]), 0, 0, 16));
  }

  /** The fields a date picker value and a time picker value name, as local date and time. */
  function PickerDateTime(dueDate: string, dueTime: string): DateTime
    requires IsDateInput(dueDate) && IsTimeInput(dueTime)
  {
    DateTime(InputDate(dueDate), DigitsValue(dueTime[0..2]), DigitsValue(dueTime[3..5]), 0, 0)
  }

  /** Picker values naming a real date and time are read as that local time in zone `zone`. */
  lemma AnchorInstant(dueDate: string, dueTime: string, zone: int)
    requires IsDateInput(dueDate) && IsTimeInput(dueTime)
    requires IsValidDateTime(PickerDateTime(dueDate, dueTime))
    ensures ParseDate(AnchorString(dueDate, Some(dueTime)), zone)
         == TimeClip(TimeFromDateTime(PickerDateTime(dueDate, dueTime)) - zone * MsPerMinute)
  {
    AnchorFields(dueDate, dueTime);
    assert AnchorString(dueDate, Some(dueTime)) == dueDate + "T" + dueTime;
  }

  /** The instant at which a reminder fires, for picker inputs naming a real date and time,
      in every time zone in which the due instant and the reminder instant are valid: the due
      instant moved back by the preset's minutes, whose local time is the due date and time
      moved back by those minutes. The local-time getters read the fields of this local time
      (`LocalDateTime`). */
  lemma FiresAtLocal(dueDate: string, dueTime: string, preset: ReminderPreset,
                     customMinutes: Option<int>, zone: int)
    requires IsDateInput(dueDate) && IsTimeInput(dueTime)
    requires IsValidDateTime(PickerDateTime(dueDate, dueTime))
    requires var due := TimeFromDateTime(PickerDateTime(dueDate, dueTime)) - zone * MsPerMinute;
      var at := due - MinutesBefore(preset, customMinutes) * MsPerMinute;
      -MaxTimeValue <= due <= MaxTimeValue && -MaxTimeValue <= at <= MaxTimeValue
    ensures var local := TimeFromDateTime(PickerDateTime(dueDate, dueTime));
      var minutes := MinutesBefore(preset, customMinutes);
      var at := local - zone * MsPerMinute - minutes * MsPerMinute;
      NotifyInstant(dueDate, Some(dueTime), preset, customMinutes, zone) == Some(at)
      && LocalTime(at, zone) == local - minutes * MsPerMinute
  {
    var local := TimeFromDateTime(PickerDateTime(dueDate, dueTime));
    var minutes := MinutesBefore(preset, customMinutes);
    AnchorInstant(dueDate, dueTime, zone);
    var parsed := ParseDate(AnchorString(dueDate, Some(dueTime)), zone);
    ShiftedLocal(parsed, local, zone, minutes);
    assert NotifyInstant(dueDate, Some(dueTime), preset, customMinutes, zone) == ShiftBack(parsed, minutes);
  }

  lemma ShiftedLocal(parsed: Option<int>, local: int, zone: int, minutes: int)
    requires parsed == TimeClip(local - zone * MsPerMinute)
    requires -MaxTimeValue <= local - zone * MsPerMinute <= MaxTimeValue
    requires -MaxTimeValue <= local - zone * MsPerMinute - minutes * MsPerMinute <= MaxTimeValue
    ensures ShiftBack(parsed, minutes) == Some(local - zone * MsPerMinute - minutes * MsPerMinute)
    ensures LocalTime(local - zone * MsPerMinute - minutes * MsPerMinute, zone) == local - minutes * MsPerMinute
  {
    ShiftBackInstant(parsed, minutes);
  }

  /** An instant from 1970 to about 5100 whose local time in zone `zone` is `local`: its ISO
      string has the fixed shape, reads back as the instant, and its local fields are those of
      `local`. */
  lemma ReminderString(at: int, zone: int, local: int)
    requires at + zone * MsPerMinute == local && 0 <= at <= 100_000_000_000_000
    ensures IsIsoShape(IsoString(at)) && ParseDate(IsoString(at), zone) == Some(at)
    ensures LocalDateTime(at, zone) == DateTimeFromTime(local)
  {
    ParseIsoString(at, zone);
    FourDigitYears(at);
    IsoStringShape(at);
    LocalOfShifted(at, zone, local);
  }

  lemma LocalOfShifted(t: int, zone: int, local: int)
    requires t + zone * MsPerMinute == local
    ensures LocalDateTime(t, zone) == DateTimeFromTime(local)
  {
  }

  /** Instants from 1970 to about 5100 print with four-digit years. */
  lemma FourDigitYears(t: int)
    requires 0 <= t <= 100_000_000_000_000
    ensures 0 <= DateTimeFromTime(t).date.year <= 9999
  {
    var z := t / MsPerDay;
    assert 0 <= z <= 1_157_408;
    var era := (z + 719468) / 146097;
    assert 4 <= era <= 13;
    var doe := z + 719468 - era * 146097;
    YearOfEraBounds(doe);
  }

  /** A whole number of days before keeps the time of day and moves the date back by that
      many days, across month and year ends. */
  lemma DaysBeforeKeepsClock(dt: DateTime, k: int)
    requires IsValidDateTime(dt)
    ensures var r := DateTimeFromTime(TimeFromDateTime(dt) - k * 24 * 60 * MsPerMinute);
      r == dt.(date := CivilFromDays(DaysFromCivil(dt.date) - k))
  {
    var z := DaysFromCivil(dt.date) - k;
    assert TimeFromDateTime(dt) - k * 24 * 60 * MsPerMinute
        == z * MsPerDay + dt.hour * MsPerHour + dt.minute * MsPerMinute
           + dt.second * MsPerSecond + dt.millisecond;
    TimeJoin(z, dt.hour, dt.minute, dt.second, dt.millisecond);
  }

  // ---------------------------------------------------------------------------------------
  // The cases of lib/hooks/useNotifications.test.ts, in every time zone up to a day from UTC

  predicate PlausibleZone(zone: int) {
    -24 * 60 < zone < 24 * 60
  }

  /** Picker values for 2024-12-25 at `h`:`m`, the due date of the tests. */
  predicate ChristmasAt(dueDate: string, dueTime: string, h: nat, m: nat) {
    IsDateInput(dueDate) && InputDate(dueDate) == Date(2024, 12, 25)
    && IsTimeInput(dueTime) && DigitsValue(dueTime[0..2]) == h && DigitsValue(dueTime[3..5]) == m
  }

  /** `"2024-12-25"` is the date picker value of 2024-12-25. */
  lemma ChristmasInput()
    ensures IsDateInput("2024-12-25") && InputDate("2024-12-25") == Date(2024, 12, 25)
  {
    var s := "2024-12-25";
    assert s[0..4] == "2024";
    assert s[5..7] == "12";
    assert s[8..10] == "25";
    assert "2024"[..2] == "20";
    assert "2024"[2..] == "24";
    FourDigitString("2024");
    TwoDigitString("20");
    TwoDigitString("24");
    TwoDigitString("12");
    TwoDigitString("25");
  }

  /** `"09:00"`, the default due time, is the time picker value of 9:00. */
  lemma NineInput()
    ensures IsTimeInput("09:00")
    ensures DigitsValue("09:00"[0..2]) == 9 && DigitsValue("09:00"[3..5]) == 0
  {
    assert "09:00"[0..2] == "09";
    assert "09:00"[3..5] == "00";
    TwoDigitString("09");
    TwoDigitString("00");
  }

  /** With the default due time, the due date 2024-12-25 is 9:00 of that day. */
  lemma ChristmasNine(dueDate: string)
    requires IsDateInput(dueDate) && InputDate(dueDate) == Date(2024, 12, 25)
    ensures ChristmasAt(dueDate, "09:00", 9, 0)
  {
    NineInput();
  }

  lemma ChristmasDayNumber()
    ensures DaysFromCivil(Date(2024, 12, 25)) == 20082
  {
    assert MarchYear(Date(2024, 12, 25)) == 2024;
    assert DaysToMarchFirst(2024) == 19783;
    assert MonthStart(9) == 275;
  }

  /** Days of one month are numbered consecutively. */
  lemma SameMonthDays(year: int, month: int, d1: int, d2: int)
    ensures DaysFromCivil(Date(year, month, d1)) - DaysFromCivil(Date(year, month, d2)) == d1 - d2
  {
  }

  /** A reminder instant from 1970 to about 5100 whose local time is that of `expected`,
      printed: an ISO string of the fixed shape which reads back, in local time, as
      `expected`. */
  lemma ReminderReadsAs(tv: Option<int>, at: int, zone: int, expected: DateTime)
    requires tv == Some(at) && 0 <= at <= 100_000_000_000_000
    requires IsValidDateTime(expected) && LocalTime(at, zone) == TimeFromDateTime(expected)
    ensures var r := ToIsoString(tv);
      r.Success? && IsIsoShape(r.value) && ParseDate(r.value, zone).Some?
      && LocalDateTime(ParseDate(r.value, zone).value, zone) == expected
  {
    ReminderString(at, zone, TimeFromDateTime(expected));
    DateTimeRoundTrip(expected);
  }

  /** A valid due instant `d` moved back by `minutes` to an instant from 1970 to about 5100
      whose local time is that of `expected`, printed: an ISO string of the fixed shape which
      reads back, in local time, as `expected`. */
  lemma ShiftedReadsAs(due: Option<int>, d: int, minutes: int, zone: int, expected: DateTime)
    requires due == TimeClip(d) && -MaxTimeValue <= d <= MaxTimeValue
    requires 0 <= d - minutes * MsPerMinute <= 100_000_000_000_000
    requires IsValidDateTime(expected)
    requires LocalTime(d - minutes * MsPerMinute, zone) == TimeFromDateTime(expected)
    ensures var r := ToIsoString(ShiftBack(due, minutes));
      r.Success? && IsIsoShape(r.value) && ParseDate(r.value, zone).Some?
      && LocalDateTime(ParseDate(r.value, zone).value, zone) == expected
  {
    ShiftBackInstant(due, minutes);
    ReminderReadsAs(ShiftBack(due, minutes), d - minutes * MsPerMinute, zone, expected);
  }

  /** Picker values for 2024-12-25 at `h`:`m` name a real local time on day 20082. */
  lemma ChristmasLocal(dueDate: string, dueTime: string, h: nat, m: nat)
    requires ChristmasAt(dueDate, dueTime, h, m) && h < 24 && m < 60
    ensures IsValidDateTime(PickerDateTime(dueDate, dueTime))
    ensures TimeFromDateTime(PickerDateTime(dueDate, dueTime))
         == 20082 * MsPerDay + h * MsPerHour + m * MsPerMinute
  {
    ChristmasDayNumber();
    assert PickerDateTime(dueDate, dueTime) == DateTime(Date(2024, 12, 25), h, m, 0, 0);
  }

  /** Picker values for 2024-12-25 at `h`:`m` are read as that local time. */
  lemma ChristmasAnchor(dueDate: string, dueTime: string, h: nat, m: nat, zone: int)
    requires ChristmasAt(dueDate, dueTime, h, m) && h < 24 && m < 60 && PlausibleZone(zone)
    ensures ParseDate(AnchorString(dueDate, Some(dueTime)), zone)
         == TimeClip(20082 * MsPerDay + h * MsPerHour + m * MsPerMinute - zone * MsPerMinute)
  {
    ChristmasLocal(dueDate, dueTime, h, m);
    AnchorInstant(dueDate, dueTime, zone);
  }

  /** The reminder of a test, in local time: the due date and time moved back by the preset's
      minutes lands on `expected`. */
  lemma ChristmasReminder(dueDate: string, dueTime: string, h: nat, m: nat, preset: ReminderPreset,
                          customMinutes: Option<int>, zone: int, expected: DateTime)
    requires ChristmasAt(dueDate, dueTime, h, m) && h < 24 && m < 60 && PlausibleZone(zone)
    requires 0 <= MinutesBefore(preset, customMinutes) <= 60 * 24 * 365
    requires IsValidDateTime(expected)
    requires TimeFromDateTime(expected)
          == 20082 * MsPerDay + h * MsPerHour + m * MsPerMinute
             - MinutesBefore(preset, customMinutes) * MsPerMinute
    ensures var r := CalculateNotifyAt(dueDate, Some(dueTime), preset, customMinutes, zone);
      r.Success? && IsIsoShape(r.value) && ParseDate(r.value, zone).Some?
      && LocalDateTime(ParseDate(r.value, zone).value, zone) == expected
  {
    var d := 20082 * MsPerDay + h * MsPerHour + m * MsPerMinute - zone * MsPerMinute;
    ChristmasAnchor(dueDate, dueTime, h, m, zone);
    ShiftedReadsAs(ParseDate(AnchorString(dueDate, Some(dueTime)), zone), d,
                   MinutesBefore(preset, customMinutes), zone, expected);
  }

  /** 15 minutes before 14:00 is 13:45. */
  lemma FifteenMinutesBefore(dueDate: string, dueTime: string, zone: int)
    requires ChristmasAt(dueDate, dueTime, 14, 0) && PlausibleZone(zone)
    ensures var r := CalculateNotifyAt(dueDate, Some(dueTime), FifteenMinutes, None, zone);
      r.Success? && IsIsoShape(r.value) && ParseDate(r.value, zone).Some?
      && LocalDateTime(ParseDate(r.value, zone).value, zone) == DateTime(Date(2024, 12, 25), 13, 45, 0, 0)
  {
    ChristmasDayNumber();
    ChristmasReminder(dueDate, dueTime, 14, 0, FifteenMinutes, None, zone,
                      DateTime(Date(2024, 12, 25), 13, 45, 0, 0));
  }

  /** An hour before 14:00 is 13:00. */
  lemma OneHourBefore(dueDate: string, dueTime: string, zone: int)
    requires ChristmasAt(dueDate, dueTime, 14, 0) && PlausibleZone(zone)
    ensures var r := CalculateNotifyAt(dueDate, Some(dueTime), OneHour, None, zone);
      r.Success? && IsIsoShape(r.value) && ParseDate(r.value, zone).Some?
      && LocalDateTime(ParseDate(r.value, zone).value, zone) == DateTime(Date(2024, 12, 25), 13, 0, 0, 0)
  {
    ChristmasDayNumber();
    ChristmasReminder(dueDate, dueTime, 14, 0, OneHour, None, zone,
                      DateTime(Date(2024, 12, 25), 13, 0, 0, 0));
  }

  /** A day before December 25 at 14:00 is December 24 at 14:00. */
  lemma OneDayBefore(dueDate: string, dueTime: string, zone: int)
    requires ChristmasAt(dueDate, dueTime, 14, 0) && PlausibleZone(zone)
    ensures var r := CalculateNotifyAt(dueDate, Some(dueTime), OneDay, None, zone);
      r.Success? && IsIsoShape(r.value) && ParseDate(r.value, zone).Some?
      && LocalDateTime(ParseDate(r.value, zone).value, zone) == DateTime(Date(2024, 12, 24), 14, 0, 0, 0)
  {
    ChristmasDayNumber();
    SameMonthDays(2024, 12, 24, 25);
    ChristmasReminder(dueDate, dueTime, 14, 0, OneDay, None, zone,
                      DateTime(Date(2024, 12, 24), 14, 0, 0, 0));
  }

  /** 30 custom minutes before 14:00 is 13:30. */
  lemma CustomThirtyBefore(dueDate: string, dueTime: string, zone: int)
    requires ChristmasAt(dueDate, dueTime, 14, 0) && PlausibleZone(zone)
    ensures var r := CalculateNotifyAt(dueDate, Some(dueTime), Custom, Some(30), zone);
      r.Success? && IsIsoShape(r.value) && ParseDate(r.value, zone).Some?
      && LocalDateTime(ParseDate(r.value, zone).value, zone) == DateTime(Date(2024, 12, 25), 13, 30, 0, 0)
  {
    ChristmasDayNumber();
    ChristmasReminder(dueDate, dueTime, 14, 0, Custom, Some(30), zone,
                      DateTime(Date(2024, 12, 25), 13, 30, 0, 0));
  }

  /** 0 custom minutes fires at 14:00 itself. */
  lemma CustomZeroAtDue(dueDate: string, dueTime: string, zone: int)
    requires ChristmasAt(dueDate, dueTime, 14, 0) && PlausibleZone(zone)
    ensures var r := CalculateNotifyAt(dueDate, Some(dueTime), Custom, Some(0), zone);
      r.Success? && IsIsoShape(r.value) && ParseDate(r.value, zone).Some?
      && LocalDateTime(ParseDate(r.value, zone).value, zone) == DateTime(Date(2024, 12, 25), 14, 0, 0, 0)
  {
    ChristmasDayNumber();
    ChristmasReminder(dueDate, dueTime, 14, 0, Custom, Some(0), zone,
                      DateTime(Date(2024, 12, 25), 14, 0, 0, 0));
  }

  /** Without a due time, 15 minutes before the default 09:00 is 08:45. */
  lemma DefaultFifteenMinutesBefore(dueDate: string, zone: int)
    requires IsDateInput(dueDate) && InputDate(dueDate) == Date(2024, 12, 25) && PlausibleZone(zone)
    ensures var r := CalculateNotifyAt(dueDate, None, FifteenMinutes, None, zone);
      r.Success? && IsIsoShape(r.value) && ParseDate(r.value, zone).Some?
      && LocalDateTime(ParseDate(r.value, zone).value, zone) == DateTime(Date(2024, 12, 25), 8, 45, 0, 0)
  {
    ChristmasDayNumber();
    ChristmasNine(dueDate);
    DefaultTimeIsNine(dueDate, FifteenMinutes, None, zone);
    ChristmasReminder(dueDate, "09:00", 9, 0, FifteenMinutes, None, zone,
                      DateTime(Date(2024, 12, 25), 8, 45, 0, 0));
  }

  /** Without a due time, a day before is December 24 at 09:00. */
  lemma DefaultOneDayBefore(dueDate: string, zone: int)
    requires IsDateInput(dueDate) && InputDate(dueDate) == Date(2024, 12, 25) && PlausibleZone(zone)
    ensures var r := CalculateNotifyAt(dueDate, None, OneDay, None, zone);
      r.Success? && IsIsoShape(r.value) && ParseDate(r.value, zone).Some?
      && LocalDateTime(ParseDate(r.value, zone).value, zone) == DateTime(Date(2024, 12, 24), 9, 0, 0, 0)
  {
    ChristmasDayNumber();
    SameMonthDays(2024, 12, 24, 25);
    ChristmasNine(dueDate);
    DefaultTimeIsNine(dueDate, OneDay, None, zone);
    ChristmasReminder(dueDate, "09:00", 9, 0, OneDay, None, zone,
                      DateTime(Date(2024, 12, 24), 9, 0, 0, 0));
  }

  /** An hour before midnight of December 25 is December 24 at 23:00. */
  lemma MidnightOneHourBefore(dueDate: string, dueTime: string, zone: int)
    requires ChristmasAt(dueDate, dueTime, 0, 0) && PlausibleZone(zone)
    ensures var r := CalculateNotifyAt(dueDate, Some(dueTime), OneHour, None, zone);
      r.Success? && IsIsoShape(r.value) && ParseDate(r.value, zone).Some?
      && LocalDateTime(ParseDate(r.value, zone).value, zone) == DateTime(Date(2024, 12, 24), 23, 0, 0, 0)
  {
    ChristmasDayNumber();
    SameMonthDays(2024, 12, 24, 25);
    ChristmasReminder(dueDate, dueTime, 0, 0, OneHour, None, zone,
                      DateTime(Date(2024, 12, 24), 23, 0, 0, 0));
  }

  /** A week of custom minutes before December 25 at 12:00 is December 18 at 12:00. */
  lemma OneWeekBefore(dueDate: string, dueTime: string, zone: int)
    requires ChristmasAt(dueDate, dueTime, 12, 0) && PlausibleZone(zone)
    ensures var r := CalculateNotifyAt(dueDate, Some(dueTime), Custom, Some(60 * 24 * 7), zone);
      r.Success? && IsIsoShape(r.value) && ParseDate(r.value, zone).Some?
      && LocalDateTime(ParseDate(r.value, zone).value, zone) == DateTime(Date(2024, 12, 18), 12, 0, 0, 0)
  {
    ChristmasDayNumber();
    SameMonthDays(2024, 12, 18, 25);
    ChristmasReminder(dueDate, dueTime, 12, 0, Custom, Some(60 * 24 * 7), zone,
                      DateTime(Date(2024, 12, 18), 12, 0, 0, 0));
  }
}
