# shared-todo, modelled in Dafny

shared-todo is a to-do application for the web and for phones. Its users keep todos with a checklist, extra information (a phone number, a link, an address, a note) and reminders. They share a todo with other users as viewers or co-owners. On a device, reminders become local notifications, and the cards and the list react to swipes and to pull-to-refresh. This project models the logic of the application's screens and hooks that can be stated exactly, and proves what that logic promises. The hosted store, the authentication service, the notification plugin and the browser are outside the model. Their answers are parameters, and the calls made to them are recorded.

The modules follow the source files:

- `ReminderTime` (reminder_time.dfy) models `calculateNotifyAt` of lib/hooks/useNotifications.ts. It rests on:
  - `JsDate` (js_date.dfy): date parsing, `TimeClip`, the local-time getters and `toISOString`, for a host whose time zone is a fixed offset;
  - `CivilCalendar` (civil_calendar.dfy): the Gregorian calendar on a millisecond timeline.
- `Swipeable` (swipeable_card.dfy) models components/ui/SwipeableCard.tsx. `PullRefresh` (pull_to_refresh.dfy) models components/ui/PullToRefresh.tsx. Both are classes whose touch handlers update the gesture's state. They are proved against step functions over exact reals, with `RealMath` (real_math.dfy) for the `Math` helpers.
- `Notifications` (notifications.dfy) models lib/capacitor/notifications.ts: the 32-bit hash of a reminder's UUID and the guarded plugin calls. The device is a value holding its permission and its pending notifications.
- `NotificationSync` (notification_sync.dfy) and `NativeNotifications` (native_notifications.dfy) model the two notification hooks.
- The todo screens have one module each:
  - `NotificationForms` (notification_form.dfy);
  - `TodoList` (todo_list.dfy);
  - `TodoCards` (todo_card.dfy);
  - `TodoForms` (todo_form.dfy);
  - `ChecklistForms` (checklist_form.dfy);
  - `MetadataForms` (metadata_form.dfy);
  - `MetadataDisplays` (metadata_display.dfy, with `Uri` in uri.dfy for `encodeURIComponent`);
  - `ParticipantSelectors` (participant_selector.dfy).
- `RegisterForms` (register_form.dfy) models the sign-up form.
- `LanguageProviders` (language_provider.dfy) models the language provider.
- Shared pieces:
  - `Wrappers`: `Option` and `Result`;
  - `JsText`: UTF-16 length, `trim`, ASCII `toLowerCase`, `includes`, `startsWith`, `parseInt` and number printing;
  - `Forms`: the `|| undefined` idioms and reading a caught error;
  - `Todos` and `Metadata`: the store's rows;
  - `Sequences`: order-preserving subsequences.

Pure code is written as functions with lemmas. A component or hook whose handlers change state is a class. Each of its methods is proved to leave the state that a step function of the old state gives, and the properties are proved about the step functions. An asynchronous handler whose intermediate state can be seen is split into two steps. This applies to the metadata row being deleted and to the sign-up form while it loads. Every other handler takes how its `await` settled as a parameter.

Two places where the code falls short of what is evidently intended are listed under "## Findings". The model states the code as written and the evident intent beside it. The rest of the model uses the intended behaviour.

Time:
- The host's time zone is a parameter `zone`, minutes east of UTC. Local time is UTC plus `zone` minutes.
- `new Date("YYYY-MM-DD")` is UTC midnight, as ECMA-262 prescribes for date-only forms.
- `new Date("YYYY-MM-DDTHH:mm")` is local time.

## Model

| member | source | states |
|---|---|---|
| Notifications.HashOf | lib/capacitor/notifications.ts:170-176 | the hash kept by the loop is always a signed 32-bit integer |
| Notifications.ShiftSubtractStep | lib/capacitor/notifications.ts:174-175 | one loop step, `(hash << 5) - hash + c` followed by `hash & hash`, equals `31 * hash + c` wrapped to 32 bits |
| Notifications.HashIsWrappedPoly | lib/capacitor/notifications.ts:170-176 | wrapping after every step gives the same hash as wrapping the base-31 value of the code units once at the end |
| Notifications.SmallHash | lib/capacitor/notifications.ts:170-176 | a string whose base-31 value fits in 31 bits hashes to that value, with no wrapping |
| Notifications.NotificationId | lib/capacitor/notifications.ts:170-178 | the id is at most 2^31; the empty string gives 0; the id is 2^31 exactly when the hash is -2^31 |
| Notifications.UuidToNotificationId | lib/capacitor/notifications.ts:170-178 | the loop over the UTF-16 code units returns `NotificationId`, the absolute value of the 32-bit hash |
| Notifications.TwoLetterId | lib/capacitor/notifications.ts:170-178 | an example: "ab" gives 31 * 97 + 98 = 3105 |
| Notifications.NotificationOf | lib/capacitor/notifications.ts:79-95 | the notification keeps the request's id, title, body and time; it may fire while idle; it uses sound "default" and action type `OPEN_TODO`; its extra holds `todoId` and every entry of the request's extra, and the request's own entries take precedence |
| Notifications.TappedTodo | lib/capacitor/notifications.ts:197-198 | a tap reports a todo exactly when the extra has a non-empty `todoId`, and reports that id |
| Notifications.TapReportsTodo | lib/capacitor/notifications.ts:194-199 | a notification the app scheduled reports its own todo when tapped, unless the request's extra (spread over `todoId` at lines 91-94) overrides it |
| Notifications.RequestOutcome | lib/capacitor/notifications.ts:21-34 | it answers true exactly when the plugin answers and permission is, or becomes, granted; the pending notifications are untouched |
| Notifications.ScheduleOutcome | lib/capacitor/notifications.ts:56-108 | it succeeds exactly when the plugin answers and permission is held or granted on request, and then the notification is pending under its id; otherwise nothing is pending that was not; an unsupported platform changes nothing |
| Notifications.CancelOutcome | lib/capacitor/notifications.ts:113-126 | when the plugin answers, the id is no longer pending and the permission is kept; a cancel never adds a pending id |
| Notifications.Device.constructor | lib/capacitor/notifications.ts:13-15 | a device starts with its platform facts, the given permission and nothing pending |
| Notifications.Device.RequestPermissions | lib/capacitor/notifications.ts:21-34 | the answer and the new plugin state are `RequestOutcome` of the old state |
| Notifications.Device.CheckPermissions | lib/capacitor/notifications.ts:39-51 | true exactly when the plugin answers and display permission is granted |
| Notifications.Device.ScheduleNotification | lib/capacitor/notifications.ts:56-108 | the answer and the new plugin state are `ScheduleOutcome` of the old state |
| Notifications.Device.CancelNotification | lib/capacitor/notifications.ts:113-126 | the answer and the new plugin state are `CancelOutcome` of the old state |
| Notifications.Device.CancelAllNotifications | lib/capacitor/notifications.ts:131-147 | when the plugin answers, nothing is left pending and the answer is true; the plugin's cancel is called only when something was pending; otherwise nothing changes |
| Notifications.Device.GetPendingNotifications | lib/capacitor/notifications.ts:152-164 | the pending notifications, or none when the plugin does not answer |
| Notifications.TapTarget | lib/capacitor/notifications.ts:184-202 | off a supported platform no listener exists and no tap is reported; on one, the tap reports `TappedTodo` of the notification's extra |
| ReminderTime.MinutesBefore | lib/hooks/useNotifications.ts:157-171 | 15, 60 and 1440 minutes for the fixed presets; a custom preset uses its minutes, or 0 when none are given |
| ReminderTime.DefaultAnchor | lib/hooks/useNotifications.ts:147-153 | a missing or empty due time reads the same as an explicit "09:00" |
| ReminderTime.DefaultTimeIsNine | lib/hooks/useNotifications.ts:147-153 | `calculateNotifyAt` without a due time, or with an empty one, equals its result for "09:00" |
| ReminderTime.ShiftBackInstant | lib/hooks/useNotifications.ts:173 | NaN stays NaN; a valid instant moves back by the given minutes, or becomes NaN when that leaves the time range |
| ReminderTime.NotifyAtIsShiftedDue | lib/hooks/useNotifications.ts:145-175 | the result fails exactly when the due date does not parse or the moved instant leaves the time range; otherwise it is an ISO string that reads back, in any zone, as the parsed due instant moved back by the preset's minutes |
| ReminderTime.ShiftBackMonotone | lib/hooks/useNotifications.ts:173 | more minutes never give a later instant, and a non-negative offset never gives one after the due instant |
| ReminderTime.NeverAfterDue | lib/hooks/useNotifications.ts:145-175 | with a non-negative offset the reminder is not later than the due instant |
| ReminderTime.LargerOffsetEarlier | lib/hooks/useNotifications.ts:168-173 | a larger custom offset never gives a later reminder |
| ReminderTime.ShiftBackZero | lib/hooks/useNotifications.ts:173 | moving back by zero minutes leaves an instant or NaN as it is |
| ReminderTime.CustomZeroIsDue | lib/hooks/useNotifications.ts:168-170 | a custom preset of 0 minutes, or with no minutes, fires at the due instant |
| ReminderTime.AnchorFields | lib/hooks/useNotifications.ts:149-155 | date and time picker values are read as those local fields, with no offset |
| ReminderTime.AnchorInstant | lib/hooks/useNotifications.ts:149-155 | picker values naming a real date and time are read as that local time in the zone |
| ReminderTime.FiresAtLocal | lib/hooks/useNotifications.ts:145-175 | for picker inputs naming a real date and time, the reminder instant is the due instant moved back by the preset's minutes, and its local time is the due local time moved back by those minutes |
| ReminderTime.ReminderString | lib/hooks/useNotifications.ts:174 | the ISO string of an instant from 1970 to about 5100 has the ISO shape and parses back to that instant |
| ReminderTime.LocalOfShifted | lib/hooks/useNotifications.ts:173 | an instant whose local time value is `local` has the local fields of `local` |
| ReminderTime.FourDigitYears | lib/hooks/useNotifications.ts:174 | instants from 1970 to about 5100 have four-digit years |
| ReminderTime.DaysBeforeKeepsClock | lib/hooks/useNotifications.test.ts:27-34 | a whole number of days earlier keeps the time of day and moves the date back by that many days |
| ReminderTime.ChristmasInput | lib/hooks/useNotifications.test.ts:6 | "2024-12-25" is a date picker value naming 2024-12-25 |
| ReminderTime.NineInput | lib/hooks/useNotifications.ts:152 | "09:00" is a time picker value naming 9:00 |
| ReminderTime.ChristmasNine | lib/hooks/useNotifications.test.ts:55-58 | with the default due time, the test's due date is 9:00 on 2024-12-25 |
| ReminderTime.ChristmasDayNumber | lib/hooks/useNotifications.test.ts:6 | 2024-12-25 is day 20082 of the epoch |
| ReminderTime.SameMonthDays | lib/hooks/useNotifications.test.ts:27-34 | days of one month are numbered consecutively |
| ReminderTime.ReminderReadsAs | lib/hooks/useNotifications.ts:174 | a reminder instant whose local time is that of `expected` prints as an ISO string that reads back with those local fields |
| ReminderTime.ShiftedReadsAs | lib/hooks/useNotifications.ts:173-174 | a due instant moved back into 1970 to about 5100 prints as an ISO string whose local fields are `expected` |
| ReminderTime.ChristmasLocal | lib/hooks/useNotifications.test.ts:5-8 | the test's picker values name a real local time on day 20082 |
| ReminderTime.ChristmasAnchor | lib/hooks/useNotifications.test.ts:5-8 | the test's picker values parse as that local time in any plausible zone |
| ReminderTime.ChristmasReminder | lib/hooks/useNotifications.test.ts:5-95 | a test reminder is a well-formed ISO string whose local time is the due local time moved back by the preset's minutes |
| ReminderTime.FifteenMinutesBefore | lib/hooks/useNotifications.test.ts:9-16 | 15 minutes before 14:00 on 2024-12-25 reads back as 13:45 that day, in any plausible zone |
| ReminderTime.OneHourBefore | lib/hooks/useNotifications.test.ts:18-25 | an hour before 14:00 reads back as 13:00 |
| ReminderTime.OneDayBefore | lib/hooks/useNotifications.test.ts:27-34 | a day before December 25 at 14:00 reads back as December 24 at 14:00 |
| ReminderTime.CustomThirtyBefore | lib/hooks/useNotifications.test.ts:36-43 | 30 custom minutes before 14:00 reads back as 13:30 |
| ReminderTime.CustomZeroAtDue | lib/hooks/useNotifications.test.ts:45-52 | 0 custom minutes reads back as 14:00 itself |
| ReminderTime.DefaultFifteenMinutesBefore | lib/hooks/useNotifications.test.ts:59-66 | with no due time, 15 minutes before the default 09:00 reads back as 08:45 |
| ReminderTime.DefaultOneDayBefore | lib/hooks/useNotifications.test.ts:68-75 | with no due time, a day before reads back as December 24 at 09:00 |
| ReminderTime.MidnightOneHourBefore | lib/hooks/useNotifications.test.ts:79-86 | an hour before midnight of December 25 reads back as December 24 at 23:00 |
| ReminderTime.OneWeekBefore | lib/hooks/useNotifications.test.ts:88-95 | a week of custom minutes before December 25 at 12:00 reads back as December 18 at 12:00 |
| JsDate.TimeClip | lib/hooks/useNotifications.ts:173 | a time value survives exactly when it lies within 8.64e15 ms of the epoch, and is then unchanged; outside that range `new Date(ms)` is NaN |
| JsDate.ParseDate | lib/hooks/useNotifications.ts:155 | whatever `new Date(s)` reads is a time value within the clipped range |
| JsDate.IsoStringShape | lib/hooks/useNotifications.test.ts:97-101 | for years 0 .. 9999 `toISOString` prints the 24-character shape `dddd-dd-ddTdd:dd:dd.dddZ` |
| JsDate.ParseIsoString | lib/hooks/useNotifications.ts:174 | `new Date` reads the string `toISOString` prints back as the same time value, in every time zone |
| JsDate.ToIsoStringReadsBack | lib/hooks/useNotifications.ts:174 | `toISOString` throws a RangeError exactly on NaN; otherwise its string parses back to the same time value in every time zone |
| JsDate.DateOnlyIsUtc | components/todos/TodoCard.tsx:53 | a date-only string such as a due date is read as UTC midnight of that date, the same in every time zone |
| JsDate.LocalTimeReadsBack | lib/hooks/useNotifications.ts:155 | a date-time string without an offset is read as local time: the local getters give back the fields it names, whatever the zone |
| CivilCalendar.DaysRoundTrip | lib/hooks/useNotifications.ts:174 | the date computed for any day number has that day number |
| CivilCalendar.CivilFromDaysValid | lib/hooks/useNotifications.ts:174 | the date computed for any day number is a valid Gregorian date |
| CivilCalendar.CivilRoundTrip | lib/hooks/useNotifications.ts:155 | every valid date is the date of its own day number |
| CivilCalendar.DaysFromCivilInjective | lib/hooks/useNotifications.ts:155 | different valid dates have different day numbers |
| CivilCalendar.DateTimeRoundTrip | lib/hooks/useNotifications.ts:155 | a valid date and time of day is read back from the time value made from it |
| CivilCalendar.TimeRoundTrip | lib/hooks/useNotifications.ts:174 | every time value splits into a valid date and time of day that join back to it |
| JsText.CodeUnits | lib/capacitor/notifications.ts:172-173 | `charCodeAt` gives at least one code unit per character, each in 0 .. 65535 |
| JsText.TrimEmptyIffBlank | components/todos/TodoForm.tsx:31 | `s.trim()` is empty exactly when `s` is white space only, which is when the forms refuse it |
| JsText.TrimShape | components/todos/TodoForm.tsx:41 | the trimmed string neither starts nor ends with white space, is no longer than `s` and occurs inside it |
| JsText.TrimIdempotent | components/todos/ChecklistForm.tsx:49 | trimming a trimmed string changes nothing |
| JsText.ToLower | components/todos/TodoList.tsx:43 | lower-casing keeps the length |
| JsText.ToLowerIdempotent | components/todos/TodoList.tsx:43-46 | lower-casing twice is lower-casing once |
| JsText.ToInt32 | lib/capacitor/notifications.ts:174-175 | the 32-bit conversion the bitwise operators apply lands in [-2^31, 2^31) and is congruent to its argument modulo 2^32 |
| JsText.ToInt32Congruent | lib/capacitor/notifications.ts:174-175 | arguments congruent modulo 2^32 convert to the same 32-bit integer |
| JsText.ToInt32Identity | lib/capacitor/notifications.ts:175 | `hash & hash` leaves a 32-bit integer unchanged |
| JsText.NatToString | components/todos/TodoCard.tsx:131 | a printed natural number is a non-empty run of digits |
| JsText.IntToString | components/todos/NotificationForm.tsx:145 | a printed integer is non-empty and starts with `-` exactly when it is negative |
| JsText.NatToStringValue | components/todos/TodoCard.tsx:131 | the digits printed for a natural number read back as that number |
| JsText.ParseIntOfDigits | components/todos/NotificationForm.tsx:139 | `parseInt` reads a run of digits, with or without a leading minus, as its value |
| JsText.ParseIntOfIntToString | components/todos/NotificationForm.tsx:138-139 | `parseInt` reads back every integer a template literal prints |
| NotificationForms.InitialFields | components/todos/NotificationForm.tsx:35-38 | the form starts at 15 minutes before, 30 custom minutes, in-app, and the edited reminder's message or the empty string |
| NotificationForms.CustomMinutesInput | components/todos/NotificationForm.tsx:139 | the custom minutes are the number `parseInt` reads, or 0 when it reads NaN |
| NotificationForms.TypedMinutesReadBack | components/todos/NotificationForm.tsx:138-139 | typing the numeral of a number sets exactly that number |
| NotificationForms.LabelShowsHoursAndMinutes | components/todos/NotificationForm.tsx:143-144 | 60 minutes or more read as whole hours and the remaining minutes (`1h 30m before` for 90) |
| NotificationForms.LabelShowsMinutes | components/todos/NotificationForm.tsx:143-145 | fewer than 60 minutes read as that number of minutes, negative ones with their sign |
| NotificationForms.Submit | components/todos/NotificationForm.tsx:46-90 | with no due date the submit only alerts; when `calculateNotifyAt` throws nothing is called and nothing changes; otherwise the fields either stay or are reset to an empty message and the 15-minute preset |
| NotificationForms.SaveCalls | components/todos/NotificationForm.tsx:59-77 | the calls before the save are native cancels only, and the last call is the save |
| NotificationForms.SubmitSavesOnce | components/todos/NotificationForm.tsx:55-77 | a submit that reaches the store saves once, with the computed instant, the chosen type, the todo and the trimmed message; an edit first cancels the old native notification and then updates by the reminder's id; a new reminder is added and nothing is cancelled |
| NotificationForms.ScheduleAfterSave | components/todos/NotificationForm.tsx:79-82 | a native schedule happens exactly when the store answered and the type is not push; it schedules the stored reminder under the todo's title, right after the save |
| NotificationForms.ResetOnlyOnSuccess | components/todos/NotificationForm.tsx:84-89 | the fields reset and `onSuccess` runs, as the last call, exactly when the store answered; a failure keeps every choice |
| NotificationForms.NotificationForm.constructor | components/todos/NotificationForm.tsx:35-38 | the new form holds the initial fields and has made no call |
| NotificationForms.NotificationForm.SelectPreset | components/todos/NotificationForm.tsx:116 | choosing a preset changes only the preset |
| NotificationForms.NotificationForm.EditCustomMinutes | components/todos/NotificationForm.tsx:139 | typing the minutes changes only the custom minutes, to what the input reads |
| NotificationForms.NotificationForm.SelectType | components/todos/NotificationForm.tsx:159 | choosing a type changes only the type |
| NotificationForms.NotificationForm.EditMessage | components/todos/NotificationForm.tsx:181 | typing the message changes only the message |
| NotificationForms.NotificationForm.HandleSubmit | components/todos/NotificationForm.tsx:46-90 | the new fields and the calls appended are those `Submit` gives for the instant computed from the props and the fields |
| NotificationForms.NotificationForm.SubmitAt | components/todos/NotificationForm.tsx:54-89 | past the due-date check, the new fields and the calls appended are those `Submit` gives for the given instant and store answer |
| Forms.TrimmedOrUndefinedBlank | components/todos/TodoForm.tsx:42 | `s.trim() \|\| undefined` is nothing exactly when `s` is blank; otherwise it is the trimmed text, non-empty, with white space at neither end and found inside `s` |
| Forms.TrimmedOrUndefinedKeepsTrimmed | components/todos/MetadataForm.tsx:61 | text that is already trimmed and non-empty is sent unchanged |
| Metadata.TypeNameRoundTrip | lib/hooks/useMetadata.ts:4 | the four type names and the four types correspond one to one |
| TodoForms.InitialFields | components/todos/TodoForm.tsx:16-19 | the inputs start from the edited todo's title, description, due date and due time, a missing one as the empty string; a new todo starts with all four empty |
| TodoForms.TitleIsRequired | components/todos/TodoForm.tsx:29-34 | nothing is sent exactly when the title is blank, and the form then shows "Title is required" and keeps the inputs; any other title sends exactly one request |
| TodoForms.RequestIsCleaned | components/todos/TodoForm.tsx:37-54 | the request carries the trimmed, non-empty title, the trimmed description or none when it is blank, and the date and time as typed or none when empty; it updates the edited todo by its id, or creates a todo |
| TodoForms.ResetOnlyOnSuccess | components/todos/TodoForm.tsx:56-65 | the inputs are cleared and `onSuccess` runs last exactly when the store accepts; a rejection keeps the inputs and shows the error's message, or "Failed to save todo" when the thrown value is not an `Error` |
| TodoForms.UnchangedEditSendsSameValues | components/todos/TodoForm.tsx:16-19 | submitting, unchanged, a todo with trimmed title and description and no empty date or time sends back exactly its own values |
| TodoForms.TodoForm.constructor | components/todos/TodoForm.tsx:15-20 | the new form holds the initial inputs and no error, and has sent nothing |
| TodoForms.TodoForm.Edit | components/todos/TodoForm.tsx:16-19 | typing changes only the inputs |
| TodoForms.TodoForm.HandleSubmit | components/todos/TodoForm.tsx:27-66 | the new inputs, the error and the calls appended are those `Submit` gives for the old state |
| ChecklistForms.TextRequired | components/todos/ChecklistForm.tsx:40 | the text-required message is never empty; the English one replaces an empty translation |
| ChecklistForms.SaveFailed | components/todos/ChecklistForm.tsx:62 | the save-failed fallback is never empty |
| ChecklistForms.InitialText | components/todos/ChecklistForm.tsx:21 | the text starts as the edited item's text, or empty |
| ChecklistForms.TextIsRequired | components/todos/ChecklistForm.tsx:37-56 | nothing is sent exactly when the text is blank, which shows the text-required message; otherwise one request goes out with the trimmed, non-empty text for the todo, updating the edited item by its id or adding an item |
| ChecklistForms.ResetOnlyOnSuccess | components/todos/ChecklistForm.tsx:58-63 | the text is cleared and `onSuccess` runs last exactly when the store accepts; a rejection keeps the text and shows the error's message or the save-failed message |
| ChecklistForms.UnchangedEditSendsSameText | components/todos/ChecklistForm.tsx:45-50 | submitting an item's trimmed text unchanged updates it with that same text |
| ChecklistForms.ChecklistForm.constructor | components/todos/ChecklistForm.tsx:19-22 | the new form holds the initial text and no error, and has sent nothing |
| ChecklistForms.ChecklistForm.EditingChanged | components/todos/ChecklistForm.tsx:29-33 | a new item to edit replaces the text with its own; clearing the prop keeps the text |
| ChecklistForms.ChecklistForm.EditText | components/todos/ChecklistForm.tsx:21 | typing changes only the text |
| ChecklistForms.ChecklistForm.HandleSubmit | components/todos/ChecklistForm.tsx:35-64 | the new text, the error and the calls appended are those `Submit` gives for the old state |
| MetadataForms.FieldsOf | components/todos/MetadataForm.tsx:18-20 | the inputs start from the edited entry's type, label (empty when null) and value, or as an empty phone entry |
| MetadataForms.ChecksInOrder | components/todos/MetadataForm.tsx:40-54 | a value passes exactly when it is not blank, a phone value is made of digits, white space, `-`, `(`, `)` and `+` only, and a link contains a dot; the first check failed gives the one message shown; addresses and notes are only required |
| MetadataForms.PhoneExamples | components/todos/MetadataForm.tsx:46 | the phone placeholder "+1 (555) 123-4567" passes the phone check and "555-CALL" does not |
| MetadataForms.SubmitSendsChecked | components/todos/MetadataForm.tsx:38-71 | nothing is sent exactly when a check fails, which shows its message and keeps the inputs; otherwise the request carries the trimmed, non-empty value and the trimmed label or none when blank, updates the edited entry by its id or adds an entry of the chosen type |
| MetadataForms.UpdateIgnoresType | components/todos/MetadataForm.tsx:57-63 | an update sends no type, so it is the same whatever the type input holds |
| MetadataForms.ResetOnlyOnSuccess | components/todos/MetadataForm.tsx:73-81 | the form resets to an empty phone entry and `onSuccess` runs last exactly when the store accepts; a rejection keeps the inputs |
| MetadataForms.MetadataForm.constructor | components/todos/MetadataForm.tsx:16-21 | the new form holds the initial inputs and no error, and has sent nothing |
| MetadataForms.MetadataForm.EditingChanged | components/todos/MetadataForm.tsx:28-34 | a new entry to edit fills the inputs from it; clearing the prop keeps them |
| MetadataForms.MetadataForm.SelectType | components/todos/MetadataForm.tsx:119-125 | a type button, shown only while adding, changes only the type |
| MetadataForms.MetadataForm.EditLabel | components/todos/MetadataForm.tsx:19 | typing the label changes only the label |
| MetadataForms.MetadataForm.EditValue | components/todos/MetadataForm.tsx:20 | typing the value changes only the value |
| MetadataForms.MetadataForm.HandleSubmit | components/todos/MetadataForm.tsx:36-82 | the new inputs, the error and the calls appended are those `Submit` gives for the old state |
| RegisterForms.PasswordRules | components/auth/RegisterForm.tsx:25-33 | the passwords pass exactly when the two entries agree and the password is at least 8 long; a mismatch is reported before a short password |
| RegisterForms.FourEmojiAreLongEnough | components/auth/RegisterForm.tsx:30 | the length counts UTF-16 code units: four emoji outside the Basic Multilingual Plane have length 8 and pass |
| RegisterForms.SubmitChecksFirst | components/auth/RegisterForm.tsx:19-37 | a submit clears the success flag and the old error; `signUp` is called once, with the typed email, password and name, exactly when the passwords pass, and only then does the form start loading; a failed check shows its message |
| RegisterForms.AnswerEndsLoading | components/auth/RegisterForm.tsx:37-45 | once `signUp` answers the form stops loading; an error shows its message, and no error switches to the success screen with no error line |
| RegisterForms.RegisterForm.constructor | components/auth/RegisterForm.tsx:11-17 | the form starts with empty inputs, no error, no success, not loading and no call made |
| RegisterForms.RegisterForm.Edit | components/auth/RegisterForm.tsx:11-14 | typing changes only the inputs |
| RegisterForms.RegisterForm.HandleSubmit | components/auth/RegisterForm.tsx:19-37 | the new state is the one `Submit` gives for the old state |
| RegisterForms.RegisterForm.SignUpAnswered | components/auth/RegisterForm.tsx:39-45 | the new state is the one `Answered` gives for the old state and the answer |
| Uri.Utf8 | components/todos/MetadataDisplay.tsx:30 | each character is encoded as 1 to 4 UTF-8 bytes, with the lead-byte pattern for its range and continuation bytes after it |
| Uri.Utf8RoundTrip | components/todos/MetadataDisplay.tsx:30 | the UTF-8 bytes of a character decode back to its code point |
| Uri.Hex | components/todos/MetadataDisplay.tsx:30 | an escape digit is an uppercase hexadecimal digit, itself an unreserved character |
| Uri.HexRoundTrip | components/todos/MetadataDisplay.tsx:30 | reading an escape digit gives back its value |
| Uri.EscapeAll | components/todos/MetadataDisplay.tsx:30 | escaped bytes are made of `%` and hexadecimal digits only |
| Uri.EncodeChar | components/todos/MetadataDisplay.tsx:30 | an encoded character is made of unreserved characters and `%` only |
| Uri.EncodeURIComponent | components/todos/MetadataDisplay.tsx:30 | `encodeURIComponent` leaves only unreserved characters (`A-Z a-z 0-9 - _ . ! ~ * ' ( )`) and `%` |
| Uri.DecodeEscape | components/todos/MetadataDisplay.tsx:30 | percent-decoding one `%XX` escape gives its byte and goes on with the rest |
| Uri.DecodeEscapes | components/todos/MetadataDisplay.tsx:30 | percent-decoding a run of escapes gives the escaped bytes and goes on with the rest |
| Uri.DecodeEncodedChar | components/todos/MetadataDisplay.tsx:30 | percent-decoding an encoded character gives its UTF-8 bytes |
| Uri.DecodeEncode | components/todos/MetadataDisplay.tsx:30 | percent-decoding `encodeURIComponent(s)` gives the UTF-8 bytes of `s` |
| Uri.EncodedHasNoDelimiters | components/todos/MetadataDisplay.tsx:30 | `encodeURIComponent` never leaves `&`, `=`, `#`, `?` or a space |
| Uri.UnreservedUnchanged | components/todos/MetadataDisplay.tsx:30 | a string of unreserved characters is encoded as itself |
| MetadataDisplays.TelUrl | components/todos/MetadataDisplay.tsx:22-24 | a phone entry dials `tel:` followed by the value as it is |
| MetadataDisplays.LinkUrl | components/todos/MetadataDisplay.tsx:25-28 | a link opens an address that starts with `http` and ends with the value |
| MetadataDisplays.LinkUrlIdempotent | components/todos/MetadataDisplay.tsx:26 | a value that starts with `http` is opened unchanged, and only such a value; so an address is never prefixed twice |
| MetadataDisplays.MapsUrl | components/todos/MetadataDisplay.tsx:29-31 | an address opens the map search, whose query holds only unreserved characters and `%` |
| MetadataDisplays.MapsQueryIsTheAddress | components/todos/MetadataDisplay.tsx:30 | the query is `encodeURIComponent` of the address, contains no `&`, `#` or space that could end it, and percent-decodes to the address's UTF-8 bytes |
| MetadataDisplays.QuickActionOf | components/todos/MetadataDisplay.tsx:20-34 | every type but a note has a quick action |
| MetadataDisplays.QuickActionTargets | components/todos/MetadataDisplay.tsx:20-34 | a phone number is dialled in the page with `tel:`; a link and an address open in a new tab, at an `http` address and at the map search |
| MetadataDisplays.IconsAndLabels | components/todos/MetadataDisplay.tsx:49-75 | the four types get four different icons, none of them the fallback; a type gets a non-empty button label exactly when it is not a note |
| MetadataDisplays.List | components/todos/MetadataDisplay.tsx:77-91 | loading shows the loading line; otherwise no entries show the empty line; otherwise there is one row per entry, in the store's order |
| MetadataDisplays.RowControls | components/todos/MetadataDisplay.tsx:99-131 | a quick button, with a non-empty label, on every entry but a note; edit exactly for the owner with a handler; delete exactly for the owner, disabled exactly on the entry being deleted and showing `...` there and the delete text elsewhere; the label line exactly for a set, non-empty label |
| MetadataDisplays.DeleteNeedsConfirmation | components/todos/MetadataDisplay.tsx:36-41 | every delete first asks; the delete is sent, for the entry asked about, which is then marked, exactly when the user agrees; a refusal changes nothing else |
| MetadataDisplays.FinishUnmarks | components/todos/MetadataDisplay.tsx:42-46 | however the delete settles no entry stays marked; an alert with the fixed message is shown exactly when it is refused |
| MetadataDisplays.MetadataDisplay.constructor | components/todos/MetadataDisplay.tsx:18 | no entry is marked and nothing has been asked |
| MetadataDisplays.MetadataDisplay.HandleDelete | components/todos/MetadataDisplay.tsx:36-41 | the new state is the one `BeginDelete` gives |
| MetadataDisplays.MetadataDisplay.DeleteSettled | components/todos/MetadataDisplay.tsx:42-46 | the new state is the one `FinishDelete` gives |
| ParticipantSelectors.ToggleRole | components/todos/ParticipantSelector.tsx:43 | the switch always gives the other role |
| ParticipantSelectors.ToggleRoleInvolution | components/todos/ParticipantSelector.tsx:42-45 | switching twice gives the role back |
| ParticipantSelectors.ParticipantIds | components/todos/ParticipantSelector.tsx:48 | one id per participant, in order, each that participant's user id |
| ParticipantSelectors.AvailableUsers | components/todos/ParticipantSelector.tsx:49 | the users offered are search results whose id is not among the participants' |
| ParticipantSelectors.AvailableUsersAreTheOthers | components/todos/ParticipantSelector.tsx:47-49 | the users offered are exactly the search results who are not participants, in the search's order |
| ParticipantSelectors.AvailableKeepsOrder | components/todos/ParticipantSelector.tsx:49 | the filter keeps the search results' order |
| ParticipantSelectors.AvailableHasEveryOther | components/todos/ParticipantSelector.tsx:49 | a search result is offered exactly when its id is not a participant's |
| ParticipantSelectors.Panel | components/todos/ParticipantSelector.tsx:51-170 | the header counts the participants and there is one row each; only the owner gets the add button; the search shows exactly when it is open and the viewer is the owner |
| ParticipantSelectors.PanelRules | components/todos/ParticipantSelector.tsx:104-167 | a row has the role switch and the remove button exactly when the viewer is the owner and the row is not the signed-in user's; the switch names the role it gives; every name is non-empty and is the participant's own when set; "(You)" and "Can edit" mark exactly the user's row and the owner participants; the search offers the available users; "No users found" shows exactly when the search is open, the query is at least 2 long and nobody is left; the not-shared line shows exactly when there are no participants |
| ParticipantSelectors.AddedAsViewer | components/todos/ParticipantSelector.tsx:30-34 | a person is always added as a viewer; the search is cleared and closed exactly when the store accepts |
| ParticipantSelectors.RemoveNeedsConfirmation | components/todos/ParticipantSelector.tsx:36-40 | nobody is removed unless the user agrees, and agreeing removes the person asked about |
| ParticipantSelectors.SwitchTwiceRestores | components/todos/ParticipantSelector.tsx:42-45 | pressing the switch twice on a row sends the other role and then the original one |
| ParticipantSelectors.ParticipantSelector.constructor | components/todos/ParticipantSelector.tsx:21-22 | the query is empty, the search closed and nothing has been sent |
| ParticipantSelectors.ParticipantSelector.ToggleSearch | components/todos/ParticipantSelector.tsx:61 | the button only flips whether the search is open |
| ParticipantSelectors.ParticipantSelector.EditQuery | components/todos/ParticipantSelector.tsx:75 | typing changes only the query |
| ParticipantSelectors.ParticipantSelector.HandleAddParticipant | components/todos/ParticipantSelector.tsx:30-34 | the new state is the one `Add` gives |
| ParticipantSelectors.ParticipantSelector.HandleRemoveParticipant | components/todos/ParticipantSelector.tsx:36-40 | the new state is the one `Remove` gives |
| ParticipantSelectors.ParticipantSelector.HandleToggleRole | components/todos/ParticipantSelector.tsx:42-45 | the new state is the one `SwitchRole` gives |
| LanguageProviders.Tag | lib/providers/language-provider.tsx:19-22 | each language's tag is read back as that language |
| LanguageProviders.TagsAreTheLanguages | lib/providers/language-provider.tsx:21 | only "en-US" and "pt-BR" name a language, and each names its own |
| LanguageProviders.DetectRules | lib/providers/language-provider.tsx:15-34 | without a window the language is English; a stored known tag wins over the browser, and any other stored value is ignored; otherwise Brazilian Portuguese exactly when the browser language starts with `pt` |
| LanguageProviders.DetectExamples | lib/providers/language-provider.tsx:25-33 | "pt-PT" gives Brazilian Portuguese and "en-GB" English; a stored "pt-BR" overrides "en-GB"; a stored "fr-FR" is ignored |
| LanguageProviders.PersistRoundTrip | lib/providers/language-provider.tsx:47-50 | a saved choice is what the next detection finds, whatever the browser's language |
| LanguageProviders.UseLanguage | lib/providers/language-provider.tsx:70-81 | inside the provider a component gets its context; outside it, English with a `setLanguage` that does nothing |
| LanguageProviders.LanguageProvider.Context | lib/providers/language-provider.tsx:52-61 | the provider gives a context exactly once mounted, with its language and that language's table |
| LanguageProviders.LanguageProvider.constructor | lib/providers/language-provider.tsx:37-38 | the provider starts in English and not mounted |
| LanguageProviders.LanguageProvider.Mount | lib/providers/language-provider.tsx:40-45 | mounting takes the detected language and marks the provider mounted; a detection that throws leaves it as it was |
| LanguageProviders.LanguageProvider.SetLanguage | lib/providers/language-provider.tsx:47-50 | choosing a language shows it and saves its tag |
| LanguageProviders.EnglishUntilMounted | lib/providers/language-provider.tsx:59-61 | before mounting, components read English whatever is stored |
| LanguageProviders.ChoiceSurvivesReload | lib/providers/language-provider.tsx:40-50 | a language chosen in one visit is the language the next visit's provider mounts with |
| TodoCards.StartOfTodayIsLocalMidnight | components/todos/TodoCard.tsx:54 | `new Date().setHours(0, 0, 0, 0)` is local midnight of the current local date: it reads as 00:00 of that date and lies at most a day before now |
| TodoCards.DateInputFields | components/todos/TodoCard.tsx:53 | a date-picker value `YYYY-MM-DD` is read as that calendar date and nothing else |
| TodoCards.DateInputDay | components/todos/TodoCard.tsx:53 | a date-picker value is read as UTC midnight of its date in every time zone |
| TodoCards.OverdueLocalMeansEarlierDate | components/todos/TodoCard.tsx:51-54 | with the intended reading a todo is overdue exactly when it is open and its due date is before today's local date |
| TodoCards.OverdueAsWritten | components/todos/TodoCard.tsx:51-54 | as written, `isOverdue` agrees with the intended reading at or east of UTC, and west of UTC it also counts a todo due today |
| TodoCards.DueTodayOverdueWestOfUtc | components/todos/TodoCard.tsx:51-54 | west of UTC an open todo due today is overdue as written and not as intended |
| TodoCards.ChristmasNoonInNewYork | components/todos/TodoCard.tsx:51-54 | an open todo due 2024-12-25, viewed at noon that day five hours west of UTC, is overdue as written and not as intended |
| TodoCards.ShareLine | components/todos/TodoCard.tsx:127-134 | the sharing line shows exactly when more than one person is on the todo |
| TodoCards.ShareLineCountsOthers | components/todos/TodoCard.tsx:131 | after "Shared with ", the number read is the count of participants less one, and the noun is "person" exactly for two participants and "people" otherwise |
| TodoCards.ControlsFollowOwnership | components/todos/TodoCard.tsx:138-232 | edit shows exactly for the owner of an open todo; the delete area exactly for the owner, as the confirmation exactly while it is open; the swipe actions exactly for the owner on a device, the left one "Complete" exactly for an open todo and the right one "Delete" |
| TodoCards.BadgeOnlyOnDueLine | components/todos/TodoCard.tsx:58-122 | the overdue badge appears only on the due line of an open todo and exactly with the red border; the border is gray exactly for a completed todo |
| TodoCards.Press | components/todos/TodoCard.tsx:25-49 | a control starts at most one effect and keeps the earlier ones; a delete is started exactly by "Yes, delete"; the confirmation is open after the delete button or a right swipe, and stays open through anything but its two buttons |
| TodoCards.PressAll | components/todos/TodoCard.tsx:25-49 | a sequence of presses keeps the earlier effects and starts at most one per press |
| TodoCards.NoDeleteWithoutAsking | components/todos/TodoCard.tsx:157-199 | without the delete button or a right swipe, no sequence of presses of the controls on screen opens the confirmation or deletes the todo |
| TodoCards.OthersOnlyToggle | components/todos/TodoCard.tsx:138-204 | someone who does not own the todo can only toggle it: every effect their presses start is that toggle |
| TodoCards.SwipeControl | components/todos/TodoCard.tsx:206-227 | a finished swipe presses one of the two swipe actions |
| TodoCards.SwipesNeverDelete | components/todos/TodoCard.tsx:41-49 | a left swipe toggles the todo and a right swipe only opens the confirmation; no swipe deletes |
| TodoCards.TodoCard.constructor | components/todos/TodoCard.tsx:18 | the card starts with the confirmation closed and no effect |
| TodoCards.TodoCard.HandleToggle | components/todos/TodoCard.tsx:25-28 | the checkbox acts as `Press` says |
| TodoCards.TodoCard.HandleDelete | components/todos/TodoCard.tsx:30-34 | "Yes, delete" acts as `Press` says |
| TodoCards.TodoCard.HandleEdit | components/todos/TodoCard.tsx:36-39 | the edit button acts as `Press` says |
| TodoCards.TodoCard.HandleSwipeComplete | components/todos/TodoCard.tsx:41-44 | the left swipe acts as `Press` says |
| TodoCards.TodoCard.HandleSwipeDelete | components/todos/TodoCard.tsx:46-49 | the right swipe acts as `Press` says |
| TodoCards.TodoCard.AskToDelete | components/todos/TodoCard.tsx:187-190 | the delete button acts as `Press` says |
| TodoCards.TodoCard.CancelDeleting | components/todos/TodoCard.tsx:176 | "Cancel" acts as `Press` says |
| TodoList.FilterTodos | components/todos/TodoList.tsx:40-56 | the filtered list is no longer than the list, and every todo in it is from the list and passes the search and the status filter |
| TodoList.FilteredTodos | components/todos/TodoList.tsx:40 | the filtered list is undefined exactly while the todos are, and is otherwise the filtered todos |
| TodoList.FilterExactly | components/todos/TodoList.tsx:40-56 | the filtered list holds exactly the todos that pass the search and the status filter, in the list's order |
| TodoList.NoFilterKeepsAll | components/todos/TodoList.tsx:42-55 | with no query and the `all` filter the list is shown as it is |
| TodoList.SearchIgnoresCase | components/todos/TodoList.tsx:43-46 | a query and its lower-cased form find the same todos, and a todo is found by its own title |
| TodoList.StatsOf | components/todos/TodoList.tsx:58-63 | each count is the length of the list under that button's filter with no query, and 0 while the list is undefined |
| TodoList.ActivePlusCompleted | components/todos/TodoList.tsx:60-61 | every todo is counted as active or as completed, never both |
| TodoList.StatsBalance | components/todos/TodoList.tsx:58-63 | the active and completed counts add up to the total, and the user's own todos are at most the total |
| TodoList.EmptyStateOf | components/todos/TodoList.tsx:171-195 | the empty state replaces the list exactly when the filtered list is undefined or empty |
| TodoList.EmptyStateMessages | components/todos/TodoList.tsx:180-193 | with a query the empty state reports that no todo matches; without one the heading names completed todos exactly under the completed filter |
| TodoList.EmptyOnlyWithoutTodos | components/todos/TodoList.tsx:171-195 | with no query and the `all` filter the empty state shows exactly when there are no todos |
| Swipeable.Offset | components/ui/SwipeableCard.tsx:70-85 | toward a side without an action the card moves a fifth of the drag, at most 20; toward a side with one it follows the drag up to the threshold, then the threshold plus three tenths of the excess, capped at the threshold plus 20; the offset keeps the drag's sign |
| Swipeable.OffsetReachesThreshold | components/ui/SwipeableCard.tsx:80-85 | toward a side with an action the offset reaches the threshold exactly when the drag does |
| Swipeable.OffsetMonotone | components/ui/SwipeableCard.tsx:70-85 | a longer drag never gives a smaller offset |
| Swipeable.DecideAxis | components/ui/SwipeableCard.tsx:56-61 | the axis is decided at the first sample that moves more than 10 either way, horizontal exactly when the horizontal movement is larger, and kept once decided |
| Swipeable.Start | components/ui/SwipeableCard.tsx:39-46 | unless disabled, a touch records the start point, forgets the axis, re-arms the haptic and starts dragging, leaving the offset |
| Swipeable.Move | components/ui/SwipeableCard.tsx:48-97 | a move does nothing when disabled or not dragging; off the horizontal axis it leaves the offset and the haptic; on it the offset follows the curve; the haptic ticks exactly when it becomes armed, and only at or past the threshold toward an action; it is re-armed only below the threshold |
| Swipeable.End | components/ui/SwipeableCard.tsx:99-116 | lifting the finger while dragging stops the drag, puts the card back and forgets the axis; an action fires exactly when the offset reached the threshold and points at an existing action, and it is that one |
| Swipeable.LeftProgress | components/ui/SwipeableCard.tsx:119 | the left action's reveal is between 0 and 1, 0 without a left action, full exactly from the threshold on, none exactly for offsets at or below 0, and proportional in between |
| Swipeable.RightProgress | components/ui/SwipeableCard.tsx:120 | the same for the right action and negative offsets |
| Swipeable.MovesKeepDrag | components/ui/SwipeableCard.tsx:48-97 | moves neither start nor stop a drag nor move the start point, and do nothing at all when disabled or not dragging |
| Swipeable.AxisDecidedOnce | components/ui/SwipeableCard.tsx:56-61 | during a drag the axis after any run of moves is the one the first significant sample decides |
| Swipeable.NoOffsetOffAxis | components/ui/SwipeableCard.tsx:63-64 | while the gesture is not horizontal the card does not move |
| Swipeable.AxisKept | components/ui/SwipeableCard.tsx:57 | a decided axis is never changed by later moves |
| Swipeable.HapticBalance | components/ui/SwipeableCard.tsx:89-96 | over any run of moves each tick after the first needs a re-arming below the threshold: ticks plus a clear flag at the end equal a clear flag at the start plus re-armings |
| Swipeable.HapticAtMostOnce | components/ui/SwipeableCard.tsx:89-96 | a gesture that never falls back below the threshold ticks at most once |
| Swipeable.GestureEnds | components/ui/SwipeableCard.tsx:39-116 | after a whole gesture the card is back in place, not dragging, axis forgotten; an action fired exactly when the last offset reached the threshold toward an action; a second lift fires nothing |
| Swipeable.SwipeableCard.constructor | components/ui/SwipeableCard.tsx:28-37 | the card starts at rest with the given props |
| Swipeable.SwipeableCard.TouchStart | components/ui/SwipeableCard.tsx:39-46 | the new state is the one `Start` gives |
| Swipeable.SwipeableCard.TouchMove | components/ui/SwipeableCard.tsx:48-97 | the new state and the haptic are those `Move` gives |
| Swipeable.SwipeableCard.Haptic | components/ui/SwipeableCard.tsx:89-96 | once the offset is set, the haptic flag and the tick are those of the edge rule `Move` applies: fire on reaching the threshold on a side with an action, re-arm below it |
| Swipeable.SwipeableCard.TouchEnd | components/ui/SwipeableCard.tsx:99-116 | the new state and the action fired are those `End` gives |
| PullRefresh.Start | components/ui/PullToRefresh.tsx:29-36 | a pull begins only when the container is mounted and scrolled to the very top, recording the start and re-arming the haptic; otherwise nothing changes |
| PullRefresh.Move | components/ui/PullToRefresh.tsx:38-58 | a move does nothing unless pulling, not refreshing and below the start; then the distance is half the pull, at most the maximum; the haptic ticks exactly when it becomes armed, only at or past the threshold, and is re-armed only below it |
| PullRefresh.End | components/ui/PullToRefresh.tsx:60-78 | lifting the finger stops the pull; a refresh begins exactly when the pull reached the threshold and none is running, and keeps its distance; any other pull springs back to 0 |
| PullRefresh.Finish | components/ui/PullToRefresh.tsx:71-74 | whether `onRefresh` succeeds or fails, the refresh is over and the indicator is back at 0 |
| PullRefresh.Progress | components/ui/PullToRefresh.tsx:80 | the indicator's progress is at most 1, full exactly from the threshold on, proportional below it |
| PullRefresh.StepsKeepRange | components/ui/PullToRefresh.tsx:21-78 | every step keeps the distance between 0 and the maximum |
| PullRefresh.HapticBalance | components/ui/PullToRefresh.tsx:50-56 | over any run of moves each tick after the first needs a re-arming below the threshold |
| PullRefresh.MovesKeepPhase | components/ui/PullToRefresh.tsx:38-58 | moves never start or stop a pull or a refresh, and do nothing when not pulling or refreshing |
| PullRefresh.NoRefreshWhileRefreshing | components/ui/PullToRefresh.tsx:39-65 | while a refresh runs a second pull neither moves the indicator nor begins another refresh |
| PullRefresh.RefreshCycle | components/ui/PullToRefresh.tsx:60-78 | a pull from the top begins a refresh exactly when its last distance reached the threshold, and after the finish the component is idle at 0 |
| PullRefresh.PullToRefresh.constructor | components/ui/PullToRefresh.tsx:18-27 | the component starts idle at 0 with the given props |
| PullRefresh.PullToRefresh.TouchStart | components/ui/PullToRefresh.tsx:29-36 | the new state is the one `Start` gives |
| PullRefresh.PullToRefresh.TouchMove | components/ui/PullToRefresh.tsx:38-58 | the new state and the haptic are those `Move` gives |
| PullRefresh.PullToRefresh.TouchEnd | components/ui/PullToRefresh.tsx:60-68 | the new state and whether a refresh began are those `End` gives |
| PullRefresh.PullToRefresh.FinishRefresh | components/ui/PullToRefresh.tsx:71-74 | the new state is the one `Finish` gives |
| NotificationSync.BodyOf | lib/hooks/useNotificationSync.ts:56 | the body is never empty: the reminder's message when it is set and non-empty, the default text otherwise |
| NotificationSync.SyncRequest | lib/hooks/useNotificationSync.ts:53-59 | the request has the reminder's hashed id, its todo, "⏰ Reminder: " and the todo's title, and the reminder's body |
| NotificationSync.ScheduleNative | lib/hooks/useNotificationSync.ts:23-62 | nothing happens when notifications are unsupported or the reminder is push-only; the call succeeds exactly when supported, the reminder is not sent and not in the past, the device answers and permission is held or granted on request; exactly then the notification is pending under the hashed id; permission is never revoked and is gained only when the device grants it |
| NotificationSync.CancelNative | lib/hooks/useNotificationSync.ts:67-76 | nothing happens when unsupported; otherwise the device cancels the hashed id |
| NotificationSync.SyncSchedulesEligible | lib/hooks/useNotificationSync.ts:81-92 | syncing adds notifications only under the ids of eligible reminders, removes none and never revokes permission; on a device that answers and is or will be granted permission it adds one for every eligible reminder |
| NotificationSync.SyncUnsupported | lib/hooks/useNotificationSync.ts:83 | on an unsupported platform syncing changes nothing |
| NotificationSync.CancelUndoesSchedule | lib/hooks/useNotificationSync.ts:53-73 | cancelling a reminder by its id removes what scheduling it added, since both hash the same id |
| NotificationSync.ContextFlags | lib/hooks/useNotificationSync.ts:17-18 | the context provides none of the three names the hook reads, so the hook sees notifications as neither supported nor permitted |
| NotificationSync.PluginFlags | lib/hooks/useNotificationSync.ts:17-18 | the intended flags say whether the plugin is there and whether permission is held |
| NotificationSync.ContextHookNeverSchedules | lib/hooks/useNotificationSync.ts:17-92 | as written the hook schedules, cancels and syncs nothing on any device; with the intended flags an eligible reminder on a device that answers and has permission is scheduled |
| NotificationSync.ScheduleNativeNotification | lib/hooks/useNotificationSync.ts:23-62 | the result and the device's new state are those `ScheduleNative` gives |
| NotificationSync.CancelNativeNotification | lib/hooks/useNotificationSync.ts:67-76 | the result and the device's new state are those `CancelNative` gives |
| NotificationSync.SyncNotifications | lib/hooks/useNotificationSync.ts:81-92 | the device's new state is the one `Sync` gives, visiting the reminders in order |
| NativeNotifications.Mounted | lib/hooks/useNativeNotifications.ts:24-40 | after `init` the support flag is the platform's; on a supported platform the permission flag is the current permission, elsewhere it is unchanged |
| NativeNotifications.ReminderRequest | lib/hooks/useNativeNotifications.ts:76-82 | the request has the reminder's hashed id, its todo, "Reminder: " and the todo's title, the reminder's body and its parsed instant |
| NativeNotifications.FromReminder | lib/hooks/useNativeNotifications.ts:62-85 | nothing happens unless the hook has seen support and permission and the reminder is not in the past; the call succeeds exactly when, in addition, the device answers and holds or grants permission, and exactly then the notification is pending under the hashed id |
| NativeNotifications.CancelReminderOutcome | lib/hooks/useNativeNotifications.ts:88-95 | nothing happens when unsupported; otherwise the device cancels the hashed id |
| NativeNotifications.TapRoute | lib/hooks/useNativeNotifications.ts:43-52 | a tap opens `/todos?highlight=` and the tapped todo's id, exactly when the tap names a todo |
| NativeNotifications.TapOpensReminderTodo | lib/hooks/useNativeNotifications.ts:46-49 | tapping a notification scheduled for a reminder opens that reminder's todo |
| NativeNotifications.ScheduleAfterInit | lib/hooks/useNativeNotifications.ts:24-85 | after the first `init`, scheduling a future reminder succeeds exactly when the device answers and already holds the permission; the hook never changes the permission itself |
| NativeNotifications.FromReminderIgnoresSent | lib/hooks/useNativeNotifications.ts:62-85 | with support and permission, a future reminder that is sent or push-only is scheduled by this hook and skipped by the sync hook |
| NativeNotifications.CancelUndoesFromReminder | lib/hooks/useNativeNotifications.ts:76-92 | cancelling a reminder removes the notification scheduling it added |
| NativeNotifications.NativeHook.constructor | lib/hooks/useNativeNotifications.ts:20-21 | the hook starts unsupported and without permission |
| NativeNotifications.NativeHook.Init | lib/hooks/useNativeNotifications.ts:24-40 | the new flags are those `Mounted` gives |
| NativeNotifications.NativeHook.RequestPermissions | lib/hooks/useNativeNotifications.ts:55-59 | the device answers as `RequestOutcome` says and the hook remembers the answer |
| NativeNotifications.NativeHook.ScheduleFromReminder | lib/hooks/useNativeNotifications.ts:62-85 | the result and the device's new state are those `FromReminder` gives |
| NativeNotifications.NativeHook.CancelReminder | lib/hooks/useNativeNotifications.ts:88-95 | the result and the device's new state are those `CancelReminderOutcome` gives |

## Left out

- Time zones: the host's zone is a fixed offset. Daylight-saving transitions and zone rules are not modelled.
- Date strings outside the Date Time String Format are not modelled. The implementation-specific fallback parsing of `new Date` returns NaN in the model.
- Floating point: distances, resistances and progress ratios are exact reals, and IEEE rounding is not modelled. Reminder times are whole milliseconds.
- `parseInt` is modelled for decimal digits after optional whitespace and sign. The `0x` prefix and other radixes are not modelled because the form passes base-10 input.
- `toLowerCase` lowers ASCII letters only. Unicode case mapping is not modelled.
- `getReminderDescription`, `formatDate`, `formatTime` and the other `Intl` formatting are left out: they produce locale text only.
- The translation table (lib/i18n/translations.ts) is left out. The forms' messages are the English fallbacks the code writes beside each key. The input placeholders (`getPlaceholder`, `getLabelPlaceholder`) are also left out.
- The store-backed hooks are absent, since filtering, ordering and authorisation happen in the hosted store:
  - lib/hooks/useTodos.ts;
  - useParticipants.ts;
  - useChecklist.ts;
  - useMetadata.ts;
  - the CRUD parts of useNotifications.ts.
  
  The data they return is a parameter. How each mutation settles is a parameter too.
- lib/providers/capacitor-provider.tsx is not part of this model beyond the three values its context lacks (see "## Findings").
- Haptics, the status bar, the splash screen and the keyboard are foreign plugin calls and are left out. Where a handler fires a haptic, the model records only that it fired.
- `registerNotificationActions` is left out: it registers the action types with the plugin and decides nothing.
- The notification plugin is a map from id to pending notification, and it replaces a notification scheduled again under the same id. Exceptions from the plugin are folded into a `broken` flag, so that a call answers with failure. The permission prompt's answer is a parameter.
- React rendering, styling, transitions, the `useCallback` dependency lists and stale closures are left out. Each handler sees the state of the latest render.
- Two awaits in flight at once are not modelled. Each asynchronous handler is one step, or a begin step and a finish step that run in order. Two rows of the metadata list deleted at once share one `deletingId`, and that case is not modelled.
- `console.log` and `console.error` output is left out.
- The loading and disabled flags of the buttons are left out. The sign-up form's `isLoading` is the exception.
- The avatar initials on the sharing panel are left out.
- The text of the sign-up success screen is left out.
- `onSuccess` callbacks are recorded as called, and an exception thrown from one is not modelled.
- `localStorage` throwing (private browsing, quota) is not modelled.
- Language detection without `navigator.language` or `userLanguage` throws a TypeError in the code. The model returns `Failure(NoBrowserLanguage)` and the provider stays unmounted.
- Swipeable.LeftProgress, Swipeable.RightProgress and PullRefresh.Progress require a positive threshold. The components are only used with their positive defaults, and a zero threshold would divide by zero.
- NotificationSync.SyncNotifications: the clock is read once per sync and is the same for every reminder. The code reads `new Date()` per reminder.
- ReminderTime test-case lemmas assume a plausible zone (strictly less than a day away from UTC) and the form inputs the date and time pickers produce.
- The phone check accepts a value made only of permitted punctuation or spaces, such as `()`. The model keeps this, as the code does.
- components/auth/LoginForm.tsx, the settings and landing pages, and the display-only components (ChecklistDisplay, NotificationDisplay, LanguageSwitcher, useSafeArea) are not part of this model.

## Findings

| source | as written | input that shows it | evidently intended | confidence | as-written member | corrected member |
|---|---|---|---|---|---|---|
| lib/hooks/useNotificationSync.ts:17-18 | the hook reads `notificationsSupported`, `notificationsPermitted` and `requestNotificationPermission` from the Capacitor context. That context (lib/providers/capacitor-provider.tsx:10-19) holds only `isNative`, `platform` and `isReady`, so both flags are `undefined` and every call returns false | any eligible reminder on a device with permission: `scheduleNativeNotification` returns false and nothing is scheduled | the flags say whether the plugin is available and whether permission is held, so an eligible reminder is scheduled | not executed | NotificationSync.ContextHookNeverSchedules | NotificationSync.PluginFlags |
| components/todos/TodoCard.tsx:51-54 | `new Date(todo.due_date)` parses the date-only string as UTC midnight, and the code compares that with local midnight today | due date "2024-12-25", viewed at noon on that day in New York (zone -300): the todo shows as overdue | a todo is overdue when its due date is earlier than today's local date | not executed | TodoCards.DueTodayOverdueWestOfUtc | TodoCards.OverdueLocalMeansEarlierDate |
