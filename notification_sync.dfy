/** Keeping a todo's reminders in step with the device's notifications:
    lib/hooks/useNotificationSync.ts. The hook gets three values from the app's Capacitor
    context (whether notifications are supported, whether they are permitted, and a way to ask
    for permission) and decides, reminder by reminder, whether to schedule a native
    notification and under which id. */
module NotificationSync {
  import opened Wrappers
  import opened JsDate
  import opened ReminderTime
  import opened Notifications

  /** The values the hook reads from the context: `notificationsSupported` and
      `notificationsPermitted` (the permission request goes to the device). */
  datatype HookFlags = HookFlags(supported: bool, permitted: bool)

  /** The context `CapacitorProvider` provides (lib/providers/capacitor-provider.tsx). */
  datatype CapacitorContext = CapacitorContext(isNative: bool, platform: string, isReady: bool)

  const TitlePrefix: string := "\U{23F0} Reminder: "
  const DefaultBody: string := "Don't forget about your todo!"

  /** `reminder.message || default`: a missing or empty message gives the default text. */
  function BodyOf(message: Option<string>): (b: string)
    ensures b != ""
    ensures message.Some? && message.value != "" ==> b == message.value
  {
    if message.Some? && message.value != "" then message.value else DefaultBody
  }

  /** `notifyAt <= new Date()`: an invalid date (NaN) compares false, so it is not in the
      past. */
  predicate IsPast(notifyAt: Option<int>, now: int) {
    notifyAt.Some? && notifyAt.value <= now
  }

  /** The request the hook hands to `scheduleNotification`. */
  function SyncRequest(r: TodoNotification, todoTitle: string, zone: int): (req: ScheduleRequest)
    ensures req.id == NotificationId(r.id) && req.todoId == r.todoId && req.extra == map[]
    ensures req.title == TitlePrefix + todoTitle && req.body == BodyOf(r.message)
  {
    ScheduleRequest(NotificationId(r.id), TitlePrefix + todoTitle, BodyOf(r.message),
                    ParseDate(r.notifyAt, zone), r.todoId, map[])
  }

  /** A reminder the hook would schedule once allowed to: not sent, not push-only, and not in
      the past. */
  predicate Eligible(r: TodoNotification, now: int, zone: int) {
    !r.sent && r.notificationType != Push && !IsPast(ParseDate(r.notifyAt, zone), now)
  }

  /** `scheduleNativeNotification`: nothing when unsupported or for a push-only reminder; a
      permission request when not permitted, and nothing more on refusal; nothing for a reminder
      in the past or already sent; otherwise `scheduleNotification` under the hashed id. */
  function ScheduleNative(p: Platform, s: DeviceState, flags: HookFlags, r: TodoNotification,
                          todoTitle: string, now: int, zone: int): (o: Outcome)
    ensures !flags.supported || r.notificationType == Push ==> o == Outcome(false, s)
    ensures o.ok <==> flags.supported && Eligible(r, now, zone) && Available(p) && (s.granted || p.answer)
    ensures o.state.pending
         == if o.ok then s.pending[NotificationId(r.id) := NotificationOf(SyncRequest(r, todoTitle, zone))]
            else s.pending
    ensures o.state.granted == (s.granted || (o.state.granted && Available(p) && p.answer))
  {
    if !flags.supported then Outcome(false, s)
    else if r.notificationType == Push then Outcome(false, s)
    else
      var asked := if flags.permitted then Outcome(true, s) else RequestOutcome(p, s);
      if !asked.ok then Outcome(false, asked.state)
      else if IsPast(ParseDate(r.notifyAt, zone), now) || r.sent then Outcome(false, asked.state)
      else ScheduleOutcome(p, asked.state, SyncRequest(r, todoTitle, zone))
  }

  /** `cancelNativeNotification`: nothing when unsupported, otherwise `cancelNotification` of
      the hashed id. */
  function CancelNative(p: Platform, s: DeviceState, flags: HookFlags, reminderId: string): (o: Outcome)
    ensures !flags.supported ==> o == Outcome(false, s)
    ensures flags.supported ==> o == CancelOutcome(p, s, NotificationId(reminderId))
  {
    if !flags.supported then Outcome(false, s) else CancelOutcome(p, s, NotificationId(reminderId))
  }

  /** The state after `syncNotifications` has visited `rs` in order, attempting each reminder
      that is not sent. */
  function SyncAll(p: Platform, s: DeviceState, flags: HookFlags, rs: seq<TodoNotification>,
                   todoTitle: string, now: int, zone: int): DeviceState
    decreases |rs|
  {
    if rs == [] then s
    else
      var before := SyncAll(p, s, flags, rs[..|rs| - 1], todoTitle, now, zone);
      var r := rs[|rs| - 1];
      if !r.sent then ScheduleNative(p, before, flags, r, todoTitle, now, zone).state else before
  }

  /** `syncNotifications`: nothing when unsupported, otherwise every reminder in order. */
  function Sync(p: Platform, s: DeviceState, flags: HookFlags, rs: seq<TodoNotification>,
                todoTitle: string, now: int, zone: int): DeviceState
  {
    if !flags.supported then s else SyncAll(p, s, flags, rs, todoTitle, now, zone)
  }

  /** The ids of the eligible reminders of `rs`. */
  function EligibleIds(rs: seq<TodoNotification>, now: int, zone: int): set<int>
    decreases |rs|
  {
    if rs == [] then {}
    else
      var r := rs[|rs| - 1];
      EligibleIds(rs[..|rs| - 1], now, zone) + (if Eligible(r, now, zone) then {NotificationId(r.id)} else {})
  }

  /** Syncing adds notifications only under the ids of eligible reminders, never removes one,
      never revokes the permission, and, on a device that answers calls and is or will be granted
      permission, adds one for every eligible reminder. */
  lemma {:induction false} SyncSchedulesEligible(p: Platform, s: DeviceState, flags: HookFlags,
                                                 rs: seq<TodoNotification>, todoTitle: string,
                                                 now: int, zone: int)
    ensures var t := SyncAll(p, s, flags, rs, todoTitle, now, zone);
      s.pending.Keys <= t.pending.Keys <= s.pending.Keys + EligibleIds(rs, now, zone)
      && (s.granted ==> t.granted)
      && (t.granted ==> s.granted || p.answer)
    ensures flags.supported && Available(p) && (s.granted || p.answer) ==>
      SyncAll(p, s, flags, rs, todoTitle, now, zone).pending.Keys
        == s.pending.Keys + EligibleIds(rs, now, zone)
    decreases |rs|
  {
    if rs != [] {
      SyncSchedulesEligible(p, s, flags, rs[..|rs| - 1], todoTitle, now, zone);
    }
  }

  /** On an unsupported platform syncing changes nothing. */
  lemma {:induction false} SyncUnsupported(p: Platform, s: DeviceState, flags: HookFlags,
                                           rs: seq<TodoNotification>, todoTitle: string,
                                           now: int, zone: int)
    requires !flags.supported
    ensures SyncAll(p, s, flags, rs, todoTitle, now, zone) == s
    decreases |rs|
  {
    if rs != [] {
      SyncUnsupported(p, s, flags, rs[..|rs| - 1], todoTitle, now, zone);
    }
  }

  /** The reminders' notifications are removed by cancelling with the same ids. */
  lemma CancelUndoesSchedule(p: Platform, s: DeviceState, flags: HookFlags, r: TodoNotification,
                             todoTitle: string, now: int, zone: int)
    requires r.id != "" && NotificationId(r.id) !in s.pending
    ensures var o := ScheduleNative(p, s, flags, r, todoTitle, now, zone);
      CancelNative(p, o.state, flags, r.id).state.pending == s.pending
  {
  }

  // ---------------------------------------------------------------------------------------
  // The flags as the hook actually receives them

  /** What `useCapacitor()` yields for the three names the hook destructures: the context has
      no such properties, so `notificationsSupported` and `notificationsPermitted` are
      `undefined`, which every test in the hook reads as false. */
  function ContextFlags(ctx: CapacitorContext): (f: HookFlags)
    ensures !f.supported && !f.permitted
  {
    HookFlags(false, false)
  }

  /** The flags the hook is evidently meant to get: whether the plugin is there, and whether
      permission is held. */
  function PluginFlags(p: Platform, s: DeviceState): (f: HookFlags)
    ensures f.supported == p.supported && f.permitted == CheckOutcome(p, s)
  {
    HookFlags(p.supported, CheckOutcome(p, s))
  }

  /** As written, the hook schedules, cancels and syncs nothing, whatever the device: an
      eligible reminder on a device that answers calls and has permission gets its notification
      with the intended flags and none with the context's. */
  lemma ContextHookNeverSchedules(ctx: CapacitorContext, p: Platform, s: DeviceState,
                                  r: TodoNotification, rs: seq<TodoNotification>,
                                  todoTitle: string, now: int, zone: int)
    ensures ScheduleNative(p, s, ContextFlags(ctx), r, todoTitle, now, zone) == Outcome(false, s)
    ensures CancelNative(p, s, ContextFlags(ctx), r.id) == Outcome(false, s)
    ensures Sync(p, s, ContextFlags(ctx), rs, todoTitle, now, zone) == s
    ensures Available(p) && s.granted && Eligible(r, now, zone) ==>
              ScheduleNative(p, s, PluginFlags(p, s), r, todoTitle, now, zone).ok
              && NotificationId(r.id) in ScheduleNative(p, s, PluginFlags(p, s), r, todoTitle, now, zone).state.pending
  {
  }

  // ---------------------------------------------------------------------------------------
  // The hook's callbacks, on a device

  /** `scheduleNativeNotification`. */
  method ScheduleNativeNotification(device: Device, flags: HookFlags, r: TodoNotification,
                                    todoTitle: string, now: int, zone: int) returns (ok: bool)
    modifies device
    ensures Outcome(ok, device.State())
         == ScheduleNative(device.platform, old(device.State()), flags, r, todoTitle, now, zone)
  {
    if !flags.supported {
      return false;
    }
    if r.notificationType == Push {
      return false;
    }
    if !flags.permitted {
      var granted := device.RequestPermissions();
      if !granted {
        return false;
      }
    }
    var notifyAt := ParseDate(r.notifyAt, zone);
    if IsPast(notifyAt, now) || r.sent {
      return false;
    }
    var id := UuidToNotificationId(r.id);
    ok := device.ScheduleNotification(
      ScheduleRequest(id, TitlePrefix + todoTitle, BodyOf(r.message), notifyAt, r.todoId, map[]));
  }

  /** `cancelNativeNotification`. */
  method CancelNativeNotification(device: Device, flags: HookFlags, reminderId: string)
    returns (ok: bool)
    modifies device
    ensures Outcome(ok, device.State()) == CancelNative(device.platform, old(device.State()), flags, reminderId)
  {
    if !flags.supported {
      return false;
    }
    var id := UuidToNotificationId(reminderId);
    ok := device.CancelNotification(id);
  }

  /** `syncNotifications`. */
  method SyncNotifications(device: Device, flags: HookFlags, reminders: seq<TodoNotification>,
                           todoTitle: string, now: int, zone: int)
    modifies device
    ensures device.State() == Sync(device.platform, old(device.State()), flags, reminders, todoTitle, now, zone)
  {
    if !flags.supported {
      return;
    }
    for i := 0 to |reminders|
      invariant device.State()
             == SyncAll(device.platform, old(device.State()), flags, reminders[..i], todoTitle, now, zone)
    {
      assert reminders[..i + 1][..i] == reminders[..i];
      if !reminders[i].sent {
        var _ := ScheduleNativeNotification(device, flags, reminders[i], todoTitle, now, zone);
      }
    }
    assert reminders[..|reminders|] == reminders;
  }
}
