/** The hook of lib/hooks/useNativeNotifications.ts: it remembers whether the platform supports
    local notifications and whether permission was granted, schedules a reminder's notification
    only when both hold, and routes a tapped notification to its todo. */
module NativeNotifications {
  import opened Wrappers
  import opened JsDate
  import opened ReminderTime
  import opened Notifications
  import opened NotificationSync

  /** The hook's state: `isSupported` and `permissionGranted`, both false until `init` runs. */
  datatype HookState = HookState(supported: bool, permitted: bool)

  const PlainTitlePrefix: string := "Reminder: "
  const HighlightRoute: string := "/todos?highlight="

  /** `init` on mount: the support flag, and on a supported platform the current permission;
      off the plugin the permission flag keeps its value (registering the action types changes
      nothing the model keeps). */
  function Mounted(h: HookState, p: Platform, s: DeviceState): (r: HookState)
    ensures r.supported == p.supported
    ensures p.supported ==> r.permitted == CheckOutcome(p, s)
    ensures !p.supported ==> r.permitted == h.permitted
  {
    if p.supported then HookState(true, CheckOutcome(p, s)) else h.(supported := false)
  }

  /** The request `scheduleFromReminder` hands to `scheduleNotification`. */
  function ReminderRequest(r: TodoNotification, todoTitle: string, zone: int): (req: ScheduleRequest)
    ensures req.id == NotificationId(r.id) && req.todoId == r.todoId && req.extra == map[]
    ensures req.title == PlainTitlePrefix + todoTitle && req.body == BodyOf(r.message)
    ensures req.scheduledAt == ParseDate(r.notifyAt, zone)
  {
    ScheduleRequest(NotificationId(r.id), PlainTitlePrefix + todoTitle, BodyOf(r.message),
                    ParseDate(r.notifyAt, zone), r.todoId, map[])
  }

  /** `scheduleFromReminder`: nothing unless the hook has seen support and permission, nothing
      for a reminder in the past; otherwise `scheduleNotification`. Unlike the sync hook it does
      not look at `sent` or at the notification type. */
  function FromReminder(h: HookState, p: Platform, s: DeviceState, r: TodoNotification,
                        todoTitle: string, now: int, zone: int): (o: Outcome)
    ensures !h.supported || !h.permitted || IsPast(ParseDate(r.notifyAt, zone), now) ==> o == Outcome(false, s)
    ensures o.ok <==> h.supported && h.permitted && !IsPast(ParseDate(r.notifyAt, zone), now)
                      && Available(p) && (s.granted || p.answer)
    ensures o.state.pending
         == if o.ok then s.pending[NotificationId(r.id) := NotificationOf(ReminderRequest(r, todoTitle, zone))]
            else s.pending
  {
    if !h.supported || !h.permitted then Outcome(false, s)
    else if IsPast(ParseDate(r.notifyAt, zone), now) then Outcome(false, s)
    else ScheduleOutcome(p, s, ReminderRequest(r, todoTitle, zone))
  }

  /** `cancelReminder`. */
  function CancelReminderOutcome(h: HookState, p: Platform, s: DeviceState, reminderId: string): (o: Outcome)
    ensures !h.supported ==> o == Outcome(false, s)
    ensures h.supported ==> o == CancelOutcome(p, s, NotificationId(reminderId))
  {
    if !h.supported then Outcome(false, s) else CancelOutcome(p, s, NotificationId(reminderId))
  }

  /** The page a tap opens: the todo list with the tapped todo highlighted. */
  function TapRoute(p: Platform, extra: Option<map<string, string>>): (r: Option<string>)
    ensures r.Some? <==> TapTarget(p, extra).Some?
    ensures r.Some? ==> r.value == HighlightRoute + TapTarget(p, extra).value
  {
    match TapTarget(p, extra)
    case None => None
    case Some(todoId) => Some(HighlightRoute + todoId)
  }

  /** Tapping a notification scheduled for a reminder opens its todo. */
  lemma TapOpensReminderTodo(p: Platform, r: TodoNotification, todoTitle: string, zone: int)
    requires p.supported && r.todoId != ""
    ensures TapRoute(p, Some(NotificationOf(ReminderRequest(r, todoTitle, zone)).extra))
         == Some(HighlightRoute + r.todoId)
  {
    TapReportsTodo(ReminderRequest(r, todoTitle, zone));
  }

  /** After the first `init`, scheduling a future reminder succeeds exactly when the device answers
      calls and already holds the permission: the hook never prompts on its own. */
  lemma ScheduleAfterInit(p: Platform, s: DeviceState, r: TodoNotification, todoTitle: string,
                          now: int, zone: int)
    requires !IsPast(ParseDate(r.notifyAt, zone), now)
    ensures FromReminder(Mounted(HookState(false, false), p, s), p, s, r, todoTitle, now, zone).ok <==> Available(p) && s.granted
    ensures FromReminder(Mounted(HookState(false, false), p, s), p, s, r, todoTitle, now, zone).state.granted == s.granted
  {
  }

  /** The two hooks disagree on sent and push-only reminders: with support and permission,
      `scheduleFromReminder` schedules a future one that `scheduleNativeNotification` skips. */
  lemma FromReminderIgnoresSent(p: Platform, s: DeviceState, r: TodoNotification,
                                todoTitle: string, now: int, zone: int)
    requires Available(p) && s.granted && !IsPast(ParseDate(r.notifyAt, zone), now)
    requires r.sent || r.notificationType == Push
    ensures FromReminder(HookState(true, true), p, s, r, todoTitle, now, zone).ok
    ensures !ScheduleNative(p, s, HookFlags(true, true), r, todoTitle, now, zone).ok
  {
  }

  /** Cancelling a reminder removes the notification scheduling it added. */
  lemma CancelUndoesFromReminder(h: HookState, p: Platform, s: DeviceState, r: TodoNotification,
                                 todoTitle: string, now: int, zone: int)
    requires NotificationId(r.id) !in s.pending
    ensures var o := FromReminder(h, p, s, r, todoTitle, now, zone);
      CancelReminderOutcome(h, p, o.state, r.id).state.pending == s.pending
  {
  }

  /** The hook over a device. */
  class NativeHook {
    const device: Device
    var isSupported: bool
    var permissionGranted: bool

    function State(): HookState
      reads this
    {
      HookState(isSupported, permissionGranted)
    }

    constructor (device: Device)
      ensures this.device == device && State() == HookState(false, false)
    {
      this.device := device;
      isSupported, permissionGranted := false, false;
    }

    /** The mount effect. */
    method Init()
      modifies this
      ensures State() == Mounted(old(State()), device.platform, device.State())
    {
      isSupported := device.platform.supported;
      if isSupported {
        var granted := device.CheckPermissions();
        permissionGranted := granted;
      }
    }

    /** `requestPermissions`: asks the device and remembers the answer. */
    method RequestPermissions() returns (granted: bool)
      modifies this, device
      ensures Outcome(granted, device.State()) == RequestOutcome(device.platform, old(device.State()))
      ensures State() == old(State()).(permitted := granted)
    {
      granted := device.RequestPermissions();
      permissionGranted := granted;
    }

    method ScheduleFromReminder(r: TodoNotification, todoTitle: string, now: int, zone: int)
      returns (ok: bool)
      modifies device
      ensures Outcome(ok, device.State())
           == FromReminder(State(), device.platform, old(device.State()), r, todoTitle, now, zone)
    {
      if !isSupported || !permissionGranted {
        return false;
      }
      var notifyAt := ParseDate(r.notifyAt, zone);
      if IsPast(notifyAt, now) {
        return false;
      }
      var id := UuidToNotificationId(r.id);
      ok := device.ScheduleNotification(
        ScheduleRequest(id, PlainTitlePrefix + todoTitle, BodyOf(r.message), notifyAt, r.todoId, map[]));
    }

    method CancelReminder(reminderId: string) returns (ok: bool)
      modifies device
      ensures Outcome(ok, device.State())
           == CancelReminderOutcome(State(), device.platform, old(device.State()), reminderId)
    {
      if !isSupported {
        return false;
      }
      var id := UuidToNotificationId(reminderId);
      ok := device.CancelNotification(id);
    }
  }
}
