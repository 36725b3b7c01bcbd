/** The local-notification layer of lib/capacitor/notifications.ts: the numeric notification id
    derived from a reminder's UUID, and the guarded calls into the device's notification plugin
    (permission check and request, schedule, cancel, cancel all, list pending, taps). The plugin
    is a device whose state is its permission and its pending notifications by id. */
module Notifications {
  import opened Wrappers
  import opened JsText

  // ---------------------------------------------------------------------------------------
  // uuidToNotificationId

  /** The 32-bit hash after the code units `u`: starting from 0, each code unit `c` turns
      `hash` into the 32-bit wrap of `31 * hash + c`. */
  function HashOf(u: seq<int>): (h: int)
    ensures -TwoTo31 <= h < TwoTo31
    decreases |u|
  {
    if u == [] then 0 else ToInt32(31 * HashOf(u[..|u| - 1]) + u[|u| - 1])
  }

  /** The same polynomial without any wrapping: the code units read as digits in base 31. */
  function PolyValue(u: seq<int>): int
    decreases |u|
  {
    if u == [] then 0 else 31 * PolyValue(u[..|u| - 1]) + u[|u| - 1]
  }

  /** One iteration of the loop: `(hash << 5) - hash + c`, then `hash & hash`, is the 32-bit
      wrap of `31 * hash + c`. */
  lemma ShiftSubtractStep(hash: int, c: int)
    ensures ToInt32(ToInt32(hash * 32) - hash + c) == ToInt32(31 * hash + c)
  {
    var s := ToInt32(hash * 32);
    assert (s - hash * 32) % TwoTo32 == 0;
    assert (s - hash + c) - (31 * hash + c) == s - hash * 32;
    ToInt32Congruent(s - hash + c, 31 * hash + c);
  }

  /** Wrapping after every step is the same as wrapping once at the end: the hash is the 32-bit
      wrap of the base-31 value of the code units. */
  lemma {:induction false} HashIsWrappedPoly(u: seq<int>)
    ensures HashOf(u) == ToInt32(PolyValue(u))
    decreases |u|
  {
    if u != [] {
      var init := u[..|u| - 1];
      var c := u[|u| - 1];
      HashIsWrappedPoly(init);
      WrapStep(PolyValue(init), c);
    }
  }

  /** Wrapping the hash before a step does not change the step's wrapped result. */
  lemma WrapStep(p: int, c: int)
    ensures ToInt32(31 * ToInt32(p) + c) == ToInt32(31 * p + c)
  {
    var q := ToInt32(p);
    var k := (q - p) / TwoTo32;
    assert q - p == k * TwoTo32;
    var d := (31 * q + c) - (31 * p + c);
    assert d == (31 * k) * TwoTo32;
    ModShift(0, 31 * k);
    assert d % TwoTo32 == 0;
    ToInt32Congruent(31 * q + c, 31 * p + c);
  }

  /** A short id whose base-31 value fits in 31 bits is that value itself. */
  lemma SmallHash(u: seq<int>)
    requires 0 <= PolyValue(u) < TwoTo31
    ensures HashOf(u) == PolyValue(u)
  {
    HashIsWrappedPoly(u);
    ToInt32Identity(PolyValue(u));
  }

  /** The notification id of a UUID: the absolute value of the hash of its UTF-16 code units.
      It always lies from 0 to 2^31; 2^31 itself comes from a hash of -2^31. */
  function NotificationId(uuid: string): (id: nat)
    ensures id <= TwoTo31
    ensures uuid == "" ==> id == 0
    ensures id == TwoTo31 <==> HashOf(CodeUnits(uuid)) == -TwoTo31
  {
    Abs(HashOf(CodeUnits(uuid)))
  }

  /** `uuidToNotificationId`, the loop over the code units. */
  method UuidToNotificationId(uuid: string) returns (id: nat)
    ensures id == NotificationId(uuid)
    ensures id <= TwoTo31
  {
    var units := CodeUnits(uuid);
    var hash := 0;
    for i := 0 to |units|
      invariant hash == HashOf(units[..i])
    {
      var code := units[i];
      assert units[..i + 1][..i] == units[..i];
      ShiftSubtractStep(hash, code);
      hash := ToInt32(ToInt32(hash * 32) - hash + code);
    }
    assert units[..|units|] == units;
    id := Abs(hash);
  }

  /** An ASCII example: "ab" hashes to 31 * 97 + 98. */
  lemma TwoLetterId()
    ensures NotificationId("ab") == 3105
  {
    BmpCodeUnits("ab");
    var u := CodeUnits("ab");
    assert u == [97, 98];
    assert u[..1] == [97];
    assert u[..1][..0] == [];
    SmallHash(u);
  }

  // ---------------------------------------------------------------------------------------
  // The plugin's notifications

  /** What the app asks to schedule: `scheduleNotification`'s options. A `scheduledAt` of
      `None` is an invalid `Date`. */
  datatype ScheduleRequest = ScheduleRequest(id: int, title: string, body: string,
                                             scheduledAt: Option<int>, todoId: string,
                                             extra: map<string, string>)

  /** A notification handed to the plugin. */
  datatype LocalNotification = LocalNotification(id: int, title: string, body: string,
                                                 at: Option<int>, allowWhileIdle: bool,
                                                 sound: string, smallIcon: string,
                                                 largeIcon: string, actionTypeId: string,
                                                 extra: map<string, string>)

  /** The notification built from a request: its id, title, body and time, the app's fixed
      sound, icons and action type, and an `extra` holding `todoId` merged with the request's
      own extras, which win on a clash. */
  function NotificationOf(req: ScheduleRequest): (n: LocalNotification)
    ensures n.id == req.id && n.title == req.title && n.body == req.body && n.at == req.scheduledAt
    ensures n.allowWhileIdle && n.actionTypeId == "OPEN_TODO" && n.sound == "default"
    ensures n.extra.Keys == {"todoId"} + req.extra.Keys
    ensures forall k :: k in req.extra ==> n.extra[k] == req.extra[k]
    ensures "todoId" !in req.extra ==> n.extra["todoId"] == req.todoId
  {
    LocalNotification(req.id, req.title, req.body, req.scheduledAt, true, "default",
                      "ic_stat_icon_config_sample", "ic_launcher", "OPEN_TODO",
                      map["todoId" := req.todoId] + req.extra)
  }

  /** What a tap on a delivered notification reports: the `todoId` of its `extra`, when there
      is one and it is not empty (`extra` may be missing altogether). */
  function TappedTodo(extra: Option<map<string, string>>): (r: Option<string>)
    ensures r.Some? <==> extra.Some? && "todoId" in extra.value && extra.value["todoId"] != ""
    ensures r.Some? ==> r.value == extra.value["todoId"]
  {
    if extra.Some? && "todoId" in extra.value && extra.value["todoId"] != "" then
      Some(extra.value["todoId"])
    else
      None
  }

  /** A notification scheduled by the app reports its todo when tapped, unless the request's
      own extras replaced `todoId`. */
  lemma TapReportsTodo(req: ScheduleRequest)
    requires req.todoId != "" && "todoId" !in req.extra
    ensures TappedTodo(Some(NotificationOf(req).extra)) == Some(req.todoId)
  {
  }

  /** What the app cannot change about a device: whether the platform has the plugin
      (`isNotificationsSupported`), the answer its user gives to a permission prompt, and
      whether the plugin rejects every call. */
  datatype Platform = Platform(supported: bool, answer: bool, broken: bool)

  /** The plugin's state: the display permission and the pending notifications by id. */
  datatype DeviceState = DeviceState(granted: bool, pending: map<int, LocalNotification>)

  /** The result of a plugin call and the state after it. */
  datatype Outcome = Outcome(ok: bool, state: DeviceState)

  /** The plugin answers calls (it is there and does not reject). */
  predicate Available(p: Platform) {
    p.supported && !p.broken
  }

  /** `requestNotificationPermissions`: false off the plugin or when it rejects; otherwise the
      permission after a prompt, which a granted permission skips. Pending notifications are
      untouched. */
  function RequestOutcome(p: Platform, s: DeviceState): (r: Outcome)
    ensures r.state.pending == s.pending
    ensures r.ok <==> Available(p) && (s.granted || p.answer)
    ensures r.state.granted == (s.granted || (Available(p) && p.answer))
  {
    if !p.supported || p.broken then Outcome(false, s)
    else
      var granted := s.granted || p.answer;
      Outcome(granted, s.(granted := granted))
  }

  /** `checkNotificationPermissions`. */
  function CheckOutcome(p: Platform, s: DeviceState): bool {
    Available(p) && s.granted
  }

  /** `scheduleNotification`: off the plugin nothing happens; without permission the user is
      asked, and a refusal ends it; otherwise the notification is handed to the plugin, which
      replaces any pending one with the same id, and a rejection is reported as false. */
  function ScheduleOutcome(p: Platform, s: DeviceState, req: ScheduleRequest): (r: Outcome)
    ensures r.ok <==> Available(p) && (s.granted || p.answer)
    ensures r.state.granted == (s.granted || (Available(p) && p.answer))
    ensures r.state.pending == if r.ok then s.pending[req.id := NotificationOf(req)] else s.pending
    ensures !p.supported ==> r == Outcome(false, s)
  {
    if !p.supported then Outcome(false, s)
    else
      var asked := if CheckOutcome(p, s) then Outcome(true, s) else RequestOutcome(p, s);
      if !asked.ok then Outcome(false, asked.state)
      else if p.broken then Outcome(false, asked.state)
      else Outcome(true, asked.state.(pending := asked.state.pending[req.id := NotificationOf(req)]))
  }

  /** `cancelNotification`. */
  function CancelOutcome(p: Platform, s: DeviceState, id: int): (r: Outcome)
    ensures r.ok == Available(p) && r.state.granted == s.granted
    ensures r.state.pending == if r.ok then s.pending - {id} else s.pending
    ensures id !in r.state.pending.Keys - s.pending.Keys
  {
    if !Available(p) then Outcome(false, s) else Outcome(true, s.(pending := s.pending - {id}))
  }

  /** The device: its platform facts and the plugin's state. */
  class Device {
    const platform: Platform
    var granted: bool
    var pending: map<int, LocalNotification>

    function State(): DeviceState
      reads this
    {
      DeviceState(granted, pending)
    }

    constructor (platform: Platform, granted: bool)
      ensures this.platform == platform && State() == DeviceState(granted, map[])
    {
      this.platform := platform;
      this.granted := granted;
      pending := map[];
    }

    method RequestPermissions() returns (ok: bool)
      modifies this
      ensures Outcome(ok, State()) == RequestOutcome(platform, old(State()))
    {
      if !platform.supported {
        return false;
      }
      if platform.broken {
        return false;
      }
      granted := granted || platform.answer;
      ok := granted;
    }

    method CheckPermissions() returns (ok: bool)
      ensures ok == CheckOutcome(platform, State())
    {
      if !platform.supported || platform.broken {
        return false;
      }
      ok := granted;
    }

    method ScheduleNotification(req: ScheduleRequest) returns (ok: bool)
      modifies this
      ensures Outcome(ok, State()) == ScheduleOutcome(platform, old(State()), req)
    {
      if !platform.supported {
        return false;
      }
      var hasPermission := CheckPermissions();
      if !hasPermission {
        var permitted := RequestPermissions();
        if !permitted {
          return false;
        }
      }
      if platform.broken {
        return false;
      }
      pending := pending[req.id := NotificationOf(req)];
      ok := true;
    }

    method CancelNotification(id: int) returns (ok: bool)
      modifies this
      ensures Outcome(ok, State()) == CancelOutcome(platform, old(State()), id)
    {
      if !platform.supported || platform.broken {
        return false;
      }
      pending := pending - {id};
      ok := true;
    }

    /** `cancelAllNotifications`; `cancelCalled` says whether the plugin's cancel was invoked,
        which happens only with something pending. */
    method CancelAllNotifications() returns (ok: bool, cancelCalled: bool)
      modifies this
      ensures ok == Available(platform) && granted == old(granted)
      ensures cancelCalled <==> ok && |old(pending)| > 0
      ensures pending == if ok then map[] else old(pending)
    {
      cancelCalled := false;
      if !platform.supported || platform.broken {
        return false, false;
      }
      var list := pending;
      if |list| > 0 {
        pending := map[];
        cancelCalled := true;
      }
      ok := true;
    }

    /** `getPendingNotifications`: nothing off the plugin or when the plugin rejects. */
    method GetPendingNotifications() returns (list: map<int, LocalNotification>)
      ensures list == if Available(platform) then pending else map[]
    {
      if !platform.supported || platform.broken {
        return map[];
      }
      list := pending;
    }
  }

  /** The todo a tap reports to the app's callback: listeners exist only on a supported
      platform. */
  function TapTarget(p: Platform, extra: Option<map<string, string>>): (r: Option<string>)
    ensures !p.supported ==> r == None
    ensures p.supported ==> r == TappedTodo(extra)
  {
    if p.supported then TappedTodo(extra) else None
  }
}
