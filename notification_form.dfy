/** The reminder form of components/todos/NotificationForm.tsx: the fields the user picks (the
    preset, the custom minutes, the delivery type and a message), the label under the custom
    minutes, and the submit sequence: cancel the old native notification when editing, save
    through the store, schedule the saved reminder natively unless it is push-only, then reset.
    The store and the native hook are outside the model: the submit records the calls it makes,
    in order, and takes the store's answer as a parameter. */
module NotificationForms {
  import opened Wrappers
  import opened JsText
  import opened JsDate
  import opened ReminderTime
  import opened Forms

  /** The form's props; `zone` is the device's time-zone offset, which the reminder instant
      depends on. */
  datatype FormProps = FormProps(todoId: string, todoTitle: string, dueDate: string,
                                 dueTime: Option<string>, editing: Option<TodoNotification>,
                                 zone: int)

  /** The form's state. */
  datatype FormFields = FormFields(preset: ReminderPreset, customMinutes: int,
                                   notificationType: NotificationType, message: string)

  /** What the form sends to the store: a new reminder, or new values for an existing one. */
  datatype SaveRequest =
    | AddRequest(todoId: string, notifyAt: string, notificationType: NotificationType,
                 message: Option<string>)
    | UpdateRequest(id: string, todoId: string, notifyAt: string,
                    notificationType: NotificationType, message: Option<string>)

  /** The calls the submit makes, in the order it makes them. */
  datatype Call =
    | AlertNoDueDate
    | CancelNative(reminderId: string)
    | Save(request: SaveRequest)
    | ScheduleNative(reminder: TodoNotification, todoTitle: string)
    | Succeeded

  /** The form's state after a submit, and the calls the submit made. */
  datatype SubmitResult = SubmitResult(fields: FormFields, calls: seq<Call>)

  /** The initial state: 15 minutes before, 30 custom minutes, in-app, and the edited reminder's
      message or nothing (`editingNotification?.message || ''`). */
  function InitialFields(editing: Option<TodoNotification>): (f: FormFields)
    ensures f.preset == FifteenMinutes && f.customMinutes == 30 && f.notificationType == Local
    ensures editing.Some? && editing.value.message.Some? ==> f.message == editing.value.message.value
    ensures editing.None? || editing.value.message.None? ==> f.message == ""
  {
    match editing
    case Some(e) => FormFields(FifteenMinutes, 30, Local, e.message.GetOr(""))
    case None => FormFields(FifteenMinutes, 30, Local, "")
  }

  /** The custom-minutes input: `parseInt(value) || 0`. */
  function CustomMinutesInput(text: string): (m: int)
    ensures ParseInt(text).None? ==> m == 0
    ensures ParseInt(text).Some? ==> m == ParseInt(text).value
  {
    ParseIntOrZero(text)
  }

  /** Typing a number's decimal numeral sets exactly that number. */
  lemma TypedMinutesReadBack(m: int)
    ensures CustomMinutesInput(IntToString(m)) == m
  {
    ParseIntOfIntToString(m);
  }

  /** The label under the custom minutes. */
  function CustomMinutesLabel(m: int): string {
    if m >= 60 then NatToString(m / 60) + "h " + NatToString(m % 60) + "m before"
    else IntToString(m) + " minutes before"
  }

  /** Whole hours and remaining minutes are the quotient and remainder by 60. */
  lemma HoursAndMinutes(h: nat, mm: nat)
    requires mm < 60
    ensures (60 * h + mm) / 60 == h && (60 * h + mm) % 60 == mm
  {
    var m := 60 * h + mm;
    var q, r := m / 60, m % 60;
    assert m == q * 60 + r && 0 <= r < 60;
  }

  /** An hour or more reads as whole hours and the remaining minutes. */
  lemma LabelShowsHoursAndMinutes(h: nat, mm: nat)
    requires h >= 1 && mm < 60
    ensures CustomMinutesLabel(60 * h + mm) == NatToString(h) + "h " + NatToString(mm) + "m before"
  {
    HoursAndMinutes(h, mm);
  }

  /** Less than an hour reads as a number of minutes, a negative one with its sign. */
  lemma LabelShowsMinutes(m: int)
    requires m < 60
    ensures CustomMinutesLabel(m) == IntToString(m) + " minutes before"
    ensures ParseInt(IntToString(m)) == Some(m)
  {
    ParseIntOfIntToString(m);
  }

  /** The instant the submit computes from the props and the chosen preset. */
  function NotifyAtOf(p: FormProps, f: FormFields): Result<string, DateError> {
    CalculateNotifyAt(p.dueDate, p.dueTime, f.preset, Some(f.customMinutes), p.zone)
  }

  /** `handleSubmit`, given the instant `calculateNotifyAt` gives (a failure is the exception
      the `try` catches) and what the store answers (`None` when the save rejects). */
  function Submit(p: FormProps, f: FormFields, notifyAt: Result<string, DateError>,
                  saved: Option<TodoNotification>): (r: SubmitResult)
    ensures |p.dueDate| == 0 ==> r == SubmitResult(f, [AlertNoDueDate])
    ensures |p.dueDate| != 0 && notifyAt.Failure? ==> r == SubmitResult(f, [])
    ensures r.fields == f || r.fields == f.(message := "", preset := FifteenMinutes)
  {
    if |p.dueDate| == 0 then SubmitResult(f, [AlertNoDueDate])
    else
      match notifyAt
      case Failure(_) => SubmitResult(f, [])
      case Success(notifyAt) =>
        var save := SaveCalls(p, f, notifyAt, TrimmedOrUndefined(f.message));
        match saved
        case None => SubmitResult(f, save)
        case Some(reminder) =>
          var schedule := if f.notificationType != Push then [ScheduleNative(reminder, p.todoTitle)] else [];
          SubmitResult(f.(message := "", preset := FifteenMinutes), save + schedule + [Succeeded])
  }

  /** The calls up to the save: an edit cancels the old native notification and updates the
      reminder by its id; otherwise a new reminder is added. */
  function SaveCalls(p: FormProps, f: FormFields, notifyAt: string, message: Option<string>)
    : (calls: seq<Call>)
    ensures |calls| >= 1 && calls[|calls| - 1].Save?
    ensures forall i | 0 <= i < |calls| :: calls[i].CancelNative? || calls[i].Save?
  {
    match p.editing
    case Some(e) =>
      [CancelNative(e.id), Save(UpdateRequest(e.id, p.todoId, notifyAt, f.notificationType, message))]
    case None =>
      [Save(AddRequest(p.todoId, notifyAt, f.notificationType, message))]
  }

  /** The submit reaches the store. */
  predicate Saves(p: FormProps, notifyAt: Result<string, DateError>) {
    |p.dueDate| != 0 && notifyAt.Success?
  }

  /** Whatever the submit sends, it sends once, with the computed instant, the chosen type and
      the trimmed message; an edit cancels the old native notification first and updates the
      reminder by its id, and a new reminder is added. */
  lemma SubmitSavesOnce(p: FormProps, f: FormFields, notifyAt: Result<string, DateError>,
                          saved: Option<TodoNotification>)
    requires Saves(p, notifyAt)
    ensures var r := Submit(p, f, notifyAt, saved);
      var at := notifyAt.value;
      var k := if p.editing.Some? then 1 else 0;
      |r.calls| > k && r.calls[k].Save?
      && (forall i | 0 <= i < |r.calls| && i != k :: !r.calls[i].Save?)
      && r.calls[k].request.notifyAt == at
      && r.calls[k].request.notificationType == f.notificationType
      && r.calls[k].request.message == TrimmedOrUndefined(f.message)
      && r.calls[k].request.todoId == p.todoId
      && (p.editing.Some? ==>
            r.calls[0] == CancelNative(p.editing.value.id)
            && r.calls[1].request == UpdateRequest(p.editing.value.id, p.todoId, at, f.notificationType,
                                                    TrimmedOrUndefined(f.message)))
      && (p.editing.None? ==> r.calls[0].request.AddRequest?
                               && forall i | 0 <= i < |r.calls| :: !r.calls[i].CancelNative?)
  {
  }

  /** A native schedule follows the save exactly when the store answered and the type is not
      push; what is scheduled is the stored reminder, under the todo's title. */
  lemma ScheduleAfterSave(p: FormProps, f: FormFields, notifyAt: Result<string, DateError>,
                          saved: Option<TodoNotification>)
    ensures var r := Submit(p, f, notifyAt, saved);
      (exists i | 0 <= i < |r.calls| :: r.calls[i].ScheduleNative?)
        <==> Saves(p, notifyAt) && saved.Some? && f.notificationType != Push
    ensures var r := Submit(p, f, notifyAt, saved);
      forall i | 0 <= i < |r.calls| && r.calls[i].ScheduleNative? ::
        r.calls[i] == ScheduleNative(saved.value, p.todoTitle)
        && 0 < i && r.calls[i - 1].Save?
  {
    var r := Submit(p, f, notifyAt, saved);
    if Saves(p, notifyAt) {
      var save := SaveCalls(p, f, notifyAt.value, TrimmedOrUndefined(f.message));
      if saved.Some? {
        var schedule := if f.notificationType != Push then [ScheduleNative(saved.value, p.todoTitle)] else [];
        assert r.calls == save + schedule + [Succeeded];
        if f.notificationType != Push {
          assert r.calls[|save|].ScheduleNative?;
        }
      } else {
        assert r.calls == save;
      }
    }
  }

  /** The form resets, and `onSuccess` runs last, exactly when the store answered; otherwise
      the user's choices stay as they were. */
  lemma ResetOnlyOnSuccess(p: FormProps, f: FormFields, notifyAt: Result<string, DateError>,
                          saved: Option<TodoNotification>)
    ensures var r := Submit(p, f, notifyAt, saved);
      r.fields == (if Saves(p, notifyAt) && saved.Some? then f.(message := "", preset := FifteenMinutes) else f)
    ensures var r := Submit(p, f, notifyAt, saved);
      (exists i | 0 <= i < |r.calls| :: r.calls[i] == Succeeded) <==> Saves(p, notifyAt) && saved.Some?
    ensures var r := Submit(p, f, notifyAt, saved);
      Saves(p, notifyAt) && saved.Some? ==> r.calls[|r.calls| - 1] == Succeeded
  {
    var r := Submit(p, f, notifyAt, saved);
    if Saves(p, notifyAt) {
      var save := SaveCalls(p, f, notifyAt.value, TrimmedOrUndefined(f.message));
      if saved.Some? {
        var schedule := if f.notificationType != Push then [ScheduleNative(saved.value, p.todoTitle)] else [];
        assert r.calls == save + schedule + [Succeeded];
        assert r.calls[|r.calls| - 1] == Succeeded;
      } else {
        assert r.calls == save;
      }
    }
  }

  /** The form. */
  class NotificationForm {
    var preset: ReminderPreset
    var customMinutes: int
    var notificationType: NotificationType
    var message: string
    /** The calls made to the store, the alert, the native hook and `onSuccess`, in order. */
    var calls: seq<Call>

    function Fields(): FormFields
      reads this
    {
      FormFields(preset, customMinutes, notificationType, message)
    }

    constructor (editing: Option<TodoNotification>)
      ensures Fields() == InitialFields(editing) && calls == []
    {
      preset := FifteenMinutes;
      customMinutes := 30;
      notificationType := Local;
      message := if editing.Some? && editing.value.message.Some? then editing.value.message.value else "";
      calls := [];
    }

    method SelectPreset(value: ReminderPreset)
      modifies this
      ensures Fields() == old(Fields()).(preset := value) && calls == old(calls)
    {
      preset := value;
    }

    method EditCustomMinutes(text: string)
      modifies this
      ensures Fields() == old(Fields()).(customMinutes := CustomMinutesInput(text)) && calls == old(calls)
    {
      var parsed := ParseInt(text);
      customMinutes := if parsed.Some? then parsed.value else 0;
    }

    method SelectType(value: NotificationType)
      modifies this
      ensures Fields() == old(Fields()).(notificationType := value) && calls == old(calls)
    {
      notificationType := value;
    }

    method EditMessage(text: string)
      modifies this
      ensures Fields() == old(Fields()).(message := text) && calls == old(calls)
    {
      message := text;
    }

    /** `handleSubmit`; `saved` is the store's answer. */
    method HandleSubmit(p: FormProps, saved: Option<TodoNotification>)
      modifies this
      ensures var r := Submit(p, old(Fields()), NotifyAtOf(p, old(Fields())), saved);
        Fields() == r.fields && calls == old(calls) + r.calls
    {
      if |p.dueDate| == 0 {
        calls := calls + [AlertNoDueDate];
      } else {
        var notifyAt := NotifyAtOf(p, Fields());
        SubmitAt(p, notifyAt, saved);
      }
    }

    /** `handleSubmit` after the due-date check, once `calculateNotifyAt` has answered. */
    method SubmitAt(p: FormProps, notifyAt: Result<string, DateError>, saved: Option<TodoNotification>)
      requires |p.dueDate| != 0
      modifies this
      ensures var r := Submit(p, old(Fields()), notifyAt, saved);
        Fields() == r.fields && calls == old(calls) + r.calls
    {
      var made: seq<Call>;
      if notifyAt.Failure? {
        made := [];
      } else {
        var sent := TrimmedOrUndefined(message);
        if p.editing.Some? {
          made := [CancelNative(p.editing.value.id)];
          made := made + [Save(UpdateRequest(p.editing.value.id, p.todoId, notifyAt.value, notificationType, sent))];
        } else {
          made := [Save(AddRequest(p.todoId, notifyAt.value, notificationType, sent))];
        }
        if saved.Some? {
          if notificationType != Push {
            made := made + [ScheduleNative(saved.value, p.todoTitle)];
          }
          message := "";
          preset := FifteenMinutes;
          made := made + [Succeeded];
        }
      }
      calls := calls + made;
    }
  }
}
