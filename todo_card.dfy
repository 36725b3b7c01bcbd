/** One todo on the list, components/todos/TodoCard.tsx: whether it is overdue, what the card
    shows (the due line and its badge, the sharing line, the edit and delete controls, the swipe
    actions on a device) and what each control does. The mutations the card starts are
    recorded, in order, instead of being sent. */
module TodoCards {
  import opened Wrappers
  import opened JsText
  import opened CivilCalendar
  import opened JsDate
  import opened ReminderTime
  import opened Todos
  import Swipeable

  // ---------------------------------------------------------------------------------------
  // Overdue

  /** The day number of local time: `Day(LocalTime(now))`. */
  function Today(now: int, zone: int): int {
    LocalTime(now, zone) / MsPerDay
  }

  /** `new Date(new Date().setHours(0, 0, 0, 0))`: the instant at which the current local day
      began, NaN when it lies outside the range of time values. */
  function StartOfToday(now: int, zone: int): Option<int> {
    TimeClip(Today(now, zone) * MsPerDay - zone * MsPerMinute)
  }

  /** `a < b` on two dates: false when either is NaN. */
  predicate Before(a: Option<int>, b: Option<int>) {
    a.Some? && b.Some? && a.value < b.value
  }

  /** `todo.due_date` read as a condition: null and the empty string are false. */
  predicate HasDueDate(t: Todo) {
    t.dueDate.Some? && t.dueDate.value != ""
  }

  /** `isOverdue` as written: the due date, read by `new Date`, is before the start of today. */
  predicate IsOverdue(t: Todo, now: int, zone: int) {
    !t.completed && HasDueDate(t) && Before(ParseDate(t.dueDate.value, zone), StartOfToday(now, zone))
  }

  /** The day number of the calendar date a due date names, read without a time zone. */
  function DueDay(s: string): Option<int> {
    match ParseDate(s, 0)
    case None => None
    case Some(u) => Some(u / MsPerDay)
  }

  /** The evident intent: the due date is a date before today's local date. */
  predicate IsOverdueLocal(t: Todo, now: int, zone: int) {
    !t.completed && HasDueDate(t) && DueDay(t.dueDate.value).Some?
    && DueDay(t.dueDate.value).value < Today(now, zone)
  }

  /** The value `setHours(0, 0, 0, 0)` gives is local midnight of the current local date: it
      reads as 00:00 of that date in local time, and lies at most a day before now. */
  lemma StartOfTodayIsLocalMidnight(now: int, zone: int)
    requires StartOfToday(now, zone).Some?
    ensures var m := StartOfToday(now, zone).value;
      LocalDateTime(m, zone) == DateTime(LocalDateTime(now, zone).date, 0, 0, 0, 0)
      && m <= now < m + MsPerDay
  {
    var day := Today(now, zone);
    var m := StartOfToday(now, zone).value;
    assert LocalTime(m, zone) == day * MsPerDay + 0 * MsPerHour + 0 * MsPerMinute + 0 * MsPerSecond + 0;
    TimeJoin(day, 0, 0, 0, 0);
  }

  /** A date picker value is a calendar date and nothing else. */
  lemma DateInputFields(s: string)
    requires IsDateInput(s)
    ensures ParseCalendarDate(s) == Some((InputDate(s), 10))
  {
    assert s[..4] == s[0..4];
    assert ParseYear(s) == Some((DigitsValue(s[0..4]) as int, 4));
  }

  /** A date picker value is read as UTC midnight of its date in every zone, and names the day
      `DaysFromCivil` numbers it by. */
  lemma DateInputDay(s: string, zone: int)
    requires IsDateInput(s)
    ensures ParseDate(s, zone) == ParseDate(s, 0)
    ensures ParseDate(s, zone).Some? ==>
      ParseDate(s, zone).value == DaysFromCivil(InputDate(s)) * MsPerDay
      && DueDay(s) == Some(DaysFromCivil(InputDate(s)))
  {
    DateInputFields(s);
    DateOnlyIsUtc(s, zone, 0);
    TimeJoin(DaysFromCivil(InputDate(s)), 0, 0, 0, 0);
  }

  /** With the intended reading, a todo is overdue exactly when it is open and its due date
      comes before today's local date. */
  lemma OverdueLocalMeansEarlierDate(t: Todo, now: int, zone: int)
    requires t.dueDate.Some? && IsDateInput(t.dueDate.value) && ParseDate(t.dueDate.value, 0).Some?
    ensures IsOverdueLocal(t, now, zone)
        <==> !t.completed && DaysFromCivil(InputDate(t.dueDate.value)) < DaysFromCivil(LocalDateTime(now, zone).date)
  {
    DateInputDay(t.dueDate.value, 0);
    DaysRoundTrip(Today(now, zone));
  }

  /** `a` days against `b` days less `c` milliseconds, for `c` under a day either way. */
  lemma ScaledLess(a: int, b: int, c: int)
    requires -MsPerDay < c < MsPerDay
    ensures c >= 0 ==> (a * MsPerDay < b * MsPerDay - c <==> a < b)
    ensures c < 0 ==> (a * MsPerDay < b * MsPerDay - c <==> a <= b)
  {
    if a < b {
      assert a * MsPerDay <= b * MsPerDay - MsPerDay;
    } else if a == b {
    } else {
      assert a * MsPerDay >= b * MsPerDay + MsPerDay;
    }
  }

  /** As written, `isOverdue` agrees with the intended reading in zones at or east of UTC, and
      in zones west of UTC it also counts a todo due today. */
  lemma OverdueAsWritten(t: Todo, now: int, zone: int)
    requires t.dueDate.Some? && IsDateInput(t.dueDate.value)
    requires PlausibleZone(zone) && StartOfToday(now, zone).Some?
    ensures zone >= 0 ==> (IsOverdue(t, now, zone) <==> IsOverdueLocal(t, now, zone))
    ensures zone < 0 ==> (IsOverdue(t, now, zone)
                          <==> !t.completed && DueDay(t.dueDate.value).Some?
                               && DueDay(t.dueDate.value).value <= Today(now, zone))
  {
    var s := t.dueDate.value;
    DateInputDay(s, zone);
    if ParseDate(s, zone).Some? {
      ScaledLess(DaysFromCivil(InputDate(s)), Today(now, zone), zone * MsPerMinute);
    }
  }

  /** The finding: west of UTC an open todo due today is shown as overdue all day, which the
      intended reading never does. */
  lemma DueTodayOverdueWestOfUtc(t: Todo, now: int, zone: int)
    requires !t.completed && t.dueDate.Some? && IsDateInput(t.dueDate.value)
    requires DueDay(t.dueDate.value) == Some(Today(now, zone))
    requires -24 * 60 < zone < 0 && StartOfToday(now, zone).Some?
    ensures IsOverdue(t, now, zone)
    ensures !IsOverdueLocal(t, now, zone)
  {
    OverdueAsWritten(t, now, zone);
  }

  /** A todo due 2024-12-25, at noon of that day in New York (five hours west of UTC): overdue
      as written, not overdue as intended. */
  lemma ChristmasNoonInNewYork(t: Todo)
    requires !t.completed && t.dueDate == Some("2024-12-25")
    ensures IsOverdue(t, 20082 * MsPerDay + 17 * MsPerHour, -300)
    ensures !IsOverdueLocal(t, 20082 * MsPerDay + 17 * MsPerHour, -300)
  {
    var now := 20082 * MsPerDay + 17 * MsPerHour;
    ChristmasInput();
    ChristmasDayNumber();
    assert IsValidDate(Date(2024, 12, 25));
    DateInputFields("2024-12-25");
    assert ParseDate("2024-12-25", 0) == Some(20082 * MsPerDay);
    DateInputDay("2024-12-25", -300);
    assert LocalTime(now, -300) == 20082 * MsPerDay + 12 * MsPerHour;
    TimeJoin(20082, 12, 0, 0, 0);
    DueTodayOverdueWestOfUtc(t, now, -300);
  }

  // ---------------------------------------------------------------------------------------
  // What the card shows

  /** The colour of the border: gray when completed, red when overdue, green otherwise. */
  datatype Border = Gray | Red | Green

  /** The delete area of an owner's card: the delete button, or the confirmation. */
  datatype DeleteArea = NoDeleteArea | DeleteButton | Confirmation

  /** The icon, label and colour of a swipe action. */
  datatype SwipeAction = SwipeAction(icon: string, title: string, color: string)

  /** The two actions of the swipeable wrapper. */
  datatype SwipeActions = SwipeActions(left: SwipeAction, right: SwipeAction)

  /** What the card shows. */
  datatype CardView = CardView(border: Border, dueLine: bool, overdueBadge: bool,
                               shareLine: Option<string>, edit: bool, deleteArea: DeleteArea,
                               swipe: Option<SwipeActions>)

  const CompleteAction := SwipeAction("\U{2705}", "Complete", "#22c55e")
  const UndoAction := SwipeAction("\U{21A9}\U{FE0F}", "Undo", "#3b82f6")
  const DeleteAction := SwipeAction("\U{1F5D1}\U{FE0F}", "Delete", "#ef4444")
  const SharedPrefix: string := "Shared with "

  /** The sharing line for `n` participants (the owner among them): shown only when someone
      besides one person is on the todo. */
  function ShareLine(n: nat): (r: Option<string>)
    ensures r.Some? <==> n > 1
  {
    if n > 1 then Some(SharedPrefix + NatToString(n - 1) + " " + (if n == 2 then "person" else "people"))
    else None
  }

  /** The sharing line counts the others: after the prefix, `parseInt` reads the number of
      participants other than one, and the noun is singular exactly for two participants. */
  lemma ShareLineCountsOthers(n: nat)
    requires n > 1
    ensures var line := ShareLine(n).value;
      StartsWith(line, SharedPrefix) && ParseInt(line[|SharedPrefix|..]) == Some(n - 1)
      && (line[|line| - 6..] == "person" <==> n == 2)
      && (line[|line| - 6..] == "people" <==> n != 2)
  {
    var d := NatToString(n - 1);
    var noun := if n == 2 then "person" else "people";
    var line := ShareLine(n).value;
    var tail := " " + noun;
    assert line == SharedPrefix + (d + tail);
    assert line[|SharedPrefix|..] == d + tail;
    assert line[|line| - 6..] == noun;
    ParseIntStopsAtNonDigit(d, tail);
    NatToStringValue(n - 1);
  }

  /** The card for `t` with `participants` on it, `isNative` on a device and the delete
      confirmation open or not. The overdue state is the intended one, `IsOverdueLocal`. */
  function View(t: Todo, participants: nat, isNative: bool, confirming: bool, now: int, zone: int): CardView {
    var overdue := IsOverdueLocal(t, now, zone);
    CardView(
      if t.completed then Gray else if overdue then Red else Green,
      HasDueDate(t) || (t.dueTime.Some? && t.dueTime.value != ""),
      overdue,
      ShareLine(participants),
      !t.completed && IsOwner(t),
      if !IsOwner(t) then NoDeleteArea else if confirming then Confirmation else DeleteButton,
      if isNative && IsOwner(t) then Some(SwipeActions(if t.completed then UndoAction else CompleteAction, DeleteAction))
      else None)
  }

  /** Only the owner sees edit, delete and swipe; edit only while open; swiping only on a
      device; the left swipe completes an open todo and reopens a completed one. */
  lemma ControlsFollowOwnership(t: Todo, participants: nat, isNative: bool, confirming: bool, now: int, zone: int)
    ensures var v := View(t, participants, isNative, confirming, now, zone);
      (v.edit <==> IsOwner(t) && !t.completed)
      && (v.deleteArea != NoDeleteArea <==> IsOwner(t))
      && (v.deleteArea == Confirmation <==> IsOwner(t) && confirming)
      && (v.swipe.Some? <==> IsOwner(t) && isNative)
      && (v.swipe.Some? ==> (v.swipe.value.left.title == "Complete" <==> !t.completed)
                            && v.swipe.value.right.title == "Delete")
  {
  }

  /** The overdue badge appears only on the due line of an open todo, and goes with the red
      border. */
  lemma BadgeOnlyOnDueLine(t: Todo, participants: nat, isNative: bool, confirming: bool, now: int, zone: int)
    ensures var v := View(t, participants, isNative, confirming, now, zone);
      (v.overdueBadge ==> v.dueLine && !t.completed)
      && (v.border == Red <==> v.overdueBadge)
      && (v.border == Gray <==> t.completed)
  {
  }

  // ---------------------------------------------------------------------------------------
  // What the controls do

  /** The controls: the checkbox, the edit button, the delete button, the confirmation's two
      buttons, and the two swipe actions. */
  datatype Control = Checkbox | EditButton | AskDelete | ConfirmDelete | CancelDelete
                   | SwipeLeft | SwipeRight

  /** What the card starts: the toggle and delete mutations, and a call of `onEdit`. */
  datatype Effect = ToggleTodo(id: string, completed: bool) | DeleteTodo(id: string) | EditTodo(todo: Todo)

  /** A control is on screen. */
  predicate Offered(v: CardView, c: Control) {
    match c
    case Checkbox => true
    case EditButton => v.edit
    case AskDelete => v.deleteArea == DeleteButton
    case ConfirmDelete | CancelDelete => v.deleteArea == Confirmation
    case SwipeLeft | SwipeRight => v.swipe.Some?
  }

  /** The card's state: `showConfirmDelete`, and the effects started so far. */
  datatype CardState = CardState(confirming: bool, effects: seq<Effect>)

  /** What a control does: the checkbox and the left swipe toggle the todo, the edit button
      calls `onEdit` when there is one, the delete buttons and the right swipe only open or close
      the confirmation, and confirming deletes the todo and closes it. */
  function Press(t: Todo, hasOnEdit: bool, s: CardState, c: Control): (r: CardState)
    ensures |s.effects| <= |r.effects| <= |s.effects| + 1 && r.effects[..|s.effects|] == s.effects
    ensures (|r.effects| > |s.effects| && r.effects[|s.effects|].DeleteTodo?) <==> c == ConfirmDelete
    ensures r.confirming <==> c == AskDelete || c == SwipeRight || (s.confirming && c != CancelDelete && c != ConfirmDelete)
  {
    match c
    case Checkbox | SwipeLeft => s.(effects := s.effects + [ToggleTodo(t.id, !t.completed)])
    case EditButton => if hasOnEdit then s.(effects := s.effects + [EditTodo(t)]) else s
    case AskDelete | SwipeRight => s.(confirming := true)
    case CancelDelete => s.(confirming := false)
    case ConfirmDelete => CardState(false, s.effects + [DeleteTodo(t.id)])
  }

  /** The card after the user presses `cs` in order, each control on screen when pressed. */
  predicate PressedInTurn(t: Todo, hasOnEdit: bool, participants: nat, isNative: bool, now: int, zone: int,
                          s: CardState, cs: seq<Control>)
    decreases |cs|
  {
    cs == [] || (Offered(View(t, participants, isNative, s.confirming, now, zone), cs[0])
                 && PressedInTurn(t, hasOnEdit, participants, isNative, now, zone, Press(t, hasOnEdit, s, cs[0]), cs[1..]))
  }

  function PressAll(t: Todo, hasOnEdit: bool, s: CardState, cs: seq<Control>): (r: CardState)
    ensures |s.effects| <= |r.effects| <= |s.effects| + |cs| && r.effects[..|s.effects|] == s.effects
    decreases |cs|
  {
    if cs == [] then s else PressAll(t, hasOnEdit, Press(t, hasOnEdit, s, cs[0]), cs[1..])
  }

  /** Deleting takes two steps: a press of the delete button or a right swipe opens the
      confirmation, and without one no press sequence deletes anything. */
  lemma {:induction false} NoDeleteWithoutAsking(t: Todo, hasOnEdit: bool, participants: nat, isNative: bool,
                                                 now: int, zone: int, s: CardState, cs: seq<Control>)
    requires !s.confirming && PressedInTurn(t, hasOnEdit, participants, isNative, now, zone, s, cs)
    requires AskDelete !in cs && SwipeRight !in cs
    ensures var r := PressAll(t, hasOnEdit, s, cs);
      !r.confirming && r.effects[..|s.effects|] == s.effects
      && forall i | |s.effects| <= i < |r.effects| :: !r.effects[i].DeleteTodo?
    decreases |cs|
  {
    if cs != [] {
      var s' := Press(t, hasOnEdit, s, cs[0]);
      assert cs[0] != ConfirmDelete && cs[0] != CancelDelete;
      NoDeleteWithoutAsking(t, hasOnEdit, participants, isNative, now, zone, s', cs[1..]);
      var r := PressAll(t, hasOnEdit, s', cs[1..]);
      forall i | |s.effects| <= i < |r.effects|
        ensures !r.effects[i].DeleteTodo?
      {
        if i < |s'.effects| {
          assert r.effects[i] == s'.effects[i];
        }
      }
    }
  }

  /** Someone who does not own the todo can only tick its checkbox: every effect they start
      toggles it. */
  lemma {:induction false} OthersOnlyToggle(t: Todo, hasOnEdit: bool, participants: nat, isNative: bool,
                                            now: int, zone: int, s: CardState, cs: seq<Control>)
    requires !IsOwner(t) && PressedInTurn(t, hasOnEdit, participants, isNative, now, zone, s, cs)
    ensures var r := PressAll(t, hasOnEdit, s, cs);
      r.confirming == s.confirming && r.effects[..|s.effects|] == s.effects
      && forall i | |s.effects| <= i < |r.effects| :: r.effects[i] == ToggleTodo(t.id, !t.completed)
    decreases |cs|
  {
    if cs != [] {
      var s' := Press(t, hasOnEdit, s, cs[0]);
      assert cs[0] == Checkbox;
      OthersOnlyToggle(t, hasOnEdit, participants, isNative, now, zone, s', cs[1..]);
      var r := PressAll(t, hasOnEdit, s', cs[1..]);
      forall i | |s.effects| <= i < |r.effects|
        ensures r.effects[i] == ToggleTodo(t.id, !t.completed)
      {
        if i < |s'.effects| {
          assert r.effects[i] == s'.effects[i];
        }
      }
    }
  }

  /** The props the card gives `SwipeableCard`: both actions, the default threshold. */
  const SwipeProps := Swipeable.Props(true, true, Swipeable.DefaultThreshold, false)

  /** The control a completed swipe presses. */
  function SwipeControl(side: Swipeable.Side): (c: Control)
    ensures c == SwipeLeft || c == SwipeRight
  {
    match side
    case Left => SwipeLeft
    case Right => SwipeRight
  }

  /** A swipe, whichever way, never deletes: the left one toggles the todo, the right one opens
      the confirmation. */
  lemma SwipesNeverDelete(t: Todo, hasOnEdit: bool, s: CardState, side: Swipeable.Side)
    ensures var r := Press(t, hasOnEdit, s, SwipeControl(side));
      side == Swipeable.Left ==> r == s.(effects := s.effects + [ToggleTodo(t.id, !t.completed)])
    ensures  var r := Press(t, hasOnEdit, s, SwipeControl(side));
      side == Swipeable.Right ==> r == s.(confirming := true)
  {
  }

  /** The card as a component with its one piece of state and the effects it starts. */
  class TodoCard {
    const todo: Todo
    const hasOnEdit: bool
    var showConfirmDelete: bool
    var effects: seq<Effect>

    function State(): CardState
      reads this
    {
      CardState(showConfirmDelete, effects)
    }

    constructor (todo: Todo, hasOnEdit: bool)
      ensures this.todo == todo && this.hasOnEdit == hasOnEdit
      ensures State() == CardState(false, [])
    {
      this.todo, this.hasOnEdit := todo, hasOnEdit;
      showConfirmDelete, effects := false, [];
    }

    /** `handleToggle`, the checkbox. */
    method HandleToggle()
      modifies this
      ensures State() == Press(todo, hasOnEdit, old(State()), Checkbox)
    {
      effects := effects + [ToggleTodo(todo.id, !todo.completed)];
    }

    /** `handleDelete`, the confirmation's "Yes, delete". */
    method HandleDelete()
      modifies this
      ensures State() == Press(todo, hasOnEdit, old(State()), ConfirmDelete)
    {
      effects := effects + [DeleteTodo(todo.id)];
      showConfirmDelete := false;
    }

    /** `handleEdit`. */
    method HandleEdit()
      modifies this
      ensures State() == Press(todo, hasOnEdit, old(State()), EditButton)
    {
      if hasOnEdit {
        effects := effects + [EditTodo(todo)];
      }
    }

    /** `handleSwipeComplete`. */
    method HandleSwipeComplete()
      modifies this
      ensures State() == Press(todo, hasOnEdit, old(State()), SwipeLeft)
    {
      effects := effects + [ToggleTodo(todo.id, !todo.completed)];
    }

    /** `handleSwipeDelete`. */
    method HandleSwipeDelete()
      modifies this
      ensures State() == Press(todo, hasOnEdit, old(State()), SwipeRight)
    {
      showConfirmDelete := true;
    }

    /** The delete button. */
    method AskToDelete()
      modifies this
      ensures State() == Press(todo, hasOnEdit, old(State()), AskDelete)
    {
      showConfirmDelete := true;
    }

    /** The confirmation's "Cancel". */
    method CancelDeleting()
      modifies this
      ensures State() == Press(todo, hasOnEdit, old(State()), CancelDelete)
    {
      showConfirmDelete := false;
    }
  }
}
