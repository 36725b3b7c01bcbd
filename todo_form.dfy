/** The todo form of components/todos/TodoForm.tsx: a title (required), a description and a due
    date and time (optional). The submit rejects a blank title, sends the cleaned-up values to
    the store (an update of the edited todo, or a new todo), and clears the form once the store
    has accepted them. The store is outside the model: the submit records what it sends and
    takes how the mutation settles as a parameter. */
module TodoForms {
  import opened Wrappers
  import opened JsText
  import opened Todos
  import opened Forms

  /** The four inputs. */
  datatype TodoFields = TodoFields(title: string, description: string, dueDate: string, dueTime: string)

  /** The form's state: the inputs and the error shown above them (`''` for none). */
  datatype FormState = FormState(fields: TodoFields, error: string)

  /** What the form sends to the store. */
  datatype TodoRequest =
    | CreateTodo(title: string, description: Option<string>, dueDate: Option<string>, dueTime: Option<string>)
    | UpdateTodo(id: string, title: string, description: Option<string>, dueDate: Option<string>,
                 dueTime: Option<string>)

  /** What the submit does, in order: send a request, call `onSuccess`. */
  datatype Call = Send(request: TodoRequest) | Succeeded

  datatype SubmitResult = SubmitResult(state: FormState, calls: seq<Call>)

  const TitleRequired: string := "Title is required"
  const SaveFailed: string := "Failed to save todo"
  const EmptyFields := TodoFields("", "", "", "")

  /** The inputs start from the edited todo's values (`todo?.title || ''` and so on), or empty. */
  function InitialFields(todo: Option<Todo>): (f: TodoFields)
    ensures todo.None? ==> f == EmptyFields
    ensures todo.Some? ==>
      f.title == todo.value.title
      && f.description == todo.value.description.GetOr("")
      && f.dueDate == todo.value.dueDate.GetOr("")
      && f.dueTime == todo.value.dueTime.GetOr("")
  {
    match todo
    case None => EmptyFields
    case Some(t) => TodoFields(t.title, t.description.GetOr(""), t.dueDate.GetOr(""), t.dueTime.GetOr(""))
  }

  /** The request for the inputs: the title trimmed, a blank description and an empty date or
      time left out; an update when a todo is being edited. */
  function RequestFor(todo: Option<Todo>, f: TodoFields): TodoRequest {
    var title, description := Trim(f.title), TrimmedOrUndefined(f.description);
    var dueDate, dueTime := OrUndefined(f.dueDate), OrUndefined(f.dueTime);
    match todo
    case Some(t) => UpdateTodo(t.id, title, description, dueDate, dueTime)
    case None => CreateTodo(title, description, dueDate, dueTime)
  }

  /** `handleSubmit`, with `settled` saying how the create or update mutation settles. */
  function Submit(todo: Option<Todo>, s: FormState, settled: Settled): SubmitResult {
    if Trim(s.fields.title) == "" then SubmitResult(FormState(s.fields, TitleRequired), [])
    else
      var request := RequestFor(todo, s.fields);
      match settled
      case Resolved => SubmitResult(FormState(EmptyFields, ""), [Send(request), Succeeded])
      case Rejected(e) => SubmitResult(FormState(s.fields, CaughtMessage(e, SaveFailed)), [Send(request)])
  }

  /** A blank title stops the submit with "Title is required" and sends nothing; any other
      title sends exactly one request. */
  lemma TitleIsRequired(todo: Option<Todo>, s: FormState, settled: Settled)
    ensures var r := Submit(todo, s, settled);
      (r.calls == [] <==> IsBlank(s.fields.title))
      && (IsBlank(s.fields.title) ==> r.state == FormState(s.fields, TitleRequired))
      && (!IsBlank(s.fields.title) ==>
            r.calls[0] == Send(RequestFor(todo, s.fields)) && forall i | 1 <= i < |r.calls| :: !r.calls[i].Send?)
  {
    TrimEmptyIffBlank(s.fields.title);
  }

  /** What is sent: the title trimmed and not empty, the description trimmed or left out when
      blank, the date and time as typed or left out when empty; an update of the edited todo's
      id, or a create. */
  lemma RequestIsCleaned(todo: Option<Todo>, f: TodoFields)
    requires !IsBlank(f.title)
    ensures var q := RequestFor(todo, f);
      q.title == Trim(f.title) && q.title != ""
      && !IsWhiteSpace(q.title[0]) && !IsWhiteSpace(q.title[|q.title| - 1])
      && (q.description.None? <==> IsBlank(f.description))
      && (q.description.Some? ==> q.description.value == Trim(f.description))
      && (q.dueDate.None? <==> f.dueDate == "") && (q.dueDate.Some? ==> q.dueDate.value == f.dueDate)
      && (q.dueTime.None? <==> f.dueTime == "") && (q.dueTime.Some? ==> q.dueTime.value == f.dueTime)
      && (q.UpdateTodo? <==> todo.Some?)
      && (todo.Some? ==> q.id == todo.value.id)
  {
    TrimEmptyIffBlank(f.title);
    TrimShape(f.title);
    TrimmedOrUndefinedBlank(f.description);
  }

  /** The form is cleared, and `onSuccess` runs after the request, exactly when the store
      accepts; a rejection shows its message and keeps what the user typed. */
  lemma ResetOnlyOnSuccess(todo: Option<Todo>, s: FormState, settled: Settled)
    requires !IsBlank(s.fields.title)
    ensures var r := Submit(todo, s, settled);
      (Succeeded in r.calls <==> settled.Resolved?)
      && (settled.Resolved? ==> r.state == FormState(EmptyFields, "") && r.calls[|r.calls| - 1] == Succeeded)
      && (settled.Rejected? ==> r.state == FormState(s.fields, CaughtMessage(settled.thrown, SaveFailed)))
  {
    TrimEmptyIffBlank(s.fields.title);
  }

  /** Opening a todo the form itself saved and submitting it unchanged sends back its own
      values. */
  lemma UnchangedEditSendsSameValues(t: Todo)
    requires t.title != [] && !IsWhiteSpace(t.title[0]) && !IsWhiteSpace(t.title[|t.title| - 1])
    requires t.description.Some? ==>
      var d := t.description.value; d != [] && !IsWhiteSpace(d[0]) && !IsWhiteSpace(d[|d| - 1])
    requires t.dueDate != Some("") && t.dueTime != Some("")
    ensures RequestFor(Some(t), InitialFields(Some(t)))
         == UpdateTodo(t.id, t.title, t.description, t.dueDate, t.dueTime)
  {
    TrimOfTrimmed(t.title);
    if t.description.Some? {
      TrimmedOrUndefinedKeepsTrimmed(t.description.value);
    }
  }

  /** The form. */
  class TodoForm {
    /** The `todo` prop: the todo being edited, if any. */
    const todo: Option<Todo>
    var title: string
    var description: string
    var dueDate: string
    var dueTime: string
    var error: string
    /** The requests sent and the `onSuccess` calls made, in order. */
    var calls: seq<Call>

    function State(): FormState
      reads this
    {
      FormState(TodoFields(title, description, dueDate, dueTime), error)
    }

    constructor (todo: Option<Todo>)
      ensures this.todo == todo && State() == FormState(InitialFields(todo), "") && calls == []
    {
      this.todo := todo;
      title := if todo.Some? then todo.value.title else "";
      description := if todo.Some? && todo.value.description.Some? then todo.value.description.value else "";
      dueDate := if todo.Some? && todo.value.dueDate.Some? then todo.value.dueDate.value else "";
      dueTime := if todo.Some? && todo.value.dueTime.Some? then todo.value.dueTime.value else "";
      error := "";
      calls := [];
    }

    /** Typing into one of the inputs. */
    method Edit(f: TodoFields)
      modifies this
      ensures State() == old(State()).(fields := f) && calls == old(calls)
    {
      title, description, dueDate, dueTime := f.title, f.description, f.dueDate, f.dueTime;
    }

    /** `handleSubmit`. */
    method HandleSubmit(settled: Settled)
      modifies this
      ensures var r := Submit(todo, old(State()), settled);
        State() == r.state && calls == old(calls) + r.calls
    {
      error := "";
      if Trim(title) == "" {
        error := TitleRequired;
        return;
      }
      var request := RequestFor(todo, TodoFields(title, description, dueDate, dueTime));
      calls := calls + [Send(request)];
      match settled {
        case Resolved =>
          title, description, dueDate, dueTime := "", "", "", "";
          calls := calls + [Succeeded];
        case Rejected(e) =>
          error := CaughtMessage(e, SaveFailed);
      }
    }
  }
}
