/** The checklist item form of components/todos/ChecklistForm.tsx: one text input, required
    after trimming; the submit adds an item to the todo or updates the item being edited, and
    clears the text once the store has accepted it. */
module ChecklistForms {
  import opened Wrappers
  import opened JsText
  import opened Forms

  /** The fields of a checklist item (lib/hooks/useChecklist.ts) that the form reads. */
  datatype ChecklistItem = ChecklistItem(id: string, todoId: string, text: string, completed: bool,
                                         position: int)

  /** The translated strings the form shows; an empty one falls back to English. */
  datatype ChecklistStrings = ChecklistStrings(textRequired: string, saveError: string)

  datatype FormState = FormState(text: string, error: string)

  /** What the form sends to the store. */
  datatype ItemRequest =
    | AddItem(todoId: string, text: string)
    | UpdateItem(id: string, todoId: string, text: string)

  /** What the submit does, in order: send a request, call `onSuccess`. */
  datatype Call = Send(request: ItemRequest) | Succeeded

  datatype SubmitResult = SubmitResult(state: FormState, calls: seq<Call>)

  /** `t.todos.checklist.textRequired || 'Text is required'`. */
  function TextRequired(t: ChecklistStrings): (m: string)
    ensures m != ""
  {
    OrElse(t.textRequired, "Text is required")
  }

  /** `t.todos.checklist.saveError || 'Failed to save'`. */
  function SaveFailed(t: ChecklistStrings): (m: string)
    ensures m != ""
  {
    OrElse(t.saveError, "Failed to save")
  }

  /** The text starts as the edited item's (`editingItem?.text || ''`). */
  function InitialText(editing: Option<ChecklistItem>): (s: string)
    ensures editing.Some? ==> s == editing.value.text
    ensures editing.None? ==> s == ""
  {
    match editing
    case Some(item) => item.text
    case None => ""
  }

  /** The request for a non-blank text: an update of the edited item, or a new item. */
  function RequestFor(todoId: string, editing: Option<ChecklistItem>, text: string): ItemRequest {
    match editing
    case Some(item) => UpdateItem(item.id, todoId, Trim(text))
    case None => AddItem(todoId, Trim(text))
  }

  /** `handleSubmit`, with `settled` saying how the mutation settles. */
  function Submit(todoId: string, editing: Option<ChecklistItem>, t: ChecklistStrings, s: FormState,
                  settled: Settled): SubmitResult {
    if Trim(s.text) == "" then SubmitResult(FormState(s.text, TextRequired(t)), [])
    else
      var request := RequestFor(todoId, editing, s.text);
      match settled
      case Resolved => SubmitResult(FormState("", ""), [Send(request), Succeeded])
      case Rejected(e) => SubmitResult(FormState(s.text, CaughtMessage(e, SaveFailed(t))), [Send(request)])
  }

  /** A blank text is refused with the text-required message and nothing is sent; otherwise
      one request goes out, carrying the trimmed text, and it updates the edited item by its id
      or adds a new item to the todo. */
  lemma TextIsRequired(todoId: string, editing: Option<ChecklistItem>, t: ChecklistStrings, s: FormState,
                       settled: Settled)
    ensures var r := Submit(todoId, editing, t, s, settled);
      (r.calls == [] <==> IsBlank(s.text))
      && (IsBlank(s.text) ==> r.state == FormState(s.text, TextRequired(t)))
    ensures var r := Submit(todoId, editing, t, s, settled);
      !IsBlank(s.text) ==>
        r.calls[0].Send? && forall i | 1 <= i < |r.calls| :: !r.calls[i].Send?
    ensures var q := RequestFor(todoId, editing, s.text);
      !IsBlank(s.text) ==>
        q.text == Trim(s.text) && q.text != "" && !IsWhiteSpace(q.text[0]) && !IsWhiteSpace(q.text[|q.text| - 1])
        && q.todoId == todoId
        && (q.UpdateItem? <==> editing.Some?) && (editing.Some? ==> q.id == editing.value.id)
  {
    TrimEmptyIffBlank(s.text);
    TrimShape(s.text);
  }

  /** The text is cleared, and `onSuccess` runs, exactly when the store accepts; a rejection
      shows its message and keeps the text. */
  lemma ResetOnlyOnSuccess(todoId: string, editing: Option<ChecklistItem>, t: ChecklistStrings, s: FormState,
                           settled: Settled)
    requires !IsBlank(s.text)
    ensures var r := Submit(todoId, editing, t, s, settled);
      (Succeeded in r.calls <==> settled.Resolved?)
      && (settled.Resolved? ==> r.state == FormState("", "") && r.calls[|r.calls| - 1] == Succeeded)
      && (settled.Rejected? ==> r.state == FormState(s.text, CaughtMessage(settled.thrown, SaveFailed(t))))
  {
    TrimEmptyIffBlank(s.text);
  }

  /** Submitting an item's own trimmed text unchanged sends that text back. */
  lemma UnchangedEditSendsSameText(todoId: string, item: ChecklistItem)
    requires item.text != [] && !IsWhiteSpace(item.text[0]) && !IsWhiteSpace(item.text[|item.text| - 1])
    ensures RequestFor(todoId, Some(item), InitialText(Some(item))) == UpdateItem(item.id, todoId, item.text)
  {
    TrimOfTrimmed(item.text);
  }

  /** The form. */
  class ChecklistForm {
    const todoId: string
    const t: ChecklistStrings
    /** The `editingItem` prop, which the parent may change. */
    var editing: Option<ChecklistItem>
    var text: string
    var error: string
    var calls: seq<Call>

    function State(): FormState
      reads this
    {
      FormState(text, error)
    }

    constructor (todoId: string, editing: Option<ChecklistItem>, t: ChecklistStrings)
      ensures this.todoId == todoId && this.editing == editing && this.t == t
      ensures State() == FormState(InitialText(editing), "") && calls == []
    {
      this.todoId, this.editing, this.t := todoId, editing, t;
      text := if editing.Some? then editing.value.text else "";
      error := "";
      calls := [];
    }

    /** The effect on `editingItem`: a new item to edit replaces the text with its own; clearing
        the prop leaves the text. */
    method EditingChanged(item: Option<ChecklistItem>)
      modifies this
      ensures editing == item && calls == old(calls) && error == old(error)
      ensures text == if item.Some? then item.value.text else old(text)
    {
      editing := item;
      if item.Some? {
        text := item.value.text;
      }
    }

    method EditText(s: string)
      modifies this
      ensures State() == old(State()).(text := s) && editing == old(editing) && calls == old(calls)
    {
      text := s;
    }

    /** `handleSubmit`. */
    method HandleSubmit(settled: Settled)
      modifies this
      ensures var r := Submit(todoId, editing, t, old(State()), settled);
        State() == r.state && calls == old(calls) + r.calls && editing == old(editing)
    {
      error := "";
      if Trim(text) == "" {
        error := TextRequired(t);
        return;
      }
      calls := calls + [Send(RequestFor(todoId, editing, text))];
      match settled {
        case Resolved =>
          text := "";
          calls := calls + [Succeeded];
        case Rejected(e) =>
          error := CaughtMessage(e, SaveFailed(t));
      }
    }
  }
}
