/** The form of components/todos/MetadataForm.tsx that adds a piece of information to a todo
    or edits one: a type (chosen only when adding), an optional label and a required value.
    The submit checks the value (required, then the phone or link format), sends the trimmed
    value and label, and resets the form to an empty phone entry once the store accepts. */
module MetadataForms {
  import opened Wrappers
  import opened JsText
  import opened Forms
  import opened Metadata

  /** The translated messages the submit may show; an empty one falls back to English. */
  datatype MetadataStrings = MetadataStrings(valueRequired: string, invalidPhone: string,
                                             invalidLink: string, saveError: string)

  /** The inputs. */
  datatype MetadataFields = MetadataFields(kind: MetadataType, labelText: string, value: string)

  datatype FormState = FormState(fields: MetadataFields, error: string)

  /** What the form sends to the store; an update carries no type. */
  datatype MetadataRequest =
    | AddMetadata(todoId: string, kind: MetadataType, labelText: Option<string>, value: string)
    | UpdateMetadata(id: string, todoId: string, labelText: Option<string>, value: string)

  /** What the submit does, in order: send a request, call `onSuccess`. */
  datatype Call = Send(request: MetadataRequest) | Succeeded

  datatype SubmitResult = SubmitResult(state: FormState, calls: seq<Call>)

  const ResetFields := MetadataFields(Phone, "", "")

  /** A character the phone pattern `[\d\s\-\(\)\+]` admits: an ASCII digit, white space (the
      same set `trim` removes), `-`, `(`, `)` or `+`. */
  predicate IsPhoneChar(c: char) {
    ('0' <= c <= '9') || IsWhiteSpace(c) || c == '-' || c == '(' || c == ')' || c == '+'
  }

  /** `/^[\d\s\-\(\)\+]+$/.test(s)`: one or more phone characters and nothing else. */
  predicate IsPhoneText(s: string) {
    s != [] && forall i | 0 <= i < |s| :: IsPhoneChar(s[i])
  }

  /** `s.includes('.')`. */
  predicate HasDot(s: string) {
    '.' in s
  }

  /** The inputs start from the edited entry (`editingMetadata?.type || 'phone'`,
      `editingMetadata?.label || ''`, `editingMetadata?.value || ''`), or an empty phone entry;
      the effect on `editingMetadata` sets the same values. */
  function FieldsOf(editing: Option<TodoMetadata>): (f: MetadataFields)
    ensures editing.None? ==> f == ResetFields
    ensures editing.Some? ==>
      f == MetadataFields(editing.value.kind, editing.value.labelText.GetOr(""), editing.value.value)
  {
    match editing
    case None => ResetFields
    case Some(m) => MetadataFields(m.kind, m.labelText.GetOr(""), m.value)
  }

  /** The first check the value fails, in the order required, phone format, link format, as
      the message shown; `None` when it passes them all. */
  function Problem(f: MetadataFields, t: MetadataStrings): Option<string> {
    if Trim(f.value) == "" then Some(OrElse(t.valueRequired, "Value is required"))
    else if f.kind == Phone && !IsPhoneText(f.value) then Some(OrElse(t.invalidPhone, "Invalid phone number format"))
    else if f.kind == Link && !HasDot(f.value) then Some(OrElse(t.invalidLink, "Invalid link format"))
    else None
  }

  /** The request for values that pass the checks: the value trimmed, the label trimmed or left
      out when blank; an update of the edited entry, which leaves its type alone, or a new entry
      of the chosen type. */
  function RequestFor(todoId: string, editing: Option<TodoMetadata>, f: MetadataFields): MetadataRequest {
    match editing
    case Some(m) => UpdateMetadata(m.id, todoId, TrimmedOrUndefined(f.labelText), Trim(f.value))
    case None => AddMetadata(todoId, f.kind, TrimmedOrUndefined(f.labelText), Trim(f.value))
  }

  /** `handleSubmit`, with `settled` saying how the mutation settles. */
  function Submit(todoId: string, editing: Option<TodoMetadata>, t: MetadataStrings, s: FormState,
                  settled: Settled): SubmitResult {
    match Problem(s.fields, t)
    case Some(message) => SubmitResult(FormState(s.fields, message), [])
    case None =>
      var request := RequestFor(todoId, editing, s.fields);
      match settled
      case Resolved => SubmitResult(FormState(ResetFields, ""), [Send(request), Succeeded])
      case Rejected(e) =>
        SubmitResult(FormState(s.fields, CaughtMessage(e, OrElse(t.saveError, "Failed to save"))), [Send(request)])
  }

  /** The checks: a value passes exactly when it is not blank, a phone number is made of phone
      characters only and a link has a dot; addresses and notes are only required. The first
      check failed decides the one message shown. */
  lemma ChecksInOrder(f: MetadataFields, t: MetadataStrings)
    ensures Problem(f, t).None?
        <==> !IsBlank(f.value) && (f.kind == Phone ==> IsPhoneText(f.value)) && (f.kind == Link ==> HasDot(f.value))
    ensures IsBlank(f.value) ==> Problem(f, t) == Some(OrElse(t.valueRequired, "Value is required"))
    ensures !IsBlank(f.value) && f.kind == Phone && !IsPhoneText(f.value) ==>
              Problem(f, t) == Some(OrElse(t.invalidPhone, "Invalid phone number format"))
    ensures !IsBlank(f.value) && f.kind == Link && !HasDot(f.value) ==>
              Problem(f, t) == Some(OrElse(t.invalidLink, "Invalid link format"))
    ensures f.kind == Address || f.kind == Note ==> (Problem(f, t).None? <==> !IsBlank(f.value))
  {
    TrimEmptyIffBlank(f.value);
  }

  /** The placeholder of the phone input passes the phone check; letters do not. */
  lemma PhoneExamples()
    ensures IsPhoneText("+1 (555) 123-4567")
    ensures !IsPhoneText("555-CALL")
  {
    assert !IsPhoneChar("555-CALL"[4]);
  }

  /** A value that fails a check sends nothing and keeps the inputs; one that passes sends one
      request, with the trimmed value and label. */
  lemma SubmitSendsChecked(todoId: string, editing: Option<TodoMetadata>, t: MetadataStrings, s: FormState,
                           settled: Settled)
    ensures var r := Submit(todoId, editing, t, s, settled);
      (r.calls == [] <==> Problem(s.fields, t).Some?)
      && (Problem(s.fields, t).Some? ==> r.state == FormState(s.fields, Problem(s.fields, t).value))
    ensures var q := RequestFor(todoId, editing, s.fields);
      Problem(s.fields, t).None? ==>
        q.value == Trim(s.fields.value) && q.value != ""
        && (q.labelText.None? <==> IsBlank(s.fields.labelText))
        && (q.labelText.Some? ==> q.labelText.value == Trim(s.fields.labelText))
        && q.todoId == todoId
        && (q.UpdateMetadata? <==> editing.Some?) && (editing.Some? ==> q.id == editing.value.id)
        && (editing.None? ==> q.kind == s.fields.kind)
  {
    TrimEmptyIffBlank(s.fields.value);
    TrimmedOrUndefinedBlank(s.fields.labelText);
  }

  /** The type is fixed once an entry exists: the update sent is the same whatever the type
      input holds. */
  lemma UpdateIgnoresType(todoId: string, m: TodoMetadata, f: MetadataFields, k: MetadataType)
    ensures RequestFor(todoId, Some(m), f) == RequestFor(todoId, Some(m), f.(kind := k))
    ensures RequestFor(todoId, Some(m), f).UpdateMetadata?
  {
  }

  /** The form resets to an empty phone entry, and `onSuccess` runs, exactly when the store
      accepts; a rejection shows its message and keeps the inputs. */
  lemma ResetOnlyOnSuccess(todoId: string, editing: Option<TodoMetadata>, t: MetadataStrings, s: FormState,
                           settled: Settled)
    requires Problem(s.fields, t).None?
    ensures var r := Submit(todoId, editing, t, s, settled);
      (Succeeded in r.calls <==> settled.Resolved?)
      && (settled.Resolved? ==> r.state == FormState(ResetFields, "") && r.calls[|r.calls| - 1] == Succeeded)
      && (settled.Rejected? ==> r.state.fields == s.fields)
  {
  }

  /** The form. */
  class MetadataForm {
    const todoId: string
    const t: MetadataStrings
    /** The `editingMetadata` prop, which the parent may change. */
    var editing: Option<TodoMetadata>
    var kind: MetadataType
    var labelText: string
    var value: string
    var error: string
    var calls: seq<Call>

    function State(): FormState
      reads this
    {
      FormState(MetadataFields(kind, labelText, value), error)
    }

    constructor (todoId: string, editing: Option<TodoMetadata>, t: MetadataStrings)
      ensures this.todoId == todoId && this.editing == editing && this.t == t
      ensures State() == FormState(FieldsOf(editing), "") && calls == []
    {
      this.todoId, this.editing, this.t := todoId, editing, t;
      kind := if editing.Some? then editing.value.kind else Phone;
      labelText := if editing.Some? && editing.value.labelText.Some? then editing.value.labelText.value else "";
      value := if editing.Some? then editing.value.value else "";
      error := "";
      calls := [];
    }

    /** The effect on `editingMetadata`: a new entry to edit fills the inputs from it; clearing
        the prop leaves them. */
    method EditingChanged(item: Option<TodoMetadata>)
      modifies this
      ensures editing == item && calls == old(calls) && error == old(error)
      ensures State().fields == if item.Some? then FieldsOf(item) else old(State().fields)
    {
      editing := item;
      if item.Some? {
        kind := item.value.kind;
        labelText := if item.value.labelText.Some? then item.value.labelText.value else "";
        value := item.value.value;
      }
    }

    /** A type button; the buttons are shown only while adding. */
    method SelectType(k: MetadataType)
      requires editing.None?
      modifies this
      ensures State() == old(State()).(fields := old(State().fields).(kind := k))
      ensures editing == old(editing) && calls == old(calls)
    {
      kind := k;
    }

    method EditLabel(s: string)
      modifies this
      ensures State() == old(State()).(fields := old(State().fields).(labelText := s))
      ensures editing == old(editing) && calls == old(calls)
    {
      labelText := s;
    }

    method EditValue(s: string)
      modifies this
      ensures State() == old(State()).(fields := old(State().fields).(value := s))
      ensures editing == old(editing) && calls == old(calls)
    {
      value := s;
    }

    /** `handleSubmit`. */
    method HandleSubmit(settled: Settled)
      modifies this
      ensures var r := Submit(todoId, editing, t, old(State()), settled);
        State() == r.state && calls == old(calls) + r.calls && editing == old(editing)
    {
      error := "";
      var problem := Problem(MetadataFields(kind, labelText, value), t);
      if problem.Some? {
        error := problem.value;
        return;
      }
      calls := calls + [Send(RequestFor(todoId, editing, MetadataFields(kind, labelText, value)))];
      match settled {
        case Resolved =>
          labelText, value, kind := "", "", Phone;
          calls := calls + [Succeeded];
        case Rejected(e) =>
          error := CaughtMessage(e, OrElse(t.saveError, "Failed to save"));
      }
    }
  }
}
