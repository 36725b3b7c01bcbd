/** The list of a todo's extra information in components/todos/MetadataDisplay.tsx: one row per
    entry with an icon, the label and the value, a quick-action button (call, open the link,
    open the address in a map search) for everything but notes, and edit and delete buttons for
    the todo's owner. Deleting asks for confirmation, marks the row while the store works and
    alerts when the store refuses. The browser's `confirm`, `alert`, `location.href` and
    `window.open` are outside the model: their answers are parameters and their calls are
    recorded. */
module MetadataDisplays {
  import opened Wrappers
  import opened JsText
  import opened Forms
  import opened Metadata
  import opened Uri

  /** The translated strings the list shows; an empty one falls back to English. */
  datatype DisplayStrings = DisplayStrings(call: string, open: string, openMaps: string, edit: string,
                                           delete: string, loading: string, empty: string,
                                           confirmDelete: string, deleteError: string)

  // ---------------------------------------------------------------------------------------
  // Quick actions

  /** What a quick action does: send the page to an address, or open one in a new tab. */
  datatype QuickAction = Navigate(href: string) | OpenTab(url: string)

  const TelScheme: string := "tel:"
  const MapsSearch: string := "https://www.google.com/maps/search/?api=1&query="

  /** The address a phone entry dials: the value after `tel:`, as it is. */
  function TelUrl(v: string): (u: string)
    ensures StartsWith(u, TelScheme) && u[|TelScheme|..] == v
  {
    TelScheme + v
  }

  /** The address a link entry opens: the value when it starts with `http`, otherwise the
      value after `https://`. Either way the address starts with `http` and ends with the
      value. */
  function LinkUrl(v: string): (u: string)
    ensures StartsWith(u, "http")
    ensures |v| <= |u| && u[|u| - |v|..] == v
  {
    if StartsWith(v, "http") then v else "https://" + v
  }

  /** A link that already is an address is opened as it is, so an address is never prefixed
      twice. */
  lemma LinkUrlIdempotent(v: string)
    ensures LinkUrl(LinkUrl(v)) == LinkUrl(v)
    ensures StartsWith(v, "http") <==> LinkUrl(v) == v
  {
    if !StartsWith(v, "http") {
      assert |LinkUrl(v)| > |v|;
    }
  }

  /** The map search for an address: the value, through `encodeURIComponent`, as the last query
      parameter. */
  function MapsUrl(v: string): (u: string)
    ensures StartsWith(u, MapsSearch)
    ensures forall i | |MapsSearch| <= i < |u| :: IsUnreserved(u[i]) || u[i] == '%'
  {
    MapsSearch + EncodeURIComponent(v)
  }

  /** No character of an address can end the `query` parameter or start a fragment, and the
      map service reads the query back as the address's own UTF-8 bytes. */
  lemma MapsQueryIsTheAddress(v: string)
    ensures var q := MapsUrl(v)[|MapsSearch|..];
      q == EncodeURIComponent(v)
      && (forall i | 0 <= i < |q| :: q[i] != '&' && q[i] != '#' && q[i] != ' ')
      && PercentDecode(q) == Utf8Of(v)
  {
    var e := EncodeURIComponent(v);
    assert MapsUrl(v) == MapsSearch + e;
    assert MapsUrl(v)[|MapsSearch|..] == e;
    EncodedHasNoDelimiters(v);
    DecodeEncode(v);
  }

  /** `handleQuickAction`: a phone number is dialled in the page, a link and an address are
      opened in a new tab, and a note does nothing. */
  function QuickActionOf(m: TodoMetadata): (a: Option<QuickAction>)
    ensures a.None? <==> m.kind == Note
  {
    match m.kind
    case Phone => Some(Navigate(TelUrl(m.value)))
    case Link => Some(OpenTab(LinkUrl(m.value)))
    case Address => Some(OpenTab(MapsUrl(m.value)))
    case Note => None
  }

  /** Each quick action goes where its type says: `tel:` with the number, an `http` address
      ending with the link, or the map search for the address. */
  lemma QuickActionTargets(m: TodoMetadata)
    ensures m.kind == Phone ==> QuickActionOf(m) == Some(Navigate(TelUrl(m.value)))
                                && StartsWith(TelUrl(m.value), TelScheme)
    ensures m.kind == Link ==> QuickActionOf(m).Some? && QuickActionOf(m).value.OpenTab?
                               && StartsWith(QuickActionOf(m).value.url, "http")
    ensures m.kind == Address ==> QuickActionOf(m).Some? && QuickActionOf(m).value.OpenTab?
                                  && StartsWith(QuickActionOf(m).value.url, MapsSearch)
  {
  }

  // ---------------------------------------------------------------------------------------
  // Icons and labels, by the type's name

  /** `getIcon`. */
  function Icon(typeName: string): string {
    if typeName == "phone" then "📞"
    else if typeName == "link" then "🔗"
    else if typeName == "address" then "📍"
    else if typeName == "note" then "📝"
    else "📄"
  }

  /** `getActionLabel`: the translated verb of a quick action, empty for a note or an unknown
      type. */
  function ActionLabel(typeName: string, t: DisplayStrings): string {
    if typeName == "phone" then OrElse(t.call, "Call")
    else if typeName == "link" then OrElse(t.open, "Open")
    else if typeName == "address" then OrElse(t.openMaps, "Open Maps")
    else ""
  }

  /** The four types get four different icons, none of them the fallback; exactly the types
      with a quick action get a button label. */
  lemma IconsAndLabels(k: MetadataType, k': MetadataType, t: DisplayStrings)
    ensures Icon(TypeName(k)) != "📄"
    ensures k != k' ==> Icon(TypeName(k)) != Icon(TypeName(k'))
    ensures ActionLabel(TypeName(k), t) != "" <==> k != Note
  {
  }

  // ---------------------------------------------------------------------------------------
  // The rows

  /** The delete button: disabled and showing `...` while that entry is being deleted. */
  datatype DeleteButton = DeleteButton(disabled: bool, text: string)

  /** One row as shown. */
  datatype RowView = RowView(icon: string, labelLine: Option<string>, value: string,
                             quickButton: Option<string>, editButton: bool,
                             deleteButton: Option<DeleteButton>)

  /** The whole list: a loading line, the empty-list line, or the rows. */
  datatype ListView = Loading(message: string) | Empty(message: string) | Rows(rows: seq<RowView>)

  /** The row of an entry, given who looks, whether an `onEdit` handler was passed and which
      entry is being deleted. */
  function Row(m: TodoMetadata, isOwner: bool, hasOnEdit: bool, deletingId: Option<string>,
               t: DisplayStrings): RowView {
    var deleting := deletingId == Some(m.id);
    RowView(Icon(TypeName(m.kind)),
            if m.labelText.Some? && m.labelText.value != "" then m.labelText else None,
            m.value,
            if m.kind != Note then Some(ActionLabel(TypeName(m.kind), t)) else None,
            isOwner && hasOnEdit,
            if isOwner then Some(DeleteButton(deleting, if deleting then "..." else OrElse(t.delete, "Delete")))
            else None)
  }

  /** The list: loading first, then the empty line, then one row per entry in the store's
      order. */
  function List(isLoading: bool, entries: seq<TodoMetadata>, isOwner: bool, hasOnEdit: bool,
                deletingId: Option<string>, t: DisplayStrings): (v: ListView)
    ensures isLoading ==> v.Loading?
    ensures !isLoading && entries == [] ==> v.Empty?
    ensures !isLoading && entries != [] ==>
      v.Rows? && |v.rows| == |entries|
      && forall i | 0 <= i < |entries| :: v.rows[i] == Row(entries[i], isOwner, hasOnEdit, deletingId, t)
  {
    if isLoading then Loading(OrElse(t.loading, "Loading..."))
    else if entries == [] then Empty(OrElse(t.empty, "No additional information yet"))
    else Rows(seq(|entries|, i requires 0 <= i < |entries| => Row(entries[i], isOwner, hasOnEdit, deletingId, t)))
  }

  /** Who sees which control: a quick action on every entry but a note, a labelled one; edit
      only for the owner and only with a handler; delete only for the owner, disabled exactly
      on the entry being deleted, showing `...` there and the delete text elsewhere; the label
      line only for a label that is set and not empty. */
  lemma RowControls(m: TodoMetadata, isOwner: bool, hasOnEdit: bool, deletingId: Option<string>,
                    t: DisplayStrings)
    ensures var r := Row(m, isOwner, hasOnEdit, deletingId, t);
      (r.quickButton.Some? <==> m.kind != Note)
      && (r.quickButton.Some? ==> r.quickButton.value != "")
      && (r.editButton <==> isOwner && hasOnEdit)
      && (r.deleteButton.Some? <==> isOwner)
      && (r.deleteButton.Some? ==>
            (r.deleteButton.value.disabled <==> deletingId == Some(m.id))
            && (r.deleteButton.value.disabled ==> r.deleteButton.value.text == "...")
            && (!r.deleteButton.value.disabled ==> r.deleteButton.value.text == OrElse(t.delete, "Delete")))
      && (r.labelLine.Some? <==> m.labelText.Some? && m.labelText.value != "")
      && r.value == m.value
  {
  }

  // ---------------------------------------------------------------------------------------
  // Deleting

  /** What a delete does outside the component, in order. */
  datatype Call = Confirm(message: string) | DeleteMetadata(id: string, todoId: string) | Alert(message: string)

  datatype DeleteState = DeleteState(deletingId: Option<string>, calls: seq<Call>)

  /** `handleDelete` up to the `await`: ask, and when the user agrees mark the entry and send
      the delete. `confirmed` is the user's answer. */
  function BeginDelete(todoId: string, t: DisplayStrings, s: DeleteState, id: string, confirmed: bool): DeleteState {
    var asked := s.calls + [Confirm(OrElse(t.confirmDelete, "Delete this metadata?"))];
    if confirmed then DeleteState(Some(id), asked + [DeleteMetadata(id, todoId)])
    else DeleteState(s.deletingId, asked)
  }

  /** `handleDelete` after the `await`: alert when the store refuses, and in any case unmark. */
  function FinishDelete(t: DisplayStrings, s: DeleteState, settled: Settled): DeleteState {
    var alerted := if settled.Rejected? then s.calls + [Alert(OrElse(t.deleteError, "Failed to delete metadata"))]
                   else s.calls;
    DeleteState(None, alerted)
  }

  /** A delete is sent only after the user agreed, and always for the entry asked about, which
      is then marked; a refusal changes nothing but the question asked. */
  lemma DeleteNeedsConfirmation(todoId: string, t: DisplayStrings, s: DeleteState, id: string, confirmed: bool)
    ensures var s' := BeginDelete(todoId, t, s, id, confirmed);
      s'.calls[..|s.calls|] == s.calls && s'.calls[|s.calls|].Confirm?
      && (confirmed <==> |s'.calls| == |s.calls| + 2)
      && (confirmed ==> s'.calls[|s.calls| + 1] == DeleteMetadata(id, todoId) && s'.deletingId == Some(id))
      && (!confirmed ==> s'.deletingId == s.deletingId)
  {
  }

  /** However the store answers, no entry stays marked; an alert is shown exactly when it
      refuses, with the fixed message rather than the error's. */
  lemma FinishUnmarks(t: DisplayStrings, s: DeleteState, settled: Settled)
    ensures var s' := FinishDelete(t, s, settled);
      s'.deletingId.None? && s'.calls[..|s.calls|] == s.calls
      && (settled.Rejected? <==> |s'.calls| == |s.calls| + 1)
      && (settled.Rejected? ==> s'.calls[|s.calls|] == Alert(OrElse(t.deleteError, "Failed to delete metadata")))
  {
  }

  /** The component's delete state. */
  class MetadataDisplay {
    const todoId: string
    const t: DisplayStrings
    var deletingId: Option<string>
    /** The confirmations, deletes and alerts, in order. */
    var calls: seq<Call>

    function State(): DeleteState
      reads this
    {
      DeleteState(deletingId, calls)
    }

    constructor (todoId: string, t: DisplayStrings)
      ensures this.todoId == todoId && this.t == t && State() == DeleteState(None, [])
    {
      this.todoId, this.t := todoId, t;
      deletingId, calls := None, [];
    }

    /** The entry is chosen and the question answered. */
    method HandleDelete(id: string, confirmed: bool)
      modifies this
      ensures State() == BeginDelete(todoId, t, old(State()), id, confirmed)
    {
      calls := calls + [Confirm(OrElse(t.confirmDelete, "Delete this metadata?"))];
      if !confirmed {
        return;
      }
      deletingId := Some(id);
      calls := calls + [DeleteMetadata(id, todoId)];
    }

    /** The delete settles. */
    method DeleteSettled(settled: Settled)
      modifies this
      ensures State() == FinishDelete(t, old(State()), settled)
    {
      if settled.Rejected? {
        calls := calls + [Alert(OrElse(t.deleteError, "Failed to delete metadata"))];
      }
      deletingId := None;
    }
  }
}
