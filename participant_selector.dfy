/** The sharing panel of components/todos/ParticipantSelector.tsx: the todo's participants with
    their roles, and for the todo's owner a search for people to add, a role switch and a remove
    button on everyone else. The participants and the search results come from the store and
    are parameters; the mutations the handlers send are recorded, and how each settles is a
    parameter. */
module ParticipantSelectors {
  import opened Wrappers
  import opened Forms
  import opened Sequences

  /** A participant's role (`'owner' | 'viewer'`); an owner participant may edit. */
  datatype Role = Owner | Viewer

  /** A row of the participants query (lib/hooks/useParticipants.ts): `displayName` is the
      joined profile's name, `None` when the profile or its name is missing. */
  datatype Participant = Participant(id: string, userId: string, role: Role, displayName: Option<string>)

  /** A search result. */
  datatype UserProfile = UserProfile(id: string, displayName: Option<string>)

  // ---------------------------------------------------------------------------------------
  // Roles and the available users

  /** `handleToggleRole`'s new role: an owner becomes a viewer, anyone else an owner. */
  function ToggleRole(r: Role): (r': Role)
    ensures r' != r
  {
    if r == Owner then Viewer else Owner
  }

  /** Switching twice gives the role back. */
  lemma ToggleRoleInvolution(r: Role)
    ensures ToggleRole(ToggleRole(r)) == r
  {
  }

  /** `participants.map((p) => p.user_id)`. */
  function ParticipantIds(ps: seq<Participant>): (ids: seq<string>)
    ensures |ids| == |ps| && forall i | 0 <= i < |ps| :: ids[i] == ps[i].userId
  {
    seq(|ps|, i requires 0 <= i < |ps| => ps[i].userId)
  }

  /** `searchResults.filter((u) => !participantIds.includes(u.id))`. */
  function AvailableUsers(results: seq<UserProfile>, ids: seq<string>): (r: seq<UserProfile>)
    ensures |r| <= |results|
    ensures forall i | 0 <= i < |r| :: r[i] in results && r[i].id !in ids
    decreases |results|
  {
    if results == [] then []
    else if results[0].id in ids then AvailableUsers(results[1..], ids)
    else [results[0]] + AvailableUsers(results[1..], ids)
  }

  /** The available users are exactly the search results who are not yet participants, in the
      order the search returned them. */
  lemma {:induction false} AvailableUsersAreTheOthers(results: seq<UserProfile>, ps: seq<Participant>)
    ensures var r := AvailableUsers(results, ParticipantIds(ps));
      IsSubsequence(r, results)
      && forall u | u in results :: (u in r <==> forall p | p in ps :: p.userId != u.id)
  {
    var ids := ParticipantIds(ps);
    AvailableKeepsOrder(results, ids);
    forall u | u in results
      ensures u in AvailableUsers(results, ids) <==> forall p | p in ps :: p.userId != u.id
    {
      AvailableHasEveryOther(results, ids, u);
      if u.id in ids {
        var i :| 0 <= i < |ids| && ids[i] == u.id;
        assert ps[i] in ps && ps[i].userId == u.id;
      } else {
        forall p | p in ps ensures p.userId != u.id {
          var i :| 0 <= i < |ps| && ps[i] == p;
          assert ids[i] == p.userId;
        }
      }
    }
  }

  /** The filter keeps the search results' order. */
  lemma {:induction false} AvailableKeepsOrder(results: seq<UserProfile>, ids: seq<string>)
    ensures IsSubsequence(AvailableUsers(results, ids), results)
    decreases |results|
  {
    if results != [] {
      AvailableKeepsOrder(results[1..], ids);
      var r := AvailableUsers(results, ids);
      if results[0].id !in ids {
        assert r[0] == results[0] && r[1..] == AvailableUsers(results[1..], ids);
      }
    }
  }

  /** A search result is offered exactly when it is not a participant. */
  lemma {:induction false} AvailableHasEveryOther(results: seq<UserProfile>, ids: seq<string>, u: UserProfile)
    requires u in results
    ensures u in AvailableUsers(results, ids) <==> u.id !in ids
    decreases |results|
  {
    if results[0] != u {
      AvailableHasEveryOther(results[1..], ids, u);
    } else if results[0].id !in ids {
      assert AvailableUsers(results, ids)[0] == u;
    }
  }

  // ---------------------------------------------------------------------------------------
  // What is shown

  /** The search block: the people who can be added, and whether "No users found" shows. */
  datatype SearchView = SearchView(candidates: seq<UserProfile>, noUsersFound: bool)

  /** A participant's row: the name (or "Unknown User" for a missing or empty one), the "(You)" marker, the role line and,
      when present, the text of the role switch. */
  datatype ParticipantRow = ParticipantRow(name: string, isYou: bool, roleText: string,
                                           roleSwitch: Option<string>)

  datatype PanelView = PanelView(count: nat, addButton: Option<string>, search: Option<SearchView>,
                                 rows: seq<ParticipantRow>, notSharedLine: bool)

  function RoleText(r: Role): string {
    if r == Owner then "Can edit" else "View only"
  }

  function RoleSwitchText(r: Role): string {
    if r == Owner then "Make viewer" else "Make editor"
  }

  /** `participant.user_id === user?.id`: with no signed-in user nobody is "you". */
  predicate IsCurrentUser(p: Participant, currentUser: Option<string>) {
    currentUser == Some(p.userId)
  }

  function RowOf(p: Participant, isOwner: bool, currentUser: Option<string>): ParticipantRow {
    ParticipantRow(OrElse(p.displayName.GetOr(""), "Unknown User"), IsCurrentUser(p, currentUser), RoleText(p.role),
                   if isOwner && !IsCurrentUser(p, currentUser) then Some(RoleSwitchText(p.role)) else None)
  }

  /** The panel for a query, the search flag, the participants and the search results.
      `queryLength` is the JavaScript length of the query. */
  function Panel(isOwner: bool, currentUser: Option<string>, showSearch: bool, queryLength: nat,
                 ps: seq<Participant>, results: seq<UserProfile>): (v: PanelView)
    ensures v.count == |ps| && |v.rows| == |ps|
    ensures v.addButton.Some? <==> isOwner
    ensures v.search.Some? <==> showSearch && isOwner
  {
    var available := AvailableUsers(results, ParticipantIds(ps));
    PanelView(|ps|,
              if isOwner then Some(if showSearch then "Cancel" else "+ Add Person") else None,
              if showSearch && isOwner then Some(SearchView(available, queryLength >= 2 && available == []))
              else None,
              seq(|ps|, i requires 0 <= i < |ps| => RowOf(ps[i], isOwner, currentUser)),
              ps == [])
  }

  /** Only the owner can change anything, and never their own row: a row has the role switch
      and the remove button exactly when the viewer owns the todo and the row is someone
      else's. The switch names the role the participant would get. Every row shows a name, the
      participant's own when it has one; "(You)" marks exactly the signed-in user's row, and
      "Can edit" exactly an owner participant. The search offers the available users. "No users found" shows
      exactly when the search is open, the query has at least two characters and nobody is
      left to add. */
  lemma PanelRules(isOwner: bool, currentUser: Option<string>, showSearch: bool, queryLength: nat,
                   ps: seq<Participant>, results: seq<UserProfile>)
    ensures var v := Panel(isOwner, currentUser, showSearch, queryLength, ps, results);
      (forall i | 0 <= i < |ps| ::
         (v.rows[i].roleSwitch.Some? <==> isOwner && currentUser != Some(ps[i].userId))
         && (v.rows[i].roleSwitch.Some? ==>
               v.rows[i].roleSwitch.value == (if ToggleRole(ps[i].role) == Viewer then "Make viewer" else "Make editor"))
         && v.rows[i].name != ""
         && (ps[i].displayName.Some? && ps[i].displayName.value != "" ==> v.rows[i].name == ps[i].displayName.value)
         && (v.rows[i].isYou <==> currentUser == Some(ps[i].userId))
         && (v.rows[i].roleText == "Can edit" <==> ps[i].role == Owner))
      && (v.search.Some? ==> v.search.value.candidates == AvailableUsers(results, ParticipantIds(ps)))
      && ((v.search.Some? && v.search.value.noUsersFound)
          <==> showSearch && isOwner && queryLength >= 2 && AvailableUsers(results, ParticipantIds(ps)) == [])
      && (v.notSharedLine <==> ps == [])
  {
  }

  // ---------------------------------------------------------------------------------------
  // The handlers

  /** What the handlers send, in order. */
  datatype Call =
    | AddParticipant(todoId: string, userId: string, role: Role)
    | ConfirmRemove(message: string)
    | RemoveParticipant(todoId: string, userId: string)
    | UpdateRole(todoId: string, userId: string, role: Role)

  datatype SelectorState = SelectorState(searchQuery: string, showSearch: bool, calls: seq<Call>)

  /** `handleAddParticipant`: add as a viewer and, once the store accepts, clear and close the
      search. A rejection propagates out of the `await`, so the search stays as it was. */
  function Add(todoId: string, s: SelectorState, userId: string, settled: Settled): SelectorState {
    var sent := s.(calls := s.calls + [AddParticipant(todoId, userId, Viewer)]);
    if settled.Resolved? then sent.(searchQuery := "", showSearch := false) else sent
  }

  /** `handleRemoveParticipant`: ask, and remove only when the user agrees. */
  function Remove(todoId: string, s: SelectorState, userId: string, confirmed: bool): SelectorState {
    var asked := s.calls + [ConfirmRemove("Remove this participant?")];
    s.(calls := if confirmed then asked + [RemoveParticipant(todoId, userId)] else asked)
  }

  /** `handleToggleRole`. */
  function SwitchRole(todoId: string, s: SelectorState, userId: string, currentRole: Role): SelectorState {
    s.(calls := s.calls + [UpdateRole(todoId, userId, ToggleRole(currentRole))])
  }

  /** Someone added is always added as a viewer; the search is cleared and closed exactly when
      the store accepts. */
  lemma AddedAsViewer(todoId: string, s: SelectorState, userId: string, settled: Settled)
    ensures var s' := Add(todoId, s, userId, settled);
      s'.calls == s.calls + [AddParticipant(todoId, userId, Viewer)]
      && (settled.Resolved? ==> s'.searchQuery == "" && !s'.showSearch)
      && (settled.Rejected? ==> s'.searchQuery == s.searchQuery && s'.showSearch == s.showSearch)
  {
  }

  /** Nobody is removed without the user agreeing, and agreeing removes exactly the one asked
      about. */
  lemma RemoveNeedsConfirmation(todoId: string, s: SelectorState, userId: string, confirmed: bool)
    ensures var s' := Remove(todoId, s, userId, confirmed);
      s'.searchQuery == s.searchQuery && s'.showSearch == s.showSearch
      && s'.calls[..|s.calls|] == s.calls
      && (forall i | |s.calls| <= i < |s'.calls| :: s'.calls[i].RemoveParticipant? ==> confirmed)
      && (confirmed ==> s'.calls[|s'.calls| - 1] == RemoveParticipant(todoId, userId))
  {
  }

  /** Pressing the switch twice on an unchanged row sends the role back. */
  lemma SwitchTwiceRestores(todoId: string, s: SelectorState, userId: string, r: Role)
    ensures var s' := SwitchRole(todoId, SwitchRole(todoId, s, userId, r), userId, ToggleRole(r));
      s'.calls == s.calls + [UpdateRole(todoId, userId, ToggleRole(r)), UpdateRole(todoId, userId, r)]
  {
    ToggleRoleInvolution(r);
  }

  /** The panel's own state. */
  class ParticipantSelector {
    const todoId: string
    var searchQuery: string
    var showSearch: bool
    var calls: seq<Call>

    function State(): SelectorState
      reads this
    {
      SelectorState(searchQuery, showSearch, calls)
    }

    constructor (todoId: string)
      ensures this.todoId == todoId && State() == SelectorState("", false, [])
    {
      this.todoId := todoId;
      searchQuery, showSearch, calls := "", false, [];
    }

    /** The "+ Add Person" / "Cancel" button. */
    method ToggleSearch()
      modifies this
      ensures State() == old(State()).(showSearch := !old(showSearch))
    {
      showSearch := !showSearch;
    }

    method EditQuery(q: string)
      modifies this
      ensures State() == old(State()).(searchQuery := q)
    {
      searchQuery := q;
    }

    method HandleAddParticipant(userId: string, settled: Settled)
      modifies this
      ensures State() == Add(todoId, old(State()), userId, settled)
    {
      calls := calls + [AddParticipant(todoId, userId, Viewer)];
      if settled.Rejected? {
        return;
      }
      searchQuery := "";
      showSearch := false;
    }

    method HandleRemoveParticipant(userId: string, confirmed: bool)
      modifies this
      ensures State() == Remove(todoId, old(State()), userId, confirmed)
    {
      calls := calls + [ConfirmRemove("Remove this participant?")];
      if confirmed {
        calls := calls + [RemoveParticipant(todoId, userId)];
      }
    }

    method HandleToggleRole(userId: string, currentRole: Role)
      modifies this
      ensures State() == SwitchRole(todoId, old(State()), userId, currentRole)
    {
      var newRole := if currentRole == Owner then Viewer else Owner;
      calls := calls + [UpdateRole(todoId, userId, newRole)];
    }
  }
}
