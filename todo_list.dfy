/** The list screen of components/todos/TodoList.tsx: the search and status filter over the
    loaded todos, the counts shown on the filter buttons, and the text shown when nothing is
    left to show. */
module TodoList {
  import opened Wrappers
  import opened JsText
  import opened Todos
  import opened Sequences

  datatype Filter = All | Active | Completed | Mine

  /** The search: the lower-cased query occurs in the lower-cased title or, when there is one,
      in the lower-cased description. */
  predicate MatchesSearch(t: Todo, query: string) {
    var q := ToLower(query);
    IsInfix(q, ToLower(t.title)) || (t.description.Some? && IsInfix(q, ToLower(t.description.value)))
  }

  /** The status filter; `user` is the signed-in user's id, if any, and with none `mine` keeps
      nothing (`created_by !== undefined`). */
  predicate PassesFilter(t: Todo, filter: Filter, user: Option<string>) {
    match filter
    case All => true
    case Active => !t.completed
    case Completed => t.completed
    case Mine => user == Some(t.createdBy)
  }

  /** The predicate `filteredTodos` passes to `filter`: an empty query matches everything. */
  predicate Keep(t: Todo, query: string, filter: Filter, user: Option<string>) {
    (query == [] || MatchesSearch(t, query)) && PassesFilter(t, filter, user)
  }

  /** `todos.filter(keep)`. */
  function FilterTodos(ts: seq<Todo>, query: string, filter: Filter, user: Option<string>): (r: seq<Todo>)
    ensures |r| <= |ts|
    ensures forall t | t in r :: t in ts && Keep(t, query, filter, user)
    decreases |ts|
  {
    if ts == [] then []
    else (if Keep(ts[0], query, filter, user) then [ts[0]] else []) + FilterTodos(ts[1..], query, filter, user)
  }

  /** `filteredTodos`: undefined while the list is undefined. */
  function FilteredTodos(todos: Option<seq<Todo>>, query: string, filter: Filter,
                         user: Option<string>): (r: Option<seq<Todo>>)
    ensures r.Some? <==> todos.Some?
    ensures r.Some? ==> r.value == FilterTodos(todos.value, query, filter, user)
  {
    match todos
    case None => None
    case Some(ts) => Some(FilterTodos(ts, query, filter, user))
  }

  /** The result holds exactly the todos that pass the predicate, in their order. */
  lemma {:induction false} FilterExactly(ts: seq<Todo>, query: string, filter: Filter, user: Option<string>)
    ensures forall t :: t in FilterTodos(ts, query, filter, user) <==> t in ts && Keep(t, query, filter, user)
    ensures IsSubsequence(FilterTodos(ts, query, filter, user), ts)
    decreases |ts|
  {
    if ts != [] {
      FilterExactly(ts[1..], query, filter, user);
      var rest := FilterTodos(ts[1..], query, filter, user);
      var r := FilterTodos(ts, query, filter, user);
      if Keep(ts[0], query, filter, user) {
        assert r == [ts[0]] + rest && r[1..] == rest;
      } else {
        assert r == rest;
      }
      forall t | t in ts
        ensures t == ts[0] || t in ts[1..]
      {
      }
    }
  }

  /** With no query and no filter, the list is shown as it is. */
  lemma {:induction false} NoFilterKeepsAll(ts: seq<Todo>, user: Option<string>)
    ensures FilterTodos(ts, [], All, user) == ts
    decreases |ts|
  {
    if ts != [] {
      NoFilterKeepsAll(ts[1..], user);
      assert [ts[0]] + ts[1..] == ts;
    }
  }
  /** Searching with a query and with its lower-cased form finds the same todos, and a todo is
      found by its own title in any letter case. */
  lemma SearchIgnoresCase(t: Todo, query: string)
    ensures MatchesSearch(t, ToLower(query)) == MatchesSearch(t, query)
    ensures MatchesSearch(t, t.title) && MatchesSearch(t, ToLower(t.title))
  {
    ToLowerIdempotent(query);
    ToLowerIdempotent(t.title);
    assert MatchesAt(ToLower(t.title), ToLower(t.title), 0);
  }

  // ---------------------------------------------------------------------------------------
  // Counts

  /** The counts on the filter buttons. */
  datatype Stats = Stats(total: nat, active: nat, completed: nat, mine: nat)

  /** `stats`: each count is the length of the list filtered by that button with no query, and
      0 while the list is undefined. */
  function StatsOf(todos: Option<seq<Todo>>, user: Option<string>): (r: Stats)
    ensures todos.None? ==> r == Stats(0, 0, 0, 0)
    ensures todos.Some? ==>
              r.total == |todos.value|
              && r.active == |FilterTodos(todos.value, [], Active, user)|
              && r.completed == |FilterTodos(todos.value, [], Completed, user)|
              && r.mine == |FilterTodos(todos.value, [], Mine, user)|
  {
    match todos
    case None => Stats(0, 0, 0, 0)
    case Some(ts) =>
      Stats(|ts|, |FilterTodos(ts, [], Active, user)|, |FilterTodos(ts, [], Completed, user)|,
            |FilterTodos(ts, [], Mine, user)|)
  }

  /** Every todo is active or completed, never both. */
  lemma {:induction false} ActivePlusCompleted(ts: seq<Todo>, user: Option<string>)
    ensures |FilterTodos(ts, [], Active, user)| + |FilterTodos(ts, [], Completed, user)| == |ts|
    decreases |ts|
  {
    if ts != [] {
      ActivePlusCompleted(ts[1..], user);
    }
  }

  /** The active and completed counts add up to the total, and the signed-in user's todos are
      some of them. */
  lemma StatsBalance(todos: Option<seq<Todo>>, user: Option<string>)
    ensures var s := StatsOf(todos, user);
      s.active + s.completed == s.total && s.mine <= s.total
  {
    if todos.Some? {
      ActivePlusCompleted(todos.value, user);
    }
  }

  // ---------------------------------------------------------------------------------------
  // The empty state

  /** The icon, heading and hint shown instead of the list. */
  datatype EmptyState = EmptyState(icon: string, title: string, hint: string)

  /** What replaces the list when nothing is left to show. */
  function EmptyStateOf(filtered: Option<seq<Todo>>, query: string, filter: Filter): (r: Option<EmptyState>)
    ensures r.None? <==> filtered.Some? && |filtered.value| > 0
  {
    if filtered.Some? && |filtered.value| > 0 then None
    else if query != [] then Some(EmptyState("\U{1F50D}", "No matching todos", "Try a different search term"))
    else if filter == Completed then
      Some(EmptyState("\U{2705}", "No completed todos yet", "Create your first todo to get started!"))
    else Some(EmptyState("\U{1F4DD}", "No todos yet", "Create your first todo to get started!"))
  }

  /** A search that finds nothing says so; without a search the heading depends only on
      whether the completed filter is chosen. */
  lemma EmptyStateMessages(filtered: Option<seq<Todo>>, query: string, filter: Filter)
    requires filtered.None? || filtered.value == []
    ensures var e := EmptyStateOf(filtered, query, filter).value;
      (query != [] ==> e.title == "No matching todos" && e.hint == "Try a different search term")
      && (query == [] ==> e.hint == "Create your first todo to get started!"
                          && (e.title == "No completed todos yet" <==> filter == Completed)
                          && (e.title == "No todos yet" <==> filter != Completed))
  {
  }

  /** With no search and the `all` filter, the empty state appears exactly when the user has no
      todos at all. */
  lemma EmptyOnlyWithoutTodos(todos: Option<seq<Todo>>, user: Option<string>)
    ensures EmptyStateOf(FilteredTodos(todos, [], All, user), [], All).Some?
        <==> todos.None? || todos.value == []
  {
    if todos.Some? {
      NoFilterKeepsAll(todos.value, user);
    }
  }
}
