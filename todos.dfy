/** The todo row the screens show, `Todo` of lib/hooks/useTodos.ts: `null` columns and the
    optional `is_owner` are `None`. */
module Todos {
  import opened Wrappers

  datatype Todo = Todo(id: string, title: string, description: Option<string>,
                       dueDate: Option<string>, dueTime: Option<string>, completed: bool,
                       createdBy: string, createdAt: string, updatedAt: string,
                       isOwner: Option<bool>)

  /** `todo.is_owner` read as a condition: a missing flag is false. */
  predicate IsOwner(t: Todo) {
    t.isOwner == Some(true)
  }
}
