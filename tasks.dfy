/**
 * The row shape of the `tasks` table (its schema is documented in
 * src/lib/supabase.ts) and the partial record the task form hands to the
 * dashboard's handlers.
 */
module Tasks {
  import opened Wrappers

  /** The `status` column: `CHECK (status IN ('pending', 'in-progress', 'done'))`. */
  datatype Status = Pending | InProgress | Done

  /** The `urgency` column: one of three levels assigned by the classifier. */
  datatype Urgency = Low | Medium | High

  /** The text the table stores for a status, which is also what a status filter is compared with. */
  function StatusText(s: Status): (t: string)
    ensures t != "all"
  {
    match s
    case Pending => "pending"
    case InProgress => "in-progress"
    case Done => "done"
  }

  /** Distinct statuses are stored as distinct texts, so a status filter names at most one status. */
  lemma StatusTextInjective(a: Status, b: Status)
    ensures StatusText(a) == StatusText(b) ==> a == b
  {
  }

  /**
   * One row of `tasks`. `description`, `urgency` and `due_date` are nullable
   * columns; timestamps and identifiers are kept as the texts the store returns.
   */
  datatype Task = Task(
    id: string,
    user_id: string,
    title: string,
    description: Option<string>,
    status: Status,
    urgency: Option<Urgency>,
    created_at: string,
    due_date: Option<string>)

  /** `Partial<Task>`: the same columns, each of which may be absent. */
  datatype TaskPatch = TaskPatch(
    id: Option<string>,
    user_id: Option<string>,
    title: Option<string>,
    description: Option<string>,
    status: Option<Status>,
    urgency: Option<Urgency>,
    created_at: Option<string>,
    due_date: Option<string>)

  /** The object literal `{}`: a patch that carries no column. */
  const EmptyPatch := TaskPatch(None, None, None, None, None, None, None, None)
}
