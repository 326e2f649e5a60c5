/**
 * The dashboard page, src/pages/Dashboard.tsx: the task list it holds, the
 * handlers that change it, and the rules that build what it sends to the
 * store. The store, the authentication service and the urgency classifier are
 * not modelled; each handler takes their answers as parameters and returns
 * the calls it issued, in order, with the notices (toasts) it emitted.
 */
module DashboardPage {
  import opened Wrappers
  import opened Tasks
  import opened Sequences
  import opened DashboardFilter

  /** A request to an external service, with what it carries. */
  datatype RemoteCall =
    | Classify(title: Option<string>, description: Option<string>)  // analyzeTask
    | GetUser                                                       // auth.getUser
    | Insert(record: TaskPatch)                                     // from('tasks').insert
    | UpdateById(patch: TaskPatch, id: string)                      // from('tasks').update(..).eq('id', ..)
    | DeleteById(id: string)                                        // from('tasks').delete().eq('id', ..)
    | SelectTasks                                                   // select('*') ordered by created_at, newest first

  /** The kind of toast a handler shows, with the error message where it has one. */
  datatype Notice =
    | FetchFailed(message: string)
    | TaskCreated
    | CreateFailed(message: string)
    | TaskUpdated
    | UpdateFailed(message: string)
    | TaskDeleted
    | DeleteFailed(message: string)
    | StatusChangeFailed(message: string)

  /** The answer to the select: an error, or `data`, which may be null. */
  type FetchResponse = Result<Option<seq<Task>>, string>

  /** The message of the error thrown when no user is signed in. */
  const NotAuthenticated := "User not authenticated"

  /** `data || []`. */
  function Rows(data: Option<seq<Task>>): (rows: seq<Task>)
    ensures data.None? ==> rows == []
    ensures data.Some? ==> rows == data.value
  {
    if data.Some? then data.value else []
  }

  /**
   * What a fetch does to the two lists: on success both become the returned
   * rows (the last filter is not re-applied); on error both stay as they were.
   */
  predicate Refetched(response: FetchResponse, tasks0: seq<Task>, filtered0: seq<Task>, tasks1: seq<Task>, filtered1: seq<Task>)
    ensures Refetched(response, tasks0, filtered0, tasks1, filtered1) && IsSubsequence(filtered0, tasks0) ==>
      IsSubsequence(filtered1, tasks1)
  {
    SubsequenceReflexive(tasks1);
    if response.Success? then tasks1 == Rows(response.value) && filtered1 == tasks1
    else tasks1 == tasks0 && filtered1 == filtered0
  }

  /** The toasts a fetch shows: one on error, none on success. */
  function FetchNotices(response: FetchResponse): seq<Notice>
  {
    if response.Failure? then [FetchFailed(response.error)] else []
  }

  /**
   * `email.split('@')[0]`: the part of the address before its first `@`,
   * or the whole address when it has none.
   */
  function UsernameFromEmail(email: string): (name: string)
    ensures name <= email
    ensures '@' !in name
    ensures |name| < |email| ==> email[|name|] == '@'
  {
    if email == [] || email[0] == '@' then [] else [email[0]] + UsernameFromEmail(email[1..])
  }

  /** The three facts above pin the username down: any prefix that has them is it. */
  lemma UsernameUnique(email: string, name: string)
    requires name <= email && '@' !in name
    requires |name| < |email| ==> email[|name|] == '@'
    ensures name == UsernameFromEmail(email)
  {
  }

  /** An address without `@` is shown whole. */
  lemma UsernameWithoutAt(email: string)
    requires '@' !in email
    ensures UsernameFromEmail(email) == email
  {
  }

  /** `!taskData.id`: the id is absent or the empty string. */
  predicate MissingId(data: TaskPatch)
    ensures !MissingId(data) ==> data.id.Some? && |data.id.value| > 0
  {
    data.id.None? || data.id.value == ""
  }

  /** `handleUpdateTask` re-classifies when a task is being edited and its title or description differs. */
  predicate NeedsReclassify(current: Option<Task>, data: TaskPatch)
    ensures NeedsReclassify(current, data) ==> current.Some?
  {
    current.Some? && (Some(current.value.title) != data.title || current.value.description != data.description)
  }

  /** Editing only the status (or nothing) of the task being edited never re-classifies it. */
  lemma SameTextKeepsUrgency(current: Task, data: TaskPatch)
    requires data.title == Some(current.title) && data.description == current.description
    ensures !NeedsReclassify(Some(current), data)
  {
  }

  /** A changed title or a changed description of the task being edited re-classifies it. */
  lemma ChangedTextReclassifies(current: Task, data: TaskPatch)
    requires data.title != Some(current.title) || data.description != current.description
    ensures NeedsReclassify(Some(current), data)
  {
  }

  /**
   * `{...taskData, ...(aiAnalysis ? { urgency } : {})}`: the patch carries the
   * new urgency when there is one, and is `taskData` in every other column.
   */
  function UpdatePatch(data: TaskPatch, analysis: Option<Urgency>): (patch: TaskPatch)
    ensures analysis.None? ==> patch == data
    ensures analysis.Some? ==> patch.urgency == analysis
    ensures patch.(urgency := data.urgency) == data
  {
    if analysis.Some? then data.(urgency := analysis) else data
  }

  /** `{...taskData, user_id, urgency}`: the two later keys override whatever `taskData` holds. */
  function InsertRecord(data: TaskPatch, userId: string, urgency: Urgency): (record: TaskPatch)
    ensures record.user_id == Some(userId) && record.urgency == Some(urgency)
    ensures record.(user_id := data.user_id, urgency := data.urgency) == data
  {
    data.(user_id := Some(userId), urgency := Some(urgency))
  }

  /** `{ status }`: a patch with the status column only. */
  function StatusPatch(status: Status): (patch: TaskPatch)
    ensures patch.status == Some(status)
    ensures patch.(status := None) == EmptyPatch
  {
    EmptyPatch.(status := Some(status))
  }

  /** The handler the form's submit is wired to. */
  datatype FormHandler = CreateHandler | UpdateHandler

  /** What the list area shows. */
  datatype ListContent = TaskCards(cards: seq<Task>) | NoMatches | NoTasksYet

  class Dashboard {
    var tasks: seq<Task>
    var filteredTasks: seq<Task>
    var isFormOpen: bool
    var isProcessingAI: bool
    var currentTask: Option<Task>
    var username: string

    /** The shown list is always an order-preserving sub-list of the fetched one. */
    ghost predicate Valid()
      reads this
    {
      IsSubsequence(filteredTasks, tasks)
    }

    constructor ()
      ensures Valid()
      ensures tasks == [] && filteredTasks == [] && currentTask == None && username == ""
      ensures !isFormOpen && !isProcessingAI
    {
      tasks, filteredTasks := [], [];
      isFormOpen, isProcessingAI := false, false;
      currentTask, username := None, "";
    }

    /** `fetchUserProfile`: an email that is present and non-empty sets the username. */
    method FetchUserProfile(email: Option<string>)
      modifies this`username
      ensures email.Some? && email.value != "" ==> username == UsernameFromEmail(email.value)
      ensures !(email.Some? && email.value != "") ==> username == old(username)
    {
      if email.Some? && email.value != "" {
        username := UsernameFromEmail(email.value);
      }
    }

    /** `fetchTasks`. */
    method FetchTasks(response: FetchResponse) returns (calls: seq<RemoteCall>, notices: seq<Notice>)
      requires Valid()
      modifies this`tasks, this`filteredTasks
      ensures Valid()
      ensures calls == [SelectTasks]
      ensures Refetched(response, old(tasks), old(filteredTasks), tasks, filteredTasks)
      ensures notices == FetchNotices(response)
    {
      calls := [SelectTasks];
      if response.Failure? {
        notices := [FetchFailed(response.error)];
        return;
      }
      tasks := Rows(response.value);
      filteredTasks := Rows(response.value);
      SubsequenceReflexive(tasks);
      notices := [];
    }

    /**
     * `handleCreateTask`: classify, find the signed-in user, insert, then
     * refetch and close the form. The first failure ends the handler with one
     * error toast; the processing flag is cleared on every path.
     */
    method HandleCreateTask(data: TaskPatch, analysis: Result<Urgency, string>, user: Option<string>,
                            insertError: Option<string>, refetch: FetchResponse)
      returns (calls: seq<RemoteCall>, notices: seq<Notice>)
      requires Valid()
      modifies this`tasks, this`filteredTasks, this`isFormOpen, this`isProcessingAI
      ensures Valid() && !isProcessingAI
      ensures analysis.Failure? ==>
        && calls == [Classify(data.title, data.description)]
        && notices == [CreateFailed(analysis.error)]
      ensures analysis.Success? && user.None? ==>
        && calls == [Classify(data.title, data.description), GetUser]
        && notices == [CreateFailed(NotAuthenticated)]
      ensures analysis.Success? && user.Some? && insertError.Some? ==>
        && calls == [Classify(data.title, data.description), GetUser, Insert(InsertRecord(data, user.value, analysis.value))]
        && notices == [CreateFailed(insertError.value)]
      ensures analysis.Success? && user.Some? && insertError.None? ==>
        && calls == [Classify(data.title, data.description), GetUser, Insert(InsertRecord(data, user.value, analysis.value)), SelectTasks]
        && notices == [TaskCreated] + FetchNotices(refetch)
        && Refetched(refetch, old(tasks), old(filteredTasks), tasks, filteredTasks)
        && !isFormOpen
      ensures !(analysis.Success? && user.Some? && insertError.None?) ==>
        tasks == old(tasks) && filteredTasks == old(filteredTasks) && isFormOpen == old(isFormOpen)
    {
      isProcessingAI := true;
      calls := [Classify(data.title, data.description)];
      if analysis.Failure? {
        notices := [CreateFailed(analysis.error)];
      } else {
        calls := calls + [GetUser];
        if user.None? {
          notices := [CreateFailed(NotAuthenticated)];
        } else {
          calls := calls + [Insert(InsertRecord(data, user.value, analysis.value))];
          if insertError.Some? {
            notices := [CreateFailed(insertError.value)];
          } else {
            var fetchCalls, fetchNotices := FetchTasks(refetch);
            calls := calls + fetchCalls;
            notices := [TaskCreated] + fetchNotices;
            isFormOpen := false;
          }
        }
      }
      isProcessingAI := false;
    }

    /**
     * `handleUpdateTask`: nothing happens without an id; otherwise classify
     * again if the text changed, send the patch addressed by the id, then
     * refetch, close the form and forget the edited task.
     */
    method HandleUpdateTask(data: TaskPatch, analysis: Result<Urgency, string>, updateError: Option<string>,
                            refetch: FetchResponse)
      returns (calls: seq<RemoteCall>, notices: seq<Notice>)
      requires Valid()
      modifies this`tasks, this`filteredTasks, this`isFormOpen, this`isProcessingAI, this`currentTask
      ensures Valid()
      ensures MissingId(data) ==>
        && calls == [] && notices == []
        && tasks == old(tasks) && filteredTasks == old(filteredTasks)
        && isFormOpen == old(isFormOpen) && isProcessingAI == old(isProcessingAI) && currentTask == old(currentTask)
      ensures !MissingId(data) ==> !isProcessingAI
      ensures !MissingId(data) ==>
        (Classify(data.title, data.description) in calls <==> NeedsReclassify(old(currentTask), data))
      ensures !MissingId(data) && NeedsReclassify(old(currentTask), data) && analysis.Failure? ==>
        && calls == [Classify(data.title, data.description)]
        && notices == [UpdateFailed(analysis.error)]
        && tasks == old(tasks) && filteredTasks == old(filteredTasks)
        && isFormOpen == old(isFormOpen) && currentTask == old(currentTask)
      ensures !MissingId(data) && (NeedsReclassify(old(currentTask), data) ==> analysis.Success?) ==>
        var reclassified := NeedsReclassify(old(currentTask), data);
        var patch := UpdatePatch(data, if reclassified then Some(analysis.value) else None);
        && calls == (if reclassified then [Classify(data.title, data.description)] else [])
                    + [UpdateById(patch, data.id.value)]
                    + (if updateError.None? then [SelectTasks] else [])
        && (updateError.Some? ==>
              && notices == [UpdateFailed(updateError.value)]
              && tasks == old(tasks) && filteredTasks == old(filteredTasks)
              && isFormOpen == old(isFormOpen) && currentTask == old(currentTask))
        && (updateError.None? ==>
              && notices == [TaskUpdated] + FetchNotices(refetch)
              && Refetched(refetch, old(tasks), old(filteredTasks), tasks, filteredTasks)
              && !isFormOpen && currentTask == None)
    {
      calls, notices := [], [];
      if MissingId(data) {
        return;
      }
      var urgency: Option<Urgency> := None;
      if NeedsReclassify(currentTask, data) {
        isProcessingAI := true;
        calls := [Classify(data.title, data.description)];
        if analysis.Failure? {
          notices := [UpdateFailed(analysis.error)];
          isProcessingAI := false;
          return;
        }
        urgency := Some(analysis.value);
      }
      calls := calls + [UpdateById(UpdatePatch(data, urgency), data.id.value)];
      if updateError.Some? {
        notices := [UpdateFailed(updateError.value)];
      } else {
        var fetchCalls, fetchNotices := FetchTasks(refetch);
        calls := calls + fetchCalls;
        notices := [TaskUpdated] + fetchNotices;
        isFormOpen := false;
        currentTask := None;
      }
      isProcessingAI := false;
    }

    /** `handleDeleteTask`: delete by id, then refetch. */
    method HandleDeleteTask(id: string, deleteError: Option<string>, refetch: FetchResponse)
      returns (calls: seq<RemoteCall>, notices: seq<Notice>)
      requires Valid()
      modifies this`tasks, this`filteredTasks
      ensures Valid()
      ensures deleteError.Some? ==>
        && calls == [DeleteById(id)] && notices == [DeleteFailed(deleteError.value)]
        && tasks == old(tasks) && filteredTasks == old(filteredTasks)
      ensures deleteError.None? ==>
        && calls == [DeleteById(id), SelectTasks] && notices == [TaskDeleted] + FetchNotices(refetch)
        && Refetched(refetch, old(tasks), old(filteredTasks), tasks, filteredTasks)
    {
      calls := [DeleteById(id)];
      if deleteError.Some? {
        notices := [DeleteFailed(deleteError.value)];
      } else {
        var fetchCalls, fetchNotices := FetchTasks(refetch);
        calls := calls + fetchCalls;
        notices := [TaskDeleted] + fetchNotices;
      }
    }

    /** `handleStatusChange`: a patch of the status alone, addressed by the id; no toast on success. */
    method HandleStatusChange(id: string, status: Status, updateError: Option<string>, refetch: FetchResponse)
      returns (calls: seq<RemoteCall>, notices: seq<Notice>)
      requires Valid()
      modifies this`tasks, this`filteredTasks
      ensures Valid()
      ensures updateError.Some? ==>
        && calls == [UpdateById(StatusPatch(status), id)] && notices == [StatusChangeFailed(updateError.value)]
        && tasks == old(tasks) && filteredTasks == old(filteredTasks)
      ensures updateError.None? ==>
        && calls == [UpdateById(StatusPatch(status), id), SelectTasks] && notices == FetchNotices(refetch)
        && Refetched(refetch, old(tasks), old(filteredTasks), tasks, filteredTasks)
    {
      calls := [UpdateById(StatusPatch(status), id)];
      if updateError.Some? {
        notices := [StatusChangeFailed(updateError.value)];
      } else {
        var fetchCalls, fetchNotices := FetchTasks(refetch);
        calls := calls + fetchCalls;
        notices := fetchNotices;
      }
    }

    /** `handleEditTask`: open the form on the given task. */
    method HandleEditTask(task: Task)
      modifies this`currentTask, this`isFormOpen
      ensures currentTask == Some(task) && isFormOpen
    {
      currentTask := Some(task);
      isFormOpen := true;
    }

    /** The "New Task" buttons: open the form with no task being edited. */
    method OpenNewTaskForm()
      modifies this`currentTask, this`isFormOpen
      ensures currentTask == None && isFormOpen
    {
      currentTask := None;
      isFormOpen := true;
    }

    /** The form's `onOpenChange`. */
    method SetFormOpen(open: bool)
      modifies this`isFormOpen
      ensures isFormOpen == open
    {
      isFormOpen := open;
    }

    /** `handleFilterChange`: recompute the shown list from the whole list; `tasks` is left alone. */
    method HandleFilterChange(f: Filter)
      modifies this`filteredTasks
      ensures Valid()
      ensures filteredTasks == ApplyFilter(tasks, f)
    {
      filteredTasks := ApplyFilter(tasks, f);
      FilterPreservesOrder(tasks, f);
    }

    /** `onSubmit={currentTask ? handleUpdateTask : handleCreateTask}`. */
    function SubmitHandler(): (h: FormHandler)
      reads this
      ensures h == UpdateHandler <==> currentTask.Some?
    {
      if currentTask.Some? then UpdateHandler else CreateHandler
    }

    /**
     * The list area: the cards of the shown list; otherwise "no tasks match"
     * when tasks exist and the invitation to create the first one when none do.
     */
    function ListArea(): (c: ListContent)
      reads this
      requires Valid()
      ensures c == NoTasksYet <==> tasks == []
      ensures c == NoMatches <==> tasks != [] && filteredTasks == []
      ensures c.TaskCards? ==> c.cards == filteredTasks && c.cards != []
    {
      if |filteredTasks| > 0 then TaskCards(filteredTasks)
      else if |tasks| > 0 then NoMatches
      else NoTasksYet
    }
  }
}
