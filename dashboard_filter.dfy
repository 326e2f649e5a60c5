/**
 * The dashboard's client-side filter, `handleFilterChange` in
 * src/pages/Dashboard.tsx: a status pass followed by a search pass over a
 * copy of the fetched list.
 */
module DashboardFilter {
  import opened Wrappers
  import opened Tasks
  import opened Sequences
  import opened Text

  /** The filter component's value: a status text (`"all"` or a status) and a free-text query. */
  datatype Filter = Filter(status: string, search: string)

  /** The status pass keeps `task.status === filter.status`. */
  predicate HasStatus(t: Task, status: string)
    ensures HasStatus(t, status) ==> status != "all"
  {
    StatusText(t.status) == status
  }

  /**
   * The search pass keeps a task when the lower-cased query occurs in the
   * lower-cased title, or in a description that is present and, being used
   * as a condition, not the empty string.
   */
  predicate MatchesSearch(t: Task, search: string)
    ensures search == "" ==> MatchesSearch(t, search)
  {
    var q := LowerStr(search);
    || Includes(LowerStr(t.title), q)
    || (t.description.Some? && t.description.value != "" && Includes(LowerStr(t.description.value), q))
  }

  /** The callback of the status pass. */
  function StatusTest(status: string): Task -> bool
  {
    t => HasStatus(t, status)
  }

  /** The callback of the search pass. */
  function SearchTest(search: string): Task -> bool
  {
    t => MatchesSearch(t, search)
  }

  /** The list `handleFilterChange` stores into `filteredTasks`. */
  function ApplyFilter(tasks: seq<Task>, f: Filter): (r: seq<Task>)
    ensures |r| <= |tasks|
    ensures forall t :: t in r ==> t in tasks
  {
    var byStatus := if f.status != "all" then Keep(tasks, StatusTest(f.status)) else tasks;
    if f.search != "" then Keep(byStatus, SearchTest(f.search)) else byStatus
  }

  /** Reference: the one test per task that the two passes amount to. */
  predicate Selects(f: Filter, t: Task)
  {
    && (f.status == "all" || HasStatus(t, f.status))
    && (f.search == "" || MatchesSearch(t, f.search))
  }

  /** `Selects` as a callback. */
  function SelectTest(f: Filter): Task -> bool
  {
    t => Selects(f, t)
  }

  /** The two passes are a single filter by `Selects`. */
  lemma FilterIsOnePass(tasks: seq<Task>, f: Filter)
    ensures ApplyFilter(tasks, f) == Keep(tasks, SelectTest(f))
  {
    var st, se, sel := StatusTest(f.status), SearchTest(f.search), SelectTest(f);
    if f.status != "all" && f.search != "" {
      KeepTwice(tasks, st, se, sel);
    } else if f.status != "all" {
      KeepExtensional(tasks, st, sel);
    } else if f.search != "" {
      KeepExtensional(tasks, se, sel);
    } else {
      KeepEverything(tasks, sel);
    }
  }

  /** With status `'all'` and an empty query the filter returns the whole list. */
  lemma FilterAllEmptyIsIdentity(tasks: seq<Task>)
    ensures ApplyFilter(tasks, Filter("all", "")) == tasks
  {
  }

  /** The result keeps the relative order of `tasks`: it is a subsequence. */
  lemma FilterPreservesOrder(tasks: seq<Task>, f: Filter)
    ensures IsSubsequence(ApplyFilter(tasks, f), tasks)
  {
    FilterIsOnePass(tasks, f);
    KeepIsSubsequence(tasks, SelectTest(f));
  }

  /**
   * A task is in the result exactly when it is in `tasks` and `Selects` it,
   * and it occurs there as often as in `tasks`.
   */
  lemma FilterMembership(tasks: seq<Task>, f: Filter, t: Task)
    ensures t in ApplyFilter(tasks, f) <==> t in tasks && Selects(f, t)
    ensures multiset(ApplyFilter(tasks, f))[t] == if Selects(f, t) then multiset(tasks)[t] else 0
  {
    FilterIsOnePass(tasks, f);
  }

  /**
   * Status pass: with `s != 'all'` every kept task has status `s`, and with
   * an empty query every task of status `s` is kept.
   */
  lemma FilterByStatus(tasks: seq<Task>, s: string, search: string)
    requires s != "all"
    ensures forall t :: t in ApplyFilter(tasks, Filter(s, search)) ==> HasStatus(t, s)
    ensures search == "" ==> forall t :: t in tasks && HasStatus(t, s) ==> t in ApplyFilter(tasks, Filter(s, search))
  {
    forall t | t in ApplyFilter(tasks, Filter(s, search)) || t in tasks
      ensures t in ApplyFilter(tasks, Filter(s, search)) <==> t in tasks && Selects(Filter(s, search), t)
    {
      FilterMembership(tasks, Filter(s, search), t);
    }
  }

  /** A status filter that is neither `'all'` nor a status name matches nothing. */
  lemma UnknownStatusSelectsNothing(tasks: seq<Task>, f: Filter)
    requires f.status != "all"
    requires forall s: Status :: StatusText(s) != f.status
    ensures ApplyFilter(tasks, f) == []
  {
    var r := ApplyFilter(tasks, f);
    if r != [] {
      FilterMembership(tasks, f, r[0]);
    }
  }

  /**
   * Search pass, against the reference substring relation: with a non-empty
   * query, a task that passes the status test is kept exactly when the
   * lowered query occurs in the lowered title or in a present description.
   * The empty-description guard of the source makes no difference here.
   */
  lemma FilterBySearch(tasks: seq<Task>, f: Filter, t: Task)
    requires f.search != ""
    requires t in tasks && (f.status == "all" || HasStatus(t, f.status))
    ensures t in ApplyFilter(tasks, f) <==>
      || (exists k :: OccursAt(LowerStr(t.title), LowerStr(f.search), k))
      || (t.description.Some? && exists k :: OccursAt(LowerStr(t.description.value), LowerStr(f.search), k))
  {
    FilterMembership(tasks, f, t);
    IncludesIff(LowerStr(t.title), LowerStr(f.search));
    if t.description.Some? {
      IncludesIff(LowerStr(t.description.value), LowerStr(f.search));
    }
  }

  /** The query is compared case-insensitively: lower-casing it first changes nothing. */
  lemma SearchIgnoresQueryCase(t: Task, search: string)
    ensures MatchesSearch(t, search) == MatchesSearch(t, LowerStr(search))
  {
    LowerStrIdempotent(search);
  }

  /** Applying the same filter to its own result changes nothing. */
  lemma FilterIdempotent(tasks: seq<Task>, f: Filter)
    ensures ApplyFilter(ApplyFilter(tasks, f), f) == ApplyFilter(tasks, f)
  {
    var sel := SelectTest(f);
    FilterIsOnePass(tasks, f);
    FilterIsOnePass(ApplyFilter(tasks, f), f);
    KeepTwice(tasks, sel, sel, sel);
  }
}
