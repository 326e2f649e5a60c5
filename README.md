# AI to-do list: client-side logic, modelled in Dafny

The application is a personal to-do list. A user signs in or signs up, then
sees a dashboard of their tasks; each task has a title, an optional
description, a status (`pending`, `in-progress`, `done`) and an urgency
(`low`, `medium`, `high`) that an external classifier assigns. Storage,
authentication and classification are external services. This project models
the logic the client itself runs:

- the dashboard's task filter (status pass, then case-insensitive search pass)
  and the state changes of its handlers: fetch, create, update, delete,
  status change, edit, opening the form, and the filter change;
- the rules that build what the dashboard sends to the store: the insert
  record, the update patch and when a task is re-classified, the status-only
  patch, and the username taken from the email address;
- the header's greeting by hour, what it shows only for a username, and the
  toast sign-out produces;
- the session gate's `loading`/`session` state machine and the page it renders;
- the authentication form's mode toggle and its submit, bracketed by a
  loading flag.

Every external call is a parameter that carries its answer (a value or an
error message). Each dashboard handler returns the calls it issued, in order
(`RemoteCall`: classify, get user, insert, update by id, delete by id,
select), and the toasts it showed (`Notice`), so the contracts can say what
was sent and what the user was told.

Files: `wrappers.dfy` (Option, Result), `tasks.dfy` (the `tasks` row and the
partial record), `sequences.dfy` (`Array.prototype.filter` as `Keep`, and the
subsequence order), `text.dfy` (lower-casing, `String.prototype.includes` and
its reference substring relation), `dashboard_filter.dfy`, `dashboard.dfy`,
`header.dfy`, `index.dfy`, `auth_form.dfy`.

The model follows the code where its behaviour is easy to misread:

- After every successful refetch both `tasks` and `filteredTasks` become the
  fetched rows. The last filter is not applied again (`Refetched`).
- `!taskData.id` and `task.description && …` are JavaScript truthiness
  tests: an empty text counts as absent. For the description this makes no
  difference to the filter, which `FilterBySearch` proves.
- The status filter is a text, not a status. A text that is neither `'all'`
  nor a status name selects nothing (`UnknownStatusSelectsNothing`).
- Status change shows no toast on success. Delete and status change never
  touch the form.
- An update whose id is missing returns before the `try`, so its `finally`
  does not run. The processing flag is left as it was on that path.

## Model

| member | source | states |
|---|---|---|
| Tasks.StatusText | src/lib/supabase.ts:19 | the three stored status texts, none of which is the filter's `"all"` |
| Tasks.StatusTextInjective | src/lib/supabase.ts:19 | distinct statuses have distinct texts, so a status filter names at most one status |
| Sequences.Keep | src/pages/Dashboard.tsx:204-213 | `.filter` keeps exactly the elements satisfying the callback, each as often as in the input, and no more of them |
| Sequences.KeepIsSubsequence | src/pages/Dashboard.tsx:200-213 | filtering keeps the relative order: the result is a subsequence of the input |
| Sequences.KeepTwice | src/pages/Dashboard.tsx:203-213 | two filter passes in a row equal one pass by the conjunction |
| Text.Lower | src/pages/Dashboard.tsx:209-212 | lower-casing maps `A`..`Z` to lower-case letters and leaves other characters alone |
| Text.LowerStr | src/pages/Dashboard.tsx:209-212 | `toLowerCase` keeps the length and lower-cases each position |
| Text.LowerStrIdempotent | src/pages/Dashboard.tsx:209-212 | lower-casing an already lowered text changes nothing |
| Text.Includes | src/pages/Dashboard.tsx:211-212 | `includes` as a prefix scan; an empty query is always found and a found query is no longer than the text; characterised by `IncludesIff` |
| Text.IncludesIff | src/pages/Dashboard.tsx:211-212 | `includes` is true exactly when the query occurs at some position of the text |
| Text.NothingInEmpty | src/pages/Dashboard.tsx:212 | a non-empty query never occurs in the empty text |
| DashboardFilter.HasStatus | src/pages/Dashboard.tsx:204 | the status-pass callback `task.status === filter.status`; never true for `"all"` |
| DashboardFilter.MatchesSearch | src/pages/Dashboard.tsx:209-213 | the search-pass callback on lowered title and present description; an empty query matches every task; characterised by `FilterBySearch` |
| DashboardFilter.ApplyFilter | src/pages/Dashboard.tsx:200-216 | the list `handleFilterChange` stores: no longer than `tasks` and drawn from it; characterised by `FilterIsOnePass`, `FilterMembership`, `FilterBySearch` and `FilterPreservesOrder` |
| DashboardFilter.FilterIsOnePass | src/pages/Dashboard.tsx:199-217 | the status pass followed by the search pass equals one pass by the combined test `Selects` |
| DashboardFilter.FilterAllEmptyIsIdentity | src/pages/Dashboard.tsx:199-217 | status `'all'` with an empty query returns exactly `tasks` |
| DashboardFilter.FilterPreservesOrder | src/pages/Dashboard.tsx:200-216 | the result is an order-preserving subsequence of `tasks` |
| DashboardFilter.FilterMembership | src/pages/Dashboard.tsx:199-217 | a task is in the result iff it is in `tasks` and passes both tests, and with its multiplicity in `tasks` |
| DashboardFilter.FilterByStatus | src/pages/Dashboard.tsx:203-205 | with a status other than `'all'` every kept task has that status; with an empty query every task of that status is kept |
| DashboardFilter.UnknownStatusSelectsNothing | src/pages/Dashboard.tsx:203-205 | a status text that names no status selects nothing |
| DashboardFilter.FilterBySearch | src/pages/Dashboard.tsx:208-213 | with a non-empty query, a task passing the status test is kept iff the lowered query occurs in the lowered title or in a present description |
| DashboardFilter.SearchIgnoresQueryCase | src/pages/Dashboard.tsx:209 | the query's case does not matter |
| DashboardFilter.FilterIdempotent | src/pages/Dashboard.tsx:199-217 | re-applying a filter to its own result changes nothing |
| DashboardPage.Rows | src/pages/Dashboard.tsx:54-55 | the fetched `data`, defaulting to `[]`: the returned rows, or the empty list for null data |
| DashboardPage.Refetched | src/pages/Dashboard.tsx:45-55 | what a fetch does to both lists (both become the rows on success, neither changes on error); it keeps the shown list a subsequence of the full list |
| DashboardPage.MissingId | src/pages/Dashboard.tsx:103 | `!taskData.id`: absent or empty; when it is false the id is a non-empty text |
| DashboardPage.NeedsReclassify | src/pages/Dashboard.tsx:108-111 | the re-classification condition; it needs a task being edited; `HandleUpdateTask` classifies iff it holds |
| DashboardPage.UsernameFromEmail | src/pages/Dashboard.tsx:34-35 | the username is a prefix of the email with no `@`, ending at the first `@` or at the end |
| DashboardPage.UsernameUnique | src/pages/Dashboard.tsx:34-35 | those facts determine the username uniquely |
| DashboardPage.UsernameWithoutAt | src/pages/Dashboard.tsx:34-35 | an email without `@` is shown whole |
| DashboardPage.SameTextKeepsUrgency | src/pages/Dashboard.tsx:108-111 | corollary of the definition of `NeedsReclassify` (no proof of its own): an edit that keeps title and description, e.g. status only, does not re-classify |
| DashboardPage.ChangedTextReclassifies | src/pages/Dashboard.tsx:108-111 | corollary of the definition of `NeedsReclassify` (no proof of its own): an edit of the current task that changes title or description re-classifies |
| DashboardPage.UpdatePatch | src/pages/Dashboard.tsx:116-121 | the update patch carries the new urgency iff there is one and otherwise equals `taskData` |
| DashboardPage.InsertRecord | src/pages/Dashboard.tsx:72-76 | the insert record is `taskData` with `user_id` and `urgency` overridden |
| DashboardPage.StatusPatch | src/pages/Dashboard.tsx:180-183 | the status-change patch carries only `status` |
| DashboardPage.Dashboard.constructor | src/pages/Dashboard.tsx:17-22 | initial state: empty lists, form closed, not processing, no current task, empty username |
| DashboardPage.Dashboard.FetchUserProfile | src/pages/Dashboard.tsx:30-37 | a present non-empty email sets the username to its prefix; otherwise nothing changes |
| DashboardPage.Dashboard.FetchTasks | src/pages/Dashboard.tsx:39-56 | success sets both lists to the rows (`[]` for null data); error leaves both and shows one error toast |
| DashboardPage.Dashboard.HandleCreateTask | src/pages/Dashboard.tsx:58-100 | calls in order classify, get user, insert, select; the first failure stops with one error toast and no state change; success refetches and closes the form; the flag is cleared on every path |
| DashboardPage.Dashboard.HandleUpdateTask | src/pages/Dashboard.tsx:102-145 | no effect without an id; classifies iff `NeedsReclassify`; sends `UpdatePatch` by id; success refetches, closes the form and clears the current task; the flag is cleared on every path after the id check |
| DashboardPage.Dashboard.HandleDeleteTask | src/pages/Dashboard.tsx:147-171 | deletes by id; success shows a toast and refetches; error shows one error toast and changes nothing |
| DashboardPage.Dashboard.HandleEditTask | src/pages/Dashboard.tsx:173-176 | the edited task becomes current and the form opens |
| DashboardPage.Dashboard.HandleStatusChange | src/pages/Dashboard.tsx:178-197 | sends the status-only patch by id; success refetches without a toast; error shows one toast and changes nothing |
| DashboardPage.Dashboard.OpenNewTaskForm | src/pages/Dashboard.tsx:226 | no current task and the form opens |
| DashboardPage.Dashboard.SetFormOpen | src/pages/Dashboard.tsx:277 | the form's open state follows the dialog |
| DashboardPage.Dashboard.HandleFilterChange | src/pages/Dashboard.tsx:199-217 | the shown list becomes `ApplyFilter(tasks, f)`, `tasks` is unchanged, and the shown list stays a subsequence of `tasks` |
| DashboardPage.Dashboard.SubmitHandler | src/pages/Dashboard.tsx:278 | the form submits to update iff a task is being edited |
| DashboardPage.Dashboard.ListArea | src/pages/Dashboard.tsx:243-270 | cards when the shown list is non-empty; "no match" iff tasks exist but none is shown; the invitation iff there are no tasks |
| Layout.GreetingText | src/components/layout/Header.tsx:19-21 | the three greeting texts, each beginning with "Good " |
| Layout.GreetingFor | src/components/layout/Header.tsx:18-21 | morning iff hour < 12, afternoon iff 12 <= hour < 18, evening iff hour >= 18 |
| Layout.GreetingMonotone | src/components/layout/Header.tsx:18-21 | a later hour never gets an earlier greeting |
| Layout.GreetingPartition | src/components/layout/Header.tsx:18-21 | over 0..23 the greetings occupy the blocks 0..11, 12..17, 18..23, each non-empty |
| Layout.Header.constructor | src/components/layout/Header.tsx:13-14 | the greeting starts empty |
| Layout.Header.SetUsername | src/components/layout/Header.tsx:13 | a new `username` prop (empty first, then the fetched name) leaves the greeting set on mount as it was |
| Layout.Header.OnMount | src/components/layout/Header.tsx:17-22 | the mount effect stores the greeting text for the hour |
| Layout.Header.GreetingLine | src/components/layout/Header.tsx:49-54 | the greeting line is rendered iff the username is non-empty, and shows greeting and username |
| Layout.Header.ShowsLogout | src/components/layout/Header.tsx:56-60 | the sign-out button is rendered only for a non-empty username |
| Layout.Header.HandleLogout | src/components/layout/Header.tsx:24-38 | exactly one toast: the error one with its message iff sign-out reports an error |
| Layout.ControlsFollowUsername | src/components/layout/Header.tsx:49-60 | corollary of the contract of `GreetingLine` and the definition of `ShowsLogout` (no proof of its own): both controls appear iff the username is non-empty |
| IndexPage.Presence | src/pages/Index.tsx:15-20 | the session an event reports (`!!data.session`, `!!session`); a failed check reports none |
| IndexPage.Apply | src/pages/Index.tsx:13-30 | one event: `session` becomes what it reports; `loading` is cleared by a check and kept by an auth event; a settled state stays settled |
| IndexPage.Replay | src/pages/Index.tsx:13-30 | events in arrival order; once `loading` is false it never becomes true again; characterised by `ReplayLast` |
| IndexPage.ViewOf | src/pages/Index.tsx:35-51 | skeleton iff loading; dashboard iff loaded with a true session; otherwise the auth view |
| IndexPage.ReplayLast | src/pages/Index.tsx:13-30 | after any events, `session` is what the last one reported, and `loading` is cleared iff a session check was among them |
| IndexPage.ReplaySettled | src/pages/Index.tsx:17-22 | once loading is over, `session` is a boolean and never null again |
| IndexPage.InitialView | src/pages/Index.tsx:35-51 | the skeleton shows until the check answers; afterwards the dashboard shows iff the latest event reported a session; a failed check counts as no session |
| IndexPage.Index.constructor | src/pages/Index.tsx:9-10 | initially loading, with a null session |
| IndexPage.Index.CheckSession | src/pages/Index.tsx:13-24 | `session` is whether a session came back (false on error), then `loading` is cleared |
| IndexPage.Index.OnAuthStateChange | src/pages/Index.tsx:28-30 | `session` follows the event; `loading` is untouched |
| IndexPage.Index.View | src/pages/Index.tsx:35-51 | skeleton iff loading; dashboard iff loaded with a true session; otherwise the auth view |
| Auth.Toggled | src/components/auth/AuthForm.tsx:60-62 | toggling always changes the mode |
| Auth.ToggleTwice | src/components/auth/AuthForm.tsx:60-62 | toggling twice is the identity |
| Auth.SubmitNotice | src/components/auth/AuthForm.tsx:33-54 | one toast per submit: the error one, or the success toast of the call that was made |
| Auth.AuthForm.constructor | src/components/auth/AuthForm.tsx:14-17 | initially `login`, not loading, empty credentials |
| Auth.AuthForm.SetEmail | src/components/auth/AuthForm.tsx:85 | the email field follows the input |
| Auth.AuthForm.SetPassword | src/components/auth/AuthForm.tsx:96 | the password field follows the input |
| Auth.AuthForm.SubmitEnabled | src/components/auth/AuthForm.tsx:102 | the submit button is enabled only while not loading |
| Auth.AuthForm.ToggleEnabled | src/components/auth/AuthForm.tsx:117 | the mode toggle is enabled only while not loading |
| Auth.AuthForm.ToggleMode | src/components/auth/AuthForm.tsx:60-62 | callable only while the toggle is enabled; the mode becomes the other one |
| Auth.AuthForm.BeginSubmit | src/components/auth/AuthForm.tsx:20-41 | callable only while submit is enabled; the flag is raised, disabling submit and toggle; sign-up is called iff the mode is `signup`, with the form's credentials |
| Auth.AuthForm.CompleteSubmit | src/components/auth/AuthForm.tsx:42-57 | one toast for the answer, then the flag is cleared |
| Auth.AuthForm.Submit | src/components/auth/AuthForm.tsx:20-58 | a whole submit never changes the mode, ends with the flag cleared on every outcome, calls sign-up iff in `signup` mode |
| Auth.ToggleTwiceRestores | src/components/auth/AuthForm.tsx:60-62 | two toggles of an idle form leave its mode as it was and touch no other field |

## Left out

- The store, authentication and classifier calls are not modelled as behaviour. Each is a parameter carrying its answer, and the model records only which call was issued with what.
- The un-awaited refetch after a mutation is sequenced: its answer is a parameter and it is applied before the handler returns. Races between a refetch and later local changes are not modelled.
- DashboardPage.Dashboard.HandleCreateTask, DashboardPage.Dashboard.HandleUpdateTask: a handler runs as one step, so the processing flag is never observed `true` from outside. The model only states that it is cleared at the end.
- Lower-casing covers ASCII letters only. Unicode case mapping is not modelled.
- `null` and `undefined` are both `None`. `handleUpdateTask` compares a description with `!==`, so a stored `null` and a form's `undefined` would count as different in the source but as equal here.
- `analyzeTask(taskData.title!, …)` receives the title as given, even if it is absent. What the classifier does with it is outside the model.
- The hour comes from the clock; it is a parameter (`getHours` returns 0..23).
- Toast texts, styling, layout, icons, skeleton shapes and the theme toggle are presentation. Only the kind of toast and the chosen view are modelled.
- The listener's unsubscription on unmount is not modelled. Neither is the `console.error` on a failed session check.
- Client construction, the endpoint URL and key, and the row-level-security policies (src/lib/supabase.ts) are configuration and server-side rules.
- The child components (task card, form, filter, stats, quote) and the `@/types` module are not part of this model. The `Task` shape comes from the table schema instead.
