# TaskFlow task engine and client rules, in Dafny

This project models the task side of TaskFlow, a personal task tracker. Its backend has one task
controller, which answers the task routes of the JSON API. The browser client is made of React pages.

- **Task controller.**
  - `getTasks` builds a query scoped to the caller and adds the `status` and `priority` filters when they are given.
  - It resolves the `sort` parameter with a fixed table, falling back to newest first.
  - `getTask`, `updateTask` and `deleteTask` check existence (404) before ownership (403).
  - `createTask` needs a title, and the owner is always the authenticated caller.
  - `updateTask` writes only the five editable fields.
  - The store is a class `TaskController.TaskStore` with a `map<TaskId, Task>` field. Create, update and delete
    are methods on it. The listing is a function whose result is proved owner-scoped, filtered, complete,
    duplicate-free and sorted.
- **Dashboard page.**
  - Builds the query parameters.
  - Removes a deleted task from the shown list, and patches the status of a task in place.
  - Counts the statistics cards.
  - The page is a class whose handlers update its `tasks`, `toast` and `filters` fields.
- **Task card.** Covers the overdue flag, the target of the status toggle, the status badge text and the
  guard in the date formatter.
- **Task form page.**
  - The JavaScript `trim` check on the title.
  - The payload, where an empty due date is left out.
  - The choice between create and update.
  - The mapping of a loaded task into the form.
  - The page state changed by `handleChange` and `handleSubmit`.
- **Register and sign-in pages.**
  - Registration runs checks in a fixed order: empty field, short password, mismatch. The first check that fails wins.
  - Sign-in has an empty-field check, chooses a redirect target from the route state, and falls back to a
    default failure message.

Modules follow the program: `Common` (JavaScript truthiness, toasts), `TaskRecord` (the task document),
`Ordering` (the store's value comparison), `TaskQuery` (the read side of the controller),
`TaskController`, `Dashboard`, `TaskCard`, `TaskForm`, `Register`, `Login`.

Choices made where the sources leave room:

- **Store order.** The store orders values the way MongoDB does by default:
  - strings by code point, lexicographically;
  - dates as integers;
  - a missing value below every present one.

  Tasks with equal keys stay in the store's natural order, which is ascending id here. MongoDB promises no
  tie order, so the contracts promise none either: they state sortedness, exact membership and distinct ids.
- **Priority sort.** `sort=priority` sorts the stored priority strings in descending order
  (`{ priority: -1 }`); no rank of the three priorities is involved. `TaskController.PriorityOrderIsLexicographic`
  spells out the consequence: "medium" tasks come first, then "low", then "high".
- **Filter values.** `status` and `priority` filter on any truthy value, so a value that no task stores
  matches nothing rather than being ignored.
- **Omitted update fields.** A field missing from an update body is left untouched. From Mongoose 6 on,
  `undefined` keys are dropped from the update (Mongoose 5 set them to `null`), and the Dashboard's `{ status }` update relies on this.
- **Cleared due date.** When the edit form's due date is emptied, the payload omits `dueDate`. The stored due
  date is therefore kept (`TaskForm.ClearedDueDateIsKept`).
- **Whitespace-only titles.** The backend title check is only truthiness, so it accepts and stores a non-empty
  title made of whitespace alone. The form refuses such a title (`TaskForm.FormIsStricterThanServer`).

## Model

| member | source | states |
|---|---|---|
| TaskQuery.BuildQuery | backend/controllers/taskController.js:7-16 | the query always names the caller as owner; it carries a status (priority) exactly when that parameter is truthy, and then carries that value |
| TaskQuery.ResolveSort | backend/controllers/taskController.js:18-26 | `dueDate`, `priority` and `status` each select their own key, each iff the parameter is that name; everything else, absent included, selects newest first |
| TaskQuery.BeforeTotal | backend/controllers/taskController.js:19-26 | every sort key compares any two tasks one way or the other |
| TaskQuery.BeforeTransitive | backend/controllers/taskController.js:19-26 | every sort key's comparison is transitive |
| TaskQuery.Select | backend/controllers/taskController.js:28 | `find(query)` keeps exactly the matching documents, never more than it was given, and keeps ascending ids ascending |
| TaskQuery.Insert | backend/controllers/taskController.js:28 | inserting adds exactly that one task to the multiset of tasks |
| TaskQuery.SortBy | backend/controllers/taskController.js:28 | sorting is a permutation of its input |
| TaskQuery.InsertSorted | backend/controllers/taskController.js:28 | inserting into a sorted list leaves it sorted |
| TaskQuery.SortBySorted | backend/controllers/taskController.js:28 | the sorted result is in the key's order |
| TaskQuery.SortByDistinct | backend/controllers/taskController.js:28 | sorting a list without repeated ids yields a list without repeated ids |
| TaskQuery.FindSorted | backend/controllers/taskController.js:28 | `find(query).sort(options)` returns the matching documents and only those, each once, sorted by the key |
| Ordering.StrLeTotal | backend/controllers/taskController.js:23-25 | the store's string comparison is total |
| Ordering.StrLeTransitive | backend/controllers/taskController.js:23-25 | the store's string comparison is transitive |
| Ordering.StrLeAntisymmetric | backend/controllers/taskController.js:23-25 | two strings that compare both ways are equal |
| TaskController.HttpStatus | backend/controllers/taskController.js:44-184 | creation answers 201, missing 404, not yours 403, no title 400, a read, update or delete that succeeds 200, each iff |
| TaskController.Guard | backend/controllers/taskController.js:48-61 | the shared check of `getTask`, `updateTask` and `deleteTask`: Missing iff the id is absent, NotOwner iff present and owned by someone else, Allowed iff present and owned by the caller |
| TaskController.InIdOrder | backend/controllers/taskController.js:28 | the store's documents in natural order: ids ascending, and exactly the documents stored under ids below the bound |
| TaskController.NewTask | backend/controllers/taskController.js:88-95 | the new document takes the body's five fields, the caller as owner, the fresh id and the creation time |
| TaskController.Patched | backend/controllers/taskController.js:130-136 | only title, description, status, priority and dueDate can differ, so id, owner and creation time never change; a field the body carries replaces the stored one, and a field it omits is kept |
| TaskController.PatchedIdempotent | backend/controllers/taskController.js:130-136 | applying the same update twice equals applying it once |
| TaskController.PatchedEmpty | backend/controllers/taskController.js:130-136 | a body that carries no editable field (a `user` field included) leaves the task unchanged |
| TaskController.TaskStore.Documents | backend/controllers/taskController.js:28 | every stored document is listed, each under its own id, in ascending id order |
| TaskController.TaskStore.List | backend/controllers/taskController.js:3-28 | every task returned is stored and owned by the caller and has each truthy filter's value; every stored task of the caller that passes the filters is returned; no id repeats; the order is the resolved sort key's |
| TaskController.TaskStore.GetTasks | backend/controllers/taskController.js:30-34 | the reply is a success, even when empty, and `count` is the number of tasks in it |
| TaskController.TaskStore.Get | backend/controllers/taskController.js:44-66 | a missing id is NotFound, never Forbidden; a task owned by someone else is Forbidden; the owner gets the stored task |
| TaskController.TaskStore.Create | backend/controllers/taskController.js:76-101 | a falsy title is BadRequest and the store is unchanged; otherwise exactly one task is added under a fresh id, owned by the caller whatever the body says |
| TaskController.TaskStore.Update | backend/controllers/taskController.js:111-142 | NotFound before Forbidden; neither changes the store; the owner's update replaces only that task, by the patched document, whose owner stays the caller |
| TaskController.TaskStore.Delete | backend/controllers/taskController.js:152-176 | NotFound before Forbidden; neither changes the store; the owner's delete removes exactly that id |
| TaskController.CrossUserIsolation | backend/controllers/taskController.js:8-61 | in any valid store, a task one user creates is stored, is absent from every listing of another user under any filters and sort, and the other user's direct read is Forbidden |
| TaskController.TaskLifecycle | backend/controllers/taskController.js:76-176 | create, then update the status, then delete all succeed, and a later read of that id is NotFound |
| TaskController.PriorityOrderIsLexicographic | backend/controllers/taskController.js:22-23 | in a listing sorted by priority, "medium" precedes "low" and "low" precedes "high" |
| TaskController.NoDueDateFirst | backend/controllers/taskController.js:20-21 | in a listing sorted by due date, tasks without a due date precede tasks with one |
| Dashboard.BuildParams | frontend/src/pages/Dashboard.jsx:21-24 | each of `status`, `priority`, `sort` is a parameter iff its filter is non-empty, with that value, and there are no other parameters |
| Dashboard.ParamsDriveQuery | frontend/src/pages/Dashboard.jsx:21-26 | the server filters on exactly the non-empty selects, and the initial `createdAt` sort reaches newest first |
| Dashboard.RemoveTask | frontend/src/pages/Dashboard.jsx:46 | the new list holds exactly the old tasks whose id differs, and is no longer than the old one |
| Dashboard.RemoveTaskAppend | frontend/src/pages/Dashboard.jsx:46 | removal distributes over concatenation, so the remaining tasks keep their relative order |
| Dashboard.RemoveTaskAbsent | frontend/src/pages/Dashboard.jsx:46 | a list without that id is returned unchanged |
| Dashboard.RemoveTaskIdempotent | frontend/src/pages/Dashboard.jsx:46 | removing twice is removing once |
| Dashboard.SetStatus | frontend/src/pages/Dashboard.jsx:56-58 | same length, same order; each task with the id gets the new status, everything else is unchanged |
| Dashboard.SetStatusLastWins | frontend/src/pages/Dashboard.jsx:56-58 | of two status changes to the same task, the second one wins |
| Dashboard.StatusBody | frontend/src/pages/Dashboard.jsx:55 | the update body carries the new status and no other field |
| Dashboard.LocalStatusMatchesServer | frontend/src/pages/Dashboard.jsx:55-58 | the local patch of a task equals what the server's update makes of that task with the body `{ status }` |
| Dashboard.Count | frontend/src/pages/Dashboard.jsx:75-77 | the count is at most the list length, and is zero iff no task has that status |
| Dashboard.CountAppend | frontend/src/pages/Dashboard.jsx:75-77 | the count of a concatenation is the sum of the counts of its parts |
| Dashboard.CountSingle | frontend/src/pages/Dashboard.jsx:75-77 | one task counts 1 iff it has that status and 0 otherwise; with `CountAppend` this makes the count the number of tasks with that status |
| Dashboard.ComputeStats | frontend/src/pages/Dashboard.jsx:73-78 | `total` is the list length, and `completed`, `inProgress` and `pending` are the counts of tasks with status `completed`, `in-progress` and `pending` |
| Dashboard.StatsAddUp | frontend/src/pages/Dashboard.jsx:73-78 | the three status counts sum to at most `total`, and to exactly `total` when every status is one of the three |
| Dashboard.StatusChangeKeepsTotal | frontend/src/pages/Dashboard.jsx:56-58 | a status change never changes `total` |
| Dashboard.StatusChangeMessage | frontend/src/pages/Dashboard.jsx:60 | 'Task completed! 🎉' exactly when the new status is `completed`, 'Task reopened' exactly otherwise |
| Dashboard.DashboardPage.constructor | frontend/src/pages/Dashboard.jsx:9-16 | no tasks, loading, no toast, filters empty and sorted by `createdAt` |
| Dashboard.DashboardPage.FetchTasks | frontend/src/pages/Dashboard.jsx:18-33 | the parameters sent are those built from the filters; a response replaces the list, a failure keeps it and toasts; loading ends either way |
| Dashboard.DashboardPage.HandleDelete | frontend/src/pages/Dashboard.jsx:39-51 | without confirmation nothing is sent and nothing changes; a delete that succeeds removes that id and toasts success; a delete that fails keeps the list and toasts the error |
| Dashboard.DashboardPage.HandleStatusChange | frontend/src/pages/Dashboard.jsx:53-66 | sends `{ status }`; on success patches the list and toasts the status message; on failure keeps the list and toasts the error |
| Dashboard.DashboardPage.HandleFilterChange | frontend/src/pages/Dashboard.jsx:68-70 | one select changes, the others and the list stay |
| Dashboard.DashboardPage.CurrentStats | frontend/src/pages/Dashboard.jsx:73-78 | the cards are the statistics of the current list: total is its length, the status counts are its counts, and they do not exceed the total |
| TaskCard.IsOverdue | frontend/src/components/TaskCard.jsx:13 | a task without a due date or with status `completed` is never overdue, and the toggle of an overdue task offers `completed` |
| TaskCard.OverdueConditions | frontend/src/components/TaskCard.jsx:13 | overdue needs a due date in the past; a completed task or one without a due date is never overdue |
| TaskCard.OverdueStaysOverdue | frontend/src/components/TaskCard.jsx:13 | an overdue task stays overdue as time passes |
| TaskCard.ToggleTarget | frontend/src/components/TaskCard.jsx:78 | the target is `pending` iff the status is `completed`, and `completed` iff it is not |
| TaskCard.ToggleTwice | frontend/src/components/TaskCard.jsx:78 | two presses from completed return to completed; from any other status they end on pending |
| TaskCard.ToggleClearsOverdue | frontend/src/components/TaskCard.jsx:13 | pressing the toggle on an overdue task makes it not overdue |
| TaskCard.FirstIndex | frontend/src/components/TaskCard.jsx:53 | the position of the first occurrence: no earlier position holds the character, and it equals the length iff the character does not occur |
| TaskCard.ReplaceFirst | frontend/src/components/TaskCard.jsx:53 | same length; the character at the first occurrence becomes the replacement and every other position is kept; no occurrence leaves the text as it is |
| TaskCard.ReplaceFirstAt | frontend/src/components/TaskCard.jsx:53 | with the first occurrence at position k, the result is the text with only position k replaced |
| TaskCard.StatusLabel | frontend/src/components/TaskCard.jsx:53 | the label has the status's length |
| TaskCard.HyphenatedLabel | frontend/src/components/TaskCard.jsx:53 | a status made of a hyphen-free head, a hyphen and any rest is shown as head, space, rest: `in-progress` reads `in progress`, and a later hyphen is kept |
| TaskCard.FormatDate | frontend/src/components/TaskCard.jsx:4-11 | no date gives nothing, iff; a date gives its locale rendering |
| TaskForm.SkipBlanks | frontend/src/pages/TaskForm.jsx:60 | the first non-whitespace position at or after i, with only whitespace skipped |
| TaskForm.SkipBlanksBack | frontend/src/pages/TaskForm.jsx:60 | the end of the text before j once trailing whitespace is dropped, with only whitespace dropped |
| TaskForm.Trim | frontend/src/pages/TaskForm.jsx:60 | the trimmed title is empty iff every character is JavaScript whitespace, and otherwise neither starts nor ends with whitespace |
| TaskForm.TitleError | frontend/src/pages/TaskForm.jsx:60-63 | 'Please provide a task title' iff the title is empty or all whitespace |
| TaskForm.TaskData | frontend/src/pages/TaskForm.jsx:68-71 | an empty due date is sent as absent, iff; a non-empty one and all other fields pass unchanged |
| TaskForm.PlanSubmit | frontend/src/pages/TaskForm.jsx:55-79 | a blank title is rejected and nothing is sent; otherwise update iff an id is present, create iff not, both with the normalised payload |
| TaskForm.DatePart | frontend/src/pages/TaskForm.jsx:36 | the prefix before the first 'T': contains no 'T', and is followed by a 'T' when shorter than the text |
| TaskForm.DatePartOfDateTime | frontend/src/pages/TaskForm.jsx:36 | a date followed by 'T' and a time yields the date; a bare date yields itself |
| TaskForm.FromLoaded | frontend/src/pages/TaskForm.jsx:31-37 | missing text becomes empty, missing status and priority become `pending` and `medium`, and the due date keeps its date part |
| TaskForm.SaveFailureText | frontend/src/pages/TaskForm.jsx:83 | the server's message when it is non-empty, 'Something went wrong' otherwise; never an empty text |
| TaskForm.RequestBody | frontend/src/pages/TaskForm.jsx:68-77 | the controller sees a due date iff the payload has one, and then the parsed one; title, description, status and priority as sent; no `user` field |
| TaskForm.ClearedDueDateIsKept | frontend/src/pages/TaskForm.jsx:68-74 | an emptied due date leaves the stored due date in place after the update |
| TaskForm.FormIsStricterThanServer | frontend/src/pages/TaskForm.jsx:60-63 | every non-empty whitespace-only title is refused by the form, yet is truthy for the server, which would store it unchanged |
| TaskForm.TaskFormPage.constructor | frontend/src/pages/TaskForm.jsx:8-22 | the initial form; the page is fetching iff an id is present |
| TaskForm.TaskFormPage.LoadTask | frontend/src/pages/TaskForm.jsx:25-47 | nothing happens without an id; a loaded task fills the form; a failure toasts and goes home; fetching ends either way |
| TaskForm.TaskFormPage.HandleChange | frontend/src/pages/TaskForm.jsx:49-53 | only the named field changes, and the form error is cleared |
| TaskForm.TaskFormPage.HandleSubmit | frontend/src/pages/TaskForm.jsx:55-87 | a blank title sets the error and sends nothing; a save that succeeds toasts created or updated and goes home; a failure shows the server's message or the fallback; loading ends |
| Register.FirstError | frontend/src/pages/Register.jsx:30-43 | an empty field, then a password shorter than 6, then a mismatch: the first that applies is the one error; no error iff all three checks pass |
| Register.MismatchReportedLast | frontend/src/pages/Register.jsx:40-43 | a mismatch is reported only for a filled form with a long enough password |
| Register.RegisterPage.constructor | frontend/src/pages/Register.jsx:6-13 | empty form, not loading, no error |
| Register.RegisterPage.HandleChange | frontend/src/pages/Register.jsx:18-23 | only the named field changes, and the form error is cleared |
| Register.RegisterPage.HandleSubmit | frontend/src/pages/Register.jsx:25-52 | `register` is called iff the form is valid, with name, email and password only; the error shown is the first check's; navigation to '/' iff called and successful |
| Login.RedirectTarget | frontend/src/pages/Login.jsx:18 | the `from` path of the route state when it is non-empty, '/' otherwise; never empty |
| Login.FieldsError | frontend/src/pages/Login.jsx:34-37 | 'Please fill in all fields' iff the email or the password is empty |
| Login.FailureMessage | frontend/src/pages/Login.jsx:46 | the result's message when non-empty, 'Invalid credentials' otherwise |
| Login.LoginPage.constructor | frontend/src/pages/Login.jsx:7-12 | empty form, not loading, no toast |
| Login.LoginPage.HandleChange | frontend/src/pages/Login.jsx:24-28 | only the named field changes |
| Login.LoginPage.HandleSubmit | frontend/src/pages/Login.jsx:30-48 | `login` is called iff both fields are filled; an empty field toasts the error; success goes to the redirect target; failure toasts the message or the fallback |

## Left out

- Authentication: the auth controller, the token middleware, password hashing, tokens and the backend of
  register, sign-in and profile update are outside this model. They are referenced by
  backend/routes/user.js:3-4, but their sources are not part of this model. Every handler's caller is therefore
  taken to be already authenticated, and its id is a parameter.
- Infrastructure: backend/server.js, backend/config/db.js and backend/routes/user.js are left out. They are
  Express wiring, connection handling and routing.
- Concurrency: each handler is modelled as one atomic step. In the source, a delete that lands between
  `findById` and `findByIdAndUpdate` makes `updateTask` answer 200 with a null task; that race is not modelled.
- Dashboard re-fetch: the effect that calls `fetchTasks` again after each filter change is not modelled as an
  effect. `Dashboard.DashboardPage.FetchTasks` is the call it makes, and `HandleFilterChange` only updates the filters.
- Store failures: the 500 catch paths are left out, because they only report failures of the store.
- Ids: ObjectId casting, and the error an unparsable id raises, are left out. Ids are natural numbers handed out
  by the store.
- Mongoose schema: defaults, enumerations, length limits and `runValidators` are left out, because the Task
  schema is not part of this model. A task's status, priority, description and due date are optional values.
- Explicit `null` in a request body: left out. An update field is either carried or omitted.
- Array-valued query parameters (`?status=a&status=b`): left out. Each parameter is one optional string.
- Time: dates and clocks are integers. The controller's creation time and the card's `now` are parameters.
  Date parsing is a parameter of `TaskForm.RequestBody`, and the locale rendering is a parameter of
  `TaskCard.FormatDate`.
- Browser and API calls: `window.confirm`, `navigate`, `setTimeout` and the `tasksAPI`, `register` and `login`
  calls are not modelled as calls. Their outcomes are parameters, and navigation is a returned value.
- Auth context error state: `clearError` and the `error` shown by the register page are left out, because they
  live in the auth context, which is not part of this model.
- Display-only components: Toast.jsx, Navbar.jsx, Footer.jsx, Profile.jsx and all JSX markup are left out. This
  includes the card's priority and due-date badges.
- Register.FirstError: measures the password in Unicode code points. JavaScript's `.length` counts UTF-16 code
  units, so a password of fewer than 6 characters from outside the Basic Multilingual Plane can pass the
  source's check but not the model's.
- TaskCard.StatusLabel: states only the label's length in its own contract. The replacement itself is stated
  by `TaskCard.ReplaceFirst`, `TaskCard.ReplaceFirstAt` and `TaskCard.HyphenatedLabel`.
- TaskCard.StatusLabel: takes the status as a string. The source throws at `task.status.replace` when a task has
  no status, and that failure is not modelled.
