# ICCCAD ERP core in Dafny

ICCCAD ERP is a small role-gated project-management system. Signed-in users work with projects, tasks, attendance marks, budget items, milestones and reports. Admins and project officers may create and change things. Employees may read, patch task status and mark their own attendance.

This project models the parts of it that make decisions:

- **Entity store** (`storage.dfy`, module `Storage`). The seven Postgres tables become a class `Store` with one `seq` per table and one id counter per `serial` column. Inserts append the row the column defaults produce. The two status updates overwrite named columns of the row with the given id. Reads are selections in insertion order. The budget summary folds income into `allocation` and everything else into `spent`. An invariant `Valid` holds the table constraints: increasing ids below the counter, unique usernames, and money within decimal(10,2).
- **Budget summary** (`budget.dfy`, module `Budget`). The fold itself, plus reference definitions and lemmas: bucket totals, conservation, additivity and order independence.
- **HTTP layer** (`routes.dfy`, module `Routes`):
  - the `requireAuth` and `requireRole` gates and the per-route role table;
  - handler argument binding (the path and the session win over the request body);
  - password redaction for `/api/users` and the 404 for a missing report;
  - one handler method per route, calling the store.
- **Schema** (`schema.dfy`, module `Schema`). The role and status enumerations, row types, column defaults, the decimal(10,2) range, the registration validator and the login projection.
- **Client logic**:
  - the role-filtered sidebar (`sidebar.dfy`);
  - the dashboard statistics and chart labels (`dashboard.dfy`);
  - the header's initials, role badge and colours (`header.dfy`).
- **Helpers**. Generic selections over tables (`tables.dfy`), the JavaScript string operations the client uses (`text.dfy`), and `Option`/`Result` (`wrappers.dfy`).

Modelling choices:

- Money is integer cents. Calendar dates are integer day numbers. Timestamps are integer instants.
- Nullable foreign-key columns are `Option`s. SQL `=` never matches NULL, so a project filter compares with `Some(id)`.
- The session is `Option<Principal>`.
- The wall clock is a `now` parameter.
- Path parameters arrive as integers.

`PATCH /api/tasks/:taskId/status` on an id that matches no task answers 200 with an empty body, because server/routes.ts:50-53 passes the missing row to `res.json(undefined)` and never sends 404 (`Routes.HandlePatchTaskStatus`).

## Model

| member | source | states |
|---|---|---|
| Storage.Store.constructor | shared/schema.ts:11-77 | every table starts empty with its serial counter at 1, and the empty store meets every table constraint |
| Storage.Store.GetUser | server/storage.ts:61-64 | None iff no row has the id; otherwise a row of the table with that id |
| Storage.Store.GetUserByUsername | server/storage.ts:66-69 | None iff no row has the username; otherwise a row of the table with that username |
| Storage.Store.CreateUser | server/storage.ts:71-77 | a taken username is rejected and nothing changes; otherwise the row is defaulted and appended with a fresh id, and is then found by both lookups |
| Schema.UserRow | server/storage.ts:71-77 | the inserted user keeps every given field, and its role is employee when none is given |
| Storage.AppendUser | shared/schema.ts:11-17 | appending a new username keeps ids increasing and usernames unique, and makes the new row the one found by name and by id |
| Storage.Store.GetProject | server/storage.ts:83-86 | None iff no project has the id; otherwise a row with that id |
| Storage.Store.CreateProject | server/storage.ts:88-91 | a budget outside decimal(10,2) is rejected with no change; otherwise the defaulted row is appended with a fresh id and `GetProject` then returns it |
| Schema.ProjectRow | shared/schema.ts:19-26 | the project budget defaults to 0 and the status to planned; other fields are kept |
| Storage.AppendProject | shared/schema.ts:19-26 | appending a project whose budget fits keeps the constraints, and the new id is found only at the new row |
| Storage.Store.GetTasks | server/storage.ts:93-95 | exactly the tasks whose project is the given one, in table order |
| Storage.Store.CreateTask | server/storage.ts:97-100 | appends the defaulted row with a fresh id; the new row joins exactly its own project's selection and every other selection is unchanged |
| Schema.TaskRow | shared/schema.ts:28-37 | the task status defaults to todo and the priority to medium; other fields are kept |
| Storage.SetTaskStatus | server/storage.ts:102-109 | same length and same ids; rows with the id get the new status and nothing else changes; other rows are unchanged |
| Storage.UpdatedTask | server/storage.ts:102-109 | the returned row is absent iff no row had the id, in which case the table is unchanged; otherwise it is the updated row with that id |
| Storage.Store.UpdateTaskStatus | server/storage.ts:102-109 | the new table is the status update of the old one; absent id gives None and no change; otherwise the returned row is the updated row |
| Storage.UpdateOfAbsentIdIsIdentity | server/storage.ts:102-109 | an update whose id matches no row leaves the task or milestone table as it was |
| Storage.Store.MarkAttendance | server/storage.ts:111-114 | always appends a fresh row, even for a second mark on the same day; earlier answers of `getAttendance` stay, and the marked user now has one |
| Storage.Store.GetAttendance | server/storage.ts:116-122 | None iff the user has no mark; otherwise the first mark of that user in table order |
| Storage.GetAttendanceIgnoresDate | server/storage.ts:116-122 | the date argument never changes the answer |
| Storage.Store.CreateBudgetItem | server/storage.ts:124-127 | an amount outside decimal(10,2) is rejected with no change; otherwise the row is appended with a fresh id and joins exactly its project's unfiltered selection |
| Storage.AppendBudgetItem | shared/schema.ts:47-56 | appending an item whose amount fits keeps the constraints, and each project's unfiltered selection grows by the row iff it belongs there |
| Storage.Store.GetBudgetItems | server/storage.ts:129-140 | the project's items, restricted to the inclusive window when both bounds are given, as a subsequence of the table |
| Storage.BudgetWindowNeedsBothBounds | server/storage.ts:132-137 | with either bound missing the answer equals the unfiltered one |
| Storage.BudgetWindowNarrows | server/storage.ts:129-140 | the windowed list is a subsequence of the project's full list |
| Storage.WindowIsSubsequence | server/storage.ts:129-140 | filtering by project and window is a subsequence of filtering by project alone |
| Storage.Store.GetProjectBudgetSummary | server/storage.ts:142-156 | the loop computes the fold `Summarize` over the project's unfiltered items |
| Budget.SummarizeEmpty | server/storage.ts:145-155 | no items give {allocated 0, spent 0} |
| Budget.SummarizeOne | server/storage.ts:147-151 | one item puts its whole amount in the bucket its type selects |
| Budget.SummarizeIsBucketTotals | server/storage.ts:147-151 | allocated is the total of the income items and spent the total of all others |
| Budget.SummarizeConservesTotal | server/storage.ts:147-151 | allocated plus spent is the total of all amounts |
| Budget.SummarizeAppend | server/storage.ts:145-155 | the summary of a concatenation is the field-by-field sum of the summaries |
| Budget.SummarizePermutation | server/storage.ts:145-155 | any reordering of the items gives the same summary |
| Budget.SummarizeCommutes | server/storage.ts:145-155 | swapping two blocks of items gives the same summary |
| Budget.TotalAppend | server/storage.ts:145-155 | the reference total is additive over concatenation |
| Storage.Store.CreateMilestone | server/storage.ts:158-161 | appends the defaulted row with a fresh id; the row joins exactly its project's selection |
| Schema.MilestoneRow | shared/schema.ts:58-66 | the milestone status defaults to pending; other fields are kept |
| Storage.Store.GetMilestones | server/storage.ts:163-165 | exactly the milestones of the project, in table order |
| Storage.SetMilestoneStatus | server/storage.ts:167-174 | the row with the id gets the status, plus the completion date when one is given; other columns and rows are unchanged |
| Storage.UpdatedMilestone | server/storage.ts:167-174 | the returned row is absent iff no row had the id, in which case the table is unchanged; otherwise it is the updated row |
| Storage.Store.UpdateMilestoneStatus | server/storage.ts:167-174 | the new table is the update of the old one; the returned row carries the status and the given or kept completion date |
| Storage.Store.CreateReport | server/storage.ts:176-179 | appends the defaulted row with a fresh id; `GetReport` then finds it and it joins exactly its project's selection |
| Schema.ReportRow | shared/schema.ts:68-77 | created-at defaults to the current instant and attachments to the empty list |
| Storage.Store.GetReports | server/storage.ts:181-183 | exactly the reports of the project, in table order |
| Storage.Store.GetReport | server/storage.ts:185-188 | None iff no report has the id; otherwise a report with that id |
| Schema.AttendanceRow | shared/schema.ts:39-44 | an attendance insert keeps every given field |
| Schema.BudgetItemRow | shared/schema.ts:47-56 | a budget-item insert keeps every given field |
| Schema.ParseRole | shared/schema.ts:5-9 | a string names a role iff it is one of the three stored role strings, and then that role |
| Schema.RoleNameRoundTrip | shared/schema.ts:5-9 | parsing a role's stored string gives the role back |
| Schema.RoleNameInjective | shared/schema.ts:5-9 | different roles have different stored strings |
| Schema.ValidateRegistration | shared/schema.ts:88-95 | accepted iff the role is one of the three and the password equals its confirmation; a mismatch is reported on the confirmPassword path |
| Schema.ParseLogin | shared/schema.ts:82-86 | succeeds iff username and password are present, keeps just those two, and otherwise lists the missing ones |
| Schema.ParseLoginIgnoresOtherFields | shared/schema.ts:82-86 | fields other than username and password never change the result |
| Routes.RequireAuth | server/routes.ts:6-11 | 401 iff there is no session |
| Routes.RequireRole | server/routes.ts:13-20 | passes iff a user is present and their role string is listed; otherwise 403 |
| Routes.Authorize | server/routes.ts:26-147 | 401 iff no session; 403 iff an employee calls a manager-only route; Ok iff signed in and the route is open or the user is a manager |
| Routes.RequiredRolesAreManagerRoles | server/routes.ts:31-124 | a route has a role list iff it is one of the six mutation routes, and the list is always admin and project_officer |
| Routes.NoSessionIsUnauthorized | server/routes.ts:6-11 | without a session every route is 401; authentication comes before any role |
| Routes.EmployeeForbiddenExactly | server/routes.ts:31-124 | an employee gets 403 exactly on the manager-only routes and passes every other one |
| Routes.ManagersPassEverywhere | server/routes.ts:13-20 | an admin or project officer passes every gate |
| Routes.AuthenticationSuffices | server/routes.ts:50-63 | patching a task's status and marking attendance need only a session |
| Routes.Gate | server/routes.ts:6-20 | a reply is sent instead of the handler iff the gates refuse: 401 "Unauthorized" without a session, 403 "Forbidden" for an employee on a manager route |
| Routes.BindTask | server/routes.ts:43-46 | the task's project comes from the path; all other body fields are kept |
| Routes.BindBudgetItem | server/routes.ts:82-86 | the project comes from the path and the author from the session; all other body fields are kept |
| Routes.BindMilestone | server/routes.ts:102-105 | the milestone's project comes from the path; all other body fields are kept |
| Routes.BindReport | server/routes.ts:125-129 | the project comes from the path and the author from the session; all other body fields are kept |
| Routes.BindAttendance | server/routes.ts:57-61 | the mark is for the session's user, at the current instant, with the body's status |
| Routes.BodyCannotChooseProjectOrAuthor | server/routes.ts:43-129 | two bodies that differ only in project or author bind to the same insert |
| Routes.Redact | server/routes.ts:145 | the public record keeps id, username, role and name |
| Routes.RedactKeepsAllButPassword | server/routes.ts:145 | restoring the password undoes redaction, and redaction ignores whatever password was there |
| Routes.RedactAll | server/routes.ts:142-147 | the same users in the same order, each redacted |
| Routes.RedactAllIgnoresPasswords | server/routes.ts:142-147 | two tables that differ only in passwords give the same response |
| Routes.HandleListProjects | server/routes.ts:26-29 | 401 without a session; otherwise 200 with the whole projects table |
| Routes.HandlePostProject | server/routes.ts:31-34 | refused by the gates with no change; otherwise 201 with the defaulted row appended, or a store failure with no change |
| Routes.HandleListTasks | server/routes.ts:37-40 | 401 without a session; otherwise 200 with exactly the path project's tasks |
| Routes.HandlePostTask | server/routes.ts:42-48 | refused with no change; otherwise 201 with the row bound to the path project, which then lists it |
| Routes.HandlePatchTaskStatus | server/routes.ts:50-53 | 401 without a session; otherwise the status update and 200, with no body iff no task has the id, and else the updated task |
| Routes.HandlePostAttendance | server/routes.ts:56-63 | 401 without a session; otherwise 201 with a fresh mark for the session user |
| Routes.HandleReadAttendance | server/routes.ts:65-68 | 401 without a session; otherwise 200 with what `getAttendance` answers for the session user (their first mark in table order), with no body iff they have none |
| Routes.HandleListBudget | server/routes.ts:71-79 | 401 without a session; otherwise 200 with the project's items, inside the window when both bounds are given |
| Routes.HandlePostBudget | server/routes.ts:81-88 | refused with no change; otherwise 201 with the row bound to path and session, joining the project's list, or a store failure with no change |
| Routes.HandleReadBudgetSummary | server/routes.ts:90-93 | 401 without a session; otherwise 200 with the summary of all the project's items |
| Routes.HandleListMilestones | server/routes.ts:96-99 | 401 without a session; otherwise 200 with exactly the project's milestones |
| Routes.HandlePostMilestone | server/routes.ts:101-107 | refused with no change; otherwise 201 with the row bound to the path project, which then lists it |
| Routes.HandlePatchMilestoneStatus | server/routes.ts:109-116 | refused with no change; otherwise the update and 200, with no body iff no milestone has the id, and else the stored milestone with that id, the new status and any given completion date |
| Routes.HandleListReports | server/routes.ts:119-122 | 401 without a session; otherwise 200 with exactly the project's reports |
| Routes.HandlePostReport | server/routes.ts:124-131 | refused with no change; otherwise 201 with the row bound to path and session, found by id afterwards |
| Routes.HandleReadReport | server/routes.ts:133-139 | 401 without a session; 404 "Report not found" when no report has the id; otherwise 200 with that report |
| Routes.HandleListUsers | server/routes.ts:142-147 | 401 without a session; otherwise 200 with every user in order, equal to the stored row once its password is restored |
| Routes.ReefScenario | server/storage.ts:124-156 | a project with a 400.00 income and a 150.00 expense summarises to {400.00, 150.00} |
| Sidebar.FilteredNavigation | client/src/components/layout/sidebar.tsx:30-32 | a subsequence of the navigation list holding exactly the links without roles or listing the user's role string |
| Sidebar.ManagerRoleStrings | client/src/components/layout/sidebar.tsx:22-23 | the role string is in the Budget/Reports list iff the user is an admin or project officer |
| Sidebar.NavigationFor | client/src/components/layout/sidebar.tsx:18-32 | managers see all five links; employees and signed-out visitors see the first three |
| Sidebar.UnrestrictedAlwaysShown | client/src/components/layout/sidebar.tsx:18-21 | a link without roles is shown to everybody |
| Sidebar.BudgetAndReportsForManagers | client/src/components/layout/sidebar.tsx:22-23 | Budget and Reports are shown iff the user is an admin or project officer |
| Sidebar.SignedOutSeesThree | client/src/components/layout/sidebar.tsx:31 | with nobody signed in, only Dashboard, Projects and Attendance are shown |
| Sidebar.ShowSettings | client/src/components/layout/sidebar.tsx:67 | the Settings link shows iff the user is an admin or project officer |
| Sidebar.SettingsFollowsBudget | client/src/components/layout/sidebar.tsx:22-67 | Settings is shown to exactly the users who see Budget |
| Sidebar.NavigationHrefsDistinct | client/src/components/layout/sidebar.tsx:18-24 | no two links share an href |
| Sidebar.ActiveItems | client/src/components/layout/sidebar.tsx:45-46 | at most one shown link is active, and one is iff some shown link's href is the location |
| Dashboard.ProjectStats | client/src/pages/dashboard.tsx:19-23 | the loop's totals are the number of projects and the sum of their budgets |
| Dashboard.BudgetTotalAppend | client/src/pages/dashboard.tsx:19-23 | the budget total is additive over concatenation |
| Dashboard.TotalBudgetAsWrittenConcatenates | client/src/pages/dashboard.tsx:19-23 | as written, one project budgeted 100.00 gives the text "0100.00", not "100.00" |
| Dashboard.TaskStats | client/src/pages/dashboard.tsx:25-28 | a status is a key iff some task has it, and its value is the number of such tasks |
| Dashboard.CountIsSelectionSize | client/src/pages/dashboard.tsx:25-28 | a status's count is the size of the selection of tasks with that status |
| Dashboard.CountsSumToTotal | client/src/pages/dashboard.tsx:25-28 | the three counts add up to the number of tasks |
| Dashboard.StatsCards | client/src/pages/dashboard.tsx:40-60 | the cards show the project count, the corrected numeric budget total (see Findings) and the in-progress and completed counts, each 0 while its data is missing or the status is absent |
| Dashboard.TasksQueryRunsIffProjects | client/src/pages/dashboard.tsx:14-17 | on a valid store, whose ids start at 1, the tasks query runs iff there is at least one project, and then asks for the first project's id |
| Dashboard.ChartLabels | client/src/pages/dashboard.tsx:95-97 | the bars read TODO, IN PROGRESS and COMPLETED |
| Dashboard.ChartLabelsDistinct | client/src/pages/dashboard.tsx:95-97 | different statuses get different bar labels |
| Dashboard.ChartData | client/src/pages/dashboard.tsx:95-98 | one bar per histogram key, labelled for display and carrying its count, and no other bars |
| Dashboard.ChartBarsHaveDistinctLabels | client/src/pages/dashboard.tsx:95-98 | no two bars carry the same label |
| Header.InitialsAreWordStarts | client/src/components/layout/header.tsx:29 | the initials are exactly the characters that start a space-separated word, in order |
| Header.SplitHeads | client/src/components/layout/header.tsx:29 | first characters of the split pieces are the word starts, for the whole split and for the pieces after the first |
| Header.JoinHeads | client/src/components/layout/header.tsx:29 | joining the first characters with "" concatenates them, empty words adding nothing |
| Header.WordStartsFromName | client/src/components/layout/header.tsx:29 | every initial is a non-space character of the name, and there are no more initials than characters |
| Header.SingleWordInitial | client/src/components/layout/header.tsx:29 | a one-word name has its first character as its initials |
| Header.TwoWordInitials | client/src/components/layout/header.tsx:29 | two words joined by a space give their two first characters |
| Header.WordStartsAppend | client/src/components/layout/header.tsx:29 | the word starts of a concatenation are those of the parts, the second starting after the first's last character |
| Header.RoleLabels | client/src/components/layout/header.tsx:24 | the badge reads ADMIN, PROJECT OFFICER or EMPLOYEE |
| Header.RoleLabelsDistinct | client/src/components/layout/header.tsx:24 | different roles get different badge texts |
| Header.RoleColorsDistinct | client/src/components/layout/header.tsx:6-10 | each of the three roles has a colour entry, and no two share one |
| Header.Render | client/src/components/layout/header.tsx:12-36 | nothing is rendered iff nobody is signed in; otherwise the greeting, role badge, colour and the name's word starts |
| Text.JoinSplit | client/src/components/layout/header.tsx:29 | joining the pieces of `split(sep)` with sep gives back the string |
| Text.SplitJoin | client/src/components/layout/header.tsx:29 | splitting a join of separator-free pieces gives back the pieces |
| Text.DisplayLabel | client/src/components/layout/header.tsx:24 | same length; the first "_" becomes a space and every other character is upper-cased |
| Text.ReplaceFirst | client/src/components/layout/header.tsx:24 | only the first occurrence is replaced, and a string without one is unchanged |
| Text.IndexOf | client/src/components/layout/header.tsx:24 | -1 iff the character is absent; otherwise its first position |
| Text.ToUpperAppend | client/src/components/layout/header.tsx:24 | upper-casing distributes over concatenation |

## Left out

- Postgres and drizzle plumbing (`db`, `pool`, the session store), Express wiring, `setupAuth` and password hashing. The store is in memory and the session is a parameter.
- Foreign-key constraints are not enforced: a row may name a missing project or user. Postgres would reject such an insert, and the model accepts it.
- A rejected insert leaves the id counter where it was. A real `serial` sequence advances even on rejection, so ids may have gaps that the model lacks.
- drizzle's chained `.where` in `getBudgetItems` (server/storage.ts:130-136) is assumed to conjoin the project and the date filters. Whether the second call replaces the first is library behaviour outside this model.
- drizzle's `.set` drops undefined values, so an absent completion date leaves the stored one in place. The model assumes this library behaviour.
- Rejected store calls end in `StoreFailure`. In the source the promise rejects, and routes.ts decides no response for that case.
- `parseInt` of path parameters, with its `NaN` case, is not modelled. Path parameters arrive as integers.
- Request bodies are assumed to be well typed. The enum columns are plain `text` in Postgres, so a stray value would be stored; the model's datatypes cannot hold one.
- `Number(item.amount)` is floating point in the source. The model sums exact integer cents.
- Date parsing (`new Date(...)`) and the clock are replaced by integer parameters.
- The rendering, forms and query caching of the React pages are not modelled. Neither are the pages' own `canManage*` checks, which repeat the server gate, or the clock-based lateness test on attendance.
- The loading flags of the dashboard cards are not modelled.
- The order of chart entries is not modelled: `ChartData` is a set of bars.
- The histogram is keyed by status values, not by their stored strings. `TaskStatusName` maps one to one, so nothing is lost.
- `getUsers` and `getProjects` return the tables themselves.
- Upper-casing is ASCII only. The role and status names contain nothing else.
- Async and Promise structure is left out, since the code has no concurrency.
- Storage.Store.GetTasks, Storage.Store.GetMilestones, Storage.Store.GetReports and Storage.Store.GetAttendance fix insertion order as the row order. The queries have no ORDER BY, so Postgres promises no order, and the mark `getAttendance` picks among several for one user is unspecified in the source. The model's choice is the first mark in insertion order.
- Storage.Store.CreateProject, Storage.Store.CreateTask, Storage.Store.CreateBudgetItem, Storage.Store.CreateMilestone and Storage.Store.CreateReport: a request body that carries the serial `id`, or a column outside the `New*` record, is not modelled. drizzle's `.values()` inserts any such column, so a body id would be used, or would hit a primary-key violation. The `New*` records, and so Routes.BindTask, Routes.BindBudgetItem, Routes.BindMilestone and Routes.BindReport, carry every other column, with the defaulted ones (`budget`, `status`, `priority`, `createdAt`, `attachments`) as `Option`s that the `*Row` functions default. The fresh-id promises hold only for bodies without an `id`.
- Dashboard.StatsCards shows the corrected numeric budget total, not the concatenated text the page as written displays. That behaviour is in the Findings pair (`Dashboard.TotalBudgetAsWrittenConcatenates`).
- Header.FirstChar, Header.InitialsAreWordStarts and Header.Render take initials per Unicode character. JavaScript's `n[0]` takes one UTF-16 code unit, so for a word starting outside the Basic Multilingual Plane the page shows half a surrogate pair, and the model does not.

## Findings

| source | as written | input that shows it | evidently intended | confidence | as-written member | corrected member |
|---|---|---|---|---|---|---|
| client/src/pages/dashboard.tsx:19-23 | `acc.totalBudget += project.budget` starts from the number 0, but a decimal column reaches the client as text, so every `+=` appends a string | one project with budget "100.00" shows a Total Budget of "0100.00" | the numeric sum of the budgets | high that the column is text; not executed | Dashboard.TotalBudgetAsWrittenConcatenates | Dashboard.ProjectStats |
