# Office management: a verified model

A Dafny model of the logic in the Ofc-Management office application. There
are five parts.

- **Record store.** Tasks, attendance, leaves, expenses, users and monthly
  summaries are in-memory tables. The store's methods insert, update and
  delete rows in place. The model is a class, `Storage.DatabaseStorage`
  (`server/storage.ts`), over the row types and insert schemas of module
  `Schema`. Those rows take their columns from `shared/schema.ts` and add
  the columns that `server/storage.ts` and the pages read and write;
  "## Left out" says which columns come from where.
- **HTTP handlers** (`server/routes.ts`, module `Server`):
  - the role bootstrap that gives the first user to sign in the admin role
    and every later user the staff role;
  - the role-scoped list handlers;
  - the create, update, delete and status handlers, with their status
    codes.
- **Shared route table** (`shared/routes.ts`, module `Api`): `buildUrl`
  and the declared inputs of the two status updates.
- **Client logic** (modules `App`, `StatusBadge`, `ClientView` and one
  module per page):
  - the route guard and its role table;
  - the organization filter of the admin pages;
  - searches, the date list, per-status counts and badges;
  - the payload each dialog sends, and the dialog state it resets;
  - the organization slug;
  - the inclusive leave-day count;
  - the check-in and check-out buttons.
- **Database SSL decision** (`server/db.ts`, module `DbConfig`).

The model leaves some behaviour to parameters:

- The clock is a parameter (`now`, `today`).
- Password hashing is an uninterpreted function `hash`.
- `parseInt`, the URL parser and the conversion of date text to an instant
  are uninterpreted functions.
- The browser's current user is an `Option<Viewer>`.
- A database insert that fails is a boolean `dbFails`.
- The auth module's user lookup is a function `authUser`.

Strings are `seq<char>`, with these JavaScript semantics:

- `toLowerCase` lower-cases the letters A to Z.
- `includes` and `indexOf` find the first occurrence.
- `replace` with a string pattern replaces the first occurrence and reads
  `$` patterns in the replacement.
- `\s` is the ECMAScript white-space class.
- `Array.prototype.sort` on strings uses code-unit order.

Each list a query returns is modelled as a subsequence of its table, in
table order.

Modules and what they model:

- `Wrappers`, `Seqs`, `Text`: Option/Result; filter, find, count, take and sort on sequences; the JavaScript string operations.
- `Schema`: the tables of `shared/schema.ts`, with the columns `server/storage.ts` uses.
- `Storage`: `server/storage.ts`.
- `Server`: `server/routes.ts`.
- `Api`: `shared/routes.ts`.
- `App`: `client/src/App.tsx`.
- `StatusBadge`: `client/src/components/StatusBadge.tsx`.
- `DbConfig`: `server/db.ts`.
- `ClientView`: The viewer, organization filter, case-insensitive search, staff picker and picker value that the pages share.
- `AdminAttendance`, `AdminApprovals`, `AdminEmployees`, `AdminTasks`, `AdminOrganizations`, `StaffLeaves`, `StaffDashboard`, `StaffAttendance`: The client pages of those names.

## Model

| member | source | states |
|---|---|---|
| `Schema.ParseTask` | shared/schema.ts:12-23 | The task insert schema accepts a body exactly when title and both user ids are present and any status and priority given are listed values. An accepted body keeps its title, description, both user ids, organization, status, priority, due date and completion level. A refused one reports at least one issue. |
| `Schema.NewTask` | shared/schema.ts:18-22 | A created task defaults to status "pending", priority "medium" and completion level 0 when these are not given. It keeps the insert's title, description, assignee, assigner, organization and due date, and records the insert time with no update time. |
| `Schema.ParsedTaskWellTyped` | shared/schema.ts:18-19 | A validated task body creates a row whose status and priority are listed values. |
| `Schema.CompletionLevelUnchecked` | shared/schema.ts:21 | A completion level of 150 is accepted and stored: the 0-100 range is documented but not checked. |
| `Schema.ParseTaskPatch` | shared/schema.ts:111 | The partial task schema accepts any subset of the fields, but still refuses an unlisted status or priority. An accepted patch keeps every field as given. |
| `Schema.ParseAttendance` | shared/schema.ts:25-32 | The attendance insert schema needs a user id and a date. A status, when given, must be present, absent or leave. An accepted body keeps its user, date, status, both times and organization. |
| `Schema.NewAttendance` | shared/schema.ts:29 | A new record defaults to status "present" and keeps its check-in and check-out times. |
| `Schema.HalfDayRefused` | shared/schema.ts:29 | The status "half_day" is refused by the attendance schema. |
| `Schema.ParseLeave` | shared/schema.ts:34-43 | The leave insert schema needs a user, a listed type, both dates and a reason, and it drops any status the body carries. An accepted body keeps its user, type, dates, reason, days and organization. |
| `Schema.NewLeave` | shared/schema.ts:41 | A new leave is pending and carries no approver. It keeps the insert's user, type, dates, days, reason and organization, and records the insert time. |
| `Schema.CreatedLeaveIsPending` | shared/schema.ts:113 | Whatever status a body carries, the leave it creates is pending and well typed. |
| `Schema.EmergencyRefused` | shared/schema.ts:37 | The leave type "emergency" is refused. |
| `Schema.ParseExpense` | shared/schema.ts:45-55 | The expense insert schema needs a user, an integer amount in cents, a description, a date and a category. An accepted body keeps those, the receipt and the organization. |
| `Schema.NewExpense` | shared/schema.ts:52 | A new expense is pending and carries no approver. It keeps the insert's user, amount, description, date, category, receipt and organization, and records the insert time. |
| `Schema.CreatedExpenseIsPending` | shared/schema.ts:114 | Every created expense is pending and well typed. |
| `Schema.NewRoleRow` | shared/schema.ts:58-64 | A role row carries the serial id it is stored under, defaults to "staff" and keeps its department and title. |
| `Schema.ParseUserRole` | shared/schema.ts:58-64 | The role insert schema needs a user id and accepts a role only from admin, staff and proprietor. |
| `Storage.FirstById` | server/storage.ts:92-95 | The row found by id has that id and is in the table. None is found exactly when no row has the id. |
| `Storage.FirstByIdIsTheRow` | server/storage.ts:166-167 | In a table with unique ids, the lookup by a row's id finds that row. |
| `Storage.WithoutId` | server/storage.ts:193-195 | A delete by id keeps exactly the rows with another id, in order. |
| `Storage.WithoutIdKeyed` | server/storage.ts:193-195 | A delete keeps the ids unique and below the serial counter. |
| `Storage.AppendKeyed` | server/storage.ts:183-186 | An insert with the counter's id keeps ids unique and advances the counter. |
| `Storage.TasksAssignedTo` | server/storage.ts:152-157 | The result holds exactly the tasks assigned to the user, as a subsequence of the table. |
| `Storage.TasksInOrganization` | server/storage.ts:159-164 | The result holds exactly the tasks of the organization, as a subsequence. |
| `Storage.AttendanceOfUser` | server/storage.ts:203-207 | The result holds exactly the user's attendance records, as a subsequence. |
| `Storage.AttendanceInOrganization` | server/storage.ts:209-214 | The result holds exactly the organization's attendance records, as a subsequence. |
| `Storage.LeavesOfUser` | server/storage.ts:258-262 | The result holds exactly the user's leaves, as a subsequence. |
| `Storage.LeavesInOrganization` | server/storage.ts:264-269 | The result holds exactly the organization's leaves, as a subsequence. |
| `Storage.PendingLeaves` | server/storage.ts:299-302 | The result holds exactly the leaves whose status is "pending". |
| `Storage.ExpensesOfUser` | server/storage.ts:310-314 | The result holds exactly the user's expenses, as a subsequence. |
| `Storage.ExpensesInOrganization` | server/storage.ts:316-321 | The result holds exactly the organization's expenses, as a subsequence. |
| `Storage.PendingExpenses` | server/storage.ts:351-354 | The result holds exactly the expenses whose status is "pending". |
| `Storage.UsersInOrganization` | server/storage.ts:122-124 | The result holds exactly the users of the organization, as a subsequence. |
| `Storage.SummariesOfUser` | server/storage.ts:361-365 | The result holds exactly the user's summaries. |
| `Storage.SummaryFor` | server/storage.ts:367-375 | A summary is returned only when user, month and year all match. None is returned exactly when no summary matches all three. |
| `Storage.RecordOn` | server/storage.ts:245-250 | The record returned has the user and the day. None is returned exactly when no record has both. |
| `Storage.UserByEmail` | server/storage.ts:87-90 | A found user has the email. None is returned exactly when no user has it. |
| `Storage.UserById` | server/storage.ts:92-95 | A found user is in the table and has the id; none is found exactly when no user has it. |
| `Storage.EnrichedTasks` | server/storage.ts:173-181 | Each task is kept in order. Its assignee and its assigner are each found exactly when a user with that id exists, and a found one is that user from the table. |
| `Storage.EnrichedAttendance` | server/storage.ts:226-233 | Each record is kept in order. Its user is found exactly when a user with that id exists, and a found one is from the table with that id. |
| `Storage.ApproverOf` | server/storage.ts:275-278 | The approver is looked up only for a truthy approver id, and a found approver has that id. |
| `Storage.EnrichedLeaves` | server/storage.ts:271-282 | Each leave is kept in order with its user (found exactly when one exists, and then the user with that id) and its approver as `ApproverOf` gives it. |
| `Storage.EnrichedExpenses` | server/storage.ts:323-334 | Each expense is kept in order with its user and its approver, as for leaves. |
| `Storage.StampLeave` | server/storage.ts:289-294 | The status is set. The approver id and approval time are written only for a truthy approver id, and otherwise kept. No other field changes. |
| `Storage.SetLeaveStatus` | server/storage.ts:295 | Rows with the id are stamped and every other row is unchanged. |
| `Storage.StampExpense` | server/storage.ts:341-346 | As for leaves: the status is set, and the approver is stamped only for a truthy id. The claim's amount, description, date, category and receipt are never touched. |
| `Storage.SetExpenseStatus` | server/storage.ts:347 | Rows with the id are stamped and every other row is unchanged. |
| `Storage.DecidedLeaveNotPending` | server/storage.ts:289-302 | After a leave is set to a status other than pending, the pending list holds only rows that were pending before and none with that id. |
| `Storage.DecidedExpenseNotPending` | server/storage.ts:341-354 | The same for expenses. |
| `Storage.ApplyTaskPatch` | server/storage.ts:188-191 | Every field given in the update is written, with a fresh update time. Every absent field keeps its value, and the id and creation time are kept. |
| `Storage.PatchTasks` | server/storage.ts:189 | Only the row with the id is patched, and the other rows are unchanged. |
| `Storage.PatchKeepsTaskWellTyped` | server/storage.ts:188-191 | An update accepted by the partial schema keeps a well-typed task well typed. |
| `Storage.HashPatchPassword` | server/storage.ts:107-109 | The password of an update is hashed only when it is a non-empty string. Nothing else in the update changes. |
| `Storage.ApplyUserPatch` | server/storage.ts:110 | Each given field (email, password, names, role, department, title, organization, active flag) is written, each absent one is kept, and the id never changes. |
| `Storage.PatchUsers` | server/storage.ts:110 | Only the user with the id is changed. |
| `Storage.UpdatedPassword` | server/storage.ts:106-111 | After an update, the stored password is the hash of a new non-empty password; an absent password keeps the old hash; an empty password is stored as given. |
| `Storage.DatabaseStorage.constructor` | server/storage.ts:388 | The store starts with empty tables and every counter at 1. |
| `Storage.DatabaseStorage.GetUserByEmail` | server/storage.ts:87-90 | Returns `UserByEmail` of the users table. |
| `Storage.DatabaseStorage.GetUser` | server/storage.ts:92-95 | Returns the user with the id, or None exactly when there is none. |
| `Storage.DatabaseStorage.CreateUser` | server/storage.ts:97-103 | Appends a user whose stored password is `hash(password)`, never the plain text. It takes the next id, and the other tables are unchanged. |
| `Storage.DatabaseStorage.UpdateUser` | server/storage.ts:106-111 | A patch with no field given leaves nothing to set: the query builder throws (`Err`) and no table changes. Otherwise the users table becomes `PatchUsers` with the password hashed first, and the result is the updated row, or None exactly when no user has the id. The other tables are unchanged. |
| `Storage.DatabaseStorage.DeleteUser` | server/storage.ts:114-116 | Removes exactly the users with the id. |
| `Storage.DatabaseStorage.GetUsersByOrganization` | server/storage.ts:122-124 | Returns `UsersInOrganization`. |
| `Storage.DatabaseStorage.EnrichTasks` | server/storage.ts:173-181 | The loop returns `EnrichedTasks` of its list. |
| `Storage.DatabaseStorage.GetTasks` | server/storage.ts:147-150 | Returns every task, enriched. |
| `Storage.DatabaseStorage.GetTasksByUserId` | server/storage.ts:152-157 | Returns the user's tasks, enriched. |
| `Storage.DatabaseStorage.GetTasksByOrganization` | server/storage.ts:159-164 | Returns the organization's tasks, enriched. |
| `Storage.DatabaseStorage.GetTask` | server/storage.ts:166-171 | Returns None exactly when no task has the id, and otherwise that task, enriched. |
| `Storage.DatabaseStorage.CreateTask` | server/storage.ts:183-186 | Appends `NewTask` with the next id, and nothing else changes. |
| `Storage.DatabaseStorage.UpdateTask` | server/storage.ts:188-191 | The tasks table becomes `PatchTasks`. The result is the patched row, or None when no task has the id. The other tables are unchanged. |
| `Storage.DatabaseStorage.DeleteTask` | server/storage.ts:193-195 | Removes exactly the tasks with the id, and the other tables are unchanged. |
| `Storage.DatabaseStorage.EnrichAttendance` | server/storage.ts:226-233 | The loop returns `EnrichedAttendance` of its list. |
| `Storage.DatabaseStorage.GetAttendance` | server/storage.ts:198-201 | Returns every record, enriched. |
| `Storage.DatabaseStorage.GetAttendanceByUserId` | server/storage.ts:203-207 | Returns the user's records. |
| `Storage.DatabaseStorage.GetAttendanceByOrganization` | server/storage.ts:209-214 | Returns the organization's records, enriched. |
| `Storage.DatabaseStorage.CreateAttendance` | server/storage.ts:235-238 | Appends `NewAttendance` with the next id. |
| `Storage.DatabaseStorage.GetTodayAttendance` | server/storage.ts:245-250 | Returns `RecordOn` for the user and today's date. |
| `Storage.DatabaseStorage.EnrichLeaves` | server/storage.ts:271-282 | The loop returns `EnrichedLeaves` of its list. |
| `Storage.DatabaseStorage.GetLeaves` | server/storage.ts:253-256 | Returns every leave, enriched. |
| `Storage.DatabaseStorage.GetLeavesByUserId` | server/storage.ts:258-262 | Returns the user's leaves. |
| `Storage.DatabaseStorage.GetLeavesByOrganization` | server/storage.ts:264-269 | Returns the organization's leaves, enriched. |
| `Storage.DatabaseStorage.CreateLeave` | server/storage.ts:284-287 | Appends `NewLeave` with the next id. |
| `Storage.DatabaseStorage.UpdateLeaveStatus` | server/storage.ts:289-297 | The leaves table becomes `SetLeaveStatus`. The result is the stamped row, or None when no leave has the id. The other tables are unchanged. |
| `Storage.DatabaseStorage.GetPendingLeaves` | server/storage.ts:299-302 | Returns the pending leaves, enriched. |
| `Storage.DatabaseStorage.EnrichExpenses` | server/storage.ts:323-334 | The loop returns `EnrichedExpenses` of its list. |
| `Storage.DatabaseStorage.GetExpenses` | server/storage.ts:305-308 | Returns every expense, enriched. |
| `Storage.DatabaseStorage.GetExpensesByUserId` | server/storage.ts:310-314 | Returns the user's expenses. |
| `Storage.DatabaseStorage.GetExpensesByOrganization` | server/storage.ts:316-321 | Returns the organization's expenses, enriched. |
| `Storage.DatabaseStorage.CreateExpense` | server/storage.ts:336-339 | Appends `NewExpense` with the next id. |
| `Storage.DatabaseStorage.UpdateExpenseStatus` | server/storage.ts:341-349 | The expenses table becomes `SetExpenseStatus`; otherwise as for leaves. |
| `Storage.DatabaseStorage.GetPendingExpenses` | server/storage.ts:351-354 | Returns the pending expenses, enriched. |
| `Storage.DatabaseStorage.GetMonthlySummaries` | server/storage.ts:357-359 | Returns every summary. |
| `Storage.DatabaseStorage.GetMonthlySummariesByUser` | server/storage.ts:361-365 | Returns the user's summaries. |
| `Storage.DatabaseStorage.GetMonthlySummary` | server/storage.ts:367-375 | Returns `SummaryFor` the user, month and year. |
| `Storage.DatabaseStorage.CreateMonthlySummary` | server/storage.ts:377-380 | Appends a summary with the next id and every given field: user, month, year, the six totals and the organization. |
| `Server.ValidationFailure` | server/routes.ts:85-86 | A refused body answers 400 with the first issue's message. |
| `Server.SignIn` | server/routes.ts:24-39 | An existing role row is kept and no row is written. Otherwise a user with no row on an empty table gets admin, "General", "Administrator"; on a non-empty table they get staff, "General", "Staff Member". The new row takes the next serial id. Every other row is kept. |
| `Server.EffectiveRole` | server/routes.ts:43 | The enriched role is never empty: an empty role falls back to "staff". |
| `Server.Enriched` | server/routes.ts:41-46 | The enriched user carries the account, the effective role, and the row's department and title. |
| `Server.SignInsExtend` | server/routes.ts:29-38 | Sign-ins never change or drop a row that is already there. |
| `Server.LaterSignInsAreStaff` | server/routes.ts:29-38 | Once the table holds a row, later sign-ins keep every row and add only staff rows, one per new user. |
| `Server.FirstSignInIsAdmin` | server/routes.ts:29-38 | From an empty table, the first user to sign in is admin and every other user who signs in is staff. |
| `Server.UserRoles.GetUserRole` | server/routes.ts:26 | Returns the user's row exactly when there is one. |
| `Server.UserRoles.CountUserRoles` | server/routes.ts:30-31 | Returns the number of rows. |
| `Server.UserRoles.AssignUserRole` | shared/schema.ts:58-64 | A second row for a user breaks the unique user id: it fails and leaves the table unchanged. Otherwise the new row is added under the next serial id. |
| `Server.GetEnrichedUser` | server/routes.ts:24-47 | The role table becomes `SignIn` of the old one, and the result is the caller enriched with their row. |
| `Server.VisibleTasks` | server/routes.ts:57-61 | Admin and proprietor get every task. Anyone else gets exactly the tasks assigned to them. |
| `Server.VisibleLeaves` | server/routes.ts:141-145 | Admin and proprietor get every leave. Anyone else gets exactly their own. |
| `Server.VisibleExpenses` | server/routes.ts:180-184 | Admin and proprietor get every expense. Anyone else gets exactly their own. |
| `Server.VisibleAttendance` | server/routes.ts:115-119 | Admin and proprietor get every record. Anyone else gets exactly their own. |
| `Server.EnrichUsers` | server/routes.ts:64-68 | Enriching a list of users signs each one in, in order. Each result is that user enriched with their row. |
| `Server.AfterCaller` | server/routes.ts:54-68 | Enrichment after the caller's sign-in keeps every row and adds only staff rows. |
| `Server.SignInsConcat` | server/routes.ts:64-68 | Sign-ins compose: signing in a + b equals signing in a, then b. |
| `Server.ListTasks` | server/routes.ts:52-71 | Without a caller: 401, and the role table is unchanged. Otherwise 200 with the visible tasks, each with its assignee and assigner enriched. Only staff rows are added apart from the caller's own. |
| `Server.ListVisibleTasks` | server/routes.ts:55-67 | Lists the tasks the role sees, each with its assignee and assigner enriched. The table becomes the sign-ins of every assignee, then of every assigner. |
| `Server.ListAttendance` | server/routes.ts:111-120 | 401 without a caller. Admin roles get every record joined with its user, and others get their own records. |
| `Server.ListLeaves` | server/routes.ts:136-153 | 401 without a caller. Otherwise the visible leaves, each with its user enriched. The approver is carried only on the admin path. |
| `Server.ListVisibleLeaves` | server/routes.ts:139-149 | Lists the leaves the role sees, each with its user enriched. The table becomes the sign-ins of their users. |
| `Server.ListExpenses` | server/routes.ts:175-192 | The same for expenses. |
| `Server.ListVisibleExpenses` | server/routes.ts:178-188 | The same for expenses. |
| `Server.ListedEntryAsWritten` | server/routes.ts:221-224 | As written, a listed user carries the role row's id, the account as given, and the row's role, department and title. |
| `Server.ListedIdIsRowId` | server/routes.ts:221-224 | As written, the first user to sign in is listed with id 1, whatever their own id. |
| `Server.ListedEntry` | server/routes.ts:221-224 | Corrected: a listed user carries their own user id, and otherwise equals the as-written element. |
| `Server.ListUsers` | server/routes.ts:214-226 | As written: 401 without a caller. Otherwise 200 and one element per role row, with no user listed twice. Each element is spread from the account and then the row, so it carries the row's serial id (`UsersListedAsWritten`). |
| `Server.WithOwnIds` | server/routes.ts:221-224 | Corrected: each element gets its own user id back as `id`, and nothing else changes. |
| `Server.OwnIdsCorrectListing` | server/routes.ts:221-224 | Corrected: putting the user ids back turns the handler's listing into the corrected listing `UsersListed`. |
| `Server.AssignRoleRoute` | server/routes.ts:228-239 | 401 without a caller. A refused body gets 400 with the first message, and a duplicate user id gets 500; neither writes anything. Otherwise 200 with the new row, which is added to the table. |
| `Server.Me` | server/routes.ts:241-245 | 401 without a caller. Otherwise 200 with the caller enriched after sign-in. |
| `Server.GetTaskRoute` | server/routes.ts:73-77 | 401 without a caller. 404 "Task not found" when no task has the id. Otherwise 200 with the task, enriched. |
| `Server.CreateTaskRoute` | server/routes.ts:79-90 | 401 without a caller. A refused body gets 400 with the first message and a failing insert gets 500; neither stores anything. Otherwise 201 with the new task, appended. Any signed-in role may create. |
| `Server.UpdateTaskRoute` | server/routes.ts:92-103 | 401, then 400 for a body refused by the partial schema, then 500 for a failing update. Otherwise 200 and the table becomes `PatchTasks`. The reply is no task exactly when no row has the id, and otherwise that row with the patch applied and the update time stamped. |
| `Server.DeleteTaskRoute` | server/routes.ts:105-108 | 401 without a caller. Otherwise 204 with the tasks with the id removed, whether or not one existed. |
| `Server.MarkAttendanceRoute` | server/routes.ts:122-133 | 401, 400, 500, or 201 with the new record, as for task creation. |
| `Server.CreateLeaveRoute` | server/routes.ts:155-166 | 401, 400, 500, or 201 with a pending leave appended. |
| `Server.CreateExpenseRoute` | server/routes.ts:194-205 | 401, 400, 500, or 201 with a pending expense appended. |
| `Server.UpdateLeaveStatusRoute` | server/routes.ts:168-172 | As written: 401 without a caller. A body without a status makes the update throw, uncaught, and nothing is stored. Otherwise the body's status is stored unchecked and no approver id is passed, so no row's approver id or approval time changes. The 200 reply is no leave exactly when no row has the id, and otherwise that row stamped with the status. |
| `Server.UpdateExpenseStatusRoute` | server/routes.ts:207-211 | The same for expenses: the status is stored unchecked, no approver is stamped, and the 200 reply is the stamped expense, or none exactly when no row has the id. |
| `Server.UncheckedStatusStored` | server/routes.ts:168-172 | One request turns a table of listed statuses into one holding "archived". |
| `Server.ListedStatusKeepsLeavesWellTyped` | shared/routes.ts:206 | A listed status keeps every leave row well typed. |
| `Server.UpdateLeaveStatusCheckedRoute` | shared/routes.ts:203-211 | With the declared input checked, an unlisted status answers 400 and stores nothing. A listed status is stored with the given approver id, and the leaves stay well typed. The 200 reply is no leave exactly when no row has the id, and otherwise that row stamped with the status and approver. |
| `Server.ListedStatusKeepsExpensesWellTyped` | shared/routes.ts:233 | A listed status keeps every expense row well typed. |
| `Server.UpdateExpenseStatusCheckedRoute` | shared/routes.ts:230-238 | The same for expenses: 400 for an unlisted status; otherwise the expenses stay well typed and the 200 reply is the stamped expense, or none exactly when no row has the id. |
| `Api.ParseStatusUpdate` | shared/routes.ts:206 | A status update is accepted exactly when its status is pending, approved or rejected. The optional approver id is kept. |
| `Api.ApplyParam` | shared/routes.ts:305-307 | A key whose ":key" is absent leaves the url unchanged. Otherwise the first occurrence is replaced. |
| `Api.BuildUrl` | shared/routes.ts:301-311 | Without params the path is returned unchanged. Otherwise the entries are applied in order, each to the url left by the previous ones. |
| `Api.NoParamsUnchanged` | shared/routes.ts:310 | No entries, no change. |
| `Api.AbsentKeyUnchanged` | shared/routes.ts:305 | A key whose placeholder does not occur changes nothing. |
| `Api.NumTextPlain` | shared/routes.ts:306 | A number's text carries no "$", so it is inserted literally. |
| `Api.ReplacesAt` | shared/routes.ts:306 | The first ":key" is replaced by the value's template, expanded against the text around it. The text after it is kept verbatim. |
| `Api.ReplacesFirstPlaceholder` | shared/routes.ts:306 | A value without "$" is inserted literally in place of the first ":key". |
| `Api.TaskUrl` | shared/routes.ts:125 | The task path with id n is "/api/tasks/" followed by n's digits. |
| `Api.LeaveStatusUrl` | shared/routes.ts:205 | The leave status path keeps its "/status" suffix. |
| `Api.OnlyFirstReplaced` | shared/routes.ts:306 | Of two equal placeholders only the first is replaced. |
| `Api.PrefixOfLongerKey` | shared/routes.ts:305-306 | Matching is textual: any key rewrites the start of a longer placeholder it begins, as "id" does to ":idx", leaving the rest of that placeholder behind. |
| `Api.LaterKeySeesInsertedText` | shared/routes.ts:304-306 | A later entry sees the text an earlier one inserted. |
| `Api.DollarAmpersandKeepsPlaceholder` | shared/routes.ts:306 | A string value is a replacement template: "$&" puts the placeholder back. |
| `Text.ToLower` | client/src/components/StatusBadge.tsx:10 | `toLowerCase` keeps the length and lower-cases each character. |
| `Text.ToLowerIdempotent` | client/src/pages/admin/AdminOrganizations.tsx:50 | Lower-casing twice equals lower-casing once. |
| `Text.IndexOf` | shared/routes.ts:305 | `indexOf` reports the first occurrence, and None only when there is none. |
| `Text.IncludesIff` | shared/routes.ts:305 | `includes` holds exactly when the pattern occurs somewhere. |
| `Text.ReplaceFirst` | shared/routes.ts:306 | With no occurrence, `replace` returns the string unchanged. |
| `Text.StrLessTransitive` | client/src/pages/admin/AdminAttendance.tsx:39 | The default string order of `sort` is transitive. |
| `Text.StrLessTrichotomy` | client/src/pages/admin/AdminAttendance.tsx:39 | Two strings are equal or one sorts first. |
| `App.PrivateRoute` | client/src/App.tsx:29-71 | While either query loads, the result is the spinner. Without authentication or a user it redirects to /login. It renders exactly when authenticated with a user whose role is empty or allowed, or there is no role list. On a mismatch it redirects admin and proprietor to /admin and others to /dashboard. |
| `App.AllowedOn` | client/src/App.tsx:82-122 | A path has an entry exactly when it is a private route. |
| `App.RouteRoles` | client/src/App.tsx:82-122 | Every private route allows staff, admin and proprietor, or any role. |
| `App.OneRedirectSuffices` | client/src/App.tsx:54-55 | For admin, proprietor and staff, a mismatch redirect lands on a private route that renders for that role. |
| `StatusBadge.DisplayTextChars` | client/src/components/StatusBadge.tsx:10 | The shown text has the status's length. The first "_" becomes a space and every other character is lower-cased. |
| `StatusBadge.DisplayTextExample` | client/src/components/StatusBadge.tsx:10 | "a_b_c" is shown as "a b_c". |
| `StatusBadge.ColourOf` | client/src/components/StatusBadge.tsx:12-24 | Each bucket is chosen exactly for its listed statuses, and grey for anything else. It follows that the lists are disjoint. |
| `StatusBadge.ColourExamples` | client/src/components/StatusBadge.tsx:14-24 | The case matters: "Completed" is grey. "half_day" and "leave" are grey, and "completed" is emerald. |
| `StatusBadge.OutlineMapping` | client/src/components/StatusBadge.tsx:26-34 | Emerald, blue, amber and red buckets map to their own outline. Slate and grey both map to the slate outline. |
| `StatusBadge.BadgeClasses` | client/src/components/StatusBadge.tsx:12-34 | Every status of a list gets that list's solid class text and its outline; any other status is solid gray and outlined slate. |
| `StatusBadge.RedLacksEmerald` | client/src/components/StatusBadge.tsx:29 | The red class does not include "emerald", so the first outline test fails for it. |
| `StatusBadge.NoRed` | client/src/components/StatusBadge.tsx:32 | The slate and grey classes do not include "red", so neither takes the red outline. |
| `StatusBadge.OwnName` | client/src/components/StatusBadge.tsx:12-24 | Every bucket's class includes its own colour name. |
| `DbConfig.DatabaseUrl` | server/db.ts:7-13 | An unset or empty DATABASE_URL is an error. |
| `DbConfig.SslMode` | server/db.ts:24 | A set DATABASE_SSL, even an empty one, shadows PGSSLMODE. |
| `DbConfig.Configure` | server/db.ts:7-32 | It fails exactly when the url is missing. Otherwise SSL is used exactly when the mode asks for it, or in production against a non-local host. |
| `DbConfig.UnparseableIsRemote` | server/db.ts:15-22 | An unparseable url counts as non-local. |
| `DbConfig.ProductionRemoteForcesSsl` | server/db.ts:27 | In production, a non-local host gets SSL even when the mode says "disable". |
| `DbConfig.OutsideProductionFollowsMode` | server/db.ts:25-27 | Outside production, SSL is on exactly when the mode is set, non-empty and neither "disable" nor "false". |
| `DbConfig.EmptyDatabaseSslShadows` | server/db.ts:24-26 | An empty DATABASE_SSL switches SSL off outside production, whatever PGSSLMODE says. |
| `ClientView.OrgFilter` | client/src/pages/admin/AdminAttendance.tsx:36 | A viewer without an organization keeps every row. Otherwise exactly the rows of the viewer's organization are kept, in order. |
| `ClientView.EmptySearchMatches` | client/src/pages/admin/AdminEmployees.tsx:42-46 | An empty search matches every field. |
| `ClientView.MatchIgnoresCase` | client/src/pages/admin/AdminEmployees.tsx:42-46 | Search is insensitive to the case of field and query. |
| `ClientView.StaffUsers` | client/src/pages/admin/AdminTasks.tsx:38 | The staff picker holds exactly the listed users whose role is "staff"; the attendance dialog uses the same list. |
| `ClientView.ListedIdIsUserId` | server/routes.ts:221-224 | In the corrected listing, every element's id is its user's id. |
| `ClientView.OrNull` | client/src/pages/admin/AdminOrganizations.tsx:33-35 | An empty field is sent as null and any other field as itself. |
| `AdminAttendance.OrgAttendance` | client/src/pages/admin/AdminAttendance.tsx:36 | Exactly the records of the viewer's organization, or all of them when the viewer has none. |
| `AdminAttendance.InsertDate` | client/src/pages/admin/AdminAttendance.tsx:39 | Inserting into a strictly descending list keeps it strictly descending and adds exactly the date. |
| `AdminAttendance.SortedDistinct` | client/src/pages/admin/AdminAttendance.tsx:39 | The result is strictly descending and holds exactly the input's dates. |
| `AdminAttendance.UniqueDates` | client/src/pages/admin/AdminAttendance.tsx:39 | The date list is strictly descending, hence duplicate-free. It holds exactly the dates present in the records. |
| `AdminAttendance.DescendingIsDistinct` | client/src/pages/admin/AdminAttendance.tsx:39 | A strictly descending list repeats no date. |
| `AdminAttendance.FilteredAttendance` | client/src/pages/admin/AdminAttendance.tsx:42-47 | A record is kept exactly when it has a user whose first or last name matches, and no date is selected or its date is the selected one. |
| `AdminAttendance.RecordsShown` | client/src/pages/admin/AdminAttendance.tsx:269-271 | The listed records are the organization's records that pass the filters, each once, latest date first. |
| `AdminAttendance.EmptyFiltersKeepRecordsWithUser` | client/src/pages/admin/AdminAttendance.tsx:43-45 | With no search and no date, exactly the records with a user are listed. |
| `AdminAttendance.TodayRecords` | client/src/pages/admin/AdminAttendance.tsx:51 | Exactly the records dated today. |
| `AdminAttendance.TodayCountsOf` | client/src/pages/admin/AdminAttendance.tsx:50-55 | Each count is the number of today's records with that status (present, absent, leave, half_day). Together they are at most today's records, and each is positive exactly when some record of today has that status. |
| `AdminAttendance.MarkPayload` | client/src/pages/admin/AdminAttendance.tsx:60-68 | It sends the parsed user id, the date and the status. An empty check-in or check-out time is sent as null, and a given one as the instant of date and time. The viewer's organization is attached. |
| `AdminAttendance.HalfDayMarkRefused` | client/src/pages/admin/AdminAttendance.tsx:147 | A "half_day" mark is refused by the server's schema. |
| `AdminAttendance.MarkDialog.constructor` | client/src/pages/admin/AdminAttendance.tsx:25-33 | The dialog starts closed with the empty form and status "present". |
| `AdminAttendance.PickedEmployeeIsChosenUser` | client/src/pages/admin/AdminAttendance.tsx:117 | On the corrected listing, picking a staff member marks the attendance of that member's user id. |
| `AdminAttendance.MarkDialog.Submit` | client/src/pages/admin/AdminAttendance.tsx:57-75 | It sends the form's payload. On success the dialog closes and the form is reset; on failure both are kept. |
| `AdminApprovals.OrgLeaves` | client/src/pages/admin/AdminApprovals.tsx:21 | Leaves are narrowed by the organization rule. |
| `AdminApprovals.OrgExpenses` | client/src/pages/admin/AdminApprovals.tsx:22 | Expenses are narrowed by the organization rule. |
| `AdminApprovals.PendingLeaves` | client/src/pages/admin/AdminApprovals.tsx:24 | Exactly the organization's pending leaves, and no more than the organization's leaves. |
| `AdminApprovals.PendingExpenses` | client/src/pages/admin/AdminApprovals.tsx:25 | Exactly the organization's pending expenses. |
| `AdminApprovals.ShowsLeaveBadge` | client/src/pages/admin/AdminApprovals.tsx:110-114 | The badge shows exactly when some pending leave of the organization exists. |
| `AdminApprovals.ShowsExpenseBadge` | client/src/pages/admin/AdminApprovals.tsx:119-123 | The badge shows exactly when some pending expense of the organization exists. |
| `AdminApprovals.LeavesNewestFirst` | client/src/pages/admin/AdminApprovals.tsx:141 | The list is sorted by creation time, newest first, and is a permutation of the organization's leaves. |
| `AdminApprovals.ExpensesNewestFirst` | client/src/pages/admin/AdminApprovals.tsx:213 | The same for expenses. |
| `AdminApprovals.LeaveButtonsMatchBadge` | client/src/pages/admin/AdminApprovals.tsx:167 | The rows offering Approve/Reject are exactly the pending leaves, so a decided leave is never re-decided. |
| `AdminApprovals.ExpenseButtonsMatchBadge` | client/src/pages/admin/AdminApprovals.tsx:237 | The same for expenses. |
| `AdminApprovals.DecisionBody` | client/src/pages/admin/AdminApprovals.tsx:27-61 | Approve sends "approved" and reject sends "rejected", with no approver id. |
| `AdminApprovals.DecisionAccepted` | client/src/pages/admin/AdminApprovals.tsx:29 | Both decisions are accepted by the declared status input. |
| `AdminApprovals.DecisionUrl` | client/src/pages/admin/AdminApprovals.tsx:29 | The decision goes to the status path of that record's id only. |
| `AdminEmployees.OrgUsers` | client/src/pages/admin/AdminEmployees.tsx:40 | Listed users are narrowed by the organization rule, a user without an account having no organization. |
| `AdminEmployees.MatchingEmployees` | client/src/pages/admin/AdminEmployees.tsx:42-46 | Corrected: a listed user is kept exactly when first name, last name or email matches, a missing field reading as empty. |
| `AdminEmployees.FilteredEmployees` | client/src/pages/admin/AdminEmployees.tsx:42-46 | Corrected: a listed user is kept exactly when they are in the organization and first name, last name or email matches the search. |
| `AdminEmployees.EmptySearchListsAll` | client/src/pages/admin/AdminEmployees.tsx:42-46 | In the corrected filter, an empty search lists every user of the organization. |
| `AdminEmployees.SearchEmployeeAsWritten` | client/src/pages/admin/AdminEmployees.tsx:42-46 | As written, the callback throws exactly for a listed user without an account, whatever the search; otherwise it gives the corrected match. |
| `AdminEmployees.MatchingEmployeesAsWritten` | client/src/pages/admin/AdminEmployees.tsx:42-46 | As written, the filter throws exactly when some user has no account; otherwise it gives the corrected list. |
| `AdminEmployees.FilterEmployeesAsWritten` | client/src/pages/admin/AdminEmployees.tsx:40-46 | As written, the page throws exactly when a user of the organization has no account; otherwise it shows the corrected list. |
| `AdminEmployees.AccountlessUserFailsEverySearch` | client/src/pages/admin/AdminEmployees.tsx:42-46 | A role row without an account makes the page throw for every search of a viewer without an organization, the empty one included, while the corrected filter lists that user. |
| `AdminEmployees.CreateEmployeePayload` | client/src/pages/admin/AdminEmployees.tsx:51-61 | It sends the form's fields. The organization is null when none is chosen and otherwise the parsed choice. isActive is always true. |
| `AdminEmployees.EmployeeDialog.constructor` | client/src/pages/admin/AdminEmployees.tsx:29-38 | The dialog starts closed with the empty form and role "staff". |
| `AdminEmployees.EmployeeDialog.Create` | client/src/pages/admin/AdminEmployees.tsx:48-68 | It sends the payload. On success the dialog closes and the form is reset; on failure both are kept. |
| `AdminEmployees.DeleteRequest` | client/src/pages/admin/AdminEmployees.tsx:70-76 | No request is sent exactly when the id is the viewer's own, which is also when the button is disabled. Otherwise the request carries that id. |
| `AdminEmployees.DeleteRefusesOnlyOwnRow` | client/src/pages/admin/AdminEmployees.tsx:275-288 | On the corrected listing, deleting a row is refused exactly on the viewer's own row, and otherwise asks to delete that row's user. |
| `AdminEmployees.RoleBadgeClass` | client/src/pages/admin/AdminEmployees.tsx:83-89 | After "bg-", the class begins with the first letter of the role's colour: red for admin, violet for proprietor, blue otherwise. |
| `AdminEmployees.RoleBadgeTexts` | client/src/pages/admin/AdminEmployees.tsx:83-89 | The three class texts: red for admin, violet for proprietor, blue for any other role. |
| `AdminEmployees.ProprietorBadge` | client/src/pages/admin/AdminEmployees.tsx:86 | The proprietor badge is "bg-violet-100 text-violet-800 border-violet-200". |
| `AdminEmployees.RoleBadgesShareStatusColours` | client/src/pages/admin/AdminEmployees.tsx:83-89 | The admin badge has the red status badge's classes. Any role other than admin and proprietor has the blue status badge's classes. |
| `AdminEmployees.RoleBadgesDistinct` | client/src/pages/admin/AdminEmployees.tsx:83-89 | The three badges differ. |
| `AdminTasks.OrgTasks` | client/src/pages/admin/AdminTasks.tsx:39 | Tasks are narrowed by the organization rule. |
| `AdminTasks.SearchTaskAsWritten` | client/src/pages/admin/AdminTasks.tsx:41-45 | As written, the search throws exactly when the title misses and the assignee has no account. |
| `AdminTasks.FilteredTasks` | client/src/pages/admin/AdminTasks.tsx:41-45 | A task is kept exactly when its title, or its assignee's first or last name, matches. An assignee without an account matches on the title alone. |
| `AdminTasks.FilterTasksAsWritten` | client/src/pages/admin/AdminTasks.tsx:41-45 | As written, the page throws exactly when some task throws. Otherwise it lists `FilteredTasks`. |
| `AdminTasks.TasksShown` | client/src/pages/admin/AdminTasks.tsx:196-198 | The cards are the organization's tasks that match the corrected search, each once, newest creation time first. |
| `AdminTasks.EmptySearchShowsAll` | client/src/pages/admin/AdminTasks.tsx:41-45 | An empty search never throws and lists every task. |
| `AdminTasks.SearchThrowsOnAccountlessAssignee` | client/src/pages/admin/AdminTasks.tsx:43 | A task whose title misses and whose assignee has no account makes the as-written search throw. |
| `AdminTasks.AccountlessAssigneeExample` | client/src/pages/admin/AdminTasks.tsx:43 | A concrete case: an untitled task with an accountless assignee, searched for "a". |
| `AdminTasks.CreateTaskPayload` | client/src/pages/admin/AdminTasks.tsx:47-62 | Nothing is sent without a current user. Otherwise the task has status "pending", completion 0, the creator as assigner and the creator's organization. An empty due date becomes null. |
| `AdminTasks.CreatedTaskAccepted` | client/src/pages/admin/AdminTasks.tsx:52-61 | With a chosen assignee and an offered priority, the payload passes the task schema. The stored task is pending at level 0, assigned by the viewer to the chosen id, in the viewer's organization, with the form's title, description and priority. It has no due date exactly when the form's is empty, and otherwise the instant of the form's date. |
| `AdminTasks.PickedAssigneeIsChosenUser` | client/src/pages/admin/AdminTasks.tsx:141 | On the corrected listing, picking a staff member and submitting assigns the task to that member's user id. |
| `AdminTasks.PickedAssigneeAsWritten` | client/src/pages/admin/AdminTasks.tsx:141 | On the listing as written, the task created for the first user to sign in is assigned to user 1 instead. |
| `AdminTasks.TaskDialog.constructor` | client/src/pages/admin/AdminTasks.tsx:30-36 | The dialog starts closed with the empty form and priority "medium". |
| `AdminTasks.TaskDialog.Create` | client/src/pages/admin/AdminTasks.tsx:47-69 | It sends the payload. The dialog closes and the form resets only on success with a user. |
| `AdminOrganizations.DropSpace` | client/src/pages/admin/AdminOrganizations.tsx:50 | Drops exactly the run of white space at the front. |
| `AdminOrganizations.DashRuns` | client/src/pages/admin/AdminOrganizations.tsx:50 | `replace(/\s+/g, "-")`: the result is no longer than the input. |
| `AdminOrganizations.DashRunsSpec` | client/src/pages/admin/AdminOrganizations.tsx:50 | No white space is left in the result. The characters that are neither white space nor a dash are kept, in order. |
| `AdminOrganizations.DashRunsNoSpace` | client/src/pages/admin/AdminOrganizations.tsx:50 | A string without white space is unchanged. |
| `AdminOrganizations.RunBecomesOneDash` | client/src/pages/admin/AdminOrganizations.tsx:50 | Each maximal run of white space becomes exactly one dash. |
| `AdminOrganizations.Slugify` | client/src/pages/admin/AdminOrganizations.tsx:50 | The derived slug has only a-z, 0-9 and "-", and is no longer than the name. |
| `AdminOrganizations.SlugKeepsLettersAndDigits` | client/src/pages/admin/AdminOrganizations.tsx:50 | The slug keeps the name's letters and digits, lower-cased and in order. |
| `AdminOrganizations.SlugifyIdempotent` | client/src/pages/admin/AdminOrganizations.tsx:50 | Slugifying a slug changes nothing. |
| `AdminOrganizations.SlugIsFixed` | client/src/pages/admin/AdminOrganizations.tsx:32 | A string of slug characters is unchanged by lower-casing and by dashing runs. |
| `AdminOrganizations.SubmitSlug` | client/src/pages/admin/AdminOrganizations.tsx:32 | The sent slug has no white space and no upper case letter, and keeps every other character. |
| `AdminOrganizations.DerivedSlugSentUnchanged` | client/src/pages/admin/AdminOrganizations.tsx:32 | A derived slug is sent unchanged. |
| `AdminOrganizations.TypedSlugKeepsPunctuation` | client/src/pages/admin/AdminOrganizations.tsx:32 | A hand-typed "!" is sent, though the derived slug never holds one. |
| `AdminOrganizations.AcmeExample` | client/src/pages/admin/AdminOrganizations.tsx:32 | A typed "Acme_Co!" is sent as "acme_co!". |
| `AdminOrganizations.OrgPayload` | client/src/pages/admin/AdminOrganizations.tsx:30-36 | It sends the name and the normalised slug. Empty address, phone and email are sent as null. |
| `AdminOrganizations.OrgDialog.constructor` | client/src/pages/admin/AdminOrganizations.tsx:18-25 | The dialog starts closed with the empty form. |
| `AdminOrganizations.OrgDialog.NameChanged` | client/src/pages/admin/AdminOrganizations.tsx:46-52 | Typing a name sets it and overwrites the slug with the derived one, keeping the other fields. |
| `AdminOrganizations.OrgDialog.SlugChanged` | client/src/pages/admin/AdminOrganizations.tsx:98 | Typing a slug sets only the slug. |
| `AdminOrganizations.OrgDialog.Create` | client/src/pages/admin/AdminOrganizations.tsx:27-43 | It sends the payload. On success the dialog closes and the form is reset; on failure both are kept. |
| `AdminOrganizations.NameThenCreateSendsDerivedSlug` | client/src/pages/admin/AdminOrganizations.tsx:27-52 | Typing a name and then creating sends exactly the derived slug. |
| `StaffLeaves.ParseIsoDate` | client/src/pages/staff/StaffLeaves.tsx:36 | A parsed date is a valid calendar date from a ten-character "YYYY-MM-DD". |
| `StaffLeaves.NextDate` | client/src/pages/staff/StaffLeaves.tsx:36 | The next day of a valid date is valid. |
| `StaffLeaves.EpochIsDayZero` | client/src/pages/staff/StaffLeaves.tsx:36 | 1970-01-01 is day 0. |
| `StaffLeaves.YearLength` | client/src/pages/staff/StaffLeaves.tsx:36 | A year counted from March has 366 days when the next calendar year is a leap year, otherwise 365. |
| `StaffLeaves.NextDateIsNextDay` | client/src/pages/staff/StaffLeaves.tsx:36 | The next date's day number is one more. |
| `StaffLeaves.DayNumberIncreasing` | client/src/pages/staff/StaffLeaves.tsx:36 | An earlier date has a smaller day number. |
| `StaffLeaves.DayNumberInjective` | client/src/pages/staff/StaffLeaves.tsx:36 | Different dates have different day numbers. |
| `StaffLeaves.LeaveDays` | client/src/pages/staff/StaffLeaves.tsx:36 | A day count exists exactly when both dates parse. |
| `StaffLeaves.LeaveDaysMeaning` | client/src/pages/staff/StaffLeaves.tsx:36-47 | The count is at least 1 exactly when the end is not before the start, and exactly 1 when the dates are equal. A reversed range gives a count of 0 or less, which is still sent. |
| `StaffLeaves.OneMoreDate` | client/src/pages/staff/StaffLeaves.tsx:36 | Moving the end one day later adds one day. |
| `StaffLeaves.LeapFebruaryExample` | client/src/pages/staff/StaffLeaves.tsx:36 | 2024-02-28 to 2024-03-01 is 3 days, counting 29 February. |
| `StaffLeaves.CommonFebruaryExample` | client/src/pages/staff/StaffLeaves.tsx:36 | 2023-02-28 to 2023-03-01 is 2 days. |
| `StaffLeaves.MarchExample` | client/src/pages/staff/StaffLeaves.tsx:36 | 2024-03-01 to 2024-03-03 is 3 days: both ends count. |
| `StaffLeaves.MyLeaves` | client/src/pages/staff/StaffLeaves.tsx:30 | Exactly the viewer's own leaves, or none without a viewer. |
| `StaffLeaves.MyLeavesShown` | client/src/pages/staff/StaffLeaves.tsx:228-230 | The requests are the viewer's leaves, each once, newest creation time first. |
| `StaffLeaves.Counts` | client/src/pages/staff/StaffLeaves.tsx:172-195 | The total is the number of own leaves. Pending and approved are the numbers of own leaves with that status, together at most the total, and each is positive exactly when such a leave exists. |
| `StaffLeaves.TotalApprovedDaysAppend` | client/src/pages/staff/StaffLeaves.tsx:207-209 | The approved-day total of a concatenation is the sum of the totals. |
| `StaffLeaves.TotalApprovedDaysCons` | client/src/pages/staff/StaffLeaves.tsx:207-209 | A leave adds its days to the total exactly when it is approved. |
| `StaffLeaves.TotalApprovedDaysNonNegative` | client/src/pages/staff/StaffLeaves.tsx:207-209 | With non-negative approved spans, the total is non-negative. |
| `StaffLeaves.LeavePayload` | client/src/pages/staff/StaffLeaves.tsx:32-47 | Nothing is sent without a user. Otherwise the request carries the viewer's id and organization, the form's fields and the computed days, and no status. |
| `StaffLeaves.SubmittedLeaveAccepted` | client/src/pages/staff/StaffLeaves.tsx:39-47 | The request passes the leave schema exactly when its type is listed. It then creates a pending leave of the viewer, in the viewer's organization, with the form's type, dates and reason and the computed days. |
| `StaffLeaves.EmergencyRequestRefused` | client/src/pages/staff/StaffLeaves.tsx:104 | An "emergency" request is refused. |
| `StaffLeaves.LeaveDialog.constructor` | client/src/pages/staff/StaffLeaves.tsx:22-28 | The dialog starts closed with the empty form and type "casual". |
| `StaffLeaves.LeaveDialog.Submit` | client/src/pages/staff/StaffLeaves.tsx:32-61 | It sends the payload. The dialog closes and the form resets only on success with a user. |
| `StaffDashboard.MyTasks` | client/src/pages/staff/StaffDashboard.tsx:16 | Exactly the tasks assigned to the viewer, in order. |
| `StaffDashboard.OpenTasks` | client/src/pages/staff/StaffDashboard.tsx:17 | Exactly the non-completed tasks. Their number plus the completed count is the viewer's task count. |
| `StaffDashboard.DueTasks` | client/src/pages/staff/StaffDashboard.tsx:18 | Exactly the open tasks due strictly after now, in order. |
| `StaffDashboard.Upcoming` | client/src/pages/staff/StaffDashboard.tsx:18 | At most 3 tasks, each open and due after now: the first ones of the due list. With fewer than 3, every due task is shown. |
| `StaffDashboard.UpcomingInOrder` | client/src/pages/staff/StaffDashboard.tsx:18 | The upcoming tasks keep their order among the open ones. |
| `StaffDashboard.Counts` | client/src/pages/staff/StaffDashboard.tsx:21-23 | Each count is the number of the viewer's tasks with that status. Together they are at most the viewer's tasks, so a task with another status is in none of them, and each is positive exactly when such a task exists. |
| `StaffDashboard.CountsAddUp` | client/src/pages/staff/StaffDashboard.tsx:21-23 | When every status is listed, the three counts add up to the task count. |
| `Seqs.Where` | client/src/pages/staff/StaffDashboard.tsx:21-23 | `filter` by one status keeps exactly the elements with that status. |
| `Seqs.CountKey` | client/src/pages/staff/StaffDashboard.tsx:21-23 | `.filter(…).length`: the count is the length of the filtered list, at most the list's length, and positive exactly when some element has the status. |
| `Seqs.CountKeyAppend` | client/src/pages/staff/StaffDashboard.tsx:21-23 | The count over a concatenation is the sum of the counts of the parts. |
| `Seqs.CountKeySingle` | client/src/pages/staff/StaffDashboard.tsx:21-23 | A single element counts 1 exactly when it has the status. |
| `StaffAttendance.TodayRecord` | client/src/pages/staff/StaffAttendance.tsx:19-20 | The record found is one of the viewer's records for today, and the first such one. None is returned exactly when there is none. |
| `StaffAttendance.ButtonsExclusive` | client/src/pages/staff/StaffAttendance.tsx:103-124 | Check In is shown exactly when there is no record for today. Check In and Check Out are never both shown. |
| `StaffAttendance.NoViewerShowsCheckIn` | client/src/pages/staff/StaffAttendance.tsx:20 | Without a user no record matches, so Check In is shown. |
| `StaffAttendance.CheckInPayload` | client/src/pages/staff/StaffAttendance.tsx:28-33 | Check-in sends the viewer's id, today, status "present" and the check-in time. |
| `StaffAttendance.CheckInStored` | client/src/pages/staff/StaffAttendance.tsx:28-33 | The check-in passes the schema and stores a present record for today. |
| `StaffAttendance.CheckInThenCheckOutShown` | client/src/pages/staff/StaffAttendance.tsx:103-124 | Once the check-in is stored, Check Out is shown. |
| `StaffAttendance.MyAttendance` | client/src/pages/staff/StaffAttendance.tsx:22 | Exactly the viewer's records. |
| `StaffAttendance.HistoryShown` | client/src/pages/staff/StaffAttendance.tsx:198-200 | The history is the viewer's records, each once, latest date first. |
| `StaffAttendance.Counts` | client/src/pages/staff/StaffAttendance.tsx:152-178 | The present, leave and absent counts are the numbers of the viewer's records with that status. Together they are at most the viewer's records, and each is positive exactly when such a record exists. |
| `StaffAttendance.AttendancePanel.constructor` | client/src/pages/staff/StaffAttendance.tsx:16-17 | Both busy flags start false. |
| `StaffAttendance.AttendancePanel.CheckIn` | client/src/pages/staff/StaffAttendance.tsx:24-47 | Without a user nothing happens. Otherwise the payload is sent and the busy flag goes true and then back to false. |
| `StaffAttendance.AttendancePanel.CheckOut` | client/src/pages/staff/StaffAttendance.tsx:49-67 | Acts exactly when there is a user and a record for today. It changes no attendance record, and only its busy flag goes true and then false. |

## Left out

- Organizations: the store's CRUD methods (server/storage.ts:127-144) are not modelled. Their table is not declared in shared/schema.ts, and the organization rule lives only in the client filters.
- `getUsers`, `getAttendanceByDateRange`, `updateAttendance` and `updateMonthlySummary` (server/storage.ts:118, 216, 240, 382) are not modelled, because no core handler calls them.
- `getAttendanceByDateRange` would also need the conversion of an instant to a UTC date.
- Monthly summaries are only stored and looked up: no generator exists in the code.
- Ordering by database columns is not modelled: `orderBy(desc(createdAt))`, `desc(dueDate)`, `desc(date)`, and year and month. Lookups return rows in table order. The client-side sorts are modelled as a sort by a numeric key, largest first, that keeps every element: the approvals tabs (AdminApprovals.tsx:141, 213), the date filter (AdminAttendance.tsx:39), the attendance list (AdminAttendance.tsx:270), the task cards (AdminTasks.tsx:197), the attendance history (StaffAttendance.tsx:199) and the leave requests (StaffLeaves.tsx:229). The order among equal keys is not promised. For a date column, `new Date(date).getTime()` is a parameter, and a date it cannot read (NaN) is not modelled.
- `Promise.all` enrichment (server/routes.ts:64-68, 147-150, 186-189) is modelled as sequential sign-ins: all assignees first, then all assigners. Concurrent role writes for the same new user are not modelled.
- Hashing (bcrypt), the Replit auth module, sessions and `authStorage` are parameters or left out.
- `server/replit_integrations/auth` is not part of this model.
- The role table is a map keyed by user id. A new row takes as its serial id one more than the number of rows. The database sequence also uses up a value on an insert it refuses as a duplicate; the model does not.
- Where the columns come from. `shared/schema.ts` and the files that use it come from two versions of the schema. `server/storage.ts` imports tables and insert types that `shared/schema.ts` does not define. `shared/routes.ts` imports `insertUserSchema` and `insertOrganizationSchema`, which it does not export either. Each datatype of `Schema` therefore takes:
  - `Task`: the columns of shared/schema.ts:12-23, plus `organizationId` (server/storage.ts:161) and `updatedAt` (server/storage.ts:189).
  - `Attendance`: shared/schema.ts:25-32, plus `organizationId` (server/storage.ts:211).
  - `Leave`: shared/schema.ts:34-43, plus `organizationId` (server/storage.ts:266), `approvedById` and `approvedAt` (server/storage.ts:289-297), and `days`, which the leave form sends and the leave list sums (client/src/pages/staff/StaffLeaves.tsx:36-44, 209).
  - `Expense`: shared/schema.ts:45-55, plus `organizationId` (server/storage.ts:318), `approvedById` and `approvedAt` (server/storage.ts:341-349).
  - `RoleRow`: shared/schema.ts:58-64.
  - `User` and `MonthlySummary`: these tables are not in shared/schema.ts. Users come from `./models/auth`, which is not part of this model. Their fields are the ones server/storage.ts and the pages read and write.
- Ids and instants. shared/schema.ts declares the user-id columns as `varchar`, so its insert schemas would demand strings there. The model uses integer user ids throughout, as server/storage.ts (`getUser(id: number)`) and the pages (`parseInt`) do. Instants are integers. The pages send them as ISO text (client/src/pages/admin/AdminTasks.tsx:58, client/src/pages/staff/StaffAttendance.tsx:32), which a `timestamp` column's insert schema (`z.date()`) would refuse. The model assumes such text is accepted as the instant it denotes.
- `Schema.ParseTask`: keeps `organizationId`. That column is not in shared/schema.ts:12-23, and the insert schema built from that table would strip it. The model keeps it because server/storage.ts:161 filters tasks by it and the admin page sends it. The promise that the schema drops unknown keys is therefore not made for this field.
- `Schema.ParseLeave`: keeps `days` and `organizationId`. Neither column is in shared/schema.ts:34-43, so the insert schema built from that table would strip both. The model keeps them for the reasons given above.
- `AdminTasks.CreatedTaskAccepted`: holds only under the assumption above that the ISO due date is accepted as an instant, and with the integer assignee id the page sends in place of the `varchar` column's string.
- `StaffAttendance.CheckInStored`: holds only under the same assumption for the ISO check-in time.
- A non-numeric `:id` path parameter is not modelled. The handlers take the id as an integer. `Number(req.params.id)` of such text is NaN, which the database refuses.
- `App.PrivateRoute`: the current user is a parameter, as is the `viewer: Option<Viewer>` parameter of every page. As written, `useCurrentUser` (client/src/hooks/use-users.ts:16-27) reads `api.users.me.path`, which shared/routes.ts does not declare, so the hook throws on every page that calls it. The model's viewer stands for the user that hook is evidently meant to return.
- `api.users.assignRole` (server/routes.ts:228-230) does not exist in shared/routes.ts, which declares only list, create, update and delete users (shared/routes.ts:240-274). Registering that route would throw before the `me` route is registered. `Server.AssignRoleRoute` models the handler body as evidently intended, with the role insert schema as its input.
- The user routes list, create, update and delete of shared/routes.ts have no handler in server/routes.ts and are not modelled.
- `Text.ToLower`: `toLowerCase` is modelled only for A to Z; other letters are kept as they are.
- `StaffLeaves.LeaveDays`: `differenceInDays(new Date(end), new Date(start)) + 1` is modelled on calendar dates parsed from "YYYY-MM-DD". The result is None where JavaScript gives NaN, which is sent as null. Time zones, daylight saving and the other formats `new Date` accepts are not modelled.
- `StaffLeaves.ParseIsoDate`: day-of-month validity is checked, but JavaScript's `Date` would roll an invalid day such as 02-30 over into the next month.
- `StaffAttendance.TodayRecord`: the client's "today" is a parameter, the UTC date text. `new Date` and `toISOString` are not modelled.
- `AdminAttendance.MarkPayload`: the form's `notes` field is dropped, because the attendance table has no such column.
- `AdminAttendance.MarkPayload`: the instant of date and time is the parameter `toInstant`.
- Floating-point money (`Number(amount)` sums and `toFixed`) is left out; amounts are integers of cents.
- Rendering, toasts, cache invalidation, the react-query hooks and fetch are left out.
- JSON has no `undefined`, so clearing a field by sending null is not modelled; an absent field is `None`.
- User ids are integers throughout. The auth module's string `claims.sub` is taken to be the same number; the code compares the two with `===` on the client.
- `Storage.DatabaseStorage.UpdateUser`: an empty new password is stored as it is, as written; no caller sends one.

## Findings

| source | as written | input that shows it | evidently intended | confidence | as-written member | corrected member |
|---|---|---|---|---|---|---|
| server/routes.ts:168-172 | The leave status handler (and likewise the expense one, server/routes.ts:207-211) stores `req.body.status` without checking it against the declared input (shared/routes.ts:206, 233), and never forwards an approver id. | PATCH a leave's status with `{status: "archived"}`: the row then holds a status outside its enumeration. | A status outside pending, approved and rejected is refused with 400, and a listed one is stored with the given approver id. | not executed | `Server.UpdateLeaveStatusRoute`, `Server.UncheckedStatusStored` | `Server.UpdateLeaveStatusCheckedRoute` |
| server/routes.ts:221-224 | The users listing spreads the role row over the account (`{ ...user, ...role }`), so the row's serial `id` replaces the account id. The pages use `u.id` as the user id: the assignee and employee pickers (client/src/pages/admin/AdminTasks.tsx:141, client/src/pages/admin/AdminAttendance.tsx:117), the "You" tag and the delete guard (client/src/pages/admin/AdminEmployees.tsx:250, 275, 288). | User 7 is the first to sign in, so their role row has id 1. An admin picks them as assignee, and the task is assigned to user 1. | Each listed user keeps their own id, so a task goes to the chosen user and the guard compares the viewer with the row's user. | not executed | `Server.ListUsers`, `AdminTasks.PickedAssigneeAsWritten` | `Server.OwnIdsCorrectListing`, `AdminTasks.PickedAssigneeIsChosenUser` |
| client/src/pages/admin/AdminEmployees.tsx:42-46 | `u.firstName.toLowerCase()` throws for a listed user without an account, because the spread of an undefined account leaves no `firstName`. Role rows without an account exist: the task listing writes a role row for every assignee id (server/routes.ts:24-39, 64-68). | A viewer without an organization opens the employees page while some role row has no account: the filter throws for every search, the empty one included. | A user without an account reads as having empty names. They are listed for an empty search, and the page keeps rendering. | not executed | `AdminEmployees.AccountlessUserFailsEverySearch` | `AdminEmployees.FilteredEmployees` |
| client/src/pages/admin/AdminTasks.tsx:41-45 | `t.assignee?.firstName.toLowerCase()` throws when the assignee object exists but its account is missing. The server always sends an assignee object (server/routes.ts:41-46, 65), so this happens for an assignee with no account. | A search of "a" over an untitled task whose assignee has no account: the filter throws. | The task is matched on its title alone, and the page keeps rendering. | not executed | `AdminTasks.FilterTasksAsWritten`, `AdminTasks.SearchThrowsOnAccountlessAssignee` | `AdminTasks.FilteredTasks` |
