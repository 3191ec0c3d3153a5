# Faculty management backend: a Dafny model

This project models the business rules of a small university faculty-management
application. The system has an Express/Sequelize REST backend over three tables: users, tasks and
leave requests. Around the backend sit a few pure helpers from the single-page client and two
maintenance scripts. The model covers:

- **The records** (`models.dfy`): the Task and Leave schemas. It covers their status enums, defaults,
  required columns, the `progress` range validator and the associations to users.
- **The store and the controllers**:
  - `store.dfy` defines a `Db` class holding `users`, `tasks` and `leaves` maps keyed by id.
  - `auth_controller.dfy`, `task_controller.dfy`, `admin_controller.dfy` and
    `faculty_controller.dfy` implement every controller operation.
  - An operation that writes is a method that `modifies db`. It states its reply and the whole new
    state of the tables. An operation that only reads is a function that `reads db`.
- **The access policy**:
  - `auth_middleware.dfy` models the `protect` and `admin` guards.
  - `routes.dfy` models the three guarded route tables and how a request passes through a router.
  - `client_routes.dfy` models the client's `ProtectedRoute` and its route table.
- **Client helpers**:
  - `faculty_dashboard.dfy`: the leave and deadline form guards and the quick actions. It proves
    that the guards' string comparison is calendar order on `YYYY-MM-DD`.
  - `department_analytics.dfy`: the two chart aggregations.
  - `ai_assistant.dfy`: the assistant's keyword router, its replies, and the append order of a send.
- **Scripts**:
  - `audit_db.dfy`: the orphan-reference audit loops, as methods with loop invariants checked
    against recursive specifications.
  - `seed_from_json.dfy`: the user import transform.
- **JavaScript semantics** (`js_strings.dfy`), each written out explicitly:
  - truthiness and `x || y`, where an absent value and `""` are both falsy;
  - `startsWith`, and `split` on one character, where every occurrence cuts;
  - `join`, the lexicographic `<` on strings, and `includes`;
  - `toLowerCase` and `trim`;
  - the decimal rendering of a count.

Library calls become parameters:
- bcrypt's hash is the parameter `hashed` and its comparison is the function `compare`;
- JWT verification is `verify`, and a signed token is modelled by its claims;
- `uuidv4` is a `freshId` that is not yet a key;
- the clock is `today`, `now` or `stamp`.

Several parts of the repository expect behaviour the backend does not have. The model follows
the backend in each case:

- The admin dashboard calls `PUT /api/admin/users/:id/approve` and `/disapprove`
  (frontend/src/pages/AdminDashboard.tsx:178 and 191). Neither route exists in
  `backend/routes/adminRoutes.js`, and no such handler exists in `backend/controllers/adminController.js`.
  `Routes.NoApproveRoute` shows that such a request passes both guards and then matches no route.
- `backend/verify_approval_logic.js:56` expects the admin create operation to approve the account at
  once. `createUser` never sets `isApproved`, so the flag comes from the user schema's default. The user
  schema is not part of this model, so the default is the parameter `UserDefaults`.
- The faculty dashboard treats a Completed task as read-only: the slider is disabled and the quick
  actions are hidden (frontend/src/pages/FacultyDashboard.tsx:275 and 287). The backend leaves
  Completed whenever the body sends an explicit status (`TaskController.ExplicitStatusLeavesCompleted`).
  Without a body status, Completed does stick (`TaskController.CompletedStickyWithoutStatus`).
- The admin dashboard offers decisions only on Pending leaves (frontend/src/pages/AdminDashboard.tsx:414).
  The backend accepts any status for any leave (`AdminController.DecidedLeaveCanBeOverwritten`).
- `backend/test_auth_flow.js` expects a login to succeed straight after registration. The login
  decision refuses an unapproved account with 403 (`AuthController.LoginDecision`).

The `User.hasMany` associations are declared before the `belongsTo` ones on the same non-null columns
(backend/models/taskModel.js:44-47, backend/models/leaveModel.js:37-38). Their foreign keys therefore
carry `ON DELETE CASCADE`, and SQLite enforces them: the seeder has to switch them off to truncate the
tables (backend/seed_from_json.js:69-73). So the model treats the store's references as foreign keys:
- an insert whose assignee, creator or owner is no stored account fails with a 500;
- deleting an account also deletes its tasks and leaves;
- every writing operation preserves `Store.ReferencesResolve`, which says that no reference dangles.

## Model

| member | source | states |
|---|---|---|
| Models.CreateTaskRecord | backend/models/taskModel.js:11-40 | A task is inserted iff title and both user references are given and the progress passes its 0..100 validator. An absent status becomes Pending and an absent progress becomes 0. Every other field is stored as given. |
| Models.ProgressValidator | backend/models/taskModel.js:25-32 | An out-of-range progress fails `min` iff it is below 0 and `max` iff it is above 100. |
| Models.TaskDefaults | backend/models/taskModel.js:21-32 | A task created without status or progress is Pending at 0 and conforms to the declared enum and range. |
| Models.AssignedUser | backend/models/taskModel.js:46 | The `assignedUser` association is present iff `assignedToId` is a stored user, and then it is that user. |
| Models.CreatorUser | backend/models/taskModel.js:47 | The `creatorUser` association is present iff `assignedById` is a stored user, and then it is that user. |
| Models.CreateLeaveRecord | backend/models/leaveModel.js:11-33 | A leave is inserted iff reason, both dates and the owner are given. Status defaults to Pending and the comment is optional. |
| Models.LeaveOwner | backend/models/leaveModel.js:37-38 | A leave's owner is present iff its `userId` is a stored user, and then it is that user. |
| Store.Db.constructor | backend/config/db.js:3-13 | A freshly synced store has no users, tasks or leaves, and is valid: every record sits under its own id and every progress is in range. |
| AuthController.LoginDecision | backend/controllers/authController.js:12-27 | Invalid credentials iff there is no account or the password does not match. Not approved iff it matches but the account is unapproved. A login succeeds only for an approved account, with its id, name, email, role and department and a token over its id with a 30-day lifetime. |
| AuthController.WrongPasswordHidesApproval | backend/controllers/authController.js:14-17 | A wrong password on an unapproved account gives invalid credentials, not pending approval. |
| AuthController.AuthUser | backend/controllers/authController.js:8-32 | A body without an email gives 500 with the lookup's error. An unknown email gives 401. A known email without a password gives 500 with the comparison's error. Every other reply is 200, 401 or 403. A 200 or 403 reply is justified by an account with that email. When emails are unique, the reply is exactly the login decision for that account. |
| AuthController.RegisteredRole | backend/controllers/authController.js:54-61 | The stored role is never admin. It is lecturer iff the requested role is falsy, admin or lecturer, and otherwise the requested string verbatim. |
| AuthController.SelfRegistered | backend/controllers/authController.js:57-64 | A self-registered row is unapproved and never admin. It holds the hash, and its department is the given one or null. |
| AuthController.RegisterUser | backend/controllers/authController.js:40-80 | A taken email gives 400 and inserts nothing. Otherwise it gives 201 with no token, and exactly the new row is inserted. The sets of admin ids and approved ids are unchanged. Resolving references stay resolving. |
| TaskController.CreateTask | backend/controllers/taskController.js:8-32 | A role other than admin or hod gives 403 and writes nothing. A missing title or assignee gives 500 and writes nothing. So does an assignee or requester that is not a stored account, through the foreign key. Otherwise it gives 201 and inserts a Pending task at 0, assigned by the requester to the body's assignee. Resolving references stay resolving. |
| TaskController.GetTasks | backend/controllers/taskController.js:37-62 | Admin and hod see every task. Anyone else sees exactly the tasks assigned to them. Each task carries its assignee and creator joins. |
| TaskController.DeriveStatus | backend/controllers/taskController.js:78-79 | Progress 100 forces Completed. A progress strictly between 0 and 100 turns Pending into In Progress. Any other status is kept. |
| TaskController.ApplyUpdate | backend/controllers/taskController.js:74-79 | A defined progress (0 included) is applied and a falsy status is ignored. The status is then derived. Title, description, deadline and both references never change. |
| TaskController.UpdateTaskStatus | backend/controllers/taskController.js:67-89 | An unknown id gives 404. A progress below 0 gives 500 with the `min` validator's message, and one above 100 gives 500 with the `max` validator's message; neither stores anything. Otherwise the updated task replaces the old one, with no role or ownership check. Resolving references stay resolving. |
| TaskController.UpdateIdempotent | backend/controllers/taskController.js:74-79 | Applying the same update twice gives the same task as applying it once. |
| TaskController.ZeroProgressApplied | backend/controllers/taskController.js:75 | A progress of 0 is applied. |
| TaskController.CompletedStickyWithoutStatus | backend/controllers/taskController.js:74-79 | Without a body status, a Completed task stays Completed whatever progress is sent. |
| TaskController.ExplicitStatusLeavesCompleted | backend/controllers/taskController.js:74-79 | Status Pending with progress 40 takes a Completed task to In Progress. |
| TaskController.CompletedAtFortyKept | backend/controllers/taskController.js:79 | Status Completed with progress 40 stays Completed. |
| TaskController.UpdateKeepsStatusEnum | backend/controllers/taskController.js:74-79 | A task whose status is in the enum stays in the enum when the body's status is absent, empty or itself in the enum. |
| AdminController.GetUsers | backend/controllers/adminController.js:10-17 | Every account is listed, each without its password. |
| AdminController.AdminCreated | backend/controllers/adminController.js:31-39 | The role is stored verbatim ('admin' allowed). An absent role and the approval flag come from the schema defaults. |
| AdminController.CreateUser | backend/controllers/adminController.js:22-54 | A taken email gives 400 and inserts nothing. Otherwise it gives 201 with id, name, email and role only, and exactly the new row is inserted. Resolving references stay resolving. |
| AdminController.GetAllLeaves | backend/controllers/adminController.js:59-68 | Every leave is listed. Its owner's id, name and email are attached iff the owner exists. |
| AdminController.Reviewed | backend/controllers/adminController.js:80-81 | Status and comment are each replaced only by a truthy value. Nothing else changes. |
| AdminController.UpdateLeaveStatus | backend/controllers/adminController.js:73-94 | An unknown id gives 404 and changes nothing. Otherwise the reviewed leave is stored and returned with its owner. Resolving references stay resolving. |
| AdminController.DecidedLeaveCanBeOverwritten | backend/controllers/adminController.js:80-82 | An Approved leave can be set to Rejected. |
| AdminController.EmptyCommentKeepsOld | backend/controllers/adminController.js:81 | An empty comment keeps the old one. |
| AdminController.ReviewIdempotent | backend/controllers/adminController.js:80-81 | Reviewing twice with the same body equals reviewing once. |
| AdminController.AdminEdited | backend/controllers/adminController.js:104-106 | Name, email and department each fall back to the old value when the new one is falsy. Id, password, role, designation and approval never change. |
| AdminController.UpdateUser | backend/controllers/adminController.js:99-122 | An unknown id gives 404. Otherwise only that account changes. The sets of admin ids and approved ids are unchanged. Resolving references stay resolving. |
| AdminController.EditCanDuplicateEmail | backend/controllers/adminController.js:105 | There is no uniqueness check: an edit can give two accounts the same email. |
| AdminController.DeleteUser | backend/controllers/adminController.js:127-140 | An unknown id gives 404 and changes nothing. Otherwise the account is removed, and so is every task it is assigned or created and every leave it owns (the cascade). Resolving references stay resolving. |
| AdminController.TasksWithout | backend/models/taskModel.js:44-45 | The tasks that survive a deletion are exactly those that neither name the account as assignee nor as creator, unchanged. |
| AdminController.LeavesWithout | backend/models/leaveModel.js:37 | The leaves that survive a deletion are exactly those the account does not own, unchanged. |
| AdminController.DeletionKeepsReferences | backend/controllers/adminController.js:132 | After the cascade, no surviving task or leave refers to the removed account: the foreign keys still hold. |
| AdminController.UnrelatedTaskSurvives | backend/controllers/adminController.js:132 | A task unrelated to the removed account survives unchanged, with the same assignee and creator associations. |
| FacultyController.GetProfile | backend/controllers/facultyController.js:9-24 | The requester's own record, without password or approval flag, or 404 when it is gone. |
| FacultyController.ProfileEdited | backend/controllers/facultyController.js:33-40 | The four profile fields fall back to the old value when falsy. The password changes only when a new one is given. Id, role and approval never change. |
| FacultyController.UpdateProfile | backend/controllers/facultyController.js:29-55 | An unknown requester gives 404. Otherwise only the requester's record changes, and the reply has no password. The sets of admin ids and approved ids are unchanged. Resolving references stay resolving. |
| FacultyController.ApplyLeave | backend/controllers/facultyController.js:60-77 | It inserts a Pending leave owned by the requester, with the dates as given and no ordering check. A missing field gives 500 and inserts nothing, and so does a requester that is not a stored account. Resolving references stay resolving. |
| FacultyController.GetMyLeaves | backend/controllers/facultyController.js:82-89 | Exactly the leaves whose owner is the requester. |
| FacultyController.GetAllFaculty | backend/controllers/facultyController.js:94-105 | Every account, admins included, projected to id, name, email, department and role. |
| AuthMiddleware.BearerToken | backend/middleware/authMiddleware.js:12 | The second space-separated piece exists iff the header contains a space. |
| AuthMiddleware.Protect | backend/middleware/authMiddleware.js:4-39 | It refuses with 401 "no token" when the header is absent, empty or does not start with 'Bearer' (case-sensitive). It accepts iff the token is present and verifies to the id of a stored account. |
| AuthMiddleware.Admin | backend/middleware/authMiddleware.js:41-47 | It passes iff the user's role is admin. Otherwise it gives 401, not 403. |
| AuthMiddleware.BearerTokenOfHeader | backend/middleware/authMiddleware.js:12 | `Bearer <token>` yields the token when it has no space. |
| AuthMiddleware.ProtectAccepts | backend/middleware/authMiddleware.js:7-29 | A well-formed header whose token resolves to a stored account is accepted with that account. |
| AuthMiddleware.LowerCaseSchemeRejected | backend/middleware/authMiddleware.js:9 | A lower-case 'bearer' is treated as no token. |
| AuthMiddleware.DeletedAccountRejected | backend/middleware/authMiddleware.js:17-21 | A token for a deleted account is refused with "token failed". |
| Routes.Lookup | backend/routes/adminRoutes.js:9-19 | A handler is found iff some route has the verb and a matching pattern. The handler is then that of the first such route: it matches, and no earlier route does. |
| Routes.RunGuards | backend/routes/adminRoutes.js:6-7 | Every refusal by the router's guards is a 401. |
| Routes.AdminHandlers | backend/routes/adminRoutes.js:9-19 | Every admin route resolves to one of the seven admin handlers. |
| Routes.UnauthenticatedRejected | backend/routes/taskRoutes.js:6 | On every guarded router, a request that `protect` refuses gets its 401 on any path. |
| Routes.AdminRoutesNeedAdmin | backend/routes/adminRoutes.js:6-7 | Whatever admin route is dispatched is dispatched for an authenticated admin. |
| Routes.NonAdminRefused | backend/routes/adminRoutes.js:6-19 | An authenticated non-admin gets 401 on every admin path, existing or not. |
| Routes.NoApproveRoute | backend/routes/adminRoutes.js:9-19 | An admin's approve or disapprove request passes the guards and matches no route. |
| Routes.NoThreeSegmentAdminRoute | backend/routes/adminRoutes.js:9-19 | No admin route has a three-segment pattern, so no three-segment path finds a handler under any verb. |
| Routes.TaskRouterHasNoAdminGuard | backend/routes/taskRoutes.js:4-6 | The task and faculty routers never apply `admin`. |
| Routes.ProtectOnlyDispatch | backend/routes/facultyRoutes.js:7 | On a `protect`-only router, an authenticated request goes straight to the route table. |
| Routes.AnyoneUpdatesAnyTask | backend/routes/taskRoutes.js:12-13 | Any authenticated account reaches `updateTaskStatus` for any task id. |
| Routes.AnyoneReachesCreateTask | backend/routes/taskRoutes.js:8-10 | Any authenticated account reaches `createTask`. Only its own role check restricts creation. |
| Routes.ReportRoute | backend/routes/facultyRoutes.js:13 | `GET /reports/:userId` is the per-user report for any non-empty id. |
| Routes.ReportRouteOpen | backend/routes/facultyRoutes.js:13 | The per-user report is open to any authenticated account. |
| Routes.DirectoryRoute | backend/routes/facultyRoutes.js:12 | `GET /all` on the faculty router is the staff directory. |
| Routes.DirectoryOpen | backend/routes/facultyRoutes.js:12 | The staff directory is open to any authenticated account. |
| ClientRoutes.ProtectedRoute | frontend/src/App.tsx:14-37 | Spinner while loading. Otherwise `/login` with no user, then `/` for a role outside a given list. It renders the page iff not loading, signed in and allowed. |
| ClientRoutes.Visit | frontend/src/App.tsx:45-63 | A path renders nothing iff no route has it. |
| ClientRoutes.VisitFirst | frontend/src/App.tsx:45-63 | The first route with a path is the one rendered. |
| ClientRoutes.LoginLanding | frontend/src/pages/Login.tsx:25-29 | After login an admin goes to `/admin` and everyone else to `/faculty`. |
| ClientRoutes.AdminDashboardOnlyForAdmins | frontend/src/App.tsx:48-55 | `/admin` renders its dashboard iff loading has finished and the user is an admin. |
| ClientRoutes.FacultyDashboardOnlyForStaff | frontend/src/App.tsx:56-63 | `/faculty` renders its dashboard iff the user is a lecturer or hod. |
| ClientRoutes.OpenPagesUnguarded | frontend/src/App.tsx:45-47 | `/`, `/login` and `/register` render for anyone, even while loading. |
| ClientRoutes.LandingAfterLogin | frontend/src/App.tsx:48-63 | After login, admin, hod and lecturer reach their dashboards. Any other role is bounced to `/`. |
| FacultyDashboard.LeaveGuard | frontend/src/pages/FacultyDashboard.tsx:80-87 | A leave is submitted iff its start is not before today and its end is not before its start. A past start is reported first. |
| FacultyDashboard.DeadlineGuard | frontend/src/pages/FacultyDashboard.tsx:105-110 | A task is submitted iff its deadline is not before today. |
| FacultyDashboard.DateOrder | frontend/src/pages/FacultyDashboard.tsx:80-84 | On `YYYY-MM-DD` strings, string `<` is exactly (year, month, day) order. |
| FacultyDashboard.LeaveGuardCalendar | frontend/src/pages/FacultyDashboard.tsx:78-87 | On date strings, a leave is sent iff it starts today or later and ends on or after its start. |
| FacultyDashboard.DeadlineGuardCalendar | frontend/src/pages/FacultyDashboard.tsx:105-110 | On date strings, a task is sent iff its deadline is today or later. |
| FacultyDashboard.OneDayLeaveToday | frontend/src/pages/FacultyDashboard.tsx:80-87 | A one-day leave starting today passes both checks. |
| FacultyDashboard.BlankStartRefused | frontend/src/pages/FacultyDashboard.tsx:80-83 | An empty start date is refused as being in the past. |
| FacultyDashboard.QuickActions | frontend/src/pages/FacultyDashboard.tsx:287-301 | The two quick actions are offered iff the task is not Completed and the role is not hod. |
| FacultyDashboard.StartWorkingEffect | frontend/src/pages/FacultyDashboard.tsx:292 | 'Start Working' leaves any task In Progress at 50, which the store accepts. |
| FacultyDashboard.MarkDoneEffect | frontend/src/pages/FacultyDashboard.tsx:301 | 'Mark Done' leaves any task Completed at 100. |
| DepartmentAnalytics.StatusData | frontend/src/components/ui/DepartmentAnalytics.tsx:19-23 | At most three slices, each positive and named by a chart status, and each carrying the exact count of its own status. A status has its slice iff its count is positive. The slices follow the order Pending, In Progress, Completed. |
| DepartmentAnalytics.WithStatus | frontend/src/components/ui/DepartmentAnalytics.tsx:20-22 | The filter keeps exactly the tasks with that status and never grows the list. |
| DepartmentAnalytics.WithStatusMultiplicity | frontend/src/components/ui/DepartmentAnalytics.tsx:20-22 | A task with the status is kept as many times as it occurs in the input, and any other task not at all. |
| DepartmentAnalytics.WithStatusAppend | frontend/src/components/ui/DepartmentAnalytics.tsx:20-22 | The filter keeps list order: filtering a concatenation concatenates the filtered parts. |
| DepartmentAnalytics.WithStatusCount | frontend/src/components/ui/DepartmentAnalytics.tsx:20-22 | The filtered length is the number of positions in the input holding a task with that status. |
| DepartmentAnalytics.StatusDataCounts | frontend/src/components/ui/DepartmentAnalytics.tsx:19-23 | A chart status has a slice whose value is the number of positions with that status iff some task has it. |
| DepartmentAnalytics.DropEmpty | frontend/src/components/ui/DepartmentAnalytics.tsx:23 | Exactly the slices with a positive value are kept. |
| DepartmentAnalytics.DropEmptyAppend | frontend/src/components/ui/DepartmentAnalytics.tsx:23 | The kept slices keep their order: dropping from a concatenation concatenates what each part keeps. |
| DepartmentAnalytics.DropEmptyMultiplicity | frontend/src/components/ui/DepartmentAnalytics.tsx:23 | A positive slice is kept as many times as it occurs, and an empty one not at all. |
| DepartmentAnalytics.AssignedTo | frontend/src/components/ui/DepartmentAnalytics.tsx:27 | The filter keeps exactly the tasks assigned to that member. |
| DepartmentAnalytics.AssignedToMultiplicity | frontend/src/components/ui/DepartmentAnalytics.tsx:27 | A task assigned to the member is kept as many times as it occurs, and any other task not at all. |
| DepartmentAnalytics.AssignedToAppend | frontend/src/components/ui/DepartmentAnalytics.tsx:27 | Filtering a concatenation is concatenating the filtered parts. |
| DepartmentAnalytics.Entries | frontend/src/components/ui/DepartmentAnalytics.tsx:26-34 | The map step gives one entry per user, in order. |
| DepartmentAnalytics.Busy | frontend/src/components/ui/DepartmentAnalytics.tsx:35 | A member is kept iff at least one task is assigned to them. |
| DepartmentAnalytics.BusyMultiplicity | frontend/src/components/ui/DepartmentAnalytics.tsx:26-35 | A member with tasks is kept once for each time it is listed, and a member without tasks not at all. |
| DepartmentAnalytics.BusyAppend | frontend/src/components/ui/DepartmentAnalytics.tsx:26-35 | The busy members keep user order: a concatenation of user lists gives the concatenation of their busy members. |
| DepartmentAnalytics.StatusCountsBounded | frontend/src/components/ui/DepartmentAnalytics.tsx:20-22 | The three counts together never exceed the number of tasks. |
| DepartmentAnalytics.EntryOf | frontend/src/components/ui/DepartmentAnalytics.tsx:27-34 | An entry's total counts the member's tasks. Completed is at most the total, and pending is the rest. |
| DepartmentAnalytics.WorkloadPerBusyMember | frontend/src/components/ui/DepartmentAnalytics.tsx:26-35 | There is one entry per member with at least one task, in user order, and each entry is that member's. |
| DepartmentAnalytics.WorkloadEntriesConsistent | frontend/src/components/ui/DepartmentAnalytics.tsx:28-35 | Every entry has a positive total, completed at most total, and pending equal to total minus completed. |
| DepartmentAnalytics.PendingCountsUnfinished | frontend/src/components/ui/DepartmentAnalytics.tsx:27-33 | An entry's total is the number of positions holding a task assigned to the member, and its pending count the number of those that are not Completed. |
| DepartmentAnalytics.InProgressCountsPending | frontend/src/components/ui/DepartmentAnalytics.tsx:33 | An In Progress task counts as pending. |
| DepartmentAnalytics.EntryNameIsFirstWord | frontend/src/components/ui/DepartmentAnalytics.tsx:30 | An entry's name is the member's name up to its first space. |
| DepartmentAnalytics.OrphanTaskIgnored | frontend/src/components/ui/DepartmentAnalytics.tsx:27 | A task whose assignee is no listed member changes no entry. |
| AIAssistant.Classify | frontend/src/components/ui/AIAssistant.tsx:39-66 | The first keyword group the lower-cased query contains decides: tasks, then leave, then greeting, then time, else help. |
| AIAssistant.Respond | frontend/src/components/ui/AIAssistant.tsx:38-67 | A query mentioning a task keyword gets the task reply. Otherwise a leave keyword gets the leave reply, then a greeting keyword gets the greeting with the user's name ('Smith' when it is absent or empty), then a time keyword gets the current time. A query with none of them gets the help text. |
| AIAssistant.OpenTasks | frontend/src/components/ui/AIAssistant.tsx:42 | Exactly the tasks that are not Completed. |
| AIAssistant.OpenTasksMultiplicity | frontend/src/components/ui/AIAssistant.tsx:42 | An open task is kept as many times as it occurs, and a Completed task not at all. |
| AIAssistant.OpenTasksAppend | frontend/src/components/ui/AIAssistant.tsx:42 | The filter keeps list order, so the titles are listed in task order. |
| AIAssistant.OpenTasksCount | frontend/src/components/ui/AIAssistant.tsx:42-44 | The number of open tasks is the number of positions holding a task that is not Completed. |
| AIAssistant.Titles | frontend/src/components/ui/AIAssistant.tsx:44 | The titles of the tasks, one per task, in order. |
| AIAssistant.PendingLeaves | frontend/src/components/ui/AIAssistant.tsx:51 | Exactly the leaves that are Pending. |
| AIAssistant.PendingLeavesMultiplicity | frontend/src/components/ui/AIAssistant.tsx:51 | A Pending leave is kept as many times as it occurs, and any other leave not at all. |
| AIAssistant.PendingLeavesAppend | frontend/src/components/ui/AIAssistant.tsx:51 | The filter keeps list order: filtering a concatenation concatenates the filtered parts. |
| AIAssistant.PendingLeavesCount | frontend/src/components/ui/AIAssistant.tsx:51-53 | The number of pending leaves is the number of positions holding a Pending leave. |
| AIAssistant.PendingAppend | frontend/src/components/ui/AIAssistant.tsx:51 | Appending a leave that is not Pending does not change the pending list. |
| AIAssistant.ClassifyIgnoresCase | frontend/src/components/ui/AIAssistant.tsx:39 | A query and its lower-cased form take the same branch. |
| AIAssistant.TaskWordsTakePrecedence | frontend/src/components/ui/AIAssistant.tsx:41-48 | A query that mentions a task keyword gets the task reply, whatever else it mentions. |
| AIAssistant.HiMatchesInsideWords | frontend/src/components/ui/AIAssistant.tsx:58 | Keywords match as substrings: "which" is answered as a greeting. |
| AIAssistant.TasksReplyContents | frontend/src/components/ui/AIAssistant.tsx:42-44 | When some task is not Completed, the reply states in decimal the number of positions holding such a task, and that number reads back from the reply; the open tasks' titles follow, joined by ", ". |
| AIAssistant.LeaveReplyContents | frontend/src/components/ui/AIAssistant.tsx:51-53 | When some leave is Pending, the reply states in decimal the number of Pending leaves, and that number reads back from the reply. |
| AIAssistant.AllDoneReply | frontend/src/components/ui/AIAssistant.tsx:45-46 | With every task Completed, the fixed reply is given. |
| AIAssistant.DecidedLeavesIgnored | frontend/src/components/ui/AIAssistant.tsx:51-55 | Leaves that are not Pending do not change the leave reply. |
| AIAssistant.Chat.constructor | frontend/src/components/ui/AIAssistant.tsx:21-29 | The panel opens with the single greeting, id "1", naming the user or 'Faculty', and an empty input. |
| AIAssistant.Chat.HandleSend | frontend/src/components/ui/AIAssistant.tsx:69-80 | Blank input appends nothing. Otherwise the user's message is appended, the input cleared and the query scheduled. |
| AIAssistant.Chat.ReplyArrives | frontend/src/components/ui/AIAssistant.tsx:83-91 | The reply to the scheduled query is appended. |
| AIAssistant.SendAndReply | frontend/src/components/ui/AIAssistant.tsx:69-91 | A send at one clock reading, then its reply at a later one, appends the user's message and then the assistant's, with ids from the two readings; blank input appends nothing. When the clock has not gone back, the two ids differ. |
| AuditDb.CollectIds | backend/audit_db.js:21 | The id set is exactly the users' `_id` values. |
| AuditDb.CheckUsers | backend/audit_db.js:22-25 | The user pass logs a missing role and then a missing email, for each user in order. |
| AuditDb.CheckTasks | backend/audit_db.js:28-38 | The task pass logs and counts each truthy reference that is not a user id. |
| AuditDb.CheckLeaves | backend/audit_db.js:42-48 | The leave pass logs and counts each owner value not in the set, with no falsy guard. `null` and a missing key are different values. |
| AuditDb.Audit | backend/audit_db.js:11-51 | The counters and the whole console output equal their specifications. |
| AuditDb.TaskFlags | backend/audit_db.js:29-38 | A task contributes 0, 1 or 2 issues, one per logged line. |
| AuditDb.PassLinesIff | backend/audit_db.js:39-49 | Each PASS line is printed iff its counter is 0. |
| AuditDb.UserLinesKinds | backend/audit_db.js:22-25 | The user pass prints only missing-role and missing-email errors. |
| AuditDb.TaskLinesKinds | backend/audit_db.js:29-38 | The task pass prints only unknown-assignee and unknown-creator errors. |
| AuditDb.LeaveLinesKinds | backend/audit_db.js:43-48 | The leave pass prints only unknown-owner errors. |
| AuditDb.IssueBounds | backend/audit_db.js:28-48 | The task issues are at most twice the number of tasks, and the leave issues at most the number of leaves. |
| AuditDb.TaskIssuesBound | backend/audit_db.js:28-38 | The task issues are at most twice the number of tasks. |
| AuditDb.LeaveIssuesBound | backend/audit_db.js:42-48 | The leave issues are at most the number of leaves. |
| AuditDb.TaskIssuesCountLines | backend/audit_db.js:29-38 | The task counter equals the number of logged task errors. |
| AuditDb.NoTaskIssuesIff | backend/audit_db.js:29-39 | The task counter is 0 iff every truthy reference names a user. |
| AuditDb.NoLeaveIssuesIff | backend/audit_db.js:43-49 | The leave counter is 0 iff every owner reference is in the set. |
| AuditDb.UnsetReferencesNotFlagged | backend/audit_db.js:30-34 | A task whose references are both falsy (missing, null, empty, 0 or false) is never flagged. |
| AuditDb.LeaveFlaggedIff | backend/audit_db.js:21-48 | A leave is flagged iff no user's `_id` is the exact value of its `user` field. |
| AuditDb.OwnerlessLeave | backend/audit_db.js:21-44 | A leave without a `user` key is flagged unless some user also lacks an `_id`. |
| AuditDb.NullOwnerFlagged | backend/audit_db.js:21-44 | A leave whose `user` is null is flagged even when some user lacks an `_id`, unless some user's `_id` is null too. |
| SeedFromJson.TransformUser | backend/seed_from_json.js:29-37 | `_id` is removed and `id` holds the old `_id` (undefined if missing). `isApproved` is true. Every other key is carried over unchanged. |
| SeedFromJson.TransformAll | backend/seed_from_json.js:62 | The mapping preserves the number and the order of users. |
| SeedFromJson.RestoreTransform | backend/seed_from_json.js:29-37 | For a user with `_id` and without `id` or `isApproved`, renaming back recovers it exactly. |
| SeedFromJson.AllImportedApproved | backend/seed_from_json.js:29-62 | Every imported user is approved. |
| SeedFromJson.OldIdOverwritten | backend/seed_from_json.js:30-33 | An existing `id` is overwritten, with undefined when `_id` is missing. |
| SeedFromJson.IdsPreserved | backend/seed_from_json.js:29-62 | The imported ids are the exported `_id` values, in order. |
| SeedFromJson.TransformTwiceErasesIds | backend/seed_from_json.js:29-37 | The transform is not idempotent: a second pass erases the ids. |
| JsStrings.JoinSplit | backend/middleware/authMiddleware.js:12 | Joining the pieces of a split with its separator gives the string back. |
| JsStrings.Split | backend/middleware/authMiddleware.js:12 | A split always has at least one piece. |
| JsStrings.SplitPiecesFree | backend/middleware/authMiddleware.js:12 | No piece of a split contains the separator. |
| JsStrings.SplitWithoutSeparator | backend/middleware/authMiddleware.js:12 | A string without the separator splits into itself alone. |
| JsStrings.SplitAfterHead | backend/middleware/authMiddleware.js:12 | A separator-free head followed by the separator is the first piece, and the rest splits on its own. |
| JsStrings.SplitSingleIff | backend/middleware/authMiddleware.js:12 | A split has one piece iff the separator does not occur. |
| JsStrings.SplitFirstPiece | frontend/src/components/ui/DepartmentAnalytics.tsx:30 | The first piece is the longest separator-free prefix. |
| JsStrings.StrLessConcat | frontend/src/pages/FacultyDashboard.tsx:80-84 | Comparing two concatenations whose heads have equal length: the heads decide unless they are equal. |
| JsStrings.StrLessIrreflexive | frontend/src/pages/FacultyDashboard.tsx:80-84 | No string is less than itself. |
| JsStrings.StrLessTransitive | frontend/src/pages/FacultyDashboard.tsx:80-84 | String `<` is transitive. |
| JsStrings.StrLessTotal | frontend/src/pages/FacultyDashboard.tsx:80-84 | Of two different strings, one is less than the other. |
| JsStrings.DigitsOrder | frontend/src/pages/FacultyDashboard.tsx:80-84 | On equal-length digit strings, string order is numeric order. |
| JsStrings.IncludesIff | frontend/src/components/ui/AIAssistant.tsx:41 | `includes` holds iff the substring occurs at some index. |
| JsStrings.ToLower | frontend/src/components/ui/AIAssistant.tsx:39 | The length is preserved, each character is lowered, and no upper-case ASCII letter remains. |
| JsStrings.TrimEmptyIff | frontend/src/components/ui/AIAssistant.tsx:70 | A string trims to empty iff it is all whitespace. |
| JsStrings.TrimEndEmpty | frontend/src/components/ui/AIAssistant.tsx:70 | Trimming the end leaves nothing iff the string is all whitespace. |
| JsStrings.NatToStringValue | frontend/src/components/ui/AIAssistant.tsx:42-55 | The rendered count reads back as the count. |
| JsStrings.NatToString | frontend/src/components/ui/AIAssistant.tsx:44 | A count renders as a non-empty string of decimal digits. |
| JsStrings.Or | backend/controllers/adminController.js:104-106 | JavaScript's logical or on strings: the value when it is truthy, the fallback otherwise. |
| JsStrings.OrOpt | backend/controllers/adminController.js:106 | The same on optional values: an absent or empty value falls back. |

## Left out

- The PDF reports (`generateReport`, `generateFacultyReport`) are reached by the route model but not modelled. They consist of pdfkit output and a floating-point completion rate.
- The user schema is not part of this model. Its column defaults, its uniqueness and null constraints, and any hooks are represented only by `Store.EmailTaken` and the parameter `UserDefaults`. The model assumes that `department` and `designation` have no default, so an absent value is stored as null (`SelfRegistered`, `AdminCreated`). Login picks some account with the email, and its exact reply is stated when emails are unique.
- The auth route file is not part of this model. Registration and login are modelled as controller operations only.
- Bcrypt hashing and comparison, JWT signing and verification, and `uuidv4` are foreign libraries. They are parameters, and a token is its claims.
- AuthController.RegisterUser and AdminController.CreateUser take email and password as given. In the source, a body without `email` makes the lookup throw, and one without `password` makes bcrypt throw; each gives a 500. Login models both cases.
- The Sequelize and SQLite layer is not modelled:
  - unless a field is required, the model does not assume the declared ENUMs are enforced on save;
  - a non-integer `progress` is not modelled;
  - `null` bodies are modelled as absent values.
- The Express wiring is not modelled:
  - server mounting and static files are left out, and so are the 500 replies for database failures other than the not-null, range and foreign-key errors modelled here;
  - splitting a URL into segments is assumed;
  - Express's case-insensitive and trailing-slash matching is not modelled.
- `AuthMiddleware.Protect`: for a `Bearer` header without a token, the catch sends the 401 "token failed" reply. The `!token` check then tries a second reply, and that call throws because the headers are already sent. The throw rejects the promise of the async middleware, which Express 4 does not handle. Only the first reply is modelled; neither the throw nor its effect on the server process is.
- `JsStrings.ToLower`: lower-cases ASCII only. Non-ASCII case mappings are not modelled.
- `JsStrings.StrLess`: compares characters as code points, not as UTF-16 code units. The two differ only outside the Basic Multilingual Plane.
- The clock and time zone are parameters: today's date string, the rendering of the current time, and `Date.now()`.
- `AIAssistant.Chat.HandleSend`: the one-second `setTimeout` is modelled as the separate step `ReplyArrives`. Message timestamps are not modelled.
- The dashboards' HTTP calls, React state and the progress slider are not modelled. Only the form guards and the quick-action payloads are.
- The `catch` branch of the audit script, which handles unreadable files, is not modelled.
- `AuditDb.AuditLog`: one log holds the audit's lines in order. Which lines go to standard output (`console.log`) and which to standard error (`console.error`) is not recorded.
- `Json.JsValue`: JSON arrays and nested objects are not modelled, so an exported `_id` such as `{"$oid": ...}` cannot be represented. Numbers are integers, without fractions or NaN.
- `ClientRoutes.Visit`: matches paths exactly and case-sensitively. React Router's case-insensitive matching and its trailing-slash handling are not modelled.
- The seeder's file reading, truncation and bulk insert are not modelled. `transformTask` and `fixId` are never called by the script and are not modelled.
- Concurrent requests and last-write-wins interleavings are not modelled. Each operation is a single sequential step.
