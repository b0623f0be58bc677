# Dashboard data context and manager figures, in Dafny

This project models the client-side logic of a project-management dashboard that
is backed by a hosted database.

**The data context** (`src/context/SupabaseDataContext.tsx`) is a session cache.
- It holds ten collections: projects, stages, comment tasks, files, leads, employees, brochure projects, brochure pages, page comments and download history.
- It also holds a `loading` flag.
- Reload steps replace a collection wholesale.
- Signing out clears everything.
- Commands write to the remote store first and reload afterwards.
- A few getters derive sorted or filtered views.

It is modelled as the class `DataContext.SessionCache`.
- Every collection is a field that the methods reassign. Reads see the latest assignment; the source's closures see the last render's values instead (see "## Left out").
- The ghost log `Sent` records every request the cache sends to the store, in order. With it the contracts can state three things: the write comes first, the reload follows, and nothing follows a failed write.
- What the store returns is a parameter of each operation: `Fetch`, `WriteResult` and `CreateResult`.
- The signed-in user is a parameter too. The cache only reads it.

**The manager dashboard** (`src/components/Dashboards/ManagerDashboard.tsx`) computes per-employee figures:
- which users are employees;
- whose names appear on a project;
- which projects an employee is assigned to;
- the rounded average progress of those projects.

These are pure functions in `ManagerDashboard`.

Files:
- `records.dfy` (`Records`): the row and insert shapes of the ten tables, as declared in `src/lib/database.types.ts` (inserts without the generated id and server-stamped timestamps), and the patches the commands send.
- `sequences.dfy` (`Sequences`): `filter`, `map`, `find` and a stable sort by integer key, each with its contract.
- `context_views.dfy` (`ContextViews`): the records and patches the commands build.
- `data_context.dfy` (`DataContext`): the session cache.
- `manager_dashboard.dfy` (`ManagerDashboard`): the employee table's figures.

## Model

| member | source | states |
|---|---|---|
| DataContext.SessionCache.constructor | src/context/SupabaseDataContext.tsx:61-71 | every collection starts empty, `loading` starts true, nothing has been sent |
| DataContext.SessionCache.LoadProjects | src/context/SupabaseDataContext.tsx:117-125 | one select; a successful fetch replaces `projects` with its rows (`[]` for null); a failed one rejects and leaves the whole state unchanged |
| DataContext.SessionCache.LoadStages | src/context/SupabaseDataContext.tsx:127-135 | as `LoadProjects`, for `stages` |
| DataContext.SessionCache.LoadCommentTasks | src/context/SupabaseDataContext.tsx:137-145 | as `LoadProjects`, for `commentTasks` |
| DataContext.SessionCache.LoadFiles | src/context/SupabaseDataContext.tsx:147-156 | as `LoadProjects`, for `files` |
| DataContext.SessionCache.LoadLeads | src/context/SupabaseDataContext.tsx:158-168 | for a manager, as `LoadProjects` for `leads`; for anyone else, no request, no change, and it resolves |
| DataContext.SessionCache.LoadEmployees | src/context/SupabaseDataContext.tsx:170-181 | for a manager, as `LoadProjects` for `employees`; for anyone else, no request, no change, and it resolves |
| DataContext.SessionCache.LoadBrochureProjects | src/context/SupabaseDataContext.tsx:183-191 | as `LoadProjects`, for `brochureProjects` |
| DataContext.SessionCache.LoadBrochurePages | src/context/SupabaseDataContext.tsx:193-201 | as `LoadProjects`, for `brochurePages` |
| DataContext.SessionCache.LoadPageComments | src/context/SupabaseDataContext.tsx:203-211 | as `LoadProjects`, for `pageComments` |
| DataContext.SessionCache.LoadDownloadHistory | src/context/SupabaseDataContext.tsx:213-221 | as `LoadProjects`, for `downloadHistory` |
| DataContext.SessionCache.RefreshData | src/context/SupabaseDataContext.tsx:93-115 | with no user, no request and no change; otherwise the state becomes `Refreshed(old state, replies, manager?)` and the log gains exactly the selects of `RefreshRequests` (leads and users only for a manager) |
| DataContext.SessionCache.Clear | src/context/SupabaseDataContext.tsx:77-89 | all ten collections become empty, `loading` becomes false, nothing is sent |
| DataContext.SessionCache.OnAuthChange | src/context/SupabaseDataContext.tsx:74-91 | authenticated with a user: a full refresh; otherwise the cleared state; either way a session that held no leads or users while not a manager's still holds none |
| DataContext.RefreshKeepsGate | src/context/SupabaseDataContext.tsx:79-89 | the cleared state holds no leads or users, and a non-manager refresh of such a state keeps it so, whatever the store returns |
| DataContext.NonManagerRefreshKeepsPrior | src/context/SupabaseDataContext.tsx:159 | a non-manager refresh leaves `leads` and `employees` exactly as they were |
| DataContext.RefreshIdempotent | src/context/SupabaseDataContext.tsx:93-115 | refreshing twice with the same replies gives the same state as refreshing once |
| DataContext.SessionCache.GetBrochurePages | src/context/SupabaseDataContext.tsx:448-452 | exactly the cached pages of the project, with their multiplicities; non-decreasing page number; pages with equal numbers keep their cache order; reads only the cache |
| DataContext.SessionCache.GetPageComments | src/context/SupabaseDataContext.tsx:463-467 | exactly the cached comments on the page, with their multiplicities; non-decreasing timestamp; comments with equal timestamps keep their cache order; reads only the cache |
| DataContext.SessionCache.GetBrochureProjectsForReview | src/context/SupabaseDataContext.tsx:538 | exactly the cached brochure projects that are ready for design or in design, with their multiplicities |
| DataContext.SessionCache.CreateProject | src/context/SupabaseDataContext.tsx:224-254 | a failed insert rejects with nothing else sent and no change; otherwise the five default stages of the new id are inserted unchecked, then a full refresh follows, and the command resolves |
| DataContext.SessionCache.UpdateProject | src/context/SupabaseDataContext.tsx:256-264 | the patch is sent first; if it fails, it rejects with no change; otherwise only `projects` reloads |
| DataContext.SessionCache.DeleteProject | src/context/SupabaseDataContext.tsx:266-274 | the delete is sent first; if it fails, it rejects with no change; otherwise a full refresh follows |
| DataContext.SessionCache.UpdateStageProgress | src/context/SupabaseDataContext.tsx:277-285 | the progress patch is sent first; if it fails, it rejects with no change; otherwise only `stages` reloads |
| DataContext.SessionCache.UpdateStageApproval | src/context/SupabaseDataContext.tsx:287-311 | status patch first. A comment task is added only when the comment is non-empty and the stage is cached, with a null user rejecting before it is sent. Each failure rejects at once. The exact requests and final state are given for every case |
| DataContext.SessionCache.AddCommentTask | src/context/SupabaseDataContext.tsx:314-321 | insert first; if it fails, it rejects with no change; otherwise only `commentTasks` reloads |
| DataContext.SessionCache.UpdateCommentTaskStatus | src/context/SupabaseDataContext.tsx:323-331 | status patch first; if it fails, it rejects with no change; otherwise only `commentTasks` reloads |
| DataContext.SessionCache.UploadFile | src/context/SupabaseDataContext.tsx:334-341 | insert first; if it fails, it rejects with no change; otherwise only `files` reloads |
| DataContext.SessionCache.DownloadFile | src/context/SupabaseDataContext.tsx:343-371 | a null user rejects before any request. The counted update comes next, and its failure rejects with no change. A history record is inserted only for a cached file. Then `files` and `downloadHistory` reload, and the command resolves exactly when both fetches succeed |
| DataContext.SessionCache.UpdateFileMetadata | src/context/SupabaseDataContext.tsx:373-381 | patch first; if it fails, it rejects with no change; otherwise only `files` reloads |
| DataContext.SessionCache.CreateLead | src/context/SupabaseDataContext.tsx:384-391 | a null user rejects before any request; the inserted lead carries the user's id as `created_by`; if the insert fails, it rejects with no change; otherwise the gated leads reload |
| DataContext.SessionCache.UpdateLead | src/context/SupabaseDataContext.tsx:393-401 | patch first; if it fails, it rejects with no change; otherwise the gated leads reload (nothing for a non-manager) |
| DataContext.SessionCache.DeleteLead | src/context/SupabaseDataContext.tsx:403-411 | delete first; if it fails, it rejects with no change; otherwise the gated leads reload |
| DataContext.SessionCache.CreateBrochureProject | src/context/SupabaseDataContext.tsx:414-424 | a failed insert rejects with no change; otherwise `brochureProjects` reloads, and the command resolves with the new id exactly when that fetch succeeds |
| DataContext.SessionCache.UpdateBrochureProject | src/context/SupabaseDataContext.tsx:426-434 | patch first; if it fails, it rejects with no change; otherwise only `brochureProjects` reloads |
| DataContext.SessionCache.SaveBrochurePage | src/context/SupabaseDataContext.tsx:436-446 | upsert first; if it fails, it rejects with no change; otherwise only `brochurePages` reloads |
| DataContext.SessionCache.AddPageComment | src/context/SupabaseDataContext.tsx:454-461 | insert first; if it fails, it rejects with no change; otherwise only `pageComments` reloads |
| DataContext.SessionCache.ApproveBrochurePage | src/context/SupabaseDataContext.tsx:469-494 | status patch first. An approval comment is added only when the comment is non-empty, with a null user rejecting before it is sent. Each failure rejects at once. The exact requests and final state are given for every case |
| DataContext.SessionCache.LockBrochurePage | src/context/SupabaseDataContext.tsx:496-509 | a null user rejects before any request; the lock patch names the user as holder since `now`; if it fails, it rejects with no change; otherwise only `brochurePages` reloads |
| DataContext.SessionCache.UnlockBrochurePage | src/context/SupabaseDataContext.tsx:511-524 | the unlock patch clears the holder; if it fails, it rejects with no change; otherwise only `brochurePages` reloads |
| ContextViews.Truthy | src/context/SupabaseDataContext.tsx:295 | JavaScript truthiness of the optional comment: present and non-empty (a definition, no contract); it gates both approval comments |
| ContextViews.StageApprovalTask | src/context/SupabaseDataContext.tsx:298-306 | the comment task literal field for field: the stage id, the stage's project, the comment as text, the user's id, name and role as author, status open, and no assignee, deadline or global flag; `UpdateStageApproval`'s ensures puts `InsertCommentTask` of it into the log |
| ContextViews.ApprovalText | src/context/SupabaseDataContext.tsx:478-480 | the decision's prefix, then the display name, then `": "`, then the comment, each at its exact position |
| ContextViews.PageApprovalComment | src/context/SupabaseDataContext.tsx:482-490 | the page comment literal field for field: the page id, `ApprovalText` of the decision, display name and comment, the user's id, name and role as author, not marked done, action type approval; `ApproveBrochurePage`'s ensures puts `InsertPageComment` of it into the log |
| ContextViews.ApprovalPatch | src/context/SupabaseDataContext.tsx:472 | applied to any page, the patch sets the approval status and changes nothing else; `ApproveBrochurePage` sends it first |
| ContextViews.LockPatch | src/context/SupabaseDataContext.tsx:499-504 | applied to any page, the patch marks it locked, held by the user's id and name since `now`, and changes nothing else; `LockBrochurePage` sends it |
| ContextViews.UnlockPatch | src/context/SupabaseDataContext.tsx:514-519 | applied to any page, the patch marks it unlocked with no holder, holder name or lock time, and changes nothing else; `UnlockBrochurePage` sends it |
| ContextViews.DownloadEntry | src/context/SupabaseDataContext.tsx:361-367 | the history literal field for field: the file id, the user's id and name, and the cached file's name and size; `DownloadFile`'s ensures puts `InsertDownload` of it into the log, only for a cached file |
| DataContext.Rows | src/context/SupabaseDataContext.tsx:124 | the fetched rows, `[]` when the store returns null (a definition, no contract) |
| DataContext.Reloaded | src/context/SupabaseDataContext.tsx:117-125 | one load step: a successful fetch replaces the collection wholesale with its rows; a failed one throws before the setter and keeps it (a definition, no contract; every load and command states its new state through it) |
| DataContext.Refreshed | src/context/SupabaseDataContext.tsx:93-115 | the state after a refresh: not loading; every collection whose fetch failed keeps its value; `leads` and `employees` keep theirs for a non-manager |
| DataContext.RefreshRequests | src/context/SupabaseDataContext.tsx:98-109 | ten selects for a manager and eight otherwise, all selects, with the leads and users selects present exactly for a manager |
| ContextViews.DefaultStages | src/context/SupabaseDataContext.tsx:234-249 | exactly five stage records for the project id: Planning, Design, Development, QC and Launch at orders 0 to 4, each with notes `''`, progress 0 and approval pending |
| ContextViews.StageInserts | src/context/SupabaseDataContext.tsx:242-249 | the `map` over the plan: one record per entry, in order, with that entry's name and order and the fixed defaults |
| ContextViews.StageToComment | src/context/SupabaseDataContext.tsx:295-297 | a stage is chosen exactly when the comment is non-empty and some cached stage has the id; the chosen stage is the first cached stage with that id |
| ContextViews.DisplayName | src/context/SupabaseDataContext.tsx:479-480 | the user's name when present and non-empty, otherwise "Manager"; never empty |
| ContextViews.ApprovalTextShape | src/context/SupabaseDataContext.tsx:478-480 | an approval's text starts with "Page has been approved by " and a rejection's with "Page requires changes - ", never with the other prefix, and both end with the comment |
| ContextViews.ApplyPagePatch | src/context/SupabaseDataContext.tsx:496-524 | a page update keeps the page's id, project, page number and content |
| ContextViews.LockThenUnlock | src/context/SupabaseDataContext.tsx:496-524 | lock followed by unlock leaves the page unlocked with no holder, no holder name and no lock time |
| Sequences.Filter | src/context/SupabaseDataContext.tsx:450 | every element satisfying the predicate, as often as in the input, and nothing else |
| Sequences.FilterSnoc | src/context/SupabaseDataContext.tsx:450 | filtering keeps order: one more input element appends itself exactly when it satisfies the predicate |
| Sequences.Find | src/context/SupabaseDataContext.tsx:296 | `None` exactly when no element satisfies the predicate; otherwise the first element that does |
| Sequences.Map | src/components/Dashboards/ManagerDashboard.tsx:82 | one result per element, in order: the result at each index is the function applied to the element at that index |
| Sequences.SortByKey | src/context/SupabaseDataContext.tsx:451 | non-decreasing keys, a permutation of the input, and stable: equal keys keep their input order |
| Sequences.InsertByKey | src/context/SupabaseDataContext.tsx:451 | inserting into a sorted sequence keeps it sorted, adds exactly the one element, and puts it first among equal keys |
| ManagerDashboard.EmployeesOnly | src/components/Dashboards/ManagerDashboard.tsx:72 | exactly the users whose role is employee, with their multiplicities |
| ManagerDashboard.AssignedEmployeeNames | src/components/Dashboards/ManagerDashboard.tsx:80-82 | at most one name per listed user; `AssignedNamesMembership` and `AssignedNamesInOrder` state which names and in what order |
| ManagerDashboard.AssignedNamesMembership | src/components/Dashboards/ManagerDashboard.tsx:80-82 | a name is shown exactly when it belongs to a listed user whose id the project's assigned list holds |
| ManagerDashboard.AssignedNamesInOrder | src/components/Dashboards/ManagerDashboard.tsx:80-82 | names follow the users' order: one more user appends their name exactly when they are assigned |
| ManagerDashboard.AssignedProjects | src/components/Dashboards/ManagerDashboard.tsx:87 | exactly the projects whose assigned list holds the employee's id, with their multiplicities |
| ManagerDashboard.RoundHalfUp | src/components/Dashboards/ManagerDashboard.tsx:89 | the integer `r` with `r - 1/2 <= s/n < r + 1/2`: the nearest integer, with halves rounded up as `Math.round` does |
| ManagerDashboard.RoundExact | src/components/Dashboards/ManagerDashboard.tsx:89 | rounding an exact quotient gives that quotient |
| ManagerDashboard.SumProgress | src/components/Dashboards/ManagerDashboard.tsx:89 | the `reduce` from the left, starting at 0 (a definition, no contract); `SumFromFront` and `SumWithin` state its properties |
| ManagerDashboard.SumFromFront | src/components/Dashboards/ManagerDashboard.tsx:89 | adding from the front gives the same total as the left fold |
| ManagerDashboard.SumWithin | src/components/Dashboards/ManagerDashboard.tsx:89 | the sum of `n` progress values in `[lo, hi]` lies in `[n*lo, n*hi]` |
| ManagerDashboard.AverageProgress | src/components/Dashboards/ManagerDashboard.tsx:88-90 | 0 with no projects; otherwise the sum divided by the count, rounded half up |
| ManagerDashboard.AverageWithin | src/components/Dashboards/ManagerDashboard.tsx:88-89 | the rounded mean lies between the least and the greatest progress |
| ManagerDashboard.EmployeeRows | src/components/Dashboards/ManagerDashboard.tsx:86-90 | one row per employee, in listing order, holding that employee's assigned projects and their rounded average |
| ManagerDashboard.EmployeeRowsInRange | src/components/Dashboards/ManagerDashboard.tsx:86-90 | with every progress in `[0, 100]`, every row's average is in `[0, 100]`, and 0 for an employee without projects |

## Role gating of leads and employees

One might expect a non-manager's refresh to leave `leads` and `employees`
empty whatever the server holds. The code does not make the refresh do that. `loadLeads` and `loadEmployees`
return before assigning (src/context/SupabaseDataContext.tsx:159, 171), so those
collections keep their previous value. They are empty for a non-manager only
because signing out empties them (lines 79-89), and only when no load was still
in flight when the previous user signed out.

A change of user from a manager to a non-manager without a sign-out in between
would keep the manager's leads. The model follows the code:
- `NonManagerRefreshKeepsPrior` states the code's behaviour;
- `RefreshKeepsGate` and `OnAuthChange` state the property that does hold, namely that a session starting empty stays empty.

## Left out

- OnAuthChange, RefreshKeepsGate: in the model each refresh and each command runs to completion before the next change of user. In the source, `refreshData` is started and not awaited (line 76), and `loadLeads` and `loadEmployees` check the role before their `await` and assign after it with no second check (lines 159-167, 171-180). So a select still pending when a manager signs out lands after the clearing of lines 79-89 and writes the manager's leads or users back. A non-manager who signs in next never overwrites them. The gate these two members state holds only when no load overlaps a sign-out.
- GetBrochurePages, GetPageComments, GetBrochureProjectsForReview, UpdateStageApproval and DownloadFile: in the source these are closures recreated at each render. They read `brochurePages`, `pageComments`, `brochureProjects`, `stages` and `files` as they stood at the last render (lines 296, 357, 449, 464, 538), and a setter does not change what an existing closure sees. The model reads the field as last assigned. The two agree once React has re-rendered between a reload and the call. They differ when a handler awaits a command and then calls one of these in the same closure. Example: `await saveBrochurePage(..)` followed by `getBrochurePages(..)` returns the pages from before the save in the source, and the reloaded pages in the model.
- The remote store is not modelled. This covers the query builder and the ordering and filtering it does on the server (lines 121, 151, 176).
  - The SQL increment of `download_count` (line 348) is recorded as a request and not evaluated.
  - The conflict handling of the brochure-page upsert (lines 439-442) is not modelled. Neither is any uniqueness it implies.
- `Promise.all` in `refreshData` and `downloadFile` (lines 98-109, 370) starts its fetches concurrently. The model runs them one after another, in array order, and every fetch settles into its own collection.
  - As a result, the log lists the selects in array order, not in arrival order.
  - When both fetches of `downloadFile` fail, the source rejects with whichever error arrives first. `DownloadFile` only states that the error is one of the two.
- Lock races between concurrent users are not modelled.
- Time is not modelled. `new Date().toISOString()` becomes an integer parameter `now`, timestamps are integers, and the `Date` parsing in `getPageComments` is taken to preserve their order.
- React plumbing is left out: hooks, context providers, rendering and console logging.
- The no-op compatibility placeholders (lines 527-537, 539) are left out. `getDownloadHistory` only returns the `downloadHistory` field, which the class exposes directly.
- The results the source does not check are not parameters: the default-stage insert in `createProject` and the history insert in `downloadFile`.
- Caller-supplied partial updates (`updateProject`, `updateFileMetadata`, `updateLead`, `updateBrochureProject`) are patch values over a fixed subset of columns and are sent as given. The model does not compute their effect on rows, because the store applies them.
- The `useEffect` trigger is the `OnAuthChange` method; the model does not capture when React runs it.
- ManagerDashboard.RoundHalfUp: progress values are integers, so `Math.round(s / n)` is computed exactly as `(2s + n) div 2n`. The floating-point quotient the source rounds is not modelled.
- The rest of ManagerDashboard.tsx is view markup and is not part of this model. This includes the project filter at line 63 and the form state.
- The other dashboards are not part of this model. `src/components/Dashboards/EmployeeDashboard.tsx` keeps the projects whose `assigned_employees` holds the signed-in user's id, the `AssignedProjects` filter, with `''` standing in for a missing user (lines 34-36). `src/components/Dashboards/ClientDashboard.tsx` keeps the projects whose `client_id` equals the signed-in user's id and shows the first of them (lines 41-42). That is an equality test, not a membership test, and neither filter is modelled.
- Stage and page approvals accept only `approved` or `rejected`, because the source's parameter type admits nothing else. `UpdateStageApproval` and `ApproveBrochurePage` require `status != Pending` for the same reason.
