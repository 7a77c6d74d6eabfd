# Task manager core in Dafny

This project models the deterministic core of a Next.js task and project manager. Signed-in users own projects and tasks. Tasks have a priority, a status, an optional due date and an optional project. Several browser pages derive lists, counts and calendars from the task list.

The model has two halves.

**Table operations.** The tasks, projects and users tables are a `Schema.Database` class. It holds one `map<int, _>` per table, keyed by the serial primary key, and the next serial value for each table. `Database.Valid()` says every row is stored under its own id, every key is below the next serial value, and user emails are unique. Three groups of code change these tables, and each group is its own module:

- `ServerActions` (`lib/actions.ts`): user-scoped server actions.
  - Every action first resolves the session's user id and throws "Not authenticated" when there is none.
  - Reads return only the caller's rows.
  - A write to a row that is missing or foreign throws "Unauthorized" and changes nothing.
  - `deleteProject` first clears `projectId` on every task that references the project, whoever owns the task, and then deletes the project.
- `UnscopedActions` (`app/actions/tasks.ts`): a second set of task actions.
  - It has no session and no ownership checks, and it selects rows by id alone.
  - Its defaults are its own (status `"todo"`, outside the table's enum).
  - A storage failure is caught and returned as `{ success: false, error }`.
- `TasksRoute` and `ProjectsRoute` (`app/api/tasks/route.ts`, `app/api/projects/route.ts`): REST handlers.
  - They validate JSON bodies with the zod schemas and scope every write by `(id, userId)`.
  - They answer 400, 401, 404 or 500 as the handlers do.
  - The task handlers sit behind the `withAuth` guard (`ApiAuth`).

`Middleware` is the redirect decision made before any page is served.

The three groups really disagree. `ServerActions.PatchTask` clears the due date when an update omits it, while `TasksRoute.PutRow` keeps it; `TasksRoute.UpdatePathsDisagreeOnDueDate` states this.

**Page derivations.** These are pure functions over the task list as the pages receive it (`ClientTasks.ClientTask`, whose due date is a string):

- the search filter and sort comparators of the tasks page and the task list component, and their sort-toggle state;
- dashboard counts, completion rate and the next five deadlines;
- per-project statistics and the project card's progress badge;
- the three calendars' day buckets and priority dots, and the popover state of one of them;
- the project selector's value codec.

Sorting is `Sorting.Sort`, an insertion sort by a JavaScript-style comparator (`cmp(a, b) <= 0` keeps `a` first). It is proved to return a sorted permutation whenever the comparator is a total preorder, and every page comparator is proved to be one. `Sorting.SortStable` proves it stable: elements the comparator ranks as equal keep their input order.

Some inputs are parameters rather than computed:

- the current time `now`;
- date parsing (`parseDate: string -> int`, for `new Date(s).getTime()`);
- `toLowerCase` (`lower`) and `localeCompare` (`lc`);
- `toDateString` (`dayOf`);
- whether the store raises (`available: bool`).

Timestamps are integer milliseconds. Percentages are exact `real`s.

## Model

| member | source | states |
|---|---|---|
| Schema.PriorityLiterals | db/schema.ts:13 | the priority enum holds exactly "low", "medium", "high": a literal reads back as its priority, and a string reads as a priority only if it is that priority's literal |
| Schema.StatusLiterals | db/schema.ts:14 | the status enum holds exactly "pending", "in_progress", "completed", in both directions |
| Schema.OmittedColumnsTakeDefaults | db/schema.ts:29-36 | an insert naming no priority, status or completion flag stores medium, pending, not completed, with creation time equal to update time |
| Schema.DueDateFrom | lib/actions.ts:52 | `text ? new Date(text) : null`: no date exactly when the text is absent or empty, otherwise the parsed date |
| Schema.CreatedAtOrders | lib/actions.ts:22 | ordering by creation time is a total preorder for tasks and for projects |
| Schema.Database.constructor | db/schema.ts:4-11 | a database of users with unique emails and empty project and task tables is valid |
| Schema.Database.InsertTask | db/schema.ts:25-37 | an insert stores the row under a fresh serial key, with column defaults for omitted values, and changes no other table |
| Schema.Database.InsertProject | db/schema.ts:16-23 | an insert stores the project under a fresh serial key and changes no other table |
| ServerActions.CreatedTaskShape | lib/actions.ts:45-56 | a created task is owned by the caller, carries the input's fields, is not completed, and has no due date exactly when the input's is absent or empty |
| ServerActions.PatchTask | lib/actions.ts:65-73 | the updated row keeps id, owner, completion flag and creation time; it takes every field the input names; its due date is always rewritten (null when omitted); its update time is now |
| ServerActions.EmptyPatchClearsDueDate | lib/actions.ts:67-71 | an update naming no field still clears the due date and moves the update time |
| ServerActions.PatchTwice | lib/actions.ts:65-73 | applying the same update twice at the same time equals applying it once |
| ServerActions.PatchProject | lib/actions.ts:128-135 | the updated project keeps id, owner and creation time, takes the named name and description, keeps the others, and its update time is now |
| ServerActions.DetachProject | lib/actions.ts:146-150 | every task is kept; none references the project afterwards; only `projectId` changes, and only on tasks that referenced the project |
| ServerActions.DetachReachesOtherUsers | lib/actions.ts:146-150 | the detach step is not filtered by owner: it rewrites a task of another user |
| ServerActions.GetTasks | lib/actions.ts:10-27 | no session throws "Not authenticated"; otherwise the result holds exactly the caller's tasks, each once, ordered by creation time |
| ServerActions.GetTask | lib/actions.ts:29-43 | null exactly when no task has the id; "Unauthorized" exactly when the task is another user's; otherwise the caller's stored task |
| ServerActions.CreateTask | lib/actions.ts:45-56 | no session changes nothing; otherwise exactly one new row under a fresh key, owned by the caller, which `getTask` then returns |
| ServerActions.UpdateTask | lib/actions.ts:58-75 | a missing or foreign task throws "Unauthorized" and changes nothing; otherwise only that row becomes `PatchTask` of it |
| ServerActions.DeleteTask | lib/actions.ts:77-86 | a missing or foreign task throws "Unauthorized" and changes nothing; otherwise exactly that row is removed and the result is true |
| ServerActions.GetProjects | lib/actions.ts:88-94 | no session throws; otherwise exactly the caller's projects, each once, ordered by creation time |
| ServerActions.GetProject | lib/actions.ts:96-107 | null exactly when no project has the id; "Unauthorized" exactly when it is another user's; otherwise the caller's stored project |
| ServerActions.CreateProject | lib/actions.ts:109-119 | no session changes nothing; otherwise exactly one new project owned by the caller, readable back with `getProject` |
| ServerActions.UpdateProject | lib/actions.ts:121-137 | a missing or foreign project throws "Unauthorized" and changes nothing; otherwise only that project becomes `PatchProject` of it |
| ServerActions.DeleteProject | lib/actions.ts:139-155 | a missing or foreign project throws and changes nothing; otherwise the project is removed and the task table becomes `DetachProject` of the old one |
| UnscopedActions.VariantStatusesOutsideSchema | app/actions/tasks.ts:13 | of the statuses this variant writes, only "completed" is a literal of the table's status enum |
| UnscopedActions.NewRow | app/actions/tasks.ts:18-24 | the inserted row has the input's title, description and due date and no owner; its priority is the given one, or medium when omitted; its status is the given variant's name, or "todo" when omitted; both timestamps are now |
| UnscopedActions.PatchRow | app/actions/tasks.ts:35-44 | each field the input names is written (title, description, due date, priority, and status as the variant's name) and each field it omits is kept; id, owner and creation time are kept; the update time is now |
| UnscopedActions.FullPatchOverwrites | app/actions/tasks.ts:35-44 | an update naming every field gives the same row whatever the old row held |
| UnscopedActions.TaskTable.constructor | app/actions/tasks.ts:16-80 | an empty table is valid |
| UnscopedActions.TaskTable.CreateTask | app/actions/tasks.ts:16-31 | a storage failure returns "Failed to create task" and changes nothing; otherwise a new row `NewRow` under a fresh key |
| UnscopedActions.TaskTable.UpdateTask | app/actions/tasks.ts:33-51 | a storage failure returns "Failed to update task"; otherwise the row with that id, whoever owns it, is patched, and a missing id still succeeds |
| UnscopedActions.TaskTable.DeleteTask | app/actions/tasks.ts:53-62 | a storage failure returns "Failed to delete task"; otherwise the row with that id is removed, with no ownership check |
| UnscopedActions.TaskTable.GetTasks | app/actions/tasks.ts:64-71 | a storage failure returns "Failed to fetch tasks"; otherwise every row of every user, each once |
| UnscopedActions.TaskTable.GetTask | app/actions/tasks.ts:73-80 | a storage failure returns "Failed to fetch task"; otherwise data is present exactly when a row has the id, and is that row |
| Http.Truthy | app/api/tasks/route.ts:72 | JavaScript truthiness of a JSON value: null, "", 0 and false are falsy; everything else is truthy |
| TasksRoute.ParseTaskData | app/api/tasks/route.ts:8-15 | the schema requires title (length at least 1), priority and status unless partial; it rejects a present field of the wrong kind; the accepted enum fields are exactly the body's literals |
| TasksRoute.ParseDataToJson | app/api/tasks/route.ts:8-15 | validating the JSON of accepted data accepts it unchanged, for the full schema and the partial one |
| TasksRoute.UnknownKeysIgnored | app/api/tasks/route.ts:8-15 | keys outside the schema, such as `userId`, do not affect validation, so a body cannot choose the owner |
| TasksRoute.PutRow | app/api/tasks/route.ts:81-86 | each column the data names (title, description, priority, status, project) takes the data's value and each column it omits is kept; an absent or empty due date keeps the stored one, another is parsed; id, owner, completion flag and timestamps are kept; data naming nothing leaves the row as it was |
| TasksRoute.UpdatePathsDisagreeOnDueDate | app/api/tasks/route.ts:85 | with no due date in the request, the server action clears a stored due date while PUT keeps it |
| TasksRoute.GetHandler | app/api/tasks/route.ts:17-41 | exactly the caller's rows, each once, restricted to the inclusive due-date range only when both bounds are non-empty; a store error is 500 |
| TasksRoute.PostHandler | app/api/tasks/route.ts:43-65 | a body that is not JSON is 500; a JSON value that is not an object, or an object the schema rejects, is 400; a store error is 500, a project id outside int4 or a title over 255 characters among them; all of these change nothing; otherwise one new row owned by the caller with the due date parsed or null |
| TasksRoute.PutHandler | app/api/tasks/route.ts:67-108 | a `null` body is 500; a body that is not an object, or has no truthy id, is 400 "Task ID is required"; schema errors are 400; the response is 200 exactly when the id is an int4 number naming a task of the caller, the data sets some column, its project id is an int4, its title fits 255 characters and the store is up, and then only that row is rewritten; otherwise nothing changes; 404 says "Task not found" |
| TasksRoute.DeleteHandler | app/api/tasks/route.ts:110-142 | a missing or empty id is 400; the response is 200 exactly when the store is up and `parseInt(id)` is an int4 naming a task of the caller, which is then removed and returned; otherwise nothing changes; 404 says "Task not found" |
| TasksRoute.Get | app/api/tasks/route.ts:17 | behind the guard, a request without a user gets the guard's response; with one, only the caller's rows are listed |
| TasksRoute.Post | app/api/tasks/route.ts:43 | behind the guard, a created row is always owned by the resolved user |
| TasksRoute.Put | app/api/tasks/route.ts:67 | behind the guard, any response other than 200 leaves the database unchanged |
| TasksRoute.Delete | app/api/tasks/route.ts:110 | behind the guard, any response other than 200 leaves the database unchanged |
| ProjectsRoute.ParseProjectData | app/api/projects/route.ts:8-11 | accepted exactly when the name is a string of length at least 1 and any description is a string; the data is the body's name and description |
| ProjectsRoute.Post | app/api/projects/route.ts:13-38 | no user is a plain-text 401 before the body is read; bad JSON, a store error or a name over 255 characters is 500; a body that is not an object, or schema errors, are 400; 200 exactly for a valid object body whose name fits the column, adding one project owned by the caller |
| ProjectsRoute.Get | app/api/projects/route.ts:40-56 | no user is a plain-text 401; otherwise exactly the caller's projects, each once, or 500 on a store error |
| ApiAuth.Guard | lib/api-auth.ts:12-28 | the handler is admitted exactly when a user resolved, with that user; no user is 401 `{error:'Unauthorized'}`; a failed lookup is 500 |
| ApiAuth.HandlerNotInvokedWithoutUser | lib/api-auth.ts:14-19 | without a user the response does not depend on the handler and is 401 or 500 |
| ApiAuth.HandlerAnswersForUser | lib/api-auth.ts:21 | with a user, the response is the handler's for exactly that user |
| Middleware.Decide | middleware.ts:14-25 | redirect to login (carrying the path) exactly for no user on a non-public path; to the dashboard exactly for a user on a public path; pass through exactly otherwise |
| Middleware.PublicExactly | middleware.ts:7-8 | a path is public exactly when it is "/login" or "/register" |
| Middleware.DecisionDependsOnClassOnly | middleware.ts:14-25 | the decision depends only on whether there is a user and whether the path is public |
| TasksPage.NextSort | app/dashboard/tasks/page.tsx:72-79 | the clicked column becomes current; on the current column the order flips, on another it is ascending |
| TasksPage.SortClicks | app/dashboard/tasks/page.tsx:72-79 | two clicks on the current column restore the state; leaving a column and coming back resets it to ascending |
| TasksPage.SortControl.constructor | app/dashboard/tasks/page.tsx:31-32 | the page starts sorted by due date, ascending |
| TasksPage.SortControl.HandleSort | app/dashboard/tasks/page.tsx:72-79 | the new sort state is `NextSort` of the old one |
| TasksPage.ToggledStatus | app/dashboard/tasks/page.tsx:84 | completed becomes pending, and every other status becomes completed |
| TasksPage.ToggleTwice | app/dashboard/tasks/page.tsx:84 | toggling twice restores every status except in progress, which ends up pending |
| TasksPage.ToggleBodyAccepted | app/dashboard/tasks/page.tsx:81-86 | the PUT endpoint accepts the toggle's body for any task with a non-zero id, and it sets only the status |
| TasksPage.EmptyQueryKeepsAll | app/dashboard/tasks/page.tsx:94-98 | an empty search keeps every task |
| TasksPage.DescNegatesAsc | app/dashboard/tasks/page.tsx:99-131 | the descending comparator is the exact negation of the ascending one, for every column |
| TasksPage.AscendingOrders | app/dashboard/tasks/page.tsx:102-126 | every ascending column comparator is an antisymmetric total preorder, given that `localeCompare` is one |
| TasksPage.ComparatorOrders | app/dashboard/tasks/page.tsx:99-131 | every comparator, in either order, is a total preorder |
| TasksPage.FilteredAndSortedSpec | app/dashboard/tasks/page.tsx:94-131 | the table is a permutation of the tasks whose title or description contains the query, sorted by the chosen comparator |
| TasksPage.UndatedPlacement | app/dashboard/tasks/page.tsx:103-107 | sorted by due date, undated tasks come after every dated task when ascending and before them when descending |
| TaskList.NextSort | components/task-list.tsx:47-63 | the clicked key becomes current; on the current key the order flips, on another it is ascending |
| TaskList.SortClicks | components/task-list.tsx:47-63 | two clicks on the current key restore the state; leaving a key and coming back resets it to ascending |
| TaskList.SortControl.constructor | components/task-list.tsx:13-14 | the list starts sorted by date, ascending |
| TaskList.SortControl.HandleSortByPriority | components/task-list.tsx:47-54 | the new state is `NextSort` of the old one on the priority key |
| TaskList.SortControl.HandleSortByDate | components/task-list.tsx:56-63 | the new state is `NextSort` of the old one on the date key |
| TaskList.DescriptionIgnored | components/task-list.tsx:19-21 | only the title is searched; the description makes no difference |
| TaskList.DescNegatesAsc | components/task-list.tsx:22-34 | the descending comparator is the exact negation of the ascending one |
| TaskList.ComparatorOrders | components/task-list.tsx:22-34 | both comparators are total preorders in either order |
| TaskList.FilteredAndSortedSpec | components/task-list.tsx:18-34 | the list is a permutation of the tasks whose title contains the query, sorted by the chosen comparator |
| Sorting.SortStable | app/dashboard/tasks/page.tsx:99 | the sort is stable: for any set of elements the comparator ranks as equal to one another, those elements leave the sort in the order they came in |
| TaskList.UndatedPlacement | components/task-list.tsx:30-32 | a missing due date counts as time 0: ascending, no undated task follows a task due after 0; descending, none precedes one |
| DashboardStats.StatusCountsSum | components/dashboard-stats.tsx:13-16 | the completed, in-progress and pending counts add up to the total |
| DashboardStats.CompletionRate | components/dashboard-stats.tsx:18 | the rate is in [0, 100], is 0 for no tasks, and is 100 exactly when there are tasks and all are completed |
| DashboardStats.UpcomingDeadlinesShape | components/dashboard-stats.tsx:20-30 | the deadlines are tasks of the list that are not completed and due within the next seven days, sorted by due time, five of them unless fewer qualify |
| DashboardStats.UpcomingDeadlinesEarliest | components/dashboard-stats.tsx:27-30 | no qualifying task left out of the five is due earlier than one shown |
| ProjectsPage.GetProjectStats | app/projects/page.tsx:30-47 | the total is the number of tasks whose project is the given one; completed and upcoming together are at most the total; progress is in [0, 100], 100 exactly when the project has tasks and all of them are completed, above 0 exactly when one of them is completed; no upcoming count exactly when none of them is upcoming |
| ProjectsPage.StatsOf | app/projects/page.tsx:32-46 | for a project's task list: the total is its length; progress is 0 for an empty list, 100 exactly when every task is completed, above 0 exactly when one is; the completed count is 0 exactly when none is completed and the upcoming count exactly when none is upcoming |
| ProjectsPage.TotalCountsProjectTasks | app/projects/page.tsx:31-46 | an empty list has zero counts; one more task in the list adds one to the total exactly when it belongs to the project, one to the completed count exactly when it also is completed, and one to the upcoming count exactly when it also is upcoming |
| ProjectsPage.ProjectTasksAppend | app/projects/page.tsx:31 | the project's tasks of a list with one more task are the old ones, followed by that task exactly when it belongs to the project |
| ProjectsPage.EmptyProject | app/projects/page.tsx:31-45 | a project without tasks has zero counts and zero progress |
| ProjectCard.TotalTasks | components/project-card.tsx:51 | the number of attached tasks, 0 when none are attached |
| ProjectCard.CompletedTasks | components/project-card.tsx:52 | the completed count never exceeds the total |
| ProjectCard.Progress | components/project-card.tsx:53 | progress is in [0, 100], 0 without tasks, 100 exactly when every attached task is completed, above 0 exactly when one is |
| ProjectCard.CompletedCounts | components/project-card.tsx:52 | all tasks counted as completed exactly when all are completed; some counted exactly when some are |
| ProjectCard.BadgeMeaning | components/project-card.tsx:102-108 | green exactly when all tasks are completed, blue when some but not all are, grey when none is |
| ProjectCard.TaskLabel | components/project-card.tsx:98 | the noun is "task" exactly when the total is 1, "tasks" otherwise |
| Percent.Percentage | app/projects/page.tsx:34 | `whole > 0 ? part / whole * 100 : 0` lies in [0, 100], is 100 exactly when part equals a non-zero whole, and is above 0 exactly when part is |
| CalendarDays.DateKeyOfTimestamp | components/calendar.tsx:40 | the date part of `date + "T" + time` is `date` |
| CalendarDays.OneDayPerTask | components/calendar.tsx:41-44 | a dated task falls on one day only and an undated task on none |
| CalendarDays.PriorityCountsSum | components/dashboard-calendar.tsx:40-44 | the high, medium and low counts add up to the number of tasks on the day |
| CalendarDays.DotsOf | components/dashboard-calendar.tsx:47-56 | a dot of a priority shows exactly when that priority's count is positive, each at most once, so at most three |
| CalendarDays.DotsOfNonEmpty | components/dashboard-calendar.tsx:37-56 | a day with tasks shows at least one dot |
| Calendar.Priorities | components/calendar.tsx:87-98 | one dot per task of the day, coloured by that task's priority, in order |
| Calendar.CalendarState.constructor | components/calendar.tsx:26-28 | nothing selected, no popover open, no dialog |
| Calendar.CalendarState.HandleAddTask | components/calendar.tsx:56-60 | selects the date, closes every popover and opens the add-task dialog |
| Calendar.CalendarState.HandleDateClick | components/calendar.tsx:47-54 | the clicked date becomes selected and highlighted; without tasks on it the dialog opens with no popover; with tasks its popover opens |
| Calendar.CalendarState.HandleDotsClick | components/calendar.tsx:82-85 | a click on the dots toggles that day's popover and nothing else |
| Calendar.CalendarState.HandleOpenChange | components/calendar.tsx:72-78 | the popover opens on its date or closes, and nothing else changes |
| Calendar.CalendarState.TileContent | components/calendar.tsx:62-67 | no content outside the month view; a hollow marker exactly for a day without tasks; otherwise the dots are the priorities of that day's tasks, in order, each open exactly when the open date has the same date part |
| DashboardCalendar.TileContent | components/dashboard-calendar.tsx:36-59 | no content exactly when no task falls on the day; otherwise one to three dots, one per priority present |
| DashboardCalendar.SelectedTasks | components/dashboard-calendar.tsx:65 | no selected date gives no tasks |
| DashboardCalendar.SelectedTileShowsSelectedTasks | components/dashboard-calendar.tsx:65-79 | the list beside the calendar holds the highlighted tile's tasks, and that tile shows dots exactly when the list is not empty |
| TaskCalendar.TasksForDay | components/task-calendar.tsx:14-20 | every task in the day's bucket is a task of the list that falls on the tile's day, and every dated task whose day string is the tile's is in it |
| TaskCalendar.TileContent | components/task-calendar.tsx:22-45 | no content exactly when the bucket is empty; otherwise one to three dots, one per priority present |
| ProjectSelector.DecodeEncode | components/project-selector.tsx:26-29 | decoding the encoded selection gives it back: null through "none", an id through its decimal text |
| ProjectSelector.DecimalIsNotNone | components/project-selector.tsx:26 | no id is written "none" |
| ProjectSelector.ItemValues | components/project-selector.tsx:35-50 | "none" first, then one value per project, in order, its id in decimal |
| ProjectSelector.ItemsDecode | components/project-selector.tsx:27-50 | choosing an item selects its project, or no project for the first; the current selection's value is its item's |
| ProjectSelector.ItemsDistinct | components/project-selector.tsx:35-50 | projects with distinct ids have distinct items, none of them "none" |
| Decimal.ParseToDecimal | components/project-selector.tsx:26-28 | `parseInt(n.toString(), 10)` is `n`; stated for exact integers, which JavaScript numbers are for the int4 ids a project has |
| Decimal.ToDecimalInjective | components/project-selector.tsx:37 | different integers have different decimal texts |

## Left out

- The user lookup: `getCurrentUserId`, the JWT and cookie code behind `auth` and `getUser`, and sessions. The session is an `Option<int>` input. An id whose `parseInt` is NaN is not modelled: `None` stands for "no user".
- Real dates. `new Date(s)` is the parameter `parseDate` and is taken to succeed. Invalid dates (NaN times) and time zones are not modelled. `toISOString` is the ISO text the calendars receive. `toDateString` is the parameter `dayOf`.
- `toLowerCase` and `localeCompare` are parameters. The title sort assumes `localeCompare` is an antisymmetric total preorder.
- Floating point. Percentages are exact reals, so the model's 100 means "all completed"; IEEE rounding is not modelled. `toFixed` display formatting is left out.
- JavaScript's sort algorithm. The model sorts with an insertion sort that is proved stable (`Sorting.SortStable`). For a total preorder, every stable sort gives the same list, and `Array.prototype.sort` is stable.
- Rows returned by an unordered `select` come in key order in the model. Their order is not promised by the database, and no lemma depends on it.
- Drizzle and PostgreSQL behaviour, stated as assumptions rather than modelled:
  - `undefined` values in `.set()` are skipped.
  - `BETWEEN` is inclusive and false for a null due date.
  - A task title or project name longer than its `varchar(255)` column makes the store raise. The REST handlers answer 500 for it (`Http.FitsVarchar255`). The server actions (`ServerActions`, `UnscopedActions`) are not given the limit: where the source throws or reports a failure for such a title or name, the model writes the row.
  - NOT NULL, foreign-key and enum constraints are not enforced. A row written by `UnscopedActions` (status "todo", no owner) would be rejected by PostgreSQL, but the model stores it.
  - A `.set()` with no column to set raises, so PUT with nothing to set answers 500.
  - A PUT `id` that is a truthy non-number raises, so it answers 500. A numeric string that the database would coerce is not modelled.
  - A DELETE `id` whose `parseInt` is NaN raises, so it answers 500.
- `parseInt` without a radix in the DELETE handler also reads `0x` hexadecimal. The model reads decimal only.
- JSON numbers are integers. Fractional numbers in bodies are not modelled.
- PostgreSQL `integer` columns. The REST handlers answer 500 for a task id or a project id outside int4, as the store raises on such a parameter. The server actions are not given that bound: an out-of-range id there is simply not found.
- JavaScript number formatting and precision. `toString` writes numbers from 1e21 up in exponent form, and `parseInt` loses precision above 2^53. The model's integers are exact, which agrees with JavaScript for every int4 id.
- Relational loading (`with: { project: true }`) in `getTasks` and `getTask` is left out; the task rows are returned without their project.
- `CreateProjectInput.color` has no column and is dropped, as the insert does.
- `revalidatePath`, React Query fetching and invalidation, toasts, routing, JSX and CSS.
- Concurrency. Every operation runs alone. `deleteProject`'s two writes are not in one transaction, and the model runs them back to back.
- Exceptions inside handlers other than the store failures named above.
- TasksRoute.Get: states only what the guard adds; the handler method it calls, TasksRoute.GetHandler, carries the full contract.
- TasksRoute.Post: states only what the guard adds; the handler method it calls, TasksRoute.PostHandler, carries the full contract.
- TasksRoute.Put: states only what the guard adds; the handler method it calls, TasksRoute.PutHandler, carries the full contract.
- TasksRoute.Delete: states only what the guard adds; the handler method it calls, TasksRoute.DeleteHandler, carries the full contract.
- DashboardStats.StatusCountsSum: the source compares status strings, so its counts may add up to less than the total. In the model every status is one of the enum's three, so they add up to exactly the total.
