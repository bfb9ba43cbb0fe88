# Task tracker dashboard, project records and form schemas — a Dafny model

This project models the self-contained logic of a small task/project tracking
web application:

- **The dashboard's task-collection logic** (`Dashboard`): the four statistics
  cards (total, completed, in progress, overdue), the checkbox toggle rule, the
  "Recent Tasks" card (a copy of the task list sorted by due date and cut to
  five), the project-name lookup with its "Unknown Project" fallback, and the
  optimistic status-update cycle over the cached task list: snapshot the list,
  write the new status into the cache, restore the whole snapshot when the
  update fails, and in every case mark the list for refetch. The cache and the
  mutation's observable state (`isPending`, `variables`) are the fields of the
  class `TaskQueryClient`; the update's context (the snapshot) is handed from
  `Begin` to `Settle` as the library hands it from `onMutate` to `onError`.
- **The task status** (`Tasks`): the shared task type admits four spellings,
  `todo`, `in-progress`, `in_progress` and `done`. They stay four distinct
  values; nothing is normalised. The dashboard's "In Progress" card counts only
  `in-progress`, and the task form accepts only `in_progress`.
- **Project record construction** (`Project`): a new project copies the form's
  name, description, colour and due date, takes a supplied id, starts `active`
  with zero task counters, and gets a URL slug: the name lowercased, each
  maximal run of whitespace replaced by one `-`.
- **Form schemas** (`SchemaRules`, `TaskSchema`, `ProjectSchema`): minimum
  string lengths measured on the untrimmed string, and membership in fixed
  option lists; a predicate for validity and a function listing each failing
  field's issue with its message.

The statistics and the recent-tasks card are computed from the loaded task
list; the dashboard uses the empty list while the cache holds nothing
(dashboard-body.tsx lines 354-355), so these functions take a plain list.
Due dates are integers and the current time `now` is a parameter. The outcome
of the network update is a boolean parameter (`succeeded`); the project id is a
parameter standing for the browser's UUID generator.

Behaviour of the code that the model makes explicit:

- The task type has four status spellings, and the dashboard counts only
  `in-progress` in its "In Progress" card (`StatusCountsPartition`).
- A failed update restores the whole snapshot of the list, which also
  discards another update's optimistic write still in flight
  (`OverlappingRollbackScenario`).
- `onSettled` marks the list for refetch after a failure too, not only after
  a success.
- An update of a task id that no cached task has writes nothing
  (`WithStatusAbsent`); any failure then comes from the server.
- The server's answer to a successful update is not written into the cache.
  The cache keeps the optimistic list until the refetch.

## Model

| member | source | states |
|---|---|---|
| Tasks.ParseStatus | lib/tasks.ts:8 | the status union as a set of values: exactly its four spellings are statuses, and each spells back to the text |
| Tasks.ParseSpelling | lib/tasks.ts:8 | every status read back from its spelling is itself (round trip) |
| Dashboard.CalculateStats | app/components/dashboard/dashboard-body.tsx:79-89 | total is the list length; completed and in progress are the multiplicities of "done" and of "in-progress" only; overdue is the number of tasks that are overdue (not done and due before `now`); completed + inProgress <= total; overdue <= total - completed |
| Dashboard.IsOverdue | app/components/dashboard/dashboard-body.tsx:83-86 | a task is overdue exactly when its due date is before `now` and its status is not "done" |
| Dashboard.CountOverdue | app/components/dashboard/dashboard-body.tsx:83-86 | the filter-and-length count of overdue tasks, never more than the list length |
| Dashboard.OverdueFlags | app/components/dashboard/dashboard-body.tsx:83-86 | one flag per task, in order, true exactly when that task is overdue |
| Dashboard.CountOverdueIsMultiplicity | app/components/dashboard/dashboard-body.tsx:83-86 | the overdue count equals the number of true flags, i.e. the number of overdue tasks |
| Dashboard.CountIsMultiplicity | app/components/dashboard/dashboard-body.tsx:81-82 | the filter-and-length count of a status equals its multiplicity among the list's statuses |
| Dashboard.StatusCountsPartition | app/components/dashboard/dashboard-body.tsx:80-82 | the counts of the four statuses add up to the total, so "in_progress" tasks fall in no card but the total |
| Dashboard.OverdueExcludesDone | app/components/dashboard/dashboard-body.tsx:83-86 | overdue + completed <= total: no done task is counted overdue |
| Dashboard.OverdueMonotone | app/components/dashboard/dashboard-body.tsx:83-86 | for an unchanged list, a later `now` never gives a smaller overdue count |
| Dashboard.ToggleTarget | app/components/dashboard/dashboard-body.tsx:330-333 | the requested status is always "todo" or "done", and it is "done" exactly when the current status is not "done" |
| Dashboard.WithStatus | app/components/dashboard/dashboard-body.tsx:301-303 | same length and order; each task with the target id takes the new status, every other field and every other task unchanged |
| Dashboard.OptimisticWrite | app/components/dashboard/dashboard-body.tsx:299-304 | an undefined cache stays undefined; a list keeps length, order and ids, targets get the new status, other tasks are unchanged |
| Dashboard.WithStatusIdempotent | app/components/dashboard/dashboard-body.tsx:299-304 | writing the same status twice equals writing it once |
| Dashboard.WithStatusAbsent | app/components/dashboard/dashboard-body.tsx:299-304 | a write to an id no task has leaves the list as it was |
| Dashboard.WithStatusUndo | app/components/dashboard/dashboard-body.tsx:296-313 | if all tasks with the id had one status, writing it back after the optimistic write gives the original list |
| Dashboard.MarkDoneStats | app/components/dashboard/dashboard-body.tsx:79-89 | optimistically marking a task done keeps the total, never lowers completed and never raises overdue |
| Dashboard.InsertByDue | app/components/dashboard/dashboard-body.tsx:357-359 | inserting into a due-date-sorted list keeps it sorted and adds exactly that task |
| Dashboard.SortByDue | app/components/dashboard/dashboard-body.tsx:355-359 | the sorted copy is ordered by non-decreasing due date and is a permutation of the list |
| Dashboard.RecentTasks | app/components/dashboard/dashboard-body.tsx:355-360 | length min(5, n), ordered by non-decreasing due date, a sub-multiset of the task list |
| Dashboard.RecentAreEarliest | app/components/dashboard/dashboard-body.tsx:355-360 | a task not shown on the card is due no earlier than every task shown |
| Dashboard.BuildProjectMap | app/components/dashboard/dashboard-body.tsx:362-365 | the reduce loop builds exactly the fold that assigns each project's name to its id in list order |
| Dashboard.ProjectMapKeys | app/components/dashboard/dashboard-body.tsx:362-365 | an id is a key of the project map exactly when some project has that id |
| Dashboard.ProjectMapLastWins | app/components/dashboard/dashboard-body.tsx:362-365 | among projects sharing an id, the map holds the last one's name |
| Dashboard.ProjectNameFor | app/components/dashboard/dashboard-body.tsx:425 | the label is never empty; it is either "Unknown Project" or the map's name for the id, and "Unknown Project" when the id is not a key |
| Dashboard.ProjectNameLookup | app/components/dashboard/dashboard-body.tsx:425 | a row shows the name of the last project with its project id, or "Unknown Project" when none has it or that name is empty |
| Dashboard.TaskQueryClient.IsUpdating | app/components/dashboard/dashboard-body.tsx:427 | a row shows as updating exactly while a mutation is pending whose variables name that row's task id, so at most one row at a time |
| Dashboard.TaskQueryClient.OnMutate | app/components/dashboard/dashboard-body.tsx:291-308 | the returned snapshot is the cache before the write; the cache becomes the optimistic write of the update |
| Dashboard.TaskQueryClient.OnError | app/components/dashboard/dashboard-body.tsx:309-315 | a snapshot that exists, even an empty list, replaces the whole cache; without one the cache is untouched |
| Dashboard.TaskQueryClient.OnSettled | app/components/dashboard/dashboard-body.tsx:316-319 | the task list is marked for refetch |
| Dashboard.TaskQueryClient.Begin | app/components/dashboard/dashboard-body.tsx:289-308 | the mutation is pending with these variables, exactly the target row is "updating" (line 427), the context is the old cache and the cache holds the optimistic write |
| Dashboard.TaskQueryClient.Settle | app/components/dashboard/dashboard-body.tsx:309-320 | afterwards no row is updating and the list is marked for refetch; on failure with a snapshot the cache is that snapshot, otherwise it is unchanged |
| Dashboard.TaskQueryClient.HandleToggleTask | app/components/dashboard/dashboard-body.tsx:330-333 | a click run to the end requests the toggled status; on success the cache is the optimistic write, on failure exactly the list before the click; either way marked for refetch |
| Dashboard.FailedToggleScenario | app/components/dashboard/dashboard-body.tsx:289-320 | with "t1" to do and "t2" done, a failed tick of "t1" leaves both tasks as they were and the list marked for refetch |
| Dashboard.OverlappingRollbackScenario | app/components/dashboard/dashboard-body.tsx:296-313 | when an earlier overlapping update fails, its whole-list snapshot also wipes a later update's optimistic write |
| Project.LowerChar | lib/project.ts:40 | lowercasing yields no uppercase ASCII letter, keeps whitespace-ness and fixes every other character |
| Project.ToLowerCase | lib/project.ts:40 | same length; each character lowercased in place |
| Project.LowerCaseOfLower | lib/project.ts:40 | lowercasing text without uppercase letters changes nothing |
| Project.LowerCaseConcat | lib/project.ts:40 | lowercasing distributes over concatenation |
| Project.SkipWhitespace | lib/project.ts:40 | the result is a suffix of the text, the dropped prefix is all whitespace, and the result starts with a non-whitespace character or is empty |
| Project.DashWhitespaceRuns | lib/project.ts:40 | the result holds no whitespace and is no longer than the input |
| Project.DashKeepsNoUpper | lib/project.ts:40 | the run replacement introduces no uppercase letter |
| Project.Slug | lib/project.ts:40 | the slug holds no whitespace and no uppercase ASCII letter and is never longer than the name |
| Project.DashWithoutWhitespace | lib/project.ts:40 | text without whitespace is left unchanged by the run replacement |
| Project.SlugWithoutWhitespace | lib/project.ts:40 | a name without whitespace has its lowercased self as slug |
| Project.SlugIdempotent | lib/project.ts:40 | the slug of a slug is the same slug |
| Project.SkipWhitespaceRun | lib/project.ts:40 | a whole leading run of whitespace is skipped, and no more |
| Project.DashRun | lib/project.ts:40 | a whole whitespace run in front of non-whitespace text becomes exactly one `-` |
| Project.DashAfterWord | lib/project.ts:40 | a maximal whitespace run after a word becomes exactly one `-` |
| Project.SlugSplitsAtRun | lib/project.ts:40 | slug(word + run + rest) = lowercase(word) + "-" + slug(rest) |
| Project.SlugExample | lib/project.ts:40 | "My Project" gives "my-project" |
| Project.CreateProject | lib/project.ts:34-48 | the record has the supplied id, the input's name, description, colour and due date, status "active", zero counters, and the slug of the input's name (idempotent, without whitespace or uppercase) |
| TaskSchema.Issues | lib/validators/task.schema.ts:3-10 | no issue exactly when all six rules pass; each field has its own issue, with its own message, exactly when its rule fails, and there is no other issue; lengths are untrimmed, so " " is a valid title |
| TaskSchema.IsValid | lib/validators/task.schema.ts:3-10 | the values pass exactly when title, description, project and due date are non-empty and priority and status are among their listed spellings |
| TaskSchema.AcceptedStatusSpellings | lib/validators/task.schema.ts:8 | of the four status spellings the form accepts all but the dashboard's "in-progress" |
| ProjectSchema.Issues | lib/validators/project.schema.ts:3-9 | no issue exactly when all five rules pass; a name shorter than 2 gets "Name is required", a description shorter than 5 "Description is too short", empty colour or due date their messages, an unlisted status an enum issue, and there is no other issue |
| ProjectSchema.IsValid | lib/validators/project.schema.ts:3-9 | the values pass exactly when the name has at least 2 characters, the description at least 5, colour and due date are non-empty and the status is one of the three listed |
| ProjectSchema.SubmittedProjectIsActive | lib/project.ts:37-44 | whatever status the form chose, the record built from its values starts "active" (a status the schema accepts) and carries the form's other fields |

## Left out

- Fetching tasks and projects and sending the status update are network calls. The update's outcome is the `succeeded` parameter.
- The data-fetching library's scheduling is not modelled: cancelling in-flight reads, stale times, refetch intervals, retries and refetch on focus. Invalidation is a flag; the refetch that follows it is not modelled.
- Dashboard.TaskQueryClient.Settle: clears `isPending` for whichever mutation settles. The library's mutation observer follows only the latest `mutate` call.
- Date strings are not parsed. Due dates are integers, `now` is a parameter, and the "Today"/"Tomorrow" labels and invalid-date behaviour are not modelled.
- Dashboard.SortByDue: the insertion sort is stable, like JavaScript's `sort`, but its stability is not stated as a property.
- Dashboard.ProjectNameFor: a project id equal to an inherited object key (such as "constructor") finds a value in the JavaScript dictionary. In the model it falls back to "Unknown Project".
- Project.ToLowerCase: lowercases only the ASCII letters A–Z. JavaScript's `toLowerCase` applies full Unicode case mapping, which can also change a string's length.
- Project.CreateProject: returns the record sent. `createProject` returns the server's reply, which is not modelled.
- TaskSchema.Issues: lengths are counted in Unicode scalar values. The validation library counts UTF-16 code units, which differs for characters outside the Basic Multilingual Plane.
- ProjectSchema.Issues: lengths are counted as for TaskSchema.Issues.
- The validation library's wording for a rejected enum value, and its issues for non-string input, are not modelled. An enum issue carries the options and the value received.
- Logging (`console.error`), UUID generation, the project progress percentage (floating point), the sidebar and all rendering are outside the modelled logic.
