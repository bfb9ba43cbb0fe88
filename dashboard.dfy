/**
 * The dashboard's task-collection logic (app/components/dashboard/dashboard-body.tsx):
 * the statistics cards, the checkbox toggle rule, the "recent tasks" list,
 * the project-name lookup, and the optimistic status-update cycle over the
 * cached task list. Due dates are integers and the current time `now` is a
 * parameter; fetching, rendering and the data-fetching library's scheduling
 * are not modelled.
 */
module Dashboard {
  import opened Wrappers
  import opened Tasks

  datatype Priority = Low | Medium | High

  /** A task as the dashboard reads it from the task list. */
  datatype Task = Task(
    id: string,
    title: string,
    description: string,
    projectId: string,
    status: Status,
    priority: Priority,
    dueDate: int,
    tags: seq<string>)

  /** A project as the dashboard reads it: only its id, name and colour are used. */
  datatype ProjectRef = ProjectRef(id: string, name: string, color: string)

  /** The variables of one status mutation. */
  datatype StatusUpdate = StatusUpdate(id: string, status: Status)

  // ---------------------------------------------------------------------------
  // Statistics cards
  // ---------------------------------------------------------------------------

  datatype Stats = Stats(total: nat, completed: nat, inProgress: nat, overdue: nat)

  /** How many tasks carry status `s` (a filter followed by `.length`). */
  function CountStatus(tasks: seq<Task>, s: Status): (n: nat)
    ensures n <= |tasks|
  {
    if tasks == [] then 0
    else (if tasks[0].status == s then 1 else 0) + CountStatus(tasks[1..], s)
  }

  /** A task is overdue when its due date has passed and it is not done. */
  predicate IsOverdue(t: Task, now: int) {
    t.dueDate < now && t.status != Done
  }

  function CountOverdue(tasks: seq<Task>, now: int): (n: nat)
    ensures n <= |tasks|
  {
    if tasks == [] then 0
    else (if IsOverdue(tasks[0], now) then 1 else 0) + CountOverdue(tasks[1..], now)
  }

  /** The statuses of a list, in order: the reference the counters are checked against. */
  function Statuses(tasks: seq<Task>): (r: seq<Status>)
    ensures |r| == |tasks|
  {
    if tasks == [] then [] else [tasks[0].status] + Statuses(tasks[1..])
  }

  /** Counting a status is taking its multiplicity among the list's statuses. */
  lemma {:induction false} CountIsMultiplicity(tasks: seq<Task>, s: Status)
    ensures CountStatus(tasks, s) == multiset(Statuses(tasks))[s]
  {
    if tasks != [] {
      CountIsMultiplicity(tasks[1..], s);
      assert multiset(Statuses(tasks)) == multiset{tasks[0].status} + multiset(Statuses(tasks[1..]));
    }
  }

  /**
   * Every task falls under exactly one of the four status counts. The
   * dashboard shows only the "done" and "in-progress" ones, so tasks spelled
   * "in_progress" appear in no card but the total.
   */
  lemma {:induction false} StatusCountsPartition(tasks: seq<Task>)
    ensures CountStatus(tasks, Todo) + CountStatus(tasks, InProgressHyphen)
          + CountStatus(tasks, InProgressUnderscore) + CountStatus(tasks, Done) == |tasks|
  {
    if tasks != [] {
      StatusCountsPartition(tasks[1..]);
    }
  }

  /** No task is both overdue and done. */
  lemma {:induction false} OverdueExcludesDone(tasks: seq<Task>, now: int)
    ensures CountOverdue(tasks, now) + CountStatus(tasks, Done) <= |tasks|
  {
    if tasks != [] {
      OverdueExcludesDone(tasks[1..], now);
    }
  }

  /** Which tasks of a list are overdue, in order: the reference the overdue counter is checked against. */
  function OverdueFlags(tasks: seq<Task>, now: int): (r: seq<bool>)
    ensures |r| == |tasks|
    ensures forall i :: 0 <= i < |tasks| ==> r[i] == IsOverdue(tasks[i], now)
  {
    if tasks == [] then [] else [IsOverdue(tasks[0], now)] + OverdueFlags(tasks[1..], now)
  }

  /** The overdue count is the number of tasks that are overdue. */
  lemma {:induction false} CountOverdueIsMultiplicity(tasks: seq<Task>, now: int)
    ensures CountOverdue(tasks, now) == multiset(OverdueFlags(tasks, now))[true]
  {
    if tasks != [] {
      CountOverdueIsMultiplicity(tasks[1..], now);
      assert OverdueFlags(tasks, now) == [IsOverdue(tasks[0], now)] + OverdueFlags(tasks[1..], now);
      assert multiset(OverdueFlags(tasks, now))
        == multiset{IsOverdue(tasks[0], now)} + multiset(OverdueFlags(tasks[1..], now));
    }
  }

  /** As time passes, with the list unchanged, the overdue count never goes down. */
  lemma {:induction false} OverdueMonotone(tasks: seq<Task>, now: int, later: int)
    requires now <= later
    ensures CountOverdue(tasks, now) <= CountOverdue(tasks, later)
  {
    if tasks != [] {
      OverdueMonotone(tasks[1..], now, later);
    }
  }

  /** The four statistics cards of the dashboard. */
  function CalculateStats(tasks: seq<Task>, now: int): (st: Stats)
    ensures st.total == |tasks|
    ensures st.completed == multiset(Statuses(tasks))[Done]
    ensures st.inProgress == multiset(Statuses(tasks))[InProgressHyphen]
    ensures st.completed + st.inProgress <= st.total
    ensures st.overdue == multiset(OverdueFlags(tasks, now))[true]
    ensures st.overdue <= st.total - st.completed
  {
    CountIsMultiplicity(tasks, Done);
    CountIsMultiplicity(tasks, InProgressHyphen);
    CountOverdueIsMultiplicity(tasks, now);
    StatusCountsPartition(tasks);
    OverdueExcludesDone(tasks, now);
    Stats(|tasks|, CountStatus(tasks, Done), CountStatus(tasks, InProgressHyphen), CountOverdue(tasks, now))
  }

  // ---------------------------------------------------------------------------
  // Checkbox toggle
  // ---------------------------------------------------------------------------

  /** The status a checkbox click requests: a done task reopens as "todo", any other is completed. */
  function ToggleTarget(current: Status): (r: Status)
    ensures r == Todo || r == Done
    ensures r == Done <==> current != Done
  {
    if current == Done then Todo else Done
  }

  // ---------------------------------------------------------------------------
  // Optimistic write
  // ---------------------------------------------------------------------------

  /** The list with every task whose id is `id` given status `status`. */
  function WithStatus(tasks: seq<Task>, id: string, status: Status): (r: seq<Task>)
    ensures |r| == |tasks|
    ensures forall i :: 0 <= i < |tasks| && tasks[i].id == id ==> r[i] == tasks[i].(status := status)
    ensures forall i :: 0 <= i < |tasks| && tasks[i].id != id ==> r[i] == tasks[i]
  {
    if tasks == [] then []
    else [if tasks[0].id == id then tasks[0].(status := status) else tasks[0]] + WithStatus(tasks[1..], id, status)
  }

  /**
   * The optimistic cache write: an undefined cache stays undefined; a list keeps
   * its length and order, the target tasks take the new status and every other
   * task is unchanged.
   */
  function OptimisticWrite(cached: Option<seq<Task>>, id: string, status: Status): (r: Option<seq<Task>>)
    ensures r.None? <==> cached.None?
    ensures r.Some? ==> |r.value| == |cached.value|
    ensures r.Some? ==> forall i :: 0 <= i < |r.value| ==>
      r.value[i].id == cached.value[i].id &&
      r.value[i].status == (if cached.value[i].id == id then status else cached.value[i].status) &&
      r.value[i] == cached.value[i].(status := r.value[i].status)
  {
    match cached
    case None => None
    case Some(tasks) => Some(WithStatus(tasks, id, status))
  }

  /** Writing the same status twice is writing it once. */
  lemma WithStatusIdempotent(tasks: seq<Task>, id: string, status: Status)
    ensures WithStatus(WithStatus(tasks, id, status), id, status) == WithStatus(tasks, id, status)
  {
  }

  /** A write to an id no task has changes nothing. */
  lemma WithStatusAbsent(tasks: seq<Task>, id: string, status: Status)
    requires forall i :: 0 <= i < |tasks| ==> tasks[i].id != id
    ensures WithStatus(tasks, id, status) == tasks
  {
  }

  /**
   * When every task with the id had status `prior`, writing `prior` back undoes
   * the optimistic write: an undo record for the one entity would do the
   * snapshot's job.
   */
  lemma WithStatusUndo(tasks: seq<Task>, id: string, status: Status, prior: Status)
    requires forall i :: 0 <= i < |tasks| && tasks[i].id == id ==> tasks[i].status == prior
    ensures WithStatus(WithStatus(tasks, id, status), id, prior) == tasks
  {
  }

  /**
   * Optimistically marking a task done never lowers the "Completed" card,
   * never raises the "Overdue" card and leaves the total as it was.
   */
  lemma {:induction false} MarkDoneStats(tasks: seq<Task>, id: string, now: int)
    ensures CountStatus(WithStatus(tasks, id, Done), Done) >= CountStatus(tasks, Done)
    ensures CountOverdue(WithStatus(tasks, id, Done), now) <= CountOverdue(tasks, now)
    ensures |WithStatus(tasks, id, Done)| == |tasks|
  {
    if tasks != [] {
      var r := WithStatus(tasks, id, Done);
      assert r[1..] == WithStatus(tasks[1..], id, Done);
      MarkDoneStats(tasks[1..], id, now);
    }
  }

  // ---------------------------------------------------------------------------
  // Recent tasks
  // ---------------------------------------------------------------------------

  /** How many tasks the "Recent Tasks" card shows at most. */
  const RecentLimit: nat := 5

  predicate SortedByDue(s: seq<Task>) {
    forall i, j :: 0 <= i < j < |s| ==> s[i].dueDate <= s[j].dueDate
  }

  /**
   * Inserts `t` before the first task due no earlier than it; with the
   * comparator `a.dueDate - b.dueDate` this keeps equal due dates in input
   * order, as JavaScript's stable sort does.
   */
  function InsertByDue(t: Task, s: seq<Task>): (r: seq<Task>)
    requires SortedByDue(s)
    ensures SortedByDue(r)
    ensures multiset(r) == multiset(s) + multiset{t}
    ensures r[0] == t || (s != [] && r[0] == s[0])
  {
    if s == [] then [t]
    else if t.dueDate <= s[0].dueDate then [t] + s
    else
      var rest := InsertByDue(t, s[1..]);
      SortedCons(s[0], rest);
      assert s == [s[0]] + s[1..];
      [s[0]] + rest
  }

  /** A task due no later than the head of a sorted list may go in front of it. */
  lemma SortedCons(x: Task, s: seq<Task>)
    requires SortedByDue(s)
    requires s == [] || x.dueDate <= s[0].dueDate
    ensures SortedByDue([x] + s)
  {
  }

  /** The copy made by `slice()` and sorted by due date. */
  function SortByDue(s: seq<Task>): (r: seq<Task>)
    ensures SortedByDue(r)
    ensures multiset(r) == multiset(s)
    ensures |r| == |s|
  {
    if s == [] then []
    else
      assert s == [s[0]] + s[1..];
      InsertByDue(s[0], SortByDue(s[1..]))
  }

  /**
   * The "Recent Tasks" card: the first five of the due-date-sorted copy. The
   * task list itself is a value here; the source sorts a copy, so the cached
   * list keeps its order.
   */
  function RecentTasks(tasks: seq<Task>): (r: seq<Task>)
    ensures |r| == if |tasks| < RecentLimit then |tasks| else RecentLimit
    ensures SortedByDue(r)
    ensures multiset(r) <= multiset(tasks)
  {
    var sorted := SortByDue(tasks);
    var n := if |sorted| < RecentLimit then |sorted| else RecentLimit;
    assert sorted == sorted[..n] + sorted[n..];
    sorted[..n]
  }

  /** A task left out of the card is due no earlier than any task on it. */
  lemma RecentAreEarliest(tasks: seq<Task>, t: Task)
    requires t in tasks
    requires t !in RecentTasks(tasks)
    ensures forall u :: u in RecentTasks(tasks) ==> u.dueDate <= t.dueDate
  {
    var sorted := SortByDue(tasks);
    var n := if |sorted| < RecentLimit then |sorted| else RecentLimit;
    assert RecentTasks(tasks) == sorted[..n];
    assert t in multiset(tasks);
    assert t in sorted;
    var k :| 0 <= k < |sorted| && sorted[k] == t;
    assert k >= n;
    forall u | u in RecentTasks(tasks)
      ensures u.dueDate <= t.dueDate
    {
      var i :| 0 <= i < n && sorted[i] == u;
    }
  }

  // ---------------------------------------------------------------------------
  // Project-name lookup
  // ---------------------------------------------------------------------------

  /** The name shown when a task's project is not known. */
  const UnknownProject: string := "Unknown Project"

  /** The dictionary the `reduce` builds: for each project in turn, `acc[id] = name`. */
  function ProjectMapOf(projects: seq<ProjectRef>): map<string, string>
  {
    if projects == [] then map[]
    else
      var last := projects[|projects| - 1];
      ProjectMapOf(projects[..|projects| - 1])[last.id := last.name]
  }

  /** The `reduce` over the project list, writing into one accumulator dictionary. */
  method BuildProjectMap(projects: seq<ProjectRef>) returns (acc: map<string, string>)
    ensures acc == ProjectMapOf(projects)
  {
    acc := map[];
    var i := 0;
    while i < |projects|
      invariant 0 <= i <= |projects|
      invariant acc == ProjectMapOf(projects[..i])
    {
      assert projects[..i + 1][..i] == projects[..i];
      acc := acc[projects[i].id := projects[i].name];
      i := i + 1;
    }
    assert projects[..i] == projects;
  }

  /** An id is a key of the map exactly when some project has it. */
  lemma {:induction false} ProjectMapKeys(projects: seq<ProjectRef>, id: string)
    ensures id in ProjectMapOf(projects) <==> exists k :: 0 <= k < |projects| && projects[k].id == id
  {
    if projects != [] {
      var init := projects[..|projects| - 1];
      ProjectMapKeys(init, id);
      if id in ProjectMapOf(init) {
        var k :| 0 <= k < |init| && init[k].id == id;
        assert projects[k].id == id;
      }
      if exists k :: 0 <= k < |projects| && projects[k].id == id {
        var k :| 0 <= k < |projects| && projects[k].id == id;
        if k < |init| {
          assert init[k].id == id;
        }
      }
    }
  }

  /** Among projects sharing an id, the last one's name wins. */
  lemma {:induction false} ProjectMapLastWins(projects: seq<ProjectRef>, k: nat)
    requires k < |projects|
    requires forall j :: k < j < |projects| ==> projects[j].id != projects[k].id
    ensures projects[k].id in ProjectMapOf(projects)
    ensures ProjectMapOf(projects)[projects[k].id] == projects[k].name
  {
    if k < |projects| - 1 {
      var init := projects[..|projects| - 1];
      ProjectMapLastWins(init, k);
    }
  }

  /** `projectMap[task.projectId] || "Unknown Project"`: a missing key and an empty name both fall back. */
  function ProjectNameFor(projectMap: map<string, string>, projectId: string): (r: string)
    ensures r != ""
    ensures r == UnknownProject || (projectId in projectMap && projectMap[projectId] == r)
    ensures projectId !in projectMap ==> r == UnknownProject
  {
    if projectId in projectMap && projectMap[projectId] != "" then projectMap[projectId] else UnknownProject
  }

  /**
   * The label of a task row: the name of the last project with the task's
   * project id, or "Unknown Project" when none has it or that name is empty.
   */
  lemma ProjectNameLookup(projects: seq<ProjectRef>, projectId: string)
    ensures (forall k :: 0 <= k < |projects| ==> projects[k].id != projectId) ==>
      ProjectNameFor(ProjectMapOf(projects), projectId) == UnknownProject
    ensures forall k :: (0 <= k < |projects| && projects[k].id == projectId &&
      (forall j :: k < j < |projects| ==> projects[j].id != projectId)) ==>
      ProjectNameFor(ProjectMapOf(projects), projectId) ==
        (if projects[k].name == "" then UnknownProject else projects[k].name)
  {
    ProjectMapKeys(projects, projectId);
    forall k | 0 <= k < |projects| && projects[k].id == projectId &&
      (forall j :: k < j < |projects| ==> projects[j].id != projectId)
      ensures ProjectNameFor(ProjectMapOf(projects), projectId) ==
        (if projects[k].name == "" then UnknownProject else projects[k].name)
    {
      ProjectMapLastWins(projects, k);
    }
  }

  // ---------------------------------------------------------------------------
  // The optimistic status-update cycle
  // ---------------------------------------------------------------------------

  /**
   * The query cache entry for the task list together with the state of the
   * status mutation. `tasks` is `None` while the cache holds nothing;
   * `tasksInvalidated` records that the entry was marked for refetch;
   * `isPending` and `variables` are the mutation's observable state.
   */
  class TaskQueryClient {
    var tasks: Option<seq<Task>>
    var tasksInvalidated: bool
    var isPending: bool
    var variables: Option<StatusUpdate>

    constructor (initial: Option<seq<Task>>)
      ensures tasks == initial && !tasksInvalidated
      ensures !isPending && variables == None
    {
      tasks := initial;
      tasksInvalidated := false;
      isPending := false;
      variables := None;
    }

    /** A row's checkbox is disabled while a mutation of that very task is pending. */
    predicate IsUpdating(taskId: string)
      reads this
    {
      isPending && variables.Some? && variables.value.id == taskId
    }

    /** onMutate: snapshot the list, then write the new status into the cache. */
    method OnMutate(update: StatusUpdate) returns (previousTasks: Option<seq<Task>>)
      modifies this`tasks
      ensures previousTasks == old(tasks)
      ensures tasks == OptimisticWrite(old(tasks), update.id, update.status)
    {
      previousTasks := tasks;
      tasks := OptimisticWrite(tasks, update.id, update.status);
    }

    /** onError: a snapshot that exists (an array, even an empty one, is truthy) replaces the whole list. */
    method OnError(previousTasks: Option<seq<Task>>)
      modifies this`tasks
      ensures previousTasks.Some? ==> tasks == previousTasks
      ensures previousTasks.None? ==> tasks == old(tasks)
    {
      if previousTasks.Some? {
        tasks := previousTasks;
      }
    }

    /** onSettled: whatever the outcome, the task list is marked for refetch. */
    method OnSettled()
      modifies this`tasksInvalidated
      ensures tasksInvalidated
    {
      tasksInvalidated := true;
    }

    /**
     * `mutate(update)` up to the network call: the mutation becomes pending
     * with these variables, and onMutate runs. The returned context is the
     * snapshot handed to onError later.
     */
    method Begin(update: StatusUpdate) returns (context: Option<seq<Task>>)
      modifies this
      ensures isPending && variables == Some(update)
      ensures forall taskId :: IsUpdating(taskId) <==> taskId == update.id
      ensures context == old(tasks)
      ensures tasks == OptimisticWrite(old(tasks), update.id, update.status)
      ensures tasksInvalidated == old(tasksInvalidated)
    {
      variables := Some(update);
      isPending := true;
      context := OnMutate(update);
    }

    /**
     * The network call's outcome arrives: on failure onError runs with the
     * mutation's own context; in every case onSettled runs and the mutation
     * stops being pending.
     */
    method Settle(context: Option<seq<Task>>, succeeded: bool)
      modifies this
      ensures !isPending && variables == old(variables)
      ensures forall taskId :: !IsUpdating(taskId)
      ensures tasksInvalidated
      ensures tasks == if !succeeded && context.Some? then context else old(tasks)
    {
      if !succeeded {
        OnError(context);
      }
      OnSettled();
      isPending := false;
    }

    /**
     * A checkbox click run to the end: the requested status follows the toggle
     * rule; on success the cache keeps the optimistic list until the refetch,
     * on failure it is exactly the list before the click; either way it is
     * marked for refetch.
     */
    method HandleToggleTask(taskId: string, currentStatus: Status, succeeded: bool)
      modifies this
      ensures variables == Some(StatusUpdate(taskId, ToggleTarget(currentStatus)))
      ensures !isPending && tasksInvalidated
      ensures succeeded ==> tasks == OptimisticWrite(old(tasks), taskId, ToggleTarget(currentStatus))
      ensures !succeeded ==> tasks == old(tasks)
    {
      var context := Begin(StatusUpdate(taskId, ToggleTarget(currentStatus)));
      Settle(context, succeeded);
    }
  }

  /**
   * Two tasks, "t1" to do and "t2" done; "t1" is ticked and the update fails.
   * The list ends as it began.
   */
  method FailedToggleScenario() returns (final: Option<seq<Task>>, invalidated: bool)
    ensures final == Some([
      Task("t1", "Write", "", "p1", Todo, Low, 0, []),
      Task("t2", "Review", "", "p1", Done, Low, 0, [])])
    ensures invalidated
  {
    var t1 := Task("t1", "Write", "", "p1", Todo, Low, 0, []);
    var t2 := Task("t2", "Review", "", "p1", Done, Low, 0, []);
    var client := new TaskQueryClient(Some([t1, t2]));
    client.HandleToggleTask("t1", t1.status, false);
    final, invalidated := client.tasks, client.tasksInvalidated;
  }

  /**
   * Two overlapping mutations on different tasks: "t1" is ticked, then "t2" is
   * unticked before the first answer arrives, and the first one fails. The
   * whole-list snapshot taken for "t1" is restored, which also discards the
   * optimistic change to "t2" that is still in flight.
   */
  method OverlappingRollbackScenario() returns (final: Option<seq<Task>>)
    ensures final == Some([
      Task("t1", "Write", "", "p1", Todo, Low, 0, []),
      Task("t2", "Review", "", "p1", Done, Low, 0, [])])
  {
    var t1 := Task("t1", "Write", "", "p1", Todo, Low, 0, []);
    var t2 := Task("t2", "Review", "", "p1", Done, Low, 0, []);
    var client := new TaskQueryClient(Some([t1, t2]));
    var first := client.Begin(StatusUpdate("t1", ToggleTarget(t1.status)));
    var second := client.Begin(StatusUpdate("t2", ToggleTarget(t2.status)));
    assert client.tasks.value[1].status == Todo;
    client.Settle(first, false);
    final := client.tasks;
  }
}
