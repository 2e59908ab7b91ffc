/** The tasks page: its filter pipeline, its priority badge, and the local
    state that `fetchTasks`, `toggleTask` and `addTask` update. */
module TasksPage {
  import opened Wrappers
  import opened Text
  import opened Sequences

  /** One row of the `tasks` table as the page holds it; `createdAt` in milliseconds. */
  datatype Task = Task(id: string, title: string, completed: bool, priority: Option<string>, createdAt: int)

  /** The search box: case-insensitive substring of the title. */
  predicate SearchMatches(t: Task, query: string) {
    MatchesSearch(t.title, query)
  }

  /** The status filter: "all" keeps both kinds, "completed" keeps completed
      tasks, any other value keeps the pending ones. */
  predicate StatusMatches(t: Task, statusFilter: string) {
    statusFilter == "all" || (statusFilter == "completed" && t.completed)
    || (statusFilter != "completed" && !t.completed)
  }

  /** The priority filter: "all" keeps every task, any other value only the
      tasks whose priority is exactly that value (never a task without one). */
  predicate PriorityMatches(t: Task, priorityFilter: string) {
    priorityFilter == "all" || t.priority == Some(priorityFilter)
  }

  /** The single condition under which a task is shown. */
  predicate Shown(t: Task, query: string, statusFilter: string, priorityFilter: string) {
    SearchMatches(t, query) && StatusMatches(t, statusFilter) && PriorityMatches(t, priorityFilter)
  }

  /** The pipeline of the page's filter effect: search, then status unless
      "all", then priority unless "all". */
  function FilterTasks(tasks: seq<Task>, query: string, statusFilter: string, priorityFilter: string): seq<Task> {
    var searched := Filter(tasks, (t: Task) => MatchesSearch(t.title, query));
    var byStatus :=
      if statusFilter != "all"
      then Filter(searched, (t: Task) => if statusFilter == "completed" then t.completed else !t.completed)
      else searched;
    if priorityFilter != "all" then Filter(byStatus, (t: Task) => t.priority == Some(priorityFilter)) else byStatus
  }

  /** The three-stage pipeline is one filter by `Shown`. */
  lemma FilterTasksIsOnePass(tasks: seq<Task>, query: string, statusFilter: string, priorityFilter: string)
    ensures FilterTasks(tasks, query, statusFilter, priorityFilter)
         == Filter(tasks, (t: Task) => Shown(t, query, statusFilter, priorityFilter))
  {
    var search := (t: Task) => MatchesSearch(t.title, query);
    var status := (t: Task) => StatusMatches(t, statusFilter);
    var priority := (t: Task) => PriorityMatches(t, priorityFilter);
    var searchStatus := (t: Task) => search(t) && status(t);
    var all := (t: Task) => Shown(t, query, statusFilter, priorityFilter);
    var searched := Filter(tasks, search);
    var byStatus :=
      if statusFilter != "all"
      then Filter(searched, (t: Task) => if statusFilter == "completed" then t.completed else !t.completed)
      else searched;
    if statusFilter != "all" {
      FilterCongruent(searched, (t: Task) => if statusFilter == "completed" then t.completed else !t.completed, status);
    } else {
      FilterKeepsAll(searched, status);
    }
    FilterFilter(tasks, search, status, searchStatus);
    assert byStatus == Filter(tasks, searchStatus);
    if priorityFilter != "all" {
      FilterCongruent(byStatus, (t: Task) => t.priority == Some(priorityFilter), priority);
    } else {
      FilterKeepsAll(byStatus, priority);
    }
    FilterFilter(tasks, searchStatus, priority, all);
  }

  /** The shown list keeps the order of `tasks`, and holds exactly the tasks
      that pass the search, the status filter and the priority filter. */
  lemma FilterTasksCorrect(tasks: seq<Task>, query: string, statusFilter: string, priorityFilter: string)
    ensures var r := FilterTasks(tasks, query, statusFilter, priorityFilter);
      && IsSubsequence(r, tasks)
      && (forall k :: 0 <= k < |r| ==> Shown(r[k], query, statusFilter, priorityFilter))
      && (forall k :: 0 <= k < |tasks| && Shown(tasks[k], query, statusFilter, priorityFilter) ==> tasks[k] in r)
  {
    FilterTasksIsOnePass(tasks, query, statusFilter, priorityFilter);
    FilterIsSubsequence(tasks, (t: Task) => Shown(t, query, statusFilter, priorityFilter));
  }

  /** With an empty search and both filters on "all", every task is shown, in order. */
  lemma NoFilterShowsAll(tasks: seq<Task>)
    ensures FilterTasks(tasks, "", "all", "all") == tasks
  {
    forall k | 0 <= k < |tasks| ensures Shown(tasks[k], "", "all", "all") {
      ContainsEmpty(Lower(tasks[k].title));
    }
    FilterTasksIsOnePass(tasks, "", "all", "all");
    FilterKeepsAll(tasks, (t: Task) => Shown(t, "", "all", "all"));
  }

  /** The variants of the priority badge. */
  datatype BadgeVariant = Destructive | Default | Secondary | Outline

  /** `getPriorityColor`: the lower-cased priority picks the variant; no priority,
      or any other text, gives the outline badge. */
  function PriorityColor(priority: Option<string>): (v: BadgeVariant)
    ensures v == Destructive <==> priority.Some? && Lower(priority.value) == "high"
    ensures v == Default <==> priority.Some? && Lower(priority.value) == "medium"
    ensures v == Secondary <==> priority.Some? && Lower(priority.value) == "low"
  {
    if priority.None? then Outline
    else
      var p := Lower(priority.value);
      if p == "high" then Destructive
      else if p == "medium" then Default
      else if p == "low" then Secondary
      else Outline
  }

  /** The badge ignores letter case, and each of the three priorities the page
      offers gets its own non-outline badge. */
  lemma PriorityColorCaseInsensitive(p: string)
    ensures PriorityColor(Some(p)) == PriorityColor(Some(Lower(p)))
    ensures PriorityColor(Some("High")) == Destructive && PriorityColor(Some("MEDIUM")) == Default
    ensures PriorityColor(Some("low")) == Secondary && PriorityColor(None) == Outline
  {
    LowerIdempotent(p);
  }

  /** The local update after a successful `completed` update: every task with
      that id gets the new value, every other task is left alone. */
  function SetCompleted(tasks: seq<Task>, id: string, value: bool): (r: seq<Task>)
    ensures |r| == |tasks|
    ensures forall k :: 0 <= k < |r| ==>
      (r[k].id == tasks[k].id && r[k].title == tasks[k].title
       && r[k].priority == tasks[k].priority && r[k].createdAt == tasks[k].createdAt)
    ensures forall k :: 0 <= k < |r| ==> r[k].completed == if tasks[k].id == id then value else tasks[k].completed
  {
    seq(|tasks|, k requires 0 <= k < |tasks| => if tasks[k].id == id then tasks[k].(completed := value) else tasks[k])
  }

  predicate UniqueIds(tasks: seq<Task>) {
    forall i, j :: 0 <= i < j < |tasks| ==> tasks[i].id != tasks[j].id
  }

  /** Toggling a task from the value it shows, and then toggling it back, restores the list. */
  lemma ToggleTwiceRestores(tasks: seq<Task>, i: nat)
    requires i < |tasks| && UniqueIds(tasks)
    ensures var once := SetCompleted(tasks, tasks[i].id, !tasks[i].completed);
      SetCompleted(once, tasks[i].id, tasks[i].completed) == tasks
  {
    var once := SetCompleted(tasks, tasks[i].id, !tasks[i].completed);
    var twice := SetCompleted(once, tasks[i].id, tasks[i].completed);
    forall k | 0 <= k < |tasks| ensures twice[k] == tasks[k] {
      if k != i {
        assert tasks[k].id != tasks[i].id;
      }
    }
  }

  /** The toggle changes only the tasks with the given id, and leaves the list of
      ids (hence the order) as it was. */
  lemma ToggleTouchesOnlyThatId(tasks: seq<Task>, id: string, value: bool)
    ensures var r := SetCompleted(tasks, id, value);
      && (forall k :: 0 <= k < |tasks| && tasks[k].id != id ==> r[k] == tasks[k])
      && (forall k :: 0 <= k < |tasks| && tasks[k].id == id ==> r[k] == tasks[k].(completed := value))
  {
  }

  /** The calls this page makes to the `tasks` table. */
  datatype Request =
    | SelectTasks
    | UpdateCompleted(id: string, completed: bool)
    | InsertTask(title: string, priority: string, userId: string)

  class TasksView {
    var tasks: seq<Task>
    var loading: bool
    var newTitle: string
    var newPriority: string
    var isAdding: bool
    var searchQuery: string
    var statusFilter: string
    var priorityFilter: string
    var requests: seq<Request>

    /** The `useState` initial values. */
    constructor ()
      ensures tasks == [] && loading && !isAdding && requests == []
      ensures newTitle == "" && newPriority == "medium"
      ensures searchQuery == "" && statusFilter == "all" && priorityFilter == "all"
    {
      tasks := [];
      loading := true;
      newTitle := "";
      newPriority := "medium";
      isAdding := false;
      searchQuery := "";
      statusFilter := "all";
      priorityFilter := "all";
      requests := [];
    }

    /** `filteredTasks`, which the page's effect recomputes whenever its inputs change. */
    function Visible(): seq<Task>
      reads this
    {
      FilterTasks(tasks, searchQuery, statusFilter, priorityFilter)
    }

    /** The filter menu's callback: a "status" or "priority" choice sets that filter;
        any other filter type changes nothing. */
    method ChangeFilter(filterType: string, value: string)
      modifies this
      ensures statusFilter == if filterType == "status" then value else old(statusFilter)
      ensures priorityFilter == if filterType == "priority" then value else old(priorityFilter)
      ensures tasks == old(tasks) && searchQuery == old(searchQuery) && requests == old(requests)
      ensures newTitle == old(newTitle) && newPriority == old(newPriority)
      ensures isAdding == old(isAdding) && loading == old(loading)
    {
      if filterType == "status" {
        statusFilter := value;
      }
      if filterType == "priority" {
        priorityFilter := value;
      }
    }

    /** `fetchTasks`: a successful select replaces the list (null data reads as
        empty); a failed one leaves it; either way loading ends. */
    method FetchTasks(reply: Fetch<Task>)
      modifies this
      ensures requests == old(requests) + [SelectTasks]
      ensures tasks == if reply.Loaded? then reply.data.GetOr([]) else old(tasks)
      ensures !loading
      ensures newTitle == old(newTitle) && newPriority == old(newPriority) && isAdding == old(isAdding)
      ensures searchQuery == old(searchQuery) && statusFilter == old(statusFilter)
      ensures priorityFilter == old(priorityFilter)
    {
      requests := requests + [SelectTasks];
      if reply.Loaded? {
        tasks := reply.data.GetOr([]);
      }
      loading := false;
    }

    /** `toggleTask(taskId, completed)`: sends `completed: !completed` for that id and,
        when the update succeeds, applies it to the local list. */
    method ToggleTask(taskId: string, completed: bool, updateOk: bool)
      modifies this
      ensures requests == old(requests) + [UpdateCompleted(taskId, !completed)]
      ensures tasks == if updateOk then SetCompleted(old(tasks), taskId, !completed) else old(tasks)
      ensures loading == old(loading) && newTitle == old(newTitle) && newPriority == old(newPriority)
      ensures isAdding == old(isAdding) && searchQuery == old(searchQuery)
      ensures statusFilter == old(statusFilter) && priorityFilter == old(priorityFilter)
    {
      requests := requests + [UpdateCompleted(taskId, !completed)];
      if updateOk {
        tasks := SetCompleted(tasks, taskId, !completed);
      }
    }

    /** `addTask`: a blank title, or no signed-in user, sends nothing. Otherwise the
        form's title and priority are inserted for the user; on success the form
        is reset to an empty title with priority "medium" and closed, and the list
        is fetched again. */
    method AddTask(user: Option<string>, insertOk: bool, refetch: Fetch<Task>)
      modifies this
      ensures IsBlank(old(newTitle)) || user.None? ==>
        requests == old(requests) && tasks == old(tasks) && newTitle == old(newTitle)
        && newPriority == old(newPriority) && isAdding == old(isAdding) && loading == old(loading)
      ensures !IsBlank(old(newTitle)) && user.Some? && !insertOk ==>
        requests == old(requests) + [InsertTask(old(newTitle), old(newPriority), user.value)]
        && tasks == old(tasks) && newTitle == old(newTitle) && newPriority == old(newPriority)
        && isAdding == old(isAdding) && loading == old(loading)
      ensures !IsBlank(old(newTitle)) && user.Some? && insertOk ==>
        requests == old(requests) + [InsertTask(old(newTitle), old(newPriority), user.value), SelectTasks]
        && newTitle == "" && newPriority == "medium" && !isAdding && !loading
        && tasks == (if refetch.Loaded? then refetch.data.GetOr([]) else old(tasks))
      ensures searchQuery == old(searchQuery) && statusFilter == old(statusFilter)
      ensures priorityFilter == old(priorityFilter)
    {
      if IsBlank(newTitle) {
        return;
      }
      if user.None? {
        return;
      }
      requests := requests + [InsertTask(newTitle, newPriority, user.value)];
      if insertOk {
        newTitle := "";
        newPriority := "medium";
        isAdding := false;
        FetchTasks(refetch);
      }
    }
  }
}
