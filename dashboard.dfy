/**
 * The dashboard page (frontend/src/pages/Dashboard.jsx): the query parameters it sends,
 * the local list updates after a delete or a status change, and the statistics cards.
 */
module Dashboard {
  import opened Common
  import opened TaskRecord
  import TaskQuery
  import TaskController

  /** The three filter selects; `sort` starts as 'createdAt'. */
  datatype Filters = Filters(status: string, priority: string, sort: string)

  datatype FilterKey = StatusFilter | PriorityFilter | SortFilter

  /** The four statistics cards. */
  datatype Stats = Stats(total: nat, completed: nat, inProgress: nat, pending: nat)

  const InitialFilters := Filters("", "", "createdAt")

  /** The `params` object of `fetchTasks`: a key only for a non-empty filter value. */
  function BuildParams(f: Filters): (p: map<string, string>)
    ensures "status" in p <==> f.status != ""
    ensures "priority" in p <==> f.priority != ""
    ensures "sort" in p <==> f.sort != ""
    ensures "status" in p ==> p["status"] == f.status
    ensures "priority" in p ==> p["priority"] == f.priority
    ensures "sort" in p ==> p["sort"] == f.sort
    ensures forall k :: k in p ==> k == "status" || k == "priority" || k == "sort"
  {
    var withStatus := if f.status != "" then map["status" := f.status] else map[];
    var withPriority := if f.priority != "" then withStatus["priority" := f.priority] else withStatus;
    if f.sort != "" then withPriority["sort" := f.sort] else withPriority
  }

  /** How the server reads one query parameter: absent when the key is missing. */
  function Param(p: map<string, string>, name: string): Option<string>
  {
    if name in p then Some(p[name]) else None
  }

  /**
   * What the server makes of the dashboard's parameters: it filters on exactly the
   * non-empty selects, and the default select 'createdAt' reaches the newest-first entry.
   */
  lemma ParamsDriveQuery(caller: UserId, f: Filters)
    ensures TaskQuery.BuildQuery(caller, Param(BuildParams(f), "status"), Param(BuildParams(f), "priority"))
         == TaskQuery.Query(caller,
                            if f.status != "" then Some(f.status) else None,
                            if f.priority != "" then Some(f.priority) else None)
    ensures TaskQuery.ResolveSort(Param(BuildParams(f), "sort")) == TaskQuery.ResolveSort(Some(f.sort))
    ensures TaskQuery.ResolveSort(Param(BuildParams(InitialFilters), "sort")) == TaskQuery.NewestFirst
  {
  }

  /** `prev.filter(task => task._id !== taskId)`. */
  function RemoveTask(s: seq<Task>, id: TaskId): (r: seq<Task>)
    ensures |r| <= |s|
    ensures forall t :: t in r <==> t in s && t.id != id
  {
    if s == [] then []
    else
      assert forall t :: t in s <==> t == s[0] || t in s[1..];
      (if s[0].id != id then [s[0]] else []) + RemoveTask(s[1..], id)
  }

  /** Removing distributes over concatenation: the tasks that stay keep their relative order. */
  lemma {:induction false} RemoveTaskAppend(a: seq<Task>, b: seq<Task>, id: TaskId)
    ensures RemoveTask(a + b, id) == RemoveTask(a, id) + RemoveTask(b, id)
  {
    if a == [] {
      assert a + b == b;
    } else {
      assert (a + b)[0] == a[0] && (a + b)[1..] == a[1..] + b;
      RemoveTaskAppend(a[1..], b, id);
    }
  }

  /** A list without that id is left as it is, so removing twice is removing once. */
  lemma {:induction false} RemoveTaskAbsent(s: seq<Task>, id: TaskId)
    requires forall t :: t in s ==> t.id != id
    ensures RemoveTask(s, id) == s
  {
    if s != [] {
      RemoveTaskAbsent(s[1..], id);
    }
  }

  lemma RemoveTaskIdempotent(s: seq<Task>, id: TaskId)
    ensures RemoveTask(RemoveTask(s, id), id) == RemoveTask(s, id)
  {
    RemoveTaskAbsent(RemoveTask(s, id), id);
  }

  /** `prev.map(task => task._id === taskId ? { ...task, status: newStatus } : task)`. */
  function SetStatus(s: seq<Task>, id: TaskId, status: string): (r: seq<Task>)
    ensures |r| == |s|
    ensures forall i :: 0 <= i < |s| ==> r[i] == if s[i].id == id then s[i].(status := Some(status)) else s[i]
  {
    if s == [] then []
    else [if s[0].id == id then s[0].(status := Some(status)) else s[0]] + SetStatus(s[1..], id, status)
  }

  /** A second status change of the same task overrides the first. */
  lemma SetStatusLastWins(s: seq<Task>, id: TaskId, first: string, second: string)
    ensures SetStatus(SetStatus(s, id, first), id, second) == SetStatus(s, id, second)
  {
    var a := SetStatus(SetStatus(s, id, first), id, second);
    var b := SetStatus(s, id, second);
    assert |a| == |b|;
    forall i | 0 <= i < |a| ensures a[i] == b[i] {
    }
  }

  /** The local change agrees with the server: the update body `{ status }` patches exactly that field. */
  lemma LocalStatusMatchesServer(t: Task, status: string)
    ensures TaskController.Patched(t, StatusBody(status)) == t.(status := Some(status))
  {
  }

  /** The body `handleStatusChange` sends with the update. */
  function StatusBody(status: string): (b: TaskController.TaskBody)
    ensures b.status == Some(status)
    ensures b.title.None? && b.description.None? && b.priority.None? && b.dueDate.None? && b.user.None?
  {
    TaskController.TaskBody(None, None, Some(status), None, None, None)
  }

  /** `tasks.filter(t => t.status === status).length`. */
  function Count(s: seq<Task>, status: string): (n: nat)
    ensures n <= |s|
    ensures n == 0 <==> forall t :: t in s ==> t.status != Some(status)
  {
    if s == [] then 0
    else
      assert forall t :: t in s <==> t == s[0] || t in s[1..];
      (if s[0].status == Some(status) then 1 else 0) + Count(s[1..], status)
  }

  /** Counting splits over concatenation: the tasks of each part are counted once. */
  lemma {:induction false} CountAppend(a: seq<Task>, b: seq<Task>, status: string)
    ensures Count(a + b, status) == Count(a, status) + Count(b, status)
  {
    if a == [] {
      assert a + b == b;
    } else {
      assert (a + b)[0] == a[0] && (a + b)[1..] == a[1..] + b;
      CountAppend(a[1..], b, status);
    }
  }

  /** A single task counts once exactly when it has that status; with `CountAppend` this fixes `Count` on every list. */
  lemma CountSingle(t: Task, status: string)
    ensures Count([t], status) == if t.status == Some(status) then 1 else 0
  {
    assert [t][1..] == [];
  }

  /** The four cards: the list length and the number of tasks in each of the three statuses. */
  function ComputeStats(s: seq<Task>): (st: Stats)
    ensures st.total == |s|
    ensures st.completed == Count(s, "completed")
    ensures st.inProgress == Count(s, "in-progress")
    ensures st.pending == Count(s, "pending")
  {
    Stats(|s|, Count(s, "completed"), Count(s, "in-progress"), Count(s, "pending"))
  }

  /** The three status counts never exceed the total, and add up to it when every status is one of the three. */
  lemma {:induction false} StatsAddUp(s: seq<Task>)
    ensures ComputeStats(s).completed + ComputeStats(s).inProgress + ComputeStats(s).pending <= ComputeStats(s).total
    ensures (forall t :: t in s ==> t.status in {Some("completed"), Some("in-progress"), Some("pending")}) ==>
              ComputeStats(s).completed + ComputeStats(s).inProgress + ComputeStats(s).pending == ComputeStats(s).total
  {
    if s != [] {
      StatsAddUp(s[1..]);
      assert forall t :: t in s[1..] ==> t in s;
    }
  }

  /** Changing a status never changes the total. */
  lemma StatusChangeKeepsTotal(s: seq<Task>, id: TaskId, status: string)
    ensures ComputeStats(SetStatus(s, id, status)).total == ComputeStats(s).total
  {
  }

  /** The toast after a successful status change. */
  function StatusChangeMessage(newStatus: string): (m: string)
    ensures m == "Task completed! \U{1F389}" <==> newStatus == "completed"
    ensures m == "Task reopened" <==> newStatus != "completed"
  {
    if newStatus == "completed" then "Task completed! \U{1F389}" else "Task reopened"
  }

  /** `{ ...prev, [key]: value }` on the filters. */
  function SetFilter(f: Filters, key: FilterKey, value: string): Filters
  {
    match key
    case StatusFilter => f.(status := value)
    case PriorityFilter => f.(priority := value)
    case SortFilter => f.(sort := value)
  }

  /** The dashboard's component state. */
  class DashboardPage {
    var tasks: seq<Task>
    var loading: bool
    var toast: Option<Toast>
    var filters: Filters

    constructor ()
      ensures tasks == [] && loading && toast == None && filters == InitialFilters
    {
      tasks := [];
      loading := true;
      toast := None;
      filters := InitialFilters;
    }

    /** `fetchTasks`: sends the parameters, keeps the listing on success, toasts on failure. */
    method FetchTasks(response: Option<seq<Task>>) returns (params: map<string, string>)
      modifies this
      ensures params == BuildParams(filters) && filters == old(filters)
      ensures !loading
      ensures response.Some? ==> tasks == response.value && toast == old(toast)
      ensures response.None? ==> tasks == old(tasks) && toast == Some(Toast("Failed to load tasks", Error))
    {
      loading := true;
      params := BuildParams(filters);
      if response.Some? {
        tasks := response.value;
      } else {
        toast := Some(Toast("Failed to load tasks", Error));
      }
      loading := false;
    }

    /** `handleDelete`: nothing happens unless confirmed; the list shrinks only after the server agreed. */
    method HandleDelete(taskId: TaskId, confirmed: bool, deleteSucceeded: bool) returns (deleteSent: bool)
      modifies this
      ensures deleteSent == confirmed
      ensures filters == old(filters) && loading == old(loading)
      ensures !confirmed ==> tasks == old(tasks) && toast == old(toast)
      ensures confirmed && deleteSucceeded ==>
                tasks == RemoveTask(old(tasks), taskId) && toast == Some(Toast("Task deleted successfully", Success))
      ensures confirmed && !deleteSucceeded ==>
                tasks == old(tasks) && toast == Some(Toast("Failed to delete task", Error))
    {
      if !confirmed {
        return false;
      }
      deleteSent := true;
      if deleteSucceeded {
        tasks := RemoveTask(tasks, taskId);
        toast := Some(Toast("Task deleted successfully", Success));
      } else {
        toast := Some(Toast("Failed to delete task", Error));
      }
    }

    /** `handleStatusChange`: sends `{ status }`; on success patches that task in place and toasts. */
    method HandleStatusChange(taskId: TaskId, newStatus: string, updateSucceeded: bool)
      returns (sent: TaskController.TaskBody)
      modifies this
      ensures sent == StatusBody(newStatus)
      ensures filters == old(filters) && loading == old(loading)
      ensures updateSucceeded ==>
                tasks == SetStatus(old(tasks), taskId, newStatus)
                && toast == Some(Toast(StatusChangeMessage(newStatus), Success))
      ensures !updateSucceeded ==>
                tasks == old(tasks) && toast == Some(Toast("Failed to update task", Error))
    {
      sent := StatusBody(newStatus);
      if updateSucceeded {
        tasks := SetStatus(tasks, taskId, newStatus);
        toast := Some(Toast(StatusChangeMessage(newStatus), Success));
      } else {
        toast := Some(Toast("Failed to update task", Error));
      }
    }

    /** `handleFilterChange`: one select changes, the others keep their value. */
    method HandleFilterChange(key: FilterKey, value: string)
      modifies this
      ensures filters == SetFilter(old(filters), key, value)
      ensures tasks == old(tasks) && toast == old(toast) && loading == old(loading)
    {
      filters := SetFilter(filters, key, value);
    }

    /** The statistics cards of the current list. */
    function CurrentStats(): (st: Stats)
      reads this
      ensures st == ComputeStats(tasks)
      ensures st.total == |tasks|
      ensures st.completed + st.inProgress + st.pending <= st.total
    {
      StatsAddUp(tasks);
      ComputeStats(tasks)
    }
  }
}
