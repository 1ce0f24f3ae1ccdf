/**
 * The task controller (backend/controllers/taskController.js) over an abstract document
 * store: a map from task id to task document. Every handler runs after the token
 * middleware has attached the caller's id, so the caller is always authenticated here.
 */
module TaskController {
  import opened Common
  import opened TaskRecord
  import opened TaskQuery

  /** The fields a create or update request body may carry; `user` is ignored by both handlers. */
  datatype TaskBody = TaskBody(
    title: Option<string>,
    description: Option<string>,
    status: Option<string>,
    priority: Option<string>,
    dueDate: Option<Time>,
    user: Option<UserId>)

  /** The outcome of a handler that addresses one task. */
  datatype Reply =
    | Ok(task: Task)        // 200 with the task
    | Created(task: Task)   // 201 with the new task
    | Deleted               // 200 without a task
    | NotFound              // 404 'Task not found'
    | Forbidden             // 403 'Not authorized to ... this task'
    | BadRequest            // 400 'Please provide a task title'

  /** The body of a `getTasks` response. */
  datatype Listing = Listing(success: bool, count: nat, tasks: seq<Task>)

  /** The HTTP status a reply is sent with. */
  function HttpStatus(r: Reply): (code: int)
    ensures r.Created? <==> code == 201
    ensures r.NotFound? <==> code == 404
    ensures r.Forbidden? <==> code == 403
    ensures r.BadRequest? <==> code == 400
    ensures r.Ok? || r.Deleted? <==> code == 200
  {
    match r
    case Ok(_) => 200
    case Created(_) => 201
    case Deleted => 200
    case NotFound => 404
    case Forbidden => 403
    case BadRequest => 400
  }

  /** What the ownership guard decides about a direct access by id. */
  datatype Access = Missing | NotOwner | Allowed

  /** The ownership guard: existence is checked first, ownership second. */
  function Guard(tasks: map<TaskId, Task>, caller: UserId, id: TaskId): (access: Access)
    ensures access == Missing <==> id !in tasks
    ensures access == NotOwner <==> id in tasks && tasks[id].owner != caller
    ensures access == Allowed <==> id in tasks && tasks[id].owner == caller
  {
    if id !in tasks then Missing
    else if tasks[id].owner != caller then NotOwner
    else Allowed
  }

  /** The store's documents in natural (id) order. */
  function InIdOrder(m: map<TaskId, Task>, n: nat): (r: seq<Task>)
    requires forall id :: id in m ==> m[id].id == id
    ensures IdsIncreasing(r)
    ensures forall t :: t in r <==> t.id < n && t.id in m && m[t.id] == t
    decreases n
  {
    if n == 0 then []
    else
      var prefix := InIdOrder(m, n - 1);
      var last := if n - 1 in m then [m[n - 1]] else [];
      assert forall i :: 0 <= i < |prefix| ==> prefix[i] in prefix;
      prefix + last
  }

  /** The document `createTask` stores: body fields, the caller as owner, the next id, now as creation time. */
  function NewTask(id: TaskId, caller: UserId, body: TaskBody, now: Time): (t: Task)
    requires body.title.Some?
    ensures t.id == id && t.owner == caller && t.createdAt == now
    ensures t.title == body.title.value && t.description == body.description
    ensures t.status == body.status && t.priority == body.priority && t.dueDate == body.dueDate
  {
    Task(id, caller, body.title.value, body.description, body.status, body.priority, body.dueDate, now)
  }

  /** The document `findByIdAndUpdate` leaves: each editable field the body carries is replaced. */
  function Patched(t: Task, body: TaskBody): (r: Task)
    ensures r.(title := t.title, description := t.description, status := t.status,
               priority := t.priority, dueDate := t.dueDate) == t
    ensures r.title == (if body.title.Some? then body.title.value else t.title)
    ensures r.description == (if body.description.Some? then body.description else t.description)
    ensures r.status == (if body.status.Some? then body.status else t.status)
    ensures r.priority == (if body.priority.Some? then body.priority else t.priority)
    ensures r.dueDate == (if body.dueDate.Some? then body.dueDate else t.dueDate)
  {
    t.(title := if body.title.Some? then body.title.value else t.title,
       description := if body.description.Some? then body.description else t.description,
       status := if body.status.Some? then body.status else t.status,
       priority := if body.priority.Some? then body.priority else t.priority,
       dueDate := if body.dueDate.Some? then body.dueDate else t.dueDate)
  }

  /** Applying the same update twice leaves what applying it once leaves. */
  lemma PatchedIdempotent(t: Task, body: TaskBody)
    ensures Patched(Patched(t, body), body) == Patched(t, body)
  {
  }

  /** A body that carries no editable field leaves the task as it is. */
  lemma PatchedEmpty(t: Task, user: Option<UserId>)
    ensures Patched(t, TaskBody(None, None, None, None, None, user)) == t
  {
  }

  /** The documents of the `tasks` collection, keyed by id. */
  class TaskStore {
    var tasks: map<TaskId, Task>
    var nextId: TaskId

    /** Each document sits under its own id, and every id handed out so far is below `nextId`. */
    ghost predicate Valid()
      reads this
    {
      forall id :: id in tasks ==> id < nextId && tasks[id].id == id
    }

    constructor ()
      ensures Valid() && tasks == map[] && nextId == 0
    {
      tasks := map[];
      nextId := 0;
    }

    /** The store's documents in natural order. */
    function Documents(): (docs: seq<Task>)
      reads this
      requires Valid()
      ensures IdsIncreasing(docs)
      ensures forall t :: t in docs <==> t.id in tasks && tasks[t.id] == t
    {
      InIdOrder(tasks, nextId)
    }

    /**
     * `getTasks`: exactly the caller's tasks that match every truthy filter, each once,
     * in the order the sort-key table picks for `sort`.
     */
    function List(caller: UserId, status: Option<string>, priority: Option<string>, sort: Option<string>): (r: seq<Task>)
      reads this
      requires Valid()
      ensures forall t :: t in r ==> t.id in tasks && tasks[t.id] == t
      ensures forall t :: t in r ==> t.owner == caller
      ensures forall t :: t in r && Truthy(status) ==> t.status == status
      ensures forall t :: t in r && Truthy(priority) ==> t.priority == priority
      ensures forall id :: id in tasks && tasks[id].owner == caller
                && (Truthy(status) ==> tasks[id].status == status)
                && (Truthy(priority) ==> tasks[id].priority == priority)
                ==> tasks[id] in r
      ensures IdsDistinct(r)
      ensures Sorted(ResolveSort(sort), r)
    {
      FindSorted(BuildQuery(caller, status, priority), ResolveSort(sort), Documents())
    }

    /** The `getTasks` response body: always a success, with `count` the number of tasks listed. */
    function GetTasks(caller: UserId, status: Option<string>, priority: Option<string>, sort: Option<string>): (reply: Listing)
      reads this
      requires Valid()
      ensures reply.success && reply.count == |reply.tasks|
      ensures reply.tasks == List(caller, status, priority, sort)
    {
      var found := List(caller, status, priority, sort);
      Listing(true, |found|, found)
    }

    /** `getTask`: not found before not yours; the task itself only to its owner. */
    method Get(caller: UserId, id: TaskId) returns (r: Reply)
      requires Valid()
      ensures id !in tasks ==> r == NotFound
      ensures id in tasks && tasks[id].owner != caller ==> r == Forbidden
      ensures id in tasks && tasks[id].owner == caller ==> r == Ok(tasks[id])
    {
      match Guard(tasks, caller, id)
      case Missing => r := NotFound;
      case NotOwner => r := Forbidden;
      case Allowed => r := Ok(tasks[id]);
    }

    /** `createTask`: a falsy title is refused and nothing is stored; otherwise the caller owns the new task. */
    method Create(caller: UserId, body: TaskBody, now: Time) returns (r: Reply)
      requires Valid()
      modifies this
      ensures Valid()
      ensures !Truthy(body.title) ==> r == BadRequest && tasks == old(tasks) && nextId == old(nextId)
      ensures Truthy(body.title) ==>
                && r == Created(NewTask(old(nextId), caller, body, now))
                && r.task.owner == caller
                && old(nextId) !in old(tasks)
                && tasks == old(tasks)[old(nextId) := r.task]
                && nextId == old(nextId) + 1
    {
      if !Truthy(body.title) {
        return BadRequest;
      }
      var t := NewTask(nextId, caller, body, now);
      tasks := tasks[nextId := t];
      nextId := nextId + 1;
      r := Created(t);
    }

    /** `updateTask`: the guard first; then only the five editable fields the body carries change. */
    method Update(caller: UserId, id: TaskId, body: TaskBody) returns (r: Reply)
      requires Valid()
      modifies this
      ensures Valid() && nextId == old(nextId)
      ensures id !in old(tasks) ==> r == NotFound && tasks == old(tasks)
      ensures id in old(tasks) && old(tasks)[id].owner != caller ==> r == Forbidden && tasks == old(tasks)
      ensures id in old(tasks) && old(tasks)[id].owner == caller ==>
                && r == Ok(Patched(old(tasks)[id], body))
                && r.task.owner == caller
                && tasks == old(tasks)[id := r.task]
    {
      match Guard(tasks, caller, id)
      case Missing => r := NotFound;
      case NotOwner => r := Forbidden;
      case Allowed =>
        var t := Patched(tasks[id], body);
        tasks := tasks[id := t];
        r := Ok(t);
    }

    /** `deleteTask`: the guard first; then exactly that id is gone. */
    method Delete(caller: UserId, id: TaskId) returns (r: Reply)
      requires Valid()
      modifies this
      ensures Valid() && nextId == old(nextId)
      ensures id !in old(tasks) ==> r == NotFound && tasks == old(tasks)
      ensures id in old(tasks) && old(tasks)[id].owner != caller ==> r == Forbidden && tasks == old(tasks)
      ensures id in old(tasks) && old(tasks)[id].owner == caller ==>
                r == Deleted && tasks == old(tasks) - {id}
    {
      match Guard(tasks, caller, id)
      case Missing => r := NotFound;
      case NotOwner => r := Forbidden;
      case Allowed =>
        tasks := tasks - {id};
        r := Deleted;
    }
  }

  /**
   * In any store, a task one user creates never shows up in another user's listing,
   * whatever the filters, and a direct access to it by the other user is forbidden, not missing.
   */
  method CrossUserIsolation(store: TaskStore, a: UserId, b: UserId, body: TaskBody, now: Time,
                            status: Option<string>, priority: Option<string>, sort: Option<string>)
    returns (created: Reply, listed: seq<Task>, got: Reply)
    requires store.Valid() && a != b && Truthy(body.title)
    modifies store
    ensures store.Valid()
    ensures created.Created? && created.task.owner == a
    ensures created.task.id in store.tasks && store.tasks[created.task.id] == created.task
    ensures created.task !in listed
    ensures got == Forbidden
  {
    created := store.Create(a, body, now);
    listed := store.List(b, status, priority, sort);
    got := store.Get(b, created.task.id);
  }

  /**
   * Create a task titled "T", mark it completed, delete it: each step succeeds, and a
   * later read of the same id finds nothing.
   */
  method TaskLifecycle(caller: UserId, now: Time)
    returns (created: Reply, updated: Reply, deleted: Reply, got: Reply)
    ensures created.Created? && created.task.title == "T" && created.task.owner == caller
    ensures updated.Ok? && updated.task.status == Some("completed") && updated.task.title == "T"
    ensures deleted == Deleted
    ensures got == NotFound
  {
    var store := new TaskStore();
    created := store.Create(caller, TaskBody(Some("T"), None, None, None, None, None), now);
    var id := created.task.id;
    updated := store.Update(caller, id, TaskBody(None, None, Some("completed"), None, None, None));
    deleted := store.Delete(caller, id);
    got := store.Get(caller, id);
  }

  /**
   * `sort=priority` orders the stored strings, not a rank: in such a listing every
   * "medium" task comes before every "low" one, and every "low" one before every "high" one.
   */
  lemma PriorityOrderIsLexicographic(r: seq<Task>, i: nat, j: nat)
    requires Sorted(PriorityDesc, r) && i < |r| && j < |r|
    ensures r[i].priority == Some("medium") && r[j].priority == Some("low") ==> i < j
    ensures r[i].priority == Some("low") && r[j].priority == Some("high") ==> i < j
    ensures r[i].priority == Some("medium") && r[j].priority == Some("high") ==> i < j
  {
    if j < i {
      assert Before(PriorityDesc, r[j], r[i]);
    }
  }

  /** With `sort=dueDate`, tasks that have no due date come before every task that has one. */
  lemma NoDueDateFirst(r: seq<Task>, i: nat, j: nat)
    requires Sorted(DueDateAsc, r) && i < |r| && j < |r|
    requires r[i].dueDate.None? && r[j].dueDate.Some?
    ensures i < j
  {
  }
}
