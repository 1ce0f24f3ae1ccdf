/**
 * The task document as the controller stores it and as the API hands it to the browser.
 * The Mongoose schema itself (backend/models/Task.js) is not part of this model, so the
 * fields it may leave unset are optional here and no schema default is applied.
 */
module TaskRecord {
  import opened Common

  /** The authenticated user's id (`req.user.id`) and a task's `user` reference. */
  type UserId = string

  /** A task's `_id`. Ids are handed out in increasing order, which is also the store's natural order. */
  type TaskId = nat

  /** Times (`createdAt`, `dueDate`) are instants counted in milliseconds. */
  type Time = int

  datatype Task = Task(
    id: TaskId,
    owner: UserId,
    title: string,
    description: Option<string>,
    status: Option<string>,
    priority: Option<string>,
    dueDate: Option<Time>,
    createdAt: Time)

  /** No two tasks of `s` share an id. */
  ghost predicate IdsDistinct(s: seq<Task>)
  {
    forall i, j :: 0 <= i < j < |s| ==> s[i].id != s[j].id
  }

  /** The ids of `s` strictly increase: `s` is in the store's natural order and holds each task once. */
  ghost predicate IdsIncreasing(s: seq<Task>)
  {
    forall i, j :: 0 <= i < j < |s| ==> s[i].id < s[j].id
  }
}
