/**
 * The persisted Task record (models/task.go). The `deleted` flag stands for
 * gorm's `DeletedAt` soft-delete marker: a row with it set is kept in the
 * table and hidden from every ordinary read. `TaskJson` is what the JSON
 * encoder writes for a task; it has no deletion field, because `DeletedAt`
 * is tagged `json:"-"`.
 */
module Models {
  import opened Wrappers

  /** An instant, written as the arguments of `time.Date` in UTC. The model only stores and returns it. */
  datatype Time = Date(year: int, month: int, day: int, hour: int, minute: int, second: int, nanosecond: int)

  /**
   * `id` is the primary key, `0` until the store assigns one; `title` is only
   * NOT NULL, so the empty string is a valid title here; `status` defaults to
   * false; `dueDate` is nullable.
   */
  datatype Task = Task(
    id: nat,
    title: string,
    description: string,
    status: bool,
    dueDate: Option<Time>,
    deleted: bool)

  /** The fields of a task that its JSON encoding carries. */
  datatype TaskJson = TaskJson(
    id: nat,
    title: string,
    description: string,
    status: bool,
    dueDate: Option<Time>)

  function ToJson(t: Task): TaskJson {
    TaskJson(t.id, t.title, t.description, t.status, t.dueDate)
  }

  function ToJsonList(ts: seq<Task>): (js: seq<TaskJson>)
    ensures |js| == |ts|
    ensures forall i :: 0 <= i < |ts| ==> js[i] == ToJson(ts[i])
  {
    seq(|ts|, i requires 0 <= i < |ts| => ToJson(ts[i]))
  }

  /**
   * The JSON of a task carries every field but the deletion marker: two
   * tasks encode alike exactly when they differ at most in that marker.
   */
  lemma JsonOmitsDeletion(a: Task, b: Task)
    ensures ToJson(a) == ToJson(b) <==> a.(deleted := b.deleted) == b
  {
  }

  /** A task as a handler builds it before saving: no id yet, not deleted. */
  function Unsaved(title: string, description: string, status: bool, dueDate: Option<Time>): Task {
    Task(0, title, description, status, dueDate, false)
  }
}
