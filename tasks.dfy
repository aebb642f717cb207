/** Values shared by the task list store: a task, the draft the add-task
    form submits, and the payload the add-task request yields. */
module Tasks {

  /** A possibly absent value; `None` plays the role of `null`. */
  datatype Option<T> = None | Some(value: T)

  datatype Priority = High | Medium | Low

  /** A task as the store holds it. `id` is assigned by the document store,
      never by the client. */
  datatype Task = Task(
    id: string,
    title: string,
    description: string,
    priority: Priority,
    date: string,
    deadline: string,
    isCompleted: bool)

  /** A task before it is stored: no id and no completion flag. */
  datatype TaskDraft = TaskDraft(
    title: string,
    description: string,
    priority: Priority,
    date: string,
    deadline: string)

  /** The payload of a fulfilled add: the draft's fields under the id the
      document store assigned, not completed. */
  function Created(id: string, draft: TaskDraft): (t: Task)
  {
    Task(id, draft.title, draft.description, draft.priority, draft.date, draft.deadline, false)
  }

  /** The draft a task was made from (the task minus its id and flag). */
  function DraftOf(t: Task): (d: TaskDraft)
  {
    TaskDraft(t.title, t.description, t.priority, t.date, t.deadline)
  }

  /** A created task is not completed, carries the assigned id, and gives
      back the draft it was made from. */
  lemma CreatedRoundTrip(id: string, draft: TaskDraft)
    ensures Created(id, draft).id == id
    ensures !Created(id, draft).isCompleted
    ensures DraftOf(Created(id, draft)) == draft
  {
  }

  /** True when some task in `tasks` has identifier `id`. */
  predicate HasId(tasks: seq<Task>, id: string)
  {
    exists i :: 0 <= i < |tasks| && tasks[i].id == id
  }

  /** No two tasks in `tasks` share an identifier. */
  predicate UniqueIds(tasks: seq<Task>)
  {
    forall i, j :: 0 <= i < j < |tasks| ==> tasks[i].id != tasks[j].id
  }
}
