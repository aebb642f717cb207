/** The task list store: an ordered list of tasks with a loading flag and an
    error slot, changed when a fetch starts and when a fetch, add, toggle or
    delete request succeeds. */
module TodoSlice {
  import opened Tasks

  datatype TodoState = TodoState(tasks: seq<Task>, loading: bool, error: Option<string>)

  /** The empty list, not loading, no error. */
  const InitialState: TodoState := TodoState([], false, None)

  /** The four remote requests; each dispatches a pending action, then a
      fulfilled or a rejected one. */
  datatype Thunk = FetchTasks | AddTask | ToggleTaskCompletion | DeleteTask

  /** What a fulfilled request carries. */
  datatype Payload =
    | FetchedTasks(fetched: seq<Task>)
    | AddedTask(added: Task)
    | ToggledId(toggledId: string)
    | DeletedId(deletedId: string)

  datatype TodoAction =
    | Pending(thunk: Thunk)
    | Fulfilled(payload: Payload)
    | Rejected(thunk: Thunk, message: string)

  function Flip(t: Task): (r: Task)
  {
    t.(isCompleted := !t.isCompleted)
  }

  /** `tasks` with the completion flag of the first task whose id is `id`
      negated; the list itself when there is none. */
  function Toggled(tasks: seq<Task>, id: string): (r: seq<Task>)
    ensures |r| == |tasks|
    ensures forall i :: 0 <= i < |r| ==> r[i].id == tasks[i].id
  {
    if tasks == [] then []
    else if tasks[0].id == id then [Flip(tasks[0])] + tasks[1..]
    else [tasks[0]] + Toggled(tasks[1..], id)
  }

  /** `tasks` without any task whose id is `id`, in the same order. */
  function Without(tasks: seq<Task>, id: string): (r: seq<Task>)
    ensures |r| <= |tasks|
    ensures forall t :: t in r <==> t in tasks && t.id != id
  {
    if tasks == [] then []
    else if tasks[0].id == id then Without(tasks[1..], id)
    else [tasks[0]] + Without(tasks[1..], id)
  }

  /** The reducer: one synchronous step per dispatched action. Only the
      pending fetch and the four fulfilled actions have a case; every other
      action leaves the state as it is. */
  function Reduce(s: TodoState, a: TodoAction): (r: TodoState)
    ensures r.error == s.error
    ensures a.Rejected? ==> r == s
    ensures a.Pending? && a.thunk != FetchTasks ==> r == s
  {
    match a
    case Pending(FetchTasks) => s.(loading := true)
    case Pending(_) => s
    case Rejected(_, _) => s
    case Fulfilled(FetchedTasks(p)) => s.(loading := false, tasks := p)
    case Fulfilled(AddedTask(t)) => s.(tasks := [t] + s.tasks)
    case Fulfilled(ToggledId(id)) => s.(tasks := Toggled(s.tasks, id))
    case Fulfilled(DeletedId(id)) => s.(tasks := Without(s.tasks, id))
  }

  /** The state after dispatching `acts` in order, starting from `s`. */
  function ReduceAll(s: TodoState, acts: seq<TodoAction>): (r: TodoState)
    decreases acts
  {
    if acts == [] then s else ReduceAll(Reduce(s, acts[0]), acts[1..])
  }

  /** Index of the first task whose id is `id`, as `Array.prototype.find`
      looks for it. */
  method FindFirst(tasks: seq<Task>, id: string) returns (r: Option<nat>)
    ensures r.Some? ==> r.value < |tasks| && tasks[r.value].id == id
    ensures r.Some? ==> forall j :: 0 <= j < r.value ==> tasks[j].id != id
    ensures r.None? ==> forall j :: 0 <= j < |tasks| ==> tasks[j].id != id
  {
    var i := 0;
    while i < |tasks|
      invariant 0 <= i <= |tasks|
      invariant forall j :: 0 <= j < i ==> tasks[j].id != id
    {
      if tasks[i].id == id {
        return Some(i);
      }
      i := i + 1;
    }
    return None;
  }

  /** The store as the reducer's draft: fields assigned in place. */
  class TodoStore {
    var tasks: seq<Task>
    var loading: bool
    var error: Option<string>

    function State(): (r: TodoState)
      reads this
    {
      TodoState(tasks, loading, error)
    }

    constructor ()
      ensures tasks == [] && !loading && error == None
      ensures State() == InitialState
    {
      tasks := [];
      loading := false;
      error := None;
    }

    method FetchPending()
      modifies this
      ensures loading
      ensures tasks == old(tasks) && error == old(error)
    {
      loading := true;
    }

    method FetchFulfilled(payload: seq<Task>)
      modifies this
      ensures !loading && tasks == payload
      ensures error == old(error)
    {
      loading := false;
      tasks := payload;
    }

    /** `unshift`: the new task becomes the first one. */
    method AddFulfilled(task: Task)
      modifies this
      ensures tasks == [task] + old(tasks)
      ensures loading == old(loading) && error == old(error)
    {
      tasks := [task] + tasks;
    }

    /** Finds the first task with the id and negates its flag in place. */
    method ToggleFulfilled(id: string)
      modifies this
      ensures tasks == Toggled(old(tasks), id)
      ensures loading == old(loading) && error == old(error)
    {
      var found := FindFirst(tasks, id);
      if found.Some? {
        var i := found.value;
        ToggledFirst(tasks, id, i);
        tasks := tasks[i := Flip(tasks[i])];
      } else {
        ToggledAbsent(tasks, id);
      }
    }

    /** `filter`: the list is replaced by the tasks whose id differs. */
    method DeleteFulfilled(id: string)
      modifies this
      ensures tasks == Without(old(tasks), id)
      ensures loading == old(loading) && error == old(error)
    {
      tasks := Without(tasks, id);
    }

    /** The slice's reducer applied to this store. */
    method Dispatch(a: TodoAction)
      modifies this
      ensures State() == Reduce(old(State()), a)
    {
      match a
      case Pending(FetchTasks) => FetchPending();
      case Pending(_) =>
      case Rejected(_, _) =>
      case Fulfilled(FetchedTasks(p)) => FetchFulfilled(p);
      case Fulfilled(AddedTask(t)) => AddFulfilled(t);
      case Fulfilled(ToggledId(id)) => ToggleFulfilled(id);
      case Fulfilled(DeletedId(id)) => DeleteFulfilled(id);
    }
  }

  // ---------------------------------------------------------------- toggle

  /** When `i` is the first index holding `id`, toggling negates the flag at
      `i` and nowhere else. */
  lemma {:induction false} ToggledFirst(tasks: seq<Task>, id: string, i: nat)
    requires i < |tasks| && tasks[i].id == id
    requires forall j :: 0 <= j < i ==> tasks[j].id != id
    ensures Toggled(tasks, id) == tasks[i := Flip(tasks[i])]
  {
    if i > 0 {
      ToggledFirst(tasks[1..], id, i - 1);
      assert tasks[i := Flip(tasks[i])] == [tasks[0]] + tasks[1..][i - 1 := Flip(tasks[i])];
    }
  }

  /** Toggling an id that no task has leaves the list unchanged. */
  lemma {:induction false} ToggledAbsent(tasks: seq<Task>, id: string)
    requires forall j :: 0 <= j < |tasks| ==> tasks[j].id != id
    ensures Toggled(tasks, id) == tasks
  {
    if tasks != [] {
      ToggledAbsent(tasks[1..], id);
      assert tasks == [tasks[0]] + tasks[1..];
    }
  }

  /** Toggling changes the list exactly when some task has the id. */
  lemma ToggledChangesIff(tasks: seq<Task>, id: string)
    ensures Toggled(tasks, id) != tasks <==> HasId(tasks, id)
  {
    if HasId(tasks, id) {
      var k :| 0 <= k < |tasks| && tasks[k].id == id;
      var i := FirstIndex(tasks, id, k);
      ToggledFirst(tasks, id, i);
      assert Toggled(tasks, id)[i] != tasks[i];
    } else {
      ToggledAbsent(tasks, id);
    }
  }

  /** The first index holding `id`, given one index that holds it. */
  lemma {:induction false} FirstIndex(tasks: seq<Task>, id: string, k: nat) returns (i: nat)
    requires k < |tasks| && tasks[k].id == id
    ensures i <= k && tasks[i].id == id
    ensures forall j :: 0 <= j < i ==> tasks[j].id != id
  {
    if tasks[0].id == id {
      i := 0;
    } else {
      var i' := FirstIndex(tasks[1..], id, k - 1);
      i := i' + 1;
    }
  }

  /** Toggling the same id twice gives the original list back. */
  lemma {:induction false} ToggleTwice(tasks: seq<Task>, id: string)
    ensures Toggled(Toggled(tasks, id), id) == tasks
  {
    if tasks != [] {
      if tasks[0].id == id {
        assert Toggled(tasks, id) == [Flip(tasks[0])] + tasks[1..];
        assert tasks == [tasks[0]] + tasks[1..];
      } else {
        ToggleTwice(tasks[1..], id);
        var once := Toggled(tasks, id);
        assert once[0] == tasks[0] && once[1..] == Toggled(tasks[1..], id);
        assert tasks == [tasks[0]] + tasks[1..];
      }
    }
  }

  // ---------------------------------------------------------------- delete

  /** Deleting distributes over concatenation: relative order is kept. */
  lemma {:induction false} WithoutConcat(a: seq<Task>, b: seq<Task>, id: string)
    ensures Without(a + b, id) == Without(a, id) + Without(b, id)
  {
    if a == [] {
      assert a + b == b;
    } else {
      WithoutConcat(a[1..], b, id);
      assert (a + b)[0] == a[0] && (a + b)[1..] == a[1..] + b;
    }
  }

  /** Deleting leaves the list unchanged exactly when no task has the id. */
  lemma {:induction false} WithoutUnchangedIff(tasks: seq<Task>, id: string)
    ensures Without(tasks, id) == tasks <==> !HasId(tasks, id)
  {
    if HasId(tasks, id) {
      var k :| 0 <= k < |tasks| && tasks[k].id == id;
      assert tasks[k] in tasks && tasks[k] !in Without(tasks, id);
    } else if tasks != [] {
      assert forall k :: 0 <= k < |tasks| - 1 ==> tasks[1..][k] == tasks[k + 1];
      WithoutUnchangedIff(tasks[1..], id);
      assert tasks == [tasks[0]] + tasks[1..];
    }
  }

  /** Deleting the same id twice is the same as deleting it once. */
  lemma WithoutIdempotent(tasks: seq<Task>, id: string)
    ensures Without(Without(tasks, id), id) == Without(tasks, id)
  {
    var once := Without(tasks, id);
    assert forall k :: 0 <= k < |once| ==> once[k] in once;
    WithoutUnchangedIff(once, id);
  }

  // ---------------------------------------------------------------- unique ids

  /** Adding at the front keeps the ids unique exactly when the list's ids
      were unique and the new id was not among them: the add case makes no
      duplicate check of its own. */
  lemma AddUniqueIff(tasks: seq<Task>, t: Task)
    ensures UniqueIds([t] + tasks) <==> UniqueIds(tasks) && !HasId(tasks, t.id)
  {
    var r := [t] + tasks;
    if UniqueIds(r) {
      forall i, j | 0 <= i < j < |tasks| ensures tasks[i].id != tasks[j].id {
        assert r[i + 1] == tasks[i] && r[j + 1] == tasks[j];
      }
      forall k | 0 <= k < |tasks| ensures tasks[k].id != t.id {
        assert r[0].id != r[k + 1].id;
      }
    }
  }

  /** Deleting keeps unique ids unique. */
  lemma {:induction false} WithoutKeepsUnique(tasks: seq<Task>, id: string)
    requires UniqueIds(tasks)
    ensures UniqueIds(Without(tasks, id))
  {
    if tasks != [] {
      var rest := tasks[1..];
      assert UniqueIds(rest) by {
        forall i, j | 0 <= i < j < |rest| ensures rest[i].id != rest[j].id {
          assert rest[i] == tasks[i + 1] && rest[j] == tasks[j + 1];
        }
      }
      WithoutKeepsUnique(rest, id);
      if tasks[0].id != id {
        var w := Without(rest, id);
        forall k | 0 <= k < |w| ensures w[k].id != tasks[0].id {
          assert w[k] in rest;
          var m :| 0 <= m < |rest| && rest[m] == w[k];
          assert tasks[m + 1] == w[k];
        }
        AddUniqueIff(w, tasks[0]);
      }
    }
  }

  /** Every transition keeps the ids unique, provided a fetched list has
      unique ids and an added task's id is new. */
  lemma ReduceKeepsUnique(s: TodoState, a: TodoAction)
    requires UniqueIds(s.tasks)
    requires a.Fulfilled? && a.payload.FetchedTasks? ==> UniqueIds(a.payload.fetched)
    requires a.Fulfilled? && a.payload.AddedTask? ==> !HasId(s.tasks, a.payload.added.id)
    ensures UniqueIds(Reduce(s, a).tasks)
  {
    match a
    case Fulfilled(AddedTask(t)) => AddUniqueIff(s.tasks, t);
    case Fulfilled(DeletedId(id)) => WithoutKeepsUnique(s.tasks, id);
    case _ =>
  }

  // ---------------------------------------------------------------- errors

  /** No sequence of actions ever sets or clears `error`. */
  lemma {:induction false} ErrorNeverChanges(s: TodoState, acts: seq<TodoAction>)
    ensures ReduceAll(s, acts).error == s.error
    decreases acts
  {
    if acts != [] {
      ErrorNeverChanges(Reduce(s, acts[0]), acts[1..]);
    }
  }

  /** A fetch that is started and then fails leaves `loading` set and the
      list and error as they were. */
  lemma FetchFailureStaysLoading(s: TodoState, message: string)
    ensures Reduce(Reduce(s, Pending(FetchTasks)), Rejected(FetchTasks, message))
         == s.(loading := true)
  {
  }

  /** An added draft becomes the first task, under its assigned id and not
      completed, ahead of the whole previous list. */
  lemma AddCreatedAtFront(s: TodoState, id: string, draft: TaskDraft)
    ensures Reduce(s, Fulfilled(AddedTask(Created(id, draft)))).tasks
         == [Created(id, draft)] + s.tasks
    ensures Reduce(s, Fulfilled(AddedTask(Created(id, draft)))).tasks[0].id == id
    ensures !Reduce(s, Fulfilled(AddedTask(Created(id, draft)))).tasks[0].isCompleted
  {
  }
}
