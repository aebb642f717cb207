# Todo and auth-form stores, modelled in Dafny

This project models the two Redux slices of a mobile todo application:

- the **task list store** (`src/redux/todoSlice.ts`): an ordered list of
  tasks, a `loading` flag and an `error` slot. It is changed when a fetch
  starts and when a fetch, add, toggle or delete request succeeds.
- the **auth form store** (`src/redux/authSlice.ts`): the email, password
  and confirm-password text fields of the sign-up / log-in forms, plus an
  `isLoading` flag. It is changed by `updateField`, `resetForm` and
  `setLoading`.

Each slice appears twice. A pure reducer `Reduce(state, action)` states what
one dispatched action does. A class (`TodoStore`, `AuthStore`) has the
slice's fields and one method per reducer case, assigning the fields in
place as the reducer's draft does. Each class's `Dispatch` is proved to
agree with `Reduce`. Lemmas about `Reduce` and its helpers (`Toggled`,
`Without`) state what the slice promises: where a change lands, what stays
the same, that toggle is its own inverse, that delete is idempotent, and that
no action ever touches `error`.

Files:

- `tasks.dfy`, module `Tasks`: the task record, the draft the add form
  submits, and the payload a successful add returns (`Created`).
- `todo_slice.dfy`, module `TodoSlice`: the task list store.
- `auth_slice.dfy`, module `AuthSlice`: the auth form store.

The payloads of the remote requests are plain inputs:

- a fetch yields a list of tasks;
- an add yields the draft under a store-assigned id, not completed
  (`src/service/FirebaseFirestore.ts:39`);
- a toggle yields the id (`src/service/FirebaseFirestore.ts:55`);
- a delete yields the id (`src/service/FirebaseFirestore.ts:65`).

No reducer handles a rejected action, so a failed request changes nothing.
A fetch that started and then failed leaves `loading` true, and `error`
keeps its initial `null` for ever (`ErrorNeverChanges`,
`FetchFailureStaysLoading`). The add case makes no duplicate-id check;
`AddUniqueIff` shows that ids stay unique only when the added id is new.

## Model

| member | source | states |
|---|---|---|
| Tasks.CreatedRoundTrip | src/service/FirebaseFirestore.ts:39 | covers `Created`, the add payload: the task a successful add returns has the assigned id, is not completed, and carries the draft's fields unchanged |
| TodoSlice.TodoStore.constructor | src/redux/todoSlice.ts:12-17 | the store starts with an empty task list, `loading` false and `error` null |
| TodoSlice.TodoStore.FetchPending | src/redux/todoSlice.ts:26 | a pending fetch sets `loading`; `tasks` and `error` are unchanged |
| TodoSlice.TodoStore.FetchFulfilled | src/redux/todoSlice.ts:27-30 | a fulfilled fetch makes `tasks` exactly the payload, with no merge or re-sort, and clears `loading`; `error` is unchanged |
| TodoSlice.TodoStore.AddFulfilled | src/redux/todoSlice.ts:33-35 | a fulfilled add puts the payload in front of the old list; `loading` and `error` are unchanged |
| TodoSlice.TodoStore.ToggleFulfilled | src/redux/todoSlice.ts:38-43 | a fulfilled toggle finds the first task with the id and negates its flag in place; the result is `Toggled` of the old list; `loading` and `error` are unchanged |
| TodoSlice.TodoStore.DeleteFulfilled | src/redux/todoSlice.ts:46-48 | a fulfilled delete replaces the list by `Without` of the old list; `loading` and `error` are unchanged |
| TodoSlice.TodoStore.Dispatch | src/redux/todoSlice.ts:21-50 | dispatching any action to the store gives exactly the state `Reduce` specifies |
| TodoSlice.FindFirst | src/redux/todoSlice.ts:39 | the search returns the first index whose task has the id, or none when no task has it |
| TodoSlice.Reduce | src/redux/todoSlice.ts:25-49 | no action changes `error`; a rejected action, and a pending action other than fetch, leave the whole state unchanged |
| TodoSlice.Toggled | src/redux/todoSlice.ts:38-43 | toggling keeps the length of the list and the id at every position |
| TodoSlice.ToggledFirst | src/redux/todoSlice.ts:38-43 | when index `i` holds the first task with the id, toggling negates the flag at `i` and leaves every other task and the order unchanged |
| TodoSlice.ToggledAbsent | src/redux/todoSlice.ts:40 | toggling an id that no task has leaves the list unchanged |
| TodoSlice.ToggledChangesIff | src/redux/todoSlice.ts:38-43 | toggling changes the list if and only if some task has the id |
| TodoSlice.ToggleTwice | src/redux/todoSlice.ts:38-43 | toggling the same id twice gives back the original list |
| TodoSlice.Without | src/redux/todoSlice.ts:47 | after a delete, no task has the id; a task is in the result exactly when it was in the list and has another id; the list does not grow |
| TodoSlice.WithoutConcat | src/redux/todoSlice.ts:47 | delete distributes over concatenation, so the kept tasks stay in their relative order |
| TodoSlice.WithoutUnchangedIff | src/redux/todoSlice.ts:47 | delete leaves the list unchanged if and only if no task has the id |
| TodoSlice.WithoutIdempotent | src/redux/todoSlice.ts:46-48 | deleting the same id twice equals deleting it once |
| TodoSlice.AddUniqueIff | src/redux/todoSlice.ts:33-35 | after an add, ids are unique if and only if they were unique before and the new id was not yet present; the add itself does not check |
| TodoSlice.WithoutKeepsUnique | src/redux/todoSlice.ts:46-48 | a delete keeps unique ids unique |
| TodoSlice.ReduceKeepsUnique | src/redux/todoSlice.ts:25-49 | every action keeps ids unique, provided a fetched list has unique ids and an added id is new |
| TodoSlice.ErrorNeverChanges | src/redux/todoSlice.ts:25-49 | no sequence of actions ever changes `error` |
| TodoSlice.FetchFailureStaysLoading | src/redux/todoSlice.ts:26-30 | a pending fetch followed by a rejected fetch leaves `loading` true and the list and error unchanged |
| TodoSlice.AddCreatedAtFront | src/redux/todoSlice.ts:33-35 | an added task becomes element 0, with its assigned id and not completed, and the old list follows it |
| AuthSlice.AuthStore.constructor | src/redux/authSlice.ts:13-18 | the form starts with the three text fields empty and `isLoading` false |
| AuthSlice.AuthStore.UpdateField | src/redux/authSlice.ts:24-27 | `updateField(f, v)` sets field `f` to `v`; the other text fields and `isLoading` are unchanged |
| AuthSlice.AuthStore.ResetForm | src/redux/authSlice.ts:28-32 | `resetForm` empties the three text fields and keeps `isLoading` |
| AuthSlice.AuthStore.SetLoading | src/redux/authSlice.ts:33-35 | `setLoading(b)` sets `isLoading` to `b` and keeps the three text fields |
| AuthSlice.AuthStore.Dispatch | src/redux/authSlice.ts:20-40 | dispatching any action to the store gives exactly the state `Reduce` specifies |
| AuthSlice.Reduce | src/redux/authSlice.ts:23-36 | `updateField(f, v)` makes `f` read `v` and keeps the other text fields; `resetForm` gives the initial form with the old flag; `setLoading(b)` makes the flag `b` and keeps every text field; every other action keeps the flag |
| AuthSlice.UpdateFieldFrame | src/redux/authSlice.ts:24-27 | after `updateField(f, v)`, field `f` reads `v` and every other field and the flag are as before |
| AuthSlice.ResetFormClears | src/redux/authSlice.ts:28-32 | after `resetForm` every text field is empty: the state is the initial one except for the kept flag |
| AuthSlice.ResetFormIdempotent | src/redux/authSlice.ts:28-32 | `resetForm` twice equals `resetForm` once |
| AuthSlice.SetLoadingFrame | src/redux/authSlice.ts:33-35 | after `setLoading(b)` the flag is `b` and every text field is as before |
| AuthSlice.SetLoadingIdempotent | src/redux/authSlice.ts:33-35 | `setLoading(b)` twice equals `setLoading(b)` once |
| AuthSlice.NoSetLoadingKeepsFlag | src/redux/authSlice.ts:24-32 | a run of `updateField` and `resetForm` actions never changes `isLoading` |
| AuthSlice.LastSetLoadingWins | src/redux/authSlice.ts:33-35 | after any run of actions, `isLoading` is the value of the last `setLoading` in it |
| AuthSlice.ResetAfterEdits | src/redux/authSlice.ts:24-32 | after any run of `updateField` and `resetForm` actions, a final `resetForm` restores the initial form and keeps the original flag |

## Left out

- Remote calls: the Firestore queries and the authentication calls are network requests to a foreign library. Only their success payloads enter the model, as action arguments.
- Rejected payloads: the error message a failed request carries is an action argument that no reducer reads.
- Async ordering: request completions may arrive in any order. Each completion is modelled as one independent synchronous reducer step.
- Date ordering: fetched tasks come back sorted by `date` descending, but the server does that and the client never checks it. The model states no ordering invariant, and an added task goes to the front whatever its date.
- `createdAt`: the server timestamp stored with a new task is not in the add payload and is not read by the slice, so the task record leaves it out.
- Task type: the file that declares `Task` is not part of this model. Its fields are taken from the add form's draft, the id and the completion flag.
- AuthSlice.AuthStore.UpdateField: the `Field` type has only the three text fields. The source's `keyof AuthState` key also admits `isLoading`, which `updateField` would then overwrite with a string; the `@ts-ignore` hides this, and no caller does it.
- AuthSlice.Reduce: its `updateField` case takes the same three-field `Field` type, so it leaves out a write of a string into `isLoading`.
- AuthSlice.UpdateFieldFrame: it states the frame property for the three text fields only, for the same reason.
- `confirmPassword`: it is optional in the source's interface, but every write to it stores a string (the initial state, `resetForm`, and `updateField`'s string value), so the model keeps it a string.
- UI, screens and navigation: rendering, timers, alerts, the empty-title guard of the add form and the sign-up password-match check live outside both stores.
