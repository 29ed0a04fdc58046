/**
 * The `tasks` slice (store/tasks.js): its state `{ tasks, loading, error }`, the six
 * case reducers, which mutate that state in place, and the four action creators,
 * which each build one `apiCallBegan` intent for the API middleware.
 *
 * A case reducer that throws leaves the state as it was (Redux Toolkit discards the
 * draft it was writing). The exception is reported as the reducer's `Throw`; how it
 * travels back through the store's middleware chain is not modelled here.
 */
module Tasks {
  import opened Js
  import opened Actions

  // Action types generated by `createSlice` with the name "tasks".
  const ApiRequestedType: string := "tasks/apiRequested"
  const ApiRequestFailedType: string := "tasks/apiRequestFailed"
  const GetTasksType: string := "tasks/getTasks"
  const AddTaskType: string := "tasks/addTask"
  const RemoveTaskType: string := "tasks/removeTask"
  const CompleteTaskType: string := "tasks/completeTask"

  /* ----- The callback `task => task.id === action.payload.id` and `findIndex` ----- */

  /** One call of the callback: reads `task.id`, then `payload.id`, and compares. */
  function IdsEqual(task: Value, payload: Value): Result<bool> {
    var mine :- Prop(task, "id");
    var wanted :- Prop(payload, "id");
    Normal(mine == wanted)
  }

  /** The callback returns true for `task`. */
  predicate Hit(task: Value, payload: Value) {
    IdsEqual(task, payload) == Normal(true)
  }

  /** The callback returns false for `task`. */
  predicate Miss(task: Value, payload: Value) {
    IdsEqual(task, payload) == Normal(false)
  }

  /** `Array.prototype.findIndex` from index `i` on: calls the callback on each element
      in order, stops at the first that answers true, and returns -1 when none does.
      An exception thrown by the callback ends the search. */
  function FindIndexFrom(tasks: seq<Value>, payload: Value, i: nat): Result<int>
    requires i <= |tasks|
    decreases |tasks| - i
  {
    if i == |tasks| then Normal(-1)
    else
      match IdsEqual(tasks[i], payload)
      case Throw(m) => Throw(m)
      case Normal(hit) => if hit then Normal(i) else FindIndexFrom(tasks, payload, i + 1)
  }

  /** `state.tasks.findIndex((task) => task.id === action.payload.id)`. */
  function FindIndex(tasks: seq<Value>, payload: Value): Result<int> {
    FindIndexFrom(tasks, payload, 0)
  }

  /** Task `k` is the first from `from` on whose callback answers true. */
  predicate FirstHitAt(tasks: seq<Value>, payload: Value, from: nat, k: nat) {
    from <= k < |tasks| && Hit(tasks[k], payload) &&
    forall j :: from <= j < k ==> Miss(tasks[j], payload)
  }

  /** Task `k` is the first from `from` on whose callback throws, and all before it answer false. */
  predicate FirstThrowAt(tasks: seq<Value>, payload: Value, from: nat, k: nat) {
    from <= k < |tasks| && IdsEqual(tasks[k], payload).Throw? &&
    forall j :: from <= j < k ==> Miss(tasks[j], payload)
  }

  /** `findIndex` from `i` yields -1 exactly when every callback from `i` on answers false. */
  lemma {:induction false} FindIndexNotFound(tasks: seq<Value>, payload: Value, i: nat)
    requires i <= |tasks|
    ensures FindIndexFrom(tasks, payload, i) == Normal(-1) <==>
              forall j :: i <= j < |tasks| ==> Miss(tasks[j], payload)
    decreases |tasks| - i
  {
    if i < |tasks| {
      FindIndexNotFound(tasks, payload, i + 1);
      FindIndexInRange(tasks, payload, i + 1);
    }
  }

  /** `findIndex` from `i` yields an index at least `i` and below the length, or -1. */
  lemma {:induction false} FindIndexInRange(tasks: seq<Value>, payload: Value, i: nat)
    requires i <= |tasks|
    ensures FindIndexFrom(tasks, payload, i).Normal? ==>
              FindIndexFrom(tasks, payload, i).value == -1 ||
              i <= FindIndexFrom(tasks, payload, i).value < |tasks|
    decreases |tasks| - i
  {
    if i < |tasks| {
      FindIndexInRange(tasks, payload, i + 1);
    }
  }

  /** `findIndex` from `i` yields `k` exactly when task `k` is the first from `i` on
      whose callback answers true. */
  lemma {:induction false} FindIndexFound(tasks: seq<Value>, payload: Value, i: nat, k: nat)
    requires i <= |tasks| && k < |tasks|
    ensures FindIndexFrom(tasks, payload, i) == Normal(k) <==> FirstHitAt(tasks, payload, i, k)
    decreases |tasks| - i
  {
    if k < i {
      FindIndexInRange(tasks, payload, i);
    } else if i < k {
      if Miss(tasks[i], payload) {
        assert FindIndexFrom(tasks, payload, i) == FindIndexFrom(tasks, payload, i + 1);
        FindIndexFound(tasks, payload, i + 1, k);
        assert FirstHitAt(tasks, payload, i, k) <==> FirstHitAt(tasks, payload, i + 1, k);
      } else {
        assert FindIndexFrom(tasks, payload, i) != Normal(k);
        assert !FirstHitAt(tasks, payload, i, k);
      }
    } else {
      FindIndexInRange(tasks, payload, i + 1);
    }
  }

  /** `findIndex` from `i` throws exactly when a callback throws before any answers true. */
  lemma {:induction false} FindIndexThrows(tasks: seq<Value>, payload: Value, i: nat)
    requires i <= |tasks|
    ensures FindIndexFrom(tasks, payload, i).Throw? <==> exists k :: FirstThrowAt(tasks, payload, i, k)
    decreases |tasks| - i
  {
    if i < |tasks| {
      if IdsEqual(tasks[i], payload).Throw? {
        assert FirstThrowAt(tasks, payload, i, i);
      } else if Miss(tasks[i], payload) {
        assert FindIndexFrom(tasks, payload, i) == FindIndexFrom(tasks, payload, i + 1);
        FindIndexThrows(tasks, payload, i + 1);
        if FindIndexFrom(tasks, payload, i + 1).Throw? {
          var k :| FirstThrowAt(tasks, payload, i + 1, k);
          assert FirstThrowAt(tasks, payload, i, k);
        } else {
          forall k ensures !FirstThrowAt(tasks, payload, i, k) {
            if FirstThrowAt(tasks, payload, i, k) {
              assert k != i;
              assert FirstThrowAt(tasks, payload, i + 1, k);
            }
          }
        }
      } else {
        assert forall k :: !FirstThrowAt(tasks, payload, i, k);
      }
    }
  }

  /** What `findIndex` returns: -1 exactly when every callback answered false, an
      index exactly when it is the first that answered true, and an exception exactly
      when the callback threw before any element answered true. */
  lemma FindIndexMeaning(tasks: seq<Value>, payload: Value)
    ensures FindIndex(tasks, payload) == Normal(-1) <==>
              forall j :: 0 <= j < |tasks| ==> Miss(tasks[j], payload)
    ensures forall k :: 0 <= k < |tasks| ==>
              (FindIndex(tasks, payload) == Normal(k) <==> FirstHitAt(tasks, payload, 0, k))
    ensures FindIndex(tasks, payload).Normal? ==> -1 <= FindIndex(tasks, payload).value < |tasks|
    ensures FindIndex(tasks, payload).Throw? <==> exists k :: FirstThrowAt(tasks, payload, 0, k)
  {
    FindIndexNotFound(tasks, payload, 0);
    FindIndexInRange(tasks, payload, 0);
    FindIndexThrows(tasks, payload, 0);
    forall k | 0 <= k < |tasks|
      ensures FindIndex(tasks, payload) == Normal(k) <==> FirstHitAt(tasks, payload, 0, k)
    {
      FindIndexFound(tasks, payload, 0, k);
    }
  }

  /** Over non-nullish tasks and a non-nullish payload, the search never throws. */
  lemma FindIndexNeverThrows(tasks: seq<Value>, payload: Value)
    requires !Nullish(payload)
    requires forall j :: 0 <= j < |tasks| ==> !Nullish(tasks[j])
    ensures FindIndex(tasks, payload).Normal?
  {
    FindIndexMeaning(tasks, payload);
  }

  /* ----- `splice(index, 1)` and the indexed write ----- */

  /** `s.splice(start, 1)` on the array `s`: a negative start counts back from the
      end (clamped at 0), and at most one element from that position is removed. */
  function SpliceOne(s: seq<Value>, start: int): seq<Value> {
    var from := if start < 0 then (if |s| + start < 0 then 0 else |s| + start)
                else (if start < |s| then start else |s|);
    if from < |s| then s[..from] + s[from + 1..] else s
  }

  /** `s[index] = v` for an index `findIndex` can return. Index -1 is not an
      array index: the write adds a property named "-1" and no element changes. */
  function WriteAt(s: seq<Value>, index: int, v: Value): seq<Value>
    requires -1 <= index < |s|
  {
    if index == -1 then s else s[index := v]
  }

  /** The task list `removeTask` leaves, or the exception it throws. */
  function RemovedById(tasks: seq<Value>, payload: Value): Result<seq<Value>> {
    var index :- FindIndex(tasks, payload);
    Normal(SpliceOne(tasks, index))
  }

  /** The task list `completeTask` leaves, or the exception it throws. */
  function CompletedById(tasks: seq<Value>, payload: Value): Result<seq<Value>> {
    var index :- FindIndex(tasks, payload);
    FindIndexMeaning(tasks, payload);
    var completed :- Prop(payload, "completed");
    Normal(WriteAt(tasks, index, completed))
  }

  /** With a matching id, `removeTask` removes exactly the first task that matches
      and keeps the others in their order. */
  lemma RemovePresent(tasks: seq<Value>, payload: Value, k: nat)
    requires k < |tasks| && Hit(tasks[k], payload)
    requires forall j :: 0 <= j < k ==> Miss(tasks[j], payload)
    ensures RemovedById(tasks, payload) == Normal(tasks[..k] + tasks[k + 1..])
    ensures |RemovedById(tasks, payload).value| == |tasks| - 1
  {
    FindIndexMeaning(tasks, payload);
  }

  /** With no matching id, `findIndex` yields -1 and `splice(-1, 1)` removes the
      last task; an empty list stays empty. */
  lemma RemoveAbsent(tasks: seq<Value>, payload: Value)
    requires forall j :: 0 <= j < |tasks| ==> Miss(tasks[j], payload)
    ensures tasks != [] ==> RemovedById(tasks, payload) == Normal(tasks[..|tasks| - 1])
    ensures tasks == [] ==> RemovedById(tasks, payload) == Normal([])
  {
    FindIndexMeaning(tasks, payload);
    if tasks != [] {
      assert tasks[..|tasks| - 1] + tasks[|tasks|..] == tasks[..|tasks| - 1];
    }
  }

  /** With a matching id, `completeTask` overwrites the whole first matching task with
      `payload.completed`, and no other slot changes. */
  lemma CompletePresent(tasks: seq<Value>, payload: Value, k: nat)
    requires k < |tasks| && Hit(tasks[k], payload)
    requires forall j :: 0 <= j < k ==> Miss(tasks[j], payload)
    ensures CompletedById(tasks, payload).Normal?
    ensures |CompletedById(tasks, payload).value| == |tasks|
    ensures CompletedById(tasks, payload).value[k] == Prop(payload, "completed").value
    ensures forall j :: 0 <= j < |tasks| && j != k ==> CompletedById(tasks, payload).value[j] == tasks[j]
  {
    FindIndexMeaning(tasks, payload);
    assert !Nullish(payload) by {
      assert IdsEqual(tasks[k], payload).Normal?;
    }
  }

  /** With no matching id the write goes to index -1, which is not an element: the
      task list is unchanged, unless reading `payload.completed` throws. */
  lemma CompleteAbsent(tasks: seq<Value>, payload: Value)
    requires forall j :: 0 <= j < |tasks| ==> Miss(tasks[j], payload)
    ensures !Nullish(payload) ==> CompletedById(tasks, payload) == Normal(tasks)
    ensures Nullish(payload) ==> CompletedById(tasks, payload).Throw?
  {
    FindIndexMeaning(tasks, payload);
  }

  /** The state of the slice. */
  class TaskSlice {
    var tasks: seq<Value>
    var loading: bool
    var error: Value

    /** `initialState`. */
    constructor ()
      ensures tasks == [] && !loading && error == Null
    {
      tasks := [];
      loading := false;
      error := Null;
    }

    /** `apiRequested`. */
    method ApiRequested()
      modifies this
      ensures loading
      ensures tasks == old(tasks) && error == old(error)
    {
      loading := true;
    }

    /** `apiRequestFailed`: only clears the flag; no reducer ever writes `error`. */
    method ApiRequestFailed()
      modifies this
      ensures !loading
      ensures tasks == old(tasks) && error == old(error)
    {
      loading := false;
    }

    /** `getTasks`: the list becomes the payload. */
    method GetTasks(payload: seq<Value>)
      modifies this
      ensures tasks == payload && !loading
      ensures error == old(error)
    {
      tasks := payload;
      loading := false;
    }

    /** `addTask`: appends the payload. */
    method AddTask(payload: Value)
      modifies this
      ensures |tasks| == |old(tasks)| + 1
      ensures tasks[..|old(tasks)|] == old(tasks) && tasks[|old(tasks)|] == payload
      ensures loading == old(loading) && error == old(error)
    {
      tasks := tasks + [payload];
    }

    /** `removeTask`: `findIndex` on the payload's id, then `splice(index, 1)`. */
    method RemoveTask(payload: Value) returns (c: Result<()>)
      modifies this
      ensures c.Throw? <==> RemovedById(old(tasks), payload).Throw?
      ensures c.Throw? ==> c.message == RemovedById(old(tasks), payload).message
      ensures tasks == (if c.Normal? then RemovedById(old(tasks), payload).value else old(tasks))
      ensures loading == old(loading) && error == old(error)
    {
      var index := FindIndex(tasks, payload);
      if index.Throw? {
        return Throw(index.message);
      }
      tasks := SpliceOne(tasks, index.value);
      c := Normal(());
    }

    /** `completeTask`: `findIndex` on the payload's id, then
        `tasks[index] = payload.completed`. */
    method CompleteTask(payload: Value) returns (c: Result<()>)
      modifies this
      ensures c.Throw? <==> CompletedById(old(tasks), payload).Throw?
      ensures c.Throw? ==> c.message == CompletedById(old(tasks), payload).message
      ensures tasks == (if c.Normal? then CompletedById(old(tasks), payload).value else old(tasks))
      ensures loading == old(loading) && error == old(error)
    {
      var index := FindIndex(tasks, payload);
      if index.Throw? {
        return Throw(index.message);
      }
      FindIndexMeaning(tasks, payload);
      var completed := Prop(payload, "completed");
      if completed.Throw? {
        return Throw(completed.message);
      }
      tasks := WriteAt(tasks, index.value, completed.value);
      c := Normal(());
    }
  }

  /* ----- Action creators: each thunk dispatches the one intent built here ----- */

  /** `` `/tasks/${task.id}` ``, or the TypeError of reading `id` of a nullish task. */
  function TaskUrl(task: Value): Result<string> {
    var id :- Prop(task, "id");
    Normal("/tasks/" + ToStr(id))
  }

  /** `loadTasks`: GET /tasks with all three follow-up types. */
  function LoadTasks(): (a: Action)
    ensures IsIntent(a)
    ensures Prop(a.payload, "url") == Normal(Str("/tasks"))
    ensures Prop(a.payload, "method") == Normal(Str("GET"))
    ensures Prop(a.payload, "data") == Normal(Undefined)
    ensures Prop(a.payload, "onStart") == Normal(Str(ApiRequestedType))
    ensures Prop(a.payload, "onSuccess") == Normal(Str(GetTasksType))
    ensures Prop(a.payload, "onError") == Normal(Str(ApiRequestFailedType))
  {
    CallBegan(Obj(map[
      "url" := Str("/tasks"),
      "method" := Str("GET"),
      "onStart" := Str(ApiRequestedType),
      "onSuccess" := Str(GetTasksType),
      "onError" := Str(ApiRequestFailedType)]))
  }

  /** `addNewTask(task)`: POST /tasks carrying the task, with a success type only. */
  function AddNewTask(task: Value): (a: Action)
    ensures IsIntent(a)
    ensures Prop(a.payload, "url") == Normal(Str("/tasks"))
    ensures Prop(a.payload, "method") == Normal(Str("POST"))
    ensures Prop(a.payload, "data") == Normal(task)
    ensures Prop(a.payload, "onStart") == Normal(Undefined)
    ensures Prop(a.payload, "onSuccess") == Normal(Str(AddTaskType))
    ensures Prop(a.payload, "onError") == Normal(Undefined)
  {
    CallBegan(Obj(map[
      "url" := Str("/tasks"),
      "method" := Str("POST"),
      "data" := task,
      "onSuccess" := Str(AddTaskType)]))
  }

  /** `updateTask(task)`: PATCH /tasks/<id> carrying the task, with a success type
      only; reading `task.id` throws when the task is nullish. */
  function UpdateTask(task: Value): (r: Result<Action>)
    ensures r.Throw? <==> Nullish(task)
    ensures r.Normal? ==> IsIntent(r.value)
    ensures r.Normal? ==> Prop(r.value.payload, "url") == Normal(Str(TaskUrl(task).value))
    ensures r.Normal? ==> Prop(r.value.payload, "method") == Normal(Str("PATCH"))
    ensures r.Normal? ==> Prop(r.value.payload, "data") == Normal(task)
    ensures r.Normal? ==> Prop(r.value.payload, "onStart") == Normal(Undefined)
    ensures r.Normal? ==> Prop(r.value.payload, "onSuccess") == Normal(Str(CompleteTaskType))
    ensures r.Normal? ==> Prop(r.value.payload, "onError") == Normal(Undefined)
  {
    var url :- TaskUrl(task);
    Normal(CallBegan(Obj(map[
      "url" := Str(url),
      "method" := Str("PATCH"),
      "data" := task,
      "onSuccess" := Str(CompleteTaskType)])))
  }

  /** `deleteTask(task)`: DELETE /tasks/<id> without data, with a success type only. */
  function DeleteTask(task: Value): (r: Result<Action>)
    ensures r.Throw? <==> Nullish(task)
    ensures r.Normal? ==> IsIntent(r.value)
    ensures r.Normal? ==> Prop(r.value.payload, "url") == Normal(Str(TaskUrl(task).value))
    ensures r.Normal? ==> Prop(r.value.payload, "method") == Normal(Str("DELETE"))
    ensures r.Normal? ==> Prop(r.value.payload, "data") == Normal(Undefined)
    ensures r.Normal? ==> Prop(r.value.payload, "onStart") == Normal(Undefined)
    ensures r.Normal? ==> Prop(r.value.payload, "onSuccess") == Normal(Str(RemoveTaskType))
    ensures r.Normal? ==> Prop(r.value.payload, "onError") == Normal(Undefined)
  {
    var url :- TaskUrl(task);
    Normal(CallBegan(Obj(map[
      "url" := Str(url),
      "method" := Str("DELETE"),
      "onSuccess" := Str(RemoveTaskType)])))
  }

  /** The URL of a task with a numeric id names that id: it is "/tasks/" followed by
      a numeral that reads back as the id. */
  lemma TaskUrlNamesId(task: Value, id: int)
    requires Prop(task, "id") == Normal(Num(id))
    ensures TaskUrl(task).Normal?
    ensures |TaskUrl(task).value| > 7 && TaskUrl(task).value[..7] == "/tasks/"
    ensures ParseDecimal(TaskUrl(task).value[7..]) == id
  {
    var url := TaskUrl(task).value;
    assert url[7..] == IntToDecimal(id);
    DecimalRoundTrip(id);
  }
}
