# redux-api-calls: the task and employee slices and the `api` middleware

This project is a Dafny model of the state logic of a small Redux application that talks
to a REST backend. It covers three parts.

- **The `tasks` slice** (`store/tasks.js`). The state is `{ tasks, loading, error }` and
  six case reducers change it in place. The model is the class `Tasks.TaskSlice`.
  `removeTask` and `completeTask` locate a task with `findIndex` on the payload's `id`.
  `removeTask` then calls `splice(index, 1)`. `completeTask` then assigns
  `payload.completed` to the slot. Two consequences of the code as written are proved:
  - an id that is not present gives index -1, and `splice(-1, 1)` then deletes the
    *last* task;
  - `completeTask` replaces the whole task with the `completed` value instead of
    updating one field of it.

  The four action creators (`loadTasks`, `addNewTask`, `updateTask`, `deleteTask`) are
  modelled as the one `apiCallBegan` intent that each thunk dispatches.
- **The `employees` slice** (`store/employeeReducer.js`). `addEmployee` pushes
  `{ id: ++id, name }`, where `id` is a module-level counter. The model is the class
  `Employees.EmployeeSlice`, which holds the counter and the list. Its invariant says
  that ids strictly increase and never exceed the counter.
- **The `api` middleware** (`store/middleware/api.js`). Its model is the function
  `ApiMiddleware.Run` and the class `ApiMiddleware.Middleware`, whose `Handle` method
  appends to a trace of events. There are three kinds of event: forwarding to `next`,
  dispatching, and issuing a request. The request's outcome (`Ok(data)` or
  `Err(message)`) is an input. So is whether each dispatch returns or throws. In this
  store a dispatch re-enters the middleware chain, and `api` is `async`, so a failing
  reducer usually surfaces as a rejected promise rather than a synchronous throw.
  Letting each dispatch result range freely over-approximates that: every property
  holds for every choice.

JavaScript values are the datatype `Js.Value`. A property read on `undefined` or
`null` throws a TypeError, and the model follows that. Where the code can throw, the
model gives the error path (`Js.Result`) instead of excluding the input:
- a task slot that `completeTask` has set to `undefined`;
- a nullish payload;
- a nullish task passed to `updateTask`.

A case reducer that throws leaves the state unchanged, because Redux Toolkit discards
its draft. `addEmployee` is the exception to "unchanged": the counter has already
moved when `action.payload.name` throws.

Three behaviours of the code are easy to misread, and the model keeps them:
- removing an absent id deletes the last task; it is not a no-op;
- no reducer ever writes `error`, so a failed load leaves `error` at `null`;
- `addNewTask`, `updateTask` and `deleteTask` set no `onError`. On failure the
  middleware therefore dispatches an action whose type is `undefined`.

## Model

| member | source | states |
|---|---|---|
| Tasks.FindIndexMeaning | redux-api-calls/src/store/tasks.js:47-49 | `findIndex` with the id callback yields -1 exactly when every task's id differs from the payload's, yields k exactly when task k is the first match, and throws exactly when a nullish task or payload is reached before any match |
| Tasks.FindIndexNeverThrows | redux-api-calls/src/store/tasks.js:47-49 | over non-nullish tasks and a non-nullish payload the search never throws |
| Tasks.RemovePresent | redux-api-calls/src/store/tasks.js:46-51 | with a match, `removeTask` removes exactly the first matching task; the others keep their order and the length drops by one |
| Tasks.RemoveAbsent | redux-api-calls/src/store/tasks.js:47-50 | with no match, `splice(-1, 1)` removes the last task of a non-empty list and leaves an empty list empty |
| Tasks.CompletePresent | redux-api-calls/src/store/tasks.js:52-57 | with a match, the first matching slot becomes `payload.completed` (the whole task is overwritten), the length is kept and no other slot changes |
| Tasks.CompleteAbsent | redux-api-calls/src/store/tasks.js:52-57 | with no match, the write goes to index -1, which is not an element, so the list is unchanged; a nullish payload throws |
| Tasks.TaskSlice.constructor | redux-api-calls/src/store/tasks.js:11-15 | the initial state is no tasks, not loading, `error` null |
| Tasks.TaskSlice.ApiRequested | redux-api-calls/src/store/tasks.js:33-35 | sets `loading`; `tasks` and `error` unchanged |
| Tasks.TaskSlice.ApiRequestFailed | redux-api-calls/src/store/tasks.js:36-38 | clears `loading`; `tasks` and `error` unchanged (no reducer writes `error`) |
| Tasks.TaskSlice.GetTasks | redux-api-calls/src/store/tasks.js:39-42 | `tasks` becomes exactly the payload and `loading` is cleared; `error` unchanged |
| Tasks.TaskSlice.AddTask | redux-api-calls/src/store/tasks.js:43-45 | length grows by one, earlier tasks unchanged, the new last task is the payload |
| Tasks.TaskSlice.RemoveTask | redux-api-calls/src/store/tasks.js:46-51 | the new list is `RemovedById` of the old one (see RemovePresent/RemoveAbsent); on a throw the state is unchanged; `loading` and `error` untouched |
| Tasks.TaskSlice.CompleteTask | redux-api-calls/src/store/tasks.js:52-57 | the new list is `CompletedById` of the old one (see CompletePresent/CompleteAbsent); on a throw the state is unchanged; `loading` and `error` untouched |
| Tasks.LoadTasks | redux-api-calls/src/store/tasks.js:107-117 | an intent for GET "/tasks" with no data and onStart/onSuccess/onError set to apiRequested/getTasks/apiRequestFailed |
| Tasks.AddNewTask | redux-api-calls/src/store/tasks.js:119-130 | an intent for POST "/tasks" with the task as data, onSuccess addTask, and no onStart or onError |
| Tasks.UpdateTask | redux-api-calls/src/store/tasks.js:132-141 | an intent for PATCH "/tasks/" + id with the task as data and onSuccess completeTask only; throws exactly for a nullish task |
| Tasks.DeleteTask | redux-api-calls/src/store/tasks.js:143-151 | an intent for DELETE "/tasks/" + id without data and onSuccess removeTask only; throws exactly for a nullish task |
| Tasks.TaskUrlNamesId | redux-api-calls/src/store/tasks.js:135 | for a numeric id the URL is "/tasks/" followed by a numeral that reads back as the id |
| Employees.EmployeeSlice.constructor | redux-api-calls/src/store/employeeReducer.js:2-5 | the counter starts at 1 and the list is empty |
| Employees.EmployeeSlice.AddEmployee | redux-api-calls/src/store/employeeReducer.js:7-9 | the counter advances by exactly one and the new id exceeds every earlier id; on success `{id, name: payload.name}` is appended and earlier employees are unchanged; a nullish payload throws, leaves the list unchanged and still uses up the id |
| Employees.IdsDistinct | redux-api-calls/src/store/employeeReducer.js:2-9 | the employee ids in the state are pairwise distinct |
| Employees.IdsWhenNoCallFailed | redux-api-calls/src/store/employeeReducer.js:2-8 | when no call has thrown, the k-th employee (counting from 1) has id k + 1 |
| Employees.TightIds | redux-api-calls/src/store/employeeReducer.js:8 | strictly increasing ids confined to a range as long as the list are consecutive from its lower end |
| ApiMiddleware.Run | redux-api-calls/src/store/middleware/api.js:8-11 | an action that is not an intent is passed to `next` once, unchanged, with nothing dispatched or requested; an intent whose payload is nullish rejects with nothing done |
| ApiMiddleware.IntentNeverForwarded | redux-api-calls/src/store/middleware/api.js:8-11 | an intent is never passed to `next` |
| ApiMiddleware.StartComesFirst | redux-api-calls/src/store/middleware/api.js:12-16 | for a truthy `onStart`, `{type: onStart}` without payload is the first event and comes before the request; without one the request comes first; a throwing start dispatch ends the call before any request |
| ApiMiddleware.OnlyStartBeforeRequest | redux-api-calls/src/store/middleware/api.js:12-26 | the only dispatch before the request is the start action, made once and only for a truthy `onStart`; every other dispatch follows the request |
| ApiMiddleware.OneRequest | redux-api-calls/src/store/middleware/api.js:16-21 | exactly one request once the start step is passed, none otherwise; its base URL is the fixed constant and its url, method and data are the payload's |
| ApiMiddleware.FollowUpsAfterRequest | redux-api-calls/src/store/middleware/api.js:15-26 | after the request, exactly `{type: onSuccess, payload: data}` on `Ok(data)`, or exactly `{type: onError, payload: {error: message}}` on `Err(message)`; `onError` is used unchecked; a throwing success dispatch is caught and followed by the error action |
| ApiMiddleware.Middleware.constructor | redux-api-calls/src/store/middleware/api.js:3-5 | a freshly installed middleware has done nothing |
| ApiMiddleware.Middleware.Handle | redux-api-calls/src/store/middleware/api.js:6-27 | one call appends exactly the events of `Run` to the trace and settles as `Run` says |
| TaskRequests.LoadTasksSucceeds | redux-api-calls/src/store/tasks.js:107-117 | `loadTasks` on a response dispatches apiRequested, requests GET /tasks, then dispatches getTasks with the body |
| TaskRequests.LoadTasksFails | redux-api-calls/src/store/tasks.js:107-117 | `loadTasks` on a failure dispatches apiRequested, requests GET /tasks, then dispatches apiRequestFailed with `{error: message}` |
| TaskRequests.AddNewTaskFails | redux-api-calls/src/store/tasks.js:119-130 | `addNewTask` on a failure requests POST /tasks, then dispatches an error action whose type is `undefined` |
| TaskRequests.UpdateTaskSucceeds | redux-api-calls/src/store/tasks.js:132-141 | `updateTask` on a response requests PATCH /tasks/<id> with the task, then dispatches completeTask with the body |
| TaskRequests.DeleteTaskSucceeds | redux-api-calls/src/store/tasks.js:143-151 | `deleteTask` on a response requests DELETE /tasks/<id> without data, then dispatches removeTask with the body |

## Left out

- The HTTP request made with axios. Its outcome is the input `Outcome`. axios's own defaults, such as GET for an undefined method, are not modelled.
- `async`/`await` interleaving and several intents in flight at once. One call of the middleware is modelled as a sequential run to completion.
- The `console.log` calls (api.js lines 7 and 22, tasks.js line 105): output only.
- `store/store.js`, `index.js` and `middleware/log.js`: configuration, a demo script and a logging pass-through. `middleware/error.js` is not part of this model.
- How the store routes a dispatched action to a case reducer (`createSlice`) and feeds the middleware's dispatches back into the reducers. The middleware sees each `dispatch` only as returning or throwing.
- The `apiCallBegan` creator in `store/api.js` is not part of this model. It is taken to be a `createAction` with the type "api/callBegan". Only that type's difference from the slices' types matters.
- `utils/http.js` is not part of this model, nor is the commented-out thunk code or the unused `let id = 0` in tasks.js.
- Tasks.TaskSlice.GetTasks: takes the payload as a sequence. A non-array payload, which would turn `state.tasks` into a non-array, is not modelled.
- Tasks.TaskSlice.CompleteTask: with no match, the assignment to index -1 also adds a property named "-1" to the array. Only the element sequence is modelled.
- Tasks.CompleteAbsent: the same write to index -1 is stated on the element sequence only; the added "-1" property is not modelled.
- ApiMiddleware.Run: for a forwarded action the model says the call settles normally. The value `next(action)` returns, and any exception it throws, are not modelled.
- ApiMiddleware.Run: an `error.message` that is not a string is not modelled; messages are strings.
- Strict equality `===` on objects and arrays compares references. The model compares them structurally. Ids are primitives in this application.
- JavaScript numbers are modelled as unbounded integers: no fractions, NaN, or exponent notation when printing.
- Property reads see only a value's own fields. Inherited properties such as `length` are not modelled.
- The thunk wrapper `(dispatch) => dispatch(...)` around each action creator: the model returns the intent that the thunk dispatches.
