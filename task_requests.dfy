/**
 * What the `api` middleware does with the intents the task action creators build:
 * which request goes out and which follow-up actions come back, when every dispatch
 * returns normally.
 */
module TaskRequests {
  import opened Js
  import opened Actions
  import opened Tasks
  import opened ApiMiddleware

  /** Every dispatch returns normally; the request settles with `outcome`. */
  function Quiet(outcome: Outcome): Env {
    Env(outcome, Normal(()), Normal(()), Normal(()))
  }

  /** `loadTasks` on a response: `apiRequested`, then GET /tasks, then `getTasks`
      carrying the response body, and the call settles normally. */
  lemma LoadTasksSucceeds(body: Value)
    ensures Run(LoadTasks(), Quiet(Ok(body))) == Effects(
              [Dispatch(Action(Str(ApiRequestedType), Undefined)),
               Send(Request(BaseURL, Str("/tasks"), Str("GET"), Undefined)),
               Dispatch(Action(Str(GetTasksType), body))],
              Normal(()))
  {
  }

  /** `loadTasks` on a failure: `apiRequested`, then GET /tasks, then `apiRequestFailed`
      carrying `{ error: message }`. */
  lemma LoadTasksFails(message: string)
    ensures Run(LoadTasks(), Quiet(Err(message))) == Effects(
              [Dispatch(Action(Str(ApiRequestedType), Undefined)),
               Send(Request(BaseURL, Str("/tasks"), Str("GET"), Undefined)),
               Dispatch(Action(Str(ApiRequestFailedType), Obj(map["error" := Str(message)])))],
              Normal(()))
  {
  }

  /** `addNewTask` has no `onStart` and no `onError`: the request is the first thing
      done, and a failure dispatches an error action whose type is `undefined`. */
  lemma AddNewTaskFails(task: Value, message: string)
    ensures Run(AddNewTask(task), Quiet(Err(message))) == Effects(
              [Send(Request(BaseURL, Str("/tasks"), Str("POST"), task)),
               Dispatch(Action(Undefined, Obj(map["error" := Str(message)])))],
              Normal(()))
  {
  }

  /** `updateTask` on a response: PATCH /tasks/<id> carrying the task, then
      `completeTask` carrying the response body. */
  lemma UpdateTaskSucceeds(task: Value, body: Value)
    requires !Nullish(task)
    ensures UpdateTask(task).Normal?
    ensures Run(UpdateTask(task).value, Quiet(Ok(body))) == Effects(
              [Send(Request(BaseURL, Str(TaskUrl(task).value), Str("PATCH"), task)),
               Dispatch(Action(Str(CompleteTaskType), body))],
              Normal(()))
  {
  }

  /** `deleteTask` on a response: DELETE /tasks/<id> without data, then `removeTask`
      carrying the response body. */
  lemma DeleteTaskSucceeds(task: Value, body: Value)
    requires !Nullish(task)
    ensures DeleteTask(task).Normal?
    ensures Run(DeleteTask(task).value, Quiet(Ok(body))) == Effects(
              [Send(Request(BaseURL, Str(TaskUrl(task).value), Str("DELETE"), Undefined)),
               Dispatch(Action(Str(RemoveTaskType), body))],
              Normal(()))
  {
  }
}
