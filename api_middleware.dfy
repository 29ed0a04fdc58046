/**
 * The `api` middleware (store/middleware/api.js). An action that is not an
 * `apiCallBegan` intent goes to `next`; an intent dispatches its optional start
 * action, issues one HTTP request built from its payload, and dispatches a success
 * action with the response body or an error action with the error's message.
 *
 * The request's outcome and the behaviour of `dispatch` (which runs the reducers and
 * may throw) are inputs, collected in an `Env`. Everything the middleware does is
 * recorded, in order, as a trace of events.
 */
module ApiMiddleware {
  import opened Js
  import opened Actions

  /** The `baseURL` of every request. */
  const BaseURL: string := "http://localhost:5001/api"

  /** The configuration handed to `axios.request`. */
  datatype Request = Request(baseURL: string, url: Value, httpMethod: Value, data: Value)

  /** What the middleware does: pass an action to `next`, dispatch an action to the
      store, or issue a request. */
  datatype Event =
    | Forward(action: Action)
    | Dispatch(action: Action)
    | Send(request: Request)

  /** How the awaited request settles: with `response.data`, or by throwing an error
      with a message (transport failure or an error status). */
  datatype Outcome = Ok(data: Value) | Err(message: string)

  /** The world the middleware runs in: the request's outcome, and whether each of
      the three dispatches it may make returns or throws. */
  datatype Env = Env(
    outcome: Outcome,
    startDispatch: Result<()>,
    successDispatch: Result<()>,
    errorDispatch: Result<()>)

  /** The trace of one call of the middleware and how its returned promise settles
      (`Normal` = fulfilled, `Throw` = rejected). */
  datatype Effects = Effects(events: seq<Event>, completion: Result<()>)

  /** The six fields `const { url, method, data, onStart, onSuccess, onError } = action.payload` reads. */
  datatype Fields = Fields(url: Value, httpMethod: Value, data: Value,
                           onStart: Value, onSuccess: Value, onError: Value)

  function Field(payload: Value, key: string): Value
    requires !Nullish(payload)
  {
    Prop(payload, key).value
  }

  function Destructure(payload: Value): Fields
    requires !Nullish(payload)
  {
    Fields(Field(payload, "url"), Field(payload, "method"), Field(payload, "data"),
           Field(payload, "onStart"), Field(payload, "onSuccess"), Field(payload, "onError"))
  }

  /** The TypeError of destructuring a nullish payload. */
  function DestructureError(payload: Value): string {
    "Cannot destructure property 'url' of 'action.payload' as it is " + ToStr(payload) + "."
  }

  /** `{ type: onStart }`: no payload. */
  function StartAction(onStart: Value): Action {
    Action(onStart, Undefined)
  }

  /** `{ type: onError, payload: { error: message } }`. */
  function ErrorAction(onError: Value, message: string): Action {
    Action(onError, Obj(map["error" := Str(message)]))
  }

  /* ----- Reading a trace ----- */

  function Forwarded(events: seq<Event>): seq<Action> {
    if events == [] then []
    else (if events[0].Forward? then [events[0].action] else []) + Forwarded(events[1..])
  }

  function Dispatched(events: seq<Event>): seq<Action> {
    if events == [] then []
    else (if events[0].Dispatch? then [events[0].action] else []) + Dispatched(events[1..])
  }

  function Requests(events: seq<Event>): seq<Request> {
    if events == [] then []
    else (if events[0].Send? then [events[0].request] else []) + Requests(events[1..])
  }

  /** The events after the first request. */
  function AfterRequest(events: seq<Event>): seq<Event> {
    if events == [] then []
    else if events[0].Send? then events[1..]
    else AfterRequest(events[1..])
  }

  /** Reading a trace made of two parts reads each part in turn. */
  lemma {:induction false} ProjectionsAppend(a: seq<Event>, b: seq<Event>)
    ensures Forwarded(a + b) == Forwarded(a) + Forwarded(b)
    ensures Dispatched(a + b) == Dispatched(a) + Dispatched(b)
    ensures Requests(a + b) == Requests(a) + Requests(b)
    ensures Requests(a) == [] ==> AfterRequest(a + b) == AfterRequest(b)
  {
    if a != [] {
      assert (a + b)[0] == a[0];
      assert (a + b)[1..] == a[1..] + b;
      ProjectionsAppend(a[1..], b);
    } else {
      assert a + b == b;
    }
  }

  /** A trace without `Forward` events passes nothing to `next`. */
  lemma {:induction false} NothingForwarded(events: seq<Event>)
    requires forall i :: 0 <= i < |events| ==> !events[i].Forward?
    ensures Forwarded(events) == []
  {
    if events != [] {
      NothingForwarded(events[1..]);
    }
  }

  /** The middleware gets as far as issuing the request: the action is an intent, its
      payload can be destructured, and a start dispatch, if made, returned. */
  predicate IssuesRequest(action: Action, env: Env) {
    IsIntent(action) && !Nullish(action.payload) &&
    (!Truthy(Destructure(action.payload).onStart) || env.startDispatch.Normal?)
  }

  /** The start dispatch, made only for a truthy `onStart`. */
  function StartEvents(f: Fields): seq<Event> {
    if Truthy(f.onStart) then [Dispatch(StartAction(f.onStart))] else []
  }

  /** `axios.request({ baseURL, url, method, data })`. */
  function RequestOf(f: Fields): Request {
    Request(BaseURL, f.url, f.httpMethod, f.data)
  }

  /** The dispatches made once the awaited request has settled: the success action,
      followed by the error action when the success dispatch throws inside the `try`;
      or the error action alone when the request fails. */
  function FollowUps(f: Fields, env: Env): seq<Event> {
    match env.outcome
    case Ok(data) =>
      if env.successDispatch.Normal? then [Dispatch(Action(f.onSuccess, data))]
      else [Dispatch(Action(f.onSuccess, data)), Dispatch(ErrorAction(f.onError, env.successDispatch.message))]
    case Err(m) => [Dispatch(ErrorAction(f.onError, m))]
  }

  /** One call of the middleware on `action`. */
  function Run(action: Action, env: Env): (r: Effects)
    // Pass-through: anything but an intent goes to `next` once, unchanged, and nothing else happens.
    ensures !IsIntent(action) ==> r.events == [Forward(action)] && r.completion.Normal?
    // A payload that cannot be destructured rejects before anything happens.
    ensures IsIntent(action) && Nullish(action.payload) ==> r.events == [] && r.completion.Throw?
  {
    if !IsIntent(action) then Effects([Forward(action)], Normal(()))
    else if Nullish(action.payload) then Effects([], Throw(DestructureError(action.payload)))
    else
      var f := Destructure(action.payload);
      if Truthy(f.onStart) && env.startDispatch.Throw? then Effects(StartEvents(f), env.startDispatch)
      else
        var completion :=
          if env.outcome.Ok? && env.successDispatch.Normal? then Normal(()) else env.errorDispatch;
        Effects(StartEvents(f) + [Send(RequestOf(f))] + FollowUps(f, env), completion)
  }

  /** An intent never reaches `next`. */
  lemma IntentNeverForwarded(action: Action, env: Env)
    requires IsIntent(action)
    ensures Forwarded(Run(action, env).events) == []
  {
    NothingForwarded(Run(action, env).events);
  }

  /** The start action `{ type: onStart }` is the first thing done, and happens only for
      a truthy `onStart`; without one the request comes first. A start dispatch that
      throws rejects the call before any request. */
  lemma StartComesFirst(action: Action, env: Env)
    requires IsIntent(action) && !Nullish(action.payload)
    ensures var events := Run(action, env).events;
            var f := Destructure(action.payload);
            |events| > 0 &&
            (Truthy(f.onStart) ==> events[0] == Dispatch(StartAction(f.onStart))) &&
            (!Truthy(f.onStart) ==> events[0] == Send(RequestOf(f)))
    ensures !IssuesRequest(action, env) ==>
              Run(action, env) ==
                Effects([Dispatch(StartAction(Destructure(action.payload).onStart))], env.startDispatch)
  {
  }

  /** Before the request the middleware dispatches the start action once, for a truthy
      `onStart`, and nothing else; every other dispatch comes after the request. */
  lemma OnlyStartBeforeRequest(action: Action, env: Env)
    requires IssuesRequest(action, env)
    ensures var f := Destructure(action.payload);
            var events := Run(action, env).events;
            Dispatched(events) ==
              (if Truthy(f.onStart) then [StartAction(f.onStart)] else []) +
              Dispatched(AfterRequest(events))
  {
  }

  /** Exactly one request when the middleware gets that far, none otherwise; it carries
      the payload's url, method and data to the fixed base URL. */
  lemma OneRequest(action: Action, env: Env)
    ensures IssuesRequest(action, env) ==>
              Requests(Run(action, env).events) == [RequestOf(Destructure(action.payload))]
    ensures !IssuesRequest(action, env) ==> Requests(Run(action, env).events) == []
  {
    var events := Run(action, env).events;
    if IssuesRequest(action, env) {
      var f := Destructure(action.payload);
      NoRequests(StartEvents(f));
      NoRequests(FollowUps(f, env));
      ProjectionsAppend(StartEvents(f), [Send(RequestOf(f))]);
      ProjectionsAppend(StartEvents(f) + [Send(RequestOf(f))], FollowUps(f, env));
    } else {
      NoRequests(events);
    }
  }

  /** After the request: exactly one success action `{ type: onSuccess, payload: data }`
      on a response; exactly one error action `{ type: onError, payload: { error } }` on
      a failure; and both when the success dispatch itself throws. */
  lemma FollowUpsAfterRequest(action: Action, env: Env)
    requires IssuesRequest(action, env)
    ensures var f := Destructure(action.payload);
            var after := Dispatched(AfterRequest(Run(action, env).events));
            match env.outcome
            case Ok(data) =>
              if env.successDispatch.Normal? then
                after == [Action(f.onSuccess, data)] && Run(action, env).completion == Normal(())
              else
                after == [Action(f.onSuccess, data), ErrorAction(f.onError, env.successDispatch.message)] &&
                Run(action, env).completion == env.errorDispatch
            case Err(m) =>
              after == [ErrorAction(f.onError, m)] && Run(action, env).completion == env.errorDispatch
  {
    var f := Destructure(action.payload);
    var events := Run(action, env).events;
    NoRequests(StartEvents(f));
    ProjectionsAppend(StartEvents(f), [Send(RequestOf(f))] + FollowUps(f, env));
    assert events == StartEvents(f) + ([Send(RequestOf(f))] + FollowUps(f, env));
    assert AfterRequest([Send(RequestOf(f))] + FollowUps(f, env)) == FollowUps(f, env);
    DispatchesOnly(FollowUps(f, env));
  }

  /** A trace without `Send` events issues no request. */
  lemma {:induction false} NoRequests(events: seq<Event>)
    requires forall i :: 0 <= i < |events| ==> !events[i].Send?
    ensures Requests(events) == []
  {
    if events != [] {
      NoRequests(events[1..]);
    }
  }

  /** A trace of dispatches reads back as the actions dispatched, in order. */
  lemma {:induction false} DispatchesOnly(events: seq<Event>)
    requires forall i :: 0 <= i < |events| ==> events[i].Dispatch?
    ensures |Dispatched(events)| == |events|
    ensures forall i :: 0 <= i < |events| ==> Dispatched(events)[i] == events[i].action
  {
    if events != [] {
      DispatchesOnly(events[1..]);
    }
  }

  /** The middleware as installed in the store: every call appends what it does to `trace`. */
  class Middleware {
    var trace: seq<Event>

    constructor ()
      ensures trace == []
    {
      trace := [];
    }

    /** `async (action) => { ... }` run to completion. */
    method Handle(action: Action, env: Env) returns (c: Result<()>)
      modifies this
      ensures trace == old(trace) + Run(action, env).events
      ensures c == Run(action, env).completion
    {
      if !IsIntent(action) {
        trace := trace + [Forward(action)];
        return Normal(());
      }
      if Nullish(action.payload) {
        return Throw(DestructureError(action.payload));
      }
      var f := Destructure(action.payload);
      if Truthy(f.onStart) {
        trace := trace + [Dispatch(StartAction(f.onStart))];
        if env.startDispatch.Throw? {
          return env.startDispatch;
        }
      }
      trace := trace + [Send(Request(BaseURL, f.url, f.httpMethod, f.data))];
      var caught: string;
      match env.outcome {
        case Ok(data) =>
          trace := trace + [Dispatch(Action(f.onSuccess, data))];
          if env.successDispatch.Normal? {
            return Normal(());
          }
          caught := env.successDispatch.message;
        case Err(m) =>
          caught := m;
      }
      trace := trace + [Dispatch(ErrorAction(f.onError, caught))];
      c := env.errorDispatch;
    }
  }
}
