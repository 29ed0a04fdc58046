/**
 * Redux actions: plain objects `{ type, payload }`. The `apiCallBegan` action creator
 * lives in a module (`store/api.js`) that is not part of this model; it is taken to be
 * a Redux Toolkit `createAction`, which wraps its argument as the payload of an
 * action of one fixed type.
 */
module Actions {
  import opened Js

  /** An action; `tag` is its Redux `type` property, which may be any value
      (an `undefined` type is possible when a creator omits a tag). An action
      without a payload has payload `Undefined`. */
  datatype Action = Action(tag: Value, payload: Value)

  /** The type string of `apiCallBegan`. Only its being distinct from the slices'
      own action types matters to the model. */
  const CallBeganType: string := "api/callBegan"

  /** `apiCallBegan(payload)`. */
  function CallBegan(payload: Value): (a: Action)
    ensures IsIntent(a) && a.payload == payload
  {
    Action(Str(CallBeganType), payload)
  }

  /** The test `action.type === apiCallBegan.type`. */
  predicate IsIntent(a: Action) {
    a.tag == Str(CallBeganType)
  }
}
