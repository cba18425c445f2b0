/** JavaScript values as far as the hooks look at them: truthiness, the
    event test applied to cancel reasons, and c-promise2's cancellation
    errors with their reason codes. */
module JsValues {

  datatype Option<+T> = None | Some(value: T)

  /** A JavaScript value. `CanceledErr` is c-promise2's CanceledError with
      its `code`; `WrappedError` is `new Error(v)` built around a falsy
      rejection value; `Fn` is any function, identified by an opaque id. */
  datatype Value =
    | Undefined
    | Null
    | Bool(b: bool)
    | Num(x: real)
    | Str(s: string)
    | Fn(id: nat)
    | Arr(items: seq<Value>)
    | Obj(fields: map<string, Value>)
    | CanceledErr(code: Value)
    | WrappedError(cause: Value)

  /** The reserved reason codes, named after their identifiers (the
      declarations in use-async-effect.d.ts:59-62). E_REASON_UNMOUNTED comes
      from c-promise2; the other two are registered at
      lib/use-async-effect.js:5-8, where 'overflow' and 'restarted' are
      their messages. Only their being distinct matters to the model. */
  const Unmounted: Value := Str("E_REASON_UNMOUNTED")
  const Restarted: Value := Str("E_REASON_RESTART")
  const Overflow: Value := Str("E_REASON_QUEUE_OVERFLOW")

  /** `CanceledError.from(E_REASON_QUEUE_OVERFLOW)` */
  const OverflowError: Value := CanceledErr(Overflow)

  /** JavaScript truthiness (NaN is not among the modelled numbers). */
  predicate Truthy(v: Value) {
    match v
    case Undefined => false
    case Null => false
    case Bool(b) => b
    case Num(x) => x != 0.0
    case Str(s) => s != ""
    case _ => true
  }

  /** `isEvent`: a truthy object whose `type` property is truthy. Arrays,
      functions and error objects have no `type` property here. */
  predicate IsEvent(v: Value) {
    v.Obj? && "type" in v.fields && Truthy(v.fields["type"])
  }

  /** The reason actually handed to `promise.cancel`: an event object (a
      cancel function used directly as a DOM handler) becomes undefined. */
  function CancelReason(reason: Value): (r: Value)
    ensures IsEvent(reason) ==> r == Undefined
    ensures !IsEvent(reason) ==> r == reason
    ensures !IsEvent(r)
  {
    if IsEvent(reason) then Undefined else reason
  }

  /** A c-promise2 task created by one call; object identity is modelled by
      a number that is never reused. */
  type TaskId = nat

  /** One `promise.cancel(reason)` request sent to a task. */
  datatype CancelRequest = CancelRequest(task: TaskId, reason: Value)

  /** `CanceledError.isCanceledError` */
  predicate IsCanceledError(v: Value) {
    v.CanceledErr?
  }
}
