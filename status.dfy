/** The status records the hooks publish through `setState` when the
    `states` option is on (lib/use-async-effect.js:45-50, 92-126, 202-208,
    248-254, 264-274). A `setState` call replaces the whole record, so a
    property the published object leaves out reads as undefined. */
module Status {
  import opened JsValues

  /** How a task settled: fulfilled with a value or rejected with one. */
  datatype Outcome = Fulfilled(value: Value) | Rejected(reason: Value)

  predicate IsCancellation(o: Outcome) {
    o.Rejected? && IsCanceledError(o.reason)
  }

  /** The status of `useAsyncEffect`. */
  datatype EffectStatus = EffectStatus(done: bool, result: Value, error: Value, canceled: bool)

  const EffectInitial: EffectStatus := EffectStatus(false, Undefined, Undefined, false)

  /** The record the settle handlers of `useAsyncEffect` publish, or None
      when they publish nothing. A function result is kept as the effect's
      cleanup and is not published as the result; a falsy error is wrapped
      in `new Error(...)`; a cancellation with the unmounted code, and every
      outcome when states is off, publishes nothing. */
  function EffectSnapshot(o: Outcome, states: bool): (r: Option<EffectStatus>)
    ensures !states ==> r == None
    ensures r.Some? ==> r.value.done
  {
    if !states then None
    else match o
      case Fulfilled(v) =>
        if v.Fn? then Some(EffectStatus(true, Undefined, Undefined, false))
        else Some(EffectStatus(true, v, Undefined, false))
      case Rejected(err) =>
        if !IsCanceledError(err) then
          Some(EffectStatus(true, Undefined, if Truthy(err) then err else WrappedError(err), false))
        else if err.code != Unmounted then
          Some(EffectStatus(true, Undefined, err, true))
        else None
  }

  /** The effect snapshot by outcome kind, with states on: a success
      carries its result and is not canceled, a function result publishes
      the bare done record; a plain error is published as itself when truthy
      and wrapped in an Error when falsy, and is not canceled; a cancellation is published as canceled,
      carrying the cancellation error, unless its code is unmounted. */
  lemma EffectSnapshotCases(o: Outcome)
    ensures o.Fulfilled? && !o.value.Fn? ==>
      EffectSnapshot(o, true) == Some(EffectStatus(true, o.value, Undefined, false))
    ensures o.Fulfilled? && o.value.Fn? ==>
      EffectSnapshot(o, true) == Some(EffectStatus(true, Undefined, Undefined, false))
    ensures o.Rejected? && !IsCanceledError(o.reason) ==>
      EffectSnapshot(o, true) ==
        Some(EffectStatus(true, Undefined, if Truthy(o.reason) then o.reason else WrappedError(o.reason), false))
    ensures IsCancellation(o) ==>
      (EffectSnapshot(o, true).Some? <==> o.reason.code != Unmounted)
    ensures EffectSnapshot(o, true).Some? ==>
      (EffectSnapshot(o, true).value.canceled <==> IsCancellation(o))
  {
  }

  /** The status of `useAsyncCallback`. */
  datatype CallbackStatus = CallbackStatus(done: bool, pending: bool, result: Value, error: Value, canceled: bool)

  const CallbackInitial: CallbackStatus := CallbackStatus(false, false, Undefined, Undefined, false)

  /** Published when a call starts at once (not when a queued call starts). */
  const CallbackStarted: CallbackStatus := CallbackStatus(false, true, Undefined, Undefined, false)

  /** The record the `finally` handler of `useAsyncCallback` builds from a
      settlement: the value goes to `error` when rejected and to `result`
      otherwise, and `canceled` says whether the rejection is a
      cancellation. Unlike the effect, no cancellation code is exempt. */
  function CallbackSnapshot(o: Outcome): (r: CallbackStatus)
    ensures r.done && !r.pending
    ensures r.canceled <==> IsCancellation(o)
    ensures o.Rejected? ==> r.error == o.reason && r.result == Undefined
    ensures o.Fulfilled? ==> r.result == o.value && r.error == Undefined
  {
    var isRejected := o.Rejected?;
    var value := if isRejected then o.reason else o.value;
    CallbackStatus(true, false,
                   if isRejected then Undefined else value,
                   if isRejected then value else Undefined,
                   isRejected && IsCanceledError(value))
  }

  /** At most one of `result` and `error` is set, and a canceled snapshot
      never has a result. */
  lemma CallbackSnapshotExclusive(o: Outcome)
    ensures CallbackSnapshot(o).result == Undefined || CallbackSnapshot(o).error == Undefined
    ensures CallbackSnapshot(o).canceled ==> CallbackSnapshot(o).result == Undefined
    ensures CallbackSnapshot(o).canceled ==> IsCanceledError(CallbackSnapshot(o).error)
  {
  }
}
