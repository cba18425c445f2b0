/** `useAsyncEffect` (lib/use-async-effect.js:38-135): one effect slot,
    the reference `ref.current` with the promise of the latest run, the
    status record, and the cleanup functions the runs' tasks fulfilled with.
    The pure functions give each step; class Effect performs them in place. */
module EffectHook {
  import opened JsValues
  import opened HookOptions
  import opened Status

  /** The slot and what it has done so far.
      - initialized: `ref.current` has been created (the first effect run)
      - promise: `ref.current.promise`, cleared by the cancel function
      - run: the task of the run whose cleanup React holds (None after a
        skipped first run, or once that cleanup ran)
      - cleanups: the function each task fulfilled with (its `cb`)
      - status: the last published status record
      - nextId: the identity the next task gets
      - cancels: every `promise.cancel(reason)` request sent so far
      - invoked: the cleanup functions called, in order */
  datatype Slot = Slot(
    initialized: bool,
    promise: Option<TaskId>,
    run: Option<TaskId>,
    cleanups: map<TaskId, Value>,
    status: EffectStatus,
    nextId: TaskId,
    cancels: seq<CancelRequest>,
    invoked: seq<Value>)

  const Fresh: Slot := Slot(false, None, None, map[], EffectInitial, 0, [], [])

  /** The set-up of `useAsyncEffect`: the options are read without any
      check, and a first argument that is not a generator function throws. */
  function Setup(opts: OptionsArg, isGenerator: bool): (r: Result<EffectConfig>)
    ensures r.Fail? <==> !isGenerator
    ensures r.Fail? ==> r.error == GeneratorRequired
    ensures r.Ok? ==> r.value == EffectOptions(opts)
  {
    if isGenerator then Ok(EffectOptions(opts)) else Fail(GeneratorRequired)
  }

  /** The effect body: the first run creates `ref.current` and, with
      skipFirst, stops there; every other run starts a new task and stores
      it in the slot. Returns the task started, if any. */
  function Run(c: EffectConfig, s: Slot): (Slot, Option<TaskId>) {
    if !s.initialized && c.skipFirst then
      (s.(initialized := true, run := None), None)
    else
      var t := s.nextId;
      (s.(initialized := true, promise := Some(t), run := Some(t), nextId := t + 1), Some(t))
  }

  /** The cancel function: when the slot holds a task, clear the slot and
      then send the cancel request, with an event reason replaced by
      undefined; otherwise do nothing and return false. */
  function Cancel(s: Slot, reason: Value): (Slot, bool) {
    if s.initialized && s.promise.Some? then
      (s.(promise := None,
          cancels := s.cancels + [CancelRequest(s.promise.value, CancelReason(reason))]), true)
    else (s, false)
  }

  /** The settle handlers of task `t`: a function result is kept as the
      run's cleanup, and the snapshot, if any, is published. */
  function Settle(c: EffectConfig, s: Slot, t: TaskId, o: Outcome): Slot {
    var cleanups := if o.Fulfilled? && o.value.Fn? then s.cleanups[t := o.value] else s.cleanups;
    var snap := EffectSnapshot(o, c.states);
    s.(cleanups := cleanups, status := if snap.Some? then snap.value else s.status)
  }

  /** The cleanup React holds for the last run: cancel with the unmounted
      reason, then call the run's cleanup function if its task has already
      fulfilled with one. */
  function Cleanup(s: Slot): Slot {
    if s.run.None? then s
    else
      var s1 := Cancel(s, Unmounted).0;
      var t := s.run.value;
      s1.(run := None, invoked := if t in s.cleanups then s.invoked + [s.cleanups[t]] else s.invoked)
  }

  datatype EffectEvent =
    | RunEvent
    | CancelEvent(reason: Value)
    | SettleEvent(t: TaskId, o: Outcome)
    | CleanupEvent

  function Apply(c: EffectConfig, s: Slot, e: EffectEvent): Slot {
    match e
    case RunEvent => Run(c, s).0
    case CancelEvent(reason) => Cancel(s, reason).0
    case SettleEvent(t, o) => Settle(c, s, t, o)
    case CleanupEvent => Cleanup(s)
  }

  function Replay(c: EffectConfig, s: Slot, es: seq<EffectEvent>): Slot
    decreases |es|
  {
    if es == [] then s else Replay(c, Apply(c, s, es[0]), es[1..])
  }

  predicate Requested(s: Slot, t: TaskId) {
    exists i :: 0 <= i < |s.cancels| && s.cancels[i].task == t
  }

  /** The slot's invariant: every request and stored task is one the slot
      created, the slot holds the task of the current run or nothing, no
      task received two requests, the task in the slot received none, and a
      run implies that `ref.current` exists. */
  predicate SlotInv(s: Slot) {
    && (forall i :: 0 <= i < |s.cancels| ==> s.cancels[i].task < s.nextId)
    && (forall i, j :: 0 <= i < j < |s.cancels| ==> s.cancels[i].task != s.cancels[j].task)
    && (s.run.Some? ==> s.run.value < s.nextId)
    && (s.promise.Some? ==> s.promise == s.run && !Requested(s, s.promise.value))
    && (s.run.Some? ==> s.initialized)
  }

  /** Cancel returns true exactly when the slot held a task; that task
      then gets one request with the event-filtered reason and the slot is
      empty; otherwise nothing changes. */
  lemma CancelSends(s: Slot, reason: Value)
    requires SlotInv(s)
    ensures Cancel(s, reason).1 <==> s.promise.Some?
    ensures Cancel(s, reason).0.promise.None?
    ensures Cancel(s, reason).1 ==>
      Cancel(s, reason).0.cancels == s.cancels + [CancelRequest(s.promise.value, CancelReason(reason))]
    ensures !Cancel(s, reason).1 ==> Cancel(s, reason).0 == s
  {
  }

  /** Cancelling twice sends one request: the second call returns false and
      changes nothing. */
  lemma CancelIdempotent(s: Slot, r1: Value, r2: Value)
    ensures Cancel(Cancel(s, r1).0, r2) == (Cancel(s, r1).0, false)
  {
  }

  /** With skipFirst the first run starts nothing and every later run
      starts a new task; without it every run does. */
  lemma SkipFirstSkipsOnlyFirst(c: EffectConfig, s: Slot)
    ensures Run(c, s).1.None? <==> !s.initialized && c.skipFirst
    ensures Run(c, s).0.initialized
    ensures Run(c, s).1.Some? ==>
      Run(c, s).1.value == s.nextId && Run(c, s).0.promise == Some(s.nextId)
  {
  }

  /** The cancellation an unmount or deps change sends is never published,
      whatever the states option; any other cancellation is, when states
      is on. */
  lemma UnmountedCancelIsSilent(c: EffectConfig, s: Slot, t: TaskId, code: Value)
    ensures Settle(c, s, t, Rejected(CanceledErr(code))).status ==
      if c.states && code != Unmounted then EffectStatus(true, Undefined, CanceledErr(code), true)
      else s.status
  {
  }

  /** A cleanup cancels the run's task with the unmounted reason unless the
      user already cancelled it, and calls the run's cleanup function
      exactly when the run's task has fulfilled with one. */
  lemma CleanupCancelsRun(s: Slot)
    requires SlotInv(s) && s.run.Some?
    ensures var r := Cleanup(s);
      && r.run.None? && r.promise.None?
      && (s.promise.Some? ==> r.cancels == s.cancels + [CancelRequest(s.run.value, Unmounted)])
      && (s.promise.None? ==> r.cancels == s.cancels)
      && r.invoked == (if s.run.value in s.cleanups then s.invoked + [s.cleanups[s.run.value]] else s.invoked)
      && Cleanup(r) == r
  {
  }

  lemma {:induction false} StepInv(c: EffectConfig, s: Slot, e: EffectEvent)
    requires SlotInv(s)
    ensures SlotInv(Apply(c, s, e))
  {
    match e
    case RunEvent =>
    case CancelEvent(reason) =>
    case SettleEvent(t, o) =>
      assert Settle(c, s, t, o).cancels == s.cancels;
    case CleanupEvent =>
  }

  /** Whatever happens to a slot, no task is ever asked to cancel twice:
      the cancel function clears the slot before it sends. */
  lemma {:induction false} NoDoubleCancel(c: EffectConfig, s: Slot, es: seq<EffectEvent>)
    requires SlotInv(s)
    ensures SlotInv(Replay(c, s, es))
    ensures var r := Replay(c, s, es);
      forall i, j :: 0 <= i < j < |r.cancels| ==> r.cancels[i].task != r.cancels[j].task
    decreases |es|
  {
    if es != [] {
      StepInv(c, s, es[0]);
      NoDoubleCancel(c, Apply(c, s, es[0]), es[1..]);
    }
  }

  lemma FreshInv()
    ensures SlotInv(Fresh)
  {
  }

  /** One `useAsyncEffect` call site. */
  class Effect {
    const cfg: EffectConfig
    var initialized: bool
    var promise: Option<TaskId>
    var run: Option<TaskId>
    var cleanups: map<TaskId, Value>
    var status: EffectStatus
    var nextId: TaskId
    var cancels: seq<CancelRequest>
    var invoked: seq<Value>

    function Model(): Slot
      reads this
    {
      Slot(initialized, promise, run, cleanups, status, nextId, cancels, invoked)
    }

    constructor (c: EffectConfig)
      ensures cfg == c && Model() == Fresh
    {
      cfg := c;
      initialized, promise, run, cleanups := false, None, None, map[];
      status, nextId, cancels, invoked := EffectInitial, 0, [], [];
    }

    method RunEffect() returns (started: Option<TaskId>)
      modifies this
      ensures (Model(), started) == Run(cfg, old(Model()))
    {
      var first := !initialized;
      initialized := true;
      if first && cfg.skipFirst {
        run := None;
        return None;
      }
      var t := nextId;
      promise, run, nextId := Some(t), Some(t), t + 1;
      started := Some(t);
    }

    method CancelEffect(reason: Value) returns (sent: bool)
      modifies this
      ensures (Model(), sent) == Cancel(old(Model()), reason)
    {
      if initialized && promise.Some? {
        var p := promise.value;
        promise := None;
        cancels := cancels + [CancelRequest(p, CancelReason(reason))];
        return true;
      }
      return false;
    }

    method SettleTask(t: TaskId, o: Outcome)
      modifies this
      ensures Model() == Settle(cfg, old(Model()), t, o)
    {
      if o.Fulfilled? && o.value.Fn? {
        cleanups := cleanups[t := o.value];
      }
      var snap := EffectSnapshot(o, cfg.states);
      if snap.Some? {
        status := snap.value;
      }
    }

    method CleanupEffect()
      modifies this
      ensures Model() == Cleanup(old(Model()))
    {
      if run.None? {
        return;
      }
      var t := run.value;
      var _ := CancelEffect(Unmounted);
      run := None;
      if t in cleanups {
        invoked := invoked + [cleanups[t]];
      }
    }
  }

  /** `useAsyncEffect(generator, options)` with a generator of the given
      kind: the generator check, then a fresh slot. */
  method UseAsyncEffect(opts: OptionsArg, isGenerator: bool) returns (r: Result<Effect>)
    ensures r.Fail? <==> Setup(opts, isGenerator).Fail?
    ensures r.Fail? ==> r.error == GeneratorRequired
    ensures r.Ok? ==> fresh(r.value) && r.value.cfg == EffectOptions(opts) && r.value.Model() == Fresh
  {
    var c := Setup(opts, isGenerator);
    if c.Fail? {
      return Fail(c.error);
    }
    var e := new Effect(c.value);
    return Ok(e);
  }
}
