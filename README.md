# use-async-effect: a verified model of the hooks' bookkeeping

`use-async-effect` provides two React hooks that drive cancellable
generator-based tasks (c-promise2 promises).

- `useAsyncEffect(generator, options)` runs one task per effect run. It keeps
  that task in a single slot, `ref.current.promise`. It returns a cancel
  function and, with `states`, exposes `{done, result, error, canceled}`.
- `useAsyncCallback(generator, options)` returns a decorated function. Each
  owner of the function keeps a record `current`:
  - `promises`, the tasks in flight;
  - `queue`, the deferred starts;
  - `pending`, a counter of started tasks.

  On every call the decorated function runs four steps in this order:
  1. It looks up an existing task with equal arguments (`combine`).
  2. It rejects the call when the bounded queue overflows.
  3. It cancels the previous tasks (`cancelPrevious`).
  4. It starts the new task at once, or queues its start when
     `pending === threads`.

  Each task's `finally` handler decrements the counter and untracks the
  task. It then runs the oldest queued start and, with `states`, publishes
  `{done, pending, result, error, canceled}`. `cancel(reason)` cancels every
  tracked task and empties the list.

## Project layout

- `values.dfy` (module `JsValues`): JavaScript values as the hooks see them.
  This covers truthiness, `isEvent`, cancellation errors with their codes
  (`E_REASON_UNMOUNTED`, `E_REASON_RESTART`, `E_REASON_QUEUE_OVERFLOW`, modelled as distinct opaque codes) and cancel requests.
- `options.dfy` (module `HookOptions`): the destructuring, defaulting and
  set-up checks of both hooks. JavaScript numbers are `real` values, or
  `NonFinite` for anything `Number.isFinite` refuses.
- `status.dfy` (module `Status`): the status records built from a settlement
  outcome.
- `admission.dfy` (module `Admission`): the `useAsyncCallback` owner as a
  state machine on values. It has one function per step (`Call`, `Settle`,
  `CancelAll`) and an event and trace layer for unmount and deps changes.
  The state also records each task's own state (started, or waiting for its
  deferred start). The hook does not keep this itself, but the concurrency
  statements need it.
- `admission_lemmas.dfy` (module `AdmissionLemmas`): the owner invariant, its
  preservation by every event, and the bounds on `pending` and on the number
  of running tasks. It also holds a concrete trace showing that the
  running-task bound fails when a queued task is cancelled.
- `step_lemmas.dfy` (module `StepLemmas`): the effect of a single call,
  settlement or bulk cancel, and the behaviour of bursts of calls.
- `callback.dfy` (module `CallbackHook`): class `Owner`. Its fields are the
  `current` record and the task states. Its methods perform the steps in
  place, each specified by the matching `Admission` function. The combine
  scan and the bulk cancel are loops, as in the source.
- `effect.dfy` (module `EffectHook`): the `useAsyncEffect` slot as pure step
  functions with their invariant, and class `Effect`, which performs those
  steps in place.

Where the code, its doc comments and its tests disagree, the model follows
the code:

- **Default `queueSize`.** It is -1, meaning unbounded
  (lib/use-async-effect.js:181). The doc comment at line 158 and the type
  declarations say 0.
- **Overflow test.** The overflow check subtracts both `promises.length` and
  `pending` from `queueSize` (line 230). With `{queueSize: 1, threads: 1}`,
  only the first of several calls is admitted (`UnitQueueAdmitsOnlyFirst`).
  The test at test/src/index.js:584-603 expects two executions.
- **Check order.** The overflow check runs after the combine lookup and
  before cancel-previous. So a rejected call cancels nothing, except the
  restart request that combine with `cancelPrevious` sends first.
- **Callback status.** It is published for every cancellation code while
  the owner is mounted. Only the effect's handler (line 121) exempts the
  unmounted code.
- **`threads: -1` with `cancelPrevious`.** It passes the multithreading
  check (line 189) and fails the sign check (line 193).
- **Cancelling a queued task.** Its `finally` still decrements `pending`
  and shifts the queue, although its start never incremented `pending`
  (lines 240-244 and 259-262). The counter stays between 0 and a whole
  `threads` on every trace. The number of running tasks, however, can then
  exceed `threads` (`QueuedCancelExceedsLimit`). So the concurrency limit
  (`ConcurrencyLimit`) is proved only for traces in which no task is
  cancelled while it waits.
- **`threads: 0` with a bounded queue.** Every admitted call is queued
  (`ZeroThreadsQueue`), and such a queued task starts only when another task
  settles. No liveness is claimed there.

## Model

| member | source | states |
|---|---|---|
| JsValues.CancelReason | lib/use-async-effect.js:14 | an event-like reason (an object with a truthy `type`) becomes undefined and any other reason is passed on unchanged; the result is never event-like |
| HookOptions.Fields | lib/use-async-effect.js:176-184 | an array options argument becomes `{deps}`; null, undefined and primitives give no properties; an object gives its own |
| HookOptions.CallbackOptions | lib/use-async-effect.js:164-200 | a non-object options argument is the only cause of the options-type error; every accepted configuration has threads >= 0, queueSize >= -1, and exactly one thread under cancelPrevious or states; an explicit threads or queueSize that is accepted is kept as given; the boolean options and deps pass through |
| HookOptions.CallbackOptionsAccepts | lib/use-async-effect.js:186-200 | set-up succeeds if and only if the options are an object (or array or nullish), an explicit threads is a finite number >= 0 without cancelPrevious, queueSize is finite and >= -1, and states goes with one effective thread |
| HookOptions.CancelPreviousRejectsExplicitThreads | lib/use-async-effect.js:189-195 | any explicit threads with cancelPrevious throws: -1 with the sign error, every other value with the multithreading error |
| HookOptions.Defaults | lib/use-async-effect.js:181-187 | an omitted threads becomes 1 under cancelPrevious or states and 0 otherwise; an omitted queueSize becomes -1 |
| HookOptions.StatesNeedOneThread | lib/use-async-effect.js:305-308 | with states, an accepted configuration has exactly one thread, and an explicit thread count other than 1 is rejected |
| HookOptions.ArrayOptionsAreDeps | lib/use-async-effect.js:184 | an array of deps, or no options, gives no combining, no thread limit and an unbounded queue |
| HookOptions.EffectOptions | lib/use-async-effect.js:39-43 | the effect hook takes deps, skipFirst and states with their defaults and never rejects its options |
| Status.EffectSnapshot | lib/use-async-effect.js:92-126 | nothing is published with states off; every published record is done |
| Status.EffectSnapshotCases | lib/use-async-effect.js:92-126 | a non-function result is published as the result and not canceled; a function result publishes only done; a plain error is published as itself when truthy and wrapped in an Error when falsy, and not canceled; a cancellation is published, as canceled, exactly when its code is not unmounted |
| Status.CallbackSnapshot | lib/use-async-effect.js:264-274 | a settled record is done and not pending, carries the value as error when rejected and as result otherwise, and is canceled exactly when the rejection is a cancellation error |
| Status.CallbackSnapshotExclusive | lib/use-async-effect.js:270-272 | at most one of result and error is set, and a canceled record carries the cancellation error and no result |
| Admission.LastMatch | lib/use-async-effect.js:216-227 | the combine lookup yields the last index whose recorded arguments equal the call's, with no match after it, or -1 when none matches |
| Admission.CancelEach | lib/use-async-effect.js:301 | one request per task with the given reason, in list order |
| Admission.IndexOf | lib/use-async-effect.js:17 | the first position of the element, and -1 exactly when it is absent |
| Admission.RemoveElement | lib/use-async-effect.js:16-19 | reports whether the element was present; if absent the list is unchanged; if present exactly its first occurrence is spliced out, so the length drops by one and the multiset loses one copy |
| AdmissionLemmas.InitInv | lib/use-async-effect.js:168-174 | the initial record satisfies the owner invariant |
| AdmissionLemmas.CallInv | lib/use-async-effect.js:212-297 | a call preserves the invariant: tracked tasks are distinct and live, args only for live tasks and only with combine, each waiting task has one queue entry, the counter equals the running tasks minus the stale queue entries and is never negative, and is at most a whole thread limit |
| AdmissionLemmas.CancelAllInv | lib/use-async-effect.js:299-303 | a bulk cancel preserves the invariant and leaves the counter and the running tasks alone |
| AdmissionLemmas.SettleInv | lib/use-async-effect.js:258-275 | a settlement preserves the invariant, including the non-negative counter, and creates no stale queue entry when the settling task was running |
| AdmissionLemmas.EventInv | lib/use-async-effect.js:212-332 | every event (call, settlement, cancel, deps change, unmount) preserves the invariant |
| AdmissionLemmas.InvAlongTrace | lib/use-async-effect.js:212-303 | every state reached by a valid trace from a state satisfying the invariant satisfies it |
| AdmissionLemmas.PendingNeverExceedsThreads | lib/use-async-effect.js:240-262 | on every trace from the initial record, 0 <= pending <= threads for a whole thread limit |
| AdmissionLemmas.OrderlyBound | lib/use-async-effect.js:238-262 | along a trace in which only started tasks settle, the invariant holds, no stale entry appears and no more tasks run than threads |
| AdmissionLemmas.ConcurrencyLimit | lib/use-async-effect.js:238-262 | from the initial record, with no task cancelled while queued, at most threads tasks run at once, and none at all when threads is 0 |
| AdmissionLemmas.OneThreadOptions | lib/use-async-effect.js:176-200 | the options object `{threads: 1}` gives one thread, no combine and an unbounded queue |
| AdmissionLemmas.QueuedCancelExceedsLimit | lib/use-async-effect.js:240-262 | with one thread, three calls and then the cancellation of the queued third task leave two tasks running |
| StepLemmas.OverflowRejects | lib/use-async-effect.js:216-232 | when no combine hit returns early, a call is rejected exactly when queueSize is not -1 and queueSize - promises - pending <= 0; it is rejected with the overflow error, and nothing changes except the restart request a combine hit under cancelPrevious has already sent |
| StepLemmas.UnboundedQueueNeverOverflows | lib/use-async-effect.js:230 | with queueSize -1 no call is rejected |
| StepLemmas.ThreadedAdmission | lib/use-async-effect.js:238-279 | on the counted path an admitted task is queued exactly when pending equals threads, with the queue extended at its end and pending unchanged, and otherwise starts with pending + 1; either way it is appended to the list (emptied first by cancel-previous) and its arguments are recorded with combine; a call that starts at once publishes the pending record with states on, a queued one publishes nothing |
| StepLemmas.UnthreadedAdmission | lib/use-async-effect.js:284-296 | with no thread limit and an unbounded queue the task starts at once, the counter and queue stay, and the task is appended to the list |
| StepLemmas.ZeroThreadsQueue | lib/use-async-effect.js:238-244 | with threads 0 and a bounded queue a call is rejected or queued, never started |
| StepLemmas.RestartCancelsPrevious | lib/use-async-effect.js:236 | cancel-previous without combine sends the restart reason to every tracked task and leaves only the new task tracked |
| StepLemmas.CombineRestart | lib/use-async-effect.js:220-224 | combine with cancelPrevious sends the restart reason to the matching task only, keeps it tracked, and admits a new task |
| StepLemmas.CombineFixpoint | lib/use-async-effect.js:216-226 | when the lookup hits, any number of identical calls all return the matching task and change nothing |
| StepLemmas.CombineDeduplicates | lib/use-async-effect.js:216-227 | after a call creates task t with combine on, every following call with equal arguments returns t and creates nothing |
| StepLemmas.TenIdenticalCalls | lib/use-async-effect.js:216-227 | ten identical calls on a fresh combining owner create one task, which all ten return |
| StepLemmas.OverflowFixpoint | lib/use-async-effect.js:230-232 | once the overflow test fails without combine, every further call is rejected with the overflow error and the state stays |
| StepLemmas.UnitQueueOptions | lib/use-async-effect.js:176-200 | the options `{queueSize: 1, threads: 1}` are accepted as given |
| StepLemmas.UnitQueueAdmitsOnlyFirst | lib/use-async-effect.js:230-246 | with queueSize 1 and one thread, the first call of a burst starts and every other call is rejected with the overflow error |
| StepLemmas.SettleFifo | lib/use-async-effect.js:258-262 | on the counted path pending drops by one and rises by one when the queue was not empty, exactly the queue head is removed, the task leaves the list, the args and the task sets while the other tasks' arguments are kept, no cancel request is sent, a waiting head other than it starts, and every other running task keeps running |
| StepLemmas.SettleUntracked | lib/use-async-effect.js:16-19 | settling a task no longer tracked leaves the list unchanged |
| StepLemmas.SettlePublishes | lib/use-async-effect.js:266-274 | the settled record is published exactly with states on a single thread while mounted; otherwise the status stays |
| StepLemmas.CancelAllEffect | lib/use-async-effect.js:299-303 | a bulk cancel sends one request to each tracked task in order with the filtered reason, empties the list, keeps counter, queue and tasks, and a second bulk cancel sends nothing |
| StepLemmas.CancelAllFiltersEvents | lib/use-async-effect.js:299-301 | an event passed as the reason is sent as undefined |
| CallbackHook.Owner.constructor | lib/use-async-effect.js:168-174 | a new owner is in the initial state and satisfies the invariant |
| CallbackHook.Owner.Lookup | lib/use-async-effect.js:216-227 | the newest-first scan returns the combine lookup's index, or -1 when combine is off |
| CallbackHook.Owner.CancelAll | lib/use-async-effect.js:299-303 | the forEach loop and the truncation produce the bulk-cancel state and keep the invariant |
| CallbackHook.Owner.Admit | lib/use-async-effect.js:238-279 | the executor, push and args record produce the admission step |
| CallbackHook.Owner.Call | lib/use-async-effect.js:212-297 | the decorated function returns the decision and produces the state of the call step, keeping the invariant |
| CallbackHook.Owner.Untrack | lib/use-async-effect.js:260-261 | removeElement and the args deletion untrack the task |
| CallbackHook.Owner.StartHead | lib/use-async-effect.js:241-243 | the shifted queue entry counts itself and starts its task unless that task already settled |
| CallbackHook.Owner.Settle | lib/use-async-effect.js:258-287 | the finally handler produces the settlement state and keeps the invariant |
| CallbackHook.Owner.Cancel | lib/use-async-effect.js:299-303 | the user's cancel produces the bulk-cancel state and keeps the invariant |
| CallbackHook.Owner.DepsChange | lib/use-async-effect.js:324-326 | a deps change cancels every tracked task with the unmounted reason |
| CallbackHook.Owner.Unmount | lib/use-async-effect.js:324-332 | unmount cancels with the unmounted reason and, with states, clears the mounted flag |
| CallbackHook.UseAsyncCallback | lib/use-async-effect.js:164-208 | set-up fails with the error of the checks, or gives a fresh owner with the checked configuration in the initial state |
| EffectHook.Setup | lib/use-async-effect.js:39-54 | set-up fails exactly when the first argument is not a generator function, and otherwise gives the effect options |
| EffectHook.CancelSends | lib/use-async-effect.js:56-63 | cancel returns true exactly when the slot holds a task; it then empties the slot and sends that task one request with the filtered reason; otherwise nothing changes |
| EffectHook.CancelIdempotent | lib/use-async-effect.js:56-63 | an immediate second cancel returns false and changes nothing |
| EffectHook.SkipFirstSkipsOnlyFirst | lib/use-async-effect.js:80-88 | a run starts no task exactly when it is the first run with skipFirst; otherwise it starts a new task and stores it in the slot |
| EffectHook.UnmountedCancelIsSilent | lib/use-async-effect.js:107-125 | a cancellation with the unmounted code publishes nothing; any other cancellation is published as canceled when states is on |
| EffectHook.CleanupCancelsRun | lib/use-async-effect.js:128-132 | the cleanup cancels the run's task with the unmounted reason unless it was already cancelled, calls the run's cleanup function exactly when the run's task fulfilled with one, and a second cleanup does nothing |
| EffectHook.StepInv | lib/use-async-effect.js:56-132 | every run, cancel, settlement and cleanup keeps the slot invariant |
| EffectHook.NoDoubleCancel | lib/use-async-effect.js:56-63 | along any sequence of effect events, no task is ever asked to cancel twice |
| EffectHook.FreshInv | lib/use-async-effect.js:37 | the empty slot satisfies the invariant |
| EffectHook.Effect.constructor | lib/use-async-effect.js:37 | a new slot is empty |
| EffectHook.Effect.RunEffect | lib/use-async-effect.js:80-88 | the effect body produces the run step and reports the task started |
| EffectHook.Effect.CancelEffect | lib/use-async-effect.js:56-63 | the cancel function produces the cancel step and its result |
| EffectHook.Effect.SettleTask | lib/use-async-effect.js:92-126 | the settle handlers keep a function result as the cleanup and publish the snapshot |
| EffectHook.Effect.CleanupEffect | lib/use-async-effect.js:128-132 | the returned cleanup produces the cleanup step |
| EffectHook.UseAsyncEffect | lib/use-async-effect.js:39-54 | set-up fails for a non-generator and otherwise gives a fresh empty slot with the effect options |

## Left out

- React itself is not modelled: `useRef`, `useState`, `useEffect`, `useCallback`, re-rendering and deps comparison. Mount, deps change, unmount and effect re-runs are events the environment applies. An effect run is assumed to be preceded by the cleanup of the previous run, as React does.
- Options that change between renders are not modelled. The source reads and checks the options again on every render (lib/use-async-effect.js:163-200, 305-308), and `useCallback` at line 212 has no deps array, so each render's callback and the `finally` handlers of its tasks use that render's `threads`, `queueSize`, `combine`, `cancelPrevious` and `states` against the same `current` record. The model fixes one configuration per owner (`CallbackHook.Owner.cfg`), so every invariant and bound holds only while the options stay the same on every render. As a counterexample, two calls under `threads: 2` leave `pending` at 2; after a render with `threads: 1` the test `pending === threads` never holds again, and the counter grows with every call.
- c-promise2 is not modelled: generator driving, cancellation propagation, `weight`/`aggregate`, timeouts and progress. A task settling is an event carrying its outcome. A cancel request is recorded, and the task's later rejection is a separate settlement event.
- The value `promise.cancel` returns is not modelled. `EffectHook.Cancel` reports whether a request was sent.
- The caller of a combined call receives `CPromise.resolve(promise)` (line 225, line 293), a wrapper around the existing task. `Decision.Combined` names the task itself.
- The rejected promise of an overflow is modelled by its error, `Overflowed(OverflowError)`.
- `isEqualObjects` is replaced by structural equality on argument vectors.
- `isGeneratorFn` is not modelled. `EffectHook.Setup` takes its answer as a parameter.
- NaN, the infinities and non-number values of `threads` and `queueSize` are modelled only as "not finite", and NaN has no truthiness here.
- `console.error` for an unhandled effect error with states off is output only and is not modelled.
- `ref.current.isMounted` (line 129) is written but never read, so it is not modelled.
- The iterator and property exposure of the status records (line 65-78, line 309-321) is not modelled. It only reads the state the model keeps.
- `scopeArg` and `deps` are carried in the configuration. They affect only the generator call and React respectively.
- `pause`/`resume`, `useAsyncWatcher`, `useAsyncDeepState` and `useAsyncState` are not defined by lib/use-async-effect.js, so they are not part of this model.
- The playground, build configurations and type declarations are not part of this model.
- AdmissionLemmas.ConcurrencyLimit: the running-task bound is proved only for traces in which no queued task is cancelled, because the code breaks it otherwise (see QueuedCancelExceedsLimit), and only under options that stay the same on every render.
- AdmissionLemmas.PendingNeverExceedsThreads: the upper bound is stated only for a whole thread limit, because a fractional `threads` passes validation and is never equal to the counter; like every bound it assumes options that stay the same on every render.
