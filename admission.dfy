/** The bookkeeping of `useAsyncCallback` as a state machine on values: the
    per-owner record `current` (lib/use-async-effect.js:168-174) together
    with the state of the tasks it created, the admission decision of one
    call (212-297), the `finally` settlement step (258-275, 284-287) and
    the bulk cancel (299-303). The class in callback.dfy performs the same
    steps in place and is specified by these functions. */
module Admission {
  import opened JsValues
  import opened HookOptions
  import opened Status

  /** The argument vector of one call; combine compares vectors by structural
      equality, standing for the deep equality of `isEqualObjects`. */
  type Args = seq<Value>

  /** The owner record and the tasks it knows of.
      - promises: in-flight tasks in call order
      - queue: deferred starts, oldest first, one per queued task
      - pending: the counter the code keeps of started tasks
      - args: the argument vector recorded for each task when combine is on
      - mounted, status: the `current.mounted` flag and the last published
        status record
      - running, waiting: tasks whose `finally` has not run yet, split into
        those that were started and those still waiting for their start;
        this is the tasks' own state, which the hook does not keep
      - nextId: the identity the next task gets
      - cancels: every `promise.cancel(reason)` request sent so far */
  datatype State = State(
    promises: seq<TaskId>,
    queue: seq<TaskId>,
    pending: int,
    args: map<TaskId, Args>,
    mounted: bool,
    status: CallbackStatus,
    running: set<TaskId>,
    waiting: set<TaskId>,
    nextId: TaskId,
    cancels: seq<CancelRequest>)

  const Init: State := State([], [], 0, map[], true, CallbackInitial, {}, {}, 0, [])

  /** What a call returns: an existing task (combine), a rejection with the
      overflow error, or a new task that started at once or was queued. */
  datatype Decision =
    | Combined(task: TaskId)
    | Overflowed(error: Value)
    | Started(task: TaskId)
    | Queued(task: TaskId)

  datatype Step = Step(decision: Decision, next: State)

  /** Whether calls go through the counted, queueing path (line 238). */
  predicate Threaded(c: Config) {
    c.threads != 0.0 || c.queueSize != -1.0
  }

  /** `singleThreaded`, which also gates the status updates. */
  predicate SingleThreaded(c: Config) {
    c.threads == 1.0
  }

  predicate Matches(t: TaskId, args: map<TaskId, Args>, a: Args) {
    t in args && args[t] == a
  }

  /** The combine lookup: the index of the newest task in `ps` whose
      recorded arguments equal `a`, or -1. */
  function LastMatch(ps: seq<TaskId>, args: map<TaskId, Args>, a: Args): (n: int)
    ensures -1 <= n < |ps|
    ensures n >= 0 ==> Matches(ps[n], args, a)
    ensures forall j :: n < j < |ps| ==> !Matches(ps[j], args, a)
  {
    if ps == [] then -1
    else if Matches(ps[|ps| - 1], args, a) then |ps| - 1
    else LastMatch(ps[..|ps| - 1], args, a)
  }

  /** The overflow test of line 230, as written: it subtracts both the number
      of tracked tasks and the running counter from the queue size. */
  predicate Overflows(c: Config, s: State) {
    c.queueSize != -1.0 && c.queueSize - |s.promises| as real - s.pending as real <= 0.0
  }

  /** One cancel request per task, in order. */
  function CancelEach(ps: seq<TaskId>, reason: Value): (r: seq<CancelRequest>)
    ensures |r| == |ps|
    ensures forall i :: 0 <= i < |ps| ==> r[i] == CancelRequest(ps[i], reason)
  {
    if ps == [] then []
    else CancelEach(ps[..|ps| - 1], reason) + [CancelRequest(ps[|ps| - 1], reason)]
  }

  /** `cancel(reason)`: every tracked task is asked to cancel, with an event
      reason replaced by undefined, and the list is emptied at once; the
      tasks settle later, each through its own `finally`. */
  function CancelAll(s: State, reason: Value): State {
    s.(cancels := s.cancels + CancelEach(s.promises, CancelReason(reason)), promises := [])
  }

  /** Creating the task of an admitted call (lines 238-296). On the counted
      path the executor queues its start when `pending === threads` and
      otherwise counts it and, with states on a single thread, publishes the
      pending record; then the task is tracked and its arguments recorded. */
  function Admit(c: Config, s: State, a: Args): Step {
    var t := s.nextId;
    var args := if c.combine then s.args[t := a] else s.args;
    var tracked := s.(promises := s.promises + [t], args := args, nextId := t + 1);
    if !Threaded(c) then
      Step(Started(t), tracked.(running := s.running + {t}))
    else if s.pending as real == c.threads then
      Step(Queued(t), tracked.(queue := s.queue + [t], waiting := s.waiting + {t}))
    else
      Step(Started(t), tracked.(pending := s.pending + 1, running := s.running + {t},
                                status := if c.states && SingleThreaded(c) then CallbackStarted else s.status))
  }

  /** One call of the decorated function: combine lookup, overflow check,
      cancel-previous, then admission, in this order. */
  function Call(c: Config, s: State, a: Args): Step {
    var n := if c.combine then LastMatch(s.promises, s.args, a) else -1;
    if n >= 0 && !c.cancelPrevious then Step(Combined(s.promises[n]), s)
    else
      var s1 := if n >= 0 then s.(cancels := s.cancels + [CancelRequest(s.promises[n], Restarted)]) else s;
      if Overflows(c, s1) then Step(Overflowed(OverflowError), s1)
      else
        var s2 := if c.cancelPrevious && !c.combine then CancelAll(s1, Restarted) else s1;
        Admit(c, s2, a)
  }

  /** `arr.indexOf(element)` */
  function IndexOf(ps: seq<TaskId>, x: TaskId): (i: int)
    ensures -1 <= i < |ps|
    ensures i >= 0 ==> ps[i] == x && forall j :: 0 <= j < i ==> ps[j] != x
    ensures i == -1 <==> x !in ps
  {
    if ps == [] then -1
    else if ps[0] == x then 0
    else var k := IndexOf(ps[1..], x); if k == -1 then -1 else k + 1
  }

  /** `removeElement`: splice out the first occurrence, and report whether
      there was one. */
  function RemoveElement(ps: seq<TaskId>, x: TaskId): (r: (seq<TaskId>, bool))
    ensures r.1 <==> x in ps
    ensures !r.1 ==> r.0 == ps
    ensures r.1 ==> r.0 == ps[..IndexOf(ps, x)] + ps[IndexOf(ps, x) + 1..]
    ensures r.1 ==> |r.0| == |ps| - 1 && multiset(r.0) == multiset(ps) - multiset{x}
  {
    var i := IndexOf(ps, x);
    if i == -1 then (ps, false)
    else
      assert ps == ps[..i] + [x] + ps[i + 1..];
      (ps[..i] + ps[i + 1..], true)
  }

  /** `queue.shift()()`: the oldest deferred start runs; it counts itself,
      and its task starts unless the task already settled. */
  function StartHead(s: State): State
    requires |s.queue| > 0
  {
    var h := s.queue[0];
    s.(queue := s.queue[1..], pending := s.pending + 1,
       running := if h in s.waiting then s.running + {h} else s.running,
       waiting := s.waiting - {h})
  }

  /** The task leaves the list, the argument map and the task sets. */
  function Untrack(c: Config, s: State, t: TaskId): State {
    s.(promises := RemoveElement(s.promises, t).0,
       args := if c.combine then s.args - {t} else s.args,
       running := s.running - {t}, waiting := s.waiting - {t})
  }

  /** The task `t` settles with outcome `o`: its `finally` handler runs. On
      the counted path it decrements the counter, untracks the task, forgets
      its arguments, runs the oldest queued start and then, with states on
      a single thread while mounted, publishes the settled record. */
  function Settle(c: Config, s: State, t: TaskId, o: Outcome): State
    requires t in s.running || t in s.waiting
  {
    var u := Untrack(c, s, t);
    if !Threaded(c) then u
    else
      var s1 := u.(pending := s.pending - 1);
      var s2 := if |s1.queue| > 0 then StartHead(s1) else s1;
      s2.(status := if c.states && SingleThreaded(c) && s.mounted then CallbackSnapshot(o) else s.status)
  }

  /** What the environment does to an owner: a call, a task settling, the
      user's `cancel(reason)`, a deps change and an unmount (the cleanup
      effects at lines 324-332, which cancel with the unmounted reason and,
      with states on, clear the mounted flag). */
  datatype Event =
    | CallEvent(a: Args)
    | SettleEvent(t: TaskId, o: Outcome)
    | CancelEvent(reason: Value)
    | DepsChangeEvent
    | UnmountEvent

  /** Only a task whose `finally` has not run can settle, and a task still
      waiting for its start can only be rejected by a cancellation. */
  predicate Enabled(s: State, e: Event) {
    e.SettleEvent? ==> e.t in s.running || (e.t in s.waiting && IsCancellation(e.o))
  }

  function Apply(c: Config, s: State, e: Event): State
    requires Enabled(s, e)
  {
    match e
    case CallEvent(a) => Call(c, s, a).next
    case SettleEvent(t, o) => Settle(c, s, t, o)
    case CancelEvent(reason) => CancelAll(s, reason)
    case DepsChangeEvent => CancelAll(s, Unmounted)
    case UnmountEvent =>
      var s1 := CancelAll(s, Unmounted);
      if c.states then s1.(mounted := false) else s1
  }

  predicate ValidTrace(c: Config, s: State, es: seq<Event>)
    decreases |es|
  {
    es == [] || (Enabled(s, es[0]) && ValidTrace(c, Apply(c, s, es[0]), es[1..]))
  }

  function Replay(c: Config, s: State, es: seq<Event>): State
    requires ValidTrace(c, s, es)
    decreases |es|
  {
    if es == [] then s else Replay(c, Apply(c, s, es[0]), es[1..])
  }

  /** A trace in which only started tasks settle: no task is cancelled
      while it waits in the queue. */
  predicate OrderlyTrace(c: Config, s: State, es: seq<Event>)
    decreases |es|
  {
    es == [] ||
    (Enabled(s, es[0]) && (es[0].SettleEvent? ==> es[0].t in s.running)
     && OrderlyTrace(c, Apply(c, s, es[0]), es[1..]))
  }

  /** Several calls in a row, with nothing settling in between. */
  datatype Burst = Burst(decisions: seq<Decision>, final: State)

  function Calls(c: Config, s: State, xs: seq<Args>): Burst
    decreases |xs|
  {
    if xs == [] then Burst([], s)
    else
      var st := Call(c, s, xs[0]);
      var rest := Calls(c, st.next, xs[1..]);
      Burst([st.decision] + rest.decisions, rest.final)
  }
}
