/** Properties of the admission state machine: the invariant every step
    keeps, the concurrency bound and how a cancelled queued task breaks it,
    and the overflow, combine, restart and settlement behaviour of single
    steps. */
module AdmissionLemmas {
  import opened JsValues
  import opened HookOptions
  import opened Status
  import opened Admission

  predicate NoDup(q: seq<TaskId>) {
    forall i, j :: 0 <= i < j < |q| ==> q[i] != q[j]
  }

  /** Queue entries whose task already settled: their start will still run
      and count itself, but no `finally` will ever take that count back. */
  function Stale(q: seq<TaskId>, w: set<TaskId>): nat {
    if q == [] then 0 else (if q[0] in w then 0 else 1) + Stale(q[1..], w)
  }

  function StaleCount(s: State): nat {
    Stale(s.queue, s.waiting)
  }

  predicate Whole(x: real) {
    x == x.Floor as real
  }

  /** The counted path's bookkeeping: each waiting task has one queue entry,
      no queued task is running, and the counter equals the running tasks
      minus the stale entries. */
  predicate QueueInv(s: State) {
    && NoDup(s.queue)
    && s.running !! s.waiting
    && (forall t :: t in s.waiting ==> t in s.queue)
    && (forall i :: 0 <= i < |s.queue| ==> s.queue[i] !in s.running)
    && s.pending + Stale(s.queue, s.waiting) == |s.running|
  }

  /** Every task the owner knows of was created by it. */
  predicate IdsBelow(s: State) {
    && (forall t :: t in s.running ==> t < s.nextId)
    && (forall t :: t in s.waiting ==> t < s.nextId)
    && (forall i :: 0 <= i < |s.queue| ==> s.queue[i] < s.nextId)
  }

  /** The task list holds distinct live tasks, and arguments are recorded
      only for live tasks and only with combine. */
  predicate ListOk(c: Config, s: State) {
    && s.running !! s.waiting
    && NoDup(s.promises)
    && (forall i :: 0 <= i < |s.promises| ==> s.promises[i] in s.running || s.promises[i] in s.waiting)
    && (forall t :: t in s.args ==> t in s.running || t in s.waiting)
    && (!c.combine ==> s.args == map[])
  }

  /** The queue and the counter: kept on the counted path, untouched off it. */
  predicate Counted(c: Config, s: State) {
    && (Threaded(c) ==> QueueInv(s) && (Whole(c.threads) ==> s.pending as real <= c.threads))
    && (!Threaded(c) ==> s.queue == [] && s.waiting == {} && s.pending == 0)
  }

  /** Which tasks are tracked, queued and counted, for configuration `c`;
      it also holds midway through a settlement. */
  predicate Tracked(c: Config, s: State) {
    IdsBelow(s) && ListOk(c, s) && Counted(c, s)
  }

  /** The invariant of an owner with configuration `c`: the bookkeeping
      above, and a counter that is never negative. */
  predicate Inv(c: Config, s: State) {
    Tracked(c, s) && s.pending >= 0
  }

  // ---------------------------------------------------------------------
  // Counting stale entries

  lemma {:induction false} StaleIgnores(q: seq<TaskId>, w: set<TaskId>, x: TaskId)
    requires x !in q
    ensures Stale(q, w + {x}) == Stale(q, w)
    ensures Stale(q, w - {x}) == Stale(q, w)
  {
    if q != [] {
      StaleIgnores(q[1..], w, x);
    }
  }

  lemma {:induction false} StaleAppend(q: seq<TaskId>, w: set<TaskId>, x: TaskId)
    ensures Stale(q + [x], w) == Stale(q, w) + (if x in w then 0 else 1)
  {
    if q == [] {
      assert [x][1..] == [];
    } else {
      assert (q + [x])[1..] == q[1..] + [x];
      StaleAppend(q[1..], w, x);
    }
  }

  lemma {:induction false} StaleRemove(q: seq<TaskId>, w: set<TaskId>, x: TaskId)
    requires NoDup(q) && x in q && x in w
    ensures Stale(q, w - {x}) == Stale(q, w) + 1
  {
    if q[0] == x {
      assert x !in q[1..] by {
        forall j | 0 <= j < |q[1..]| ensures q[1..][j] != x {
          assert q[1..][j] == q[j + 1];
        }
      }
      StaleIgnores(q[1..], w, x);
    } else {
      StaleRemove(q[1..], w, x);
    }
  }

  lemma {:induction false} StaleZero(q: seq<TaskId>, w: set<TaskId>)
    ensures Stale(q, w) == 0 <==> forall i :: 0 <= i < |q| ==> q[i] in w
  {
    if q != [] {
      StaleZero(q[1..], w);
      assert forall i :: 1 <= i < |q| ==> q[i] == q[1..][i - 1];
    }
  }

  lemma NoDupTail(q: seq<TaskId>)
    requires NoDup(q) && |q| > 0
    ensures NoDup(q[1..]) && q[0] !in q[1..]
  {
    forall j | 0 <= j < |q[1..]| ensures q[1..][j] != q[0] {
      assert q[1..][j] == q[j + 1];
    }
  }

  lemma NoDupAppend(q: seq<TaskId>, x: TaskId)
    requires NoDup(q) && x !in q
    ensures NoDup(q + [x])
  {
  }

  /** Splicing out position `i` shifts the later elements down by one. */
  lemma SpliceIndex(ps: seq<TaskId>, i: int)
    requires 0 <= i < |ps|
    ensures |ps[..i] + ps[i + 1..]| == |ps| - 1
    ensures forall k :: 0 <= k < |ps| - 1 ==>
      (ps[..i] + ps[i + 1..])[k] == if k < i then ps[k] else ps[k + 1]
  {
  }

  lemma SpliceNoDup(ps: seq<TaskId>, i: int)
    requires NoDup(ps) && 0 <= i < |ps|
    ensures NoDup(ps[..i] + ps[i + 1..])
    ensures forall y :: y in ps[..i] + ps[i + 1..] <==> y in ps && y != ps[i]
  {
    var r := ps[..i] + ps[i + 1..];
    SpliceIndex(ps, i);
    forall y ensures y in r <==> y in ps && y != ps[i] {
      if y in ps && y != ps[i] {
        var k :| 0 <= k < |ps| && ps[k] == y;
        assert r[if k < i then k else k - 1] == y;
      }
      if y in r {
        var k :| 0 <= k < |r| && r[k] == y;
        assert y == if k < i then ps[k] else ps[k + 1];
      }
    }
  }

  /** `removeElement` on a duplicate-free list removes exactly `x`. */
  lemma RemoveElementNoDup(ps: seq<TaskId>, x: TaskId)
    requires NoDup(ps)
    ensures NoDup(RemoveElement(ps, x).0)
    ensures forall y :: y in RemoveElement(ps, x).0 <==> y in ps && y != x
  {
    if x in ps {
      SpliceNoDup(ps, IndexOf(ps, x));
    }
  }

  // ---------------------------------------------------------------------
  // The invariant is established and kept by every step

  /** An owner that tracks, queues, counts and runs nothing. */
  predicate Idle(s: State) {
    s.promises == [] && s.queue == [] && s.pending == 0 && s.args == map[]
    && s.running == {} && s.waiting == {}
  }

  lemma IdleInv(c: Config, s: State)
    requires ValidConfig(c) && Idle(s)
    ensures Inv(c, s) && StaleCount(s) == 0
  {
  }

  lemma InitInv(c: Config)
    requires ValidConfig(c)
    ensures Idle(Init) && Inv(c, Init)
  {
    IdleInv(c, Init);
  }

  lemma CancelAllInv(c: Config, s: State, reason: Value)
    requires Inv(c, s)
    ensures Inv(c, CancelAll(s, reason))
    ensures StaleCount(CancelAll(s, reason)) == StaleCount(s)
    ensures CancelAll(s, reason).pending == s.pending && CancelAll(s, reason).running == s.running
  {
  }

  /** What every admission does to the task list and the arguments. */
  lemma {:induction false} AdmitTracks(c: Config, s: State, a: Args)
    requires Inv(c, s)
    ensures s.nextId !in s.promises && s.nextId !in s.running && s.nextId !in s.waiting
    ensures NoDup(s.promises + [s.nextId])
    ensures Threaded(c) ==> s.nextId !in s.queue && StaleCount(s.(waiting := s.waiting + {s.nextId})) == StaleCount(s)
  {
    var t := s.nextId;
    assert t !in s.running && t !in s.waiting;
    assert t !in s.promises;
    NoDupAppend(s.promises, t);
    if Threaded(c) {
      assert t !in s.queue;
      StaleIgnores(s.queue, s.waiting, t);
    }
  }

  lemma {:induction false} AdmitQueuedInv(c: Config, s: State, a: Args)
    requires ValidConfig(c) && Inv(c, s) && Threaded(c) && s.pending as real == c.threads
    ensures Inv(c, Admit(c, s, a).next)
    ensures StaleCount(Admit(c, s, a).next) == StaleCount(s)
  {
    var t := s.nextId;
    AdmitTracks(c, s, a);
    NoDupAppend(s.queue, t);
    StaleAppend(s.queue, s.waiting + {t}, t);
    assert Admit(c, s, a).next.queue == s.queue + [t];
  }

  lemma {:induction false} AdmitStartedInv(c: Config, s: State, a: Args)
    requires ValidConfig(c) && Inv(c, s) && Threaded(c) && s.pending as real != c.threads
    ensures Inv(c, Admit(c, s, a).next)
    ensures StaleCount(Admit(c, s, a).next) == StaleCount(s)
  {
    var t := s.nextId;
    AdmitTracks(c, s, a);
    assert |s.running + {t}| == |s.running| + 1;
    if Whole(c.threads) {
      var k := c.threads.Floor;
      assert s.pending < k;
    }
  }

  lemma {:induction false} AdmitInv(c: Config, s: State, a: Args)
    requires ValidConfig(c) && Inv(c, s)
    ensures Inv(c, Admit(c, s, a).next)
    ensures Threaded(c) ==> StaleCount(Admit(c, s, a).next) == StaleCount(s)
  {
    if !Threaded(c) {
      AdmitTracks(c, s, a);
    } else if s.pending as real == c.threads {
      AdmitQueuedInv(c, s, a);
    } else {
      AdmitStartedInv(c, s, a);
    }
  }

  lemma CallInv(c: Config, s: State, a: Args)
    requires ValidConfig(c) && Inv(c, s)
    ensures Inv(c, Call(c, s, a).next)
    ensures Threaded(c) ==> StaleCount(Call(c, s, a).next) == StaleCount(s)
  {
    var n := if c.combine then LastMatch(s.promises, s.args, a) else -1;
    if !(n >= 0 && !c.cancelPrevious) {
      var s1 := if n >= 0 then s.(cancels := s.cancels + [CancelRequest(s.promises[n], Restarted)]) else s;
      assert Inv(c, s1);
      if !Overflows(c, s1) {
        var s2 := if c.cancelPrevious && !c.combine then CancelAll(s1, Restarted) else s1;
        assert Inv(c, s2);
        AdmitInv(c, s2, a);
      }
    }
  }

  lemma {:induction false} StartHeadKeeps(s: State)
    requires QueueInv(s) && |s.queue| > 0
    ensures QueueInv(StartHead(s))
    ensures StaleCount(StartHead(s)) <= StaleCount(s)
    ensures s.queue[0] in s.waiting ==> StaleCount(StartHead(s)) == StaleCount(s)
    ensures StartHead(s).running + StartHead(s).waiting <= s.running + s.waiting
    ensures s.running + s.waiting <= StartHead(s).running + StartHead(s).waiting
  {
    var h := s.queue[0];
    var r := StartHead(s);
    NoDupTail(s.queue);
    StaleIgnores(s.queue[1..], s.waiting, h);
    assert r.queue == s.queue[1..];
    assert Stale(r.queue, r.waiting) == Stale(s.queue[1..], s.waiting);
    forall x | x in r.waiting ensures x in r.queue {
      assert x in s.queue && x != h;
      var k :| 0 <= k < |s.queue| && s.queue[k] == x;
      assert r.queue[k - 1] == x;
    }
    forall i | 0 <= i < |r.queue| ensures r.queue[i] !in r.running {
      assert r.queue[i] == s.queue[i + 1];
    }
    if h in s.waiting {
      assert |s.running + {h}| == |s.running| + 1;
    }
  }

  /** The counter and queue bookkeeping just after the decrement. */
  lemma {:induction false} SettleMiddle(s: State, t: TaskId)
    requires QueueInv(s) && (t in s.running || t in s.waiting)
    ensures QueueInv(s.(running := s.running - {t}, waiting := s.waiting - {t}, pending := s.pending - 1))
    ensures t in s.running ==> Stale(s.queue, s.waiting - {t}) == Stale(s.queue, s.waiting)
  {
    if t in s.running {
      assert |s.running - {t}| == |s.running| - 1;
      assert s.waiting - {t} == s.waiting;
    } else {
      StaleRemove(s.queue, s.waiting, t);
      assert s.running - {t} == s.running;
    }
  }

  lemma {:induction false} UntrackInv(c: Config, s: State, t: TaskId)
    requires Inv(c, s) && (t in s.running || t in s.waiting)
    ensures ListOk(c, Untrack(c, s, t)) && IdsBelow(Untrack(c, s, t))
  {
    RemoveElementNoDup(s.promises, t);
  }

  lemma {:induction false} StartHeadIds(s: State)
    requires IdsBelow(s) && |s.queue| > 0
    ensures IdsBelow(StartHead(s))
  {
    var r := StartHead(s);
    forall i | 0 <= i < |r.queue| ensures r.queue[i] < r.nextId {
      assert r.queue[i] == s.queue[i + 1];
    }
  }

  lemma {:induction false} StartHeadList(c: Config, s: State)
    requires ListOk(c, s) && |s.queue| > 0
    requires s.running + s.waiting <= StartHead(s).running + StartHead(s).waiting
    ensures ListOk(c, StartHead(s))
  {
    var r := StartHead(s);
    var h := s.queue[0];
    assert r.promises == s.promises && r.args == s.args;
    assert r.running !! r.waiting;
  }

  /** Running the oldest queued start keeps the invariant, provided the
      counter has room for its increment. */
  lemma {:induction false} StartHeadInv(c: Config, s: State)
    requires Tracked(c, s) && Threaded(c) && |s.queue| > 0
    requires Whole(c.threads) ==> (s.pending + 1) as real <= c.threads
    ensures Tracked(c, StartHead(s))
    ensures StaleCount(StartHead(s)) <= StaleCount(s)
  {
    StartHeadKeeps(s);
    StartHeadIds(s);
    StartHeadList(c, s);
    assert Counted(c, StartHead(s));
  }

  lemma TrackedIgnoresStatus(c: Config, s: State, st: CallbackStatus)
    requires Tracked(c, s)
    ensures Tracked(c, s.(status := st))
  {
  }

  /** The state just after the decrement of the counted path. */
  lemma {:induction false} DecrementInv(c: Config, s: State, t: TaskId)
    requires Inv(c, s) && Threaded(c) && (t in s.running || t in s.waiting)
    ensures Tracked(c, Untrack(c, s, t).(pending := s.pending - 1))
    ensures t in s.running ==> StaleCount(Untrack(c, s, t)) == StaleCount(s)
  {
    UntrackInv(c, s, t);
    SettleMiddle(s, t);
    var u := Untrack(c, s, t);
    var d := u.(pending := s.pending - 1);
    assert d == s.(promises := u.promises, args := u.args, running := s.running - {t},
                   waiting := s.waiting - {t}, pending := s.pending - 1);
    assert ListOk(c, d) && IdsBelow(d);
    assert Counted(c, d);
  }

  /** The counted path: decrement, untrack, run the queue head, publish. */
  lemma {:induction false} SettleThreadedTracked(c: Config, s: State, t: TaskId, o: Outcome)
    requires ValidConfig(c) && Inv(c, s) && Threaded(c)
    requires t in s.running || t in s.waiting
    ensures Tracked(c, Settle(c, s, t, o))
    ensures t in s.running ==> StaleCount(Settle(c, s, t, o)) <= StaleCount(s)
  {
    DecrementInv(c, s, t);
    var s1 := Untrack(c, s, t).(pending := s.pending - 1);
    var s2 := if |s1.queue| > 0 then StartHead(s1) else s1;
    if |s1.queue| > 0 {
      StartHeadInv(c, s1);
    }
    var st := if c.states && SingleThreaded(c) && s.mounted then CallbackSnapshot(o) else s.status;
    assert Settle(c, s, t, o) == s2.(status := st);
    TrackedIgnoresStatus(c, s2, st);
  }

  lemma {:induction false} SettleTracked(c: Config, s: State, t: TaskId, o: Outcome)
    requires ValidConfig(c) && Inv(c, s)
    requires t in s.running || t in s.waiting
    ensures Tracked(c, Settle(c, s, t, o))
    ensures Threaded(c) && t in s.running ==> StaleCount(Settle(c, s, t, o)) <= StaleCount(s)
  {
    if Threaded(c) {
      SettleThreadedTracked(c, s, t, o);
    } else {
      UntrackInv(c, s, t);
    }
  }

  /** The counter stays non-negative: with a non-empty queue the settlement
      hands the count on to the head's start, and with an empty queue the
      settling task was running, so the counter was its share of them. */
  lemma {:induction false} SettleCounter(c: Config, s: State, t: TaskId, o: Outcome)
    requires Inv(c, s) && (t in s.running || t in s.waiting)
    ensures Settle(c, s, t, o).pending >= 0
  {
    if Threaded(c) && |s.queue| == 0 {
      assert t !in s.waiting;
      assert Stale(s.queue, s.waiting) == 0;
      assert |s.running| >= 1;
    }
  }

  lemma SettleInv(c: Config, s: State, t: TaskId, o: Outcome)
    requires ValidConfig(c) && Inv(c, s)
    requires t in s.running || t in s.waiting
    ensures Inv(c, Settle(c, s, t, o))
    ensures Threaded(c) && t in s.running ==> StaleCount(Settle(c, s, t, o)) <= StaleCount(s)
  {
    SettleTracked(c, s, t, o);
    SettleCounter(c, s, t, o);
  }

  lemma EventInv(c: Config, s: State, e: Event)
    requires ValidConfig(c) && Inv(c, s) && Enabled(s, e)
    ensures Inv(c, Apply(c, s, e))
    ensures Threaded(c) && (e.SettleEvent? ==> e.t in s.running) ==> StaleCount(Apply(c, s, e)) <= StaleCount(s)
  {
    match e
    case CallEvent(a) => CallInv(c, s, a);
    case SettleEvent(t, o) => SettleInv(c, s, t, o);
    case CancelEvent(reason) => CancelAllInv(c, s, reason);
    case DepsChangeEvent => CancelAllInv(c, s, Unmounted);
    case UnmountEvent => CancelAllInv(c, s, Unmounted);
  }

  /** Every state an owner reaches satisfies the invariant. */
  lemma {:induction false} InvAlongTrace(c: Config, s: State, es: seq<Event>)
    requires ValidConfig(c) && Inv(c, s) && ValidTrace(c, s, es)
    ensures Inv(c, Replay(c, s, es))
    decreases |es|
  {
    if es != [] {
      EventInv(c, s, es[0]);
      InvAlongTrace(c, Apply(c, s, es[0]), es[1..]);
    }
  }

  /** The counter stays between 0 and a whole thread limit, whatever the
      trace: every increment at admission is guarded by `pending !== threads`,
      the one in the settle step follows a decrement, and a settlement with
      an empty queue settles a started task, so the counter was at least 1. */
  lemma PendingNeverExceedsThreads(c: Config, es: seq<Event>)
    requires ValidConfig(c) && Threaded(c) && Whole(c.threads) && ValidTrace(c, Init, es)
    ensures 0 <= Replay(c, Init, es).pending
    ensures Replay(c, Init, es).pending as real <= c.threads
  {
    assert Idle(Init);
    PendingBound(c, Init, es);
  }

  lemma PendingBound(c: Config, s: State, es: seq<Event>)
    requires ValidConfig(c) && Threaded(c) && Whole(c.threads) && Idle(s) && ValidTrace(c, s, es)
    ensures 0 <= Replay(c, s, es).pending
    ensures Replay(c, s, es).pending as real <= c.threads
  {
    IdleInv(c, s);
    InvAlongTrace(c, s, es);
    assert Counted(c, Replay(c, s, es));
  }

  lemma {:induction false} OrderlyBound(c: Config, s: State, es: seq<Event>)
    requires ValidConfig(c) && Threaded(c) && Whole(c.threads)
    requires Inv(c, s) && StaleCount(s) == 0 && OrderlyTrace(c, s, es)
    ensures ValidTrace(c, s, es)
    ensures Inv(c, Replay(c, s, es)) && StaleCount(Replay(c, s, es)) == 0
    ensures |Replay(c, s, es).running| as real <= c.threads
    ensures c.threads == 0.0 ==> Replay(c, s, es).running == {}
    decreases |es|
  {
    if es != [] {
      EventInv(c, s, es[0]);
      OrderlyBound(c, Apply(c, s, es[0]), es[1..]);
    }
  }

  /** The concurrency limit: with a whole number of threads, as long as no
      task is cancelled while it waits in the queue, no more than `threads`
      tasks run at once. With threads 0 and a bounded queue nothing ever
      runs: every call is queued. */
  lemma ConcurrencyLimit(c: Config, es: seq<Event>)
    requires ValidConfig(c) && Threaded(c) && Whole(c.threads) && OrderlyTrace(c, Init, es)
    ensures ValidTrace(c, Init, es)
    ensures |Replay(c, Init, es).running| as real <= c.threads
    ensures c.threads == 0.0 ==> Replay(c, Init, es).running == {}
  {
    assert Idle(Init);
    OrderlyFromIdle(c, Init, es);
  }

  lemma OrderlyFromIdle(c: Config, s: State, es: seq<Event>)
    requires ValidConfig(c) && Threaded(c) && Whole(c.threads) && Idle(s) && OrderlyTrace(c, s, es)
    ensures ValidTrace(c, s, es)
    ensures |Replay(c, s, es).running| as real <= c.threads
    ensures c.threads == 0.0 ==> Replay(c, s, es).running == {}
  {
    IdleInv(c, s);
    OrderlyBound(c, s, es);
  }

  lemma TraceCons(c: Config, s: State, e: Event, es: seq<Event>)
    requires Enabled(s, e) && ValidTrace(c, Apply(c, s, e), es)
    ensures ValidTrace(c, s, [e] + es)
    ensures Replay(c, s, [e] + es) == Replay(c, Apply(c, s, e), es)
  {
    assert ([e] + es)[1..] == es;
  }

  /** `useAsyncCallback(fn, {threads: 1})` */
  const OneThread: Config := Config([], false, false, 1.0, -1.0, false, false)

  /** The options object `{threads: 1}` gives that configuration. */
  lemma OneThreadOptions()
    ensures CallbackOptions(ObjectArg(NoFields.(threads := Some(Finite(1.0))))) == Ok(OneThread)
  {
    var f := NoFields.(threads := Some(Finite(1.0)));
    assert Fields(ObjectArg(f)) == f;
    assert EffectiveThreads(f) == 1.0;
  }

  const DriftCancel: Outcome := Rejected(CanceledErr(Undefined))
  const DriftAfterOne: State := State([0], [], 1, map[], true, CallbackInitial, {0}, {}, 1, [])
  const DriftAfterTwo: State := State([0, 1], [1], 1, map[], true, CallbackInitial, {0}, {1}, 2, [])
  const DriftAfterThree: State := State([0, 1, 2], [1, 2], 1, map[], true, CallbackInitial, {0}, {1, 2}, 3, [])
  const DriftAfterCancel: State := State([0, 1], [2], 1, map[], true, CallbackInitial, {0, 1}, {}, 3, [])

  lemma DriftFirstCall()
    ensures Apply(OneThread, Init, CallEvent([])) == DriftAfterOne
  {
  }

  lemma DriftSecondCall()
    ensures Apply(OneThread, DriftAfterOne, CallEvent([])) == DriftAfterTwo
  {
  }

  lemma DriftThirdCall()
    ensures Apply(OneThread, DriftAfterTwo, CallEvent([])) == DriftAfterThree
  {
  }

  lemma DriftSettle()
    ensures Enabled(DriftAfterThree, SettleEvent(2, DriftCancel))
    ensures Apply(OneThread, DriftAfterThree, SettleEvent(2, DriftCancel)) == DriftAfterCancel
  {
    assert IndexOf([0, 1, 2], 2) == 2;
    assert RemoveElement([0, 1, 2], 2).0 == [0, 1];
    var s1 := Untrack(OneThread, DriftAfterThree, 2).(pending := 0);
    assert s1.waiting == {1} && s1.queue == [1, 2];
    assert StartHead(s1).running == {0, 1};
  }

  /** The bound needs the orderly premise: with one thread, cancelling the
      third call while it is queued runs its `finally`, whose decrement and
      queue shift start the second call while the first still runs. */
  lemma QueuedCancelExceedsLimit()
    ensures var es := [CallEvent([]), CallEvent([]), CallEvent([]), SettleEvent(2, DriftCancel)];
      ValidTrace(OneThread, Init, es) && |Replay(OneThread, Init, es).running| == 2
  {
    DriftFirstCall();
    DriftSecondCall();
    DriftThirdCall();
    DriftSettle();
    assert |DriftAfterCancel.running| == 2;
    FourSteps(OneThread, Init, DriftAfterOne, DriftAfterTwo, DriftAfterThree, DriftAfterCancel,
              CallEvent([]), CallEvent([]), CallEvent([]), SettleEvent(2, DriftCancel));
  }

  /** A trace of four events, given the state after each. */
  lemma FourSteps(c: Config, s0: State, s1: State, s2: State, s3: State, s4: State,
                  e0: Event, e1: Event, e2: Event, e3: Event)
    requires Enabled(s0, e0) && Apply(c, s0, e0) == s1
    requires Enabled(s1, e1) && Apply(c, s1, e1) == s2
    requires Enabled(s2, e2) && Apply(c, s2, e2) == s3
    requires Enabled(s3, e3) && Apply(c, s3, e3) == s4
    ensures ValidTrace(c, s0, [e0, e1, e2, e3]) && Replay(c, s0, [e0, e1, e2, e3]) == s4
  {
    TraceCons(c, s3, e3, []);
    assert [e3] + [] == [e3];
    TraceCons(c, s2, e2, [e3]);
    TraceCons(c, s1, e1, [e2] + [e3]);
    TraceCons(c, s0, e0, [e1] + ([e2] + [e3]));
    assert [e0] + ([e1] + ([e2] + [e3])) == [e0, e1, e2, e3];
  }
}
