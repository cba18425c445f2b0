/** What one call, one settlement and one bulk cancel do, stated against
    the state before them, and the behaviour of bursts of calls. */
module StepLemmas {
  import opened JsValues
  import opened HookOptions
  import opened Status
  import opened Admission
  import opened AdmissionLemmas

  /** The combine lookup finds a task and the call returns it. */
  predicate CombineHit(c: Config, s: State, a: Args) {
    c.combine && !c.cancelPrevious && LastMatch(s.promises, s.args, a) >= 0
  }

  /** The request the combine step sends when cancelPrevious is also set. */
  function RestartRequests(c: Config, s: State, a: Args): seq<CancelRequest> {
    if c.combine && c.cancelPrevious && LastMatch(s.promises, s.args, a) >= 0
    then [CancelRequest(s.promises[LastMatch(s.promises, s.args, a)], Restarted)]
    else []
  }

  /** Overflow: after a combine lookup that returns nothing, a call whose
      queue size is not -1 and for which `queueSize - |promises| - pending`
      is at most 0 is rejected with the overflow error. Nothing in the owner
      changes and cancel-previous does not run; only the restart request of
      a combine hit with cancelPrevious, which comes first, has been sent. */
  lemma OverflowRejects(c: Config, s: State, a: Args)
    requires !CombineHit(c, s, a)
    ensures Call(c, s, a).decision.Overflowed? <==> Overflows(c, s)
    ensures Overflows(c, s) ==>
      && Call(c, s, a).decision == Overflowed(OverflowError)
      && Call(c, s, a).next == s.(cancels := s.cancels + RestartRequests(c, s, a))
  {
  }

  /** No call is rejected while the queue size is -1. */
  lemma UnboundedQueueNeverOverflows(c: Config, s: State, a: Args)
    requires c.queueSize == -1.0
    ensures !Call(c, s, a).decision.Overflowed?
  {
  }

  /** Admission on the counted path: when the counter equals the thread
      limit the new task is queued at the end and the counter is unchanged,
      otherwise the task starts and the counter grows by one; either way the
      new task joins the end of the list (which cancel-previous emptied), and
      its arguments are recorded when combine is on. */
  lemma ThreadedAdmission(c: Config, s: State, a: Args)
    requires ValidConfig(c) && Inv(c, s) && Threaded(c)
    requires !CombineHit(c, s, a) && !Overflows(c, s)
    ensures var st := Call(c, s, a); var t := s.nextId;
      && t !in s.promises && t !in s.queue
      && (st.decision == Queued(t) <==> s.pending as real == c.threads)
      && (st.decision == Queued(t) ==> st.next.queue == s.queue + [t] && st.next.pending == s.pending)
      && (st.decision != Queued(t) ==> st.decision == Started(t) && st.next.queue == s.queue
                                        && st.next.pending == s.pending + 1)
      && st.next.promises == (if c.cancelPrevious && !c.combine then [] else s.promises) + [t]
      && st.next.args == (if c.combine then s.args[t := a] else s.args)
      && (st.decision.Started? ==> st.next.status == (if c.states then CallbackStarted else s.status))
      && (st.decision == Queued(t) ==> st.next.status == s.status)
  {
  }

  /** Without a thread limit or a queue bound the task starts at once and
      the counter and the queue are left alone. */
  lemma UnthreadedAdmission(c: Config, s: State, a: Args)
    requires !Threaded(c) && !CombineHit(c, s, a)
    ensures var st := Call(c, s, a);
      && st.decision == Started(s.nextId)
      && st.next.pending == s.pending && st.next.queue == s.queue
      && st.next.promises == (if c.cancelPrevious && !c.combine then [] else s.promises) + [s.nextId]
  {
  }

  /** With threads 0 and a bounded queue, an admitted call is queued and
      never started by the call itself. */
  lemma ZeroThreadsQueue(c: Config, s: State, a: Args)
    requires ValidConfig(c) && Inv(c, s) && c.threads == 0.0 && c.queueSize != -1.0
    requires !CombineHit(c, s, a)
    ensures Call(c, s, a).decision.Overflowed? || Call(c, s, a).decision.Queued?
  {
    if !Overflows(c, s) {
      ThreadedAdmission(c, s, a);
    }
  }

  /** Cancel-previous without combine: every tracked task is asked to cancel
      with the restarted reason and the new task is the only tracked one. */
  lemma RestartCancelsPrevious(c: Config, s: State, a: Args)
    requires c.cancelPrevious && !c.combine && !Overflows(c, s)
    ensures Call(c, s, a).next.cancels == s.cancels + CancelEach(s.promises, Restarted)
    ensures Call(c, s, a).next.promises == [s.nextId]
  {
  }

  /** Combine with cancelPrevious: the newest matching task is asked to
      cancel with the restarted reason, stays tracked until it settles, and
      admission goes on as for a new call. */
  lemma CombineRestart(c: Config, s: State, a: Args)
    requires c.combine && c.cancelPrevious && LastMatch(s.promises, s.args, a) >= 0
    requires !Overflows(c, s)
    ensures var n := LastMatch(s.promises, s.args, a);
      && Call(c, s, a).next.cancels == s.cancels + [CancelRequest(s.promises[n], Restarted)]
      && Call(c, s, a).next.promises == s.promises + [s.nextId]
      && Call(c, s, a).decision.task == s.nextId
  {
  }

  function Repeat<T>(x: T, k: nat): (r: seq<T>)
    ensures |r| == k && forall i :: 0 <= i < k ==> r[i] == x
  {
    seq(k, _ => x)
  }

  /** A combine hit returns the existing task and changes nothing, so any
      number of further identical calls return the same task. */
  lemma {:induction false} CombineFixpoint(c: Config, s: State, a: Args, k: nat)
    requires CombineHit(c, s, a)
    ensures Calls(c, s, Repeat(a, k))
         == Burst(Repeat(Combined(s.promises[LastMatch(s.promises, s.args, a)]), k), s)
  {
    if k > 0 {
      assert Repeat(a, k)[1..] == Repeat(a, k - 1);
      CombineFixpoint(c, s, a, k - 1);
      var d := Combined(s.promises[LastMatch(s.promises, s.args, a)]);
      assert [d] + Repeat(d, k - 1) == Repeat(d, k);
    }
  }

  /** Combine: once a call with arguments `a` has created task `t`, every
      following call with equal arguments returns `t` and creates nothing;
      so k + 1 identical calls give one execution. */
  lemma CombineDeduplicates(c: Config, s: State, a: Args, k: nat)
    requires ValidConfig(c) && c.combine && !c.cancelPrevious
    requires Call(c, s, a).decision.Started? || Call(c, s, a).decision.Queued?
    ensures var s1 := Call(c, s, a).next;
      Calls(c, s1, Repeat(a, k)) == Burst(Repeat(Combined(Call(c, s, a).decision.task), k), s1)
  {
    var s1 := Call(c, s, a).next;
    var t := Call(c, s, a).decision.task;
    assert s1.promises[|s1.promises| - 1] == t && Matches(t, s1.args, a);
    assert LastMatch(s1.promises, s1.args, a) == |s1.promises| - 1;
    CombineFixpoint(c, s1, a, k);
  }

  /** Ten identical calls on a fresh combining owner: one task, created by
      the first call, is what all ten return. */
  lemma TenIdenticalCalls(c: Config, a: Args)
    requires ValidConfig(c) && c.combine && !c.cancelPrevious
    requires c.queueSize == -1.0 || c.queueSize > 0.0
    ensures Calls(c, Init, Repeat(a, 10)).decisions[0].task == 0
    ensures Calls(c, Init, Repeat(a, 10)).decisions[1..] == Repeat(Combined(0), 9)
    ensures Calls(c, Init, Repeat(a, 10)).final.promises == [0]
  {
    assert Repeat(a, 10)[1..] == Repeat(a, 9);
    CombineDeduplicates(c, Init, a, 9);
  }

  /** Once the overflow test fails with nothing to combine, every further
      call is rejected and the owner stays as it is. */
  lemma {:induction false} OverflowFixpoint(c: Config, s: State, xs: seq<Args>)
    requires !c.combine && Overflows(c, s)
    ensures Calls(c, s, xs) == Burst(Repeat(Overflowed(OverflowError), |xs|), s)
    decreases |xs|
  {
    if xs != [] {
      OverflowFixpoint(c, s, xs[1..]);
      assert [Overflowed(OverflowError)] + Repeat(Overflowed(OverflowError), |xs| - 1)
          == Repeat(Overflowed(OverflowError), |xs|);
    }
  }

  /** `useAsyncCallback(fn, {queueSize: 1, threads: 1})` */
  const UnitQueue: Config := Config([], false, false, 1.0, 1.0, false, false)

  lemma UnitQueueOptions()
    ensures CallbackOptions(ObjectArg(NoFields.(threads := Some(Finite(1.0)), queueSize := Some(Finite(1.0)))))
         == Ok(UnitQueue)
  {
    var f := NoFields.(threads := Some(Finite(1.0)), queueSize := Some(Finite(1.0)));
    assert Fields(ObjectArg(f)) == f;
    assert EffectiveThreads(f) == 1.0;
  }

  /** With queueSize 1 and one thread, of any burst of calls only the first
      is admitted: after it, `1 - 1 - 1 <= 0` rejects every other call, and
      no call is ever queued. */
  lemma UnitQueueAdmitsOnlyFirst(xs: seq<Args>)
    requires |xs| >= 1
    ensures Calls(UnitQueue, Init, xs).decisions
         == [Started(0)] + Repeat(Overflowed(OverflowError), |xs| - 1)
  {
    var s1 := Call(UnitQueue, Init, xs[0]).next;
    assert Call(UnitQueue, Init, xs[0]).decision == Started(0);
    assert |s1.promises| == 1 && s1.pending == 1;
    OverflowFixpoint(UnitQueue, s1, xs[1..]);
  }

  /** Settlement on the counted path: the counter drops by one, the first
      occurrence of the task leaves the list (the rest keep their order),
      its arguments are forgotten while the others' are kept, no request is
      sent, and if the queue is not empty exactly its
      head is removed and run, which counts itself and starts its task
      unless that task already settled. */
  lemma SettleFifo(c: Config, s: State, t: TaskId, o: Outcome)
    requires ValidConfig(c) && Inv(c, s) && Threaded(c) && (t in s.running || t in s.waiting)
    ensures var r := Settle(c, s, t, o);
      && r.pending == s.pending - 1 + (if |s.queue| > 0 then 1 else 0)
      && r.queue == (if |s.queue| > 0 then s.queue[1..] else [])
      && r.promises == RemoveElement(s.promises, t).0
      && t !in r.promises && t !in r.args && t !in r.running && t !in r.waiting
      && r.args == (if c.combine then s.args - {t} else s.args)
      && r.cancels == s.cancels
      && (|s.queue| > 0 && s.queue[0] != t && s.queue[0] in s.waiting ==> s.queue[0] in r.running)
      && (forall x :: x in s.running && x != t ==> x in r.running)
  {
    RemoveElementNoDup(s.promises, t);
  }

  /** Settling a task that is not tracked any more (after a bulk cancel)
      leaves the list as it is: `removeElement` finds nothing. */
  lemma SettleUntracked(c: Config, s: State, t: TaskId, o: Outcome)
    requires (t in s.running || t in s.waiting) && t !in s.promises
    ensures Settle(c, s, t, o).promises == s.promises
  {
  }

  /** The published status: with states on and mounted, settling gives the
      snapshot of the outcome; otherwise nothing is published. */
  lemma SettlePublishes(c: Config, s: State, t: TaskId, o: Outcome)
    requires t in s.running || t in s.waiting
    ensures Settle(c, s, t, o).status ==
      if Threaded(c) && c.states && SingleThreaded(c) && s.mounted then CallbackSnapshot(o) else s.status
  {
  }

  /** Bulk cancel: every tracked task gets exactly one request, in list
      order, with the event-filtered reason, and the list is empty; the
      counter, the queue and the tasks themselves are untouched until each
      settles. A second bulk cancel sends nothing. */
  lemma CancelAllEffect(s: State, reason: Value, reason2: Value)
    ensures var r := CancelAll(s, reason);
      && r.promises == []
      && |r.cancels| == |s.cancels| + |s.promises|
      && r.cancels[..|s.cancels|] == s.cancels
      && (forall i :: 0 <= i < |s.promises| ==>
            r.cancels[|s.cancels| + i] == CancelRequest(s.promises[i], CancelReason(reason)))
      && r.queue == s.queue && r.pending == s.pending && r.running == s.running && r.waiting == s.waiting
      && CancelAll(r, reason2) == r
  {
    var r := CancelAll(s, reason);
    assert CancelEach([], CancelReason(reason2)) == [];
    assert r.cancels + [] == r.cancels;
  }

  /** An event passed as the reason (the cancel function used directly as
      an event handler) is sent as undefined. */
  lemma CancelAllFiltersEvents(s: State, ev: Value)
    requires IsEvent(ev) && |s.promises| > 0
    ensures CancelAll(s, ev).cancels[|s.cancels|] == CancelRequest(s.promises[0], Undefined)
  {
  }
}
