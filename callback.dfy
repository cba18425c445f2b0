/** `useAsyncCallback` as an object: the per-owner record `current`
    (lib/use-async-effect.js:168-174), the configuration fixed at set-up,
    and the state of the tasks it created. Each method performs one step in
    place and is specified by the matching function of module Admission, so
    the properties proved there hold of every owner. */
module CallbackHook {
  import opened JsValues
  import opened HookOptions
  import opened Status
  import opened Admission
  import opened AdmissionLemmas

  class Owner {
    const cfg: Config
    var promises: seq<TaskId>
    var queue: seq<TaskId>
    var pending: int
    var args: map<TaskId, Args>
    var mounted: bool
    var status: CallbackStatus
    var running: set<TaskId>
    var waiting: set<TaskId>
    var nextId: TaskId
    var cancels: seq<CancelRequest>

    /** The owner as a value of the state machine. */
    function Model(): State
      reads this
    {
      State(promises, queue, pending, args, mounted, status, running, waiting, nextId, cancels)
    }

    ghost predicate Valid()
      reads this
    {
      ValidConfig(cfg) && Inv(cfg, Model())
    }

    /** The record `useRef` creates on the first render. */
    constructor (c: Config)
      requires ValidConfig(c)
      ensures cfg == c && Model() == Init && Valid()
    {
      cfg := c;
      promises, queue, pending, args := [], [], 0, map[];
      mounted, status := true, CallbackInitial;
      running, waiting, nextId, cancels := {}, {}, 0, [];
      new;
      InitInv(c);
    }

    /** The combine lookup: scan the tracked tasks newest first for one whose
        recorded arguments equal `a`; -1 when combine is off or none does. */
    method Lookup(a: Args) returns (n: int)
      ensures n == (if cfg.combine then LastMatch(promises, args, a) else -1)
    {
      if !cfg.combine {
        return -1;
      }
      n := |promises|;
      while n > 0
        invariant 0 <= n <= |promises|
        invariant forall j :: n <= j < |promises| ==> !Matches(promises[j], args, a)
        decreases n
      {
        n := n - 1;
        if promises[n] in args && args[promises[n]] == a {
          return;
        }
      }
      n := -1;
    }

    /** `cancel(reason)`: one request per tracked task, in list order, then
        the list is emptied. */
    method CancelAll(reason: Value)
      modifies this
      ensures Model() == Admission.CancelAll(old(Model()), reason)
      ensures old(Valid()) ==> Valid()
    {
      ghost var s0, v0 := Model(), Valid();
      var r := CancelReason(reason);
      var i := 0;
      while i < |promises|
        invariant 0 <= i <= |promises|
        invariant Model() == s0.(cancels := cancels)
        invariant cancels == s0.cancels + CancelEach(promises[..i], r)
        decreases |promises| - i
      {
        assert promises[..i + 1][..i] == promises[..i];
        cancels := cancels + [CancelRequest(promises[i], r)];
        i := i + 1;
      }
      assert promises[..i] == promises;
      promises := [];
      if v0 {
        CancelAllInv(cfg, s0, reason);
      }
    }

    /** Creating the task of an admitted call: the executor either queues
        its start or counts it (publishing the pending record with states on
        a single thread), then the task is tracked and its arguments
        recorded when combine is on. */
    method Admit(a: Args) returns (d: Decision)
      modifies this
      ensures Step(d, Model()) == Admission.Admit(cfg, old(Model()), a)
    {
      var t := nextId;
      if cfg.threads != 0.0 || cfg.queueSize != -1.0 {
        if pending as real == cfg.threads {
          queue := queue + [t];
          waiting := waiting + {t};
          d := Queued(t);
        } else {
          pending := pending + 1;
          running := running + {t};
          if cfg.states && cfg.threads == 1.0 {
            status := CallbackStarted;
          }
          d := Started(t);
        }
      } else {
        running := running + {t};
        d := Started(t);
      }
      promises := promises + [t];
      if cfg.combine {
        args := args[t := a];
      }
      nextId := t + 1;
    }

    /** One call of the decorated function, returning what the caller gets. */
    method Call(a: Args) returns (d: Decision)
      requires Valid()
      modifies this
      ensures Valid()
      ensures Step(d, Model()) == Admission.Call(cfg, old(Model()), a)
    {
      ghost var s0 := Model();
      var n := Lookup(a);
      if n >= 0 {
        if !cfg.cancelPrevious {
          d := Combined(promises[n]);
          CallInv(cfg, s0, a);
          return;
        }
        cancels := cancels + [CancelRequest(promises[n], Restarted)];
      }
      if cfg.queueSize != -1.0 && cfg.queueSize - |promises| as real - pending as real <= 0.0 {
        d := Overflowed(OverflowError);
        CallInv(cfg, s0, a);
        return;
      }
      if cfg.cancelPrevious && !cfg.combine {
        CancelAll(Restarted);
      }
      d := Admit(a);
      CallInv(cfg, s0, a);
    }

    /** The settled task leaves the list, the argument map and the task
        sets. */
    method Untrack(t: TaskId)
      modifies this
      ensures Model() == Admission.Untrack(cfg, old(Model()), t)
    {
      promises := RemoveElement(promises, t).0;
      if cfg.combine {
        args := args - {t};
      }
      running, waiting := running - {t}, waiting - {t};
    }

    /** `queue.shift()()`: the oldest deferred start runs. */
    method StartHead()
      requires |queue| > 0
      modifies this
      ensures Model() == Admission.StartHead(old(Model()))
    {
      var h := queue[0];
      queue := queue[1..];
      pending := pending + 1;
      if h in waiting {
        running := running + {h};
      }
      waiting := waiting - {h};
    }

    /** The `finally` handler of task `t`, which settled with `o`. */
    method Settle(t: TaskId, o: Outcome)
      requires Valid() && Enabled(Model(), SettleEvent(t, o))
      modifies this
      ensures Valid()
      ensures Model() == Admission.Settle(cfg, old(Model()), t, o)
    {
      ghost var s0 := Model();
      var threaded := cfg.threads != 0.0 || cfg.queueSize != -1.0;
      Untrack(t);
      if threaded {
        pending := pending - 1;
        if |queue| > 0 {
          StartHead();
        }
        if cfg.states && cfg.threads == 1.0 && mounted {
          status := CallbackSnapshot(o);
        }
      }
      assert Model() == Admission.Settle(cfg, s0, t, o);
      SettleInv(cfg, s0, t, o);
    }

    /** The user's `cancel(reason)`, the cancel function of the result. */
    method Cancel(reason: Value)
      requires Valid()
      modifies this
      ensures Valid()
      ensures Model() == Apply(cfg, old(Model()), CancelEvent(reason))
    {
      CancelAll(reason);
    }

    /** The cleanup of the deps effect (line 324-326), run when a dep changes. */
    method DepsChange()
      requires Valid()
      modifies this
      ensures Valid()
      ensures Model() == Apply(cfg, old(Model()), DepsChangeEvent)
    {
      CancelAll(Unmounted);
    }

    /** Unmount: the deps cleanup and, with states on, the mount-flag cleanup
        (lines 324-332). */
    method Unmount()
      requires Valid()
      modifies this
      ensures Valid()
      ensures Model() == Apply(cfg, old(Model()), UnmountEvent)
    {
      CancelAll(Unmounted);
      if cfg.states {
        mounted := false;
        InvIgnoresMounted(cfg, Admission.CancelAll(old(Model()), Unmounted));
      }
    }
  }

  lemma InvIgnoresMounted(c: Config, s: State)
    requires Inv(c, s)
    ensures Inv(c, s.(mounted := false))
  {
  }

  /** `useAsyncCallback(generator, options)`: the set-up checks, and on
      success a fresh owner in its initial state. */
  method UseAsyncCallback(opts: OptionsArg) returns (r: Result<Owner>)
    ensures r.Fail? ==> CallbackOptions(opts).Fail? && r.error == CallbackOptions(opts).error
    ensures r.Ok? ==> CallbackOptions(opts).Ok? && fresh(r.value)
                      && r.value.cfg == CallbackOptions(opts).value
                      && r.value.Model() == Init && r.value.Valid()
  {
    var c := CallbackOptions(opts);
    if c.Fail? {
      return Fail(c.error);
    }
    var owner := new Owner(c.value);
    return Ok(owner);
  }
}
