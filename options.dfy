/** Option normalisation and set-up validation of both hooks
    (lib/use-async-effect.js:39-43, 164-200, 305-308). */
module HookOptions {
  import opened JsValues

  /** A JavaScript number option: a finite number, or anything that
      `Number.isFinite` refuses (NaN, the infinities, null, strings, ...).
      Every such value also differs from -1 under `!==`. */
  datatype Num = Finite(value: real) | NonFinite

  /** The properties the hooks destructure from an options object; `None`
      is `undefined`, so the destructuring default applies. Boolean options
      are recorded by their truthiness, the only way the code uses them. */
  datatype OptionFields = OptionFields(
    deps: Option<seq<Value>>,
    combine: bool,
    cancelPrevious: bool,
    threads: Option<Num>,
    queueSize: Option<Num>,
    scopeArg: bool,
    states: bool,
    skipFirst: bool)

  /** The `options` argument: null or undefined, a non-object (a number, a
      string, a function, ...), an array of deps, or an options object. */
  datatype OptionsArg =
    | Nullish
    | NonObject
    | ArrayArg(items: seq<Value>)
    | ObjectArg(fields: OptionFields)

  /** The settings of one `useAsyncCallback` owner after defaulting. */
  datatype Config = Config(
    deps: seq<Value>,
    combine: bool,
    cancelPrevious: bool,
    threads: real,
    queueSize: real,
    scopeArg: bool,
    states: bool)

  /** The errors thrown at set-up, one per `throw` in source order. */
  datatype ConfigError =
    | GeneratorRequired
    | OptionsNotObject
    | MultithreadingWithCancelPrevious
    | ThreadsNotPositive
    | QueueSizeInvalid
    | StatesNotSingleThreaded

  datatype Result<+T> = Ok(value: T) | Fail(error: ConfigError)

  const NoFields: OptionFields := OptionFields(None, false, false, None, None, false, false, false)

  /** What the destructuring sees: an array becomes `{deps}`, null and
      undefined become `{}`, and a primitive has none of the properties. */
  function Fields(opts: OptionsArg): (f: OptionFields)
    ensures opts.ArrayArg? ==> f == NoFields.(deps := Some(opts.items))
    ensures opts.ObjectArg? ==> f == opts.fields
    ensures opts.Nullish? || opts.NonObject? ==> f == NoFields
  {
    match opts
    case ArrayArg(items) => NoFields.(deps := Some(items))
    case ObjectArg(fields) => fields
    case _ => NoFields
  }

  /** What every accepted configuration satisfies. */
  predicate ValidConfig(c: Config) {
    && c.threads >= 0.0
    && c.queueSize >= -1.0
    && (c.cancelPrevious ==> c.threads == 1.0)
    && (c.states ==> c.threads == 1.0)
  }

  /** The thread limit in effect: the given one, else 1 when cancelPrevious
      or states is set, else 0. */
  function EffectiveThreads(f: OptionFields): real
    requires f.threads.Some? ==> f.threads.value.Finite?
  {
    if f.threads.Some? then f.threads.value.value
    else if f.cancelPrevious || f.states then 1.0
    else 0.0
  }

  /** An independent statement of which option sets are accepted: an
      explicit thread count must be a finite number >= 0 and excludes
      cancelPrevious, a queue size must be a finite number >= -1, and
      states needs exactly one thread. */
  predicate Acceptable(f: OptionFields) {
    && (f.threads.Some? ==> !f.cancelPrevious && f.threads.value.Finite? && f.threads.value.value >= 0.0)
    && (f.queueSize.Some? ==> f.queueSize.value.Finite? && f.queueSize.value.value >= -1.0)
    && (f.states ==> EffectiveThreads(f) == 1.0)
  }

  /** Set-up of `useAsyncCallback`: option type check, defaulting, the
      threads and queueSize checks, and the states check, in source order. */
  function CallbackOptions(opts: OptionsArg): (r: Result<Config>)
    ensures r.Ok? ==> ValidConfig(r.value)
    ensures r.Ok? ==> var f := Fields(opts);
      && r.value.deps == (if f.deps.Some? then f.deps.value else [])
      && r.value.combine == f.combine && r.value.cancelPrevious == f.cancelPrevious
      && r.value.scopeArg == f.scopeArg && r.value.states == f.states
    ensures r.Ok? && Fields(opts).threads.Some? ==>
      Fields(opts).threads.value.Finite? && r.value.threads == Fields(opts).threads.value.value
    ensures r.Ok? && Fields(opts).queueSize.Some? ==>
      Fields(opts).queueSize.value.Finite? && r.value.queueSize == Fields(opts).queueSize.value.value
    ensures r == Fail(OptionsNotObject) <==> opts.NonObject?
  {
    if opts.NonObject? then Fail(OptionsNotObject)
    else
      var f := Fields(opts);
      if f.threads.Some? && f.cancelPrevious && f.threads.value != Finite(-1.0) then
        Fail(MultithreadingWithCancelPrevious)
      else if f.threads.Some? && !(f.threads.value.Finite? && f.threads.value.value >= 0.0) then
        Fail(ThreadsNotPositive)
      else if f.queueSize.Some? && f.queueSize.value != Finite(-1.0)
              && !(f.queueSize.value.Finite? && f.queueSize.value.value >= -1.0) then
        Fail(QueueSizeInvalid)
      else
        var threads := EffectiveThreads(f);
        var queueSize := if f.queueSize.Some? then f.queueSize.value.value else -1.0;
        if f.states && threads != 1.0 then Fail(StatesNotSingleThreaded)
        else
          Ok(Config(if f.deps.Some? then f.deps.value else [], f.combine, f.cancelPrevious,
                    threads, queueSize, f.scopeArg, f.states))
  }

  /** The set-up succeeds exactly for the acceptable option sets. */
  lemma CallbackOptionsAccepts(opts: OptionsArg)
    ensures CallbackOptions(opts).Ok? <==> !opts.NonObject? && Acceptable(Fields(opts))
  {
  }

  /** Any explicit `threads` together with cancelPrevious throws: -1 passes
      the first check and then fails the sign check. */
  lemma CancelPreviousRejectsExplicitThreads(opts: OptionsArg)
    requires !opts.NonObject? && Fields(opts).cancelPrevious && Fields(opts).threads.Some?
    ensures CallbackOptions(opts).Fail?
    ensures CallbackOptions(opts).error ==
      if Fields(opts).threads.value == Finite(-1.0) then ThreadsNotPositive
      else MultithreadingWithCancelPrevious
  {
  }

  /** An omitted `threads` becomes 1 under cancelPrevious or states, else 0;
      an omitted `queueSize` becomes -1 (unbounded), although the doc
      comment at line 158 says 0. */
  lemma Defaults(opts: OptionsArg)
    requires CallbackOptions(opts).Ok?
    ensures Fields(opts).threads.None? ==>
      CallbackOptions(opts).value.threads == if Fields(opts).cancelPrevious || Fields(opts).states then 1.0 else 0.0
    ensures Fields(opts).queueSize.None? ==> CallbackOptions(opts).value.queueSize == -1.0
  {
  }

  /** states is accepted only with exactly one effective thread. */
  lemma StatesNeedOneThread(opts: OptionsArg)
    requires !opts.NonObject? && Fields(opts).states
    requires Fields(opts).threads.Some? ==> Fields(opts).threads.value.Finite?
    ensures CallbackOptions(opts).Ok? ==> CallbackOptions(opts).value.threads == 1.0
    ensures Fields(opts).threads.Some? && Fields(opts).threads.value.value != 1.0 ==> CallbackOptions(opts).Fail?
  {
  }

  /** An array of deps, or no options at all, gives the default owner:
      no combining, no thread limit and an unbounded queue. */
  lemma ArrayOptionsAreDeps(items: seq<Value>)
    ensures CallbackOptions(ArrayArg(items)) == Ok(Config(items, false, false, 0.0, -1.0, false, false))
    ensures CallbackOptions(Nullish) == Ok(Config([], false, false, 0.0, -1.0, false, false))
  {
  }

  /** The settings of one `useAsyncEffect`. */
  datatype EffectConfig = EffectConfig(deps: seq<Value>, skipFirst: bool, states: bool)

  /** `useAsyncEffect` performs no validation of its options: anything that
      is not an array or an object gives the defaults. */
  function EffectOptions(opts: OptionsArg): (r: EffectConfig)
    ensures opts.ArrayArg? ==> r == EffectConfig(opts.items, false, false)
    ensures opts.Nullish? || opts.NonObject? ==> r == EffectConfig([], false, false)
    ensures opts.ObjectArg? ==> r.skipFirst == opts.fields.skipFirst && r.states == opts.fields.states
  {
    var f := Fields(opts);
    EffectConfig(if f.deps.Some? then f.deps.value else [], f.skipFirst, f.states)
  }
}
