/**
 * Return strategies of an expectation (the `Rfunc` enum of mockall) and what
 * one `call_mut` on a strategy produces and leaves behind.
 *
 * Every panic of the engine is an error value here: a call either returns an
 * output or panics for one of the reasons in `Panic`.
 */
module Strategy {

  datatype Option<T> = None | Some(value: T)

  /** The distinct panics of the engine. */
  datatype Panic =
    | DefaultNeedsNightly    // a Default strategy was called on a build without the nightly feature
    | NoDefaultForType       // a Default strategy was called on nightly, but the output type has no Default impl
    | CalledTwice            // an Expired strategy (a return_once already used) was called again
    | Poisoned               // the slot's mutex was poisoned by an earlier panic, so lock().unwrap() panics
    | NoMatchingExpectation  // `called` found no slot under the key

  /** The result of one call: a returned output or a panic. */
  datatype Outcome<O> = Returned(value: O) | Panicked(reason: Panic)

  /**
   * What the build offers to `return_default`: whether the nightly
   * specialization feature is on, and the output type's `O::default()` when
   * the output type implements `Default` (None otherwise).
   */
  datatype Defaults<O> = Defaults(nightly: bool, zero: Option<O>)

  /**
   * A return strategy. `Mut` and `Once` hold the user's closure; `Once` is
   * consumed by its first call and leaves `Expired` behind.
   */
  datatype Rfunc<!I, O> =
    | Default
    | Expired
    | Mut(f: I -> O)
    | Once(f: I -> O)

  /**
   * `ReturnDefault::return_default`: the two-tier default policy. Without the
   * nightly feature it always panics; with it, it returns the output type's
   * default value when there is one and panics otherwise.
   */
  function ReturnDefault<O>(env: Defaults<O>): (r: Outcome<O>)
    ensures r.Returned? <==> env.nightly && env.zero.Some?
    ensures r.Returned? ==> r.value == env.zero.value
    ensures !env.nightly ==> r == Panicked(DefaultNeedsNightly)
    ensures env.nightly && env.zero.None? ==> r == Panicked(NoDefaultForType)
  {
    if !env.nightly then Panicked(DefaultNeedsNightly)
    else match env.zero
      case Some(z) => Returned(z)
      case None => Panicked(NoDefaultForType)
  }

  /** What `call_mut` on strategy `r` with `args` produces. */
  function Produce<I, O>(r: Rfunc<I, O>, args: I, env: Defaults<O>): (out: Outcome<O>)
  {
    match r
    case Default => ReturnDefault(env)
    case Expired => Panicked(CalledTwice)
    case Mut(f) => Returned(f(args))
    case Once(f) => Returned(f(args))
  }

  /** The strategy `call_mut` leaves in place of `r`. */
  function After<I, O>(r: Rfunc<I, O>): (next: Rfunc<I, O>)
  {
    if r.Once? then Expired else r
  }

  /** A `Mut(f)` strategy answers `f(args)` and is still `Mut(f)` afterwards. */
  lemma MutIsReused<I, O>(f: I -> O, args: I, env: Defaults<O>)
    ensures Produce(Mut(f), args, env) == Returned(f(args))
    ensures After(Mut(f)) == Mut(f)
  {
  }

  /** A `Once(f)` strategy answers `f(args)` and leaves `Expired` behind. */
  lemma OnceExpires<I, O>(f: I -> O, args: I, env: Defaults<O>)
    ensures Produce(Once(f), args, env) == Returned(f(args))
    ensures After(Once(f)) == Expired
  {
  }

  /** An `Expired` strategy panics with CalledTwice whatever the arguments, and stays `Expired`. */
  lemma ExpiredAlwaysPanics<I, O>(args: I, env: Defaults<O>)
    ensures Produce(Expired, args, env) == Panicked(CalledTwice)
    ensures After(Rfunc<I, O>.Expired) == Expired
  {
  }

  /** A `Default` strategy follows the default policy whatever the arguments, and stays `Default`. */
  lemma DefaultFollowsPolicy<I, O>(args: I, env: Defaults<O>)
    ensures Produce(Default, args, env) == ReturnDefault(env)
    ensures !env.nightly ==> Produce(Default, args, env) == Panicked(DefaultNeedsNightly)
    ensures env.nightly && env.zero.Some? ==> Produce(Default, args, env) == Returned(env.zero.value)
    ensures env.nightly && env.zero.None? ==> Produce(Default, args, env) == Panicked(NoDefaultForType)
    ensures After(Rfunc<I, O>.Default) == Default
  {
  }

  /** Only a `Once` strategy changes on a call, and the state left behind is stable under further calls. */
  lemma OnlyOnceChangesState<I, O>(r: Rfunc<I, O>)
    ensures After(r) != r <==> r.Once?
    ensures After(After(r)) == After(r)
  {
  }
}
