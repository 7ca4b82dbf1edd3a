/**
 * The expectation slot (`Expectation<I, O>` of mockall): one return strategy
 * behind a mutex. A call locks the mutex and runs `call_mut` on the strategy.
 *
 * The mutex is taken with `lock().unwrap()`. A panic raised while the guard is
 * held poisons the mutex, and from then on every `lock().unwrap()` panics. The
 * slot's state is therefore the strategy together with the poison flag.
 */
module Slot {
  import opened Strategy

  /** The value of a slot: its strategy and whether its mutex is poisoned. */
  datatype SlotState<!I, O> = SlotState(rfunc: Rfunc<I, O>, poisoned: bool)

  /** What one `Expectation::call` on a slot in state `s` produces. */
  function Invoke<I, O>(s: SlotState<I, O>, args: I, env: Defaults<O>): (out: Outcome<O>)
  {
    if s.poisoned then Panicked(Poisoned) else Produce(s.rfunc, args, env)
  }

  /** The state one `Expectation::call` leaves the slot in. */
  function Next<I, O>(s: SlotState<I, O>, args: I, env: Defaults<O>): (s': SlotState<I, O>)
  {
    if s.poisoned then s
    else SlotState(After(s.rfunc), Produce(s.rfunc, args, env).Panicked?)
  }

  /** The outputs of successive calls on one slot with the arguments `args`, in order. */
  function CallAll<I, O>(s: SlotState<I, O>, args: seq<I>, env: Defaults<O>): (outs: seq<Outcome<O>>)
    ensures |outs| == |args|
    decreases |args|
  {
    if |args| == 0 then []
    else [Invoke(s, args[0], env)] + CallAll(Next(s, args[0], env), args[1..], env)
  }

  class Expectation<I, O> {
    /** The strategy inside the mutex. */
    var rfunc: Rfunc<I, O>
    /** Whether the mutex has been poisoned by a panic while it was locked. */
    var poisoned: bool

    ghost function State(): SlotState<I, O>
      reads this
    {
      SlotState(rfunc, poisoned)
    }

    /** `Expectation::new`: a fresh, unpoisoned mutex around `rfunc`. */
    constructor (rfunc: Rfunc<I, O>)
      ensures State() == SlotState(rfunc, false)
    {
      this.rfunc := rfunc;
      poisoned := false;
    }

    /**
     * `Rfunc::call_mut`, run while the lock is held: it produces the output of
     * the strategy and replaces a `Once` strategy by `Expired`.
     */
    method CallMut(args: I, env: Defaults<O>) returns (out: Outcome<O>)
      modifies this`rfunc
      ensures out == Produce(old(rfunc), args, env)
      ensures rfunc == After(old(rfunc))
    {
      match rfunc
      case Default =>
        out := ReturnDefault(env);
      case Expired =>
        out := Panicked(CalledTwice);
      case Mut(f) =>
        out := Returned(f(args));
      case Once(f) =>
        // The strategy is swapped for Expired before the closure it held runs.
        rfunc := Expired;
        out := Returned(f(args));
    }

    /**
     * `Expectation::call`: lock the mutex (which panics if it is poisoned) and
     * run `call_mut`; a panic of `call_mut` poisons the mutex.
     */
    method Call(args: I, env: Defaults<O>) returns (out: Outcome<O>)
      modifies this
      ensures out == Invoke(old(State()), args, env)
      ensures State() == Next(old(State()), args, env)
    {
      if poisoned {
        out := Panicked(Poisoned);
        return;
      }
      out := CallMut(args, env);
      if out.Panicked? {
        poisoned := true;
      }
    }
  }

  /** Once a slot is poisoned, every later call panics with Poisoned, whatever the arguments. */
  lemma {:induction false} PoisonedStaysPoisoned<I, O>(s: SlotState<I, O>, args: seq<I>, env: Defaults<O>)
    requires s.poisoned
    ensures forall i :: 0 <= i < |args| ==> CallAll(s, args, env)[i] == Panicked(Poisoned)
  {
    if |args| > 0 {
      PoisonedStaysPoisoned(Next(s, args[0], env), args[1..], env);
    }
  }

  /** A panic on one call poisons the slot: every later call on it panics with Poisoned. */
  lemma {:induction false} PanicPoisonsLaterCalls<I, O>(s: SlotState<I, O>, args: seq<I>, env: Defaults<O>, i: nat, j: nat)
    requires i < j < |args|
    requires CallAll(s, args, env)[i].Panicked?
    ensures CallAll(s, args, env)[j] == Panicked(Poisoned)
    decreases i
  {
    var s' := Next(s, args[0], env);
    if i == 0 {
      assert Next(s, args[0], env).poisoned;
      PoisonedStaysPoisoned(s', args[1..], env);
      assert CallAll(s', args[1..], env)[j - 1] == Panicked(Poisoned);
    } else {
      assert CallAll(s', args[1..], env)[i - 1].Panicked?;
      PanicPoisonsLaterCalls(s', args[1..], env, i - 1, j - 1);
    }
  }

  /**
   * A slot holding `Mut(f)` answers `f(a1), …, f(aN)` to N successive calls,
   * for any N, and is never poisoned by them.
   */
  lemma {:induction false} MutAnswersEveryCall<I, O>(f: I -> O, args: seq<I>, env: Defaults<O>)
    ensures forall i :: 0 <= i < |args| ==> CallAll(SlotState(Mut(f), false), args, env)[i] == Returned(f(args[i]))
  {
    if |args| > 0 {
      var s := SlotState(Mut(f), false);
      assert Next(s, args[0], env) == s;
      MutAnswersEveryCall(f, args[1..], env);
      forall i | 1 <= i < |args|
        ensures CallAll(s, args, env)[i] == Returned(f(args[i]))
      {
        assert CallAll(s, args, env)[i] == CallAll(s, args[1..], env)[i - 1];
        assert args[1..][i - 1] == args[i];
      }
    }
  }

  /**
   * A slot holding `Expired` panics with CalledTwice on the next call, whatever
   * the arguments; that panic poisons it, so every call after that panics with
   * Poisoned.
   */
  lemma {:induction false} ExpiredPanicsEveryCall<I, O>(args: seq<I>, env: Defaults<O>)
    requires |args| > 0
    ensures CallAll(SlotState(Expired, false), args, env)[0] == Panicked(CalledTwice)
    ensures forall i :: 1 <= i < |args| ==> CallAll(SlotState(Expired, false), args, env)[i] == Panicked(Poisoned)
  {
    var s: SlotState<I, O> := SlotState(Expired, false);
    forall i | 1 <= i < |args|
      ensures CallAll(s, args, env)[i] == Panicked(Poisoned)
    {
      PanicPoisonsLaterCalls(s, args, env, 0, i);
    }
  }

  /**
   * A slot holding `Once(f)` answers `f(a1)` to the first call only; the second
   * call panics with CalledTwice and every later one with Poisoned. So a
   * `return_once` closure produces a value at most once.
   */
  lemma {:induction false} OnceAnswersFirstCallOnly<I, O>(f: I -> O, args: seq<I>, env: Defaults<O>)
    requires |args| > 0
    ensures CallAll(SlotState(Once(f), false), args, env)[0] == Returned(f(args[0]))
    ensures |args| > 1 ==> CallAll(SlotState(Once(f), false), args, env)[1] == Panicked(CalledTwice)
    ensures forall i :: 2 <= i < |args| ==> CallAll(SlotState(Once(f), false), args, env)[i] == Panicked(Poisoned)
    ensures forall i :: 1 <= i < |args| ==> CallAll(SlotState(Once(f), false), args, env)[i].Panicked?
  {
    var s := SlotState(Once(f), false);
    var s' := Next(s, args[0], env);
    assert s' == SlotState(Expired, false);
    if |args| > 1 {
      ExpiredPanicsEveryCall(args[1..], env);
      forall i | 1 <= i < |args|
        ensures CallAll(s, args, env)[i] == CallAll(s', args[1..], env)[i - 1]
      {
      }
    }
  }

  /**
   * A slot holding `Default` returns the output type's default to every call
   * when the build can supply one; otherwise the first call panics with the
   * policy's reason and every later one with Poisoned.
   */
  lemma {:induction false} DefaultAnswersByPolicy<I, O>(args: seq<I>, env: Defaults<O>)
    requires |args| > 0
    ensures CallAll(SlotState(Default, false), args, env)[0] == ReturnDefault(env)
    ensures ReturnDefault(env).Returned? ==>
      forall i :: 0 <= i < |args| ==> CallAll(SlotState(Default, false), args, env)[i] == Returned(env.zero.value)
    ensures ReturnDefault(env).Panicked? ==>
      forall i :: 1 <= i < |args| ==> CallAll(SlotState(Default, false), args, env)[i] == Panicked(Poisoned)
  {
    var s: SlotState<I, O> := SlotState(Default, false);
    if ReturnDefault(env).Returned? {
      DefaultKeepsAnswering(args, env);
    } else {
      forall i | 1 <= i < |args|
        ensures CallAll(s, args, env)[i] == Panicked(Poisoned)
      {
        PanicPoisonsLaterCalls(s, args, env, 0, i);
      }
    }
  }

  /** With a default available, a `Default` slot keeps returning it and is never poisoned. */
  lemma {:induction false} DefaultKeepsAnswering<I, O>(args: seq<I>, env: Defaults<O>)
    requires env.nightly && env.zero.Some?
    ensures forall i :: 0 <= i < |args| ==> CallAll(SlotState(Default, false), args, env)[i] == Returned(env.zero.value)
  {
    if |args| > 0 {
      var s: SlotState<I, O> := SlotState(Default, false);
      assert Next(s, args[0], env) == s;
      DefaultKeepsAnswering(args[1..], env);
      forall i | 1 <= i < |args|
        ensures CallAll(s, args, env)[i] == Returned(env.zero.value)
      {
        assert CallAll(s, args, env)[i] == CallAll(s, args[1..], env)[i - 1];
      }
    }
  }
}
