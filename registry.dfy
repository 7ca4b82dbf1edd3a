/**
 * The registry of expectations (`Expectations` of mockall), its keys and the
 * builder that commits a configured strategy into it.
 *
 * Rust stores slots of many `(I, O)` types in one map behind a type-erased box
 * and recovers the concrete type by downcasting. Here one registry ranges over
 * a single universe of argument values `I` and outputs `O`, and the `(I, O)`
 * type a caller asserts is carried as a `TypeTag` inside the key.
 */
module Registry {
  import opened Strategy
  import opened Slot

  /** Stands for `TypeId::of::<(I, O)>()`: the argument tuple type and the output type of a mocked method. */
  datatype TypeTag = TypeTag(input: string, output: string)

  /**
   * A storage key. Rust hashes the ident and the type id into a `u64`; here the
   * key is the pair itself, so two keys are equal exactly when both parts are.
   */
  datatype Key = Key(ident: string, tag: TypeTag)

  /**
   * `Key::new`: the key of method `ident` with `(I, O)` type `tag`. It keeps
   * both parts whole, so it never identifies two different methods or types
   * (see NewKeyDeterministic).
   */
  function NewKey(ident: string, tag: TypeTag): (k: Key)
    ensures k.ident == ident && k.tag == tag
  {
    Key(ident, tag)
  }

  /** Same ident and same types give the same key, and different ones give different keys. */
  lemma NewKeyDeterministic(ident: string, tag: TypeTag, ident': string, tag': TypeTag)
    ensures NewKey(ident, tag) == NewKey(ident', tag') <==> ident == ident' && tag == tag'
  {
  }

  /** The lookup step of `called`: the slot stored under the key of `ident` and `tag`, if any. */
  function Lookup<I, O>(store: map<Key, Expectation<I, O>>, ident: string, tag: TypeTag): (e: Option<Expectation<I, O>>)
    ensures e.Some? <==> NewKey(ident, tag) in store
    ensures e.Some? ==> e.value == store[NewKey(ident, tag)]
  {
    var key := NewKey(ident, tag);
    if key in store then Some(store[key]) else None
  }

  /**
   * After a slot is stored under `ident` and `tag`, a lookup with the same ident
   * and types finds exactly that slot, and a lookup with any other ident or
   * types finds what it found before.
   */
  lemma LookupFindsRegistered<I, O>(store: map<Key, Expectation<I, O>>, ident: string, tag: TypeTag,
                                    slot: Expectation<I, O>, ident': string, tag': TypeTag)
    ensures Lookup(store[NewKey(ident, tag) := slot], ident, tag) == Some(slot)
    ensures ident' != ident || tag' != tag ==>
      Lookup(store[NewKey(ident, tag) := slot], ident', tag') == Lookup(store, ident', tag')
  {
  }

  /** What `called` with key `k` produces, on a registry whose slots are in states `m`. */
  function Dispatch<I, O>(m: map<Key, SlotState<I, O>>, k: Key, args: I, env: Defaults<O>): (out: Outcome<O>)
  {
    if k in m then Invoke(m[k], args, env) else Panicked(NoMatchingExpectation)
  }

  /** The slot states `called` with key `k` leaves behind. */
  function Settle<I, O>(m: map<Key, SlotState<I, O>>, k: Key, args: I, env: Defaults<O>): (m': map<Key, SlotState<I, O>>)
  {
    if k in m then m[k := Next(m[k], args, env)] else m
  }

  /** The outputs of successive `called`s with key `k` and arguments `args`, in order. */
  function DispatchAll<I, O>(m: map<Key, SlotState<I, O>>, k: Key, args: seq<I>, env: Defaults<O>): (outs: seq<Outcome<O>>)
    ensures |outs| == |args|
    decreases |args|
  {
    if |args| == 0 then []
    else [Dispatch(m, k, args[0], env)] + DispatchAll(Settle(m, k, args[0], env), k, args[1..], env)
  }

  /** `called` panics with NoMatchingExpectation when nothing is registered under the key, and changes nothing. */
  lemma UnregisteredPanics<I, O>(m: map<Key, SlotState<I, O>>, k: Key, args: I, env: Defaults<O>)
    requires k !in m
    ensures Dispatch(m, k, args, env) == Panicked(NoMatchingExpectation)
    ensures Settle(m, k, args, env) == m
  {
  }

  /** A `called` touches only the slot under its own key; every other key keeps its slot state. */
  lemma SettleTouchesOneKey<I, O>(m: map<Key, SlotState<I, O>>, k: Key, args: I, env: Defaults<O>, k': Key)
    requires k' != k
    ensures Settle(m, k, args, env).Keys == m.Keys
    ensures k' in m ==> Settle(m, k, args, env)[k'] == m[k']
  {
  }

  /**
   * N successive `called`s with a registered key answer exactly what N
   * successive calls on that key's slot answer.
   */
  lemma {:induction false} DispatchAllCallsSlot<I, O>(m: map<Key, SlotState<I, O>>, k: Key, args: seq<I>, env: Defaults<O>)
    requires k in m
    ensures DispatchAll(m, k, args, env) == CallAll(m[k], args, env)
  {
    if |args| > 0 {
      var m' := Settle(m, k, args[0], env);
      assert m'[k] == Next(m[k], args[0], env);
      DispatchAllCallsSlot(m', k, args[1..], env);
    }
  }

  /** Every `called` with a key that was never registered panics with NoMatchingExpectation. */
  lemma {:induction false} DispatchAllUnregistered<I, O>(m: map<Key, SlotState<I, O>>, k: Key, args: seq<I>, env: Defaults<O>)
    requires k !in m
    ensures forall i :: 0 <= i < |args| ==> DispatchAll(m, k, args, env)[i] == Panicked(NoMatchingExpectation)
  {
    if |args| > 0 {
      assert Settle(m, k, args[0], env) == m;
      DispatchAllUnregistered(m, k, args[1..], env);
    }
  }

  /**
   * Registering twice under the same key leaves only the second slot
   * observable: `called` with that key answers from the second slot, and
   * `called` with any other key answers as before.
   */
  lemma ReregisterReplaces<I, O>(m: map<Key, SlotState<I, O>>, k: Key, first: SlotState<I, O>, second: SlotState<I, O>,
                                 k': Key, args: I, env: Defaults<O>)
    ensures m[k := first][k := second] == m[k := second]
    ensures Dispatch(m[k := first][k := second], k, args, env) == Invoke(second, args, env)
    ensures k' != k ==> Dispatch(m[k := first][k := second], k', args, env) == Dispatch(m, k', args, env)
  {
  }

  class Expectations<I, O> {
    /** The slots, one per key. */
    var store: map<Key, Expectation<I, O>>

    /** Distinct keys hold distinct slots: a slot is owned by the one key it was registered under. */
    ghost predicate Valid()
      reads this
    {
      forall k, k' :: k in store && k' in store && k != k' ==> store[k] != store[k']
    }

    /** The state of every registered slot, by key. */
    ghost function Slots(): map<Key, SlotState<I, O>>
      reads this, store.Values
    {
      map k | k in store :: store[k].State()
    }

    /** `Expectations::default()`: an empty registry. */
    constructor ()
      ensures Valid() && store == map[] && Slots() == map[]
    {
      store := map[];
    }

    /**
     * `Expectations::register`: store `expectation` under the key of `ident`
     * and `tag`, replacing any slot already there. The slot is moved in, so it
     * is not held under another key.
     */
    method Register(ident: string, tag: TypeTag, expectation: Expectation<I, O>)
      requires Valid()
      requires expectation !in store.Values
      modifies this
      ensures Valid()
      ensures store == old(store)[NewKey(ident, tag) := expectation]
      ensures Slots() == old(Slots())[NewKey(ident, tag) := expectation.State()]
    {
      store := store[NewKey(ident, tag) := expectation];
    }

    /** `Expectations::expect`: begin configuring the method `ident` with `(I, O)` type `tag`. */
    method Expect(ident: string, tag: TypeTag) returns (b: ExpectationBuilder<I, O>)
      ensures fresh(b)
      ensures b.e == this && b.ident == ident && b.tag == tag
      ensures b.rfunc == Default && !b.committed
    {
      b := new ExpectationBuilder(this, ident, tag);
    }

    /**
     * `Expectations::called`: find the slot under the key of `ident` and `tag`
     * and call it. With no such slot it panics with NoMatchingExpectation. Only
     * the found slot changes; the map of slots does not.
     */
    method Called(ident: string, tag: TypeTag, args: I, env: Defaults<O>) returns (out: Outcome<O>)
      requires Valid()
      modifies store.Values
      ensures Valid() && store == old(store)
      ensures out == Dispatch(old(Slots()), NewKey(ident, tag), args, env)
      ensures Slots() == Settle(old(Slots()), NewKey(ident, tag), args, env)
    {
      match Lookup(store, ident, tag)
      case None =>
        out := Panicked(NoMatchingExpectation);
      case Some(e) =>
        out := e.Call(args, env);
        assert forall k :: k in store && k != NewKey(ident, tag) ==> store[k] != e;
    }
  }

  class ExpectationBuilder<I, O> {
    /** The registry the builder commits into. */
    const e: Expectations<I, O>
    /** The strategy configured so far. */
    var rfunc: Rfunc<I, O>
    const ident: string
    /** The builder's `(I, O)` type. */
    const tag: TypeTag
    /** Whether the builder has been dropped; a dropped builder no longer exists in Rust. */
    var committed: bool

    /** `ExpectationBuilder::new`: no strategy configured yet. */
    constructor (e: Expectations<I, O>, ident: string, tag: TypeTag)
      ensures this.e == e && this.ident == ident && this.tag == tag
      ensures rfunc == Default && !committed
    {
      this.e := e;
      this.ident := ident;
      this.tag := tag;
      rfunc := Default;
      committed := false;
    }

    /** `returning`: replace whatever strategy was configured by the reusable `Mut(f)`. */
    method Returning(f: I -> O)
      requires !committed
      modifies this`rfunc
      ensures rfunc == Mut(f)
    {
      rfunc := Mut(f);
    }

    /** `return_once`: replace whatever strategy was configured by the single-use `Once(f)`. */
    method ReturnOnce(f: I -> O)
      requires !committed
      modifies this`rfunc
      ensures rfunc == Once(f)
    {
      rfunc := Once(f);
    }

    /**
     * `Drop::drop`: take the configured strategy (leaving `Default` in the
     * builder), wrap it in a fresh slot and register it under the builder's
     * key. Entries under other keys are untouched.
     */
    method Commit()
      requires !committed && e.Valid()
      modifies this, e
      ensures committed && rfunc == Default
      ensures e.Valid() && fresh(e.store.Values - old(e.store.Values))
      ensures e.Slots() == old(e.Slots())[NewKey(ident, tag) := SlotState(old(rfunc), false)]
    {
      var taken := rfunc;
      rfunc := Default;
      var slot := new Expectation(taken);
      e.Register(ident, tag, slot);
      committed := true;
    }
  }
}
