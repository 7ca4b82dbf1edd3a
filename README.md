# mockall call-expectation engine, in Dafny

A model of the runtime core of an early mockall (`mockall/src/lib.rs`). The
core is a registry of call expectations. A test declares, for a method name
and its `(I, O)` type, what a call should do. A mocked method then calls
through the registry and gets an output or a panic.

- `strategy.dfy`, module `Strategy`. The return strategy `Rfunc` has four
  states: `Default`, `Expired`, `Mut(f)` and `Once(f)`. `Produce` and `After`
  give what one `call_mut` produces and which strategy it leaves behind.
  `ReturnDefault` is the default policy: a stable build always panics, and a
  nightly build returns `O::default()` when the output type has a `Default`
  impl. Every panic is a `Panic` value inside an `Outcome`.
- `slot.dfy`, module `Slot`. The class `Expectation` is one strategy behind a
  mutex. `CallMut` is `Rfunc::call_mut`: it updates the strategy in place and
  swaps `Once` for `Expired` before the closure runs. `Call` is
  `Expectation::call`. `CallAll` gives the outputs of successive calls, and
  the lemmas say what each kind of strategy answers across any number of
  calls.
- `registry.dfy`, module `Registry`. `Key` is the pair of ident and `TypeTag`,
  and `TypeTag` stands for the `(I, O)` type. `Lookup` is the lookup step of
  `called`. `Dispatch`, `Settle` and `DispatchAll` specify `called` on the
  abstract map from key to slot state. The class `Expectations` holds the
  `store` map from key to slot object. The class `ExpectationBuilder` holds
  the strategy being configured, and its `Commit` is the builder's `Drop`.
- `scenarios.dfy`, module `Scenarios`. Client methods for a mocked
  `add(a, b)`: reusable and single-use returns, last-configuration-wins, and
  unmatched calls.

The mutex is taken with `lock().unwrap()` (lib.rs:88). Any panic while the
guard is held poisons the mutex, and from then on every `lock().unwrap()` on
that slot panics. So the model's slot state is the strategy plus a poison
flag. After a `return_once` has been used, the next call panics with
`CalledTwice`. That panic poisons the slot, so every later call panics with
`Poisoned`. The `Expired` variant (lib.rs:21-22) and its panic message
(lib.rs:38) speak of a used `return_once` being called twice; because of the
poisoning at lib.rs:88, only the first later call reports that, and every
call after it panics with `Poisoned` (`Slot.OnceAnswersFirstCallOnly`,
`Scenarios.AddReturnOnce`). An unconfigured (`Default`) slot on a stable
build likewise poisons itself on its first call. Later calls after a panic
happen only when the panic is caught (unwinding plus `catch_unwind`) or
when another thread calls the same slot; otherwise the panicking thread
makes no further call.

`CallMut` swaps `Once` for `Expired` before the closure runs, as
`mem::replace` does at lib.rs:44. Its contract relates only the states before
and after the call, so it cannot state that ordering. Through
`Expectation::call` the ordering cannot be observed in the source either: a
closure that panics poisons the mutex at lib.rs:88, so every later call
panics with `Poisoned` before the strategy is read again.

## Model

| member | source | states |
|---|---|---|
| `Strategy.ReturnDefault` | mockall/src/lib.rs:55-80 | a value is returned exactly when the build is nightly and the output type has a default, and the value is that default; a stable build panics with DefaultNeedsNightly; nightly without a default panics with NoDefaultForType |
| `Strategy.DefaultFollowsPolicy` | mockall/src/lib.rs:34-36 | calling a `Default` strategy answers the default policy, whatever the arguments, and leaves `Default` |
| `Strategy.ExpiredAlwaysPanics` | mockall/src/lib.rs:37-39 | calling an `Expired` strategy panics with CalledTwice, whatever the arguments, and leaves `Expired` |
| `Strategy.MutIsReused` | mockall/src/lib.rs:40-42 | calling `Mut(f)` returns `f(args)` and leaves `Mut(f)` in place |
| `Strategy.OnceExpires` | mockall/src/lib.rs:43-50 | calling `Once(f)` returns `f(args)` and leaves `Expired` |
| `Strategy.OnlyOnceChangesState` | mockall/src/lib.rs:32-52 | a call changes the strategy exactly when it is `Once`, and the strategy left behind does not change on further calls |
| `Slot.Expectation.constructor` | mockall/src/lib.rs:92-94 | a new slot holds the given strategy in an unpoisoned mutex |
| `Slot.Expectation.CallMut` | mockall/src/lib.rs:32-53 | the output is what the old strategy produces for `args`, and the strategy becomes what that call leaves: `Once` becomes `Expired`, every other strategy stays |
| `Slot.Expectation.Call` | mockall/src/lib.rs:87-90 | a poisoned slot panics with Poisoned and is unchanged; otherwise the output is that of `call_mut`, and a panic poisons the slot |
| `Slot.CallAll` | mockall/src/lib.rs:87-90 | successive calls on a slot give one output per call |
| `Slot.PoisonedStaysPoisoned` | mockall/src/lib.rs:88 | on a poisoned slot every call panics with Poisoned, whatever the arguments |
| `Slot.PanicPoisonsLaterCalls` | mockall/src/lib.rs:87-90 | once a call on a slot panics, every later call on it panics with Poisoned |
| `Slot.MutAnswersEveryCall` | mockall/src/lib.rs:40-42 | after `returning(f)`, N successive calls with `a1..aN` answer `f(a1)..f(aN)`, for every N |
| `Slot.ExpiredPanicsEveryCall` | mockall/src/lib.rs:37-39 | an expired slot panics with CalledTwice on the next call and with Poisoned on every call after it |
| `Slot.OnceAnswersFirstCallOnly` | mockall/src/lib.rs:43-50 | after `return_once(f)`, the first call answers `f(a1)`, the second panics with CalledTwice, every later one panics with Poisoned; no call after the first returns a value |
| `Slot.DefaultAnswersByPolicy` | mockall/src/lib.rs:34-36 | an unconfigured slot answers the default policy on its first call; with a default available every call returns it, otherwise every later call panics with Poisoned |
| `Slot.DefaultKeepsAnswering` | mockall/src/lib.rs:75-80 | on nightly with a default available, an unconfigured slot returns the default to every call |
| `Registry.NewKey` | mockall/src/lib.rs:152-158 | the key is the pair of the ident and the `(I, O)` type tag, both kept whole; its injectivity is stated by `Registry.NewKeyDeterministic` |
| `Registry.NewKeyDeterministic` | mockall/src/lib.rs:152-158 | two keys are equal exactly when their idents and their `(I, O)` types are equal |
| `Registry.Lookup` | mockall/src/lib.rs:183-187 | a slot is found exactly when one is stored under the key of the ident and types, and it is the stored one |
| `Registry.LookupFindsRegistered` | mockall/src/lib.rs:170-171 | after storing a slot under an ident and types, a lookup with the same ident and types finds that slot, and lookups with any other ident or types are unchanged |
| `Registry.UnregisteredPanics` | mockall/src/lib.rs:184-185 | `called` with a key that is not registered panics with NoMatchingExpectation and changes no slot |
| `Registry.SettleTouchesOneKey` | mockall/src/lib.rs:182-188 | `called` keeps the set of keys and the state of every slot other than the one under its key |
| `Registry.DispatchAll` | mockall/src/lib.rs:182-189 | successive `called`s with one key give one output per call |
| `Registry.DispatchAllCallsSlot` | mockall/src/lib.rs:182-188 | N successive `called`s with a registered key answer exactly what N successive calls on that key's slot answer |
| `Registry.DispatchAllUnregistered` | mockall/src/lib.rs:182-185 | every `called` with a key that was never registered panics with NoMatchingExpectation |
| `Registry.ReregisterReplaces` | mockall/src/lib.rs:170-171 | registering twice under one key equals registering only the second; `called` answers from the second slot, and other keys answer as before |
| `Registry.Expectations.constructor` | mockall/src/lib.rs:161-164 | a new registry holds no slots |
| `Registry.Expectations.Register` | mockall/src/lib.rs:167-172 | the slot is stored under the key of the ident and types, replacing any earlier one; every other key keeps its slot, and distinct keys still hold distinct slots |
| `Registry.Expectations.Expect` | mockall/src/lib.rs:174-178 | a new builder for the ident and types, bound to this registry, with strategy `Default` |
| `Registry.Expectations.Called` | mockall/src/lib.rs:182-189 | the output is the dispatch of the old slot states (NoMatchingExpectation when the key is missing); only the slot under the key changes, and the store map does not |
| `Registry.ExpectationBuilder.constructor` | mockall/src/lib.rs:110-114 | a builder starts with strategy `Default` for its ident and types |
| `Registry.ExpectationBuilder.Returning` | mockall/src/lib.rs:116-121 | the whole strategy becomes `Mut(f)`, whatever was configured before |
| `Registry.ExpectationBuilder.ReturnOnce` | mockall/src/lib.rs:123-136 | the whole strategy becomes `Once(f)`, whatever was configured before |
| `Registry.ExpectationBuilder.Commit` | mockall/src/lib.rs:142-145 | the builder's strategy becomes `Default`; a fresh unpoisoned slot holding the last configured strategy is registered under the builder's key; all other keys are unchanged |
| `Scenarios.AddReturning` | mockall/src/lib.rs:116-121 | `add` configured with `returning(a + b)` answers 5 to `(2, 3)` twice |
| `Scenarios.AddReturnOnce` | mockall/src/lib.rs:123-136 | `add` configured with `return_once(a + b)` answers 5, then panics with CalledTwice, then with Poisoned |
| `Scenarios.LastConfigurationWins` | mockall/src/lib.rs:116-136 | a builder configured with `returning(a + b)` and then `return_once(a - b)` answers `2 - 3 = -1` to `(2, 3)`, so only the last configuration before commit is observed; a second registration then replaces the spent slot and answers `2 * 3 = 6` |
| `Scenarios.Unmatched` | mockall/src/lib.rs:182-187 | a different ident or different types find no expectation; an unconfigured expectation on a stable build panics with DefaultNeedsNightly |

## Left out

- Concurrency: the `Mutex` (lib.rs:83, 88) is modelled only for poisoning. Calls are sequential with exclusive access, and the `Send` bounds and interleavings of threads are not modelled.
- Type erasure: `downcast!`, `Any` and `downcast_ref().unwrap()` (lib.rs:5, 15-16, 97, 186-187) are not modelled. One registry ranges over one universe of argument and output values. The caller's `(I, O)` type is a `TypeTag` in the key, and the downcast always succeeds. The model does not check that values agree with their tags.
- Hashing: `DefaultHasher` and the 64-bit `TypeId` hash (lib.rs:154-157) are replaced by the pair of ident and type tag. Hash collisions between distinct keys cannot happen in the model.
- Features: the `nightly` specialization and `cfg_if` (lib.rs:2, 59-80) are compile-time choices in Rust. Here they are the `Defaults` value passed to each call, which says whether the build is nightly and gives the output type's default, if it has one.
- User closures are total Dafny functions `I -> O`. Their side effects are not modelled (an `FnMut` closure's own state, such as a counter), and neither are panics inside them. So the swap of `Once` for `Expired` before the closure runs is in `CallMut`'s body, but no run of a closure can observe it, and poisoning by a panicking closure is not modelled.
- The inner `Option` guard of `return_once` (lib.rs:126-133) is not modelled: `Once(f)` holds `f` itself. Through `call_mut` the guard cannot be reached, because the strategy is already `Expired` before the closure's first run ends.
- Borrows: the builder's `&mut Expectations` borrow (lib.rs:102) is a plain reference. Nothing stops a `Called` while a builder is alive.
- Drop: Rust runs `drop` implicitly at scope exit. The model requires an explicit `Commit`, and a builder that is never committed registers nothing. `committed` stands for the builder having been consumed.
