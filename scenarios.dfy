/**
 * How a mock uses the engine: a setup phase that configures and commits a
 * builder, then calls through the registry. Each method states what a test of
 * a mocked `add(a, b)` method observes.
 */
module Scenarios {
  import opened Strategy
  import opened Slot
  import opened Registry

  /** The `(I, O)` type of `add`: arguments `(i32, i32)`, output `i32`. */
  const AddTag := TypeTag("(i32, i32)", "i32")

  /** A stable build: no default values. */
  const Stable: Defaults<int> := Defaults(false, None)

  function Sum(p: (int, int)): int { p.0 + p.1 }

  /** `expect("add").returning(a + b)`: every call answers the sum. */
  method AddReturning() returns (first: Outcome<int>, second: Outcome<int>)
    ensures first == Returned(5) && second == Returned(5)
  {
    var registry := new Expectations<(int, int), int>();
    var builder := registry.Expect("add", AddTag);
    builder.Returning(Sum);
    builder.Commit();
    first := registry.Called("add", AddTag, (2, 3), Stable);
    second := registry.Called("add", AddTag, (2, 3), Stable);
  }

  /**
   * `expect("add").return_once(a + b)`: the first call answers the sum, the
   * second panics because the closure was already used, and the third finds
   * the slot's mutex poisoned by that panic.
   */
  method AddReturnOnce() returns (first: Outcome<int>, second: Outcome<int>, third: Outcome<int>)
    ensures first == Returned(5)
    ensures second == Panicked(CalledTwice)
    ensures third == Panicked(Poisoned)
  {
    var registry := new Expectations<(int, int), int>();
    var builder := registry.Expect("add", AddTag);
    builder.ReturnOnce(Sum);
    builder.Commit();
    first := registry.Called("add", AddTag, (2, 3), Stable);
    second := registry.Called("add", AddTag, (2, 3), Stable);
    third := registry.Called("add", AddTag, (2, 3), Stable);
  }

  /**
   * The last configuration before commit wins: a builder configured with
   * `returning(a + b)` and then `return_once(a - b)` answers the difference.
   * A second registration of `add` then replaces the spent single-use slot, so
   * the next call answers the product instead of panicking.
   */
  method LastConfigurationWins() returns (mid: Outcome<int>, out: Outcome<int>)
    ensures mid == Returned(-1)
    ensures out == Returned(6)
  {
    var registry := new Expectations<(int, int), int>();
    var builder := registry.Expect("add", AddTag);
    builder.Returning(Sum);
    builder.ReturnOnce((p: (int, int)) => p.0 - p.1);
    builder.Commit();
    mid := registry.Called("add", AddTag, (2, 3), Stable);
    var again := registry.Expect("add", AddTag);
    again.Returning((p: (int, int)) => p.0 * p.1);
    again.Commit();
    out := registry.Called("add", AddTag, (2, 3), Stable);
  }

  /**
   * A call whose ident or types differ from every registration finds no
   * expectation; an expectation committed without configuration panics for
   * lack of a default value on a stable build.
   */
  method Unmatched() returns (otherName: Outcome<int>, otherTypes: Outcome<int>, unconfigured: Outcome<int>)
    ensures otherName == Panicked(NoMatchingExpectation)
    ensures otherTypes == Panicked(NoMatchingExpectation)
    ensures unconfigured == Panicked(DefaultNeedsNightly)
  {
    var registry := new Expectations<(int, int), int>();
    var builder := registry.Expect("add", AddTag);
    builder.Commit();
    otherName := registry.Called("sub", AddTag, (2, 3), Stable);
    otherTypes := registry.Called("add", TypeTag("(i64, i64)", "i64"), (2, 3), Stable);
    unconfigured := registry.Called("add", AddTag, (2, 3), Stable);
  }
}
