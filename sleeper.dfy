/**
 * Model of sleeper.py: a backoff sleeper that doubles its delay after an
 * abnormal round and halves it again, never below the original delay, once
 * more than 20 normal rounds have followed the last abnormal one.
 * `time.sleep` is modelled by returning the number of seconds slept.
 */
module Sleeping {
  import opened Wrappers

  /** The two mutable fields of a Sleeper. */
  datatype SleepState = SleepState(sleepSecond: nat, normalCount: nat)

  /** Number of normal rounds that must be exceeded before halving. */
  const NormalRoundsBeforeHalving: nat := 20

  /** The state change of one `sleep(normal)` call, for a sleeper whose floor is `original`. */
  function Step(original: nat, s: SleepState, normal: bool): SleepState
  {
    if normal then
      var count := s.normalCount + 1;
      if count > NormalRoundsBeforeHalving && s.sleepSecond > original
      then SleepState(s.sleepSecond / 2, count)
      else SleepState(s.sleepSecond, count)
    else
      SleepState(s.sleepSecond * 2, 0)
  }

  /** The state after `n` consecutive calls, all normal or all abnormal. */
  function Repeat(original: nat, s: SleepState, normal: bool, n: nat): SleepState
    decreases n
  {
    if n == 0 then s else Repeat(original, Step(original, s, normal), normal, n - 1)
  }

  /** One more call after `n` identical calls. */
  lemma {:induction false} RepeatStep(original: nat, s: SleepState, normal: bool, n: nat)
    ensures Repeat(original, s, normal, n + 1) == Step(original, Repeat(original, s, normal, n), normal)
    decreases n
  {
    if n > 0 {
      RepeatStep(original, Step(original, s, normal), normal, n - 1);
    }
  }

  /** `a` identical calls followed by `b` more are `a + b` calls. */
  lemma {:induction false} RepeatAdd(original: nat, s: SleepState, normal: bool, a: nat, b: nat)
    ensures Repeat(original, s, normal, a + b) == Repeat(original, Repeat(original, s, normal, a), normal, b)
    decreases a
  {
    if a > 0 {
      RepeatAdd(original, Step(original, s, normal), normal, a - 1, b);
    }
  }

  /** `x` is the floor times a power of two: the only delays a sleeper can have. */
  ghost predicate PowerOfFloor(original: nat, x: nat)
  {
    exists k: nat :: x == original * Pow2(k)
  }

  /** Every call keeps the delay of the form `original * 2^k`, hence never below `original`. */
  lemma StepKeepsPowerOfFloor(original: nat, s: SleepState, normal: bool)
    requires PowerOfFloor(original, s.sleepSecond)
    ensures PowerOfFloor(original, Step(original, s, normal).sleepSecond)
    ensures Step(original, s, normal).sleepSecond >= original
  {
    var k: nat :| s.sleepSecond == original * Pow2(k);
    var t := Step(original, s, normal);
    if !normal {
      assert t.sleepSecond == original * Pow2(k + 1);
    } else if t.sleepSecond != s.sleepSecond {
      assert k > 0;
      assert original * Pow2(k) == 2 * (original * Pow2(k - 1));
      assert t.sleepSecond == original * Pow2(k - 1);
    } else {
      assert t.sleepSecond == original * Pow2(k);
    }
  }

  /** An abnormal call resets the normal-round counter and doubles the delay. */
  lemma AbnormalDoubles(original: nat, s: SleepState)
    ensures Step(original, s, false) == SleepState(2 * s.sleepSecond, 0)
  {
  }

  /** `n` abnormal calls multiply the delay by `2^n`; the counter is 0 after at least one. */
  lemma {:induction false} RepeatAbnormal(original: nat, s: SleepState, n: nat)
    ensures Repeat(original, s, false, n).sleepSecond == s.sleepSecond * Pow2(n)
    ensures n > 0 ==> Repeat(original, s, false, n).normalCount == 0
    ensures n == 0 ==> Repeat(original, s, false, n) == s
    decreases n
  {
    if n > 0 {
      var t := Step(original, s, false);
      RepeatAbnormal(original, t, n - 1);
      assert s.sleepSecond * 2 * Pow2(n - 1) == s.sleepSecond * Pow2(n);
    }
  }

  /**
   * The counter is not reset by halving: once more than 20 normal calls have
   * happened, each further normal call halves the delay until the floor.
   * Starting `k` doublings above the floor, `m` more normal calls leave
   * `max(k - m, 0)` doublings.
   */
  lemma {:induction false} NormalRunHalvesToFloor(original: nat, s: SleepState, k: nat, m: nat)
    requires original > 0
    requires s.sleepSecond == original * Pow2(k)
    requires s.normalCount >= NormalRoundsBeforeHalving
    ensures Repeat(original, s, true, m).sleepSecond == original * Pow2(if m >= k then 0 else k - m)
    ensures Repeat(original, s, true, m).normalCount == s.normalCount + m
    decreases m
  {
    if m > 0 {
      var t := Step(original, s, true);
      if k > 0 {
        assert Pow2(k) == 2 * Pow2(k - 1);
        assert original * Pow2(k) == 2 * (original * Pow2(k - 1));
        assert original * Pow2(k) > original * Pow2(k - 1) >= original;
        assert t.sleepSecond == original * Pow2(k - 1);
        NormalRunHalvesToFloor(original, t, k - 1, m - 1);
      } else {
        assert t.sleepSecond == original * Pow2(0);
        NormalRunHalvesToFloor(original, t, 0, m - 1);
      }
    }
  }

  /** Fewer than 21 normal calls in a row since the last abnormal one never halve. */
  lemma {:induction false} ShortNormalRunKeepsDelay(original: nat, s: SleepState, m: nat)
    requires s.normalCount + m <= NormalRoundsBeforeHalving
    ensures Repeat(original, s, true, m) == SleepState(s.sleepSecond, s.normalCount + m)
    decreases m
  {
    if m > 0 {
      ShortNormalRunKeepsDelay(original, Step(original, s, true), m - 1);
    }
  }

  /** sleeper.py's `Sleeper`. */
  class Sleeper {
    const originalSleepSecond: nat
    var sleepSecond: nat
    var normalCount: nat
    /** How many doublings the delay is above the floor. */
    ghost var exponent: nat

    ghost predicate Valid()
      reads this
    {
      sleepSecond == originalSleepSecond * Pow2(exponent)
    }

    function State(): SleepState
      reads this
    {
      SleepState(sleepSecond, normalCount)
    }

    constructor(original: nat)
      ensures Valid()
      ensures originalSleepSecond == original
      ensures State() == SleepState(original, 0)
    {
      originalSleepSecond := original;
      sleepSecond := original;
      normalCount := 0;
      exponent := 0;
    }

    /** One `sleep(normal)` call; returns how long it sleeps (the new delay). */
    method Sleep(normal: bool) returns (slept: nat)
      requires Valid()
      modifies this
      ensures Valid()
      ensures State() == Step(originalSleepSecond, old(State()), normal)
      ensures sleepSecond >= originalSleepSecond
      ensures slept == sleepSecond
    {
      if normal {
        normalCount := normalCount + 1;
        if normalCount > NormalRoundsBeforeHalving && sleepSecond > originalSleepSecond {
          assert exponent > 0;
          assert originalSleepSecond * Pow2(exponent) == 2 * (originalSleepSecond * Pow2(exponent - 1));
          sleepSecond := sleepSecond / 2;
          exponent := exponent - 1;
        }
      } else {
        normalCount := 0;
        sleepSecond := sleepSecond * 2;
        exponent := exponent + 1;
      }
      assert sleepSecond >= originalSleepSecond;
      slept := sleepSecond;
    }
  }
}
