/** The back-off of the listeners: how long the n-th wait takes. */
module Sleepers {
  // Durations are nanoseconds in a signed 64-bit word.
  const SECOND := 1_000_000_000
  const MAX_INT64 := 0x7FFF_FFFF_FFFF_FFFF
  const MIN_INT64 := -0x8000_0000_0000_0000

  const FLOOR := 10 * SECOND
  const MAX_COUNT: nat := 12

  predicate IsInt64(x: int) {
    MIN_INT64 <= x <= MAX_INT64
  }

  /** The 64-bit word that an addition of two words gives. */
  function Wrap(x: int): (w: int)
    requires 2 * MIN_INT64 <= x <= 2 * MAX_INT64
    ensures IsInt64(w) && (w == x <==> IsInt64(x))
  {
    if x > MAX_INT64 then x - 0x1_0000_0000_0000_0000
    else if x < MIN_INT64 then x + 0x1_0000_0000_0000_0000
    else x
  }

  function Pow2(n: nat): (p: nat)
    ensures p > 0
  {
    if n == 0 then 1 else 2 * Pow2(n - 1)
  }

  lemma {:induction false} Pow2Grows(m: nat, n: nat)
    requires m <= n
    ensures Pow2(m) <= Pow2(n)
  {
    if m < n {
      Pow2Grows(m, n - 1);
    }
  }

  lemma Pow2Max()
    ensures Pow2(MAX_COUNT) == 4096
  {
  }

  /** The n-th wait, without the bounds of the word. */
  function Wait(floor: int, n: nat): int {
    floor + Pow2(if n < MAX_COUNT then n else MAX_COUNT) * SECOND
  }

  function Total(floor: int, n: nat): int {
    if n == 0 then 0 else Total(floor, n - 1) + Wait(floor, n)
  }

  class Sleeper {
    var count: nat
    const floor: int
    const maxCount: nat

    ghost var calls: nat  // of Sleep

    ghost predicate Valid()
      reads this
    {
      && IsInt64(floor) && maxCount == MAX_COUNT
      && count == if calls < MAX_COUNT then calls else MAX_COUNT
    }

    constructor (f: int)
      requires IsInt64(f)
      ensures Valid() && calls == 0
      ensures floor == if f == 0 then FLOOR else f
    {
      floor := if f == 0 then FLOOR else f;
      maxCount, count, calls := MAX_COUNT, 0, 0;
    }

    /** `duration` is what the given sleep function is called with. */
    method Sleep() returns (again: bool, duration: int)
      requires Valid()
      modifies this
      ensures Valid() && calls == old(calls) + 1 && again
      ensures floor <= MAX_INT64 - 4096 * SECOND ==> duration == Wait(floor, calls)
      ensures IsInt64(duration) && (duration == Wait(floor, calls) <==> IsInt64(Wait(floor, calls)))
    {
      if count < maxCount {
        count := count + 1;
      }
      calls := calls + 1;
      Pow2Grows(count, MAX_COUNT);
      Pow2Max();
      var v := Pow2(count);
      duration := Wrap(floor + v * SECOND);
      again := true;
    }
  }

  /** Waits never get shorter, and never longer than the floor and 4096 seconds. */
  lemma WaitsGrow(floor: int, m: nat, n: nat)
    requires m <= n
    ensures Wait(floor, m) <= Wait(floor, n) <= floor + 4096 * SECOND
  {
    var k, l := if m < MAX_COUNT then m else MAX_COUNT, if n < MAX_COUNT then n else MAX_COUNT;
    Pow2Grows(k, l);
    Pow2Grows(l, MAX_COUNT);
    Pow2Max();
  }

  lemma NextMultiple(n: nat, floor: int)
    requires n > 0
    ensures n * floor == (n - 1) * floor + floor
  {
  }

  /** What n waits take together. */
  lemma {:induction false} Totals(floor: int, n: nat)
    ensures n <= MAX_COUNT ==> Total(floor, n) == n * floor + (Pow2(n + 1) - 2) * SECOND
    ensures n >= MAX_COUNT ==> Total(floor, n) == n * floor + (8190 + 4096 * (n - MAX_COUNT)) * SECOND
  {
    Pow2Max();
    if n > 0 {
      Totals(floor, n - 1);
      NextMultiple(n, floor);
      if n == MAX_COUNT {
        assert Pow2(n + 1) == 8192;
      }
    }
  }

  /** No wait of a run ever leaves the word exactly when the longest one does not. */
  lemma AllWaitsFit(floor: int)
    requires IsInt64(floor)
    ensures (forall n: nat :: n > 0 ==> IsInt64(Wait(floor, n))) <==> floor <= MAX_INT64 - 4096 * SECOND
  {
    Pow2Max();
    if floor <= MAX_INT64 - 4096 * SECOND {
      forall n: nat | n > 0 ensures IsInt64(Wait(floor, n)) {
        WaitsGrow(floor, 0, n);
      }
    } else {
      assert !IsInt64(Wait(floor, MAX_COUNT));
    }
  }
}
