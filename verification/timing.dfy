/** Time arithmetic of the trigger: timestamps, 32-bit integer arithmetic,
    the interval grid and the catch-up rule that skips slots already in the past. */
module Timing {

  /** A wall-clock timestamp, counted in ticks of 100 ns (the resolution of the host's date-time type). */
  type Time = int

  const TicksPerSecond: int := 10_000_000

  /** `n` whole seconds as a tick count. */
  function Seconds(n: int): int {
    n * TicksPerSecond
  }

  const Int32Min: int := -0x8000_0000
  const Int32Max: int := 0x7FFF_FFFF

  predicate IsInt32(x: int) {
    Int32Min <= x <= Int32Max
  }

  /** Two's-complement wrap-around of unchecked 32-bit integer arithmetic. */
  function WrapInt32(x: int): (r: int)
    ensures IsInt32(r)
    ensures (x - r) % 0x1_0000_0000 == 0
    ensures IsInt32(x) ==> r == x
  {
    (x - Int32Min) % 0x1_0000_0000 + Int32Min
  }

  /** The `m`-th slot of the grid that starts at `origin` and advances by `step`. */
  function Slot(origin: Time, m: nat, step: int): Time {
    origin + m * step
  }

  /** `t` lies on the grid that starts at `origin`: it differs from it by a non-negative multiple of `step`. */
  ghost predicate OnGrid(t: Time, origin: Time, step: int) {
    exists m: nat :: t == Slot(origin, m, step)
  }

  lemma SlotMonotone(origin: Time, i: nat, j: nat, step: int)
    requires i <= j && step > 0
    ensures Slot(origin, i, step) <= Slot(origin, j, step)
  {
    assert Slot(origin, j, step) - Slot(origin, i, step) == (j - i) * step;
  }

  lemma OnGridTrans(a: Time, b: Time, c: Time, step: int)
    requires OnGrid(b, a, step) && OnGrid(c, b, step)
    ensures OnGrid(c, a, step)
  {
    var m: nat :| b == Slot(a, m, step);
    var n: nat :| c == Slot(b, n, step);
    assert c == Slot(a, m + n, step);
  }

  /** How many times the catch-up loop adds `step` to `base` before the
      candidate is no longer earlier than `now`. */
  function Skips(base: Time, now: Time, step: int): (n: nat)
    requires step > 0
    ensures now <= Slot(base, n, step)
    ensures n > 0 ==> Slot(base, n - 1, step) < now
    decreases now - base
  {
    if base < now then 1 + Skips(base + step, now, step) else 0
  }

  /** The first slot of the grid from `base` that is not earlier than `now`. */
  function CatchUp(base: Time, now: Time, step: int): (r: Time)
    requires step > 0
    ensures now <= r && base <= r
    ensures base < now ==> r < now + step
    ensures base >= now ==> r == base
  {
    Slot(base, Skips(base, now, step), step)
  }

  /** Every slot before the one `CatchUp` picks is in the past: no later-than-needed slot is chosen. */
  lemma CatchUpIsFirst(base: Time, now: Time, step: int, j: nat)
    requires step > 0 && j < Skips(base, now, step)
    ensures Slot(base, j, step) < now
  {
    SlotMonotone(base, j, Skips(base, now, step) - 1, step);
  }

  /** The result of the catch-up is a slot of the grid from `base`. */
  lemma CatchUpOnGrid(base: Time, now: Time, step: int)
    requires step > 0
    ensures OnGrid(CatchUp(base, now, step), base, step)
  {
    assert CatchUp(base, now, step) == Slot(base, Skips(base, now, step), step);
  }

  /** A slot that is not in the past, and whose predecessor (if any) is, is the one `CatchUp` picks. */
  lemma CatchUpUnique(base: Time, now: Time, step: int, k: nat)
    requires step > 0
    requires now <= Slot(base, k, step)
    requires k > 0 ==> Slot(base, k - 1, step) < now
    ensures Skips(base, now, step) == k
    ensures CatchUp(base, now, step) == Slot(base, k, step)
  {
    var n := Skips(base, now, step);
    if n < k {
      SlotMonotone(base, n, k - 1, step);
    } else if n > k {
      SlotMonotone(base, k, n - 1, step);
    }
  }
}
