/** The random perturbation of a standard target time: an optional uniform offset
    and an optional normally distributed offset, drawn from the generator's stream. */
module Jitter {
  import opened Timing

  /** A (possibly fractional, possibly negative) number of seconds as ticks, rounded down. */
  function SecondsToTicks(x: real): (t: int)
    ensures t as real <= x * TicksPerSecond as real < t as real + 1.0
  {
    (x * TicksPerSecond as real).Floor
  }

  lemma ProductBelow(r: real, d: real)
    requires 0.0 <= r < 1.0 && d > 0.0
    ensures 0.0 <= r * d < d
  {
    assert d - r * d == (1.0 - r) * d;
  }

  /** The uniform offset `r * (upper - lower) + lower` seconds, with the difference taken exactly.
      A draw of 0 gives the lower limit, and a larger draw never gives less. */
  function UniformOffset(r: real, lower: int, upper: int): (t: int)
    ensures r == 0.0 ==> t == Seconds(lower)
    ensures 0.0 <= r && lower <= upper ==> Seconds(lower) <= t
  {
    SecondsToTicks(r * (upper - lower) as real + lower as real)
  }

  /** The offset as the code computes it: `upper - lower` is an unchecked 32-bit subtraction.
      A draw of 0 still gives the lower limit, whatever the subtraction wraps to. */
  function UniformOffsetAsWritten(r: real, lower: int, upper: int): (t: int)
    ensures r == 0.0 ==> t == Seconds(lower)
  {
    SecondsToTicks(r * WrapInt32(upper - lower) as real + lower as real)
  }

  /** For a draw in [0, 1) the uniform offset lies in [lower, upper) seconds. */
  lemma UniformOffsetBounds(r: real, lower: int, upper: int)
    requires 0.0 <= r < 1.0 && lower < upper
    ensures Seconds(lower) <= UniformOffset(r, lower, upper) < Seconds(upper)
  {
    var d := (upper - lower) as real;
    ProductBelow(r, d);
    var x := r * d + lower as real;
    assert lower as real <= x < upper as real;
    var y := x * TicksPerSecond as real;
    assert Seconds(lower) as real <= y < Seconds(upper) as real;
  }

  /** While the two limits are less than 2^31 seconds apart, the code's offset is the exact one. */
  lemma UniformOffsetAsWrittenAgrees(r: real, lower: int, upper: int)
    requires lower < upper && upper - lower <= Int32Max
    ensures UniformOffsetAsWritten(r, lower, upper) == UniformOffset(r, lower, upper)
  {
  }

  /** When the limits are 32-bit values more than Int32Max apart, the wrapped difference is
      negative, and every draw other than 0 yields an offset below the lower limit. */
  lemma UniformOffsetAsWrittenOverflows(r: real, lower: int, upper: int)
    requires IsInt32(lower) && IsInt32(upper) && upper - lower > Int32Max
    requires 0.0 < r < 1.0
    ensures UniformOffsetAsWritten(r, lower, upper) < Seconds(lower)
  {
    var w := WrapInt32(upper - lower);
    assert w == upper - lower - 0x1_0000_0000;
    assert r * w as real < 0.0 by {
      assert r * (-(w as real)) > 0.0;
    }
  }

  /** A concrete instance: limits of -2e9 and 2e9 seconds and a draw of one half. */
  lemma UniformOffsetOverflowExample()
    ensures UniformOffsetAsWritten(0.5, -2_000_000_000, 2_000_000_000) == Seconds(-2_147_483_648)
    ensures Seconds(-2_147_483_648) < Seconds(-2_000_000_000)
  {
    assert WrapInt32(4_000_000_000) == -294_967_296;
  }

  /** How many values of the generator's stream one call of `AddRandomSec` consumes. */
  function Draws(isAddRandom: bool, isAddNormDist: bool): nat {
    (if isAddRandom then 1 else 0) + (if isAddNormDist then 2 else 0)
  }

  /** The normally distributed offset from the two stream values at `at` and `at + 1`:
      each is turned into a value in (0, 1] by subtracting it from 1, and `normal(d1, d2)` stands
      for the Box-Muller value sqrt(-2 ln d1) * sin(2 pi d2), which the model takes as given;
      the offset is `sigma` times that many seconds. */
  function NormalOffset(sigma: real, rnd: nat -> real, at: nat, normal: (real, real) -> real): (t: int)
    ensures var v := sigma * normal(1.0 - rnd(at), 1.0 - rnd(at + 1));
            && (0.0 <= v ==> 0 <= t)
            && (v < 0.0 ==> t < 0)
            && (sigma == 0.0 ==> t == 0)
  {
    SecondsToTicks(sigma * normal(1.0 - rnd(at), 1.0 - rnd(at + 1)))
  }

  /** The jittered target for the standard target `std`. `rnd(at)`, `rnd(at + 1)`, ... are the
      values in [0, 1) the generator returns from here on; the uniform offset takes the first
      of them, the normal offset the next two. With both kinds switched off the target is unchanged. */
  function AddRandomSec(std: Time, isAddRandom: bool, lower: int, upper: int,
                        isAddNormDist: bool, sigma: real,
                        rnd: nat -> real, at: nat, normal: (real, real) -> real): (r: Time)
    ensures !isAddRandom && !isAddNormDist ==> r == std
  {
    var result := if isAddRandom then std + UniformOffset(rnd(at), lower, upper) else std;
    var next := at + (if isAddRandom then 1 else 0);
    if isAddNormDist then result + NormalOffset(sigma, rnd, next, normal) else result
  }

  /** With uniform jitter on, the result minus the standard target (and minus the normal
      offset, when that is on too) lies in [lower, upper) seconds. While the limits are at most
      Int32Max seconds apart, that offset is also the one the 32-bit subtraction gives. */
  lemma UniformJitterBounds(std: Time, lower: int, upper: int, isAddNormDist: bool, sigma: real,
                            rnd: nat -> real, at: nat, normal: (real, real) -> real)
    requires lower < upper && 0.0 <= rnd(at) < 1.0
    ensures var r := AddRandomSec(std, true, lower, upper, isAddNormDist, sigma, rnd, at, normal);
            var offset := r - std - (if isAddNormDist then NormalOffset(sigma, rnd, at + 1, normal) else 0);
            && Seconds(lower) <= offset < Seconds(upper)
            && (upper - lower <= Int32Max ==> offset == UniformOffsetAsWritten(rnd(at), lower, upper))
  {
    UniformOffsetBounds(rnd(at), lower, upper);
    if upper - lower <= Int32Max {
      UniformOffsetAsWrittenAgrees(rnd(at), lower, upper);
    }
  }

  /** One call draws only the `Draws(...)` stream values from `at` on: two streams that agree
      there give the same jittered target, so consecutive calls use disjoint parts of the stream. */
  lemma AddRandomSecUsesItsDraws(std: Time, isAddRandom: bool, lower: int, upper: int,
                                 isAddNormDist: bool, sigma: real,
                                 rnd: nat -> real, rnd': nat -> real, at: nat, normal: (real, real) -> real)
    requires forall j :: at <= j < at + Draws(isAddRandom, isAddNormDist) ==> rnd(j) == rnd'(j)
    ensures AddRandomSec(std, isAddRandom, lower, upper, isAddNormDist, sigma, rnd, at, normal)
         == AddRandomSec(std, isAddRandom, lower, upper, isAddNormDist, sigma, rnd', at, normal)
  {
    var next := at + (if isAddRandom then 1 else 0);
    if isAddRandom {
      assert rnd(at) == rnd'(at);
    }
    if isAddNormDist {
      assert rnd(next) == rnd'(next) && rnd(next + 1) == rnd'(next + 1);
    }
  }
}
