# EnhancedTimerTrigger scheduler, modelled in Dafny

EnhancedTimerTrigger is a recurring trigger for a workflow host. When monitoring starts it
checks its arguments, then a background task polls the wall clock. Each time the clock passes
the current (jittered) target, the task does four things:

- it computes the next standard target, either from the actual firing time or from the previous
  standard target;
- it skips every slot of the interval grid that is already in the past;
- it perturbs the result with an optional uniform offset and an optional normally distributed
  offset;
- it hands the host an event carrying the current jittered target, the current standard target,
  the next jittered target and the firing time.

The model has four modules:

- `Timing` (`timing.dfy`): timestamps as integer ticks of 100 ns, unchecked 32-bit arithmetic,
  the interval grid and the catch-up rule as pure functions with their lemmas.
- `TriggerConfig` (`trigger_config.dfy`): the configuration snapshot (`InArgs`) and the argument
  checks done when monitoring starts (`StartMonitor`). A non-positive interval is an `Err`: no
  snapshot exists, so no polling task can be started.
- `Jitter` (`jitter.dfy`): `AddRandomSec` as a pure function of the standard target, the jitter
  settings and the random generator's output stream.
- `Scheduler` (`scheduler.dfy`): the polling task `Poling` as a method with a `while` loop. Its
  body is `Poll`, one iteration of the loop, which calls `Fire` for one firing; `Fire` calls
  `SkipMissedSlots` for the inner catch-up loop.
  Both methods are proved against the specification functions `NextStandardTarget` (built on
  `CatchUp`) and `Jittered` (built on `AddRandomSec`). The lemmas state the grid properties of
  a whole run.

Inputs the code takes from its environment are parameters:

- The wall clock is a finite, non-decreasing trace of readings. Every read of the clock consumes
  one reading, and after the last one the clock stays at that reading.
- The cancellation flag is a sequence of samples, one read at the top of each iteration.
- The random generator is its output stream `rnd: nat -> real`. Each call of `AddRandomSec`
  consumes one value for the uniform offset and two for the normal offset, so the `j`-th call
  of a run starts at `j * Draws(...)`.
- The Box-Muller value `sqrt(-2 ln d1) * sin(2 pi d2)` is a given function `normal(d1, d2)`.
  Dafny's reals have no square root, logarithm or sine.

Places where the code behaves differently from what one might assume:

- The firing time is a second clock read taken after the read that saw the target pass. With a
  clock that never steps backwards, the firing time is therefore strictly later than the current
  jittered target, not merely not earlier.
- The catch-up loop reads the clock afresh on every iteration. Its bound `next < now + interval`
  holds for the reading that ended the loop.
- In the code, the uniform offset does not always stay within `[lower, upper)`; see Findings. The
  model's `AddRandomSec`, and so `Poling`, uses the corrected offset.

## Model

| member | source | states |
|---|---|---|
| `TriggerConfig.StartMonitor` | EnhancedTimerTrigger/EnhancedTimerTrigger.cs:69-85 | an error exactly when the interval is not positive; otherwise a stale initial target (before now minus one year) becomes now, a non-positive poll period becomes 250 ms, uniform jitter is switched off when upper <= lower, normal jitter when sigma <= 0, and every other field passes through unchanged |
| `TriggerConfig.StartMonitorNormalises` | EnhancedTimerTrigger/EnhancedTimerTrigger.cs:79-83 | a successful start yields a snapshot with a positive interval and poll period, an initial target no earlier than one year ago, and each enabled jitter kind with valid parameters |
| `TriggerConfig.StartMonitorFixesNormalised` | EnhancedTimerTrigger/EnhancedTimerTrigger.cs:79-83 | a snapshot that is already normalised passes the checks unchanged |
| `TriggerConfig.StartMonitorIdempotent` | EnhancedTimerTrigger/EnhancedTimerTrigger.cs:79-83 | normalising the result of a successful start again changes nothing |
| `Timing.WrapInt32` | EnhancedTimerTrigger/EnhancedTimerTrigger.cs:155 | unchecked 32-bit arithmetic yields a 32-bit value congruent to the exact one modulo 2^32, equal to it when it fits |
| `Timing.Skips` | EnhancedTimerTrigger/EnhancedTimerTrigger.cs:138-141 | the number of intervals the catch-up adds leaves the candidate not before `now`, and one fewer would leave it before `now` |
| `Timing.CatchUp` | EnhancedTimerTrigger/EnhancedTimerTrigger.cs:138-141 | the caught-up target is not before `now` nor before the candidate; it is the candidate itself when that is not in the past, and less than one interval after `now` otherwise |
| `Timing.CatchUpIsFirst` | EnhancedTimerTrigger/EnhancedTimerTrigger.cs:138-141 | every grid slot the catch-up skips is in the past, so it resyncs to the first slot that is not |
| `Timing.CatchUpOnGrid` | EnhancedTimerTrigger/EnhancedTimerTrigger.cs:138-141 | the caught-up target differs from the candidate by a non-negative multiple of the interval |
| `Timing.CatchUpUnique` | EnhancedTimerTrigger/EnhancedTimerTrigger.cs:138-141 | any slot that is not in the past and whose predecessor is, is the one the catch-up picks |
| `Jitter.UniformOffset` | EnhancedTimerTrigger/EnhancedTimerTrigger.cs:155 | the uniform offset `draw * (upper - lower) + lower` seconds in ticks, with the difference taken exactly: a draw of 0 gives exactly the lower limit, and a non-negative draw never gives less than it |
| `Jitter.UniformOffsetAsWritten` | EnhancedTimerTrigger/EnhancedTimerTrigger.cs:155 | the offset as the code computes it, with `upper - lower` wrapped to 32 bits: a draw of 0 still gives exactly the lower limit, whatever the subtraction wraps to |
| `Jitter.UniformOffsetBounds` | EnhancedTimerTrigger/EnhancedTimerTrigger.cs:155 | for a draw in [0, 1) and lower < upper, the uniform offset computed with the exact difference lies in [lower, upper) seconds |
| `Jitter.UniformOffsetAsWrittenAgrees` | EnhancedTimerTrigger/EnhancedTimerTrigger.cs:155 | while the limits are at most Int32Max seconds apart, the 32-bit computation gives the exact offset |
| `Jitter.UniformOffsetAsWrittenOverflows` | EnhancedTimerTrigger/EnhancedTimerTrigger.cs:155 | for 32-bit limits more than Int32Max seconds apart, every non-zero draw yields an offset below the lower limit |
| `Jitter.UniformOffsetOverflowExample` | EnhancedTimerTrigger/EnhancedTimerTrigger.cs:155 | limits -2e9 and 2e9 s with draw 0.5 give an offset of -2147483648 s, below the lower limit |
| `Jitter.NormalOffset` | EnhancedTimerTrigger/EnhancedTimerTrigger.cs:158-163 | the normal offset from the stream values at `at` (d1) and `at + 1` (d2), each subtracted from 1 before use, and scaled by `sigma`: it is non-negative exactly when `sigma` times the Box-Muller value is, and zero when `sigma` is zero |
| `Jitter.AddRandomSec` | EnhancedTimerTrigger/EnhancedTimerTrigger.cs:150-166 | with both jitter kinds switched off, the standard target is returned unchanged |
| `Jitter.UniformJitterBounds` | EnhancedTimerTrigger/EnhancedTimerTrigger.cs:152-165 | with uniform jitter on, the result minus the input (and minus the normal offset when that is also on) lies in [lower, upper) seconds; while the limits are at most Int32Max seconds apart, that offset equals the one the 32-bit subtraction gives |
| `Jitter.AddRandomSecUsesItsDraws` | EnhancedTimerTrigger/EnhancedTimerTrigger.cs:150-166 | one call reads only the `Draws(...)` stream values from its start position on (one for the uniform offset, then two for the normal offset): two streams that agree there give the same result |
| `Scheduler.FirstStop` | EnhancedTimerTrigger/EnhancedTimerTrigger.cs:122-124 | the iteration that first observes cancellation: the flag is set there and at no earlier iteration |
| `Scheduler.FirstCandidate` | EnhancedTimerTrigger/EnhancedTimerTrigger.cs:129-137 | the candidate for the next standard target is exactly one interval after the actual firing time in actual-time mode, and exactly one interval after the current standard target in the default mode |
| `Scheduler.NextStandardTarget` | EnhancedTimerTrigger/EnhancedTimerTrigger.cs:129-141 | the next standard target is not before the reading that ended the catch-up, and is the candidate itself when that is not before it |
| `Scheduler.NextStandardTargetIsFirstSlot` | EnhancedTimerTrigger/EnhancedTimerTrigger.cs:138-141 | the next standard target is the first slot of the grid from the candidate on that is not before the reading: it is on that grid and not before the candidate, every earlier slot is before the reading, and it is less than one interval after the reading when the candidate was already in the past |
| `Scheduler.Jittered` | EnhancedTimerTrigger/EnhancedTimerTrigger.cs:120-142 | the jittered target of the `call`-th `AddRandomSec` call of a run (line 120 is call 0, line 142 the later ones), drawing from the stream position where the previous call stopped; with jitter switched off it is the standard target |
| `Scheduler.JitteredUsesItsDraws` | EnhancedTimerTrigger/EnhancedTimerTrigger.cs:120-142 | the `call`-th jittered target depends only on the stream values between where that call starts and where the next one starts, so the calls of a run draw from disjoint parts of the stream |
| `Scheduler.SkipMissedSlots` | EnhancedTimerTrigger/EnhancedTimerTrigger.cs:138-141 | the catch-up loop takes one fresh clock reading per iteration: after `k` skipped slots it stops on the reading `k` reads on, every skipped slot is earlier than the reading taken for it, and the result is `CatchUp` of the candidate for the reading that ended the loop |
| `Scheduler.Fire` | EnhancedTimerTrigger/EnhancedTimerTrigger.cs:126-145 | one firing: the firing time is the clock reading at `pos`; the catch-up starts at the next reading and ends at reading `at`, and the clock is polled next at the reading after that; the event carries (current jittered, current standard, next jittered, firing time) in that order; the next standard target is the catch-up of the interval added to the firing time (actual-time mode) or to the current standard target (default mode); the next jittered target uses the generator's next values |
| `Scheduler.Poll` | EnhancedTimerTrigger/EnhancedTimerTrigger.cs:125-146 | one iteration of the polling loop that does not observe cancellation extends a run that has the properties `Poling` promises by one iteration with the same properties, emitting at most one event and keeping the current targets and the generator position in step with the events emitted |
| `Scheduler.Poling` | EnhancedTimerTrigger/EnhancedTimerTrigger.cs:98-148 | the run starts from the initial target; at each iteration before the one that observes cancellation, an event is emitted if and only if the poll reading is greater than the current jittered target; the event's firing time is the next reading, the catch-up continues with the readings after it, and the next poll takes the reading after the catch-up's last; otherwise the next poll takes the next reading; every event is a firing chained to the state the previous one left; no event is emitted at or after the iteration that observes cancellation; in the default mode every standard target of the run is on the grid of the initial target |
| `Scheduler.GridAligned` | EnhancedTimerTrigger/EnhancedTimerTrigger.cs:119-145 | in the default mode every standard target of a run differs from the initial target by a non-negative multiple of the interval |
| `Scheduler.RunGridAligned` | EnhancedTimerTrigger/EnhancedTimerTrigger.cs:119-145 | `GridAligned` for a run of the polling loop, whose catch-ups stopped on clock readings: in the default mode every standard target held is on the grid of the initial target |
| `Scheduler.ActualTimeModeRestartsGrid` | EnhancedTimerTrigger/EnhancedTimerTrigger.cs:129-141 | in actual-time mode the next standard target is on the grid starting one interval after the firing time, at least that late, and not before the reading that ended the catch-up |
| `Scheduler.ModeExample` | EnhancedTimerTrigger/EnhancedTimerTrigger.cs:129-137 | interval 60 s and a firing 5 s after target t: next standard target t + 65 s in actual-time mode, t + 60 s in the default mode |
| `Scheduler.FiringWithoutJitter` | EnhancedTimerTrigger/EnhancedTimerTrigger.cs:126-145 | without jitter the trigger fires once the clock passes the standard target; in the default mode with no missed slot, the next target is one interval later |

## Findings

| source | as written | input that shows it | evidently intended | confidence | as-written member | corrected member |
|---|---|---|---|---|---|---|
| EnhancedTimerTrigger/EnhancedTimerTrigger.cs:155 | `upper - lower` is a 32-bit subtraction (unchecked by default), so a difference above Int32Max wraps to a negative number | lower = -2000000000, upper = 2000000000, draw 0.5: the offset is -2147483648 s, below the lower limit | the uniform offset lies in [lower, upper) seconds | not executed; high that the wrap happens under the default unchecked context, low that such limits (over 68 years apart) occur in practice | `Jitter.UniformOffsetAsWritten`, `Jitter.UniformOffsetAsWrittenOverflows` | `Jitter.UniformOffset`, `Jitter.UniformOffsetBounds` |

## Left out

- Jitter.NormalOffset: the Box-Muller value is the parameter `normal`, because Dafny has no square root, logarithm or sine on reals. Only the order in which it draws from the stream, and its scaling by sigma, are modelled.
- Seeding of the random generator from the tick count, the time of day and the machine name: this is environment input. The generator's output stream is a parameter instead.
- `Thread.Sleep`, `Task.Run`, the cancellation token source and `StopMonitor`: threading plumbing. The sleep becomes the clock moving on between readings, and cancellation becomes one sampled flag per iteration.
- The host framework's argument binding, `CacheMetadata` and the event-argument wrapper class: binding with no logic. Argument values enter `StartMonitor` as an `InArgs` value.
- Scheduler.Poling: only runs in which the host eventually cancels are modelled (`true in cancel`). A run that is never cancelled does not end; each of its finite prefixes is a run cancelled later.
- Scheduler.Poling: the clock is a finite trace of readings that stays at its last reading, because the catch-up loop must terminate. A real clock keeps advancing, but more slowly than the catch-up loop.
- Jitter.AddRandomSec: a fractional-second offset is converted to ticks by rounding down. The host library's own rounding of fractional seconds is library-internal and not modelled.
- The calendar arithmetic of "now minus one year" is a given reading (`oneYearAgo`) passed to `StartMonitor`.
- Exceptions thrown when a timestamp leaves the host's date range (outside years 1–9999): the model's timestamps are unbounded integers.
- The 32-bit range of the interval, the offset limits and the poll period is not enforced on `InArgs`. The only arithmetic where that width changes a result is the subtraction in the uniform offset (see Findings).
- A NaN sigma: floating point. The model's sigma is a real.
- The event callback runs synchronously on the polling task. In the model it is the appending of the event to the returned sequence.
- Jitter.AddRandomSec: computes the uniform offset with the exact difference `upper - lower`, not the 32-bit wrapped one of EnhancedTimerTrigger/EnhancedTimerTrigger.cs:155 (see Findings). It agrees with the code while the limits are at most Int32Max seconds apart (`UniformJitterBounds`). For limits further apart, `Poling` runs the corrected offset, not the program's.
- Scheduler.Poling: `DateTime.Now` is local wall-clock time and can step backwards (end of daylight saving time, clock adjustment). The model requires a non-decreasing clock trace. That requirement is what makes the firing time strictly later than the jittered target and makes the catch-up result equal to `CatchUp` of the final reading. A clock that steps backwards is not modelled.
- Jitter.UniformOffsetBounds, Jitter.UniformJitterBounds: the offset is computed in doubles and `AddSeconds` rounds it (to the nearest millisecond on .NET Framework). In the program the offset can therefore reach `upper` exactly. The strict upper bound holds for the model's exact reals rounded down to ticks.
