/** The polling loop: it waits for the clock to pass the current jittered target, then
    computes the next standard target (catching up over slots already in the past),
    jitters it, emits an event and advances its state, until cancellation is observed. */
module Scheduler {
  import opened Timing
  import opened TriggerConfig
  import opened Jitter

  /** The event handed to the host on each firing, fields in the order of its constructor. */
  datatype OutArgs = OutArgs(
    currentTargetDateTime: Time,
    currentStandardTargetDateTime: Time,
    nextTargetDateTime: Time,
    actualTriggeredDateTime: Time)

  /** The clock: a trace of readings that never goes backwards. */
  ghost predicate NonDecreasing(clock: seq<Time>) {
    forall i, j :: 0 <= i <= j < |clock| ==> clock[i] <= clock[j]
  }

  /** Where the clock is read next after a reading at `pos`: the trace moves on,
      and after its last reading the clock stays there. */
  function Following(clock: seq<Time>, pos: nat): (r: nat)
    requires pos < |clock|
    ensures pos <= r < |clock|
    ensures r == pos ==> pos == |clock| - 1
  {
    if pos + 1 < |clock| then pos + 1 else pos
  }

  /** The iteration at which cancellation is first observed. */
  function FirstStop(cancel: seq<bool>): (n: nat)
    requires true in cancel
    ensures n < |cancel| && cancel[n]
    ensures forall j :: 0 <= j < n ==> !cancel[j]
  {
    if cancel[0] then 0 else 1 + FirstStop(cancel[1..])
  }

  /** The standard target before catch-up: the interval is added to the actual firing time
      in actual-time mode, and to the current standard target otherwise. */
  function FirstCandidate(cfg: InArgs, currentStandard: Time, triggered: Time): (c: Time)
    ensures cfg.mode ==> c - triggered == Seconds(cfg.interval)
    ensures !cfg.mode ==> c - currentStandard == Seconds(cfg.interval)
  {
    (if cfg.mode then triggered else currentStandard) + Seconds(cfg.interval)
  }

  /** The next standard target, when the catch-up ended on the clock reading `now`. It is not
      before `now`, and it is the candidate itself when that is not before `now`. */
  function NextStandardTarget(cfg: InArgs, currentStandard: Time, triggered: Time, now: Time): (r: Time)
    requires cfg.interval > 0
    ensures now <= r
    ensures now <= FirstCandidate(cfg, currentStandard, triggered) ==> r == FirstCandidate(cfg, currentStandard, triggered)
  {
    CatchUp(FirstCandidate(cfg, currentStandard, triggered), now, Seconds(cfg.interval))
  }

  /** The next standard target is the first slot of the grid from the candidate on that is not
      before the reading `now`: every earlier slot is, and it is less than one interval after `now`
      when the candidate was already in the past. */
  lemma NextStandardTargetIsFirstSlot(cfg: InArgs, currentStandard: Time, triggered: Time, now: Time)
    requires cfg.interval > 0
    ensures var candidate, step := FirstCandidate(cfg, currentStandard, triggered), Seconds(cfg.interval);
            var r := NextStandardTarget(cfg, currentStandard, triggered, now);
            && OnGrid(r, candidate, step)
            && candidate <= r
            && (forall m: nat :: Slot(candidate, m, step) < r ==> Slot(candidate, m, step) < now)
            && (candidate < now ==> r < now + step)
  {
    var candidate, step := FirstCandidate(cfg, currentStandard, triggered), Seconds(cfg.interval);
    var r := NextStandardTarget(cfg, currentStandard, triggered, now);
    var n := Skips(candidate, now, step);
    CatchUpOnGrid(candidate, now, step);
    assert r == Slot(candidate, n, step);
    forall m: nat | Slot(candidate, m, step) < r
      ensures Slot(candidate, m, step) < now
    {
      if m < n {
        CatchUpIsFirst(candidate, now, step, m);
      } else {
        SlotMonotone(candidate, n, m, step);
      }
    }
  }

  /** The jittered target of the `call`-th jitter computation of a run (call 0 is the initial
      target); each call consumes the same number of values of the generator's stream. Without
      jitter it is the standard target. */
  function Jittered(std: Time, cfg: InArgs, rnd: nat -> real, call: nat, normal: (real, real) -> real): (t: Time)
    ensures !cfg.addRandom && !cfg.addNormalDistRandom ==> t == std
  {
    AddRandomSec(std, cfg.addRandom, cfg.lowerLimit, cfg.upperLimit, cfg.addNormalDistRandom, cfg.sigma,
                 rnd, CallStart(cfg, call), normal)
  }

  /** The `call`-th jitter computation depends only on the stream values from `CallStart(cfg, call)`
      up to where the next call starts: the calls of a run draw from disjoint parts of the stream. */
  lemma JitteredUsesItsDraws(std: Time, cfg: InArgs, rnd: nat -> real, rnd': nat -> real, call: nat,
                             normal: (real, real) -> real)
    requires forall j :: CallStart(cfg, call) <= j < CallStart(cfg, call + 1) ==> rnd(j) == rnd'(j)
    ensures Jittered(std, cfg, rnd, call, normal) == Jittered(std, cfg, rnd', call, normal)
  {
    NextCallStart(cfg, call);
    AddRandomSecUsesItsDraws(std, cfg.addRandom, cfg.lowerLimit, cfg.upperLimit, cfg.addNormalDistRandom,
                             cfg.sigma, rnd, rnd', CallStart(cfg, call), normal);
  }

  /** Where in the generator's stream the `call`-th jitter computation of a run starts drawing. */
  function CallStart(cfg: InArgs, call: nat): nat {
    call * Draws(cfg.addRandom, cfg.addNormalDistRandom)
  }

  /** Event `e`, the `k`-th of a run, is a firing from the standard target `std` to `nextStd`:
      it fired after the jittered target had passed, carries the current jittered, current
      standard and next jittered targets and the firing time, and the catch-up that produced
      `nextStd` ended on the reading `stop`, taken after the firing time. */
  ghost predicate Firing(cfg: InArgs, rnd: nat -> real, normal: (real, real) -> real,
                         k: nat, e: OutArgs, std: Time, nextStd: Time, stop: Time)
    requires cfg.interval > 0
  {
    && e.currentStandardTargetDateTime == std
    && e.currentTargetDateTime == Jittered(std, cfg, rnd, k, normal)
    && e.actualTriggeredDateTime > e.currentTargetDateTime
    && e.actualTriggeredDateTime <= stop
    && nextStd == NextStandardTarget(cfg, std, e.actualTriggeredDateTime, stop)
    && e.nextTargetDateTime == Jittered(nextStd, cfg, rnd, k + 1, normal)
  }

  /** The position of the clock after `n` reads starting at position `start`. */
  function Advance(clock: seq<Time>, start: nat, n: nat): (r: nat)
    requires start < |clock|
    ensures start <= r < |clock|
  {
    if n == 0 then start else Following(clock, Advance(clock, start, n - 1))
  }

  /** The catch-up from `candidate`, reading the clock afresh from position `start`, ended on
      the reading at `at` with the target `next`: the loop read the clock once per slot, every
      slot it skipped was earlier than its own reading, and `next` is the first slot that was not. */
  ghost predicate CaughtUp(candidate: Time, step: int, clock: seq<Time>, start: nat, at: nat, next: Time)
    requires step > 0 && start < |clock| && at < |clock|
  {
    var k := Skips(candidate, clock[at], step);
    && at == Advance(clock, start, k)
    && next == CatchUp(candidate, clock[at], step)
    && forall j: nat :: j < k ==> Slot(candidate, j, step) < clock[Advance(clock, start, j)]
  }

  /** One iteration of the polling loop that did not observe cancellation: the clock is polled
      at position `poll` while `before` events have been emitted. An event is emitted exactly
      when that reading is later than the current jittered target; its firing time is the
      next reading, and the catch-up reads the clock from the reading after that.
      `nextPoll` is where the next iteration polls, `after` the events emitted by then. */
  ghost predicate Iteration(cfg: InArgs, clock: seq<Time>, rnd: nat -> real, normal: (real, real) -> real,
                            events: seq<OutArgs>, standards: seq<Time>, stopAt: seq<nat>,
                            poll: nat, nextPoll: nat, before: nat, after: nat)
    requires cfg.interval > 0
  {
    && poll < |clock| && before < |standards|
    && (var target := Jittered(standards[before], cfg, rnd, before, normal);
        if clock[poll] > target then
          && after == before + 1
          && before < |events| && before + 1 < |standards| && before < |stopAt|
          && stopAt[before] < |clock|
          && events[before].actualTriggeredDateTime == clock[Following(clock, poll)]
          && CaughtUp(FirstCandidate(cfg, standards[before], events[before].actualTriggeredDateTime),
                      Seconds(cfg.interval), clock, Following(clock, Following(clock, poll)),
                      stopAt[before], standards[before + 1])
          && nextPoll == Following(clock, stopAt[before])
        else
          && after == before
          && nextPoll == Following(clock, poll))
  }

  /** An iteration stays described by the same facts when later events are appended. */
  lemma IterationExtends(cfg: InArgs, clock: seq<Time>, rnd: nat -> real, normal: (real, real) -> real,
                         events: seq<OutArgs>, standards: seq<Time>, stopAt: seq<nat>,
                         events': seq<OutArgs>, standards': seq<Time>, stopAt': seq<nat>,
                         poll: nat, nextPoll: nat, before: nat, after: nat)
    requires cfg.interval > 0
    requires Iteration(cfg, clock, rnd, normal, events, standards, stopAt, poll, nextPoll, before, after)
    requires events <= events' && standards <= standards' && stopAt <= stopAt'
    ensures Iteration(cfg, clock, rnd, normal, events', standards', stopAt', poll, nextPoll, before, after)
  {
  }

  /** The catch-up loop: from `candidate`, keep adding `step` while the candidate is earlier
      than the clock, reading the clock afresh each time from position `pos`. It returns the
      caught-up target and the position of the reading that ended the loop. */
  method SkipMissedSlots(candidate: Time, step: int, clock: seq<Time>, pos: nat)
    returns (next: Time, at: nat)
    requires step > 0 && pos < |clock| && NonDecreasing(clock)
    ensures pos <= at < |clock|
    ensures CaughtUp(candidate, step, clock, pos, at, next)
  {
    next, at := candidate, pos;
    ghost var k: nat := 0;
    var now := clock[at];
    while next < now
      invariant pos <= at < |clock| && now == clock[at]
      invariant at == Advance(clock, pos, k)
      invariant next == Slot(candidate, k, step)
      invariant forall j: nat :: j < k ==> Slot(candidate, j, step) < clock[Advance(clock, pos, j)]
      invariant k > 0 ==> Slot(candidate, k - 1, step) < now
      decreases |clock| - at, clock[|clock| - 1] - next
    {
      ghost var skipped, previous := k, now;
      next, k := next + step, k + 1;
      at := Following(clock, at);
      now := clock[at];
      forall j: nat | j < k
        ensures Slot(candidate, j, step) < clock[Advance(clock, pos, j)]
      {
        if j == skipped {
          assert Slot(candidate, j, step) < previous;
        }
      }
    }
    CatchUpUnique(candidate, now, step, k);
  }

  /** One firing, once a clock reading `now` past the jittered target `currentTarget` has been
      taken: read the firing time at `pos`, compute and catch up the next standard target,
      jitter it with the generator's values from `drawn` on, and build the event. `k` counts
      earlier firings. The catch-up ends on the reading at `at`; the clock is read next at `nextPos`. */
  method Fire(cfg: InArgs, clock: seq<Time>, pos: nat, now: Time,
              rnd: nat -> real, normal: (real, real) -> real,
              k: nat, currentStandard: Time, currentTarget: Time, drawn: nat)
    returns (e: OutArgs, nextStandard: Time, nextPos: nat, at: nat)
    requires cfg.interval > 0
    requires pos < |clock| && NonDecreasing(clock)
    requires currentTarget < now <= clock[pos]
    requires currentTarget == Jittered(currentStandard, cfg, rnd, k, normal)
    requires drawn == CallStart(cfg, k + 1)
    ensures e.actualTriggeredDateTime == clock[pos]
    ensures pos <= at < |clock| && nextPos == Following(clock, at)
    ensures CaughtUp(FirstCandidate(cfg, currentStandard, clock[pos]), Seconds(cfg.interval),
                     clock, Following(clock, pos), at, nextStandard)
    ensures Firing(cfg, rnd, normal, k, e, currentStandard, nextStandard, clock[at])
  {
    var step := Seconds(cfg.interval);
    var triggered := clock[pos];
    nextPos := Following(clock, pos);
    nextStandard := FirstCandidate(cfg, currentStandard, triggered);
    nextStandard, at := SkipMissedSlots(nextStandard, step, clock, nextPos);
    nextPos := Following(clock, at);
    var nextTarget := AddRandomSec(nextStandard, cfg.addRandom, cfg.lowerLimit, cfg.upperLimit,
                                   cfg.addNormalDistRandom, cfg.sigma, rnd, drawn, normal);
    assert nextTarget == Jittered(nextStandard, cfg, rnd, k + 1, normal);
    assert triggered <= clock[at];
    e := OutArgs(currentTarget, currentStandard, nextTarget, triggered);
  }

  /** What the polling loop has established after `i` iterations that did not observe
      cancellation, with the clock to be polled next at `pos`: the run so far consists of
      firings chained from the initial target, and each iteration is described by `Iteration`. */
  ghost predicate Progress(cfg: InArgs, clock: seq<Time>, rnd: nat -> real, normal: (real, real) -> real,
                           events: seq<OutArgs>, standards: seq<Time>, stopAt: seq<nat>,
                           polls: seq<nat>, before: seq<nat>, i: nat, pos: nat)
    requires cfg.interval > 0
  {
    && pos < |clock|
    && |standards| == |events| + 1 && |stopAt| == |events|
    && standards[0] == cfg.initialTargetDateTime
    && (forall k :: 0 <= k < |events| ==> stopAt[k] <= pos)
    && (forall k :: 0 <= k < |events| ==>
          Firing(cfg, rnd, normal, k, events[k], standards[k], standards[k + 1], clock[stopAt[k]]))
    && (forall k :: 0 <= k < |events| - 1 ==> clock[stopAt[k]] <= events[k + 1].actualTriggeredDateTime)
    && |polls| == |before| == i + 1
    && polls[0] == 0 && before[0] == 0 && polls[i] == pos && before[i] == |events|
    && (forall j :: 0 <= j < i ==>
          Iteration(cfg, clock, rnd, normal, events, standards, stopAt,
                    polls[j], polls[j + 1], before[j], before[j + 1]))
  }

  /** An iteration whose poll reading has not passed the current jittered target keeps `Progress`. */
  lemma ProgressIdle(cfg: InArgs, clock: seq<Time>, rnd: nat -> real, normal: (real, real) -> real,
                     events: seq<OutArgs>, standards: seq<Time>, stopAt: seq<nat>,
                     polls: seq<nat>, before: seq<nat>, i: nat, pos: nat)
    requires cfg.interval > 0
    requires Progress(cfg, clock, rnd, normal, events, standards, stopAt, polls, before, i, pos)
    requires clock[pos] <= Jittered(standards[|events|], cfg, rnd, |events|, normal)
    ensures Progress(cfg, clock, rnd, normal, events, standards, stopAt,
                     polls + [Following(clock, pos)], before + [|events|], i + 1, Following(clock, pos))
  {
    var polls', before' := polls + [Following(clock, pos)], before + [|events|];
    forall j | 0 <= j < i + 1
      ensures Iteration(cfg, clock, rnd, normal, events, standards, stopAt,
                        polls'[j], polls'[j + 1], before'[j], before'[j + 1])
    {
      if j < i {
        assert polls'[j] == polls[j] && polls'[j + 1] == polls[j + 1];
        assert before'[j] == before[j] && before'[j + 1] == before[j + 1];
      }
    }
  }

  /** An iteration that fires, with the facts `Fire` establishes, keeps `Progress`. */
  lemma ProgressFired(cfg: InArgs, clock: seq<Time>, rnd: nat -> real, normal: (real, real) -> real,
                      events: seq<OutArgs>, standards: seq<Time>, stopAt: seq<nat>,
                      polls: seq<nat>, before: seq<nat>, i: nat, pos: nat,
                      e: OutArgs, nextStandard: Time, at: nat)
    requires cfg.interval > 0 && NonDecreasing(clock)
    requires Progress(cfg, clock, rnd, normal, events, standards, stopAt, polls, before, i, pos)
    requires clock[pos] > Jittered(standards[|events|], cfg, rnd, |events|, normal)
    requires e.actualTriggeredDateTime == clock[Following(clock, pos)]
    requires Following(clock, pos) <= at < |clock|
    requires CaughtUp(FirstCandidate(cfg, standards[|events|], clock[Following(clock, pos)]), Seconds(cfg.interval),
                      clock, Following(clock, Following(clock, pos)), at, nextStandard)
    requires Firing(cfg, rnd, normal, |events|, e, standards[|events|], nextStandard, clock[at])
    ensures Progress(cfg, clock, rnd, normal, events + [e], standards + [nextStandard], stopAt + [at],
                     polls + [Following(clock, at)], before + [|events| + 1], i + 1, Following(clock, at))
  {
    var events', standards', stopAt' := events + [e], standards + [nextStandard], stopAt + [at];
    var polls', before' := polls + [Following(clock, at)], before + [|events| + 1];
    forall k | 0 <= k < |events'|
      ensures stopAt'[k] <= Following(clock, at)
      ensures Firing(cfg, rnd, normal, k, events'[k], standards'[k], standards'[k + 1], clock[stopAt'[k]])
    {
      if k < |events| {
        assert events'[k] == events[k] && standards'[k] == standards[k];
        assert standards'[k + 1] == standards[k + 1] && stopAt'[k] == stopAt[k];
      }
    }
    forall k | 0 <= k < |events'| - 1
      ensures clock[stopAt'[k]] <= events'[k + 1].actualTriggeredDateTime
    {
      if k < |events| - 1 {
        assert events'[k + 1] == events[k + 1] && stopAt'[k] == stopAt[k];
      } else {
        assert stopAt'[k] == stopAt[k] <= pos <= Following(clock, pos);
      }
    }
    forall j | 0 <= j < i + 1
      ensures Iteration(cfg, clock, rnd, normal, events', standards', stopAt',
                        polls'[j], polls'[j + 1], before'[j], before'[j + 1])
    {
      if j < i {
        assert polls'[j] == polls[j] && polls'[j + 1] == polls[j + 1];
        assert before'[j] == before[j] && before'[j + 1] == before[j + 1];
        IterationExtends(cfg, clock, rnd, normal, events, standards, stopAt, events', standards', stopAt',
                         polls[j], polls[j + 1], before[j], before[j + 1]);
      } else {
        assert events'[|events|] == e && standards'[|events|] == standards[|events|];
        assert standards'[|events| + 1] == nextStandard && stopAt'[|events|] == at;
      }
    }
  }

  /** Before the first iteration: no events, and the run holds the initial target. */
  lemma ProgressStart(cfg: InArgs, clock: seq<Time>, rnd: nat -> real, normal: (real, real) -> real)
    requires cfg.interval > 0 && |clock| > 0
    ensures Progress(cfg, clock, rnd, normal, [], [cfg.initialTargetDateTime], [], [0], [0], 0, 0)
    ensures CallStart(cfg, 0) == 0 && CallStart(cfg, 1) == Draws(cfg.addRandom, cfg.addNormalDistRandom)
  {
  }

  /** When cancellation is observed at iteration `i`, `Progress` gives what the polling task promises. */
  lemma ProgressEnds(cfg: InArgs, clock: seq<Time>, cancel: seq<bool>, rnd: nat -> real, normal: (real, real) -> real,
                     events: seq<OutArgs>, standards: seq<Time>, stopAt: seq<nat>,
                     polls: seq<nat>, before: seq<nat>, i: nat, pos: nat)
    requires cfg.interval > 0 && true in cancel
    requires Progress(cfg, clock, rnd, normal, events, standards, stopAt, polls, before, i, pos)
    requires i == FirstStop(cancel) && |events| <= i
    ensures |standards| == |events| + 1 && |stopAt| == |events|
    ensures standards[0] == cfg.initialTargetDateTime
    ensures forall k :: 0 <= k < |events| ==> stopAt[k] < |clock|
    ensures forall k :: 0 <= k < |events| ==>
              Firing(cfg, rnd, normal, k, events[k], standards[k], standards[k + 1], clock[stopAt[k]])
    ensures forall k :: 0 <= k < |events| - 1 ==>
              clock[stopAt[k]] <= events[k + 1].actualTriggeredDateTime
    ensures |polls| == |before| == FirstStop(cancel) + 1
    ensures polls[0] == 0 && before[0] == 0 && before[FirstStop(cancel)] == |events|
    ensures forall j :: 0 <= j < FirstStop(cancel) ==>
              Iteration(cfg, clock, rnd, normal, events, standards, stopAt,
                        polls[j], polls[j + 1], before[j], before[j + 1])
    ensures |events| <= FirstStop(cancel)
  {
  }

  /** Each jitter computation starts where the previous one stopped drawing from the stream. */
  lemma NextCallStart(cfg: InArgs, call: nat)
    ensures CallStart(cfg, call + 1) == CallStart(cfg, call) + Draws(cfg.addRandom, cfg.addNormalDistRandom)
  {
  }

  /** One iteration of the polling loop that did not observe cancellation: read the clock at
      `pos` and, if the reading is past the current jittered target, fire. Returns the new state
      of the loop; `Progress` and the facts tying the current targets and the stream position to
      the run so far are kept. */
  method Poll(cfg: InArgs, clock: seq<Time>, rnd: nat -> real, normal: (real, real) -> real,
              events: seq<OutArgs>, ghost standards: seq<Time>, ghost stopAt: seq<nat>,
              ghost polls: seq<nat>, ghost before: seq<nat>, ghost i: nat, pos: nat,
              currentStandard: Time, currentTarget: Time, drawn: nat)
    returns (events': seq<OutArgs>, ghost standards': seq<Time>, ghost stopAt': seq<nat>,
             ghost polls': seq<nat>, ghost before': seq<nat>, pos': nat,
             currentStandard': Time, currentTarget': Time, drawn': nat)
    requires cfg.interval > 0 && NonDecreasing(clock)
    requires Progress(cfg, clock, rnd, normal, events, standards, stopAt, polls, before, i, pos)
    requires currentStandard == standards[|events|]
    requires drawn == CallStart(cfg, |events| + 1)
    requires currentTarget == Jittered(currentStandard, cfg, rnd, |events|, normal)
    ensures Progress(cfg, clock, rnd, normal, events', standards', stopAt', polls', before', i + 1, pos')
    ensures |events| <= |events'| <= |events| + 1
    ensures currentStandard' == standards'[|events'|]
    ensures drawn' == CallStart(cfg, |events'| + 1)
    ensures currentTarget' == Jittered(currentStandard', cfg, rnd, |events'|, normal)
  {
    // the poll period's sleep: the clock moves on, nothing else changes
    var now := clock[pos];
    if now > currentTarget {
      var e, nextStandard, nextPos, at :=
        Fire(cfg, clock, Following(clock, pos), now, rnd, normal, |events|, currentStandard, currentTarget, drawn);
      ProgressFired(cfg, clock, rnd, normal, events, standards, stopAt, polls, before, i, pos,
                    e, nextStandard, at);
      NextCallStart(cfg, |events| + 1);
      events', standards', stopAt' := events + [e], standards + [nextStandard], stopAt + [at];
      polls', before' := polls + [nextPos], before + [|events| + 1];
      currentTarget', currentStandard', drawn' := e.nextTargetDateTime, nextStandard, drawn + Draws(cfg.addRandom, cfg.addNormalDistRandom);
      pos' := nextPos;
    } else {
      ProgressIdle(cfg, clock, rnd, normal, events, standards, stopAt, polls, before, i, pos);
      events', standards', stopAt' := events, standards, stopAt;
      polls', before' := polls + [Following(clock, pos)], before + [|events|];
      currentTarget', currentStandard', drawn' := currentTarget, currentStandard, drawn;
      pos' := Following(clock, pos);
    }
  }

  /** The polling task. `clock` supplies the successive readings of the wall clock (every
      read consumes one), `cancel` the successive samples of the cancellation flag, `rnd` the
      generator's stream. Besides the events, it returns as ghosts the standard targets it
      held (one per event plus the final one), the position of the reading that ended each
      catch-up, and per iteration the position of its poll reading and the number of events
      emitted before it (one entry more than there were iterations). */
  method Poling(cfg: InArgs, clock: seq<Time>, cancel: seq<bool>,
                rnd: nat -> real, normal: (real, real) -> real)
    returns (events: seq<OutArgs>, ghost standards: seq<Time>, ghost stopAt: seq<nat>,
             ghost polls: seq<nat>, ghost before: seq<nat>)
    requires cfg.interval > 0
    requires |clock| > 0 && NonDecreasing(clock)
    requires true in cancel
    ensures |standards| == |events| + 1 && |stopAt| == |events|
    ensures standards[0] == cfg.initialTargetDateTime
    ensures forall k :: 0 <= k < |events| ==> stopAt[k] < |clock|
    ensures forall k :: 0 <= k < |events| ==>
              Firing(cfg, rnd, normal, k, events[k], standards[k], standards[k + 1], clock[stopAt[k]])
    ensures forall k :: 0 <= k < |events| - 1 ==>
              clock[stopAt[k]] <= events[k + 1].actualTriggeredDateTime
    ensures |polls| == |before| == FirstStop(cancel) + 1
    ensures polls[0] == 0 && before[0] == 0 && before[FirstStop(cancel)] == |events|
    ensures forall i :: 0 <= i < FirstStop(cancel) ==>
              Iteration(cfg, clock, rnd, normal, events, standards, stopAt,
                        polls[i], polls[i + 1], before[i], before[i + 1])
    ensures |events| <= FirstStop(cancel)
    ensures !cfg.mode ==> forall k :: 0 <= k < |standards| ==>
              OnGrid(standards[k], cfg.initialTargetDateTime, Seconds(cfg.interval))
  {
    var currentStandard := cfg.initialTargetDateTime;
    var currentTarget := AddRandomSec(currentStandard, cfg.addRandom, cfg.lowerLimit, cfg.upperLimit,
                                      cfg.addNormalDistRandom, cfg.sigma, rnd, 0, normal);
    var drawn := Draws(cfg.addRandom, cfg.addNormalDistRandom);
    var pos: nat := 0;
    var i := 0;
    events, standards, stopAt := [], [currentStandard], [];
    polls, before := [0], [0];
    ProgressStart(cfg, clock, rnd, normal);
    while true
      invariant i <= FirstStop(cancel) && |events| <= i
      invariant Progress(cfg, clock, rnd, normal, events, standards, stopAt, polls, before, i, pos)
      invariant currentStandard == standards[|events|]
      invariant drawn == CallStart(cfg, |events| + 1)
      invariant currentTarget == Jittered(currentStandard, cfg, rnd, |events|, normal)
      decreases FirstStop(cancel) - i
    {
      if cancel[i] {
        break;
      }
      events, standards, stopAt, polls, before, pos, currentStandard, currentTarget, drawn :=
        Poll(cfg, clock, rnd, normal, events, standards, stopAt, polls, before, i, pos,
             currentStandard, currentTarget, drawn);
      i := i + 1;
    }
    ProgressEnds(cfg, clock, cancel, rnd, normal, events, standards, stopAt, polls, before, i, pos);
    if !cfg.mode {
      RunGridAligned(cfg, clock, rnd, normal, events, standards, stopAt);
    }
  }

  /** In the default mode the schedule keeps a fixed grid: every standard target a run
      holds differs from the initial target by a non-negative multiple of the interval,
      however late the firings were. */
  lemma {:induction false} GridAligned(cfg: InArgs, rnd: nat -> real, normal: (real, real) -> real,
                                       events: seq<OutArgs>, standards: seq<Time>, stops: seq<Time>, k: nat)
    requires cfg.interval > 0 && !cfg.mode
    requires |standards| == |events| + 1 && |stops| == |events|
    requires forall j :: 0 <= j < |events| ==>
               Firing(cfg, rnd, normal, j, events[j], standards[j], standards[j + 1], stops[j])
    requires k < |standards|
    ensures OnGrid(standards[k], standards[0], Seconds(cfg.interval))
  {
    var step := Seconds(cfg.interval);
    if k == 0 {
      assert standards[0] == Slot(standards[0], 0, step);
    } else {
      GridAligned(cfg, rnd, normal, events, standards, stops, k - 1);
      var previous := standards[k - 1];
      assert Firing(cfg, rnd, normal, k - 1, events[k - 1], previous, standards[k], stops[k - 1]);
      assert previous + step == Slot(previous, 1, step);
      CatchUpOnGrid(previous + step, stops[k - 1], step);
      OnGridTrans(previous, previous + step, standards[k], step);
      OnGridTrans(standards[0], previous, standards[k], step);
    }
  }

  /** `GridAligned` for a run of the polling loop, whose catch-ups stopped on readings of `clock`. */
  lemma RunGridAligned(cfg: InArgs, clock: seq<Time>, rnd: nat -> real, normal: (real, real) -> real,
                       events: seq<OutArgs>, standards: seq<Time>, stopAt: seq<nat>)
    requires cfg.interval > 0 && !cfg.mode
    requires |standards| == |events| + 1 && |stopAt| == |events|
    requires forall k :: 0 <= k < |events| ==> stopAt[k] < |clock|
    requires forall k :: 0 <= k < |events| ==>
               Firing(cfg, rnd, normal, k, events[k], standards[k], standards[k + 1], clock[stopAt[k]])
    ensures forall k :: 0 <= k < |standards| ==> OnGrid(standards[k], standards[0], Seconds(cfg.interval))
  {
    var stops := seq(|stopAt|, k requires 0 <= k < |stopAt| => clock[stopAt[k]]);
    forall k | 0 <= k < |standards|
      ensures OnGrid(standards[k], standards[0], Seconds(cfg.interval))
    {
      GridAligned(cfg, rnd, normal, events, standards, stops, k);
    }
  }

  /** In actual-time mode the grid restarts at each firing: the next standard target lies on the
      grid that starts one interval after the firing time, and it is never earlier than the
      reading that ended the catch-up (so never before the firing itself). */
  lemma ActualTimeModeRestartsGrid(cfg: InArgs, rnd: nat -> real, normal: (real, real) -> real,
                                   k: nat, e: OutArgs, std: Time, nextStd: Time, stop: Time)
    requires cfg.interval > 0 && cfg.mode
    requires Firing(cfg, rnd, normal, k, e, std, nextStd, stop)
    ensures OnGrid(nextStd, e.actualTriggeredDateTime + Seconds(cfg.interval), Seconds(cfg.interval))
    ensures e.actualTriggeredDateTime + Seconds(cfg.interval) <= nextStd
    ensures e.actualTriggeredDateTime <= stop <= nextStd
  {
    CatchUpOnGrid(e.actualTriggeredDateTime + Seconds(cfg.interval), stop, Seconds(cfg.interval));
  }

  /** With a 60 second interval, a standard target `t` and a firing 5 seconds after it, the next
      standard target is t + 65 s in actual-time mode and t + 60 s in the default mode, as long as
      the clock has not already passed that time when the catch-up looks at it. */
  lemma ModeExample(cfg: InArgs, t: Time, now: Time)
    requires cfg.interval == 60 && now <= t + Seconds(60)
    ensures NextStandardTarget(cfg.(mode := true), t, t + Seconds(5), now) == t + Seconds(65)
    ensures NextStandardTarget(cfg.(mode := false), t, t + Seconds(5), now) == t + Seconds(60)
  {
  }

  /** Without jitter, a firing fires once the clock passes the standard target itself,
      and in the default mode with no missed slot the next target is one interval later. */
  lemma FiringWithoutJitter(cfg: InArgs, rnd: nat -> real, normal: (real, real) -> real,
                            k: nat, e: OutArgs, std: Time, nextStd: Time, stop: Time)
    requires cfg.interval > 0 && !cfg.addRandom && !cfg.addNormalDistRandom && !cfg.mode
    requires Firing(cfg, rnd, normal, k, e, std, nextStd, stop)
    requires stop <= std + Seconds(cfg.interval)
    ensures e.currentTargetDateTime == std < e.actualTriggeredDateTime
    ensures nextStd == e.nextTargetDateTime == std + Seconds(cfg.interval)
  {
  }
}
