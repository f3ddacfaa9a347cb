/** The clock that replays an interval of time in fixed steps. */
module Clocks {
  import opened Types

  const DEFAULT_TIME_STEP: nat := 100_000  // 100 microseconds, in nanoseconds

  // times are nanoseconds since the Unix epoch; `Interval::new` refuses an empty interval
  datatype Bounds = Bounds(start: int, end: int)
  type Interval = b: Bounds | b.start < b.end witness Bounds(0, 1)

  datatype CycleTime = CycleTime(instant: Instant, unixTime: int)

  /** How far into the interval the `k`th reading of the clock lies, counting from 0. */
  function Elapsed(interval: Interval, step: nat, k: nat): nat {
    if k * step < interval.end - interval.start then k * step else interval.end - interval.start
  }

  /** The `k`th reading of a clock whose instants are `baseline` ahead of its interval. */
  function Reading(interval: Interval, step: nat, baseline: Instant, k: nat): CycleTime {
    CycleTime(baseline + Elapsed(interval, step, k), interval.start + Elapsed(interval, step, k))
  }

  /** The number of steps that cover the interval, the last one possibly cut short. */
  function Steps(interval: Interval, step: nat): nat
    requires step > 0
  {
    (interval.end - interval.start + step - 1) / step
  }

  /** `Steps` is the first reading at the end of the interval. */
  lemma StepsCover(interval: Interval, step: nat, k: nat)
    requires step > 0
    ensures Elapsed(interval, step, k) == interval.end - interval.start <==> k >= Steps(interval, step)
    ensures Steps(interval, step) > 0
  {
    var length, n := interval.end - interval.start, Steps(interval, step);
    assert n * step - step < length <= n * step;
    if k >= n {
      assert k * step >= n * step by { MulMonotone(n, k, step); }
    } else {
      assert k * step <= (n - 1) * step by { MulMonotone(k, n - 1, step); }
    }
  }

  lemma MulMonotone(a: nat, b: nat, c: nat)
    requires a <= b
    ensures a * c <= b * c
  {
  }

  class HistoricalClock {
    const interval: Interval
    const timeStep: nat
    const baselineInstant: Instant
    var currentTime: int
    var exhausted: bool
    ghost var readings: nat

    /** After `readings` calls of `cycle_time`; exhausted once a call has started at the end. */
    ghost predicate Valid()
      reads this
    {
      && currentTime == interval.start + Elapsed(interval, timeStep, readings)
      && (exhausted <==> readings > 0 && Elapsed(interval, timeStep, readings - 1) == interval.end - interval.start)
    }

    /** `instantNow` is the machine's clock when the replay is set up. */
    constructor WithTimeStep(interval: Interval, timeStep: nat, instantNow: Instant)
      ensures Valid() && readings == 0
      ensures this.interval == interval && this.timeStep == timeStep && baselineInstant == instantNow - interval.start
    {
      this.interval, this.timeStep := interval, timeStep;
      baselineInstant := instantNow - interval.start;
      currentTime, exhausted, readings := interval.start, false, 0;
    }

    constructor (interval: Interval, instantNow: Instant)
      ensures Valid() && readings == 0
      ensures this.interval == interval && timeStep == DEFAULT_TIME_STEP && baselineInstant == instantNow - interval.start
    {
      this.interval, this.timeStep := interval, DEFAULT_TIME_STEP;
      baselineInstant := instantNow - interval.start;
      currentTime, exhausted, readings := interval.start, false, 0;
    }

    method Reset()
      modifies this
      ensures Valid() && readings == 0 && !exhausted
    {
      currentTime, exhausted, readings := interval.start, false, 0;
    }

    function CurrentInstant(): (instant: Instant)
      requires Valid()
      reads this
      ensures instant == baselineInstant + Elapsed(interval, timeStep, readings)
    {
      var elapsed := currentTime - interval.start;
      baselineInstant + if elapsed < 0 then 0 else elapsed
    }

    method TryAdvance()
      requires Valid()
      modifies this
      ensures Valid() && readings == old(readings) + 1
    {
      ElapsedNext(interval, timeStep, readings);
      if readings > 0 { ElapsedNext(interval, timeStep, readings - 1); }
      readings := readings + 1;
      if exhausted {
        return;
      } else if currentTime == interval.end {
        exhausted := true;
        return;
      }
      var nextTime := currentTime + timeStep;
      if nextTime >= interval.end {
        currentTime := interval.end;
      } else {
        currentTime := nextTime;
      }
    }

    /** The reading is the one of the current position; the clock then moves on. */
    method ReadCycleTime() returns (time: CycleTime)
      requires Valid()
      modifies this
      ensures Valid() && readings == old(readings) + 1
      ensures time == Reading(interval, timeStep, baselineInstant, old(readings))
    {
      time := CycleTime(CurrentInstant(), currentTime);
      TryAdvance();
    }
  }

  lemma ElapsedNext(interval: Interval, step: nat, k: nat)
    ensures Elapsed(interval, step, k + 1) ==
      if Elapsed(interval, step, k) + step < interval.end - interval.start then Elapsed(interval, step, k) + step
      else interval.end - interval.start
  {
  }

  /** However far apart two readings are, instants and wall time have advanced alike: by whole steps before
      the end of the interval, by less at the end, and never past it. */
  lemma AdvancesAlike(interval: Interval, step: nat, baseline: Instant, j: nat, k: nat)
    requires j <= k
    ensures
      var a, b := Reading(interval, step, baseline, j), Reading(interval, step, baseline, k);
      && b.instant - a.instant == b.unixTime - a.unixTime
      && 0 <= b.unixTime - a.unixTime <= (k - j) * step
      && (b.unixTime < interval.end ==> b.unixTime - a.unixTime == (k - j) * step)
      && interval.start <= a.unixTime <= b.unixTime <= interval.end
  {
    assert k * step == j * step + (k - j) * step;
    MulMonotone(j, k, step);
  }
}
