/** The loop that replays a historical interval through the executor. */
module Replay {
  import opened Types
  import opened Events
  import opened Execution
  import opened Clocks

  /** What the replay loop saw of a cycle: the reading of the clock, the time its nodes saw, its result. */
  datatype CycleLog = CycleLog(time: CycleTime, seen: Instant, result: CycleResult)

  /** How a replay reads time. */
  datatype Schedule = Schedule(interval: Interval, step: nat, baseline: Instant)

  /** Cycle number `k`, from 0, happens `k` steps into the interval, or at its end. */
  ghost predicate OnTime(s: Schedule, k: nat, io: IoResult, entry: CycleLog) {
    && entry.time == Reading(s.interval, s.step, s.baseline, k)
    && entry.seen == entry.time.instant
    && (entry.result == PollFailed <==> io.Failed?)
  }

  /** Every cycle but the last has gone on; a failed poll goes on like a cycle (`unwrap_or(Running)`). */
  ghost predicate Replayed(s: Schedule, io: nat -> IoResult, log: seq<CycleLog>) {
    && (forall k :: 0 <= k < |log| ==> OnTime(s, k, io(k), log[k]))
    && (forall k :: 0 <= k < |log| - 1 ==> log[k].result == Running || log[k].result == PollFailed)
  }

  lemma ReplayedMore(s: Schedule, io: nat -> IoResult, log: seq<CycleLog>, entry: CycleLog)
    requires Replayed(s, io, log) && OnTime(s, |log|, io(|log|), entry)
    requires log != [] ==> log[|log| - 1].result == Running || log[|log| - 1].result == PollFailed
    ensures Replayed(s, io, log + [entry])
  {
  }

  class Runtime<V> {
    const executor: Executor<V>
    const clock: HistoricalClock

    ghost predicate Valid()
      reads this, executor.Repr(), clock
    {
      executor.Valid() && clock.Valid() && executor.driver.mode == Spin && clock !in executor.Repr()
    }

    ghost function Plan(): Schedule {
      Schedule(clock.interval, clock.timeStep, clock.baselineInstant)
    }

    /** `instantNow` is the machine's clock when the replay is set up. */
    constructor (interval: Interval, instantNow: Instant)
      ensures Valid() && fresh(executor) && fresh(executor.Repr()) && fresh(clock)
      ensures clock.readings == 0 && Plan() == Schedule(interval, DEFAULT_TIME_STEP, instantNow - interval.start)
      ensures executor.graph.nodes == map[] && executor.epoch == 0
    {
      executor := new Executor<V>(NOTIFICATION_CAPACITY, POLL_LIMIT, Spin);
      clock := new HistoricalClock(interval, instantNow);
    }

    /** One turn of the loop. */
    method RunOneCycle(io: IoResult) returns (ghost entry: CycleLog, result: CycleResult)
      requires Valid()
      modifies executor.Repr(), clock
      ensures result == Running || result == PollFailed ==> Valid()
      ensures clock.Valid() && clock.readings == old(clock.readings) + 1
      ensures OnTime(Plan(), old(clock.readings), io, entry) && entry.result == result
      ensures executor.epoch == old(executor.epoch) + 1
    {
      var time := clock.ReadCycleTime();
      ghost var rec;
      result, rec := executor.Cycle(time.instant, time.instant, Some(0), io);
      entry := CycleLog(time, rec.now, result);
    }

    /** The cycles so far, none of which ended the run, and how many are still to come. */
    ghost predicate Replaying(io: nat -> IoResult, log: seq<CycleLog>)
      reads clock
    {
      && clock.Valid() && clock.timeStep > 0 && clock.readings == |log| && Replayed(Plan(), io, log)
      && |log| <= Steps(clock.interval, clock.timeStep) + 1
      && (clock.exhausted <==> |log| == Steps(clock.interval, clock.timeStep) + 1)
      && (log != [] ==> log[|log| - 1].result == Running || log[|log| - 1].result == PollFailed)
    }

    method ReplayCycle(io: nat -> IoResult, k: nat, ghost log: seq<CycleLog>) returns (result: CycleResult, ghost log': seq<CycleLog>)
      requires Valid() && Replaying(io, log) && !clock.exhausted && k == |log|
      modifies executor.Repr(), clock
      ensures result == Running || result == PollFailed ==> Valid() && Replaying(io, log')
      ensures Replayed(Plan(), io, log') && |log'| == |log| + 1 <= Steps(clock.interval, clock.timeStep) + 1
      ensures log'[|log|].result == result && executor.epoch == old(executor.epoch) + 1
    {
      ghost var entry;
      StepsCover(clock.interval, clock.timeStep, k);
      entry, result := RunOneCycle(io(k));
      ReplayedMore(Plan(), io, log, entry);
      log' := log + [entry];
    }

    /** Replays the whole interval; `io` answers each cycle's poll, and a failed poll does not end the run. */
    method RunUntilCompletion(io: nat -> IoResult) returns (ghost log: seq<CycleLog>)
      requires Valid() && clock.readings == 0 && clock.timeStep > 0
      modifies executor.Repr(), clock
      ensures Replayed(Plan(), io, log) && executor.epoch == old(executor.epoch) + |log|
      ensures 0 < |log| <= Steps(clock.interval, clock.timeStep) + 1
      ensures log[|log| - 1].result != Terminated && log[|log| - 1].result != SpawnPanicked ==>
        |log| == Steps(clock.interval, clock.timeStep) + 1 && log[|log| - 1].time.unixTime == clock.interval.end
    {
      log := [];
      var k := 0;
      StepsCover(clock.interval, clock.timeStep, 0);
      while !clock.exhausted
        invariant Valid() && Replaying(io, log) && k == |log|
        invariant executor.epoch == old(executor.epoch) + k
        decreases Steps(clock.interval, clock.timeStep) + 1 - k
      {
        var result;
        result, log := ReplayCycle(io, k, log);
        // only a terminating node ends the loop, and a panic unwinds through it
        if result == Terminated || result == SpawnPanicked {
          return;
        }
        k := k + 1;
      }
      StepsCover(clock.interval, clock.timeStep, k - 1);
    }
  }
}
