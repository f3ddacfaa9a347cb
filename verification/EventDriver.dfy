/** Polling of all event sources at the start of a cycle. */
module Events {
  import opened Types
  import opened Scheduling
  import opened Graphs
  import opened Timers

  const NOTIFICATION_CAPACITY: nat := 256
  const POLL_LIMIT: nat := 16
  const MINIMUM_TIMER_PRECISION: nat := 1_000_000  // one millisecond, in nanoseconds

  datatype Mode = Spin | Park

  /** What the operating system's poll answers: the ready sources' nodes, or an error. */
  datatype IoResult = Ready(nodes: seq<NodeIndex>) | Failed

  class YieldDriver {
    var indices: seq<NodeIndex>

    constructor ()
      ensures indices == []
    {
      indices := [];
    }

    method YieldNow(n: NodeIndex)
      modifies this
      ensures indices == old(indices) + [n]
    {
      indices := indices + [n];
    }

    method Poll<V>(graph: Graph<V>, scheduler: Scheduler, epoch: nat)
      requires scheduler.Valid() && Admissible(graph.nodes, scheduler.currDepth, |scheduler.multiQueue|)
      modifies this, graph`nodes, scheduler`multiQueue, scheduler`pendingEvents, scheduler`arrivals
      ensures indices == []
      ensures scheduler.Valid() && |scheduler.multiQueue| == |old(scheduler.multiQueue)|
      ensures Admitted(old(graph.nodes), old(scheduler.arrivals), old(indices), epoch, graph.nodes, scheduler.arrivals)
    {
      AdmitAll(graph, scheduler, indices, epoch);
      indices := [];
    }
  }

  /** The loop over a list of ready nodes. */
  method AdmitAll<V>(graph: Graph<V>, scheduler: Scheduler, ready: seq<NodeIndex>, epoch: nat)
    requires scheduler.Valid() && Admissible(graph.nodes, scheduler.currDepth, |scheduler.multiQueue|)
    modifies graph`nodes, scheduler`multiQueue, scheduler`pendingEvents, scheduler`arrivals
    ensures scheduler.Valid() && |scheduler.multiQueue| == |old(scheduler.multiQueue)|
    ensures Admitted(old(graph.nodes), old(scheduler.arrivals), ready, epoch, graph.nodes, scheduler.arrivals)
  {
    ghost var nodes, arrivals := graph.nodes, scheduler.arrivals;
    AdmittedNone(nodes, arrivals, epoch);
    for i := 0 to |ready|
      invariant scheduler.Valid() && |scheduler.multiQueue| == |old(scheduler.multiQueue)|
      invariant Admitted(nodes, arrivals, ready[..i], epoch, graph.nodes, scheduler.arrivals)
    {
      ScheduleReady(graph, scheduler, ready[i], epoch, nodes, arrivals, ready[..i]);
      assert ready[..i + 1] == ready[..i] + [ready[i]];
    }
    assert ready[..|ready|] == ready;
  }

  lemma AdmittedThen<V>(
    n0: map<NodeIndex, NodeContext<V>>, a0: seq<Entry>, first: seq<NodeIndex>, epoch: nat,
    n1: map<NodeIndex, NodeContext<V>>, a1: seq<Entry>, second: seq<NodeIndex>,
    n2: map<NodeIndex, NodeContext<V>>, a2: seq<Entry>)
    requires Admitted(n0, a0, first, epoch, n1, a1) && Admitted(n1, a1, second, epoch, n2, a2)
    ensures Admitted(n0, a0, first + second, epoch, n2, a2)
  {
    FreshAppend(n0, first, second, epoch);
  }

  class EventDriver {
    const yieldDriver: YieldDriver
    const timerDriver: TimerDriver
    const notificationCapacity: nat
    const pollLimit: nat
    const mode: Mode
    var notifications: seq<NodeIndex>

    ghost predicate Valid()
      reads this, timerDriver
    {
      timerDriver.Valid() && |notifications| <= notificationCapacity
    }

    constructor (notificationCapacity: nat, pollLimit: nat, mode: Mode)
      ensures Valid() && fresh(yieldDriver) && fresh(timerDriver)
      ensures notifications == [] && yieldDriver.indices == [] && timerDriver.timers == map[]
      ensures this.notificationCapacity == notificationCapacity && this.pollLimit == pollLimit && this.mode == mode
    {
      this.notificationCapacity, this.pollLimit, this.mode := notificationCapacity, pollLimit, mode;
      yieldDriver := new YieldDriver();
      timerDriver := new TimerDriver();
      notifications := [];
    }

    /** A notifier's push: dropped without a trace when the queue is full. */
    method Notify(n: NodeIndex)
      requires Valid()
      modifies this
      ensures Valid()
      ensures notifications ==
        if |old(notifications)| < notificationCapacity then old(notifications) + [n] else old(notifications)
    {
      if |notifications| < notificationCapacity {
        notifications := notifications + [n];
      }
    }

    function Popped(): nat
      reads this
    {
      if pollLimit < |notifications| then pollLimit else |notifications|
    }

    /** What notifications, yields and due timers offer for scheduling, in order. */
    ghost function Offered(now: Instant): seq<NodeIndex>
      reads this, yieldDriver, timerDriver
    {
      notifications[..Popped()] + yieldDriver.indices + FiringNodes(timerDriver.timers, now)
    }

    /** Everything a poll at `now` offers. */
    ghost function Polled(now: Instant, io: IoResult): seq<NodeIndex>
      reads this, yieldDriver, timerDriver
    {
      Offered(now) + if io.Ready? then io.nodes else []
    }

    /** Which nodes a poll offers: those of the first notifications, of the yields, of the timers due
        and of the ready sources. */
    lemma OffersExactly(now: Instant, io: IoResult, n: NodeIndex)
      ensures n in Polled(now, io) <==>
        || (exists i :: 0 <= i < |notifications| && i < pollLimit && notifications[i] == n)
        || n in yieldDriver.indices
        || (exists k :: k in timerDriver.timers && k.when <= now && timerDriver.timers[k] == n)
        || (io.Ready? && n in io.nodes)
    {
      var first, timers := notifications[..Popped()], timerDriver.timers;
      var firing := Firing(timers.Keys, now);
      FiringSpec(timers.Keys, now);
      assert n in first <==> exists i :: 0 <= i < |notifications| && i < pollLimit && notifications[i] == n;
      if k :| k in timers && k.when <= now && timers[k] == n {
        var i :| 0 <= i < |firing| && firing[i] == k;
        assert FiringNodes(timers, now)[i] == n;
      }
      if n in FiringNodes(timers, now) {
        var i :| 0 <= i < |firing| && FiringNodes(timers, now)[i] == n;
        assert firing[i] in firing && timers[firing[i]] == n;
      }
    }

    /** Nothing is queued, and nothing but the operating system can bring anything to run. */
    ghost predicate Idle<V>(nodes: map<NodeIndex, NodeContext<V>>, arrivals: seq<Entry>, now: Instant, epoch: nat)
      reads this, yieldDriver, timerDriver
    {
      arrivals + Fresh(nodes, Offered(now), epoch) == []
    }

    method PopNotifications<V>(graph: Graph<V>, scheduler: Scheduler, epoch: nat)
      requires scheduler.Valid() && Admissible(graph.nodes, scheduler.currDepth, |scheduler.multiQueue|)
      modifies this, graph`nodes, scheduler`multiQueue, scheduler`pendingEvents, scheduler`arrivals
      ensures notifications == old(notifications)[old(Popped())..]
      ensures |notifications| == if |old(notifications)| > pollLimit then |old(notifications)| - pollLimit else 0
      ensures scheduler.Valid() && |scheduler.multiQueue| == |old(scheduler.multiQueue)|
      ensures Admitted(old(graph.nodes), old(scheduler.arrivals), old(notifications)[..old(Popped())], epoch,
                       graph.nodes, scheduler.arrivals)
    {
      ghost var nodes, arrivals, all := graph.nodes, scheduler.arrivals, notifications;
      AdmittedNone(nodes, arrivals, epoch);
      var i := 0;
      while i < pollLimit && notifications != []
        invariant i <= pollLimit && i <= |all| && notifications == all[i..]
        invariant scheduler.Valid() && |scheduler.multiQueue| == |old(scheduler.multiQueue)|
        invariant Admitted(nodes, arrivals, all[..i], epoch, graph.nodes, scheduler.arrivals)
      {
        var n := notifications[0];
        notifications := notifications[1..];
        ScheduleReady(graph, scheduler, n, epoch, nodes, arrivals, all[..i]);
        assert all[..i + 1] == all[..i] + [n];
        i := i + 1;
      }
    }

    /** How long a poll without ready work may wait for the operating system. */
    method EffectiveTimeout(now: Instant, timeout: Option<nat>) returns (wait: Option<nat>)
      ensures timerDriver.timers == map[] ==> wait == timeout
      ensures timeout.Some? ==> wait.Some? && (wait.value <= timeout.value || wait.value == MINIMUM_TIMER_PRECISION)
      ensures timeout.Some? && timerDriver.timers != map[] ==> wait.value >= MINIMUM_TIMER_PRECISION
      ensures forall k :: k in timerDriver.timers ==>
        wait.Some? && (now + wait.value <= k.when || (timeout.None? && wait.value == 0) || wait.value == MINIMUM_TIMER_PRECISION)
      ensures wait.Some? && (timeout.None? || wait.value < timeout.value) ==> exists k :: k in timerDriver.timers && k.when <= now + wait.value
    {
      var next := timerDriver.NextTimer();
      if next.None? {
        return timeout;
      }
      var left: nat := if next.value > now then next.value - now else 0;
      if timeout.None? {
        return Some(left);
      }
      var least := if timeout.value < left then timeout.value else left;
      return Some(if least < MINIMUM_TIMER_PRECISION then MINIMUM_TIMER_PRECISION else least);
    }

    /** The part of a poll before the operating system's. */
    method PollOffered<V>(graph: Graph<V>, scheduler: Scheduler, now: Instant, epoch: nat)
      requires Valid() && scheduler.Valid() && Admissible(graph.nodes, scheduler.currDepth, |scheduler.multiQueue|)
      modifies this, yieldDriver, timerDriver`timers, graph`nodes,
               scheduler`multiQueue, scheduler`pendingEvents, scheduler`arrivals
      ensures Valid() && scheduler.Valid() && |scheduler.multiQueue| == |old(scheduler.multiQueue)|
      ensures notifications == old(notifications)[old(Popped())..] && yieldDriver.indices == []
      ensures timerDriver.timers == Unexpired(old(timerDriver.timers), now)
      ensures Admitted(old(graph.nodes), old(scheduler.arrivals), old(Offered(now)), epoch, graph.nodes, scheduler.arrivals)
    {
      ghost var n0, a0 := graph.nodes, scheduler.arrivals;
      ghost var l1, l2 := notifications[..Popped()], yieldDriver.indices;
      PopNotifications(graph, scheduler, epoch);
      ghost var n1, a1 := graph.nodes, scheduler.arrivals;
      yieldDriver.Poll(graph, scheduler, epoch);
      ghost var n2, a2 := graph.nodes, scheduler.arrivals;
      AdmittedThen(n0, a0, l1, epoch, n1, a1, l2, n2, a2);
      ghost var l3 := FiringNodes(timerDriver.timers, now);
      timerDriver.Poll(graph, scheduler, now, epoch);
      AdmittedThen(n0, a0, l1 + l2, epoch, n2, a2, l3, graph.nodes, scheduler.arrivals);
    }

    /** `now` and `later` are the clock's answers before and after a blocking poll. */
    method Poll<V>(graph: Graph<V>, scheduler: Scheduler, now: Instant, later: Instant, timeout: Option<nat>, io: IoResult, epoch: nat)
      returns (ok: bool, cycleTime: Instant)
      requires Valid() && scheduler.Valid() && Admissible(graph.nodes, scheduler.currDepth, |scheduler.multiQueue|)
      modifies this, yieldDriver, timerDriver`timers, graph`nodes,
               scheduler`multiQueue, scheduler`pendingEvents, scheduler`arrivals
      ensures Valid() && scheduler.Valid() && |scheduler.multiQueue| == |old(scheduler.multiQueue)|
      ensures ok <==> io.Ready?
      ensures notifications == old(notifications)[old(Popped())..] && yieldDriver.indices == []
      ensures timerDriver.timers == Unexpired(old(timerDriver.timers), now)
      ensures Admitted(old(graph.nodes), old(scheduler.arrivals), old(Polled(now, io)), epoch,
                       graph.nodes, scheduler.arrivals)
      ensures cycleTime == if ok && mode == Park && timeout != Some(0) && old(Idle(graph.nodes, scheduler.arrivals, now, epoch)) then later else now
    {
      ghost var n0, a0, offered := graph.nodes, scheduler.arrivals, Offered(now);
      PollOffered(graph, scheduler, now, epoch);
      ghost var n3, a3 := graph.nodes, scheduler.arrivals;
      cycleTime := now;
      if !scheduler.HasPendingEvent() && timeout != Some(0) {
        var wait := EffectiveTimeout(now, timeout);
        if io.Ready? && mode == Park && wait != Some(0) {
          cycleTime := later;
        }
      }
      ok := io.Ready?;
      if ok {
        AdmitAll(graph, scheduler, io.nodes, epoch);
        AdmittedThen(n0, a0, offered, epoch, n3, a3, io.nodes, graph.nodes, scheduler.arrivals);
      } else {
        assert offered + [] == offered;
      }
    }
  }
}
