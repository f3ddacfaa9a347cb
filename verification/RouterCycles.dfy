/** Whole drains of graphs with a router, whose closure schedules its outputs itself. */
module RouterCycles {
  import opened Types
  import opened Scheduling
  import opened Semantics
  import opened Graphs
  import opened Stepping
  import opened Timers
  import opened Machines
  import opened Invariants
  import opened Runs
  import opened Cycles
  import opened Following
  import opened Routing

  /** The next node has run by scheduling `woken`, other nodes at its own depth. */
  ghost predicate Schedules<V>(m: Machine<V>, woken: seq<Entry>, m': Machine<V>)
    requires Runnable(m)
  {
    && m' == Scheduled(m, woken).(cells := m'.cells) && m'.cells.Keys == m.cells.Keys
    && forall e :: e in woken ==> e.node in m.net.nodes && e.node != Popped(m).node && e.depth == m.net.nodes[e.node].depth == Popped(m).depth
  }

  ghost predicate SchedulesSome<V>(m: Machine<V>, m': Machine<V>)
    requires Runnable(m)
  {
    exists woken :: Schedules(m, woken, m')
  }

  /** One iteration: the router `r` schedules outputs, unless it is swept; every other node runs as usual. */
  ghost predicate RouterNext<V>(m: Machine<V>, epoch: nat, now: Instant, r: NodeIndex, m': Machine<V>) {
    && Runnable(m)
    && if Popped(m).node == r && !m.net.nodes[r].poisoned && r in m.cells then SchedulesSome(m, m') else m' == Next(m, epoch, now)
  }

  ghost predicate RouterDraining<V>(h: seq<Machine<V>>, epoch: nat, now: Instant, r: NodeIndex) {
    |h| > 0 && Sane(h[0]) && forall j :: 0 <= j < |h| - 1 ==> RouterFollows(h, j, epoch, now, r)
  }

  ghost predicate RouterFollows<V>(h: seq<Machine<V>>, j: nat, epoch: nat, now: Instant, r: NodeIndex)
    requires j + 1 < |h|
  {
    RouterNext(h[j], epoch, now, r, h[j + 1])
  }

  /** What the executor does when it pops a router is such an iteration. */
  lemma PoppedRouterSchedules<K(!new), T(!new)>(
    route: T -> K, s: Routes<K, T>, items: seq<T>, m: Machine<seq<T>>, node: NodeIndex, source: NodeIndex, depth: nat, epoch: nat)
    requires Paired(s) && Level(s, depth) && PlacedIn(m.net, node, source, s.outputs.Keys, depth) && node !in s.outputs
    requires Sane(m) && Runnable(m) && Popped(m).node == node && source in m.cells
    ensures SchedulesSome(m, Scheduled(m, Routing.Woken(route, s.cache, items, epoch)))
    ensures SchedulesSome(m, Emptied(Scheduled(m, Routing.Woken(route, s.cache, items, epoch)), source))
  {
    var woken := Routing.Woken(route, s.cache, items, epoch);
    RouterAtDepth(m, node, source, s.outputs.Keys, depth);
    Routing.WokenAt(route, s, items, epoch, m.net, depth);
    WokenOnce(route, s, items, epoch);
    assert Schedules(m, woken, Scheduled(m, woken));
    assert Schedules(m, woken, Emptied(Scheduled(m, woken), source));
  }

  // ----- a router that no poll offers runs once

  lemma SchedulesSane<V>(m: Machine<V>, woken: seq<Entry>, m': Machine<V>)
    requires Sane(m) && Runnable(m) && Schedules(m, woken, m')
    ensures Sane(m') && m'.net == m.net && m'.floor == Popped(m).depth
  {
    WithoutFirst(m.arrivals);
    forall e | e in m'.arrivals
      ensures e.node in m'.net.nodes && e.depth == m'.net.nodes[e.node].depth && m'.floor <= e.depth
    {
    }
  }

  lemma RouterNextSane<V>(m: Machine<V>, epoch: nat, now: Instant, r: NodeIndex, m': Machine<V>)
    requires Sane(m) && RouterNext(m, epoch, now, r, m')
    ensures Sane(m') && SameShape(m.net, m'.net)
    ensures r in m.net.nodes && m.net.nodes[r].poisoned ==> r in m'.net.nodes && m'.net.nodes[r].poisoned
  {
    if m' == Next(m, epoch, now) {
      SaneNext(m, epoch, now);
      if r in m.net.nodes { NodeStep(m.net, Popped(m).node, ControlOf(RanNow(m, epoch, now)), epoch, r); }
    } else {
      var woken :| Schedules(m, woken, m');
      SchedulesSane(m, woken, m');
    }
  }

  lemma {:induction false} RouterSane<V>(h: seq<Machine<V>>, k: nat, epoch: nat, now: Instant, r: NodeIndex)
    requires RouterDraining(h, epoch, now, r) && k < |h|
    ensures Sane(h[k]) && SameShape(h[0].net, h[k].net)
  {
    if k > 0 {
      RouterSane(h, k - 1, epoch, now, r);
      assert RouterFollows(h, k - 1, epoch, now, r);
      RouterNextSane(h[k - 1], epoch, now, r, h[k]);
      SameShapeTransitive(h[0].net, h[k - 1].net, h[k].net);
    }
  }

  /** The router runs: it was queued once, and is not queued any more. */
  lemma RouterRuns<V>(m: Machine<V>, epoch: nat, r: NodeIndex, called: bool, visits: nat, woken: seq<Entry>, m': Machine<V>)
    requires Sane(m) && Runnable(m) && Popped(m).node == r && r in m.net.nodes && Following.Woken(m, epoch, r, called, visits)
    requires Schedules(m, woken, m')
    ensures visits == 0 && r in m'.net.nodes && Following.Woken(m', epoch, r, called, 1)
  {
    var e, k := Entry(m.net.nodes[r].depth, r), First(m.arrivals);
    assert m.arrivals[k] in m.arrivals && Popped(m) == e;
    WithoutMultiset(m.arrivals, k);
    assert multiset(m'.arrivals) == multiset(Without(m.arrivals, k)) + multiset(woken);
    assert e in m'.arrivals <==> multiset(m'.arrivals)[e] > 0;
    assert e in woken <==> multiset(woken)[e] > 0;
  }

  lemma RouterWokenNext<V>(m: Machine<V>, epoch: nat, now: Instant, p: NodeIndex, r: NodeIndex, called: bool, visits: nat, m': Machine<V>)
    returns (called': bool)
    requires Sane(m) && RouterNext(m, epoch, now, r, m') && OnlyParent(m.net, p, r) && Following.Woken(m, epoch, r, called, visits)
    requires r in m'.net.nodes && !m'.net.nodes[r].poisoned
    ensures Following.Woken(m', epoch, r, called', visits + if Popped(m).node == r then 1 else 0)
    ensures Popped(m).node == r ==> visits == 0
  {
    called' := called;
    if m' == Next(m, epoch, now) {
      WokenNext(m, epoch, now, p, r, called, visits);
      called' := called || Calls(m, epoch, now, p);
    } else {
      var woken :| Schedules(m, woken, m');
      RouterRuns(m, epoch, r, called, visits, woken, m');
    }
  }

  /** A drain in which the router is woken by its source alone, and is not swept. */
  ghost predicate UnofferedDrain<V>(h: seq<Machine<V>>, epoch: nat, now: Instant, p: NodeIndex, r: NodeIndex) {
    && RouterDraining(h, epoch, now, r) && OnlyParent(h[0].net, p, r) && Unseeded(h[0], epoch, r)
    && r in h[|h| - 1].net.nodes && !h[|h| - 1].net.nodes[r].poisoned
  }

  lemma {:induction false} NotPoisonedBefore<V>(h: seq<Machine<V>>, k: nat, epoch: nat, now: Instant, p: NodeIndex, r: NodeIndex)
    requires UnofferedDrain(h, epoch, now, p, r) && k < |h|
    ensures r in h[k].net.nodes && !h[k].net.nodes[r].poisoned
    decreases |h| - k
  {
    RouterSane(h, k, epoch, now, r);
    if k < |h| - 1 {
      NotPoisonedBefore(h, k + 1, epoch, now, p, r);
      assert RouterFollows(h, k, epoch, now, r);
      RouterNextSane(h[k], epoch, now, r, h[k + 1]);
    }
  }

  lemma {:induction false} RouterWokenAt<V>(h: seq<Machine<V>>, k: nat, epoch: nat, now: Instant, p: NodeIndex, r: NodeIndex) returns (called: bool)
    requires UnofferedDrain(h, epoch, now, p, r) && k < |h|
    ensures r in h[k].net.nodes && Following.Woken(h[k], epoch, r, called, Visits(h, k, r)) && Visits(h, k, r) <= 1
  {
    NotPoisonedBefore(h, k, epoch, now, p, r);
    if k == 0 {
      called := false;
      UnseededIsWoken(h[0], epoch, r);
    } else {
      var before := RouterWokenAt(h, k - 1, epoch, now, p, r);
      called := RouterWokenFollows(h, k, epoch, now, p, r, before, Visits(h, k - 1, r));
    }
  }

  lemma RouterWokenFollows<V>(h: seq<Machine<V>>, k: nat, epoch: nat, now: Instant, p: NodeIndex, r: NodeIndex, called: bool, visits: nat)
    returns (called': bool)
    requires UnofferedDrain(h, epoch, now, p, r) && 0 < k < |h|
    requires r in h[k - 1].net.nodes && Following.Woken(h[k - 1], epoch, r, called, visits)
    ensures Runnable(h[k - 1]) && (Popped(h[k - 1]).node == r ==> visits == 0)
    ensures r in h[k].net.nodes && Following.Woken(h[k], epoch, r, called', visits + if Popped(h[k - 1]).node == r then 1 else 0)
  {
    NotPoisonedBefore(h, k, epoch, now, p, r);
    RouterSane(h, k - 1, epoch, now, r);
    SameShapeOnlyParent(h[0].net, h[k - 1].net, p, r);
    assert RouterFollows(h, k - 1, epoch, now, r);
    called' := RouterWokenNext(h[k - 1], epoch, now, p, r, called, visits, h[k]);
  }

  /** It runs in one iteration at most. */
  lemma RouterRunsOnce<V>(h: seq<Machine<V>>, epoch: nat, now: Instant, p: NodeIndex, r: NodeIndex, i: nat, j: nat)
    requires UnofferedDrain(h, epoch, now, p, r) && RunsAt(h, i, r) && RunsAt(h, j, r)
    ensures i == j
  {
    if i < j {
      RunsNotAgain(h, epoch, now, p, r, i, j);
    } else if j < i {
      RunsNotAgain(h, epoch, now, p, r, j, i);
    }
  }

  lemma RunsNotAgain<V>(h: seq<Machine<V>>, epoch: nat, now: Instant, p: NodeIndex, r: NodeIndex, i: nat, j: nat)
    requires UnofferedDrain(h, epoch, now, p, r) && RunsAt(h, i, r) && i < j < |h| - 1
    ensures !RunsAt(h, j, r)
  {
    VisitsOne(h, j, r, i);
    var called := RouterWokenAt(h, j + 1, epoch, now, p, r);
  }

  // ----- whole runs

  /** One cycle's drain. */
  datatype Stretch<!V> = Stretch(history: seq<Machine<V>>, epoch: nat, now: Instant)

  /** Where a batch was routed: in which cycle, and in which iteration of its drain. */
  datatype Origin = Origin(cycle: nat, iteration: nat)

  ghost predicate Before(a: Origin, b: Origin) {
    a.cycle < b.cycle || (a.cycle == b.cycle && a.iteration < b.iteration)
  }

  /** Cycles in which the router `r` stays and no poll offers it. */
  ghost predicate UnofferedRun<V>(cs: seq<Stretch<V>>, p: NodeIndex, r: NodeIndex) {
    && (forall i :: 0 <= i < |cs| ==> cs[i].epoch > 0 && UnofferedDrain(cs[i].history, cs[i].epoch, cs[i].now, p, r))
    && (forall i, j :: 0 <= i < j < |cs| ==> cs[i].epoch < cs[j].epoch)
  }

  /** Each batch is routed by an iteration of a cycle that runs the router, in that cycle's epoch, and
      batches come in the order of these iterations. */
  ghost predicate Played<V, K, T>(cs: seq<Stretch<V>>, r: NodeIndex, ops: seq<RouteOp<K, T>>, origins: seq<Origin>) {
    && |origins| == |ops|
    && (forall i :: 0 <= i < |ops| && ops[i].Route? ==> PlayedAt(cs, r, ops[i].epoch, origins[i]))
    && (forall i, j :: 0 <= i < j < |ops| && ops[i].Route? && ops[j].Route? ==> Before(origins[i], origins[j]))
  }

  ghost predicate PlayedAt<V>(cs: seq<Stretch<V>>, r: NodeIndex, epoch: nat, origin: Origin) {
    origin.cycle < |cs| && cs[origin.cycle].epoch == epoch && RunsAt(cs[origin.cycle].history, origin.iteration, r)
  }

  /** A router that no poll offers routes at most one batch in each epoch. */
  lemma UnofferedRoutesOncePerEpoch<V, K, T>(cs: seq<Stretch<V>>, p: NodeIndex, r: NodeIndex, ops: seq<RouteOp<K, T>>, origins: seq<Origin>)
    requires UnofferedRun(cs, p, r) && Played(cs, r, ops, origins)
    ensures Counted(ops) && OncePerEpoch(ops)
  {
    forall i | 0 <= i < |ops| && ops[i].Route?
      ensures ops[i].epoch > 0
    {
      assert PlayedAt(cs, r, ops[i].epoch, origins[i]);
    }
    forall i, j | 0 <= i < j < |ops| && ops[i].Route? && ops[j].Route?
      ensures ops[i].epoch < ops[j].epoch
    {
      assert PlayedAt(cs, r, ops[i].epoch, origins[i]) && PlayedAt(cs, r, ops[j].epoch, origins[j]);
      if origins[i].cycle == origins[j].cycle {
        var c := cs[origins[i].cycle];
        RouterRunsOnce(c.history, c.epoch, c.now, p, r, origins[i].iteration, origins[j].iteration);
      }
    }
  }

  /** So its live outputs hold exactly the items of the most recent batch with their key. */
  lemma UnofferedHoldsMostRecent<V, K(!new), T(!new)>(
    cs: seq<Stretch<V>>, p: NodeIndex, r: NodeIndex, route: T -> K, ss: seq<Routes<K, T>>, ops: seq<RouteOp<K, T>>, origins: seq<Origin>, k: nat, key: K)
    requires UnofferedRun(cs, p, r) && Played(cs, r, ops, origins) && RouteRun(route, ss, ops) && k <= |ops|
    ensures Paired(ss[k]) && (key in ss[k].cache <==> LiveAfter(ops, k, key))
    ensures key in ss[k].cache ==> ss[k].outputs[ss[k].cache[key].node] == MostRecent(route, ops, k, key)
  {
    UnofferedRoutesOncePerEpoch(cs, p, r, ops, origins);
    OutputsHoldMostRecent(route, ss, ops, k, key);
  }

  // ----- a router that a failed poll and the next one offer

  /** Node 0 is the source, node 1 the router, node 2 an output; the router was last scheduled in epoch `e`. */
  function Fan(e: nat): Net<seq<int>> {
    Net(map[0 := NodeContext(RouterFn<int>(), {}, {}, 0, 0, false), 1 := NodeContext(RouterFn<int>(), {0}, {0}, 1, e, false),
            2 := NodeContext(OutputFn<int>(), {}, {}, 1, 0, false)],
        map[0 := [Edge(2, Observe), Edge(1, Trigger)], 1 := [], 2 := []])
  }

  function FanCells(x: int): map<NodeIndex, NodeInner<seq<int>>> {
    map[0 := NodeInner([x], 0, 1, {1}), 1 := NodeInner([], 0, 1, {}), 2 := NodeInner([], 0, 1, {})]
  }

  function FanMachine(e: nat, x: int, arrivals: seq<Entry>, floor: nat): Machine<seq<int>> {
    Machine(Fan(e), FanCells(x), arrivals, floor, [], [], TimerState(map[], 0), [])
  }

  lemma FanIsWellformed(e: nat)
    ensures Wellformed(Fan(e))
  {
    var net := Fan(e);
    forall p, c | HasEdge(net, p, c)
      ensures p == 0 && c in {1, 2}
    {
    }
    assert Edge(1, Trigger) in net.adj[0];
  }

  lemma FanIsHeld(x: int)
    ensures Held(FanMachine(0, x, [], 0))
  {
  }

  lemma FanIsNumbered(x: int)
    ensures Numbered(FanMachine(0, x, [], 0), 3, 2, 0)
  {
  }

  lemma FanIsSettled(x: int)
    ensures Settled(FanMachine(0, x, [], 0))
  {
  }

  lemma FanStands(x: int) returns (s: Snapshot<seq<int>>)
    ensures s == Snapshot(FanMachine(0, x, [], 0), 3, 2, 0) && Standing(s)
  {
    s := Snapshot(FanMachine(0, x, [], 0), 3, 2, 0);
    FanIsWellformed(0);
    FanIsHeld(x);
    FanIsNumbered(x);
    FanIsSettled(x);
    assert Sane(s.machine);
  }

  lemma FanPolls(s: Snapshot<seq<int>>, x: int, arrivals: seq<Entry>, m: Machine<seq<int>>)
    requires s.machine == FanMachine(s.epoch, x, arrivals, 0) && m == FanMachine(s.epoch + 1, x, arrivals + [Entry(1, 1)], 0)
    ensures PollLeads(s, [1], m)
  {
    var e := s.epoch;
    NoTimerFires([1]);
    assert [1][..0] == [];
    assert Fresh(Fan(e).nodes, [1], e + 1) == [Entry(1, 1)];
    assert Stamp(Fan(e).nodes, [1], e + 1) == Fan(e + 1).nodes;
  }

  /** A poll that offers the router fails, and the next one offers it again. */
  lemma FanIsPolled(x: int) returns (s: Snapshot<seq<int>>, failed: Snapshot<seq<int>>, m: Machine<seq<int>>)
    ensures Standing(s) && s.epoch == 0 && PollLeads(s, [1], failed.machine)
    ensures failed.epoch == 1 && PollLeads(failed, [1], m) && m == FanMachine(2, x, [Entry(1, 1), Entry(1, 1)], 0)
  {
    s := FanStands(x);
    failed := Snapshot(FanMachine(1, x, [Entry(1, 1)], 0), 3, 2, 1);
    assert [] + [Entry(1, 1)] == [Entry(1, 1)] && [Entry(1, 1)] + [Entry(1, 1)] == [Entry(1, 1), Entry(1, 1)];
    FanPolls(s, x, [], failed.machine);
    m := FanMachine(2, x, [Entry(1, 1), Entry(1, 1)], 0);
    FanPolls(failed, x, [Entry(1, 1)], m);
  }

  /** The router runs, and `woken` are queued behind what was. */
  lemma FanSchedules(x: int, last: Entry, floor: nat, woken: seq<Entry>, m: Machine<seq<int>>)
    requires last in {Entry(1, 1), Entry(1, 2)} && m == FanMachine(2, x, [Entry(1, 1), last], floor)
    ensures Runnable(m) && Popped(m).node == 1 && Scheduled(m, woken) == FanMachine(2, x, [last] + woken, 1)
  {
    assert First(m.arrivals) == 0 && Without(m.arrivals, 0) == [last];
  }

  lemma FanDrains(x: int, m0: Machine<seq<int>>) returns (m1: Machine<seq<int>>, m2: Machine<seq<int>>)
    requires m0 == FanMachine(2, x, [Entry(1, 1), Entry(1, 1)], 0)
    ensures Runnable(m0) && Popped(m0).node == 1 && m1 == Scheduled(m0, [Entry(1, 2)])
    ensures Runnable(m1) && Popped(m1).node == 1 && m2 == Scheduled(m1, [])
    ensures m2.arrivals == [Entry(1, 2)]
  {
    FanSchedules(x, Entry(1, 1), 0, [Entry(1, 2)], m0);
    m1 := Scheduled(m0, [Entry(1, 2)]);
    assert [Entry(1, 1)] + [Entry(1, 2)] == [Entry(1, 1), Entry(1, 2)];
    FanSchedules(x, Entry(1, 2), 1, [], m1);
    m2 := Scheduled(m1, []);
  }

  lemma FanIsPlaced(x: int, m: Machine<seq<int>>)
    requires m == FanMachine(2, x, [Entry(1, 1), Entry(1, 1)], 0)
    ensures PlacedIn(m.net, 1, 0, {2}, 1) && 0 in m.cells && m.cells[0].data == [x]
  {
  }

  lemma FanRoutes<K(!new)>(route: int -> K, x: int) returns (s0: Routes<K, int>, s1: Routes<K, int>, s2: Routes<K, int>)
    ensures s0 == Created(Routes(map[], map[]), route(x), 2, 1) && s0.outputs.Keys == {2}
    ensures RouteStep(route, s0, Route([x], 2), s1) && RouteStep(route, s1, Route([x], 2), s2)
    ensures Routing.Woken(route, s0.cache, [x], 2) == [Entry(1, 2)] && Routing.Woken(route, s1.cache, [x], 2) == []
    ensures s2.outputs == map[2 := [x, x]]
  {
    s0, s1, s2 := Doubling(route(x), [], 0), Doubling(route(x), [x], 2), Doubling(route(x), [x, x], 2);
    OneItem(route, x, [], 0);
    OneItem(route, x, [x], 2);
    assert [] + [x] == [x] && [x] + [x] == [x, x];
  }

  /** The drain after these two polls runs the router twice in its epoch, with the same batch: its
      output is scheduled once and holds the batch twice. */
  lemma RoutesTwice<K(!new)>(route: int -> K, x: int)
    returns (s: Snapshot<seq<int>>, failed: Snapshot<seq<int>>, m0: Machine<seq<int>>, m1: Machine<seq<int>>, m2: Machine<seq<int>>,
             s0: Routes<K, int>, s1: Routes<K, int>, s2: Routes<K, int>)
    ensures Standing(s) && s.epoch == 0 && PollLeads(s, [1], failed.machine) && failed.epoch == 1 && PollLeads(failed, [1], m0)
    ensures PlacedIn(m0.net, 1, 0, s0.outputs.Keys, 1) && 0 in m0.cells && m0.cells[0].data == [x]
    ensures s0 == Created(Routes(map[], map[]), route(x), 2, 1)
    ensures RouteStep(route, s0, Route([x], 2), s1) && RouteStep(route, s1, Route([x], 2), s2)
    ensures Runnable(m0) && Popped(m0).node == 1 && m1 == Scheduled(m0, Routing.Woken(route, s0.cache, [x], 2))
    ensures Runnable(m1) && Popped(m1).node == 1 && m2 == Scheduled(m1, Routing.Woken(route, s1.cache, [x], 2))
    ensures m2.arrivals == [Entry(1, 2)] && s2.outputs == map[2 := [x, x]]
  {
    s, failed, m0 := FanIsPolled(x);
    FanIsPlaced(x, m0);
    s0, s1, s2 := FanRoutes(route, x);
    m1, m2 := FanDrains(x, m0);
  }
}
