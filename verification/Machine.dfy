/** The drain loop as a function of the state it starts in, and what holds after
    any number of its iterations. */
module Machines {
  import opened Types
  import opened Scheduling
  import opened Semantics
  import opened Graphs
  import opened Stepping
  import opened Timers
  import opened Lifecycle

  /** The executor's state while it drains its queue. */
  datatype Machine<!V> = Machine(
    net: Net<V>,
    cells: map<NodeIndex, NodeInner<V>>,
    arrivals: seq<Entry>,
    floor: nat,
    marked: seq<NodeIndex>,
    yielded: seq<NodeIndex>,
    timers: TimerState,
    spawns: seq<Deferred<V>>)

  function YieldsOf<V>(r: Ran<V>): seq<NodeIndex> { if r.Did? then r.out.yielded else [] }

  function TimersOf<V>(r: Ran<V>): seq<(NodeIndex, Instant)> { if r.Did? then r.out.timers else [] }

  function SpawnsOf<V>(r: Ran<V>): seq<Deferred<V>> { if r.Did? then r.out.spawns else [] }

  ghost predicate Runnable<V>(m: Machine<V>) {
    m.arrivals != [] && m.arrivals[First(m.arrivals)].node in m.net.nodes
  }

  ghost function Popped<V>(m: Machine<V>): Entry
    requires Runnable(m)
  {
    m.arrivals[First(m.arrivals)]
  }

  ghost function RanNow<V>(m: Machine<V>, epoch: nat, now: Instant): Ran<V>
    requires Runnable(m)
  {
    FireNow(m.net, m.cells, Popped(m).node, epoch, now)
  }

  /** One iteration: pop, run, propagate. */
  ghost function Next<V>(m: Machine<V>, epoch: nat, now: Instant): Machine<V> {
    if !Runnable(m) then m
    else
      var e, r := Popped(m), RanNow(m, epoch, now);
      var control := ControlOf(r);
      Machine(
        Net(NodesAfter(m.net, e.node, control, epoch), m.net.adj),
        CellsWith(m.cells, e.node, r, epoch),
        NextArrivals(m.net, m.arrivals, control, epoch),
        e.depth,
        m.marked + if control == Sweep then [e.node] else [],
        m.yielded + YieldsOf(r),
        RegisterAll(m.timers, TimersOf(r)),
        m.spawns + OwningAll(SpawnsOf(r), m.cells.Keys))
  }

  /** A drain under way: the states it has been through, first to last. */
  ghost predicate Draining<V>(h: seq<Machine<V>>, epoch: nat, now: Instant) {
    && |h| > 0 && Sane(h[0])
    && forall j :: 0 <= j < |h| - 1 ==> Follows(h, j, epoch, now)
  }

  ghost predicate Follows<V>(h: seq<Machine<V>>, j: nat, epoch: nat, now: Instant)
    requires j + 1 < |h|
  {
    Runnable(h[j]) && h[j + 1] == Next(h[j], epoch, now)
  }

  // ----- what every iteration keeps, whatever the queue held at the start

  ghost predicate Sane<V>(m: Machine<V>) {
    && Wellformed(m.net)
    && EntriesLive(m.net.nodes, m.arrivals)
    && (forall e :: e in m.arrivals ==> m.floor <= e.depth)
  }

  /** Shape, wiring and keys that a drain never changes. */
  ghost predicate SameShape<V>(a: Net<V>, b: Net<V>) {
    && a.adj == b.adj && a.nodes.Keys == b.nodes.Keys
    && forall n :: n in a.nodes ==> SameWiring(a.nodes[n], b.nodes[n])
  }

  lemma SaneNext<V>(m: Machine<V>, epoch: nat, now: Instant)
    requires Sane(m) && m.arrivals != []
    ensures Runnable(m) && Sane(Next(m, epoch, now)) && SameShape(m.net, Next(m, epoch, now).net)
  {
    var k := First(m.arrivals);
    assert m.arrivals[k] in m.arrivals;
    var e, r := Popped(m), RanNow(m, epoch, now);
    var m', list := Next(m, epoch, now), Children(m.net, e.node, ControlOf(r));
    ChildrenAreWoken(m.net, e.node, r);
    WithoutFirst(m.arrivals);
    FreshSpec(m.net.nodes, list, epoch);
    forall n | n in m.net.nodes
      ensures n in m'.net.nodes && SameWiring(m.net.nodes[n], m'.net.nodes[n])
    {
      NodeStep(m.net, e.node, ControlOf(r), epoch, n);
    }
    forall x | x in m'.arrivals
      ensures x.node in m'.net.nodes && x.depth == m'.net.nodes[x.node].depth && e.depth <= x.depth
    {
      if x in Without(m.arrivals, k) {
        assert x in m.arrivals;
      } else {
        assert x.node in list;
        WakingNeedsEdge(m.net, e.node, r, x.node);
      }
    }
    SameShapeWellformed(m.net, m'.net);
  }

  lemma SameShapeWellformed<V>(a: Net<V>, b: Net<V>)
    requires Wellformed(a) && SameShape(a, b)
    ensures Wellformed(b)
    ensures forall p, c :: HasEdge(a, p, c) <==> HasEdge(b, p, c)
  {
    forall p, c
      ensures HasEdge(a, p, c) <==> HasEdge(b, p, c)
    {
    }
    forall p, c | HasEdge(b, p, c)
      ensures c in b.nodes && b.nodes[p].depth < b.nodes[c].depth
    {
      assert HasEdge(a, p, c);
      assert SameWiring(a.nodes[p], b.nodes[p]) && SameWiring(a.nodes[c], b.nodes[c]);
    }
    forall c, p | c in b.nodes && p in b.nodes[c].inputs && p in b.nodes
      ensures HasEdge(b, p, c)
    {
      assert SameWiring(a.nodes[c], b.nodes[c]);
      assert HasEdge(a, p, c);
    }
  }

  lemma {:induction false} AllSane<V>(h: seq<Machine<V>>, k: nat, epoch: nat, now: Instant)
    requires Draining(h, epoch, now) && k < |h|
    ensures Sane(h[k]) && SameShape(h[0].net, h[k].net)
  {
    if k > 0 {
      AllSane(h, k - 1, epoch, now);
      assert Follows(h, k - 1, epoch, now);
      SaneNext(h[k - 1], epoch, now);
      SameShapeTransitive(h[0].net, h[k - 1].net, h[k].net);
    }
  }

  lemma SameShapeTransitive<V>(a: Net<V>, b: Net<V>, c: Net<V>)
    requires SameShape(a, b) && SameShape(b, c)
    ensures SameShape(a, c)
  {
  }

  // ----- a drain of a freshly polled queue solves the cycle's equations

  ghost function StartOf<V>(m: Machine<V>, epoch: nat, now: Instant): Start<V> {
    Start(m.net, m.cells, QueuedNodes(m.arrivals), epoch, now)
  }

  /** What ran in the first `k` iterations, by node. */
  ghost function RanIn<V>(h: seq<Machine<V>>, k: nat, epoch: nat, now: Instant): map<NodeIndex, Ran<V>>
    requires k < |h|
  {
    if k == 0 then map[]
    else if Runnable(h[k - 1]) then RanIn(h, k - 1, epoch, now)[Popped(h[k - 1]).node := RanNow(h[k - 1], epoch, now)]
    else RanIn(h, k - 1, epoch, now)
  }

  lemma RanInMore<V>(h: seq<Machine<V>>, k: nat, epoch: nat, now: Instant, n: NodeIndex)
    requires Draining(h, epoch, now) && 0 < k < |h|
    ensures Runnable(h[k - 1])
    ensures n in RanIn(h, k, epoch, now) <==> n == Popped(h[k - 1]).node || n in RanIn(h, k - 1, epoch, now)
    ensures n == Popped(h[k - 1]).node ==> RanIn(h, k, epoch, now)[n] == RanNow(h[k - 1], epoch, now)
    ensures n != Popped(h[k - 1]).node && n in RanIn(h, k - 1, epoch, now) ==> RanIn(h, k, epoch, now)[n] == RanIn(h, k - 1, epoch, now)[n]
  {
    assert Follows(h, k - 1, epoch, now);
  }

  /** Nothing was left over: the queue holds exactly the nodes scheduled in this epoch, once each. */
  ghost predicate FreshlyPolled<V>(m: Machine<V>, epoch: nat) {
    && DistinctNodes(m.arrivals)
    && forall n :: n in m.net.nodes ==> (m.net.nodes[n].schedEpoch == epoch <==> n in QueuedNodes(m.arrivals))
  }

  /** The state is in step with the equations, and everything that ran is no deeper than the floor. */
  ghost predicate InStep<V>(start: Start<V>, ran: map<NodeIndex, Ran<V>>, m: Machine<V>) {
    && Synced(start, ran, m.net.nodes, m.arrivals)
    && m.net.adj == start.net.adj
    && m.cells == CellsAfter(start, ran)
    && forall n :: n in ran ==> n in m.net.nodes && m.net.nodes[n].depth <= m.floor
  }

  lemma InStepStart<V>(m: Machine<V>, epoch: nat, now: Instant)
    requires Sane(m) && FreshlyPolled(m, epoch)
    ensures InStep(StartOf(m, epoch, now), map[], m)
  {
  }

  lemma PoppedIsDue<V>(start: Start<V>, ran: map<NodeIndex, Ran<V>>, m: Machine<V>)
    requires Sane(m) && InStep(start, ran, m) && m.arrivals != []
    ensures Runnable(m) && Popped(m).node !in ran && Popped(m).node in start.net.nodes
    ensures RanNow(m, start.epoch, start.now) == Fire(start, ran, Popped(m).node)
    ensures CellsWith(m.cells, Popped(m).node, RanNow(m, start.epoch, start.now), start.epoch)
         == CellsAfter(start, ran[Popped(m).node := RanNow(m, start.epoch, start.now)])
    ensures forall p :: p in ran ==> p in m.net.nodes && m.net.nodes[p].depth <= Popped(m).depth
    ensures forall p :: p in ran ==> !HasEdge(start.net, Popped(m).node, p)
  {
    var k := First(m.arrivals);
    assert m.arrivals[k] in m.arrivals;
    NoChildRan(start, ran, m.net.nodes, m.arrivals);
    SyncedFire(start, ran, m.net.nodes, m.arrivals, m.arrivals[k].node);
    assert m.net == Net(m.net.nodes, start.net.adj);
  }

  lemma FloorNext<V>(m: Machine<V>, epoch: nat, now: Instant, p: NodeIndex)
    requires Sane(m) && m.arrivals != [] && p in m.net.nodes
    requires Runnable(m) ==> m.net.nodes[p].depth <= Popped(m).depth
    ensures p in Next(m, epoch, now).net.nodes && Next(m, epoch, now).net.nodes[p].depth <= Next(m, epoch, now).floor
  {
    SaneNext(m, epoch, now);
    assert SameWiring(m.net.nodes[p], Next(m, epoch, now).net.nodes[p]);
  }

  lemma SyncedNext<V>(start: Start<V>, ran: map<NodeIndex, Ran<V>>, m: Machine<V>)
    requires Sane(m) && InStep(start, ran, m) && m.arrivals != []
    ensures Runnable(m)
    ensures var m' := Next(m, start.epoch, start.now);
      Synced(start, ran[Popped(m).node := RanNow(m, start.epoch, start.now)], m'.net.nodes, m'.arrivals)
  {
    PoppedIsDue(start, ran, m);
    assert m.net == Net(m.net.nodes, start.net.adj);
    SyncedStep(start, ran, m.net.nodes, m.arrivals);
  }

  lemma FloorsNext<V>(start: Start<V>, ran: map<NodeIndex, Ran<V>>, m: Machine<V>)
    requires Sane(m) && InStep(start, ran, m) && m.arrivals != []
    ensures Runnable(m)
    ensures var m' := Next(m, start.epoch, start.now);
      forall p :: p in ran || p == Popped(m).node ==> p in m'.net.nodes && m'.net.nodes[p].depth <= m'.floor
  {
    PoppedIsDue(start, ran, m);
    assert Popped(m) in m.arrivals;
    forall p {:trigger p in ran} | p in ran || p == Popped(m).node {
      FloorNext(m, start.epoch, start.now, p);
    }
  }

  lemma InStepNext<V>(start: Start<V>, ran: map<NodeIndex, Ran<V>>, m: Machine<V>)
    requires Sane(m) && InStep(start, ran, m) && m.arrivals != []
    ensures Runnable(m)
    ensures InStep(start, ran[Popped(m).node := RanNow(m, start.epoch, start.now)], Next(m, start.epoch, start.now))
  {
    PoppedIsDue(start, ran, m);
    SyncedNext(start, ran, m);
    FloorsNext(start, ran, m);
  }

  lemma RanInNext<V>(h: seq<Machine<V>>, k: nat, epoch: nat, now: Instant)
    requires Draining(h, epoch, now) && 0 < k < |h|
    ensures Sane(h[k - 1]) && Follows(h, k - 1, epoch, now)
    ensures RanIn(h, k, epoch, now) == RanIn(h, k - 1, epoch, now)[Popped(h[k - 1]).node := RanNow(h[k - 1], epoch, now)]
  {
    AllSane(h, k - 1, epoch, now);
    assert Follows(h, k - 1, epoch, now);
  }

  lemma InStepTo<V>(start: Start<V>, ran: map<NodeIndex, Ran<V>>, m: Machine<V>, ran': map<NodeIndex, Ran<V>>, m': Machine<V>)
    requires Sane(m) && InStep(start, ran, m) && Runnable(m) && m' == Next(m, start.epoch, start.now)
    requires ran' == ran[Popped(m).node := RanNow(m, start.epoch, start.now)]
    ensures InStep(start, ran', m')
  {
    InStepNext(start, ran, m);
  }

  lemma InStepMore<V>(h: seq<Machine<V>>, k: nat, start: Start<V>, epoch: nat, now: Instant, ran: map<NodeIndex, Ran<V>>, ran': map<NodeIndex, Ran<V>>)
    requires 0 < k < |h| && start.epoch == epoch && start.now == now && Follows(h, k - 1, epoch, now) && Sane(h[k - 1])
    requires InStep(start, ran, h[k - 1]) && ran' == ran[Popped(h[k - 1]).node := RanNow(h[k - 1], epoch, now)]
    ensures InStep(start, ran', h[k])
  {
    InStepTo(start, ran, h[k - 1], ran', h[k]);
  }

  lemma {:induction false} InStepFrom<V>(h: seq<Machine<V>>, k: nat, start: Start<V>, epoch: nat, now: Instant)
    requires Draining(h, epoch, now) && k < |h| && InStep(start, map[], h[0]) && start.epoch == epoch && start.now == now
    ensures InStep(start, RanIn(h, k, epoch, now), h[k])
  {
    if k == 0 {
      assert RanIn(h, 0, epoch, now) == map[];
    } else {
      InStepFrom(h, k - 1, start, epoch, now);
      RanInNext(h, k, epoch, now);
      InStepMore(h, k, start, epoch, now, RanIn(h, k - 1, epoch, now), RanIn(h, k, epoch, now));
    }
  }

  lemma InStepAt<V>(h: seq<Machine<V>>, k: nat, epoch: nat, now: Instant)
    requires Draining(h, epoch, now) && FreshlyPolled(h[0], epoch) && k < |h|
    ensures InStep(StartOf(h[0], epoch, now), RanIn(h, k, epoch, now), h[k])
  {
    InStepStart(h[0], epoch, now);
    InStepFrom(h, k, StartOf(h[0], epoch, now), epoch, now);
  }

  /** A drained queue: the cycle's equations are solved. */
  lemma DrainSolves<V>(h: seq<Machine<V>>, epoch: nat, now: Instant)
    requires Draining(h, epoch, now) && FreshlyPolled(h[0], epoch)
    requires h[|h| - 1].arrivals == []
    ensures Solves(StartOf(h[0], epoch, now), RanIn(h, |h| - 1, epoch, now))
    ensures h[|h| - 1].cells == CellsAfter(StartOf(h[0], epoch, now), RanIn(h, |h| - 1, epoch, now))
  {
    InStepAt(h, |h| - 1, epoch, now);
    SyncedDone(StartOf(h[0], epoch, now), RanIn(h, |h| - 1, epoch, now), h[|h| - 1].net.nodes);
  }

  /** The drain loop is a single pass in any topological order: neither the order of seeds, nor that
      within a depth, nor that of edges matters. */
  lemma DrainIsOnePass<V>(h: seq<Machine<V>>, epoch: nat, now: Instant, order: seq<NodeIndex>)
    requires Draining(h, epoch, now) && FreshlyPolled(h[0], epoch)
    requires h[|h| - 1].arrivals == []
    requires TopologicalOrder(h[0].net, order)
    ensures RanIn(h, |h| - 1, epoch, now) == OnePass(StartOf(h[0], epoch, now), order)
    ensures h[|h| - 1].cells == CellsAfter(StartOf(h[0], epoch, now), OnePass(StartOf(h[0], epoch, now), order))
  {
    DrainSolves(h, epoch, now);
    SolutionIsOnePass(StartOf(h[0], epoch, now), RanIn(h, |h| - 1, epoch, now), order);
  }

  /** Each node runs at most once, and after every parent of it that runs. */
  lemma RunsOnceAfterParents<V>(h: seq<Machine<V>>, epoch: nat, now: Instant, i: nat, j: nat)
    requires Draining(h, epoch, now) && FreshlyPolled(h[0], epoch)
    requires i < j < |h| - 1
    ensures Follows(h, i, epoch, now) && Follows(h, j, epoch, now)
    ensures Popped(h[i]).node != Popped(h[j]).node
    ensures !HasEdge(h[0].net, Popped(h[j]).node, Popped(h[i]).node)
  {
    assert Follows(h, i, epoch, now) && Follows(h, j, epoch, now);
    AllSane(h, j, epoch, now);
    InStepAt(h, j, epoch, now);
    PoppedIsDue(StartOf(h[0], epoch, now), RanIn(h, j, epoch, now), h[j]);
    RanInHolds(h, j, epoch, now, i);
  }

  lemma {:induction false} RanInHolds<V>(h: seq<Machine<V>>, k: nat, epoch: nat, now: Instant, i: nat)
    requires Draining(h, epoch, now) && i < k < |h|
    ensures Follows(h, i, epoch, now)
    ensures Popped(h[i]).node in RanIn(h, k, epoch, now)
  {
    assert Follows(h, k - 1, epoch, now);
    if i < k - 1 { RanInHolds(h, k - 1, epoch, now, i); }
  }

  // ----- termination

  ghost function Remaining<V>(m: Machine<V>, epoch: nat): nat {
    |Unstamped(m.net.nodes, epoch)| + |m.arrivals|
  }

  lemma NextUsesUp<V>(m: Machine<V>, epoch: nat, now: Instant)
    requires Sane(m) && m.arrivals != []
    ensures Remaining(Next(m, epoch, now), epoch) + 1 == Remaining(m, epoch)
  {
    SaneNext(m, epoch, now);
    StepUsesUp(m.net, Popped(m).node, ControlOf(RanNow(m, epoch, now)), epoch);
  }

  /** Pops so far, nodes still unscheduled and entries still queued always add up to the same number. */
  lemma {:induction false} PopsAreBounded<V>(h: seq<Machine<V>>, k: nat, epoch: nat, now: Instant)
    requires Draining(h, epoch, now) && k < |h|
    ensures k + Remaining(h[k], epoch) == Remaining(h[0], epoch)
  {
    if k > 0 {
      PopsAreBounded(h, k - 1, epoch, now);
      UsesUpAt(h, k - 1, epoch, now);
    }
  }

  lemma UsesUpAt<V>(h: seq<Machine<V>>, j: nat, epoch: nat, now: Instant)
    requires Draining(h, epoch, now) && j + 1 < |h|
    ensures Remaining(h[j + 1], epoch) + 1 == Remaining(h[j], epoch)
  {
    AllSane(h, j, epoch, now);
    assert Follows(h, j, epoch, now);
    NextUsesUp(h[j], epoch, now);
  }

  /** From a fresh poll a drain pops at most as many nodes as are live. */
  lemma FreshPopsAtMostLive<V>(h: seq<Machine<V>>, epoch: nat, now: Instant)
    requires Draining(h, epoch, now) && FreshlyPolled(h[0], epoch)
    ensures |h| - 1 <= |h[0].net.nodes|
  {
    PopsAreBounded(h, |h| - 1, epoch, now);
    var m := h[0];
    var u, q := Unstamped(m.net.nodes, epoch), QueuedNodes(m.arrivals);
    DistinctCount(m.arrivals);
    forall n | n in q ensures n in m.net.nodes {
      var e :| e in m.arrivals && e.node == n;
    }
    assert u + q == m.net.nodes.Keys && u !! q;
    assert |u + q| == |u| + |q|;
    assert |m.net.nodes.Keys| == |m.net.nodes|;
  }

  lemma {:induction false} DistinctCount(a: seq<Entry>)
    requires DistinctNodes(a)
    ensures |QueuedNodes(a)| == |a|
  {
    if a != [] {
      var pre, last := a[..|a| - 1], a[|a| - 1];
      DistinctCount(pre);
      assert a == pre + [last];
      assert last.node !in QueuedNodes(pre);
      assert QueuedNodes(a) == QueuedNodes(pre) + {last.node};
    }
  }
}
