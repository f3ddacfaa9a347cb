/** Nodes that only one parent wakes: over any drain and any run such a node runs exactly once in each
    cycle in which its parent broadcasts. */
module Following {
  import opened Types
  import opened Scheduling
  import opened Semantics
  import opened Graphs
  import opened Stepping
  import opened Machines
  import opened Poisoning
  import opened Invariants
  import opened Execution
  import opened Runs
  import opened Cycles
  import opened Retrying

  // ----- one drain

  /** `p` triggers `a`, and no other node has an edge to it. */
  ghost predicate OnlyParent<V>(net: Net<V>, p: NodeIndex, a: NodeIndex) {
    a in net.nodes && p in net.nodes && TriggerEdge(net, p, a) && forall q :: HasEdge(net, q, a) ==> q == p
  }

  /** What `p` holds after each of its broadcasts in the first `k` iterations. */
  ghost function Broadcasts<V>(h: seq<Machine<V>>, k: nat, epoch: nat, now: Instant, p: NodeIndex): seq<V>
    requires k < |h|
  {
    if k == 0 then []
    else
      Broadcasts(h, k - 1, epoch, now, p) +
      if Runnable(h[k - 1]) && Calls(h[k - 1], epoch, now, p) && p in h[k].cells then [h[k].cells[p].data] else []
  }

  /** A node is waiting for its parent's broadcast, or queued once because of it, or has run since. */
  ghost predicate Woken<V>(m: Machine<V>, epoch: nat, a: NodeIndex, called: bool, visits: nat)
    requires a in m.net.nodes
  {
    var ctx := m.net.nodes[a];
    var e := Entry(ctx.depth, a);
    if ctx.schedEpoch != epoch then !called && e !in m.arrivals && visits == 0
    else if e in m.arrivals then called && multiset(m.arrivals)[e] == 1 && visits == 0
    else called && visits == 1 && ctx.depth <= m.floor
  }

  /** Admissions hold a node once if it is offered and not yet scheduled in the epoch. */
  lemma AdmittedCount<V>(nodes: map<NodeIndex, NodeContext<V>>, list: seq<NodeIndex>, epoch: nat, a: NodeIndex)
    requires a in nodes
    ensures multiset(Fresh(nodes, list, epoch))[Entry(nodes[a].depth, a)] == if a in list && nodes[a].schedEpoch != epoch then 1 else 0
  {
    var f, e := Fresh(nodes, list, epoch), Entry(nodes[a].depth, a);
    FreshSpec(nodes, list, epoch);
    DistinctOnce(f, e);
    assert e in f <==> multiset(f)[e] > 0;
  }

  lemma QueueCount<V>(net: Net<V>, arrivals: seq<Entry>, control: Control, epoch: nat, a: NodeIndex)
    requires arrivals != [] && arrivals[First(arrivals)].node in net.nodes && a in net.nodes
    ensures
      var n, e := arrivals[First(arrivals)], Entry(net.nodes[a].depth, a);
      multiset(NextArrivals(net, arrivals, control, epoch))[e] ==
        multiset(arrivals)[e] - (if n == e then 1 else 0)
        + if a in Children(net, n.node, control) && net.nodes[a].schedEpoch != epoch then 1 else 0
  {
    WithoutMultiset(arrivals, First(arrivals));
    AdmittedCount(net.nodes, Children(net, arrivals[First(arrivals)].node, control), epoch, a);
  }

  /** A node is admitted exactly when its parent calls for the first time. */
  lemma NodeNext<V>(m: Machine<V>, epoch: nat, now: Instant, p: NodeIndex, a: NodeIndex)
    requires Sane(m) && m.arrivals != [] && Runnable(m) && OnlyParent(m.net, p, a)
    requires Popped(m).node == p ==> ControlOf(RanNow(m, epoch, now)) != Sweep
    ensures
      var m', e, calls := Next(m, epoch, now), Entry(m.net.nodes[a].depth, a), Calls(m, epoch, now, p);
      && a in m'.net.nodes && m'.net.nodes[a].depth == m.net.nodes[a].depth && m'.floor == Popped(m).depth
      && m'.net.nodes[a].schedEpoch == (if calls then epoch else m.net.nodes[a].schedEpoch)
      && multiset(m'.arrivals)[e] == multiset(m.arrivals)[e] - (if Popped(m) == e then 1 else 0)
           + if calls && m.net.nodes[a].schedEpoch != epoch then 1 else 0
  {
    var r := RanNow(m, epoch, now);
    ChildrenAreWoken(m.net, Popped(m).node, r);
    WakingNeedsEdge(m.net, Popped(m).node, r, a);
    NodeStep(m.net, Popped(m).node, ControlOf(r), epoch, a);
    QueueCount(m.net, m.arrivals, ControlOf(r), epoch, a);
    assert a in Children(m.net, Popped(m).node, ControlOf(r)) <==> Calls(m, epoch, now, p);
  }

  lemma PoppedAs<V>(m: Machine<V>, p: NodeIndex, a: NodeIndex)
    requires Sane(m) && m.arrivals != [] && Runnable(m) && OnlyParent(m.net, p, a)
    ensures Popped(m).node == a <==> Popped(m) == Entry(m.net.nodes[a].depth, a)
    ensures Popped(m).node == p ==> p != a && Popped(m).depth < m.net.nodes[a].depth
    ensures m.floor <= Popped(m).depth && multiset(m.arrivals)[Popped(m)] > 0
  {
    assert Popped(m) in m.arrivals && HasEdge(m.net, p, a);
  }

  lemma WokenNext<V>(m: Machine<V>, epoch: nat, now: Instant, p: NodeIndex, a: NodeIndex, called: bool, visits: nat)
    requires Sane(m) && m.arrivals != [] && Runnable(m) && OnlyParent(m.net, p, a) && Woken(m, epoch, a, called, visits)
    requires a in Next(m, epoch, now).net.nodes && !Next(m, epoch, now).net.nodes[a].poisoned
    ensures Woken(Next(m, epoch, now), epoch, a, called || Calls(m, epoch, now, p), visits + if Popped(m).node == a then 1 else 0)
    ensures Popped(m).node in {p, a} ==> visits == 0
  {
    var e, m' := Entry(m.net.nodes[a].depth, a), Next(m, epoch, now);
    PoppedAs(m, p, a);
    if Popped(m).node == p && ControlOf(RanNow(m, epoch, now)) == Sweep { MarkedPoisons(m, epoch, now, a); }
    NodeNext(m, epoch, now, p, a);
    assert e in m.arrivals <==> multiset(m.arrivals)[e] > 0;
    assert e in m'.arrivals <==> multiset(m'.arrivals)[e] > 0;
  }

  lemma SameShapeOnlyParent<V>(x: Net<V>, y: Net<V>, p: NodeIndex, a: NodeIndex)
    requires SameShape(x, y) && OnlyParent(x, p, a)
    ensures OnlyParent(y, p, a)
  {
    forall q | HasEdge(y, q, a)
      ensures q == p
    {
      assert HasEdge(x, q, a);
    }
  }

  lemma WokenFollows<V>(h: seq<Machine<V>>, k: nat, epoch: nat, now: Instant, p: NodeIndex, a: NodeIndex, called: bool, visits: nat)
    requires Draining(h, epoch, now) && 0 < k < |h| && OnlyParent(h[0].net, p, a)
    requires a in h[k - 1].net.nodes && Woken(h[k - 1], epoch, a, called, visits)
    requires a in h[k].net.nodes && !h[k].net.nodes[a].poisoned
    ensures Follows(h, k - 1, epoch, now)
    ensures Woken(h[k], epoch, a, called || Calls(h[k - 1], epoch, now, p), visits + if Popped(h[k - 1]).node == a then 1 else 0)
    ensures Popped(h[k - 1]).node in {p, a} ==> visits == 0
  {
    AllSane(h, k - 1, epoch, now);
    SameShapeOnlyParent(h[0].net, h[k - 1].net, p, a);
    assert Follows(h, k - 1, epoch, now);
    WokenNext(h[k - 1], epoch, now, p, a, called, visits);
  }

  /** Neither queued nor offered by the poll before the drain. */
  ghost predicate Unseeded<V>(m: Machine<V>, epoch: nat, a: NodeIndex) {
    a in m.net.nodes && m.net.nodes[a].schedEpoch != epoch && a !in QueuedNodes(m.arrivals)
  }

  lemma UnseededIsWoken<V>(m: Machine<V>, epoch: nat, a: NodeIndex)
    requires Unseeded(m, epoch, a)
    ensures Woken(m, epoch, a, false, 0)
  {
    var e := Entry(m.net.nodes[a].depth, a);
    assert e.node == a;
  }

  lemma {:induction false} WokenAt<V>(h: seq<Machine<V>>, k: nat, epoch: nat, now: Instant, p: NodeIndex, a: NodeIndex)
    requires Draining(h, epoch, now) && k < |h| && OnlyParent(h[0].net, p, a) && p in h[0].cells && Unseeded(h[0], epoch, a)
    requires a in h[k].net.nodes && !h[k].net.nodes[a].poisoned
    ensures Woken(h[k], epoch, a, Broadcasts(h, k, epoch, now, p) != [], Visits(h, k, a))
  {
    if k == 0 {
      UnseededIsWoken(h[0], epoch, a);
    } else {
      AllSane(h, k - 1, epoch, now);
      if h[k - 1].net.nodes[a].poisoned { StaysPoisoned(h, k, epoch, now, a); }
      WokenAt(h, k - 1, epoch, now, p, a);
      DrainKeepsCells(h, k, epoch, now);
      WokenFollows(h, k, epoch, now, p, a, Broadcasts(h, k - 1, epoch, now, p) != [], Visits(h, k - 1, a));
    }
  }

  /** In a drain that does not poison it, whatever its queue held, a node that only its parent wakes runs
      exactly once if the parent broadcasts, however often, and not at all otherwise. */
  lemma RunsWithParent<V>(h: seq<Machine<V>>, epoch: nat, now: Instant, p: NodeIndex, a: NodeIndex)
    requires Draining(h, epoch, now) && OnlyParent(h[0].net, p, a) && p in h[0].cells && Unseeded(h[0], epoch, a)
    requires h[|h| - 1].arrivals == []
    requires a in h[|h| - 1].net.nodes && !h[|h| - 1].net.nodes[a].poisoned
    ensures Visits(h, |h| - 1, a) == if Broadcasts(h, |h| - 1, epoch, now, p) != [] then 1 else 0
  {
    WokenAt(h, |h| - 1, epoch, now, p, a);
  }

  // ----- broadcasts that a later run of the parent overwrites

  ghost predicate LastRun<V>(h: seq<Machine<V>>, j: nat, p: NodeIndex) {
    RunsAt(h, j, p) && forall k: nat :: RunsAt(h, k, p) ==> k <= j
  }

  /** What `p` broadcast at `i` is overwritten at `j`: it runs again and broadcasts again, or its last
      run leaves other data. */
  ghost predicate Overwrites<V>(h: seq<Machine<V>>, i: nat, j: nat, epoch: nat, now: Instant, p: NodeIndex) {
    && i < j && BroadcastsAt(h, i, epoch, now, p) && RunsAt(h, j, p)
    && (Calls(h[j], epoch, now, p)
        || (LastRun(h, j, p) && p in h[i + 1].cells && p in h[j + 1].cells && h[j + 1].cells[p].data != h[i + 1].cells[p].data))
  }

  ghost predicate Overwritten<V>(h: seq<Machine<V>>, epoch: nat, now: Instant, p: NodeIndex) {
    exists i: nat, j: nat :: Overwrites(h, i, j, epoch, now, p)
  }

  lemma {:induction false} LastRunFrom<V>(h: seq<Machine<V>>, i: nat, p: NodeIndex) returns (j: nat)
    requires RunsAt(h, i, p)
    ensures i <= j && LastRun(h, j, p)
    decreases |h| - i
  {
    j := i;
    if k: nat :| RunsAt(h, k, p) && i < k { j := LastRunFrom(h, k, p); }
  }

  /** After its last run a node's cell stays. */
  lemma LeftAsLastRun<V>(h: seq<Machine<V>>, j: nat, epoch: nat, now: Instant, p: NodeIndex)
    requires Draining(h, epoch, now) && LastRun(h, j, p) && p in h[0].cells
    ensures p in h[j + 1].cells && p in h[|h| - 1].cells && h[|h| - 1].cells[p] == h[j + 1].cells[p]
  {
    DrainKeepsCells(h, j + 1, epoch, now);
    CellStays(h, j + 1, |h| - 1, epoch, now, p);
  }

  /** `bs` are the broadcasts of the first `k` iterations: none, the one of iteration `i`, or more, among
      them those of `i` and `j`. */
  ghost predicate Origins<V>(h: seq<Machine<V>>, k: nat, epoch: nat, now: Instant, p: NodeIndex, bs: seq<V>, i: nat, j: nat) {
    && (bs == [] ==> forall x: nat :: x < k ==> !BroadcastsAt(h, x, epoch, now, p))
    && (|bs| == 1 ==> i < k && BroadcastsAt(h, i, epoch, now, p) && p in h[i + 1].cells && bs == [h[i + 1].cells[p].data])
    && (|bs| == 1 ==> forall x: nat :: x < k && BroadcastsAt(h, x, epoch, now, p) ==> x == i)
    && (|bs| > 1 ==> i < j < k && BroadcastsAt(h, i, epoch, now, p) && BroadcastsAt(h, j, epoch, now, p))
  }

  lemma OriginsNext<V>(h: seq<Machine<V>>, k: nat, epoch: nat, now: Instant, p: NodeIndex, bs: seq<V>, i: nat, j: nat) returns (i': nat, j': nat)
    requires 0 < k < |h| && p in h[k].cells && Origins(h, k - 1, epoch, now, p, bs, i, j)
    ensures Origins(h, k, epoch, now, p, bs + if BroadcastsAt(h, k - 1, epoch, now, p) then [h[k].cells[p].data] else [], i', j')
  {
    i', j' := i, j;
    if BroadcastsAt(h, k - 1, epoch, now, p) {
      if bs == [] { i' := k - 1; } else if |bs| == 1 { j' := k - 1; }
    }
  }

  lemma {:induction false} BroadcastsFrom<V>(h: seq<Machine<V>>, k: nat, epoch: nat, now: Instant, p: NodeIndex) returns (i: nat, j: nat)
    requires Draining(h, epoch, now) && k < |h| && p in h[0].cells
    ensures Origins(h, k, epoch, now, p, Broadcasts(h, k, epoch, now, p), i, j)
  {
    i, j := 0, 0;
    if k > 0 {
      i, j := BroadcastsFrom(h, k - 1, epoch, now, p);
      DrainKeepsCells(h, k, epoch, now);
      CountsNext(h, k, epoch, now, p);
      assert BroadcastsAt(h, k - 1, epoch, now, p) <==> Calls(h[k - 1], epoch, now, p);
      i, j := OriginsNext(h, k, epoch, now, p, Broadcasts(h, k - 1, epoch, now, p), i, j);
    }
  }

  lemma CountsNext<V>(h: seq<Machine<V>>, k: nat, epoch: nat, now: Instant, p: NodeIndex)
    requires Draining(h, epoch, now) && 0 < k < |h|
    ensures Follows(h, k - 1, epoch, now)
    ensures Visits(h, k, p) == Visits(h, k - 1, p) + if Popped(h[k - 1]).node == p then 1 else 0
    ensures Broadcasts(h, k, epoch, now, p)
         == Broadcasts(h, k - 1, epoch, now, p) + if Calls(h[k - 1], epoch, now, p) && p in h[k].cells then [h[k].cells[p].data] else []
  {
  }

  /** The one broadcast of a drain is what the parent holds at the end, unless it is overwritten. */
  lemma OneBroadcast<V>(h: seq<Machine<V>>, i: nat, epoch: nat, now: Instant, p: NodeIndex)
    requires Draining(h, epoch, now) && p in h[0].cells && BroadcastsAt(h, i, epoch, now, p)
    requires forall x: nat :: BroadcastsAt(h, x, epoch, now, p) ==> x == i
    ensures p in h[i + 1].cells && p in h[|h| - 1].cells
    ensures h[|h| - 1].cells[p].data == h[i + 1].cells[p].data <==> !Overwritten(h, epoch, now, p)
  {
    var j := LastRunFrom(h, i, p);
    LeftAsLastRun(h, j, epoch, now, p);
    DrainKeepsCells(h, i + 1, epoch, now);
    if h[|h| - 1].cells[p].data != h[i + 1].cells[p].data {
      assert Overwrites(h, i, j, epoch, now, p);
    }
    if x: nat, y: nat :| Overwrites(h, x, y, epoch, now, p) {
      assert x == i && !BroadcastsAt(h, y, epoch, now, p);
      LeftAsLastRun(h, y, epoch, now, p);
    }
  }

  /** What the parent holds at the end of a drain is all it has broadcast in it if and only if no
      broadcast was overwritten. */
  lemma HoldsBroadcastsIff<V>(h: seq<Machine<V>>, epoch: nat, now: Instant, p: NodeIndex)
    requires Draining(h, epoch, now) && p in h[0].cells
    ensures p in h[|h| - 1].cells
    ensures Broadcasts(h, |h| - 1, epoch, now, p) in {[], [h[|h| - 1].cells[p].data]} <==> !Overwritten(h, epoch, now, p)
  {
    var bs := Broadcasts(h, |h| - 1, epoch, now, p);
    var i, j := BroadcastsFrom(h, |h| - 1, epoch, now, p);
    DrainKeepsCells(h, |h| - 1, epoch, now);
    if |bs| == 1 {
      OneBroadcast(h, i, epoch, now, p);
    } else if |bs| > 1 {
      assert Overwrites(h, i, j, epoch, now, p);
    }
  }

  /** An iteration in which an honest parent does not broadcast leaves its data. */
  lemma QuietParent<V(!new)>(m: Machine<V>, epoch: nat, now: Instant, p: NodeIndex, a: NodeIndex)
    requires Sane(m) && m.arrivals != [] && Runnable(m) && OnlyParent(m.net, p, a) && p in m.cells && !Calls(m, epoch, now, p)
    requires Honest(m.net.nodes[p].cycleFn)
    requires a in Next(m, epoch, now).net.nodes && !Next(m, epoch, now).net.nodes[a].poisoned
    ensures Next(m, epoch, now).cells[p].data == m.cells[p].data
  {
    if Popped(m).node == p {
      if ControlOf(RanNow(m, epoch, now)) == Sweep { MarkedPoisons(m, epoch, now, a); }
      var view := ViewOf(m.net.nodes[p].inputs, m.cells, epoch, now);
      assert RanNow(m, epoch, now) == Did(m.net.nodes[p].cycleFn(m.cells[p].data, view));
    }
  }

  lemma ParentAt<V>(h: seq<Machine<V>>, k: nat, epoch: nat, now: Instant, p: NodeIndex, a: NodeIndex)
    requires Draining(h, epoch, now) && k < |h| && OnlyParent(h[0].net, p, a) && p in h[0].cells
    ensures Sane(h[k]) && OnlyParent(h[k].net, p, a) && p in h[k].cells
    ensures h[k].net.nodes[p].cycleFn == h[0].net.nodes[p].cycleFn
  {
    AllSane(h, k, epoch, now);
    DrainKeepsCells(h, k, epoch, now);
    SameShapeOnlyParent(h[0].net, h[k].net, p, a);
    assert SameWiring(h[0].net.nodes[p], h[k].net.nodes[p]);
  }

  lemma {:induction false} HonestStays<V(!new)>(h: seq<Machine<V>>, i: nat, j: nat, epoch: nat, now: Instant, p: NodeIndex, a: NodeIndex)
    requires Draining(h, epoch, now) && i <= j < |h| && OnlyParent(h[0].net, p, a) && p in h[0].cells
    requires Honest(h[0].net.nodes[p].cycleFn) && a in h[j].net.nodes && !h[j].net.nodes[a].poisoned
    requires forall k: nat :: i <= k < j ==> !BroadcastsAt(h, k, epoch, now, p)
    ensures p in h[i].cells && p in h[j].cells && h[j].cells[p].data == h[i].cells[p].data
  {
    ParentAt(h, i, epoch, now, p, a);
    if i < j {
      ParentAt(h, j - 1, epoch, now, p, a);
      if h[j - 1].net.nodes[a].poisoned { StaysPoisoned(h, j, epoch, now, a); }
      HonestStays(h, i, j - 1, epoch, now, p, a);
      assert Follows(h, j - 1, epoch, now) && !BroadcastsAt(h, j - 1, epoch, now, p);
      QuietParent(h[j - 1], epoch, now, p, a);
    }
  }

  lemma HonestHolds<V(!new)>(h: seq<Machine<V>>, epoch: nat, now: Instant, p: NodeIndex, a: NodeIndex)
    requires Draining(h, epoch, now) && OnlyParent(h[0].net, p, a) && p in h[0].cells && Honest(h[0].net.nodes[p].cycleFn)
    requires a in h[|h| - 1].net.nodes && !h[|h| - 1].net.nodes[a].poisoned
    ensures p in h[|h| - 1].cells
    ensures |Broadcasts(h, |h| - 1, epoch, now, p)| == 1 ==> Broadcasts(h, |h| - 1, epoch, now, p) == [h[|h| - 1].cells[p].data]
  {
    var i, j := BroadcastsFrom(h, |h| - 1, epoch, now, p);
    DrainKeepsCells(h, |h| - 1, epoch, now);
    if |Broadcasts(h, |h| - 1, epoch, now, p)| == 1 { HonestStays(h, i + 1, |h| - 1, epoch, now, p, a); }
  }

  /** An honest parent overwrites a broadcast only by another one. */
  lemma HonestOverwritesIff<V(!new)>(h: seq<Machine<V>>, epoch: nat, now: Instant, p: NodeIndex, a: NodeIndex)
    requires Draining(h, epoch, now) && OnlyParent(h[0].net, p, a) && p in h[0].cells && Honest(h[0].net.nodes[p].cycleFn)
    requires a in h[|h| - 1].net.nodes && !h[|h| - 1].net.nodes[a].poisoned
    ensures Overwritten(h, epoch, now, p) <==> |Broadcasts(h, |h| - 1, epoch, now, p)| > 1
  {
    HonestHolds(h, epoch, now, p, a);
    HoldsBroadcastsIff(h, epoch, now, p);
  }

  // ----- how often a node runs

  lemma {:induction false} VisitsOne<V>(h: seq<Machine<V>>, k: nat, n: NodeIndex, i: nat)
    requires i < k < |h| && RunsAt(h, i, n)
    ensures Visits(h, k, n) > 0
  {
    if i < k - 1 { VisitsOne(h, k - 1, n, i); }
  }

  lemma {:induction false} VisitsTwo<V>(h: seq<Machine<V>>, k: nat, n: NodeIndex, i: nat, j: nat)
    requires i < j < k < |h| && RunsAt(h, i, n) && RunsAt(h, j, n)
    ensures Visits(h, k, n) > 1
  {
    if j < k - 1 { VisitsTwo(h, k - 1, n, i, j); } else { VisitsOne(h, k - 1, n, i); }
  }

  /** A node that runs once overwrites nothing. */
  lemma OnceOverwritesNothing<V>(h: seq<Machine<V>>, epoch: nat, now: Instant, p: NodeIndex)
    requires |h| > 0 && Visits(h, |h| - 1, p) <= 1
    ensures !Overwritten(h, epoch, now, p)
  {
    if i: nat, j: nat :| Overwrites(h, i, j, epoch, now, p) { VisitsTwo(h, |h| - 1, p, i, j); }
  }

  lemma PoppedAsEntry<V>(h: seq<Machine<V>>, i: nat, epoch: nat, now: Instant, n: NodeIndex)
    requires Draining(h, epoch, now) && i + 1 < |h| && n in h[0].net.nodes
    ensures RunsAt(h, i, n) <==> Runnable(h[i]) && Popped(h[i]) == Entry(h[0].net.nodes[n].depth, n)
  {
    if RunsAt(h, i, n) { RunsAtDepth(h, i, epoch, now, n); }
  }

  lemma OneMore(popped: seq<Entry>, x: Entry, e: Entry)
    ensures multiset(popped + [x])[e] == multiset(popped)[e] + if x == e then 1 else 0
  {
    assert multiset(popped + [x]) == multiset(popped) + multiset{x};
  }

  /** The entries popped for node `n` are all `e`. */
  ghost predicate PoppedOnlyAs<V>(h: seq<Machine<V>>, n: NodeIndex, e: Entry) {
    forall j :: 0 <= j < |h| - 1 && Runnable(h[j]) ==> (Popped(h[j]).node == n <==> Popped(h[j]) == e)
  }

  lemma OnlyAsEntry<V>(h: seq<Machine<V>>, epoch: nat, now: Instant, n: NodeIndex, e: Entry)
    requires Draining(h, epoch, now) && n in h[0].net.nodes && e == Entry(h[0].net.nodes[n].depth, n)
    ensures PoppedOnlyAs(h, n, e)
  {
    forall j | 0 <= j < |h| - 1 && Runnable(h[j])
      ensures Popped(h[j]).node == n <==> Popped(h[j]) == e
    {
      PoppedAsEntry(h, j, epoch, now, n);
    }
  }

  lemma PopsNext<V>(h: seq<Machine<V>>, k: nat, n: NodeIndex, e: Entry, popped: seq<Entry>, popped': seq<Entry>)
    requires PoppedOnlyAs(h, n, e) && 0 < k < |h| && popped == PoppedIn(h, k - 1) && popped' == PoppedIn(h, k)
    ensures Visits(h, k, n) - Visits(h, k - 1, n) == multiset(popped')[e] - multiset(popped)[e]
  {
    if Runnable(h[k - 1]) {
      OneMore(popped, Popped(h[k - 1]), e);
    } else {
      assert popped' == popped;
    }
  }

  /** As often as `n` has run, `e` has been popped. */
  ghost predicate CountsAgree<V>(h: seq<Machine<V>>, k: nat, n: NodeIndex, e: Entry)
    requires k < |h|
  {
    Visits(h, k, n) == multiset(PoppedIn(h, k))[e]
  }

  lemma NoneAgree<V>(h: seq<Machine<V>>, n: NodeIndex, e: Entry)
    requires |h| > 0
    ensures CountsAgree(h, 0, n, e)
  {
    assert PoppedIn(h, 0) == [];
  }

  lemma NextAgree<V>(h: seq<Machine<V>>, k: nat, n: NodeIndex, e: Entry)
    requires PoppedOnlyAs(h, n, e) && 0 < k < |h| && CountsAgree(h, k - 1, n, e)
    ensures CountsAgree(h, k, n, e)
  {
    PopsNext(h, k, n, e, PoppedIn(h, k - 1), PoppedIn(h, k));
  }

  lemma {:induction false} VisitsArePops<V>(h: seq<Machine<V>>, k: nat, n: NodeIndex, e: Entry)
    requires PoppedOnlyAs(h, n, e) && k < |h|
    ensures CountsAgree(h, k, n, e)
  {
    if k == 0 {
      NoneAgree(h, n, e);
    } else {
      VisitsArePops(h, k - 1, n, e);
      NextAgree(h, k, n, e);
    }
  }

  lemma CountOnce(popped: seq<Entry>, rest: seq<Entry>, before: seq<Entry>, last: seq<Entry>, added: seq<Entry>, e: Entry)
    requires multiset(popped) + multiset(rest) == multiset(before + last) + multiset(added)
    requires DistinctNodes(last) && DistinctNodes(added) && e !in before && !(e in last && e in added)
    ensures multiset(popped)[e] <= 1
  {
    DistinctOnce(last, e);
    DistinctOnce(added, e);
    assert multiset(before + last) == multiset(before) + multiset(last);
    assert multiset(before)[e] == 0;
    assert e !in last ==> multiset(last)[e] == 0;
    assert e !in added ==> multiset(added)[e] == 0;
    assert multiset(popped)[e] <= (multiset(popped) + multiset(rest))[e];
  }

  lemma PopsOnceIfFresh<V>(m: Machine<V>, popped: seq<Entry>, added: seq<Entry>, m': Machine<V>, epoch: nat, before: seq<Entry>, last: seq<Entry>, e: Entry)
    requires Accounts(m, popped, added, m', epoch) && m.arrivals == before + last && DistinctNodes(last) && e !in before
    requires StampedIn(m, last, epoch)
    ensures multiset(popped)[e] <= 1
  {
    CountOnce(popped, m'.arrivals, before, last, added, e);
  }

  lemma PopsOnceAt<V>(h: seq<Machine<V>>, k: nat, epoch: nat, now: Instant, m0: Machine<V>, before: seq<Entry>, last: seq<Entry>, e: Entry)
    requires Draining(h, epoch, now) && k < |h| && m0 == h[0] && m0.arrivals == before + last && DistinctNodes(last) && e !in before
    requires StampedIn(m0, last, epoch)
    ensures multiset(PoppedIn(h, k))[e] <= 1
  {
    var added := AccountsAt(h, k, epoch, now);
    PopsOnceIfFresh(m0, PoppedIn(h, k), added, h[k], epoch, before, last, e);
  }

  /** A node that was not queued before the poll runs at most once. */
  lemma RunsOnceIfFresh<V>(h: seq<Machine<V>>, epoch: nat, now: Instant, before: seq<Entry>, last: seq<Entry>, n: NodeIndex)
    requires Draining(h, epoch, now) && h[0].arrivals == before + last && DistinctNodes(last) && n !in QueuedNodes(before)
    requires StampedIn(h[0], last, epoch) && n in h[0].net.nodes
    ensures Visits(h, |h| - 1, n) <= 1
  {
    var e := Entry(h[0].net.nodes[n].depth, n);
    assert e.node == n && e !in before;
    OnlyAsEntry(h, epoch, now, n, e);
    VisitsArePops(h, |h| - 1, n, e);
    PopsOnceAt(h, |h| - 1, epoch, now, h[0], before, last, e);
  }

  // ----- one move of a run

  /** What the parent held after each of its broadcasts. */
  ghost function Offered<V>(epoch: nat, move: Move<V>, p: NodeIndex): seq<V> {
    if move.Cycled? && Drained(move.start, epoch, move.rec)
    then Broadcasts(move.rec.history, |move.rec.history| - 1, epoch, move.rec.now, p) else []
  }

  ghost function RunsOf<V>(epoch: nat, move: Move<V>, n: NodeIndex): nat {
    if move.Cycled? && Drained(move.start, epoch, move.rec)
    then Visits(move.rec.history, |move.rec.history| - 1, n) else 0
  }

  /** A node that stays, is never offered by a poll, and stays woken by its parent alone. */
  ghost predicate Follower<V>(m: Machine<V>, p: NodeIndex, a: NodeIndex) {
    OnlyParent(m.net, p, a) && a in m.cells && p in m.cells && a !in QueuedNodes(m.arrivals)
  }

  lemma PolledFollower<V>(s: Snapshot<V>, polled: seq<NodeIndex>, start: Machine<V>, p: NodeIndex, a: NodeIndex)
    requires Standing(s) && PollLeads(s, polled, start) && Follower(s.machine, p, a) && a !in polled
    ensures Follower(start, p, a) && Unseeded(start, s.epoch + 1, a)
    ensures SameWiring(s.machine.net.nodes[a], start.net.nodes[a]) && start.cells == s.machine.cells
  {
    StartOfCycle(s, polled, start);
    SameShapeOnlyParent(s.machine.net, start.net, p, a);
    PollStamps(s.machine, polled, start.timers, s.nextIndex, s.levels, s.epoch, a);
    FreshSpec(s.machine.net.nodes, polled, s.epoch + 1);
    forall e | e in start.arrivals
      ensures e.node != a
    {
      if e in s.machine.arrivals { assert e.node in QueuedNodes(s.machine.arrivals); }
    }
  }

  lemma KeptFollower<V>(m: Machine<V>, cells: map<NodeIndex, NodeInner<V>>, m': Machine<V>, p: NodeIndex, a: NodeIndex)
    requires OnlyParent(m.net, p, a) && Kept(m, cells, m', a) && Kept(m, cells, m', p) && Wellformed(m'.net)
    ensures OnlyParent(m'.net, p, a)
  {
    forall q | HasEdge(m'.net, q, a)
      ensures q == p
    {
      assert q in m'.net.nodes && HasEdge(m.net, q, a);
    }
  }

  /** A cycle leaves a follower what its drain gave it, and nothing queued. */
  lemma CycledFollower<V>(s: Snapshot<V>, polled: seq<NodeIndex>, start: Machine<V>, rec: Record<V>, s': Snapshot<V>, p: NodeIndex, a: NodeIndex)
    requires Moves(s, Cycled(polled, start, rec), s') && Follower(s.machine, p, a)
    requires {p, a} <= s'.machine.net.nodes.Keys && {p, a} <= s'.machine.cells.Keys
    ensures Follower(s'.machine, p, a) && SameWiring(s.machine.net.nodes[a], s'.machine.net.nodes[a])
    ensures a in LastOf(rec).net.nodes && !LastOf(rec).net.nodes[a].poisoned && LastOf(rec).arrivals == []
    ensures forall c :: c in {p, a} ==> c in LastOf(rec).cells && s'.machine.cells[c].data == LastOf(rec).cells[c].data
  {
    assert p in {p, a} && a in {p, a};
    CycleKeeps(s, polled, start, rec, s'.machine, p);
    CycleKeeps(s, polled, start, rec, s'.machine, a);
    KeptFollower(s.machine, LastOf(rec).cells, s'.machine, p, a);
    assert s'.machine.arrivals == [];
  }

  lemma OutsideFollower<V>(s: Snapshot<V>, s': Snapshot<V>, p: NodeIndex, a: NodeIndex)
    requires Moves(s, Outside, s') && Follower(s.machine, p, a) && {p, a} <= s'.machine.cells.Keys
    ensures Follower(s'.machine, p, a) && SameWiring(s.machine.net.nodes[a], s'.machine.net.nodes[a])
    ensures forall c :: c in {p, a} ==> s'.machine.cells[c].data == s.machine.cells[c].data
  {
    assert p in {p, a} && a in {p, a};
  }

  ghost predicate FollowStep<V>(s: Snapshot<V>, move: Move<V>, s': Snapshot<V>, p: NodeIndex, a: NodeIndex) {
    && Moves(s, move, s') && (move.Outside? || a !in move.polled)
    && {p, a} <= s'.machine.net.nodes.Keys && {p, a} <= s'.machine.cells.Keys
  }

  lemma StaysFollower<V>(s: Snapshot<V>, move: Move<V>, s': Snapshot<V>, p: NodeIndex, a: NodeIndex)
    requires FollowStep(s, move, s', p, a) && Follower(s.machine, p, a)
    ensures Follower(s'.machine, p, a) && SameWiring(s.machine.net.nodes[a], s'.machine.net.nodes[a])
    ensures !move.Cycled? ==> forall c :: c in {p, a} ==> s'.machine.cells[c].data == s.machine.cells[c].data
  {
    match move
    case Cycled(polled, start, rec) => CycledFollower(s, polled, start, rec, s', p, a);
    case PollLost(polled) => PolledFollower(s, polled, s'.machine, p, a);
    case Outside => OutsideFollower(s, s', p, a);
  }

  lemma DrainFollows<V>(start: Machine<V>, epoch: nat, rec: Record<V>, p: NodeIndex, a: NodeIndex)
    requires Drained(start, epoch, rec) && Follower(start, p, a) && Unseeded(start, epoch, a)
    requires a in LastOf(rec).net.nodes && !LastOf(rec).net.nodes[a].poisoned
    ensures Visits(rec.history, |rec.history| - 1, a)
         == if Broadcasts(rec.history, |rec.history| - 1, epoch, rec.now, p) != [] then 1 else 0
  {
    RunsWithParent(rec.history, epoch, rec.now, p, a);
  }

  lemma BegunFollows<V>(s: Snapshot<V>, polled: seq<NodeIndex>, start: Machine<V>, rec: Record<V>, epoch: nat, p: NodeIndex, a: NodeIndex)
    requires Begun(s, polled, start, rec) && Follower(s.machine, p, a) && a !in polled && epoch == s.epoch + 1
    requires a in LastOf(rec).net.nodes && !LastOf(rec).net.nodes[a].poisoned
    ensures Visits(rec.history, |rec.history| - 1, a)
         == if Broadcasts(rec.history, |rec.history| - 1, epoch, rec.now, p) != [] then 1 else 0
  {
    PolledFollower(s, polled, start, p, a);
    DrainFollows(start, epoch, rec, p, a);
  }

  lemma CycledRuns<V>(s: Snapshot<V>, polled: seq<NodeIndex>, start: Machine<V>, rec: Record<V>, epoch: nat, p: NodeIndex, a: NodeIndex)
    requires Begun(s, polled, start, rec) && Follower(s.machine, p, a) && a !in polled && epoch == s.epoch + 1
    requires a in LastOf(rec).net.nodes && !LastOf(rec).net.nodes[a].poisoned
    ensures RunsOf(epoch, Cycled(polled, start, rec), a) == if Offered(epoch, Cycled(polled, start, rec), p) != [] then 1 else 0
  {
    BegunFollows(s, polled, start, rec, epoch, p, a);
  }

  /** In every move a follower runs exactly once if its parent broadcasts in it, however often, and not at all otherwise. */
  lemma RunsWhenCalled<V>(s: Snapshot<V>, move: Move<V>, s': Snapshot<V>, epoch: nat, p: NodeIndex, a: NodeIndex)
    requires FollowStep(s, move, s', p, a) && Follower(s.machine, p, a) && epoch == s.epoch + 1
    ensures RunsOf(epoch, move, a) == if Offered(epoch, move, p) != [] then 1 else 0
  {
    if move.Cycled? {
      CycledFollower(s, move.polled, move.start, move.rec, s', p, a);
      CycledRuns(s, move.polled, move.start, move.rec, epoch, p, a);
    }
  }

  /** What the follower finds when it runs: what its parent holds at the end of the drain. */
  ghost function Found<V>(epoch: nat, move: Move<V>, s': Snapshot<V>, p: NodeIndex): seq<V> {
    if Offered(epoch, move, p) == [] || p !in s'.machine.cells then [] else [s'.machine.cells[p].data]
  }

  /** In this move the parent overwrites what it has broadcast. */
  ghost predicate OverwrittenIn<V>(epoch: nat, move: Move<V>, p: NodeIndex) {
    move.Cycled? && Drained(move.start, epoch, move.rec) && Overwritten(move.rec.history, epoch, move.rec.now, p)
  }

  lemma DrainFinds<V>(polled: seq<NodeIndex>, start: Machine<V>, rec: Record<V>, epoch: nat, s': Snapshot<V>, p: NodeIndex)
    requires Drained(start, epoch, rec) && p in start.cells
    requires p in LastOf(rec).cells && p in s'.machine.cells && s'.machine.cells[p].data == LastOf(rec).cells[p].data
    ensures Found(epoch, Cycled(polled, start, rec), s', p) == Offered(epoch, Cycled(polled, start, rec), p)
       <==> !OverwrittenIn(epoch, Cycled(polled, start, rec), p)
  {
    HoldsBroadcastsIff(rec.history, epoch, rec.now, p);
  }

  lemma StartHasCells<V>(s: Snapshot<V>, polled: seq<NodeIndex>, start: Machine<V>, rec: Record<V>, epoch: nat)
    requires Begun(s, polled, start, rec) && epoch == s.epoch + 1
    ensures Drained(start, epoch, rec) && start.cells == s.machine.cells
  {
  }

  /** The follower finds everything its parent broadcast in a move if and only if the parent overwrites none of it. */
  lemma FindsIff<V>(s: Snapshot<V>, move: Move<V>, s': Snapshot<V>, epoch: nat, p: NodeIndex, a: NodeIndex)
    requires FollowStep(s, move, s', p, a) && Follower(s.machine, p, a) && epoch == s.epoch + 1
    ensures Found(epoch, move, s', p) == Offered(epoch, move, p) <==> !OverwrittenIn(epoch, move, p)
  {
    if move.Cycled? {
      CycledFollower(s, move.polled, move.start, move.rec, s', p, a);
      assert p in {p, a};
      StartHasCells(s, move.polled, move.start, move.rec, epoch);
      DrainFinds(move.polled, move.start, move.rec, epoch, s', p);
    }
  }

  lemma DrainRunsOnce<V>(polled: seq<NodeIndex>, start: Machine<V>, rec: Record<V>, epoch: nat, before: seq<Entry>, last: seq<Entry>, n: NodeIndex)
    requires Drained(start, epoch, rec) && n in start.net.nodes
    requires start.arrivals == before + last && DistinctNodes(last) && n !in QueuedNodes(before)
    requires forall x :: x in last ==> x.node in start.net.nodes && start.net.nodes[x.node].schedEpoch == epoch
    ensures RunsOf(epoch, Cycled(polled, start, rec), n) <= 1 && !OverwrittenIn(epoch, Cycled(polled, start, rec), n)
  {
    RunsOnceIfFresh(rec.history, epoch, rec.now, before, last, n);
    OnceOverwritesNothing(rec.history, epoch, rec.now, n);
  }

  lemma CycleRunsOnce<V>(s: Snapshot<V>, polled: seq<NodeIndex>, start: Machine<V>, rec: Record<V>, epoch: nat, n: NodeIndex)
    requires Begun(s, polled, start, rec) && epoch == s.epoch + 1 && n in s.machine.net.nodes && n !in QueuedNodes(s.machine.arrivals)
    ensures RunsOf(epoch, Cycled(polled, start, rec), n) <= 1 && !OverwrittenIn(epoch, Cycled(polled, start, rec), n)
  {
    var last := PollAdds(s, polled, start);
    DrainRunsOnce(polled, start, rec, epoch, s.machine.arrivals, last, n);
  }

  /** A node that no failed poll has left in the queue runs once at most in the next cycle, and so
      overwrites nothing. */
  lemma RunsOnceUnlessLeft<V>(s: Snapshot<V>, move: Move<V>, s': Snapshot<V>, epoch: nat, n: NodeIndex)
    requires Moves(s, move, s') && epoch == s.epoch + 1 && n in s.machine.net.nodes && n !in QueuedNodes(s.machine.arrivals)
    ensures RunsOf(epoch, move, n) <= 1 && !OverwrittenIn(epoch, move, n)
  {
    if move.Cycled? { CycleRunsOnce(s, move.polled, move.start, move.rec, epoch, n); }
  }

  lemma StartsHonest<V(!new)>(s: Snapshot<V>, polled: seq<NodeIndex>, start: Machine<V>, p: NodeIndex, a: NodeIndex)
    requires Standing(s) && PollLeads(s, polled, start) && Follower(s.machine, p, a)
    ensures OnlyParent(start.net, p, a) && p in start.cells && start.net.nodes[p].cycleFn == s.machine.net.nodes[p].cycleFn
  {
    StartOfCycle(s, polled, start);
    SameShapeOnlyParent(s.machine.net, start.net, p, a);
    assert SameWiring(s.machine.net.nodes[p], start.net.nodes[p]);
  }

  lemma DrainHonest<V(!new)>(polled: seq<NodeIndex>, start: Machine<V>, rec: Record<V>, epoch: nat, p: NodeIndex, a: NodeIndex)
    requires Drained(start, epoch, rec) && OnlyParent(start.net, p, a) && p in start.cells && Honest(start.net.nodes[p].cycleFn)
    requires a in LastOf(rec).net.nodes && !LastOf(rec).net.nodes[a].poisoned
    ensures OverwrittenIn(epoch, Cycled(polled, start, rec), p) <==> |Offered(epoch, Cycled(polled, start, rec), p)| > 1
  {
    HonestOverwritesIff(rec.history, epoch, rec.now, p, a);
  }

  lemma CycledHonest<V(!new)>(s: Snapshot<V>, polled: seq<NodeIndex>, start: Machine<V>, rec: Record<V>, epoch: nat, p: NodeIndex, a: NodeIndex)
    requires Begun(s, polled, start, rec) && Follower(s.machine, p, a) && epoch == s.epoch + 1 && Honest(s.machine.net.nodes[p].cycleFn)
    requires a in LastOf(rec).net.nodes && !LastOf(rec).net.nodes[a].poisoned
    ensures OverwrittenIn(epoch, Cycled(polled, start, rec), p) <==> |Offered(epoch, Cycled(polled, start, rec), p)| > 1
  {
    StartsHonest(s, polled, start, p, a);
    DrainHonest(polled, start, rec, epoch, p, a);
  }

  /** A parent that changes its data only when it broadcasts overwrites exactly by broadcasting twice. */
  lemma HonestParent<V(!new)>(s: Snapshot<V>, move: Move<V>, s': Snapshot<V>, epoch: nat, p: NodeIndex, a: NodeIndex)
    requires FollowStep(s, move, s', p, a) && Follower(s.machine, p, a) && epoch == s.epoch + 1 && Honest(s.machine.net.nodes[p].cycleFn)
    ensures OverwrittenIn(epoch, move, p) <==> |Offered(epoch, move, p)| > 1
  {
    if move.Cycled? {
      CycledFollower(s, move.polled, move.start, move.rec, s', p, a);
      CycledHonest(s, move.polled, move.start, move.rec, epoch, p, a);
    }
  }

  // ----- whole runs

  ghost predicate FollowRun<V>(ss: seq<Snapshot<V>>, moves: seq<Move<V>>, p: NodeIndex, a: NodeIndex) {
    |ss| == |moves| + 1 && Follower(ss[0].machine, p, a) && forall i :: 0 <= i < |moves| ==> FollowStepAt(ss, moves, p, a, i)
  }

  ghost predicate FollowStepAt<V>(ss: seq<Snapshot<V>>, moves: seq<Move<V>>, p: NodeIndex, a: NodeIndex, i: nat)
    requires |ss| == |moves| + 1 && i < |moves|
  {
    FollowStep(ss[i], moves[i], ss[i + 1], p, a)
  }

  ghost function OfferedAt<V>(ss: seq<Snapshot<V>>, moves: seq<Move<V>>, p: NodeIndex, i: nat): seq<V>
    requires |ss| == |moves| + 1 && i < |moves|
  {
    Offered(ss[i].epoch + 1, moves[i], p)
  }

  ghost function FoundAt<V>(ss: seq<Snapshot<V>>, moves: seq<Move<V>>, p: NodeIndex, i: nat): seq<V>
    requires |ss| == |moves| + 1 && i < |moves|
  {
    Found(ss[i].epoch + 1, moves[i], ss[i + 1], p)
  }

  function Concat<V>(parts: seq<seq<V>>): seq<V> {
    if parts == [] then [] else Concat(parts[..|parts| - 1]) + parts[|parts| - 1]
  }

  /** Everything the parent has broadcast, move by move. */
  ghost function AllOffered<V>(ss: seq<Snapshot<V>>, moves: seq<Move<V>>, p: NodeIndex, k: nat): seq<seq<V>>
    requires |ss| == |moves| + 1 && k <= |moves|
  {
    seq(k, i requires 0 <= i < k => OfferedAt(ss, moves, p, i))
  }

  /** Everything the follower has found, move by move. */
  ghost function AllFound<V>(ss: seq<Snapshot<V>>, moves: seq<Move<V>>, p: NodeIndex, k: nat): seq<seq<V>>
    requires |ss| == |moves| + 1 && k <= |moves|
  {
    seq(k, i requires 0 <= i < k => FoundAt(ss, moves, p, i))
  }

  ghost predicate OverwrittenAt<V>(ss: seq<Snapshot<V>>, moves: seq<Move<V>>, p: NodeIndex, i: nat)
    requires |ss| == |moves| + 1 && i < |moves|
  {
    OverwrittenIn(ss[i].epoch + 1, moves[i], p)
  }

  lemma FollowerNext<V>(ss: seq<Snapshot<V>>, moves: seq<Move<V>>, p: NodeIndex, a: NodeIndex, i: nat)
    requires FollowRun(ss, moves, p, a) && i < |moves| && Follower(ss[i].machine, p, a)
    ensures Follower(ss[i + 1].machine, p, a)
  {
    assert FollowStepAt(ss, moves, p, a, i);
    StaysFollower(ss[i], moves[i], ss[i + 1], p, a);
  }

  lemma {:induction false} FollowerAlong<V>(ss: seq<Snapshot<V>>, moves: seq<Move<V>>, p: NodeIndex, a: NodeIndex, k: nat)
    requires FollowRun(ss, moves, p, a) && k <= |moves|
    ensures Follower(ss[k].machine, p, a)
  {
    if k > 0 {
      FollowerAlong(ss, moves, p, a, k - 1);
      FollowerNext(ss, moves, p, a, k - 1);
    }
  }

  ghost predicate FindsIn<V>(ss: seq<Snapshot<V>>, moves: seq<Move<V>>, p: NodeIndex, i: nat)
    requires |ss| == |moves| + 1 && i < |moves|
  {
    && |FoundAt(ss, moves, p, i)| <= |OfferedAt(ss, moves, p, i)|
    && (FoundAt(ss, moves, p, i) == OfferedAt(ss, moves, p, i) <==> !OverwrittenAt(ss, moves, p, i))
  }

  lemma FindsIffAt<V>(ss: seq<Snapshot<V>>, moves: seq<Move<V>>, p: NodeIndex, a: NodeIndex, i: nat)
    requires FollowRun(ss, moves, p, a) && i < |moves|
    ensures FindsIn(ss, moves, p, i)
  {
    FollowerAlong(ss, moves, p, a, i);
    assert FollowStepAt(ss, moves, p, a, i);
    FindsIff(ss[i], moves[i], ss[i + 1], ss[i].epoch + 1, p, a);
  }

  lemma ConcatIff<V>(t: seq<V>, t': seq<V>, o: seq<V>, o': seq<V>)
    requires |t| <= |o| && |t'| <= |o'|
    ensures t + t' == o + o' <==> t == o && t' == o'
  {
    if t + t' == o + o' {
      assert |t + t'| == |o + o'|;
      assert t == (t + t')[..|t|] && o == (o + o')[..|o|];
      assert t' == (t + t')[|t|..] && o' == (o + o')[|o|..];
    }
  }

  /** One list of parts, each no longer than that of the other list, gives the same whole exactly if all parts agree. */
  lemma {:induction false} ConcatAllIff<V>(t: seq<seq<V>>, o: seq<seq<V>>)
    requires |t| == |o| && forall i :: 0 <= i < |t| ==> |t[i]| <= |o[i]|
    ensures |Concat(t)| <= |Concat(o)| && (Concat(t) == Concat(o) <==> t == o)
  {
    if t != [] {
      var k := |t| - 1;
      ConcatAllIff(t[..k], o[..k]);
      ConcatIff(Concat(t[..k]), t[k], Concat(o[..k]), o[k]);
      assert t == t[..k] + [t[k]] && o == o[..k] + [o[k]];
    }
  }

  lemma PartsAgreeIff<V>(ss: seq<Snapshot<V>>, moves: seq<Move<V>>, p: NodeIndex, k: nat)
    requires |ss| == |moves| + 1 && k <= |moves| && forall i :: 0 <= i < k ==> FindsIn(ss, moves, p, i)
    ensures forall i :: 0 <= i < k ==> |AllFound(ss, moves, p, k)[i]| <= |AllOffered(ss, moves, p, k)[i]|
    ensures AllFound(ss, moves, p, k) == AllOffered(ss, moves, p, k) <==> forall i :: 0 <= i < k ==> !OverwrittenAt(ss, moves, p, i)
  {
    var t, o := AllFound(ss, moves, p, k), AllOffered(ss, moves, p, k);
    forall i | 0 <= i < k
      ensures |t[i]| <= |o[i]| && (t[i] == o[i] <==> !OverwrittenAt(ss, moves, p, i))
    {
      assert FindsIn(ss, moves, p, i) && t[i] == FoundAt(ss, moves, p, i) && o[i] == OfferedAt(ss, moves, p, i);
    }
    assert t == o <==> forall i :: 0 <= i < k ==> t[i] == o[i];
  }

  /** Over any run the follower finds everything its parent has broadcast, each once and in order, if and
      only if the parent never overwrites a broadcast in the cycle in which it made it. */
  lemma FindsEveryBroadcastIff<V>(ss: seq<Snapshot<V>>, moves: seq<Move<V>>, p: NodeIndex, a: NodeIndex, k: nat)
    requires FollowRun(ss, moves, p, a) && k <= |moves|
    ensures Concat(AllFound(ss, moves, p, k)) == Concat(AllOffered(ss, moves, p, k))
       <==> forall i :: 0 <= i < k ==> !OverwrittenAt(ss, moves, p, i)
  {
    forall i | 0 <= i < k
      ensures FindsIn(ss, moves, p, i)
    {
      FindsIffAt(ss, moves, p, a, i);
    }
    PartsAgreeIff(ss, moves, p, k);
    ConcatAllIff(AllFound(ss, moves, p, k), AllOffered(ss, moves, p, k));
  }

  lemma LeftNext<V>(ss: seq<Snapshot<V>>, moves: seq<Move<V>>, p: NodeIndex, a: NodeIndex, i: nat)
    requires FollowRun(ss, moves, p, a) && i < |moves| && p !in QueuedNodes(ss[i].machine.arrivals)
    requires moves[i].PollLost? ==> p !in moves[i].polled
    ensures p !in QueuedNodes(ss[i + 1].machine.arrivals)
  {
    assert FollowStepAt(ss, moves, p, a, i);
    LeavesNothing(ss[i], moves[i], ss[i + 1], p);
  }

  lemma LeavesNothing<V>(s: Snapshot<V>, move: Move<V>, s': Snapshot<V>, p: NodeIndex)
    requires Moves(s, move, s') && p !in QueuedNodes(s.machine.arrivals) && (move.PollLost? ==> p !in move.polled)
    ensures p !in QueuedNodes(s'.machine.arrivals)
  {
    if move.PollLost? { NotLeft(s, move.polled, s'.machine, p); }
  }

  lemma NotLeft<V>(s: Snapshot<V>, polled: seq<NodeIndex>, m: Machine<V>, p: NodeIndex)
    requires PollLeads(s, polled, m) && p !in QueuedNodes(s.machine.arrivals) && p !in polled
    ensures p !in QueuedNodes(m.arrivals)
  {
    NotOffered(s.machine, polled, s.epoch + 1, p);
  }

  lemma NotOffered<V>(m: Machine<V>, polled: seq<NodeIndex>, epoch: nat, p: NodeIndex)
    requires p !in QueuedNodes(m.arrivals) && p !in polled
    ensures p !in QueuedNodes(m.arrivals + Fresh(m.net.nodes, polled, epoch))
  {
    FreshSpec(m.net.nodes, polled, epoch);
    forall e | e in m.arrivals ensures e.node != p { assert e.node in QueuedNodes(m.arrivals); }
  }

  /** Only a failed poll that offers a node leaves it in the queue. */
  lemma {:induction false} NeverLeft<V>(ss: seq<Snapshot<V>>, moves: seq<Move<V>>, p: NodeIndex, a: NodeIndex, k: nat)
    requires FollowRun(ss, moves, p, a) && k <= |moves| && p !in QueuedNodes(ss[0].machine.arrivals)
    requires forall i :: 0 <= i < k && moves[i].PollLost? ==> p !in moves[i].polled
    ensures p !in QueuedNodes(ss[k].machine.arrivals)
  {
    if k > 0 {
      NeverLeft(ss, moves, p, a, k - 1);
      LeftNext(ss, moves, p, a, k - 1);
    }
  }

  lemma UnlessLeftAt<V>(ss: seq<Snapshot<V>>, moves: seq<Move<V>>, p: NodeIndex, a: NodeIndex, i: nat)
    requires FollowRun(ss, moves, p, a) && i < |moves| && Follower(ss[i].machine, p, a) && p !in QueuedNodes(ss[i].machine.arrivals)
    ensures !OverwrittenAt(ss, moves, p, i)
  {
    assert FollowStepAt(ss, moves, p, a, i);
    RunsOnceUnlessLeft(ss[i], moves[i], ss[i + 1], ss[i].epoch + 1, p);
  }

  /** So it does in every run in which no failed poll offers the parent. */
  lemma FindsEveryBroadcast<V>(ss: seq<Snapshot<V>>, moves: seq<Move<V>>, p: NodeIndex, a: NodeIndex, k: nat)
    requires FollowRun(ss, moves, p, a) && k <= |moves| && p !in QueuedNodes(ss[0].machine.arrivals)
    requires forall i :: 0 <= i < k && moves[i].PollLost? ==> p !in moves[i].polled
    ensures Concat(AllFound(ss, moves, p, k)) == Concat(AllOffered(ss, moves, p, k))
  {
    forall i | 0 <= i < k
      ensures !OverwrittenAt(ss, moves, p, i)
    {
      FollowerAlong(ss, moves, p, a, i);
      NeverLeft(ss, moves, p, a, i);
      UnlessLeftAt(ss, moves, p, a, i);
    }
    FindsEveryBroadcastIff(ss, moves, p, a, k);
  }
}
