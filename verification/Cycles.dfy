/** What holds in every cycle, whatever earlier failed polls have left in its queue: the order of runs,
    how far a sweep reaches, and what a node sees of its inputs. */
module Cycles {
  import opened Types
  import opened Scheduling
  import opened Semantics
  import opened Graphs
  import opened Stepping
  import opened Machines
  import opened Poisoning
  import opened Building
  import opened Invariants
  import opened Execution
  import opened Runs

  /** Iteration `i` of a drain runs node `n`. */
  ghost predicate RunsAt<V>(h: seq<Machine<V>>, i: nat, n: NodeIndex) {
    i + 1 < |h| && Runnable(h[i]) && Popped(h[i]).node == n
  }

  ghost predicate SweepsAt<V>(h: seq<Machine<V>>, i: nat, epoch: nat, now: Instant, n: NodeIndex) {
    RunsAt(h, i, n) && ControlOf(RanNow(h[i], epoch, now)) == Sweep
  }

  /** The next iteration runs `p`, which broadcasts. */
  ghost predicate Calls<V>(m: Machine<V>, epoch: nat, now: Instant, p: NodeIndex)
    requires Runnable(m)
  {
    Popped(m).node == p && ControlOf(RanNow(m, epoch, now)) == Broadcast
  }

  ghost predicate BroadcastsAt<V>(h: seq<Machine<V>>, i: nat, epoch: nat, now: Instant, n: NodeIndex) {
    RunsAt(h, i, n) && Calls(h[i], epoch, now, n)
  }

  /** How often `n` runs in the first `k` iterations. */
  ghost function Visits<V>(h: seq<Machine<V>>, k: nat, n: NodeIndex): nat
    requires k <= |h|
  {
    if k == 0 then 0 else Visits(h, k - 1, n) + if Runnable(h[k - 1]) && Popped(h[k - 1]).node == n then 1 else 0
  }

  // ----- parents first

  lemma {:induction false} FloorsAscend<V>(h: seq<Machine<V>>, i: nat, j: nat, epoch: nat, now: Instant)
    requires Draining(h, epoch, now) && i <= j < |h|
    ensures h[i].floor <= h[j].floor
  {
    if i < j {
      FloorsAscend(h, i, j - 1, epoch, now);
      AllSane(h, j - 1, epoch, now);
      assert Follows(h, j - 1, epoch, now) && Popped(h[j - 1]) in h[j - 1].arrivals;
    }
  }

  lemma RunsAtDepth<V>(h: seq<Machine<V>>, i: nat, epoch: nat, now: Instant, n: NodeIndex)
    requires Draining(h, epoch, now) && RunsAt(h, i, n)
    ensures n in h[0].net.nodes && h[i].floor <= h[0].net.nodes[n].depth == Popped(h[i]).depth == h[i + 1].floor
  {
    AllSane(h, i, epoch, now);
    assert Follows(h, i, epoch, now) && Popped(h[i]) in h[i].arrivals;
    assert SameWiring(h[0].net.nodes[n], h[i].net.nodes[n]);
  }

  /** A node is never run again, or for the first time, once a child of it has run. */
  lemma ParentsFirst<V>(h: seq<Machine<V>>, i: nat, j: nat, epoch: nat, now: Instant, p: NodeIndex, n: NodeIndex)
    requires Draining(h, epoch, now) && HasEdge(h[0].net, p, n) && RunsAt(h, i, n) && RunsAt(h, j, p)
    ensures j < i
  {
    RunsAtDepth(h, i, epoch, now, n);
    RunsAtDepth(h, j, epoch, now, p);
    if i < j { FloorsAscend(h, i + 1, j, epoch, now); }
  }

  // ----- sweeping

  lemma QueuedNext<V>(h: seq<Machine<V>>, k: nat, epoch: nat, now: Instant, c: NodeIndex)
    requires Draining(h, epoch, now) && k + 1 < |h| && c in QueuedNodes(h[k].arrivals) && !RunsAt(h, k, c)
    ensures c in QueuedNodes(h[k + 1].arrivals)
  {
    AllSane(h, k, epoch, now);
    assert Follows(h, k, epoch, now);
    var e :| e in h[k].arrivals && e.node == c;
    assert e.node in h[k].net.nodes;
    StaysQueued(h[k], epoch, now, c);
  }

  /** What is queued is run later on. */
  lemma {:induction false} QueuedRuns<V>(h: seq<Machine<V>>, k: nat, epoch: nat, now: Instant, c: NodeIndex) returns (j: nat)
    requires Draining(h, epoch, now) && k < |h| && h[|h| - 1].arrivals == [] && c in QueuedNodes(h[k].arrivals)
    ensures k <= j && RunsAt(h, j, c)
    decreases |h| - k
  {
    j := k;
    if !RunsAt(h, k, c) {
      QueuedNext(h, k, epoch, now, c);
      j := QueuedRuns(h, k + 1, epoch, now, c);
    }
  }

  lemma {:induction false} PoisonStays<V>(h: seq<Machine<V>>, i: nat, j: nat, epoch: nat, now: Instant, c: NodeIndex)
    requires Draining(h, epoch, now) && i <= j < |h| && c in h[i].net.nodes && h[i].net.nodes[c].poisoned
    ensures c in h[j].net.nodes && h[j].net.nodes[c].poisoned
  {
    if i < j {
      PoisonStays(h, i, j - 1, epoch, now, c);
      StaysPoisoned(h, j, epoch, now, c);
    }
  }

  lemma {:induction false} MarksStay<V>(h: seq<Machine<V>>, i: nat, j: nat, epoch: nat, now: Instant, n: NodeIndex)
    requires Draining(h, epoch, now) && i <= j < |h| && n in h[i].marked
    ensures n in h[j].marked
  {
    if i < j {
      MarksStay(h, i, j - 1, epoch, now, n);
      assert Follows(h, j - 1, epoch, now);
    }
  }

  lemma SweepStamps<V>(m: Machine<V>, epoch: nat, now: Instant, c: NodeIndex)
    requires Sane(m) && Runnable(m) && ControlOf(RanNow(m, epoch, now)) == Sweep && HasEdge(m.net, Popped(m).node, c)
    ensures c in m.net.nodes && c in Next(m, epoch, now).net.nodes
    ensures Next(m, epoch, now).net.nodes[c].poisoned && Next(m, epoch, now).net.nodes[c].schedEpoch == epoch
    ensures Next(m, epoch, now).floor < Next(m, epoch, now).net.nodes[c].depth
  {
    assert Popped(m) in m.arrivals;
    MarkedPoisons(m, epoch, now, c);
    ChildrenAreWoken(m.net, Popped(m).node, RanNow(m, epoch, now));
    NodeStep(m.net, Popped(m).node, Sweep, epoch, c);
  }

  /** A sweep leaves every child poisoned and queued. */
  lemma SweepPoisons<V>(h: seq<Machine<V>>, i: nat, epoch: nat, now: Instant, base: nat, p: NodeIndex, c: NodeIndex)
    requires Draining(h, epoch, now) && PoisonDriven(h[0], epoch, base)
    requires SweepsAt(h, i, epoch, now, p) && HasEdge(h[0].net, p, c)
    ensures c in h[i + 1].net.nodes && h[i + 1].net.nodes[c].poisoned && c in QueuedNodes(h[i + 1].arrivals)
  {
    AllSane(h, i, epoch, now);
    assert Follows(h, i, epoch, now) && h[i].net.adj == h[0].net.adj;
    assert HasEdge(h[i].net, p, c);
    SweepStamps(h[i], epoch, now, c);
    DrivenAt(h, i + 1, epoch, now, base);
  }

  /** In this drain the node runs, and never its user code. */
  ghost predicate OnlySwept<V>(h: seq<Machine<V>>, epoch: nat, now: Instant, n: NodeIndex) {
    forall k: nat :: RunsAt(h, k, n) ==> RanNow(h[k], epoch, now) == Swept
  }

  /** Every child of a swept node is swept later on, and only swept. */
  lemma SweepsChild<V>(h: seq<Machine<V>>, i: nat, epoch: nat, now: Instant, base: nat, p: NodeIndex, c: NodeIndex) returns (j: nat)
    requires Draining(h, epoch, now) && PoisonDriven(h[0], epoch, base) && h[|h| - 1].arrivals == []
    requires SweepsAt(h, i, epoch, now, p) && HasEdge(h[0].net, p, c)
    ensures i < j && SweepsAt(h, j, epoch, now, c) && OnlySwept(h, epoch, now, c)
  {
    SweepPoisons(h, i, epoch, now, base, p, c);
    j := QueuedRuns(h, i + 1, epoch, now, c);
    forall k: nat | RunsAt(h, k, c)
      ensures RanNow(h[k], epoch, now) == Swept
    {
      ParentsFirst(h, k, i, epoch, now, p, c);
      PoisonStays(h, i + 1, k, epoch, now, c);
    }
  }

  /** So is everything reachable from it. */
  lemma {:induction false} SweepsPath<V>(h: seq<Machine<V>>, i: nat, epoch: nat, now: Instant, base: nat, path: seq<NodeIndex>) returns (j: nat)
    requires Draining(h, epoch, now) && PoisonDriven(h[0], epoch, base) && h[|h| - 1].arrivals == []
    requires Path(h[0].net, path) && SweepsAt(h, i, epoch, now, path[0])
    ensures SweepsAt(h, j, epoch, now, path[|path| - 1])
    ensures |path| > 1 ==> OnlySwept(h, epoch, now, path[|path| - 1])
  {
    if |path| == 1 {
      j := i;
    } else {
      var k := SweepsPath(h, i, epoch, now, base, path[..|path| - 1]);
      j := SweepsChild(h, k, epoch, now, base, path[|path| - 2], path[|path| - 1]);
    }
  }

  lemma SweptIsMarked<V>(h: seq<Machine<V>>, i: nat, epoch: nat, now: Instant, n: NodeIndex)
    requires Draining(h, epoch, now) && SweepsAt(h, i, epoch, now, n)
    ensures n in h[|h| - 1].marked
  {
    assert Follows(h, i, epoch, now);
    MarksStay(h, i + 1, |h| - 1, epoch, now, n);
  }

  /** If a node is swept in a cycle, everything reachable from it is run without user code and is gone
      when the cycle ends. */
  lemma SweepRemovesDescendants<V>(
    s: Snapshot<V>, polled: seq<NodeIndex>, start: Machine<V>, rec: Record<V>, s': Snapshot<V>, epoch: nat, i: nat, path: seq<NodeIndex>)
    returns (j: nat)
    requires Moves(s, Cycled(polled, start, rec), s') && epoch == s.epoch + 1
    requires Path(s.machine.net, path) && |path| > 1 && SweepsAt(rec.history, i, epoch, rec.now, path[0])
    ensures RunsAt(rec.history, j, path[|path| - 1]) && OnlySwept(rec.history, epoch, rec.now, path[|path| - 1])
    ensures path[|path| - 1] !in s'.machine.net.nodes
  {
    StartOfCycle(s, polled, start);
    j := DrainSweeps(start, epoch, rec, i, path);
    CycleKeeps(s, polled, start, rec, s'.machine, path[|path| - 1]);
  }

  lemma DrainSweeps<V>(start: Machine<V>, epoch: nat, rec: Record<V>, i: nat, path: seq<NodeIndex>) returns (j: nat)
    requires Drained(start, epoch, rec) && PoisonDriven(start, epoch, |start.marked|)
    requires Path(start.net, path) && |path| > 1 && SweepsAt(rec.history, i, epoch, rec.now, path[0])
    ensures RunsAt(rec.history, j, path[|path| - 1]) && OnlySwept(rec.history, epoch, rec.now, path[|path| - 1])
    ensures path[|path| - 1] in LastOf(rec).marked
  {
    j := SweepsPath(rec.history, i, epoch, rec.now, |start.marked|, path);
    SweptIsMarked(rec.history, j, epoch, rec.now, path[|path| - 1]);
  }

  // ----- who runs

  lemma BroadcastStamps<V>(m: Machine<V>, epoch: nat, now: Instant, p: NodeIndex, c: NodeIndex)
    requires Sane(m) && Runnable(m) && Calls(m, epoch, now, p) && TriggerEdge(m.net, p, c)
    ensures c in m.net.nodes && c in Next(m, epoch, now).net.nodes && Next(m, epoch, now).net.nodes[c].schedEpoch == epoch
    ensures Next(m, epoch, now).floor < Next(m, epoch, now).net.nodes[c].depth
  {
    assert HasEdge(m.net, p, c) && Popped(m) in m.arrivals;
    ChildrenAreWoken(m.net, p, RanNow(m, epoch, now));
    NodeStep(m.net, p, Broadcast, epoch, c);
  }

  /** A broadcast of `p` leaves a child that it triggers in the queue. */
  lemma BroadcastQueues<V>(h: seq<Machine<V>>, i: nat, epoch: nat, now: Instant, base: nat, p: NodeIndex, c: NodeIndex)
    requires Draining(h, epoch, now) && PoisonDriven(h[0], epoch, base)
    requires BroadcastsAt(h, i, epoch, now, p) && p in h[0].net.adj && Edge(c, Trigger) in h[0].net.adj[p]
    ensures c in QueuedNodes(h[i + 1].arrivals)
  {
    AllSane(h, i, epoch, now);
    assert Follows(h, i, epoch, now) && h[i].net.adj == h[0].net.adj;
    assert TriggerEdge(h[i].net, p, c);
    BroadcastStamps(h[i], epoch, now, p, c);
    DrivenAt(h, i + 1, epoch, now, base);
  }

  /** `p` broadcasts in iteration `i`, and its edge to `n` is a triggering one. */
  ghost predicate TriggersAt<V>(h: seq<Machine<V>>, i: nat, epoch: nat, now: Instant, p: NodeIndex, n: NodeIndex) {
    && i + 1 < |h| && Runnable(h[i]) && Popped(h[i]).node == p
    && RanNow(h[i], epoch, now).Did? && RanNow(h[i], epoch, now).out.control == Broadcast
    && p in h[0].net.adj && Edge(n, Trigger) in h[0].net.adj[p]
  }

  /** `p` asks to be swept in iteration `i`, or is swept without running, and has an edge to `n`. */
  ghost predicate SweepsInto<V>(h: seq<Machine<V>>, i: nat, epoch: nat, now: Instant, p: NodeIndex, n: NodeIndex) {
    && i + 1 < |h| && Runnable(h[i]) && Popped(h[i]).node == p
    && (RanNow(h[i], epoch, now) == Swept || RanNow(h[i], epoch, now).out.control == Sweep)
    && p in h[0].net.adj && (Edge(n, Trigger) in h[0].net.adj[p] || Edge(n, Observe) in h[0].net.adj[p])
  }

  ghost predicate CalledAt<V>(h: seq<Machine<V>>, i: nat, epoch: nat, now: Instant, p: NodeIndex, n: NodeIndex) {
    TriggersAt(h, i, epoch, now, p, n) || SweepsInto(h, i, epoch, now, p, n)
  }

  lemma QueuedFrom<V>(m: Machine<V>, epoch: nat, now: Instant, n: NodeIndex)
    requires Sane(m) && Runnable(m) && n in QueuedNodes(Next(m, epoch, now).arrivals)
    ensures n in QueuedNodes(m.arrivals) || Wakes(m.net, Popped(m).node, RanNow(m, epoch, now), n)
  {
    var p, r := Popped(m).node, RanNow(m, epoch, now);
    var e :| e in Next(m, epoch, now).arrivals && e.node == n;
    WithoutFirst(m.arrivals);
    FreshSpec(m.net.nodes, Children(m.net, p, ControlOf(r)), epoch);
    ChildrenAreWoken(m.net, p, r);
    if e in Without(m.arrivals, First(m.arrivals)) { assert e in m.arrivals; }
  }

  lemma WakesIsCalled<V>(h: seq<Machine<V>>, i: nat, epoch: nat, now: Instant, p: NodeIndex, n: NodeIndex)
    requires Draining(h, epoch, now) && RunsAt(h, i, p) && h[i].net.adj == h[0].net.adj
    requires Wakes(h[i].net, p, RanNow(h[i], epoch, now), n)
    ensures CalledAt(h, i, epoch, now, p, n)
  {
    if ControlOf(RanNow(h[i], epoch, now)) == Sweep {
      var edge :| edge in h[i].net.adj[p] && edge.target == n;
      assert edge == Edge(n, edge.rel);
      assert edge.rel == Trigger || edge.rel == Observe;
    }
  }

  /** An iteration puts a node into the queue only if it was there or is called. */
  lemma QueuedBy<V>(h: seq<Machine<V>>, i: nat, epoch: nat, now: Instant, n: NodeIndex)
    requires Draining(h, epoch, now) && i + 1 < |h| && n in QueuedNodes(h[i + 1].arrivals)
    ensures n in QueuedNodes(h[i].arrivals) || (Runnable(h[i]) && CalledAt(h, i, epoch, now, Popped(h[i]).node, n))
  {
    AllSane(h, i, epoch, now);
    assert Follows(h, i, epoch, now);
    QueuedFrom(h[i], epoch, now, n);
    if n !in QueuedNodes(h[i].arrivals) { WakesIsCalled(h, i, epoch, now, Popped(h[i]).node, n); }
  }

  lemma {:induction false} RunsBecause<V>(h: seq<Machine<V>>, k: nat, epoch: nat, now: Instant, n: NodeIndex) returns (i: nat, p: NodeIndex)
    requires Draining(h, epoch, now) && k < |h| && n in QueuedNodes(h[k].arrivals)
    ensures n in QueuedNodes(h[0].arrivals) || (i < k && CalledAt(h, i, epoch, now, p, n))
  {
    i, p := 0, n;
    if k > 0 {
      QueuedBy(h, k - 1, epoch, now, n);
      if n in QueuedNodes(h[k - 1].arrivals) {
        i, p := RunsBecause(h, k - 1, epoch, now, n);
      } else {
        i, p := k - 1, Popped(h[k - 1]).node;
      }
    }
  }

  lemma CalledRuns<V>(h: seq<Machine<V>>, i: nat, epoch: nat, now: Instant, base: nat, p: NodeIndex, n: NodeIndex) returns (j: nat)
    requires Draining(h, epoch, now) && PoisonDriven(h[0], epoch, base) && h[|h| - 1].arrivals == []
    requires CalledAt(h, i, epoch, now, p, n)
    ensures i < j && RunsAt(h, j, n)
  {
    AllSane(h, 0, epoch, now);
    if TriggersAt(h, i, epoch, now, p, n) {
      BroadcastQueues(h, i, epoch, now, base, p, n);
    } else {
      SweepPoisons(h, i, epoch, now, base, p, n);
    }
    j := QueuedRuns(h, i + 1, epoch, now, n);
  }

  /** In any complete drain exactly those nodes run that were queued at the start, or that a broadcasting
      parent triggers, or a swept parent pulls along: a broadcast wakes no observer. */
  lemma RunsExactlyIf<V>(h: seq<Machine<V>>, epoch: nat, now: Instant, base: nat, n: NodeIndex)
    requires Draining(h, epoch, now) && PoisonDriven(h[0], epoch, base) && h[|h| - 1].arrivals == []
    ensures (exists j: nat :: RunsAt(h, j, n)) <==>
      n in QueuedNodes(h[0].arrivals) || exists i: nat, p :: CalledAt(h, i, epoch, now, p, n)
  {
    if j: nat :| RunsAt(h, j, n) {
      AllSane(h, j, epoch, now);
      assert Popped(h[j]) in h[j].arrivals;
      var i, p := RunsBecause(h, j, epoch, now, n);
    }
    if n in QueuedNodes(h[0].arrivals) {
      var j := QueuedRuns(h, 0, epoch, now, n);
    } else if i: nat, p :| CalledAt(h, i, epoch, now, p, n) {
      var j := CalledRuns(h, i, epoch, now, base, p, n);
    }
  }

  // ----- what a node sees of its inputs

  lemma {:induction false} CellStays<V>(h: seq<Machine<V>>, i: nat, j: nat, epoch: nat, now: Instant, p: NodeIndex)
    requires Draining(h, epoch, now) && i <= j < |h| && p in h[i].cells
    requires forall k :: i <= k < j ==> !RunsAt(h, k, p)
    ensures p in h[j].cells && h[j].cells[p] == h[i].cells[p]
  {
    if i < j {
      CellStays(h, i, j - 1, epoch, now, p);
      assert Follows(h, j - 1, epoch, now) && !RunsAt(h, j - 1, p);
    }
  }

  lemma MutatedNext<V>(m: Machine<V>, epoch: nat, now: Instant, p: NodeIndex)
    requires Runnable(m) && p in m.cells
    ensures p in Next(m, epoch, now).cells
    ensures Next(m, epoch, now).cells[p].mutEpoch == if Calls(m, epoch, now, p) then epoch else m.cells[p].mutEpoch
  {
  }

  ghost predicate BroadcastBefore<V>(h: seq<Machine<V>>, k: nat, epoch: nat, now: Instant, p: NodeIndex) {
    exists j: nat :: j < k && BroadcastsAt(h, j, epoch, now, p)
  }

  lemma BroadcastMore<V>(h: seq<Machine<V>>, k: nat, epoch: nat, now: Instant, p: NodeIndex)
    requires 0 < k < |h| && Runnable(h[k - 1])
    ensures BroadcastBefore(h, k, epoch, now, p) <==> BroadcastBefore(h, k - 1, epoch, now, p) || Calls(h[k - 1], epoch, now, p)
  {
    assert BroadcastsAt(h, k - 1, epoch, now, p) <==> Calls(h[k - 1], epoch, now, p);
  }

  /** A cell carries the epoch of the drain exactly if its node has broadcast in it. */
  lemma {:induction false} MutatedIff<V>(h: seq<Machine<V>>, k: nat, epoch: nat, now: Instant, p: NodeIndex)
    requires Draining(h, epoch, now) && k < |h| && p in h[0].cells && h[0].cells[p].mutEpoch < epoch
    ensures p in h[k].cells && (h[k].cells[p].mutEpoch == epoch <==> BroadcastBefore(h, k, epoch, now, p))
  {
    if k > 0 {
      MutatedIff(h, k - 1, epoch, now, p);
      assert Follows(h, k - 1, epoch, now);
      BroadcastMore(h, k, epoch, now, p);
      MutatedNext(h[k - 1], epoch, now, p);
    }
  }

  /** The data and the flags a node is shown, when it runs in iteration `i`, of a parent that is an input. */
  lemma InputIsFinal<V>(h: seq<Machine<V>>, i: nat, epoch: nat, now: Instant, n: NodeIndex, p: NodeIndex)
    requires Draining(h, epoch, now) && RunsAt(h, i, n) && n in h[0].net.nodes && p in h[0].net.nodes[n].inputs
    requires p in h[0].cells && h[0].cells[p].mutEpoch < epoch
    ensures p in h[i].cells && p in h[|h| - 1].cells && h[i].cells[p].data == h[|h| - 1].cells[p].data
    ensures h[i].cells[p].mutEpoch == epoch <==> exists j: nat :: BroadcastsAt(h, j, epoch, now, p)
  {
    forall j: nat | RunsAt(h, j, p)
      ensures j < i
    {
      RunsAtDepth(h, j, epoch, now, p);
      assert HasEdge(h[0].net, p, n);
      ParentsFirst(h, i, j, epoch, now, p, n);
    }
    MutatedIff(h, i, epoch, now, p);
    CellStays(h, i, |h| - 1, epoch, now, p);
  }

  /** In any drain, when a node's function runs, it sees each input as it will be at the end of the
      drain, and `has_mutated` holds exactly for the inputs that broadcast in it. */
  lemma SeesThisDrain<V>(h: seq<Machine<V>>, i: nat, epoch: nat, now: Instant, n: NodeIndex) returns (view: View<V>)
    requires Draining(h, epoch, now) && forall c :: c in h[0].cells ==> h[0].cells[c].mutEpoch < epoch
    requires RunsAt(h, i, n) && RanNow(h[i], epoch, now).Did?
    ensures n in h[0].net.nodes && n in h[i].cells && view.epoch == epoch && view.now == now
    ensures RanNow(h[i], epoch, now).out == h[0].net.nodes[n].cycleFn(h[i].cells[n].data, view)
    ensures forall p :: p in view.data ==> p in h[0].net.nodes[n].inputs
    ensures forall p :: p in h[0].net.nodes[n].inputs && p in h[0].cells ==>
      p in view.data && p in h[|h| - 1].cells && view.data[p] == h[|h| - 1].cells[p].data
    ensures forall p :: p in view.mutated <==>
      p in h[0].net.nodes[n].inputs && p in h[0].cells && exists j: nat :: BroadcastsAt(h, j, epoch, now, p)
  {
    RunsAtDepth(h, i, epoch, now, n);
    AllSane(h, i, epoch, now);
    DrainKeepsCells(h, i, epoch, now);
    assert SameWiring(h[0].net.nodes[n], h[i].net.nodes[n]);
    view := ViewOf(h[i].net.nodes[n].inputs, h[i].cells, epoch, now);
    forall p | p in h[0].net.nodes[n].inputs && p in h[0].cells {
      InputIsFinal(h, i, epoch, now, n, p);
    }
  }

  /** What the function returns is the node's data from then on, whatever its control result. */
  lemma StoresItsData<V>(h: seq<Machine<V>>, i: nat, epoch: nat, now: Instant, n: NodeIndex)
    requires Draining(h, epoch, now) && RunsAt(h, i, n) && RanNow(h[i], epoch, now).Did?
    ensures n in h[i + 1].cells && h[i + 1].cells[n].data == RanNow(h[i], epoch, now).out.data
  {
    assert Follows(h, i, epoch, now);
  }

  lemma DrainSees<V>(start: Machine<V>, epoch: nat, rec: Record<V>, i: nat, n: NodeIndex) returns (view: View<V>)
    requires Drained(start, epoch, rec) && forall c :: c in start.cells ==> start.cells[c].mutEpoch < epoch
    requires RunsAt(rec.history, i, n) && RanNow(rec.history[i], epoch, rec.now).Did?
    ensures n in start.net.nodes && n in rec.history[i].cells && view.epoch == epoch && view.now == rec.now
    ensures RanNow(rec.history[i], epoch, rec.now).out == start.net.nodes[n].cycleFn(rec.history[i].cells[n].data, view)
    ensures forall p :: p in start.net.nodes[n].inputs && p in start.cells ==>
      p in view.data && p in LastOf(rec).cells && view.data[p] == LastOf(rec).cells[p].data
    ensures forall p :: p in view.mutated <==>
      p in start.net.nodes[n].inputs && p in start.cells && exists j: nat :: BroadcastsAt(rec.history, j, epoch, rec.now, p)
  {
    view := SeesThisDrain(rec.history, i, epoch, rec.now, n);
  }

  lemma NothingMutatedYet<V>(s: Snapshot<V>, polled: seq<NodeIndex>, start: Machine<V>, epoch: nat)
    requires Standing(s) && PollLeads(s, polled, start) && epoch == s.epoch + 1
    ensures start.cells == s.machine.cells && forall c :: c in start.cells ==> start.cells[c].mutEpoch < epoch
    ensures SameShape(s.machine.net, start.net)
  {
    StartOfCycle(s, polled, start);
  }

  /** The same for every cycle of a run. */
  lemma SeesThisCycle<V>(s: Snapshot<V>, polled: seq<NodeIndex>, start: Machine<V>, rec: Record<V>, epoch: nat, i: nat, n: NodeIndex) returns (view: View<V>)
    requires Begun(s, polled, start, rec) && epoch == s.epoch + 1
    requires RunsAt(rec.history, i, n) && RanNow(rec.history[i], epoch, rec.now).Did?
    ensures n in s.machine.net.nodes && n in rec.history[i].cells && view.epoch == epoch && view.now == rec.now
    ensures RanNow(rec.history[i], epoch, rec.now).out == s.machine.net.nodes[n].cycleFn(rec.history[i].cells[n].data, view)
    ensures forall p :: p in s.machine.net.nodes[n].inputs && p in s.machine.cells ==>
      p in view.data && p in LastOf(rec).cells && view.data[p] == LastOf(rec).cells[p].data
    ensures forall p :: p in view.mutated <==>
      p in s.machine.net.nodes[n].inputs && p in s.machine.cells && exists j: nat :: BroadcastsAt(rec.history, j, epoch, rec.now, p)
  {
    NothingMutatedYet(s, polled, start, epoch);
    view := DrainSees(start, epoch, rec, i, n);
    assert SameWiring(s.machine.net.nodes[n], start.net.nodes[n]);
  }

  // ----- from the build to every later run

  lemma WiringNext<V>(ss: seq<Snapshot<V>>, moves: seq<Move<V>>, i: nat, n: NodeIndex)
    requires History(ss, moves) && i < |moves| && n in ss[i].machine.net.nodes && n in ss[i + 1].machine.net.nodes
    ensures SameWiring(ss[i].machine.net.nodes[n], ss[i + 1].machine.net.nodes[n])
  {
    assert MovesAt(ss, moves, i);
    KeepsWiring(ss[i], moves[i], ss[i + 1], n);
  }

  /** A node keeps what it was built with, over any run. */
  lemma {:induction false} WiringStays<V>(ss: seq<Snapshot<V>>, moves: seq<Move<V>>, i: nat, k: nat, n: NodeIndex)
    requires History(ss, moves) && i <= k <= |moves| && forall j :: i <= j <= k ==> n in ss[j].machine.net.nodes
    ensures SameWiring(ss[i].machine.net.nodes[n], ss[k].machine.net.nodes[n])
  {
    if i < k {
      WiringStays(ss, moves, i, k - 1, n);
      WiringNext(ss, moves, k - 1, n);
    }
  }

  /** Whenever a node runs after it has been built, its function is the one it was built with, and it is
      shown the data of every parent it was declared with, triggering or observed, whose handle it captured. */
  lemma BuiltNodeSees<V>(
    ss: seq<Snapshot<V>>, moves: seq<Move<V>>, i: nat, k: nat, bp: Blueprint<V>, n: NodeIndex, x: nat, r: Relation) returns (view: View<V>)
    requires History(ss, moves) && i <= k < |moves| && forall j :: i <= j <= k ==> n in ss[j].machine.net.nodes
    requires AsDeclared(bp, n, ss[i].machine.net.nodes[n]) && r in bp.relations && r.parent in bp.captures
    requires moves[k].Cycled? && RunsAt(moves[k].rec.history, x, n) && RanNow(moves[k].rec.history[x], ss[k].epoch + 1, moves[k].rec.now).Did?
    ensures n in moves[k].rec.history[x].cells
    ensures RanNow(moves[k].rec.history[x], ss[k].epoch + 1, moves[k].rec.now).out == bp.cycleFn(moves[k].rec.history[x].cells[n].data, view)
    ensures r.parent in view.data && r.parent in LastOf(moves[k].rec).cells && view.data[r.parent] == LastOf(moves[k].rec).cells[r.parent].data
  {
    WiringStays(ss, moves, i, k, n);
    assert MovesAt(ss, moves, k);
    view := DeclaredSees(ss[k], moves[k].polled, moves[k].start, moves[k].rec, ss[k].epoch + 1, bp, n, x, r);
  }

  lemma DeclaredSees<V>(
    s: Snapshot<V>, polled: seq<NodeIndex>, start: Machine<V>, rec: Record<V>, epoch: nat, bp: Blueprint<V>, n: NodeIndex, x: nat, r: Relation)
    returns (view: View<V>)
    requires Begun(s, polled, start, rec) && epoch == s.epoch + 1 && n in s.machine.net.nodes
    requires s.machine.net.nodes[n].cycleFn == bp.cycleFn && r.parent in s.machine.net.nodes[n].inputs
    requires RunsAt(rec.history, x, n) && RanNow(rec.history[x], epoch, rec.now).Did?
    ensures n in rec.history[x].cells
    ensures RanNow(rec.history[x], epoch, rec.now).out == bp.cycleFn(rec.history[x].cells[n].data, view)
    ensures r.parent in view.data && r.parent in LastOf(rec).cells && view.data[r.parent] == LastOf(rec).cells[r.parent].data
  {
    InputHasCell(s, n, r.parent);
    view := SeesThisCycle(s, polled, start, rec, epoch, x, n);
  }

  lemma InputHasCell<V>(s: Snapshot<V>, n: NodeIndex, p: NodeIndex)
    requires Standing(s) && n in s.machine.net.nodes && p in s.machine.net.nodes[n].inputs
    ensures p in s.machine.cells
  {
    assert p in s.machine.net.nodes[n].captures;
  }
}
