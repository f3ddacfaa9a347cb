/** The drain loop as transitions on values: what running one popped node does
    to the graph, the cells and the queue, and why the loop solves the cycle's equations. */
module Stepping {
  import opened Types
  import opened Scheduling
  import opened Semantics
  import opened Graphs

  /** What running a node produces in the current state of the graph and cells. */
  ghost function FireNow<V>(net: Net<V>, cells: map<NodeIndex, NodeInner<V>>, n: NodeIndex, epoch: nat, now: Instant): Ran<V>
    requires n in net.nodes
  {
    var ctx := net.nodes[n];
    if ctx.poisoned || n !in cells then Swept
    else Did(ctx.cycleFn(cells[n].data, ViewOf(ctx.inputs, cells, epoch, now)))
  }

  /** The children a node's control result reaches. */
  function Children<V>(net: Net<V>, n: NodeIndex, control: Control): seq<NodeIndex> {
    if n !in net.adj then []
    else match control
      case Broadcast => Targets(net.adj[n], true)
      case Sweep => Targets(net.adj[n], false)
      case Unchanged => []
      case Terminate => []
  }

  function Poison<V>(nodes: map<NodeIndex, NodeContext<V>>, list: seq<NodeIndex>): map<NodeIndex, NodeContext<V>> {
    map i | i in nodes :: if i in list then nodes[i].(poisoned := true) else nodes[i]
  }

  function NodesAfter<V>(net: Net<V>, n: NodeIndex, control: Control, epoch: nat): map<NodeIndex, NodeContext<V>> {
    var children := Children(net, n, control);
    Stamp(if control == Sweep then Poison(net.nodes, children) else net.nodes, children, epoch)
  }

  function CellsWith<V>(cells: map<NodeIndex, NodeInner<V>>, n: NodeIndex, r: Ran<V>, epoch: nat): map<NodeIndex, NodeInner<V>> {
    if n in cells then cells[n := Updated(cells[n], r, epoch)] else cells
  }

  lemma ChildrenAreWoken<V>(net: Net<V>, n: NodeIndex, r: Ran<V>)
    requires Wellformed(net)
    ensures forall c :: c in Children(net, n, ControlOf(r)) <==> c in WokenBy(net, n, r)
  {
  }

  /** Poisoning does not change who is admitted. */
  lemma {:induction false} FreshIgnoresPoison<V>(a: map<NodeIndex, NodeContext<V>>, b: map<NodeIndex, NodeContext<V>>, list: seq<NodeIndex>, epoch: nat)
    requires a.Keys == b.Keys
    requires forall n :: n in a ==> a[n].depth == b[n].depth && a[n].schedEpoch == b[n].schedEpoch
    ensures Fresh(a, list, epoch) == Fresh(b, list, epoch)
  {
    if list != [] { FreshIgnoresPoison(a, b, list[..|list| - 1], epoch); }
  }

  // ----- the loop's measure

  ghost function Unstamped<V>(nodes: map<NodeIndex, NodeContext<V>>, epoch: nat): set<NodeIndex> {
    set n | n in nodes && nodes[n].schedEpoch != epoch
  }

  ghost function Outside(s: set<NodeIndex>, list: seq<NodeIndex>): set<NodeIndex> {
    set n | n in s && n !in list
  }

  lemma StampUses<V>(nodes: map<NodeIndex, NodeContext<V>>, list: seq<NodeIndex>, epoch: nat)
    ensures Unstamped(Stamp(nodes, list, epoch), epoch) == Outside(Unstamped(nodes, epoch), list)
  {
  }

  /** Every admission uses up one node not yet scheduled in this epoch. */
  lemma {:induction false} AdmissionUsesUp<V>(nodes: map<NodeIndex, NodeContext<V>>, list: seq<NodeIndex>, epoch: nat)
    ensures |Outside(Unstamped(nodes, epoch), list)| + |Fresh(nodes, list, epoch)| == |Unstamped(nodes, epoch)|
  {
    var all := Unstamped(nodes, epoch);
    var u := Outside(all, list);
    if list == [] {
      assert u == all;
    } else {
      var pre, x := list[..|list| - 1], list[|list| - 1];
      AdmissionUsesUp(nodes, pre, epoch);
      var v := Outside(all, pre);
      assert list == pre + [x];
      if x in v {
        assert u == v - {x};
      } else {
        assert u == v;
      }
    }
  }

  lemma PoisonKeepsUnstamped<V>(nodes: map<NodeIndex, NodeContext<V>>, list: seq<NodeIndex>, epoch: nat)
    ensures Unstamped(Stamp(Poison(nodes, list), list, epoch), epoch) == Unstamped(Stamp(nodes, list, epoch), epoch)
  {
  }

  lemma StepUsesUp<V>(net: Net<V>, n: NodeIndex, control: Control, epoch: nat)
    ensures |Unstamped(NodesAfter(net, n, control, epoch), epoch)| + |Fresh(net.nodes, Children(net, n, control), epoch)|
         == |Unstamped(net.nodes, epoch)|
  {
    AdmissionUsesUp(net.nodes, Children(net, n, control), epoch);
    StampUses(net.nodes, Children(net, n, control), epoch);
    PoisonKeepsUnstamped(net.nodes, Children(net, n, control), epoch);
  }

  // ----- a drain from a fresh poll

  function QueuedNodes(arrivals: seq<Entry>): (q: set<NodeIndex>)
    ensures forall n :: n in q <==> exists e :: e in arrivals && e.node == n
  {
    set e | e in arrivals :: e.node
  }

  ghost predicate EntriesLive<V>(nodes: map<NodeIndex, NodeContext<V>>, arrivals: seq<Entry>) {
    forall e :: e in arrivals ==> e.node in nodes && e.depth == nodes[e.node].depth
  }

  ghost predicate SameWiring<V>(a: NodeContext<V>, b: NodeContext<V>) {
    a.cycleFn == b.cycleFn && a.inputs == b.inputs && a.captures == b.captures && a.depth == b.depth
  }

  ghost predicate PoisonedBy<V>(start: Start<V>, ran: map<NodeIndex, Ran<V>>, n: NodeIndex)
    requires n in start.net.nodes
  {
    start.net.nodes[n].poisoned || exists p :: p in ran && ControlOf(ran[p]) == Sweep && HasEdge(start.net, p, n)
  }

  /** A context mirrors a partial solution: it is stamped when its node is due,
      poisoned when a parent was swept. */
  ghost predicate Mirrors<V>(start: Start<V>, ran: map<NodeIndex, Ran<V>>, queued: set<NodeIndex>, n: NodeIndex, ctx: NodeContext<V>)
    requires n in start.net.nodes
  {
    && SameWiring(ctx, start.net.nodes[n])
    && (ctx.schedEpoch == start.epoch <==> n in ran || n in queued)
    && (ctx.poisoned <==> PoisonedBy(start, ran, n))
  }

  /** The engine's state mirrors a partial solution. */
  ghost predicate Synced<V>(start: Start<V>, ran: map<NodeIndex, Ran<V>>, nodes: map<NodeIndex, NodeContext<V>>, arrivals: seq<Entry>)
  {
    && Wellformed(start.net)
    && Partial(start, ran, QueuedNodes(arrivals))
    && DistinctNodes(arrivals)
    && nodes.Keys == start.net.nodes.Keys
    && (forall n :: n in nodes ==> Mirrors(start, ran, QueuedNodes(arrivals), n, nodes[n]))
  }

  /** Popping and running the first entry is a step of the partial solution. */
  lemma SyncedFire<V>(start: Start<V>, ran: map<NodeIndex, Ran<V>>, nodes: map<NodeIndex, NodeContext<V>>, arrivals: seq<Entry>, n: NodeIndex)
    requires Synced(start, ran, nodes, arrivals)
    requires n in QueuedNodes(arrivals)
    ensures n in start.net.nodes && n in nodes
    ensures FireNow(Net(nodes, start.net.adj), CellsAfter(start, ran), n, start.epoch, start.now) == Fire(start, ran, n)
    ensures CellsWith(CellsAfter(start, ran), n, Fire(start, ran, n), start.epoch)
         == CellsAfter(start, ran[n := Fire(start, ran, n)])
  {
    assert Due(start, ran, n);
    assert Mirrors(start, ran, QueuedNodes(arrivals), n, nodes[n]);
    var r := Fire(start, ran, n);
    var a, b := CellsWith(CellsAfter(start, ran), n, r, start.epoch), CellsAfter(start, ran[n := r]);
    assert a.Keys == b.Keys;
    assert a == b;
  }

  lemma WithoutDistinct(a: seq<Entry>, k: nat)
    requires k < |a| && DistinctNodes(a)
    ensures DistinctNodes(Without(a, k)) && forall e :: e in Without(a, k) ==> e.node != a[k].node
  {
  }

  lemma WithoutMultiset(a: seq<Entry>, k: nat)
    requires k < |a|
    ensures multiset(a) == multiset{a[k]} + multiset(Without(a, k))
  {
    assert a == a[..k] + [a[k]] + a[k + 1..];
  }

  lemma WithoutFirst(arrivals: seq<Entry>)
    requires arrivals != []
    ensures
      var k := First(arrivals);
      && (forall e :: e in Without(arrivals, k) ==> e in arrivals)
      && (forall e :: e in arrivals ==> e == arrivals[k] || e in Without(arrivals, k))
  {
  }

  lemma QueueAfter<V>(net: Net<V>, arrivals: seq<Entry>, list: seq<NodeIndex>, epoch: nat)
    requires arrivals != [] && DistinctNodes(arrivals)
    requires forall e :: e in arrivals ==> e.node in net.nodes && net.nodes[e.node].schedEpoch == epoch
    requires forall c :: c in list ==> c in net.nodes
    ensures
      var k := First(arrivals);
      var arrivals' := Without(arrivals, k) + Fresh(net.nodes, list, epoch);
      && DistinctNodes(arrivals')
      && QueuedNodes(arrivals') == (QueuedNodes(arrivals) - {arrivals[k].node}) +
           (set c | c in list && net.nodes[c].schedEpoch != epoch)
  {
    var k := First(arrivals);
    var w, f := Without(arrivals, k), Fresh(net.nodes, list, epoch);
    WithoutFirst(arrivals);
    WithoutDistinct(arrivals, k);
    FreshSpec(net.nodes, list, epoch);
    forall i, j | 0 <= i < |w| && 0 <= j < |f|
      ensures w[i].node != f[j].node
    {
      assert w[i] in w && f[j] in f;
    }
    var q', q := QueuedNodes(w + f), (QueuedNodes(arrivals) - {arrivals[k].node}) + (set c | c in list && net.nodes[c].schedEpoch != epoch);
    forall c | c in q
      ensures c in q'
    {
      if c in QueuedNodes(arrivals) && c != arrivals[k].node {
        var e :| e in arrivals && e.node == c;
        assert e in w + f;
      } else {
        assert Entry(net.nodes[c].depth, c) in f;
        assert Entry(net.nodes[c].depth, c) in w + f;
      }
    }
    forall c | c in q'
      ensures c in q
    {
      var e :| e in w + f && e.node == c;
      assert e in w || e in f;
    }
  }

  function NextArrivals<V>(net: Net<V>, arrivals: seq<Entry>, control: Control, epoch: nat): seq<Entry>
    requires arrivals != []
  {
    var k := First(arrivals);
    Without(arrivals, k) + Fresh(net.nodes, Children(net, arrivals[k].node, control), epoch)
  }

  ghost function NextQueued<V>(start: Start<V>, ran: map<NodeIndex, Ran<V>>, queued: set<NodeIndex>, n: NodeIndex): set<NodeIndex>
    requires n in start.net.nodes
  {
    var r := Fire(start, ran, n);
    (queued - {n}) + (WokenBy(start.net, n, r) - ran[n := r].Keys)
  }

  /** The queue after the step holds the nodes that are due and have not run. */
  lemma SyncedQueue<V>(start: Start<V>, ran: map<NodeIndex, Ran<V>>, nodes: map<NodeIndex, NodeContext<V>>, arrivals: seq<Entry>, n: NodeIndex, r: Ran<V>)
    requires Synced(start, ran, nodes, arrivals)
    requires arrivals != [] && n == arrivals[First(arrivals)].node
    requires n in start.net.nodes && r == Fire(start, ran, n)
    ensures
      var arrivals' := NextArrivals(Net(nodes, start.net.adj), arrivals, ControlOf(r), start.epoch);
      DistinctNodes(arrivals') && QueuedNodes(arrivals') == NextQueued(start, ran, QueuedNodes(arrivals), n)
  {
    var queued := QueuedNodes(arrivals);
    var net := Net(nodes, start.net.adj);
    var list := Children(net, n, ControlOf(r));
    ChildrenAreWoken(start.net, n, r);
    assert list == Children(start.net, n, ControlOf(r));
    QueuedAreStamped(start, ran, nodes, arrivals);
    QueueAfter(net, arrivals, list, start.epoch);
    WakingNeedsEdge(start.net, n, r, n);
    forall c | c in list
      ensures c in nodes && (nodes[c].schedEpoch != start.epoch <==> c !in ran && c !in queued)
    {
      assert Mirrors(start, ran, queued, c, nodes[c]);
    }
  }

  lemma QueuedAreStamped<V>(start: Start<V>, ran: map<NodeIndex, Ran<V>>, nodes: map<NodeIndex, NodeContext<V>>, arrivals: seq<Entry>)
    requires Synced(start, ran, nodes, arrivals)
    ensures forall e :: e in arrivals ==> e.node in nodes && nodes[e.node].schedEpoch == start.epoch
  {
    forall e | e in arrivals
      ensures e.node in nodes && nodes[e.node].schedEpoch == start.epoch
    {
      assert e.node in QueuedNodes(arrivals) && Due(start, ran, e.node);
      assert Mirrors(start, ran, QueuedNodes(arrivals), e.node, nodes[e.node]);
    }
  }

  /** One iteration of the drain loop keeps the engine's state in step with the equations. */
  lemma SyncedStep<V>(start: Start<V>, ran: map<NodeIndex, Ran<V>>, nodes: map<NodeIndex, NodeContext<V>>, arrivals: seq<Entry>)
    requires Synced(start, ran, nodes, arrivals) && EntriesLive(nodes, arrivals) && arrivals != []
    requires forall m :: m in ran ==> m in nodes && nodes[m].depth <= arrivals[First(arrivals)].depth
    ensures
      var n := arrivals[First(arrivals)].node;
      && n !in ran
      && Due(start, ran, n)
      && var r := Fire(start, ran, n);
         var net := Net(nodes, start.net.adj);
         Synced(start, ran[n := r], NodesAfter(net, n, ControlOf(r), start.epoch),
                NextArrivals(net, arrivals, ControlOf(r), start.epoch))
  {
    var n := arrivals[First(arrivals)].node;
    var queued := QueuedNodes(arrivals);
    NoChildRan(start, ran, nodes, arrivals);
    PartialStep(start, ran, queued, n);
    var r := Fire(start, ran, n);
    SyncedQueue(start, ran, nodes, arrivals, n, r);
    SyncedAllNodes(start, ran, nodes, queued, n, r, NextQueued(start, ran, queued, n));
  }

  lemma SyncedAllNodes<V>(
    start: Start<V>, ran: map<NodeIndex, Ran<V>>, nodes: map<NodeIndex, NodeContext<V>>, queued: set<NodeIndex>,
    n: NodeIndex, r: Ran<V>, queued': set<NodeIndex>)
    requires Wellformed(start.net) && nodes.Keys == start.net.nodes.Keys && n in queued && n !in ran
    requires forall m :: m in nodes ==> Mirrors(start, ran, queued, m, nodes[m])
    requires queued' == (queued - {n}) + (WokenBy(start.net, n, r) - ran[n := r].Keys)
    ensures
      var nodes' := NodesAfter(Net(nodes, start.net.adj), n, ControlOf(r), start.epoch);
      nodes'.Keys == nodes.Keys && forall m :: m in nodes' ==> Mirrors(start, ran[n := r], queued', m, nodes'[m])
  {
    forall m | m in nodes { SyncedNodes(start, ran, nodes, queued, n, r, queued', m); }
  }

  lemma NoChildRan<V>(start: Start<V>, ran: map<NodeIndex, Ran<V>>, nodes: map<NodeIndex, NodeContext<V>>, arrivals: seq<Entry>)
    requires Synced(start, ran, nodes, arrivals) && EntriesLive(nodes, arrivals) && arrivals != []
    requires forall m :: m in ran ==> m in nodes && nodes[m].depth <= arrivals[First(arrivals)].depth
    ensures
      var n := arrivals[First(arrivals)].node;
      n in QueuedNodes(arrivals) && n !in ran && Due(start, ran, n) && forall m :: m in ran ==> !HasEdge(start.net, n, m)
  {
  }

  lemma PoisonStep<V>(start: Start<V>, ran: map<NodeIndex, Ran<V>>, n: NodeIndex, r: Ran<V>)
    requires n !in ran
    ensures forall m :: m in start.net.nodes ==>
      (PoisonedBy(start, ran[n := r], m) <==> PoisonedBy(start, ran, m) || (ControlOf(r) == Sweep && HasEdge(start.net, n, m)))
  {
  }

  /** The contexts after the step, node by node. */
  lemma NodeStep<V>(net: Net<V>, n: NodeIndex, control: Control, epoch: nat, m: NodeIndex)
    requires m in net.nodes
    ensures
      var nodes', list := NodesAfter(net, n, control, epoch), Children(net, n, control);
      && m in nodes' && SameWiring(nodes'[m], net.nodes[m])
      && nodes'[m].schedEpoch == (if m in list then epoch else net.nodes[m].schedEpoch)
      && (nodes'[m].poisoned <==> net.nodes[m].poisoned || (control == Sweep && m in list))
  {
  }

  lemma SyncedNodes<V>(
    start: Start<V>, ran: map<NodeIndex, Ran<V>>, nodes: map<NodeIndex, NodeContext<V>>, queued: set<NodeIndex>,
    n: NodeIndex, r: Ran<V>, queued': set<NodeIndex>, m: NodeIndex)
    requires Wellformed(start.net) && m in nodes && m in start.net.nodes
    requires Mirrors(start, ran, queued, m, nodes[m])
    requires n in queued && n !in ran
    requires queued' == (queued - {n}) + (WokenBy(start.net, n, r) - ran[n := r].Keys)
    ensures
      var nodes' := NodesAfter(Net(nodes, start.net.adj), n, ControlOf(r), start.epoch);
      m in nodes' && Mirrors(start, ran[n := r], queued', m, nodes'[m])
  {
    PoisonStep(start, ran, n, r);
    ChildrenAreWoken(start.net, n, r);
    NodeStep(Net(nodes, start.net.adj), n, ControlOf(r), start.epoch, m);
    assert Children(Net(nodes, start.net.adj), n, ControlOf(r)) == Children(start.net, n, ControlOf(r));
  }

  /** An empty queue means the equations are solved. */
  lemma SyncedDone<V>(start: Start<V>, ran: map<NodeIndex, Ran<V>>, nodes: map<NodeIndex, NodeContext<V>>)
    requires Synced(start, ran, nodes, [])
    ensures Solves(start, ran)
  {
  }
}
