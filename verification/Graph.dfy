/** The computation graph, and admission of ready nodes: `can_schedule` followed
    by `schedule`, which every event source and every broadcast goes through. */
module Graphs {
  import opened Types
  import opened Scheduling
  import opened Semantics

  // ----- outgoing edges

  function Targets(edges: seq<Edge>, onlyTrigger: bool): (ts: seq<NodeIndex>)
    ensures forall c :: c in ts <==> exists e :: e in edges && e.target == c && (onlyTrigger ==> e.rel == Trigger)
  {
    if edges == [] then []
    else
      var rest := Targets(edges[1..], onlyTrigger);
      assert forall e :: e in edges <==> e == edges[0] || e in edges[1..];
      if onlyTrigger && edges[0].rel != Trigger then rest else [edges[0].target] + rest
  }

  function Unlink(edges: seq<Edge>, n: NodeIndex): (es: seq<Edge>)
    ensures forall e :: e in es <==> e in edges && e.target != n
  {
    if edges == [] then []
    else
      assert forall e :: e in edges <==> e == edges[0] || e in edges[1..];
      (if edges[0].target == n then [] else [edges[0]]) + Unlink(edges[1..], n)
  }

  function Removed<V>(net: Net<V>, n: NodeIndex): Net<V> {
    Net(net.nodes - {n}, map p | p in net.adj && p != n :: Unlink(net.adj[p], n))
  }

  /** Removing a node removes exactly the edges at that node. */
  lemma RemovedEdges<V>(net: Net<V>, n: NodeIndex, p: NodeIndex, c: NodeIndex)
    ensures HasEdge(Removed(net, n), p, c) <==> HasEdge(net, p, c) && p != n && c != n
    ensures TriggerEdge(Removed(net, n), p, c) <==> TriggerEdge(net, p, c) && p != n && c != n
  {
  }

  lemma RemovedWellformed<V>(net: Net<V>, n: NodeIndex)
    requires Wellformed(net)
    ensures Wellformed(Removed(net, n))
  {
    forall p, c { RemovedEdges(net, n, p, c); }
  }

  /** What is left when the nodes of `gone` are removed. */
  ghost predicate Pruned<V>(net0: Net<V>, gone: set<NodeIndex>, net: Net<V>) {
    && Wellformed(net)
    && net.nodes == net0.nodes - gone
    && (forall p, c :: HasEdge(net, p, c) <==> HasEdge(net0, p, c) && p !in gone && c !in gone)
    && (forall p, c :: TriggerEdge(net, p, c) <==> TriggerEdge(net0, p, c) && p !in gone && c !in gone)
  }

  lemma PrunedMore<V>(net0: Net<V>, gone: set<NodeIndex>, net: Net<V>, n: NodeIndex)
    requires Pruned(net0, gone, net)
    ensures Pruned(net0, gone + {n}, Removed(net, n))
  {
    RemovedWellformed(net, n);
    assert net.nodes - {n} == net0.nodes - (gone + {n});
    forall p, c { RemovedEdges(net, n, p, c); }
  }

  // ----- admission

  /** The nodes of `list` carry the epoch afterwards. */
  function Stamp<V>(nodes: map<NodeIndex, NodeContext<V>>, list: seq<NodeIndex>, epoch: nat): map<NodeIndex, NodeContext<V>> {
    map i | i in nodes :: if i in list then nodes[i].(schedEpoch := epoch) else nodes[i]
  }

  /** The entries admitted: first occurrences of live nodes not yet scheduled in this epoch, in order. */
  function Fresh<V>(nodes: map<NodeIndex, NodeContext<V>>, list: seq<NodeIndex>, epoch: nat): seq<Entry> {
    if list == [] then []
    else
      var pre, x := list[..|list| - 1], list[|list| - 1];
      Fresh(nodes, pre, epoch) +
      if x in nodes && nodes[x].schedEpoch != epoch && x !in pre then [Entry(nodes[x].depth, x)] else []
  }

  /** No node is admitted twice, and exactly the eligible ones are admitted, at their depth. */
  lemma {:induction false} FreshSpec<V>(nodes: map<NodeIndex, NodeContext<V>>, list: seq<NodeIndex>, epoch: nat)
    ensures forall e :: e in Fresh(nodes, list, epoch) <==>
      e.node in list && e.node in nodes && nodes[e.node].schedEpoch != epoch && e.depth == nodes[e.node].depth
    ensures DistinctNodes(Fresh(nodes, list, epoch))
  {
    if list != [] {
      var pre, x := list[..|list| - 1], list[|list| - 1];
      FreshSpec(nodes, pre, epoch);
      assert forall y :: y in list <==> y in pre || y == x;
      var g := Fresh(nodes, pre, epoch);
      forall i | 0 <= i < |g|
        ensures g[i].node in pre
      {
        assert g[i] in g;
      }
    }
  }

  /** Admitting one list after another is admitting their concatenation. */
  lemma {:induction false} FreshAppend<V>(nodes: map<NodeIndex, NodeContext<V>>, a: seq<NodeIndex>, b: seq<NodeIndex>, epoch: nat)
    ensures Fresh(nodes, a + b, epoch) == Fresh(nodes, a, epoch) + Fresh(Stamp(nodes, a, epoch), b, epoch)
    ensures Stamp(nodes, a + b, epoch) == Stamp(Stamp(nodes, a, epoch), b, epoch)
  {
    if b == [] {
      assert a + b == a;
    } else {
      var pre, x := b[..|b| - 1], b[|b| - 1];
      FreshAppend(nodes, a, pre, epoch);
      assert (a + b)[..|a + b| - 1] == a + pre;
    }
  }

  class Graph<V> {
    var nodes: map<NodeIndex, NodeContext<V>>
    var adj: map<NodeIndex, seq<Edge>>
    var nextIndex: NodeIndex

    ghost predicate Valid()
      reads this
    {
      && Wellformed(Model())
      && forall n :: n in nodes ==> n < nextIndex
    }

    function Model(): Net<V>
      reads this
    {
      Net(nodes, adj)
    }

    constructor ()
      ensures Valid() && nodes == map[] && nextIndex == 0
    {
      nodes, adj, nextIndex := map[], map[], 0;
    }

    method CanSchedule(n: NodeIndex, epoch: nat) returns (depth: Option<nat>)
      modifies this`nodes
      ensures nodes == Stamp(old(nodes), [n], epoch)
      ensures depth == if n in old(nodes) && old(nodes)[n].schedEpoch != epoch then Some(old(nodes)[n].depth) else None
    {
      if n in nodes {
        var ctx := nodes[n];
        if ctx.schedEpoch == epoch {
          return None;
        }
        nodes := nodes[n := ctx.(schedEpoch := epoch)];
        return Some(ctx.depth);
      }
      return None;
    }

    function TriggeringEdges(n: NodeIndex): seq<NodeIndex>
      reads this
    {
      if n in adj then Targets(adj[n], true) else []
    }

    function Edges(n: NodeIndex): seq<NodeIndex>
      reads this
    {
      if n in adj then Targets(adj[n], false) else []
    }

    method MarkPoisoned(n: NodeIndex)
      requires n in nodes
      modifies this`nodes
      ensures nodes == old(nodes)[n := old(nodes)[n].(poisoned := true)]
    {
      nodes := nodes[n := nodes[n].(poisoned := true)];
    }

    method AddNode(weight: NodeContext<V>) returns (n: NodeIndex)
      modifies this
      ensures n == old(nextIndex) && nextIndex == n + 1
      ensures nodes == old(nodes)[n := weight] && adj == old(adj)[n := []]
    {
      n := nextIndex;
      nextIndex := nextIndex + 1;
      nodes := nodes[n := weight];
      adj := adj[n := []];
    }

    method AddEdge(parent: NodeIndex, child: NodeIndex, rel: Relationship)
      requires parent in adj && child in adj
      modifies this`adj
      ensures adj == old(adj)[parent := [Edge(child, rel)] + old(adj)[parent]]
    {
      adj := adj[parent := [Edge(child, rel)] + adj[parent]];
    }

    /** Returns the removed weight, whose closure the caller drops. */
    method RemoveNode(n: NodeIndex) returns (weight: Option<NodeContext<V>>)
      requires Valid()
      modifies this`nodes, this`adj
      ensures Valid()
      ensures weight == if n in old(nodes) then Some(old(nodes)[n]) else None
      ensures Model() == if n in old(nodes) then Removed(old(Model()), n) else old(Model())
    {
      if n !in nodes {
        return None;
      }
      RemovedWellformed(Model(), n);
      weight := Some(nodes[n]);
      nodes, adj := nodes - {n}, map p | p in adj && p != n :: Unlink(adj[p], n);
    }
  }

  /** Every live node may be scheduled: none is above the floor, each has a queue. */
  ghost predicate Admissible<V>(nodes: map<NodeIndex, NodeContext<V>>, floor: nat, levels: nat) {
    forall n :: n in nodes ==> floor <= nodes[n].depth < levels
  }

  /** Admitting `done` to the given nodes and queue has led to the current ones. */
  ghost predicate Admitted<V>(
    nodes0: map<NodeIndex, NodeContext<V>>, arrivals0: seq<Entry>, done: seq<NodeIndex>, epoch: nat,
    nodes: map<NodeIndex, NodeContext<V>>, arrivals: seq<Entry>)
  {
    && nodes == Stamp(nodes0, done, epoch)
    && arrivals == arrivals0 + Fresh(nodes0, done, epoch)
  }

  lemma AdmittedNone<V>(nodes: map<NodeIndex, NodeContext<V>>, arrivals: seq<Entry>, epoch: nat)
    ensures Admitted(nodes, arrivals, [], epoch, nodes, arrivals)
  {
  }

  /** One admission. The scheduler never refuses it: admitted nodes are not above the current depth. */
  method ScheduleReady<V>(
    graph: Graph<V>, scheduler: Scheduler, n: NodeIndex, epoch: nat,
    ghost nodes0: map<NodeIndex, NodeContext<V>>, ghost arrivals0: seq<Entry>, ghost done: seq<NodeIndex>)
    requires scheduler.Valid() && (n in nodes0 ==> scheduler.currDepth <= nodes0[n].depth < |scheduler.multiQueue|)
    requires Admitted(nodes0, arrivals0, done, epoch, graph.nodes, scheduler.arrivals)
    modifies graph`nodes, scheduler`multiQueue, scheduler`pendingEvents, scheduler`arrivals
    ensures scheduler.Valid() && |scheduler.multiQueue| == |old(scheduler.multiQueue)|
    ensures Admitted(nodes0, arrivals0, done + [n], epoch, graph.nodes, scheduler.arrivals)
  {
    ghost var nodes := graph.nodes;
    FreshAppend(nodes0, done, [n], epoch);
    assert Fresh(nodes, [n], epoch) ==
      if n in nodes && nodes[n].schedEpoch != epoch then [Entry(nodes[n].depth, n)] else [] by {
      assert [n][..0] == [] && Fresh(nodes, [], epoch) == [];
    }
    var depth := graph.CanSchedule(n, epoch);
    if depth.Some? {
      var ok := scheduler.Schedule(n, depth.value);
      assert ok;
    }
  }
}
