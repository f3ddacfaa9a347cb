/** Node lifetime: reference-counted cells, marking on last drop, and the
    collection loop that removes marked nodes while removals mark more. */
module Lifecycle {
  import opened Types
  import opened Semantics
  import opened Graphs

  class GarbageCollector {
    var removalQueue: seq<NodeIndex>

    constructor ()
      ensures removalQueue == []
    {
      removalQueue := [];
    }

    method MarkForSweep(n: NodeIndex)
      modifies this
      ensures removalQueue == old(removalQueue) + [n]
    {
      removalQueue := removalQueue + [n];
    }

    method NextToSweep() returns (n: Option<NodeIndex>)
      modifies this
      ensures n.None? ==> old(removalQueue) == [] && removalQueue == []
      ensures n.Some? ==> old(removalQueue) == [n.value] + removalQueue
    {
      if removalQueue == [] {
        return None;
      }
      n := Some(removalQueue[0]);
      removalQueue := removalQueue[1..];
    }
  }

  /** A cell lives while somebody holds a strong handle; the closures that hold
      one are those of live nodes that captured it. */
  ghost predicate Owned<V>(nodes: map<NodeIndex, NodeContext<V>>, cells: map<NodeIndex, NodeInner<V>>) {
    && (forall c :: c in cells ==> cells[c].external > 0 || cells[c].heldBy != {})
    && (forall c, n :: c in cells && n in cells[c].heldBy ==> n in nodes && c in nodes[n].captures)
    && (forall n, c :: n in nodes && c in nodes[n].captures ==> c in cells && n in cells[c].heldBy)
  }

  /** A live node without a cell is marked for removal. */
  ghost predicate DeadMarked<V>(nodes: map<NodeIndex, NodeContext<V>>, cells: map<NodeIndex, NodeInner<V>>, queue: seq<NodeIndex>) {
    forall n :: n in nodes && n !in cells ==> n in queue
  }

  /** Nobody outside `gone` holds the cell. */
  predicate Orphan<V>(cell: NodeInner<V>, gone: set<NodeIndex>) {
    cell.external == 0 && cell.heldBy <= gone
  }

  /** The cells left when the closures of the nodes in `gone` have been dropped. */
  function Survivors<V>(cells: map<NodeIndex, NodeInner<V>>, gone: set<NodeIndex>): map<NodeIndex, NodeInner<V>> {
    map c | c in cells && !Orphan(cells[c], gone) :: cells[c].(heldBy := cells[c].heldBy - gone)
  }

  /** `gone` holds the marked nodes and every node all of whose strong handles
      are owned by closures of nodes in `gone`. */
  ghost predicate Collectable<V>(nodes: map<NodeIndex, NodeContext<V>>, cells: map<NodeIndex, NodeInner<V>>, marked: seq<NodeIndex>, gone: set<NodeIndex>) {
    && (forall n :: n in marked && n in nodes ==> n in gone)
    && (forall n :: n in nodes && n in cells && Orphan(cells[n], gone) ==> n in gone)
  }

  ghost predicate LeastCollectable<V>(nodes: map<NodeIndex, NodeContext<V>>, cells: map<NodeIndex, NodeInner<V>>, marked: seq<NodeIndex>, gone: set<NodeIndex>) {
    && Collectable(nodes, cells, marked, gone)
    && forall all :: Collectable(nodes, cells, marked, all) ==> gone <= all
  }

  /** One handle of `c` fewer; the cell goes with its last handle. */
  function HandleDropped<V>(cells: map<NodeIndex, NodeInner<V>>, c: NodeIndex): map<NodeIndex, NodeInner<V>>
    requires c in cells && cells[c].external > 0
  {
    var cell := cells[c].(external := cells[c].external - 1);
    if cell.external == 0 && cell.heldBy == {} then cells - {c} else cells[c := cell]
  }

  // ----- handles owned by deferred spawns

  /** A closure can only own handles of cells that exist, and it owns those it hands on. */
  function Owning<V>(d: Deferred<V>, cells: set<NodeIndex>): Deferred<V> {
    Deferred(d.blueprint.(captures := d.blueprint.captures * cells), (d.handles + d.blueprint.captures) * cells)
  }

  function OwningAll<V>(spawns: seq<Deferred<V>>, cells: set<NodeIndex>): seq<Deferred<V>> {
    seq(|spawns|, i requires 0 <= i < |spawns| => Owning(spawns[i], cells))
  }

  /** Every queued spawn owns handles of existing cells only, among them those it hands on. */
  ghost predicate OwnsExisting<V>(spawns: seq<Deferred<V>>, cells: set<NodeIndex>) {
    forall i :: 0 <= i < |spawns| ==> spawns[i].blueprint.captures <= spawns[i].handles <= cells
  }

  /** How many of the queued spawns own a handle of `c`. */
  function Claims<V>(spawns: seq<Deferred<V>>, c: NodeIndex): nat {
    if spawns == [] then 0 else (if c in spawns[0].handles then 1 else 0) + Claims(spawns[1..], c)
  }

  /** The cells with the handles of the queued spawns counted. */
  function Retained<V>(cells: map<NodeIndex, NodeInner<V>>, spawns: seq<Deferred<V>>): map<NodeIndex, NodeInner<V>> {
    map c | c in cells :: cells[c].(external := cells[c].external + Claims(spawns, c))
  }

  /** The handles of the queued spawns are counted. */
  ghost predicate Backed<V>(cells: map<NodeIndex, NodeInner<V>>, spawns: seq<Deferred<V>>) {
    && OwnsExisting(spawns, cells.Keys)
    && forall c :: c in cells ==> Claims(spawns, c) <= cells[c].external
  }

  lemma {:induction false} ClaimedExist<V>(spawns: seq<Deferred<V>>, cells: set<NodeIndex>, c: NodeIndex)
    requires OwnsExisting(spawns, cells) && Claims(spawns, c) > 0
    ensures c in cells
  {
    if c !in spawns[0].handles {
      assert forall i :: 0 <= i < |spawns| - 1 ==> spawns[1..][i] == spawns[i + 1];
      ClaimedExist(spawns[1..], cells, c);
    }
  }

  lemma {:induction false} ClaimsAt<V>(spawns: seq<Deferred<V>>, i: nat, c: NodeIndex)
    requires i < |spawns| && c in spawns[i].handles
    ensures Claims(spawns, c) > 0
  {
    if i > 0 { ClaimsAt(spawns[1..], i - 1, c); }
  }

  /** Counting the queue's handles leaves the cells owned, and backs the queue. */
  lemma RetainedOwned<V>(nodes: map<NodeIndex, NodeContext<V>>, cells: map<NodeIndex, NodeInner<V>>, spawns: seq<Deferred<V>>)
    requires Owned(nodes, cells) && OwnsExisting(spawns, cells.Keys)
    ensures Owned(nodes, Retained(cells, spawns)) && Backed(Retained(cells, spawns), spawns)
  {
  }

  /** No cell that a queued spawn owns a handle of is lost to collection. */
  lemma BackedSurvive<V>(cells: map<NodeIndex, NodeInner<V>>, spawns: seq<Deferred<V>>, gone: set<NodeIndex>)
    requires Backed(cells, spawns)
    ensures Backed(Survivors(cells, gone), spawns)
  {
    forall i, c | 0 <= i < |spawns| && c in spawns[i].handles
      ensures c in Survivors(cells, gone)
    {
      ClaimsAt(spawns, i, c);
    }
  }

  /** The cells when a closure that owned `handles` has been dropped. */
  function Released<V>(cells: map<NodeIndex, NodeInner<V>>, handles: set<NodeIndex>): map<NodeIndex, NodeInner<V>> {
    map c | c in cells && !(c in handles && cells[c].external <= 1 && cells[c].heldBy == {}) ::
      if c in handles && cells[c].external > 0 then cells[c].(external := cells[c].external - 1) else cells[c]
  }

  class NodeStore<V> {
    var cells: map<NodeIndex, NodeInner<V>>

    constructor ()
      ensures cells == map[]
    {
      cells := map[];
    }

    /** Cloning a handle outside the graph. */
    method CloneHandle(c: NodeIndex)
      requires c in cells
      modifies this
      ensures cells == old(cells)[c := old(cells)[c].(external := old(cells)[c].external + 1)]
    {
      cells := cells[c := cells[c].(external := cells[c].external + 1)];
    }

    /** Dropping a handle held outside the graph; the last one drops the cell and marks its node. */
    method DropHandle(gc: GarbageCollector, c: NodeIndex)
      requires c in cells && cells[c].external > 0
      modifies this, gc
      ensures cells == HandleDropped(old(cells), c)
      ensures gc.removalQueue == old(gc.removalQueue) + if c in cells then [] else [c]
    {
      var cell := cells[c].(external := cells[c].external - 1);
      if cell.external == 0 && cell.heldBy == {} {
        cells := cells - {c};
        gc.MarkForSweep(c);
      } else {
        cells := cells[c := cell];
      }
    }

    /** A closure clones the handles of `handles`. */
    method CloneHandles(handles: set<NodeIndex>)
      requires handles <= cells.Keys
      modifies this
      ensures cells.Keys == old(cells.Keys)
      ensures forall c :: c in cells ==>
        cells[c] == old(cells)[c].(external := old(cells)[c].external + if c in handles then 1 else 0)
    {
      var todo := handles;
      while todo != {}
        invariant todo <= handles && cells.Keys == old(cells.Keys)
        invariant forall c :: c in cells ==>
          cells[c] == old(cells)[c].(external := old(cells)[c].external + if c in handles && c !in todo then 1 else 0)
      {
        var c :| c in todo;
        todo := todo - {c};
        CloneHandle(c);
      }
    }

    /** Counts the handles that queued spawns own. */
    method RetainQueued(spawns: seq<Deferred<V>>)
      requires OwnsExisting(spawns, cells.Keys)
      modifies this
      ensures cells == Retained(old(cells), spawns)
    {
      assert spawns[|spawns|..] == [] && Retained(cells, spawns[|spawns|..]) == cells;
      var i: nat := |spawns|;
      while i > 0
        invariant i <= |spawns| && cells == Retained(old(cells), spawns[i..])
      {
        i := i - 1;
        assert spawns[i..][1..] == spawns[i + 1..];
        CloneHandles(spawns[i].handles);
        assert cells == Retained(old(cells), spawns[i..]);
      }
      assert spawns[0..] == spawns;
    }

    /** A closure that owned `handles` is dropped; cells go with their last handle, their nodes are marked. */
    method DropHandles(gc: GarbageCollector, handles: set<NodeIndex>)
      requires forall c :: c in handles ==> c in cells && cells[c].external > 0
      modifies this, gc
      ensures cells == Released(old(cells), handles)
      ensures old(gc.removalQueue) <= gc.removalQueue
      ensures forall c :: c in gc.removalQueue[|old(gc.removalQueue)|..] <==> c in old(cells) && c !in cells
    {
      ghost var before, queue, marks := cells, gc.removalQueue, [];
      var todo := handles;
      while todo != {}
        invariant todo <= handles && cells == Released(before, handles - todo)
        invariant gc.removalQueue == queue + marks
        invariant forall c :: c in marks <==> c in before && c !in cells
      {
        var c :| c in todo;
        todo := todo - {c};
        DropHandle(gc, c);
        marks := marks + if c in cells then [] else [c];
        assert cells == Released(before, handles - todo);
      }
      assert handles - todo == handles;
      assert gc.removalQueue[|queue|..] == marks;
    }

    /** Dropping the closure of the removed node `n`, handle by handle. */
    method DropClosure(gc: GarbageCollector, n: NodeIndex, captures: set<NodeIndex>)
      requires forall c :: c in cells ==> cells[c].external > 0 || cells[c].heldBy != {}
      requires forall c :: c in captures ==> c in cells
      requires forall c :: c in cells && n in cells[c].heldBy ==> c in captures
      modifies this, gc
      ensures cells == Survivors(old(cells), {n})
      ensures exists marks :: gc.removalQueue == old(gc.removalQueue) + marks && forall c :: c in marks <==> c in old(cells) && c !in cells
    {
      ghost var before, queue := cells, gc.removalQueue;
      ghost var marks := [];
      var todo := captures;
      while todo != {}
        invariant todo <= captures
        invariant forall c :: c in before && c in todo ==> c in cells && cells[c] == before[c]
        invariant forall c :: c in before && c !in todo ==>
          if Orphan(before[c], {n}) then c !in cells else c in cells && cells[c] == before[c].(heldBy := before[c].heldBy - {n})
        invariant cells.Keys <= before.Keys
        invariant gc.removalQueue == queue + marks
        invariant forall c :: c in marks <==> c in before && c !in cells
      {
        var c :| c in todo;
        todo := todo - {c};
        var cell := cells[c].(heldBy := cells[c].heldBy - {n});
        if cell.external == 0 && cell.heldBy == {} {
          cells := cells - {c};
          gc.MarkForSweep(c);
          marks := marks + [c];
        } else {
          cells := cells[c := cell];
        }
      }
    }
  }

  // ----- the collection loop

  /** Collection under way: the nodes of `gone` have been removed and their closures dropped. */
  ghost predicate Sweeping<V>(
    net0: Net<V>, cells0: map<NodeIndex, NodeInner<V>>, marked: seq<NodeIndex>,
    gone: set<NodeIndex>, net: Net<V>, cells: map<NodeIndex, NodeInner<V>>, queue: seq<NodeIndex>)
  {
    && gone <= net0.nodes.Keys
    && Pruned(net0, gone, net)
    && cells == Survivors(cells0, gone)
    && (forall n :: n in marked && n in net.nodes ==> n in queue)
    && (forall c :: c in cells0 && c !in cells && c in net.nodes ==> c in queue)
    && (forall all :: Collectable(net0.nodes, cells0, marked, all) ==>
          gone <= all && forall n :: n in queue && n in net0.nodes ==> n in all)
  }

  lemma SweepingStart<V>(net: Net<V>, cells: map<NodeIndex, NodeInner<V>>, marked: seq<NodeIndex>)
    requires Wellformed(net) && Owned(net.nodes, cells)
    ensures Sweeping(net, cells, marked, {}, net, cells, marked)
  {
    forall c | c in cells
      ensures c in Survivors(cells, {}) && Survivors(cells, {})[c] == cells[c]
    {
      assert cells[c].heldBy - {} == cells[c].heldBy;
    }
    assert Survivors(cells, {}) == cells;
    assert net.nodes == net.nodes - {};
  }

  lemma SweepingStep<V>(
    net0: Net<V>, cells0: map<NodeIndex, NodeInner<V>>, marked: seq<NodeIndex>,
    gone: set<NodeIndex>, net: Net<V>, cells: map<NodeIndex, NodeInner<V>>, queue: seq<NodeIndex>,
    n: NodeIndex, marks: seq<NodeIndex>)
    requires Sweeping(net0, cells0, marked, gone, net, cells, [n] + queue)
    requires n in net.nodes
    requires forall c :: c in marks <==> c in cells && c !in Survivors(cells, {n})
    ensures Sweeping(net0, cells0, marked, gone + {n}, Removed(net, n), Survivors(cells, {n}), queue + marks)
  {
    var gone', cells' := gone + {n}, Survivors(cells, {n});
    PrunedMore(net0, gone, net, n);
    SurvivorsCompose(cells0, gone, n);
    forall all | Collectable(net0.nodes, cells0, marked, all)
      ensures gone' <= all
      ensures forall m :: m in queue + marks && m in net0.nodes ==> m in all
    {
      assert n in [n] + queue;
      forall m | m in marks && m in net0.nodes
        ensures m in all
      {
        assert Orphan(cells0[m], gone');
      }
    }
  }

  lemma SurvivorsCompose<V>(cells: map<NodeIndex, NodeInner<V>>, gone: set<NodeIndex>, n: NodeIndex)
    ensures Survivors(Survivors(cells, gone), {n}) == Survivors(cells, gone + {n})
  {
    var a, b := Survivors(Survivors(cells, gone), {n}), Survivors(cells, gone + {n});
    forall c | c in cells
      ensures c in a <==> c in b
      ensures c in a ==> a[c] == b[c]
    {
      assert cells[c].heldBy - gone - {n} == cells[c].heldBy - (gone + {n});
      assert cells[c].heldBy - gone <= {n} <==> cells[c].heldBy <= gone + {n};
    }
  }

  lemma OwnedSurvivors<V>(nodes: map<NodeIndex, NodeContext<V>>, cells: map<NodeIndex, NodeInner<V>>, gone: set<NodeIndex>)
    requires Owned(nodes, cells)
    ensures Owned(nodes - gone, Survivors(cells, gone))
  {
    var nodes', cells' := nodes - gone, Survivors(cells, gone);
    forall c | c in cells'
      ensures cells'[c].external > 0 || cells'[c].heldBy != {}
    {
      if cells[c].external == 0 {
        var h :| h in cells[c].heldBy && h !in gone;
        assert h in cells'[c].heldBy;
      }
    }
  }

  /** Popping a node that is gone already. */
  lemma SweepingSkip<V>(
    net0: Net<V>, cells0: map<NodeIndex, NodeInner<V>>, marked: seq<NodeIndex>,
    gone: set<NodeIndex>, net: Net<V>, cells: map<NodeIndex, NodeInner<V>>, n: NodeIndex, queue: seq<NodeIndex>)
    requires Sweeping(net0, cells0, marked, gone, net, cells, [n] + queue)
    requires n !in net.nodes
    ensures Sweeping(net0, cells0, marked, gone, net, cells, queue)
  {
  }

  lemma SweepingDone<V>(
    net0: Net<V>, cells0: map<NodeIndex, NodeInner<V>>, marked: seq<NodeIndex>,
    gone: set<NodeIndex>, net: Net<V>, cells: map<NodeIndex, NodeInner<V>>)
    requires Sweeping(net0, cells0, marked, gone, net, cells, [])
    requires DeadMarked(net0.nodes, cells0, marked)
    ensures LeastCollectable(net0.nodes, cells0, marked, gone)
    ensures gone <= net0.nodes.Keys && Pruned(net0, gone, net) && cells == Survivors(cells0, gone)
    ensures forall n :: n in net.nodes ==> n in cells
  {
  }

  lemma FewerNodes<V>(nodes: map<NodeIndex, NodeContext<V>>, n: NodeIndex)
    requires n in nodes
    ensures |nodes - {n}| < |nodes|
  {
    assert (nodes - {n}).Keys == nodes.Keys - {n};
    assert |nodes.Keys - {n}| == |nodes.Keys| - 1;
  }

  /** Removing one marked node that is still in the graph. */
  method SweepNode<V>(
    graph: Graph<V>, store: NodeStore<V>, gc: GarbageCollector, n: NodeIndex, captures: set<NodeIndex>,
    ghost net: Net<V>, ghost cells: map<NodeIndex, NodeInner<V>>, ghost queue: seq<NodeIndex>)
    returns (ghost marks: seq<NodeIndex>)
    requires n in net.nodes && Owned(net.nodes, cells) && captures == net.nodes[n].captures
    requires graph.Valid() && graph.Model() == Removed(net, n) && store.cells == cells && gc.removalQueue == queue
    modifies store, gc
    ensures store.cells == Survivors(cells, {n}) && gc.removalQueue == queue + marks
    ensures forall c :: c in marks <==> c in cells && c !in Survivors(cells, {n})
    ensures Owned(graph.nodes, store.cells)
  {
    store.DropClosure(gc, n, captures);
    marks :| gc.removalQueue == queue + marks && forall c :: c in marks <==> c in cells && c !in store.cells;
    OwnedSurvivors(net.nodes, cells, {n});
  }

  method SweepOne<V>(
    graph: Graph<V>, store: NodeStore<V>, gc: GarbageCollector, n: NodeIndex,
    ghost net0: Net<V>, ghost cells0: map<NodeIndex, NodeInner<V>>, ghost marked: seq<NodeIndex>, ghost gone: set<NodeIndex>)
    returns (ghost gone': set<NodeIndex>)
    requires graph.Valid() && Owned(graph.nodes, store.cells)
    requires Sweeping(net0, cells0, marked, gone, graph.Model(), store.cells, [n] + gc.removalQueue)
    modifies graph`nodes, graph`adj, store, gc
    ensures graph.Valid() && Owned(graph.nodes, store.cells)
    ensures Sweeping(net0, cells0, marked, gone', graph.Model(), store.cells, gc.removalQueue)
    ensures |graph.nodes| < |old(graph.nodes)| || (graph.nodes == old(graph.nodes) && gc.removalQueue == old(gc.removalQueue))
  {
    ghost var net, cells, queue := graph.Model(), store.cells, gc.removalQueue;
    gone' := gone;
    var weight := graph.RemoveNode(n);
    if weight.Some? {
      ghost var marks := SweepNode(graph, store, gc, n, weight.value.captures, net, cells, queue);
      SweepingStep(net0, cells0, marked, gone, net, cells, queue, n, marks);
      FewerNodes(net.nodes, n);
      gone' := gone + {n};
    } else {
      SweepingSkip(net0, cells0, marked, gone, net, cells, n, queue);
    }
  }

  /** Removes exactly the least collectable set, although removals keep marking nodes. */
  method CollectGarbage<V>(graph: Graph<V>, store: NodeStore<V>, gc: GarbageCollector) returns (ghost gone: set<NodeIndex>)
    requires graph.Valid() && Owned(graph.nodes, store.cells)
    requires DeadMarked(graph.nodes, store.cells, gc.removalQueue)
    modifies graph`nodes, graph`adj, store, gc
    ensures graph.Valid() && Owned(graph.nodes, store.cells)
    ensures gc.removalQueue == []
    ensures gone <= old(graph.nodes).Keys && Pruned(old(graph.Model()), gone, graph.Model())
    ensures store.cells == Survivors(old(store.cells), gone)
    ensures LeastCollectable(old(graph.nodes), old(store.cells), old(gc.removalQueue), gone)
    ensures forall n :: n in graph.nodes ==> n in store.cells
  {
    ghost var net0, cells0, marked := graph.Model(), store.cells, gc.removalQueue;
    gone := {};
    SweepingStart(net0, cells0, marked);
    while true
      invariant graph.Valid() && Owned(graph.nodes, store.cells)
      invariant Sweeping(net0, cells0, marked, gone, graph.Model(), store.cells, gc.removalQueue)
      decreases |graph.nodes|, |gc.removalQueue|
    {
      var next := gc.NextToSweep();
      if next.None? {
        break;
      }
      gone := SweepOne(graph, store, gc, next.value, net0, cells0, marked, gone);
    }
    SweepingDone(net0, cells0, marked, gone, graph.Model(), store.cells);
  }
}
