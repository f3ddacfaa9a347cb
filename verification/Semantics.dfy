/** What one execution cycle means, independently of any queue: a set of local
    equations over the dependency graph. The equations have exactly one
    solution; the engine and a single pass in any topological order find it. */
module Semantics {
  import opened Types

  ghost predicate HasEdge<V>(net: Net<V>, p: NodeIndex, c: NodeIndex) {
    p in net.adj && exists e :: e in net.adj[p] && e.target == c
  }

  ghost predicate TriggerEdge<V>(net: Net<V>, p: NodeIndex, c: NodeIndex) {
    p in net.adj && Edge(c, Trigger) in net.adj[p]
  }

  /** Edges join live nodes and go strictly deeper; every declared input that is
      still in the graph has its edge. */
  ghost predicate Wellformed<V>(net: Net<V>) {
    && net.adj.Keys == net.nodes.Keys
    && (forall p, c :: HasEdge(net, p, c) ==> c in net.nodes && net.nodes[p].depth < net.nodes[c].depth)
    && (forall c, p :: c in net.nodes && p in net.nodes[c].inputs && p in net.nodes ==> HasEdge(net, p, c))
  }

  /** Everything a cycle starts from once its event sources have been polled. */
  datatype Start<!V> = Start(
    net: Net<V>,
    cells: map<NodeIndex, NodeInner<V>>,
    seeds: set<NodeIndex>,
    epoch: nat,
    now: Instant)

  /** What happened to a node that ran: the engine swept it without calling the
      user's function, or the function was called. */
  datatype Ran<!V> = Swept | Did(out: Outcome<V>)

  function ControlOf<V>(r: Ran<V>): Control {
    match r
    case Swept => Sweep
    case Did(out) => out.control
  }

  function Updated<V>(cell: NodeInner<V>, r: Ran<V>, epoch: nat): NodeInner<V> {
    match r
    case Swept => cell
    case Did(out) => cell.(data := out.data, mutEpoch := if out.control == Broadcast then epoch else cell.mutEpoch)
  }

  /** A node whose data changes only when it broadcasts (or is swept). */
  ghost predicate Honest<V(!new)>(f: CycleFn<V>) {
    forall d, view :: f(d, view).control != Broadcast && f(d, view).control != Sweep ==> f(d, view).data == d
  }

  ghost function CellsAfter<V>(start: Start<V>, ran: map<NodeIndex, Ran<V>>): map<NodeIndex, NodeInner<V>> {
    map n | n in start.cells ::
      if n in ran then Updated(start.cells[n], ran[n], start.epoch) else start.cells[n]
  }

  function ViewOf<V>(inputs: set<NodeIndex>, cells: map<NodeIndex, NodeInner<V>>, epoch: nat, now: Instant): View<V> {
    View((map p | p in inputs && p in cells :: cells[p].data),
         (set p | p in inputs && p in cells && cells[p].mutEpoch == epoch),
         epoch, now)
  }

  /** `p`, having run, wakes its child `c`. */
  ghost predicate Wakes<V>(net: Net<V>, p: NodeIndex, r: Ran<V>, c: NodeIndex) {
    || (ControlOf(r) == Broadcast && TriggerEdge(net, p, c))
    || (ControlOf(r) == Sweep && HasEdge(net, p, c))
  }

  ghost predicate Due<V>(start: Start<V>, ran: map<NodeIndex, Ran<V>>, n: NodeIndex) {
    && n in start.net.nodes
    && (n in start.seeds || exists p :: p in ran && Wakes(start.net, p, ran[p], n))
  }

  /** The node is swept without running user code: it was poisoned already, a
      parent was swept in this cycle, or its last handle is gone. */
  ghost predicate Doomed<V>(start: Start<V>, ran: map<NodeIndex, Ran<V>>, n: NodeIndex)
    requires n in start.net.nodes
  {
    || start.net.nodes[n].poisoned
    || n !in start.cells
    || exists p :: p in ran && ControlOf(ran[p]) == Sweep && HasEdge(start.net, p, n)
  }

  ghost function Fire<V>(start: Start<V>, ran: map<NodeIndex, Ran<V>>, n: NodeIndex): Ran<V>
    requires n in start.net.nodes
  {
    if Doomed(start, ran, n) then Swept
    else
      var ctx := start.net.nodes[n];
      Did(ctx.cycleFn(start.cells[n].data, ViewOf(ctx.inputs, CellsAfter(start, ran), start.epoch, start.now)))
  }

  /** The cycle's equations: the nodes that ran are exactly those due, and each
      did what it does when it sees the final state of its parents. */
  ghost predicate Solves<V>(start: Start<V>, ran: map<NodeIndex, Ran<V>>) {
    && (forall n :: n in ran <==> Due(start, ran, n))
    && (forall n :: n in ran ==> ran[n] == Fire(start, ran, n))
  }

  /** A cycle under way: `ran` is settled, `queued` is due but has not run. */
  ghost predicate Partial<V>(start: Start<V>, ran: map<NodeIndex, Ran<V>>, queued: set<NodeIndex>) {
    && ran.Keys !! queued
    && (forall n :: n in ran || n in queued <==> Due(start, ran, n))
    && (forall n :: n in ran ==> ran[n] == Fire(start, ran, n))
  }

  ghost function WokenBy<V>(net: Net<V>, n: NodeIndex, r: Ran<V>): set<NodeIndex> {
    set c | c in net.nodes && Wakes(net, n, r, c)
  }

  // ----- one step of a partial cycle

  /** Running a node that is no parent of a settled node leaves what the settled nodes did valid. */
  lemma FireFrame<V>(start: Start<V>, ran: map<NodeIndex, Ran<V>>, n: NodeIndex, r: Ran<V>, m: NodeIndex)
    requires Wellformed(start.net)
    requires n in start.net.nodes && n !in ran && m in start.net.nodes
    requires !HasEdge(start.net, n, m)
    ensures Fire(start, ran[n := r], m) == Fire(start, ran, m)
  {
    var ran' := ran[n := r];
    assert Doomed(start, ran', m) <==> Doomed(start, ran, m) by {
      if p :| p in ran && ControlOf(ran[p]) == Sweep && HasEdge(start.net, p, m) {
        assert p in ran' && ran'[p] == ran[p];
      }
      if p :| p in ran' && ControlOf(ran'[p]) == Sweep && HasEdge(start.net, p, m) {
        assert p != n;
        assert p in ran && ran'[p] == ran[p];
      }
    }
    var inputs := start.net.nodes[m].inputs;
    assert n !in inputs;
    var c, c' := CellsAfter(start, ran), CellsAfter(start, ran');
    assert forall p :: p in c && p != n ==> c[p] == c'[p];
    ViewAgree(inputs, c, c', start.epoch, start.now);
  }

  lemma ViewAgree<V>(inputs: set<NodeIndex>, a: map<NodeIndex, NodeInner<V>>, b: map<NodeIndex, NodeInner<V>>, epoch: nat, now: Instant)
    requires forall p :: p in inputs ==> (p in a <==> p in b) && (p in a ==> a[p] == b[p])
    ensures ViewOf(inputs, a, epoch, now) == ViewOf(inputs, b, epoch, now)
  {
  }

  /** The engine's step: run one queued node none of whose children has run. */
  lemma PartialStep<V>(start: Start<V>, ran: map<NodeIndex, Ran<V>>, queued: set<NodeIndex>, n: NodeIndex)
    requires Wellformed(start.net) && Partial(start, ran, queued)
    requires n in queued
    requires forall m :: m in ran ==> !HasEdge(start.net, n, m)
    ensures n in start.net.nodes
    ensures
      var r := Fire(start, ran, n);
      var ran' := ran[n := r];
      Partial(start, ran', (queued - {n}) + (WokenBy(start.net, n, r) - ran'.Keys))
  {
    assert Due(start, ran, n);
    var r := Fire(start, ran, n);
    var ran' := ran[n := r];
    var queued' := (queued - {n}) + (WokenBy(start.net, n, r) - ran'.Keys);
    assert !HasEdge(start.net, n, n);
    forall m | m in ran'
      ensures m in start.net.nodes && ran'[m] == Fire(start, ran', m)
    {
      if m in ran { assert Due(start, ran, m); }
      FireFrame(start, ran, n, r, m);
    }
    forall m
      ensures m in ran' || m in queued' <==> Due(start, ran', m)
    {
      if Due(start, ran, m) {
        if m !in start.seeds {
          var p :| p in ran && Wakes(start.net, p, ran[p], m);
          assert p in ran' && Wakes(start.net, p, ran'[p], m);
        }
        assert Due(start, ran', m);
      }
      if Wakes(start.net, n, r, m) && m in start.net.nodes {
        assert n in ran' && Wakes(start.net, n, ran'[n], m);
        assert Due(start, ran', m);
      }
      if Due(start, ran', m) && !Due(start, ran, m) {
        var p :| p in ran' && Wakes(start.net, p, ran'[p], m);
        assert p == n;
      }
    }
  }

  // ----- the solution is unique

  /** By induction on depth: two solutions agree on every node. */
  lemma {:induction false} SolutionsAgreeAt<V>(start: Start<V>, a: map<NodeIndex, Ran<V>>, b: map<NodeIndex, Ran<V>>, n: NodeIndex)
    requires Wellformed(start.net) && Solves(start, a) && Solves(start, b)
    requires n in start.net.nodes
    ensures n in a <==> n in b
    ensures n in a ==> a[n] == b[n]
    decreases start.net.nodes[n].depth
  {
    forall p | HasEdge(start.net, p, n)
      ensures p in a <==> p in b
      ensures p in a ==> a[p] == b[p]
    {
      SolutionsAgreeAt(start, a, b, p);
    }
    DueAgree(start, a, b, n);
    DueAgree(start, b, a, n);
    if n in a {
      FireAgree(start, a, b, n);
    }
  }

  lemma DueAgree<V>(start: Start<V>, a: map<NodeIndex, Ran<V>>, b: map<NodeIndex, Ran<V>>, n: NodeIndex)
    requires forall p :: p in a && HasEdge(start.net, p, n) ==> p in b && a[p] == b[p]
    ensures Due(start, a, n) ==> Due(start, b, n)
  {
  }

  lemma FireAgree<V>(start: Start<V>, a: map<NodeIndex, Ran<V>>, b: map<NodeIndex, Ran<V>>, n: NodeIndex)
    requires Wellformed(start.net) && n in start.net.nodes
    requires forall p :: p in a ==> p in start.net.nodes
    requires forall p :: p in b ==> p in start.net.nodes
    requires forall p :: HasEdge(start.net, p, n) ==> (p in a <==> p in b) && (p in a ==> a[p] == b[p])
    ensures Fire(start, a, n) == Fire(start, b, n)
  {
    var ctx := start.net.nodes[n];
    var ca, cb := CellsAfter(start, a), CellsAfter(start, b);
    forall p | p in ctx.inputs
      ensures (p in ca <==> p in cb) && (p in ca ==> ca[p] == cb[p])
    {
      if p in start.net.nodes { assert HasEdge(start.net, p, n); }
    }
    ViewAgree(ctx.inputs, ca, cb, start.epoch, start.now);
  }

  /** A cycle's result does not depend on any order: its equations have at most one solution. */
  lemma SolutionUnique<V>(start: Start<V>, a: map<NodeIndex, Ran<V>>, b: map<NodeIndex, Ran<V>>)
    requires Wellformed(start.net) && Solves(start, a) && Solves(start, b)
    ensures a == b
  {
    forall n | n in start.net.nodes
      ensures n in a <==> n in b
      ensures n in a ==> a[n] == b[n]
    {
      SolutionsAgreeAt(start, a, b, n);
    }
    assert forall n :: n in a ==> Due(start, a, n);
    assert forall n :: n in b ==> Due(start, b, n);
    assert a.Keys == b.Keys;
  }

  // ----- the reference: a single pass in a topological order

  /** Every live node once, no node before one of its parents. */
  ghost predicate TopologicalOrder<V>(net: Net<V>, order: seq<NodeIndex>) {
    && (forall n :: n in net.nodes <==> n in order)
    && (forall i, j :: 0 <= i < j < |order| ==> order[i] != order[j] && !HasEdge(net, order[j], order[i]))
  }

  /** Visit the first `k` nodes of the order; a node that is due when visited runs, once. */
  ghost function Pass<V>(start: Start<V>, order: seq<NodeIndex>, k: nat): map<NodeIndex, Ran<V>>
    requires k <= |order|
  {
    if k == 0 then map[]
    else
      var ran := Pass(start, order, k - 1);
      var n := order[k - 1];
      if Due(start, ran, n) then ran[n := Fire(start, ran, n)] else ran
  }

  ghost function OnePass<V>(start: Start<V>, order: seq<NodeIndex>): map<NodeIndex, Ran<V>> {
    Pass(start, order, |order|)
  }

  ghost function Pending<V>(start: Start<V>, ran: map<NodeIndex, Ran<V>>): set<NodeIndex> {
    set n | n in start.net.nodes && Due(start, ran, n) && n !in ran
  }

  /** After `k` visits the pass is a partial cycle that has nothing left to do among the visited. */
  ghost predicate Visited<V>(start: Start<V>, order: seq<NodeIndex>, k: nat, ran: map<NodeIndex, Ran<V>>)
    requires k <= |order|
  {
    && Partial(start, ran, Pending(start, ran))
    && (forall n :: n in ran ==> exists i :: 0 <= i < k && order[i] == n)
    && (forall i :: 0 <= i < k ==> order[i] !in Pending(start, ran))
  }

  lemma VisitStep<V>(start: Start<V>, order: seq<NodeIndex>, k: nat, ran: map<NodeIndex, Ran<V>>)
    requires Wellformed(start.net) && TopologicalOrder(start.net, order) && k < |order|
    requires Visited(start, order, k, ran) && Due(start, ran, order[k])
    ensures Visited(start, order, k + 1, ran[order[k] := Fire(start, ran, order[k])])
  {
    var n := order[k];
    forall m | m in ran
      ensures m != n && !HasEdge(start.net, n, m)
    {
      var i :| 0 <= i < k && order[i] == m;
    }
    PartialStep(start, ran, Pending(start, ran), n);
    var r := Fire(start, ran, n);
    var ran' := ran[n := r];
    assert Pending(start, ran') == (Pending(start, ran) - {n}) + (WokenBy(start.net, n, r) - ran'.Keys);
    forall i | 0 <= i < k + 1
      ensures order[i] !in Pending(start, ran')
    {
      if i < k {
        assert !HasEdge(start.net, n, order[i]);
        WakingNeedsEdge(start.net, n, r, order[i]);
      }
    }
  }

  lemma WakingNeedsEdge<V>(net: Net<V>, p: NodeIndex, r: Ran<V>, c: NodeIndex)
    ensures Wakes(net, p, r, c) ==> HasEdge(net, p, c)
  {
  }

  lemma {:induction false} PassVisits<V>(start: Start<V>, order: seq<NodeIndex>, k: nat)
    requires Wellformed(start.net) && TopologicalOrder(start.net, order) && k <= |order|
    ensures Visited(start, order, k, Pass(start, order, k))
  {
    if k > 0 {
      PassVisits(start, order, k - 1);
      var ran := Pass(start, order, k - 1);
      if Due(start, ran, order[k - 1]) {
        VisitStep(start, order, k - 1, ran);
      }
    }
  }

  /** A single pass in any topological order solves the equations. */
  lemma OnePassSolves<V>(start: Start<V>, order: seq<NodeIndex>)
    requires Wellformed(start.net) && TopologicalOrder(start.net, order)
    ensures Solves(start, OnePass(start, order))
  {
    PassVisits(start, order, |order|);
    var ran := OnePass(start, order);
    forall n | Due(start, ran, n)
      ensures n in ran
    {
      var i :| 0 <= i < |order| && order[i] == n;
    }
  }

  /** Whatever solves the equations is the single pass, for every topological order. */
  lemma SolutionIsOnePass<V>(start: Start<V>, ran: map<NodeIndex, Ran<V>>, order: seq<NodeIndex>)
    requires Wellformed(start.net) && TopologicalOrder(start.net, order) && Solves(start, ran)
    ensures ran == OnePass(start, order)
  {
    OnePassSolves(start, order);
    SolutionUnique(start, ran, OnePass(start, order));
  }

  // ----- such an order exists: the one by depth

  ghost predicate ByDepth<V>(net: Net<V>, nodes: set<NodeIndex>, order: seq<NodeIndex>)
    requires nodes <= net.nodes.Keys
  {
    && (forall n :: n in order <==> n in nodes)
    && (forall i, j :: 0 <= i < j < |order| ==>
      order[i] != order[j] && order[i] in nodes && order[j] in nodes && net.nodes[order[i]].depth <= net.nodes[order[j]].depth)
  }

  lemma {:induction false} Deepest<V>(net: Net<V>, nodes: set<NodeIndex>) returns (deepest: NodeIndex)
    requires nodes <= net.nodes.Keys && nodes != {}
    ensures deepest in nodes && forall n :: n in nodes ==> net.nodes[n].depth <= net.nodes[deepest].depth
    decreases |nodes|
  {
    deepest :| deepest in nodes;
    if nodes != {deepest} {
      assert nodes == nodes - {deepest} + {deepest};
      var other := Deepest(net, nodes - {deepest});
      assert forall n :: n in nodes ==> n == deepest || n in nodes - {deepest};
      if net.nodes[deepest].depth < net.nodes[other].depth { deepest := other; }
    }
  }

  lemma {:induction false} Sorted<V>(net: Net<V>, nodes: set<NodeIndex>) returns (order: seq<NodeIndex>)
    requires nodes <= net.nodes.Keys
    ensures ByDepth(net, nodes, order)
    decreases |nodes|
  {
    order := [];
    if nodes != {} {
      var last := Deepest(net, nodes);
      var pre := Sorted(net, nodes - {last});
      order := pre + [last];
    }
  }

  /** Every well-formed graph has a topological order. */
  lemma OrderExists<V>(net: Net<V>) returns (order: seq<NodeIndex>)
    requires Wellformed(net)
    ensures TopologicalOrder(net, order)
  {
    order := Sorted(net, net.nodes.Keys);
  }

  // ----- how far a cycle under way has got

  /** Settled nodes are no deeper than `floor`, queued ones no shallower. */
  ghost predicate Around<V>(net: Net<V>, ran: map<NodeIndex, Ran<V>>, queued: set<NodeIndex>, floor: nat) {
    && (forall n :: n in ran ==> n in net.nodes && net.nodes[n].depth <= floor)
    && (forall n :: n in queued && n in net.nodes ==> floor <= net.nodes[n].depth)
  }

  /** What has settled so far is part of the solution, and above the floor all of it. */
  lemma {:induction false} PartialAgrees<V>(start: Start<V>, ran: map<NodeIndex, Ran<V>>, queued: set<NodeIndex>, floor: nat, whole: map<NodeIndex, Ran<V>>, n: NodeIndex)
    requires Wellformed(start.net) && Partial(start, ran, queued) && Around(start.net, ran, queued, floor) && Solves(start, whole)
    requires n in start.net.nodes && (n in ran || start.net.nodes[n].depth < floor)
    ensures n in ran <==> n in whole
    ensures n in ran ==> ran[n] == whole[n]
    decreases start.net.nodes[n].depth
  {
    forall p | HasEdge(start.net, p, n)
      ensures p in ran <==> p in whole
      ensures p in ran ==> ran[p] == whole[p]
    {
      PartialAgrees(start, ran, queued, floor, whole, p);
    }
    DueAgree(start, ran, whole, n);
    DueAgree(start, whole, ran, n);
    if n in ran {
      assert forall p :: p in whole ==> Due(start, whole, p);
      FireAgree(start, ran, whole, n);
    }
  }

  // ----- consequences of the equations

  /** The nodes that run are the least set holding the seeds and closed under waking. */
  lemma {:induction false} RanIsLeast<V>(start: Start<V>, ran: map<NodeIndex, Ran<V>>, closed: set<NodeIndex>, n: NodeIndex)
    requires Wellformed(start.net) && Solves(start, ran)
    requires start.seeds * start.net.nodes.Keys <= closed
    requires forall p, c :: p in ran && p in closed && Wakes(start.net, p, ran[p], c) ==> c in closed
    requires n in ran
    ensures n in closed
    decreases if n in start.net.nodes then start.net.nodes[n].depth else 0
  {
    assert Due(start, ran, n);
    if n !in start.seeds {
      var p :| p in ran && Wakes(start.net, p, ran[p], n);
      assert Due(start, ran, p);
      WakingNeedsEdge(start.net, p, ran[p], n);
      RanIsLeast(start, ran, closed, p);
    }
  }

  ghost predicate Path<V>(net: Net<V>, path: seq<NodeIndex>) {
    && |path| > 0
    && (forall i :: 0 <= i < |path| ==> path[i] in net.nodes)
    && (forall i :: 0 <= i < |path| - 1 ==> HasEdge(net, path[i], path[i + 1]))
  }

  /** Everything reachable from a swept node is swept without running user code. */
  lemma {:induction false} SweepReachesDescendants<V>(start: Start<V>, ran: map<NodeIndex, Ran<V>>, path: seq<NodeIndex>)
    requires Wellformed(start.net) && Solves(start, ran)
    requires Path(start.net, path) && |path| > 1
    requires path[0] in ran && ControlOf(ran[path[0]]) == Sweep
    ensures path[|path| - 1] in ran && ran[path[|path| - 1]] == Swept
    decreases |path|
  {
    var k := |path| - 1;
    var p, c := path[k - 1], path[k];
    if k > 1 {
      SweepReachesDescendants(start, ran, path[..k]);
    }
    assert HasEdge(start.net, p, c);
    assert p in ran && ControlOf(ran[p]) == Sweep;
    assert Wakes(start.net, p, ran[p], c);
    assert Due(start, ran, c);
    assert Doomed(start, ran, c);
  }
}
