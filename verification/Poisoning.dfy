/** Sweeping as a property of every drain, whatever its queue held at the start:
    poison reaches all children of a swept node within the same drain, and no
    node outlives a parent it reads. */
module Poisoning {
  import opened Types
  import opened Scheduling
  import opened Semantics
  import opened Graphs
  import opened Stepping
  import opened Machines
  import opened Lifecycle

  /** Every node scheduled in this epoch is queued or has been passed; every poisoned
      node is queued or marked; the children of a node marked in this drain are poisoned. */
  ghost predicate PoisonDriven<V>(m: Machine<V>, epoch: nat, base: nat) {
    && (forall c :: c in m.net.nodes && m.net.nodes[c].schedEpoch == epoch ==>
          c in QueuedNodes(m.arrivals) || m.net.nodes[c].depth <= m.floor)
    && (forall c :: c in m.net.nodes && m.net.nodes[c].poisoned ==> c in QueuedNodes(m.arrivals) || c in m.marked)
    && base <= |m.marked|
    && (forall i, c :: base <= i < |m.marked| && HasEdge(m.net, m.marked[i], c) ==>
          c in m.net.nodes && m.net.nodes[c].poisoned)
  }

  /** After a step a node is queued if it was queued and not popped, or has been admitted. */
  lemma StaysQueued<V>(m: Machine<V>, epoch: nat, now: Instant, c: NodeIndex)
    requires Sane(m) && m.arrivals != []
    requires Runnable(m) && c in m.net.nodes
    requires
      || (c in QueuedNodes(m.arrivals) && c != Popped(m).node)
      || (c in Children(m.net, Popped(m).node, ControlOf(RanNow(m, epoch, now))) && m.net.nodes[c].schedEpoch != epoch)
    ensures c in QueuedNodes(Next(m, epoch, now).arrivals)
  {
    var k := First(m.arrivals);
    var list := Children(m.net, Popped(m).node, ControlOf(RanNow(m, epoch, now)));
    var m' := Next(m, epoch, now);
    WithoutFirst(m.arrivals);
    FreshSpec(m.net.nodes, list, epoch);
    if c in QueuedNodes(m.arrivals) && c != Popped(m).node {
      var e :| e in m.arrivals && e.node == c;
      assert e in Without(m.arrivals, k);
      assert e in m'.arrivals;
    } else {
      var e := Entry(m.net.nodes[c].depth, c);
      assert e in Fresh(m.net.nodes, list, epoch);
      assert e in m'.arrivals;
    }
  }

  /** One node's share of the invariant. */
  lemma DrivenNode<V>(m: Machine<V>, epoch: nat, now: Instant, base: nat, c: NodeIndex)
    requires Sane(m) && m.arrivals != [] && PoisonDriven(m, epoch, base) && c in m.net.nodes
    ensures
      var m' := Next(m, epoch, now);
      && c in m'.net.nodes
      && (m'.net.nodes[c].schedEpoch == epoch ==> c in QueuedNodes(m'.arrivals) || m'.net.nodes[c].depth <= m'.floor)
      && (m'.net.nodes[c].poisoned ==> c in QueuedNodes(m'.arrivals) || c in m'.marked)
      && (m.net.nodes[c].poisoned ==> m'.net.nodes[c].poisoned)
  {
    SaneNext(m, epoch, now);
    var e, r := Popped(m), RanNow(m, epoch, now);
    assert e in m.arrivals;
    NodeStep(m.net, e.node, ControlOf(r), epoch, c);
    ChildrenAreWoken(m.net, e.node, r);
    WakingNeedsEdge(m.net, e.node, r, c);
    var list := Children(m.net, e.node, ControlOf(r));
    if c in QueuedNodes(m.arrivals) && c != e.node {
      StaysQueued(m, epoch, now, c);
    } else if c in list && m.net.nodes[c].schedEpoch != epoch {
      StaysQueued(m, epoch, now, c);
    }
  }

  lemma DrivenMark<V>(m: Machine<V>, epoch: nat, now: Instant, base: nat, i: nat, c: NodeIndex)
    requires Sane(m) && m.arrivals != [] && PoisonDriven(m, epoch, base)
    requires base <= i < |Next(m, epoch, now).marked| && HasEdge(Next(m, epoch, now).net, Next(m, epoch, now).marked[i], c)
    ensures c in Next(m, epoch, now).net.nodes && Next(m, epoch, now).net.nodes[c].poisoned
  {
    var m' := Next(m, epoch, now);
    SaneNext(m, epoch, now);
    assert HasEdge(m.net, m'.marked[i], c);
    if i < |m.marked| {
      assert m'.marked[i] == m.marked[i];
      DrivenNode(m, epoch, now, base, c);
    } else {
      MarkedPoisons(m, epoch, now, c);
    }
  }

  lemma DrivenNext<V>(m: Machine<V>, epoch: nat, now: Instant, base: nat)
    requires Sane(m) && m.arrivals != [] && PoisonDriven(m, epoch, base)
    ensures PoisonDriven(Next(m, epoch, now), epoch, base)
  {
    var m' := Next(m, epoch, now);
    SaneNext(m, epoch, now);
    forall c | c in m.net.nodes { DrivenNode(m, epoch, now, base, c); }
    forall i, c | base <= i < |m'.marked| && HasEdge(m'.net, m'.marked[i], c)
      ensures c in m'.net.nodes && m'.net.nodes[c].poisoned
    {
      DrivenMark(m, epoch, now, base, i, c);
    }
  }

  lemma MarkedPoisons<V>(m: Machine<V>, epoch: nat, now: Instant, c: NodeIndex)
    requires Sane(m) && Runnable(m) && ControlOf(RanNow(m, epoch, now)) == Sweep
    requires HasEdge(m.net, Popped(m).node, c)
    ensures c in m.net.nodes && c in Next(m, epoch, now).net.nodes && Next(m, epoch, now).net.nodes[c].poisoned
  {
  }

  lemma StaysPoisoned<V>(h: seq<Machine<V>>, k: nat, epoch: nat, now: Instant, a: NodeIndex)
    requires Machines.Draining(h, epoch, now) && 0 < k < |h| && a in h[k - 1].net.nodes && h[k - 1].net.nodes[a].poisoned
    ensures a in h[k].net.nodes && h[k].net.nodes[a].poisoned
  {
    assert Follows(h, k - 1, epoch, now);
    NodeStep(h[k - 1].net, Popped(h[k - 1]).node, ControlOf(RanNow(h[k - 1], epoch, now)), epoch, a);
  }

  lemma {:induction false} DrivenAt<V>(h: seq<Machine<V>>, k: nat, epoch: nat, now: Instant, base: nat)
    requires Machines.Draining(h, epoch, now) && k < |h| && PoisonDriven(h[0], epoch, base)
    ensures PoisonDriven(h[k], epoch, base)
  {
    if k > 0 {
      DrivenAt(h, k - 1, epoch, now, base);
      AllSane(h, k - 1, epoch, now);
      assert Follows(h, k - 1, epoch, now);
      DrivenNext(h[k - 1], epoch, now, base);
    }
  }

  /** When a drain empties its queue, no poisoned node is left unmarked and every child
      of a node swept in it is marked too. */
  lemma DrainMarksChildren<V>(h: seq<Machine<V>>, epoch: nat, now: Instant, base: nat)
    requires Machines.Draining(h, epoch, now) && PoisonDriven(h[0], epoch, base)
    requires h[|h| - 1].arrivals == []
    ensures
      var m := h[|h| - 1];
      && base <= |m.marked|
      && (forall c :: c in m.net.nodes && m.net.nodes[c].poisoned ==> c in m.marked)
      && (forall i, c :: base <= i < |m.marked| && HasEdge(m.net, m.marked[i], c) ==> c in m.marked)
  {
    DrivenAt(h, |h| - 1, epoch, now, base);
  }

  // ----- collection after the drain

  ghost predicate InputsLive<V>(nodes: map<NodeIndex, NodeContext<V>>) {
    forall n :: n in nodes ==> nodes[n].inputs <= nodes.Keys && nodes[n].inputs <= nodes[n].captures
  }

  /** Those marked before the drain have lost their cell. */
  ghost predicate MarkedDead<V>(nodes: map<NodeIndex, NodeContext<V>>, cells: map<NodeIndex, NodeInner<V>>, marked: seq<NodeIndex>) {
    forall n :: n in marked && n in nodes ==> n !in cells
  }

  /** A node that survives collection keeps every parent it reads. */
  lemma InputsSurvive<V>(net: Net<V>, cells: map<NodeIndex, NodeInner<V>>, marked: seq<NodeIndex>, base: nat, gone: set<NodeIndex>)
    requires Wellformed(net) && Owned(net.nodes, cells) && InputsLive(net.nodes)
    requires base <= |marked| && MarkedDead(net.nodes, cells, marked[..base])
    requires forall i, c :: base <= i < |marked| && HasEdge(net, marked[i], c) ==> c in marked
    requires LeastCollectable(net.nodes, cells, marked, gone)
    ensures InputsLive(net.nodes - gone)
  {
    var kept := set p | p in gone && forall n :: n in net.nodes && p in net.nodes[n].inputs ==> n in gone;
    assert Collectable(net.nodes, cells, marked, kept) by {
      forall p, n | p in marked && p in net.nodes && n in net.nodes && p in net.nodes[n].inputs
        ensures n in gone
      {
        var i :| 0 <= i < |marked| && marked[i] == p;
        if i >= base {
          assert HasEdge(net, p, n);
        }
      }
      forall c, n | c in net.nodes && c in cells && Orphan(cells[c], kept) && n in net.nodes && c in net.nodes[n].inputs
        ensures n in gone
      {
        assert n in cells[c].heldBy;
      }
      forall c | c in net.nodes && c in cells && Orphan(cells[c], kept)
        ensures c in gone
      {
        assert Orphan(cells[c], gone);
      }
    }
    assert gone <= kept;
  }
}
