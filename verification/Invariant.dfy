/** The executor's invariant as a predicate on values, and why polling, draining,
    collecting and building keep it. */
module Invariants {
  import opened Types
  import opened Scheduling
  import opened Semantics
  import opened Graphs
  import opened Stepping
  import opened Timers
  import opened Machines
  import opened Lifecycle
  import opened Poisoning
  import opened Building

  ghost predicate Held<V>(m: Machine<V>) {
    Owned(m.net.nodes, m.cells) && DeadMarked(m.net.nodes, m.cells, m.marked)
  }

  ghost predicate Numbered<V>(m: Machine<V>, nextIndex: NodeIndex, levels: nat, epoch: nat) {
    && Admissible(m.net.nodes, 0, levels)
    && (forall c :: c in m.cells ==> c < nextIndex && m.cells[c].mutEpoch <= epoch)
    && (forall n :: n in m.net.nodes ==> n < nextIndex && m.net.nodes[n].schedEpoch <= epoch)
    && (forall n :: n in m.marked ==> n < nextIndex)
  }

  /** Holds throughout a cycle. */
  ghost predicate Healthy<V>(m: Machine<V>, nextIndex: NodeIndex, levels: nat, epoch: nat) {
    Sane(m) && Held(m) && Numbered(m, nextIndex, levels, epoch)
  }

  /** Holds between cycles. */
  ghost predicate Settled<V>(m: Machine<V>) {
    && m.floor == 0 && m.spawns == []
    && InputsLive(m.net.nodes)
    && MarkedDead(m.net.nodes, m.cells, m.marked)
    && forall n :: n in m.net.nodes ==> !m.net.nodes[n].poisoned
  }

  // ----- polling

  ghost function AfterPoll<V>(m: Machine<V>, polled: seq<NodeIndex>, timers: TimerState, epoch: nat): Machine<V> {
    m.(net := Net(Stamp(m.net.nodes, polled, epoch), m.net.adj),
       arrivals := m.arrivals + Fresh(m.net.nodes, polled, epoch),
       yielded := [],
       timers := timers)
  }

  lemma PollShape<V>(m: Machine<V>, polled: seq<NodeIndex>, timers: TimerState, epoch: nat)
    requires Sane(m)
    ensures SameShape(m.net, AfterPoll(m, polled, timers, epoch).net) && Wellformed(AfterPoll(m, polled, timers, epoch).net)
  {
    SameShapeWellformed(m.net, AfterPoll(m, polled, timers, epoch).net);
  }

  lemma PollSane<V>(m: Machine<V>, polled: seq<NodeIndex>, timers: TimerState, epoch: nat)
    requires Sane(m) && m.floor == 0
    ensures Sane(AfterPoll(m, polled, timers, epoch))
  {
    PollShape(m, polled, timers, epoch);
    FreshSpec(m.net.nodes, polled, epoch);
  }

  lemma PollKeeps<V>(m: Machine<V>, polled: seq<NodeIndex>, timers: TimerState, nextIndex: NodeIndex, levels: nat, epoch: nat)
    requires Healthy(m, nextIndex, levels, epoch) && Settled(m)
    ensures Healthy(AfterPoll(m, polled, timers, epoch + 1), nextIndex, levels, epoch + 1)
    ensures Settled(AfterPoll(m, polled, timers, epoch + 1))
  {
    PollSane(m, polled, timers, epoch + 1);
    OwnedFrame(m.net.nodes, m.cells, AfterPoll(m, polled, timers, epoch + 1).net.nodes, m.cells);
  }

  /** After a poll the nodes scheduled in the new epoch are exactly those the poll offered, and all are queued. */
  lemma PollStamps<V>(m: Machine<V>, polled: seq<NodeIndex>, timers: TimerState, nextIndex: NodeIndex, levels: nat, epoch: nat, n: NodeIndex)
    requires Healthy(m, nextIndex, levels, epoch) && n in m.net.nodes
    ensures
      var m' := AfterPoll(m, polled, timers, epoch + 1);
      && (m'.net.nodes[n].schedEpoch == epoch + 1 <==> n in polled)
      && (n in polled ==> n in QueuedNodes(m'.arrivals))
  {
    FreshSpec(m.net.nodes, polled, epoch + 1);
    if n in polled {
      var e := Entry(m.net.nodes[n].depth, n);
      assert e in Fresh(m.net.nodes, polled, epoch + 1);
      assert e in AfterPoll(m, polled, timers, epoch + 1).arrivals;
    }
  }

  /** From a drained queue a poll leaves exactly the live polled nodes queued, once each. */
  lemma PollIsFresh<V>(m: Machine<V>, polled: seq<NodeIndex>, timers: TimerState, nextIndex: NodeIndex, levels: nat, epoch: nat)
    requires Healthy(m, nextIndex, levels, epoch) && m.arrivals == []
    ensures FreshlyPolled(AfterPoll(m, polled, timers, epoch + 1), epoch + 1)
    ensures QueuedNodes(AfterPoll(m, polled, timers, epoch + 1).arrivals) == set n | n in polled && n in m.net.nodes
  {
    FreshSpec(m.net.nodes, polled, epoch + 1);
    assert AfterPoll(m, polled, timers, epoch + 1).arrivals == Fresh(m.net.nodes, polled, epoch + 1);
    FreshIsQueued(m, polled, epoch + 1);
    forall n | n in m.net.nodes { PollStamps(m, polled, timers, nextIndex, levels, epoch, n); }
  }

  lemma FreshIsQueued<V>(m: Machine<V>, polled: seq<NodeIndex>, epoch: nat)
    requires forall n :: n in m.net.nodes ==> m.net.nodes[n].schedEpoch < epoch
    ensures QueuedNodes(Fresh(m.net.nodes, polled, epoch)) == set n | n in polled && n in m.net.nodes
  {
    FreshSpec(m.net.nodes, polled, epoch);
    var fresh' := Fresh(m.net.nodes, polled, epoch);
    forall n | n in polled && n in m.net.nodes
      ensures n in QueuedNodes(fresh')
    {
      assert Entry(m.net.nodes[n].depth, n) in fresh';
    }
  }

  lemma PollIsDriven<V>(m: Machine<V>, polled: seq<NodeIndex>, timers: TimerState, nextIndex: NodeIndex, levels: nat, epoch: nat)
    requires Healthy(m, nextIndex, levels, epoch) && Settled(m)
    ensures PoisonDriven(AfterPoll(m, polled, timers, epoch + 1), epoch + 1, |m.marked|)
  {
    forall n | n in m.net.nodes { PollStamps(m, polled, timers, nextIndex, levels, epoch, n); }
  }

  lemma PollIsSound<V>(m: Machine<V>, polled: seq<NodeIndex>, nextIndex: NodeIndex, levels: nat, epoch: nat, m': Machine<V>)
    requires Healthy(m, nextIndex, levels, epoch) && Settled(m)
    requires m' == AfterPoll(m, polled, m'.timers, epoch + 1)
    ensures Healthy(m', nextIndex, levels, epoch + 1) && Settled(m') && PoisonDriven(m', epoch + 1, |m'.marked|)
  {
    PollKeeps(m, polled, m'.timers, nextIndex, levels, epoch);
    PollIsDriven(m, polled, m'.timers, nextIndex, levels, epoch);
  }

  // ----- dropping a handle between cycles

  lemma HandleDropKeeps<V>(m: Machine<V>, c: NodeIndex, m': Machine<V>, nextIndex: NodeIndex, levels: nat, epoch: nat)
    requires Healthy(m, nextIndex, levels, epoch) && Settled(m) && c in m.cells && m.cells[c].external > 0
    requires m' == m.(cells := HandleDropped(m.cells, c), marked := m.marked + if c in HandleDropped(m.cells, c) then [] else [c])
    ensures Healthy(m', nextIndex, levels, epoch) && Settled(m')
  {
    HandleDropOwned(m.net.nodes, m.cells, c);
  }

  lemma HandleDropOwned<V>(nodes: map<NodeIndex, NodeContext<V>>, cells: map<NodeIndex, NodeInner<V>>, c: NodeIndex)
    requires Owned(nodes, cells) && c in cells && cells[c].external > 0
    ensures Owned(nodes, HandleDropped(cells, c))
  {
  }

  // ----- draining

  lemma OwnedFrame<V>(nodes: map<NodeIndex, NodeContext<V>>, cells: map<NodeIndex, NodeInner<V>>,
                      nodes': map<NodeIndex, NodeContext<V>>, cells': map<NodeIndex, NodeInner<V>>)
    requires Owned(nodes, cells) && nodes.Keys == nodes'.Keys && cells.Keys == cells'.Keys
    requires forall n :: n in nodes ==> nodes[n].captures == nodes'[n].captures
    requires forall c :: c in cells ==> cells[c].external == cells'[c].external && cells[c].heldBy == cells'[c].heldBy
    ensures Owned(nodes', cells')
  {
    forall c | c in cells'
      ensures cells'[c].external > 0 || cells'[c].heldBy != {}
    {
      assert c in cells;
    }
    forall c, n
      ensures c in cells' && n in cells'[c].heldBy <==> n in nodes' && c in nodes'[n].captures
    {
      assert c in cells' <==> c in cells;
      assert n in nodes' <==> n in nodes;
    }
  }

  lemma HeldNext<V>(m: Machine<V>, epoch: nat, now: Instant)
    requires Sane(m) && Held(m) && m.arrivals != []
    ensures Held(Next(m, epoch, now))
  {
    SaneNext(m, epoch, now);
    var m' := Next(m, epoch, now);
    forall n | n in m.net.nodes
      ensures m.net.nodes[n].captures == m'.net.nodes[n].captures
    {
      assert SameWiring(m.net.nodes[n], m'.net.nodes[n]);
    }
    OwnedFrame(m.net.nodes, m.cells, m'.net.nodes, m'.cells);
  }

  lemma NumberedNext<V>(m: Machine<V>, now: Instant, nextIndex: NodeIndex, levels: nat, epoch: nat)
    requires Sane(m) && Numbered(m, nextIndex, levels, epoch) && m.arrivals != []
    ensures Numbered(Next(m, epoch, now), nextIndex, levels, epoch)
  {
    SaneNext(m, epoch, now);
    var n := Popped(m).node;
    assert Popped(m) in m.arrivals;
    NodesNumbered(m.net, n, ControlOf(RanNow(m, epoch, now)), nextIndex, levels, epoch);
    CellsNumbered(m.cells, n, RanNow(m, epoch, now), nextIndex, epoch);
  }

  lemma NodesNumbered<V>(net: Net<V>, n: NodeIndex, control: Control, nextIndex: NodeIndex, levels: nat, epoch: nat)
    requires Admissible(net.nodes, 0, levels) && forall c :: c in net.nodes ==> c < nextIndex && net.nodes[c].schedEpoch <= epoch
    ensures var nodes := NodesAfter(net, n, control, epoch);
      Admissible(nodes, 0, levels) && forall c :: c in nodes ==> c < nextIndex && nodes[c].schedEpoch <= epoch
  {
    forall c | c in net.nodes { NodeStep(net, n, control, epoch, c); }
  }

  lemma CellsNumbered<V>(cells: map<NodeIndex, NodeInner<V>>, n: NodeIndex, r: Ran<V>, nextIndex: NodeIndex, epoch: nat)
    requires forall c :: c in cells ==> c < nextIndex && cells[c].mutEpoch <= epoch
    ensures forall c :: c in CellsWith(cells, n, r, epoch) ==> c < nextIndex && CellsWith(cells, n, r, epoch)[c].mutEpoch <= epoch
  {
  }

  lemma HealthyNext<V>(m: Machine<V>, now: Instant, nextIndex: NodeIndex, levels: nat, epoch: nat)
    requires Healthy(m, nextIndex, levels, epoch) && m.arrivals != []
    ensures Runnable(m) && Healthy(Next(m, epoch, now), nextIndex, levels, epoch)
  {
    SaneNext(m, epoch, now);
    HeldNext(m, epoch, now);
    NumberedNext(m, now, nextIndex, levels, epoch);
  }

  lemma {:induction false} InputsAt<V>(h: seq<Machine<V>>, k: nat, epoch: nat, now: Instant)
    requires Machines.Draining(h, epoch, now) && k < |h|
    requires InputsLive(h[0].net.nodes)
    ensures InputsLive(h[k].net.nodes)
  {
    AllSane(h, k, epoch, now);
    forall n | n in h[k].net.nodes
      ensures h[k].net.nodes[n].inputs <= h[k].net.nodes.Keys && h[k].net.nodes[n].inputs <= h[k].net.nodes[n].captures
    {
      assert SameWiring(h[0].net.nodes[n], h[k].net.nodes[n]);
    }
  }

  /** Cells neither appear nor disappear during a drain; marks are only appended. */
  lemma {:induction false} DrainKeepsCells<V>(h: seq<Machine<V>>, k: nat, epoch: nat, now: Instant)
    requires Machines.Draining(h, epoch, now) && k < |h|
    ensures h[k].cells.Keys == h[0].cells.Keys && h[0].marked <= h[k].marked
  {
    if k > 0 {
      DrainKeepsCells(h, k - 1, epoch, now);
      assert Follows(h, k - 1, epoch, now);
      CellsNext(h[k - 1], epoch, now);
    }
  }

  lemma CellsNext<V>(m: Machine<V>, epoch: nat, now: Instant)
    ensures Next(m, epoch, now).cells.Keys == m.cells.Keys && m.marked <= Next(m, epoch, now).marked
  {
  }

  lemma {:induction false} DrainKeepsHolders<V>(h: seq<Machine<V>>, k: nat, epoch: nat, now: Instant)
    requires Machines.Draining(h, epoch, now) && k < |h| && Held(h[0])
    ensures Held(h[k])
  {
    if k > 0 {
      DrainKeepsHolders(h, k - 1, epoch, now);
      AllSane(h, k - 1, epoch, now);
      assert Follows(h, k - 1, epoch, now);
      HeldNext(h[k - 1], epoch, now);
    }
  }

  /** During a drain deferred spawns own handles of existing cells only. */
  lemma {:induction false} DrainOwnsExisting<V>(h: seq<Machine<V>>, k: nat, epoch: nat, now: Instant)
    requires Machines.Draining(h, epoch, now) && k < |h| && h[0].spawns == []
    ensures OwnsExisting(h[k].spawns, h[k].cells.Keys)
  {
    if k > 0 {
      DrainOwnsExisting(h, k - 1, epoch, now);
      assert Follows(h, k - 1, epoch, now);
      OwningNext(h[k - 1], epoch, now);
    }
  }

  lemma OwningNext<V>(m: Machine<V>, epoch: nat, now: Instant)
    requires OwnsExisting(m.spawns, m.cells.Keys)
    ensures OwnsExisting(Next(m, epoch, now).spawns, Next(m, epoch, now).cells.Keys)
  {
    CellsNext(m, epoch, now);
  }

  // ----- collecting

  /** The nodes of `gone` have been removed: the least collectable set, when the handles owned by
      deferred spawns are counted. */
  ghost predicate Collected<V>(m: Machine<V>, gone: set<NodeIndex>, m': Machine<V>) {
    var cells := Retained(m.cells, m.spawns);
    && LeastCollectable(m.net.nodes, cells, m.marked, gone)
    && Pruned(m.net, gone, m'.net)
    && m' == m.(net := m'.net, cells := Survivors(cells, gone), marked := [], floor := 0)
  }

  lemma RetainedKeeps<V>(m: Machine<V>)
    requires Held(m) && OwnsExisting(m.spawns, m.cells.Keys)
    ensures Held(m.(cells := Retained(m.cells, m.spawns)))
  {
    RetainedOwned(m.net.nodes, m.cells, m.spawns);
  }

  lemma CollectKeeps<V>(m: Machine<V>, gone: set<NodeIndex>, m': Machine<V>, nextIndex: NodeIndex, levels: nat, epoch: nat)
    requires Healthy(m, nextIndex, levels, epoch) && m.arrivals == [] && Collected(m, gone, m')
    requires OwnsExisting(m.spawns, m.cells.Keys) && forall n :: n in m'.net.nodes ==> n in m'.cells
    ensures Healthy(m', nextIndex, levels, epoch) && Backed(m'.cells, m'.spawns)
  {
    RetainedOwned(m.net.nodes, m.cells, m.spawns);
    OwnedSurvivors(m.net.nodes, Retained(m.cells, m.spawns), gone);
    BackedSurvive(Retained(m.cells, m.spawns), m.spawns, gone);
    CollectNumbered(m, gone, m', nextIndex, levels, epoch);
  }

  lemma CollectNumbered<V>(m: Machine<V>, gone: set<NodeIndex>, m': Machine<V>, nextIndex: NodeIndex, levels: nat, epoch: nat)
    requires Numbered(m, nextIndex, levels, epoch) && Collected(m, gone, m')
    ensures Numbered(m', nextIndex, levels, epoch)
  {
  }

  /** A cycle's drain and collection, started between cycles, ends between cycles. */
  lemma CollectedIsSettled<V>(h: seq<Machine<V>>, now: Instant, epoch: nat, gone: set<NodeIndex>, m': Machine<V>)
    requires Machines.Draining(h, epoch, now) && h[|h| - 1].arrivals == []
    requires Held(h[|h| - 1]) && OwnsExisting(h[|h| - 1].spawns, h[|h| - 1].cells.Keys)
    requires PoisonDriven(h[0], epoch, |h[0].marked|) && Settled(h[0])
    requires Collected(h[|h| - 1], gone, m')
    ensures Settled(m'.(spawns := []))
  {
    var k := |h| - 1;
    var m := h[k];
    DrainMarksChildren(h, epoch, now, |h[0].marked|);
    AllSane(h, k, epoch, now);
    InputsAt(h, k, epoch, now);
    DrainKeepsCells(h, k, epoch, now);
    assert m.marked[..|h[0].marked|] == h[0].marked;
    RetainedOwned(m.net.nodes, m.cells, m.spawns);
    InputsSurvive(m.net, Retained(m.cells, m.spawns), m.marked, |h[0].marked|, gone);
    forall n | n in m'.net.nodes
      ensures !m'.net.nodes[n].poisoned
    {
      assert m'.net.nodes[n] == m.net.nodes[n];
    }
  }

  // ----- building

  function NewCell<V>(bp: Blueprint<V>, n: NodeIndex): NodeInner<V> {
    NodeInner(bp.data, 0, if bp.owned then 0 else 1, if bp.owned then {n} else {})
  }

  function CellsWithNew<V>(cells: map<NodeIndex, NodeInner<V>>, bp: Blueprint<V>, n: NodeIndex): map<NodeIndex, NodeInner<V>> {
    (map c | c in cells ::
       if c in bp.captures then cells[c].(heldBy := cells[c].heldBy + {n}) else cells[c])[n := NewCell(bp, n)]
  }

  ghost predicate Built<V>(m: Machine<V>, bp: Blueprint<V>, n: NodeIndex, m': Machine<V>) {
    && n in m'.net.nodes
    && Inserted(m.net, bp, n, m'.net.nodes[n], m'.net)
    && m' == m.(net := m'.net, cells := CellsWithNew(m.cells, bp, n),
                yielded := m.yielded + if bp.bootstrap then [n] else [])
  }

  /** What a build makes of its blueprint: the node's context, and its cell. */
  lemma BuiltAsDeclared<V>(m: Machine<V>, bp: Blueprint<V>, n: NodeIndex, m': Machine<V>)
    requires Built(m, bp, n, m') && RelationsLive(m.net, bp.relations)
    ensures n in m'.net.nodes && AsDeclared(bp, n, m'.net.nodes[n])
    ensures n in m'.cells && m'.cells[n].data == bp.data && m'.cells[n].external == (if bp.owned then 0 else 1)
  {
    InsertedAsDeclared(m.net, bp, n, m'.net.nodes[n], m'.net);
  }

  lemma BuildSane<V>(m: Machine<V>, bp: Blueprint<V>, n: NodeIndex, m': Machine<V>)
    requires Sane(m) && Built(m, bp, n, m') && Wellformed(m'.net) && n !in m.net.nodes
    ensures Sane(m')
  {
  }

  lemma BuildNumbered<V>(m: Machine<V>, bp: Blueprint<V>, n: NodeIndex, m': Machine<V>, levels: nat, levels': nat, epoch: nat)
    requires Numbered(m, n, levels, epoch) && Built(m, bp, n, m')
    requires levels <= levels' && m'.net.nodes[n].depth < levels'
    ensures Numbered(m', n + 1, levels', epoch)
  {
    assert m'.net.nodes == m.net.nodes[n := m'.net.nodes[n]];
    assert m'.cells.Keys == m.cells.Keys + {n};
    forall c | c in m.cells && c != n
      ensures m'.cells[c].mutEpoch == m.cells[c].mutEpoch
    {
    }
  }

  lemma BuildKeeps<V>(m: Machine<V>, bp: Blueprint<V>, n: NodeIndex, m': Machine<V>, levels: nat, levels': nat, epoch: nat)
    requires Healthy(m, n, levels, epoch) && Built(m, bp, n, m') && Wellformed(m'.net)
    requires bp.captures <= m.cells.Keys
    requires levels <= levels' && m'.net.nodes[n].depth < levels'
    ensures Healthy(m', n + 1, levels', epoch)
  {
    BuildSane(m, bp, n, m');
    BuildHeld(m, bp, n, m');
    BuildNumbered(m, bp, n, m', levels, levels', epoch);
  }

  lemma BuildHeld<V>(m: Machine<V>, bp: Blueprint<V>, n: NodeIndex, m': Machine<V>)
    requires Held(m) && Built(m, bp, n, m')
    requires n !in m.net.nodes && n !in m.cells && bp.captures <= m.cells.Keys
    ensures Held(m')
  {
    BuildOwns(m, bp, n, m');
    assert m'.net.nodes == m.net.nodes[n := m'.net.nodes[n]];
  }

  lemma BuildSettled<V>(m: Machine<V>, bp: Blueprint<V>, n: NodeIndex, m': Machine<V>)
    requires Settled(m) && Built(m, bp, n, m') && n !in m.net.nodes
    requires forall x :: x in m.marked ==> x != n
    ensures Settled(m')
  {
    assert forall c :: c in m.net.nodes ==> m'.net.nodes[c] == m.net.nodes[c];
    assert m'.net.nodes[n].inputs <= m'.net.nodes[n].captures;
  }

  lemma BuildOwns<V>(m: Machine<V>, bp: Blueprint<V>, n: NodeIndex, m': Machine<V>)
    requires Owned(m.net.nodes, m.cells) && Built(m, bp, n, m')
    requires n !in m.net.nodes && n !in m.cells && bp.captures <= m.cells.Keys
    ensures Owned(m'.net.nodes, m'.cells)
  {
    var nodes', cells' := m'.net.nodes, m'.cells;
    assert nodes' == m.net.nodes[n := nodes'[n]];
    assert nodes'[n].captures == if bp.owned then bp.captures + {n} else bp.captures;
    OwnedWithNew(m.net.nodes, m.cells, bp, n, nodes'[n]);
  }

  lemma CellWithNew<V>(cells: map<NodeIndex, NodeInner<V>>, bp: Blueprint<V>, n: NodeIndex, c: NodeIndex)
    requires n !in cells && c in cells
    ensures c in CellsWithNew(cells, bp, n)
    ensures CellsWithNew(cells, bp, n)[c] == if c in bp.captures then cells[c].(heldBy := cells[c].heldBy + {n}) else cells[c]
  {
  }

  /** Who holds what, after node `n` has been built. */
  lemma HoldersWithNew<V>(nodes: map<NodeIndex, NodeContext<V>>, cells: map<NodeIndex, NodeInner<V>>, bp: Blueprint<V>, n: NodeIndex, ctx: NodeContext<V>, h: NodeIndex, c: NodeIndex)
    requires Owned(nodes, cells) && n !in nodes && n !in cells && bp.captures <= cells.Keys
    requires ctx.captures == if bp.owned then bp.captures + {n} else bp.captures
    ensures
      var nodes', cells' := nodes[n := ctx], CellsWithNew(cells, bp, n);
      c in cells' && h in cells'[c].heldBy <==> h in nodes' && c in nodes'[h].captures
  {
    if c in cells { CellWithNew(cells, bp, n, c); }
  }

  lemma OwnedWithNew<V>(nodes: map<NodeIndex, NodeContext<V>>, cells: map<NodeIndex, NodeInner<V>>, bp: Blueprint<V>, n: NodeIndex, ctx: NodeContext<V>)
    requires Owned(nodes, cells) && n !in nodes && n !in cells && bp.captures <= cells.Keys
    requires ctx.captures == if bp.owned then bp.captures + {n} else bp.captures
    ensures Owned(nodes[n := ctx], CellsWithNew(cells, bp, n))
  {
    var nodes', cells' := nodes[n := ctx], CellsWithNew(cells, bp, n);
    forall c | c in cells'
      ensures cells'[c].external > 0 || cells'[c].heldBy != {}
    {
      if c in cells { CellWithNew(cells, bp, n, c); }
    }
    forall h, c
      ensures c in cells' && h in cells'[c].heldBy <==> h in nodes' && c in nodes'[h].captures
    {
      HoldersWithNew(nodes, cells, bp, n, ctx, h, c);
    }
  }

  ghost predicate SameValue<V>(a: NodeInner<V>, b: NodeInner<V>) {
    a.data == b.data && a.mutEpoch == b.mutEpoch
  }

  /** Nothing that was there has changed, but that cells may have gone with the handles of closures
      that were dropped; their nodes are marked. */
  ghost predicate Grown<V>(m: Machine<V>, m': Machine<V>, from: NodeIndex) {
    && (forall n :: n in m.net.nodes ==> n in m'.net.nodes && m'.net.nodes[n] == m.net.nodes[n])
    && (forall n :: n in m'.net.nodes && n !in m.net.nodes ==> from <= n)
    && (forall p, c :: c in m.net.nodes ==> (HasEdge(m'.net, p, c) <==> HasEdge(m.net, p, c)))
    && (forall p, c :: c in m.net.nodes ==> (TriggerEdge(m'.net, p, c) <==> TriggerEdge(m.net, p, c)))
    && (forall c :: c in m.cells && c in m'.cells ==> SameValue(m.cells[c], m'.cells[c]))
    && (forall c :: c in m.cells ==> c < from && (c in m'.cells || c in m'.marked))
    && (forall c :: c in m'.cells && c !in m.cells ==> from <= c)
    && m.yielded <= m'.yielded && m'.arrivals == m.arrivals && m.marked <= m'.marked && m'.timers == m.timers
  }

  lemma BuildEdges<V>(m: Machine<V>, bp: Blueprint<V>, n: NodeIndex, m': Machine<V>)
    requires Wellformed(m.net) && n !in m.net.nodes && Built(m, bp, n, m')
    ensures forall p, c :: c in m.net.nodes ==> (HasEdge(m'.net, p, c) <==> HasEdge(m.net, p, c))
    ensures forall p, c :: c in m.net.nodes ==> (TriggerEdge(m'.net, p, c) <==> TriggerEdge(m.net, p, c))
  {
    var parents := AddManyRelationships(bp.relations);
    forall p, c { LinkedEdges(m.net, n, m'.net.nodes[n], parents, p, c); }
  }

  lemma BuildGrows<V>(m: Machine<V>, bp: Blueprint<V>, n: NodeIndex, m': Machine<V>)
    requires Wellformed(m.net) && n !in m.net.nodes && (forall c :: c in m.cells ==> c < n) && Built(m, bp, n, m')
    ensures Grown(m, m', n)
  {
    BuildEdges(m, bp, n, m');
    assert m'.net.nodes == m.net.nodes[n := m'.net.nodes[n]];
    forall c | c in m.cells { CellWithNew(m.cells, bp, n, c); }
  }

  lemma BuildIsSound<V>(m: Machine<V>, bp: Blueprint<V>, n: NodeIndex, m': Machine<V>, levels: nat, levels': nat, epoch: nat)
    requires Healthy(m, n, levels, epoch) && Built(m, bp, n, m') && Wellformed(m'.net)
    requires bp.captures <= m.cells.Keys
    requires levels <= levels' && m'.net.nodes[n].depth < levels'
    ensures Healthy(m', n + 1, levels', epoch)
    ensures Grown(m, m', n)
    ensures Settled(m.(spawns := [])) ==> Settled(m'.(spawns := []))
  {
    BuildKeeps(m, bp, n, m', levels, levels', epoch);
    BuildGrows(m, bp, n, m');
    if Settled(m.(spawns := [])) {
      BuildSettled(m.(spawns := []), bp, n, m'.(spawns := []));
    }
  }

  lemma GrownTransitive<V>(a: Machine<V>, b: Machine<V>, c: Machine<V>, from: NodeIndex, later: NodeIndex)
    requires Grown(a, b, from) && Grown(b, c, later) && from <= later
    ensures Grown(a, c, from)
  {
  }

  // ----- depths stay exact until a node is removed

  ghost predicate ExactKept<V>(m: Machine<V>, gone: set<NodeIndex>, m': Machine<V>) {
    gone == {} && Exact(m.net) ==> Exact(m'.net)
  }

  lemma SameShapeExact<V>(a: Net<V>, b: Net<V>)
    requires SameShape(a, b) && Exact(a)
    ensures Exact(b)
  {
    forall n | n in b.nodes && b.nodes[n].depth > 0
      ensures HasDeepest(b, n)
    {
      assert SameWiring(a.nodes[n], b.nodes[n]) && HasDeepest(a, n);
      var p :| p in a.nodes && HasEdge(a, p, n) && a.nodes[p].depth + 1 == a.nodes[n].depth;
      assert SameWiring(a.nodes[p], b.nodes[p]) && HasEdge(b, p, n);
    }
  }

  lemma PrunedNoneExact<V>(a: Net<V>, b: Net<V>)
    requires Pruned(a, {}, b) && Exact(a)
    ensures Exact(b)
  {
    forall n | n in b.nodes && b.nodes[n].depth > 0
      ensures HasDeepest(b, n)
    {
      assert b.nodes[n] == a.nodes[n] && HasDeepest(a, n);
      var p :| p in a.nodes && HasEdge(a, p, n) && a.nodes[p].depth + 1 == a.nodes[n].depth;
      assert HasEdge(b, p, n);
    }
  }

  lemma PollKeepsExact<V>(m: Machine<V>, polled: seq<NodeIndex>, epoch: nat, m': Machine<V>)
    requires Sane(m) && m' == AfterPoll(m, polled, m'.timers, epoch)
    ensures ExactKept(m, {}, m')
  {
    PollShape(m, polled, m'.timers, epoch);
    if Exact(m.net) { SameShapeExact(m.net, m'.net); }
  }

  lemma DrainKeepsExact<V>(h: seq<Machine<V>>, now: Instant, epoch: nat, gone: set<NodeIndex>, m': Machine<V>)
    requires Machines.Draining(h, epoch, now) && Collected(h[|h| - 1], gone, m')
    ensures ExactKept(h[0], gone, m')
  {
    AllSane(h, |h| - 1, epoch, now);
    if gone == {} && Exact(h[0].net) {
      SameShapeExact(h[0].net, h[|h| - 1].net);
      PrunedNoneExact(h[|h| - 1].net, m'.net);
    }
  }
}
