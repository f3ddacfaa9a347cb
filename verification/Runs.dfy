/** Whole cycles as steps between settled states, and what holds of each step. */
module Runs {
  import opened Types
  import opened Semantics
  import opened Events
  import opened Stepping
  import opened Machines
  import opened Lifecycle
  import opened Poisoning
  import opened Invariants
  import opened Building
  import opened Timers
  import opened Spawning
  import opened Execution

  /** What a cycle amounted to: its equations, their solution and the nodes removed at its end. */
  datatype Turn<!V> = Turn(start: Start<V>, ran: map<NodeIndex, Ran<V>>, gone: set<NodeIndex>)

  /** A cycle that started drained and returned `Running` leads from `m` to `m'`. */
  ghost predicate CycleStep<V>(m: Machine<V>, t: Turn<V>, m': Machine<V>) {
    && Wellformed(t.start.net) && Solves(t.start, t.ran)
    && t.start.cells == m.cells && SameShape(m.net, t.start.net)
    && (forall c :: c in m.cells ==> m.cells[c].mutEpoch < t.start.epoch)
    && (forall n :: n in m.yielded && n in m.net.nodes ==> n in t.start.seeds)
    && (forall n :: n in m.net.nodes ==> (n in m'.net.nodes <==> n !in t.gone))
    && (forall n :: n in m.net.nodes && n !in t.gone ==> Kept(m, CellsAfter(t.start, t.ran), m', n))
    && (forall n :: n in t.ran && ControlOf(t.ran[n]) == Sweep ==> n in t.gone)
  }

  /** A surviving node keeps its wiring, its incoming edges and the data the drain left in `cells`. Its
      cell may have gone with the last handle in the closure of a deferred spawn. */
  ghost predicate Kept<V>(m: Machine<V>, cells: map<NodeIndex, NodeInner<V>>, m': Machine<V>, n: NodeIndex)
    requires n in m.net.nodes
  {
    && n in m'.net.nodes && SameWiring(m.net.nodes[n], m'.net.nodes[n])
    && n in m.cells && n in cells
    && (n in m'.cells ==> SameValue(cells[n], m'.cells[n]))
    && (forall p :: p in m'.net.nodes ==> (HasEdge(m'.net, p, n) <==> HasEdge(m.net, p, n)))
    && (forall p :: p in m'.net.nodes ==> (TriggerEdge(m'.net, p, n) <==> TriggerEdge(m.net, p, n)))
  }

  lemma {:induction false} SweptAreMarked<V>(h: seq<Machine<V>>, k: nat, epoch: nat, now: Instant, n: NodeIndex)
    requires Draining(h, epoch, now) && k < |h|
    requires n in RanIn(h, k, epoch, now) && ControlOf(RanIn(h, k, epoch, now)[n]) == Sweep
    ensures n in h[k].marked
  {
    assert Follows(h, k - 1, epoch, now);
    if n != Popped(h[k - 1]).node {
      SweptAreMarked(h, k - 1, epoch, now, n);
    }
  }

  ghost function TurnOf<V>(start: Machine<V>, epoch: nat, rec: Record<V>): Turn<V>
    requires Drained(start, epoch, rec)
  {
    Turn(StartOf(start, epoch, rec.now), RanIn(rec.history, |rec.history| - 1, epoch, rec.now), rec.gone)
  }

  ghost function LastOf<V>(rec: Record<V>): Machine<V>
    requires |rec.history| > 0
  {
    rec.history[|rec.history| - 1]
  }

  lemma Survives<V>(last: Machine<V>, gone: set<NodeIndex>, kept: Machine<V>, n: NodeIndex)
    requires Held(last) && Collected(last, gone, kept) && n in last.net.nodes && n !in gone
    ensures n in kept.net.nodes && kept.net.nodes[n] == last.net.nodes[n]
    ensures n in last.cells && n in kept.cells && SameValue(last.cells[n], kept.cells[n])
  {
    var cells := Retained(last.cells, last.spawns);
    assert n in last.cells;
    assert n in cells && !Orphan(cells[n], gone);
  }

  lemma CellKept<V>(last: Machine<V>, gone: set<NodeIndex>, kept: Machine<V>, m': Machine<V>, from: NodeIndex, n: NodeIndex)
    requires Held(last) && Collected(last, gone, kept) && Grown(kept, m', from)
    requires n in last.net.nodes && n !in gone
    ensures n in kept.net.nodes && n in m'.net.nodes && m'.net.nodes[n] == last.net.nodes[n]
    ensures n in last.cells && (n in m'.cells ==> SameValue(last.cells[n], m'.cells[n]))
  {
    Survives(last, gone, kept, n);
  }

  lemma EdgesKept<V>(net: Net<V>, last: Machine<V>, gone: set<NodeIndex>, kept: Machine<V>, m': Machine<V>, from: NodeIndex, p: NodeIndex, n: NodeIndex)
    requires Wellformed(net) && SameShape(net, last.net) && forall q :: q in net.nodes ==> q < from
    requires Collected(last, gone, kept) && Grown(kept, m', from)
    requires n in net.nodes && n !in gone && p in m'.net.nodes
    ensures HasEdge(m'.net, p, n) <==> HasEdge(net, p, n)
    ensures TriggerEdge(m'.net, p, n) <==> TriggerEdge(net, p, n)
  {
    assert n in kept.net.nodes;
    assert HasEdge(net, p, n) <==> HasEdge(last.net, p, n);
    assert TriggerEdge(net, p, n) <==> TriggerEdge(last.net, p, n);
    if p in gone {
      if p in net.nodes { assert p !in kept.net.nodes; }
    }
  }

  lemma SurvivorKept<V>(m: Machine<V>, last: Machine<V>, gone: set<NodeIndex>, kept: Machine<V>, m': Machine<V>, from: NodeIndex, n: NodeIndex)
    requires Wellformed(m.net) && SameShape(m.net, last.net) && forall q :: q in m.net.nodes ==> q < from
    requires Held(last) && Collected(last, gone, kept) && Grown(kept, m', from) && last.cells.Keys == m.cells.Keys
    requires n in m.net.nodes && n !in gone
    ensures Kept(m, last.cells, m', n)
  {
    CellKept(last, gone, kept, m', from, n);
    forall p | p in m'.net.nodes
      ensures HasEdge(m'.net, p, n) <==> HasEdge(m.net, p, n)
      ensures TriggerEdge(m'.net, p, n) <==> TriggerEdge(m.net, p, n)
    {
      EdgesKept(m.net, last, gone, kept, m', from, p, n);
    }
    assert SameWiring(m.net.nodes[n], last.net.nodes[n]);
  }

  // ----- runs

  /** An executor between cycles: its state and its counters. */
  datatype Snapshot<!V> = Snapshot(machine: Machine<V>, nextIndex: NodeIndex, levels: nat, epoch: nat)

  ghost predicate Standing<V>(s: Snapshot<V>) {
    Healthy(s.machine, s.nextIndex, s.levels, s.epoch) && Settled(s.machine) && Registered(s.machine.timers)
  }

  /** No handle of a timer held will be given out again. */
  ghost predicate Registered(t: TimerState) {
    forall k :: k in t.timers ==> k.id < t.sequence
  }

  ghost function SnapshotOf<V>(executor: Executor<V>): Snapshot<V>
    reads executor.Repr()
  {
    Snapshot(executor.State(), executor.graph.nextIndex, |executor.scheduler.multiQueue|, executor.epoch)
  }

  /** Builds, handle drops and yields between cycles: nothing that stays is changed. */
  ghost predicate OutsideStep<V>(m: Machine<V>, m': Machine<V>) {
    && (forall n :: n in m.net.nodes ==> n in m'.net.nodes && m'.net.nodes[n] == m.net.nodes[n])
    && (forall p, n :: n in m.net.nodes ==> (HasEdge(m'.net, p, n) <==> HasEdge(m.net, p, n)))
    && (forall p, n :: n in m.net.nodes ==> (TriggerEdge(m'.net, p, n) <==> TriggerEdge(m.net, p, n)))
    && (forall c :: c in m.cells && c in m'.cells ==> m'.cells[c].data == m.cells[c].data)
    && m.yielded <= m'.yielded && m'.arrivals == m.arrivals
  }

  lemma BuildIsOutside<V>(m: Machine<V>, m': Machine<V>, from: NodeIndex)
    requires Grown(m, m', from)
    ensures OutsideStep(m, m')
  {
  }

  lemma DropIsOutside<V>(m: Machine<V>, c: NodeIndex, m': Machine<V>)
    requires c in m.cells && m.cells[c].external > 0
    requires m' == m.(cells := HandleDropped(m.cells, c), marked := m'.marked)
    ensures OutsideStep(m, m')
  {
  }

  /** What happens to an executor: a cycle that its poll started in state `start`, a poll that failed,
      or something between cycles. A poll offers the nodes `polled`, among them all that had yielded. */
  datatype Move<!V> = Cycled(polled: seq<NodeIndex>, start: Machine<V>, rec: Record<V>) | PollLost(polled: seq<NodeIndex>) | Outside

  /** The nodes a move takes out of the graph. */
  ghost function RemovedBy<V>(move: Move<V>): set<NodeIndex> {
    if move.Cycled? then move.rec.gone else {}
  }

  ghost predicate PollLeads<V>(s: Snapshot<V>, polled: seq<NodeIndex>, m: Machine<V>) {
    && m == AfterPoll(s.machine, polled, m.timers, s.epoch + 1)
    && (forall n :: n in s.machine.yielded ==> n in polled)
    && exists now :: FiresAt(s.machine.timers, now, polled, m.timers)
  }

  /** A poll at `now` offers the nodes of the timers due, and keeps just the others. */
  ghost predicate FiresAt(t: TimerState, now: Instant, polled: seq<NodeIndex>, t': TimerState) {
    && (forall k :: k in t'.timers <==> k in t.timers && now < k.when)
    && (forall k :: k in t'.timers ==> k in t.timers && t'.timers[k] == t.timers[k])
    && (forall k :: k in t.timers && k.when <= now ==> t.timers[k] in polled)
    && t'.sequence == t.sequence
  }

  lemma NoTimerFires(polled: seq<NodeIndex>)
    ensures FiresAt(TimerState(map[], 0), 0, polled, TimerState(map[], 0))
  {
  }

  lemma PolledFires(t: TimerState, now: Instant, polled: seq<NodeIndex>)
    requires forall n :: n in FiringNodes(t.timers, now) ==> n in polled
    ensures FiresAt(t, now, polled, Apply(t, PollAt(now)))
  {
    var firing := Firing(t.timers.Keys, now);
    FiringSpec(t.timers.Keys, now);
    forall k | k in t.timers && k.when <= now
      ensures t.timers[k] in polled
    {
      var i :| 0 <= i < |firing| && firing[i] == k;
      assert FiringNodes(t.timers, now)[i] == t.timers[k];
    }
  }

  ghost predicate Moves<V>(s: Snapshot<V>, move: Move<V>, s': Snapshot<V>) {
    && Standing(s) && Standing(s') && ExactKept(s.machine, RemovedBy(move), s'.machine)
    && s'.epoch == s.epoch + (if move.Outside? then 0 else 1)
    && match move
       case Cycled(polled, start, rec) =>
         && PollLeads(s, polled, start) && Drained(start, s.epoch + 1, rec)
         && Grown(rec.kept, s'.machine, s.nextIndex) && SpawnedAll(rec.built, s.nextIndex, rec.kept, s'.machine)
       case PollLost(polled) => PollLeads(s, polled, s'.machine)
       case Outside => OutsideStep(s.machine, s'.machine)
  }

  /** A run from `s0`: moves one after the other, failed polls included. */
  ghost predicate History<V>(ss: seq<Snapshot<V>>, moves: seq<Move<V>>) {
    |ss| == |moves| + 1 && Standing(ss[0]) && forall i :: 0 <= i < |moves| ==> MovesAt(ss, moves, i)
  }

  ghost predicate MovesAt<V>(ss: seq<Snapshot<V>>, moves: seq<Move<V>>, i: nat)
    requires |ss| == |moves| + 1 && i < |moves|
  {
    Moves(ss[i], moves[i], ss[i + 1])
  }

  /** A cycle of the executor, whatever an earlier failed poll has left in its queue, is a move of a
      run, and so is a failed poll. `polled` is all that this cycle's poll offers. */
  method RunCycle<V>(
    executor: Executor<V>, now: Instant, later: Instant, timeout: Option<nat>, io: IoResult, ghost s: Snapshot<V>, ghost polled: seq<NodeIndex>)
    returns (result: CycleResult, ghost move: Move<V>)
    requires executor.Valid() && s == SnapshotOf(executor)
    requires polled == executor.driver.Polled(now, io)
    modifies executor.Repr()
    ensures result == PollFailed <==> io.Failed?
    ensures result == Running || result == PollFailed ==> executor.Valid() && Moves(s, move, SnapshotOf(executor))
    ensures result == Running ==> move.Cycled? && move.polled == polled
    ensures result == PollFailed ==> move == PollLost(polled)
  {
    ghost var start := executor.Polled(now, io, executor.epoch + 1);
    StartLeads(s, polled, start, now);
    ghost var rec;
    result, rec := executor.Cycle(now, later, timeout, io);
    move := if result == Running then Cycled(polled, start, rec) else PollLost(polled);
    if result == Running {
      CycleMoves(s, polled, start, executor.epoch, rec, SnapshotOf(executor));
    } else if result == PollFailed {
      PollMoves(s, polled, SnapshotOf(executor));
    }
  }

  lemma StartLeads<V>(s: Snapshot<V>, polled: seq<NodeIndex>, start: Machine<V>, now: Instant)
    requires start == AfterPoll(s.machine, polled, Apply(s.machine.timers, PollAt(now)), s.epoch + 1)
    requires forall n :: n in s.machine.yielded || n in FiringNodes(s.machine.timers.timers, now) ==> n in polled
    ensures PollLeads(s, polled, start)
  {
    PolledFires(s.machine.timers, now, polled);
  }

  lemma CycleMoves<V>(s: Snapshot<V>, polled: seq<NodeIndex>, start: Machine<V>, epoch: nat, rec: Record<V>, s': Snapshot<V>)
    requires Standing(s) && Standing(s') && PollLeads(s, polled, start) && epoch == s.epoch + 1 == s'.epoch
    requires Drained(start, epoch, rec) && Grown(rec.kept, s'.machine, s.nextIndex) && ExactKept(s.machine, rec.gone, s'.machine)
    requires SpawnedAll(rec.built, s.nextIndex, rec.kept, s'.machine)
    ensures Moves(s, Cycled(polled, start, rec), s')
  {
  }

  lemma PollMoves<V>(s: Snapshot<V>, polled: seq<NodeIndex>, s': Snapshot<V>)
    requires Standing(s) && Standing(s') && PollLeads(s, polled, s'.machine) && s'.epoch == s.epoch + 1
    ensures Moves(s, PollLost(polled), s')
  {
    PollKeepsExact(s.machine, polled, s.epoch + 1, s'.machine);
  }

  /** Building a node between cycles is a move of a run. */
  method BuildOutside<V>(executor: Executor<V>, bp: Blueprint<V>, ghost s: Snapshot<V>) returns (n: NodeIndex)
    requires executor.Valid() && s == SnapshotOf(executor)
    requires RelationsLive(s.machine.net, bp.relations) && bp.captures <= s.machine.cells.Keys
    modifies executor.graph, executor.store, executor.scheduler`multiQueue, executor.driver.yieldDriver
    ensures executor.Valid() && n !in s.machine.net.nodes && Built(s.machine, bp, n, executor.State())
    ensures Moves(s, Outside, SnapshotOf(executor))
  {
    n := executor.BuildFrom(bp, s.machine);
    BuildIsOutside(s.machine, executor.State(), n);
  }

  /** Dropping a handle between cycles is a move of a run. */
  method DropOutside<V>(executor: Executor<V>, c: NodeIndex, ghost s: Snapshot<V>)
    requires executor.Valid() && s == SnapshotOf(executor) && c in s.machine.cells && s.machine.cells[c].external > 0
    modifies executor.store, executor.gc
    ensures executor.Valid() && executor.store.cells == HandleDropped(s.machine.cells, c)
    ensures Moves(s, Outside, SnapshotOf(executor))
  {
    executor.DropHandle(c, s.machine);
    DropIsOutside(s.machine, c, executor.State());
  }

  // ----- one cycle of a run

  /** The poll before a drain keeps the graph's shape, and the drain starts soundly. */
  lemma StartOfCycle<V>(s: Snapshot<V>, polled: seq<NodeIndex>, start: Machine<V>)
    requires Standing(s) && PollLeads(s, polled, start)
    ensures Healthy(start, s.nextIndex, s.levels, s.epoch + 1) && Settled(start)
    ensures SameShape(s.machine.net, start.net) && PoisonDriven(start, s.epoch + 1, |start.marked|)
    ensures start.cells == s.machine.cells
  {
    PollIsSound(s.machine, polled, s.nextIndex, s.levels, s.epoch, start);
    PollShape(s.machine, polled, start.timers, s.epoch + 1);
  }

  /** What a poll offers, and what was queued before it, is queued afterwards. */
  lemma PollQueues<V>(s: Snapshot<V>, polled: seq<NodeIndex>, start: Machine<V>, n: NodeIndex)
    requires Standing(s) && PollLeads(s, polled, start)
    requires (n in s.machine.net.nodes && n in polled) || n in QueuedNodes(s.machine.arrivals)
    ensures n in QueuedNodes(start.arrivals)
  {
    if n in s.machine.net.nodes && n in polled {
      PollStamps(s.machine, polled, start.timers, s.nextIndex, s.levels, s.epoch, n);
    } else {
      var e :| e in s.machine.arrivals && e.node == n;
      assert e in start.arrivals;
    }
  }

  /** A cycle's poll and drain. */
  ghost predicate Begun<V>(s: Snapshot<V>, polled: seq<NodeIndex>, start: Machine<V>, rec: Record<V>) {
    Standing(s) && PollLeads(s, polled, start) && Drained(start, s.epoch + 1, rec)
  }

  lemma DrainKeepsShape<V>(net: Net<V>, h: seq<Machine<V>>, epoch: nat, now: Instant)
    requires Draining(h, epoch, now) && SameShape(net, h[0].net)
    ensures SameShape(net, h[|h| - 1].net) && h[|h| - 1].cells.Keys == h[0].cells.Keys
  {
    AllSane(h, |h| - 1, epoch, now);
    DrainKeepsCells(h, |h| - 1, epoch, now);
    SameShapeTransitive(net, h[0].net, h[|h| - 1].net);
  }

  lemma EndsHeld<V>(h: seq<Machine<V>>, epoch: nat, now: Instant)
    requires Draining(h, epoch, now) && Held(h[0])
    ensures Held(h[|h| - 1])
  {
    DrainKeepsHolders(h, |h| - 1, epoch, now);
  }

  lemma EndsMarked<V>(h: seq<Machine<V>>, epoch: nat, now: Instant)
    requires Draining(h, epoch, now) && PoisonDriven(h[0], epoch, |h[0].marked|) && h[|h| - 1].arrivals == []
    ensures var m := h[|h| - 1]; forall c :: c in m.net.nodes && m.net.nodes[c].poisoned ==> c in m.marked
  {
    DrainMarksChildren(h, epoch, now, |h[0].marked|);
  }

  lemma DrainKeepsOwners<V>(start: Machine<V>, epoch: nat, rec: Record<V>)
    requires Drained(start, epoch, rec) && Held(start) && PoisonDriven(start, epoch, |start.marked|)
    ensures Held(LastOf(rec))
    ensures forall c :: c in LastOf(rec).net.nodes && LastOf(rec).net.nodes[c].poisoned ==> c in LastOf(rec).marked
  {
    EndsHeld(rec.history, epoch, rec.now);
    EndsMarked(rec.history, epoch, rec.now);
  }

  /** The state a cycle's drain ends in. */
  lemma DrainEnds<V>(s: Snapshot<V>, polled: seq<NodeIndex>, start: Machine<V>, rec: Record<V>)
    requires Begun(s, polled, start, rec)
    ensures SameShape(s.machine.net, LastOf(rec).net) && Held(LastOf(rec)) && LastOf(rec).cells.Keys == s.machine.cells.Keys
    ensures forall c :: c in LastOf(rec).net.nodes && LastOf(rec).net.nodes[c].poisoned ==> c in LastOf(rec).marked
  {
    var epoch := s.epoch + 1;
    StartOfCycle(s, polled, start);
    DrainKeepsShape(s.machine.net, rec.history, epoch, rec.now);
    DrainKeepsOwners(start, epoch, rec);
  }

  /** A cycle removes exactly what it collects; what stays was never swept or poisoned. */
  lemma CycleKeeps<V>(s: Snapshot<V>, polled: seq<NodeIndex>, start: Machine<V>, rec: Record<V>, m': Machine<V>, n: NodeIndex)
    requires Begun(s, polled, start, rec) && Grown(rec.kept, m', s.nextIndex) && n in s.machine.net.nodes
    ensures n in m'.net.nodes <==> n !in rec.gone
    ensures n !in rec.gone ==> Kept(s.machine, LastOf(rec).cells, m', n)
    ensures n !in rec.gone ==> n !in LastOf(rec).marked && n in LastOf(rec).net.nodes && !LastOf(rec).net.nodes[n].poisoned
  {
    DrainEnds(s, polled, start, rec);
    var last := LastOf(rec);
    if n in rec.gone {
      GoneStays(last, rec.gone, rec.kept, m', s.nextIndex, n);
    } else {
      SurvivorKept(s.machine, last, rec.gone, rec.kept, m', s.nextIndex, n);
      assert n in last.net.nodes && n !in last.marked;
    }
  }

  /** A node's wiring never changes. */
  lemma KeepsWiring<V>(s: Snapshot<V>, move: Move<V>, s': Snapshot<V>, n: NodeIndex)
    requires Moves(s, move, s') && n in s.machine.net.nodes && n in s'.machine.net.nodes
    ensures SameWiring(s.machine.net.nodes[n], s'.machine.net.nodes[n])
  {
    if move.Cycled? { CycleKeeps(s, move.polled, move.start, move.rec, s'.machine, n); }
  }

  lemma GoneStays<V>(last: Machine<V>, gone: set<NodeIndex>, kept: Machine<V>, m': Machine<V>, from: NodeIndex, n: NodeIndex)
    requires Collected(last, gone, kept) && Grown(kept, m', from) && n in gone && n < from
    ensures n !in m'.net.nodes
  {
  }

  lemma FreshStart<V>(s: Snapshot<V>, polled: seq<NodeIndex>, start: Machine<V>)
    requires Standing(s) && PollLeads(s, polled, start) && s.machine.arrivals == []
    ensures FreshlyPolled(start, s.epoch + 1)
    ensures QueuedNodes(start.arrivals) == set n | n in polled && n in s.machine.net.nodes
  {
    PollIsFresh(s.machine, polled, start.timers, s.nextIndex, s.levels, s.epoch);
  }

  lemma FreshDrainSolves<V>(start: Machine<V>, epoch: nat, rec: Record<V>)
    requires Drained(start, epoch, rec) && FreshlyPolled(start, epoch)
    ensures Solves(TurnOf(start, epoch, rec).start, TurnOf(start, epoch, rec).ran)
    ensures LastOf(rec).cells == CellsAfter(TurnOf(start, epoch, rec).start, TurnOf(start, epoch, rec).ran)
  {
    DrainSolves(rec.history, epoch, rec.now);
  }

  /** From a drained queue a drain solves the equations of the nodes polled. */
  lemma CycleSolves<V>(s: Snapshot<V>, polled: seq<NodeIndex>, start: Machine<V>, rec: Record<V>, t: Turn<V>)
    requires Begun(s, polled, start, rec) && s.machine.arrivals == [] && t == TurnOf(start, s.epoch + 1, rec)
    ensures Wellformed(t.start.net) && Solves(t.start, t.ran) && SameShape(s.machine.net, t.start.net)
    ensures t.start.cells == s.machine.cells && CellsAfter(t.start, t.ran) == LastOf(rec).cells
    ensures t.start.seeds == (set n | n in polled && n in s.machine.net.nodes) && t.start.epoch == s.epoch + 1
  {
    StartOfCycle(s, polled, start);
    FreshStart(s, polled, start);
    FreshDrainSolves(start, s.epoch + 1, rec);
  }

  lemma SweptAreGone<V>(start: Machine<V>, epoch: nat, rec: Record<V>, n: NodeIndex)
    requires Drained(start, epoch, rec)
    requires n in TurnOf(start, epoch, rec).ran && ControlOf(TurnOf(start, epoch, rec).ran[n]) == Sweep
    ensures n in LastOf(rec).net.nodes ==> n in rec.gone
  {
    SweptAreMarked(rec.history, |rec.history| - 1, epoch, rec.now, n);
  }

  lemma AllSweptAreGone<V>(s: Snapshot<V>, polled: seq<NodeIndex>, start: Machine<V>, rec: Record<V>, t: Turn<V>)
    requires Begun(s, polled, start, rec) && t == TurnOf(start, s.epoch + 1, rec) && Solves(t.start, t.ran)
    requires SameShape(s.machine.net, t.start.net)
    ensures forall n :: n in t.ran && ControlOf(t.ran[n]) == Sweep ==> n in t.gone
  {
    DrainEnds(s, polled, start, rec);
    forall n | n in t.ran && ControlOf(t.ran[n]) == Sweep
      ensures n in t.gone
    {
      assert Due(t.start, t.ran, n);
      SweptAreGone(start, s.epoch + 1, rec, n);
    }
  }

  /** A cycle that starts with a drained queue solves its equations. */
  lemma CycleIsStep<V>(s: Snapshot<V>, polled: seq<NodeIndex>, start: Machine<V>, rec: Record<V>, s': Snapshot<V>) returns (t: Turn<V>)
    requires Moves(s, Cycled(polled, start, rec), s') && s.machine.arrivals == []
    ensures CycleStep(s.machine, t, s'.machine) && s'.machine.arrivals == []
    ensures t.start.seeds == (set n | n in polled && n in s.machine.net.nodes) && t.start.epoch == s.epoch + 1
  {
    t := TurnOf(start, s.epoch + 1, rec);
    CycleSolves(s, polled, start, rec, t);
    AllSweptAreGone(s, polled, start, rec, t);
    forall n | n in s.machine.net.nodes { CycleKeeps(s, polled, start, rec, s'.machine, n); }
  }

  // ----- depths over whole runs

  lemma MoveKeepsExact<V>(s: Snapshot<V>, move: Move<V>, s': Snapshot<V>)
    requires Moves(s, move, s') && RemovedBy(move) == {} && Exact(s.machine.net)
    ensures Wellformed(s'.machine.net) && Exact(s'.machine.net)
  {
  }

  lemma ExactNext<V>(ss: seq<Snapshot<V>>, moves: seq<Move<V>>, i: nat)
    requires History(ss, moves) && i < |moves| && RemovedBy(moves[i]) == {} && Exact(ss[i].machine.net)
    ensures Wellformed(ss[i + 1].machine.net) && Exact(ss[i + 1].machine.net)
  {
    assert MovesAt(ss, moves, i);
    MoveKeepsExact(ss[i], moves[i], ss[i + 1]);
  }

  lemma StartsWellformed<V>(ss: seq<Snapshot<V>>, moves: seq<Move<V>>)
    requires History(ss, moves)
    ensures Wellformed(ss[0].machine.net)
  {
  }

  lemma {:induction false} ExactUntilRemoval<V>(ss: seq<Snapshot<V>>, moves: seq<Move<V>>, k: nat)
    requires History(ss, moves) && k <= |moves| && Exact(ss[0].machine.net)
    requires forall i :: 0 <= i < k ==> RemovedBy(moves[i]) == {}
    ensures Wellformed(ss[k].machine.net) && Exact(ss[k].machine.net)
  {
    if k == 0 {
      StartsWellformed(ss, moves);
    } else {
      ExactUntilRemoval(ss, moves, k - 1);
      ExactNext(ss, moves, k - 1);
    }
  }

  /** Over any run of builds, handle drops, cycles and failed polls, as long as no node has been removed,
      a node's depth is the length of a longest path from a root to it: one path is as long, and none is longer. */
  lemma DepthsAreLongestPaths<V>(ss: seq<Snapshot<V>>, moves: seq<Move<V>>, k: nat, n: NodeIndex, other: seq<NodeIndex>) returns (path: seq<NodeIndex>)
    requires History(ss, moves) && k <= |moves| && Exact(ss[0].machine.net)
    requires forall i :: 0 <= i < k ==> RemovedBy(moves[i]) == {}
    requires n in ss[k].machine.net.nodes && Path(ss[k].machine.net, other) && other[|other| - 1] == n
    ensures Path(ss[k].machine.net, path) && path[|path| - 1] == n
    ensures |path| - 1 == ss[k].machine.net.nodes[n].depth && |other| <= |path|
  {
    ExactUntilRemoval(ss, moves, k);
    path := DepthIsLongestPath(ss[k].machine.net, n);
    DepthBoundsPaths(ss[k].machine.net, other);
  }
}
