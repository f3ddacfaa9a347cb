/** Boolean gate networks: updating only what was triggered equals recomputing
    every gate from the sources. */
module Gates {
  import opened Types
  import opened Semantics
  import opened Stepping
  import opened Machines
  import opened Lifecycle
  import opened Poisoning
  import opened Building
  import opened Invariants
  import opened Execution
  import opened Runs
  import opened Cycles
  import opened Events

  datatype Kind = And | Or | Xor

  datatype Gate = Gate(kind: Kind, left: NodeIndex, right: NodeIndex)

  function Compute(kind: Kind, left: bool, right: bool): bool {
    match kind
    case And => left && right
    case Or => left || right
    case Xor => left != right
  }

  function Read(view: View<bool>, n: NodeIndex): bool {
    n in view.data && view.data[n]
  }

  /** The cycle function of a gate: overwrite the value, broadcast if it changed. */
  function GateFn(gate: Gate): CycleFn<bool> {
    (this_: bool, view: View<bool>) =>
      var newValue := Compute(gate.kind, Read(view, gate.left), Read(view, gate.right));
      Outcome(newValue, if newValue != this_ then Broadcast else Unchanged, [], [], [])
  }

  function GateBlueprint(gate: Gate, leftDepth: nat, rightDepth: nat, init: bool, bootstrap: bool): Blueprint<bool> {
    Blueprint(GateFn(gate), init,
              [Relation(gate.left, leftDepth, Trigger), Relation(gate.right, rightDepth, Trigger)],
              {gate.left, gate.right}, false, bootstrap)
  }

  ghost predicate IsGate(net: Net<bool>, n: NodeIndex, gate: Gate) {
    && n in net.nodes
    && net.nodes[n].cycleFn == GateFn(gate) && net.nodes[n].inputs == {gate.left, gate.right}
    && TriggerEdge(net, gate.left, n) && TriggerEdge(net, gate.right, n)
  }

  ghost predicate Consistent(cells: map<NodeIndex, NodeInner<bool>>, n: NodeIndex, gate: Gate) {
    && n in cells && gate.left in cells && gate.right in cells
    && cells[n].data == Compute(gate.kind, cells[gate.left].data, cells[gate.right].data)
  }

  /** The truth tables of the three gates. */
  lemma TruthTables()
    ensures Compute(And, true, true) && !Compute(And, true, false) && !Compute(And, false, true) && !Compute(And, false, false)
    ensures Compute(Or, true, true) && Compute(Or, true, false) && Compute(Or, false, true) && !Compute(Or, false, false)
    ensures !Compute(Xor, true, true) && Compute(Xor, true, false) && Compute(Xor, false, true) && !Compute(Xor, false, false)
  {
  }

  lemma GatesAreHonest(gate: Gate)
    ensures Honest(GateFn(gate))
  {
  }

  /** Inputs that are gates themselves are honest, so only sources have to be. */
  lemma InputsAreHonest(net: Net<bool>, gates: map<NodeIndex, Gate>, n: NodeIndex)
    requires forall g :: g in gates ==> IsGate(net, g, gates[g])
    requires n in net.nodes && (n !in gates ==> Honest(net.nodes[n].cycleFn))
    ensures Honest(net.nodes[n].cycleFn)
  {
    if n in gates { GatesAreHonest(gates[n]); }
  }

  // ----- building gates

  method NewGate(executor: Executor<bool>, gate: Gate, init: bool, bootstrap: bool, ghost s: Snapshot<bool>) returns (n: NodeIndex)
    requires executor.Valid() && s == SnapshotOf(executor)
    requires gate.left in executor.graph.nodes && gate.left in executor.store.cells
    requires gate.right in executor.graph.nodes && gate.right in executor.store.cells
    modifies executor.graph, executor.store, executor.scheduler`multiQueue, executor.driver.yieldDriver
    ensures executor.Valid() && Moves(s, Outside, SnapshotOf(executor))
    ensures n !in s.machine.net.nodes && IsGate(executor.graph.Model(), n, gate)
    ensures n in executor.store.cells && executor.store.cells[n].data == init && executor.store.cells[n].external == 1
    ensures executor.driver.yieldDriver.indices == s.machine.yielded + if bootstrap then [n] else []
  {
    var bp := GateBlueprint(gate, executor.graph.nodes[gate.left].depth, executor.graph.nodes[gate.right].depth, init, bootstrap);
    n := BuildOutside(executor, bp, s);
    BuiltGate(s.machine, gate, bp, n, executor.State());
  }

  lemma BuiltGate(m: Machine<bool>, gate: Gate, bp: Blueprint<bool>, n: NodeIndex, m': Machine<bool>)
    requires Wellformed(m.net) && n !in m.net.nodes && Built(m, bp, n, m')
    requires gate.left in m.net.nodes && gate.right in m.net.nodes
    requires bp.cycleFn == GateFn(gate) && bp.captures == {gate.left, gate.right}
    requires bp.relations == [Relation(gate.left, m.net.nodes[gate.left].depth, Trigger),
                              Relation(gate.right, m.net.nodes[gate.right].depth, Trigger)]
    ensures IsGate(m'.net, n, gate)
  {
    var parents := AddManyRelationships(bp.relations);
    var kl, kr := KeyOf(bp.relations[0]), KeyOf(bp.relations[1]);
    assert bp.relations[0] in bp.relations && bp.relations[1] in bp.relations;
    RelationshipsMerge(bp.relations, kl);
    RelationshipsMerge(bp.relations, kr);
    LinkedEdges(m.net, n, m'.net.nodes[n], parents, gate.left, n);
    LinkedEdges(m.net, n, m'.net.nodes[n], parents, gate.right, n);
  }

  // ----- one drain

  ghost predicate RightOrQueued(m: Machine<bool>, g: NodeIndex, gate: Gate) {
    Consistent(m.cells, g, gate) || g in QueuedNodes(m.arrivals)
  }

  /** A gate and its honest inputs, all with their data. */
  ghost predicate Working(m: Machine<bool>, g: NodeIndex, gate: Gate) {
    && IsGate(m.net, g, gate) && g in m.cells
    && forall p :: p in {gate.left, gate.right} ==> p in m.net.nodes && p in m.cells && Honest(m.net.nodes[p].cycleFn)
  }

  /** A gate that runs is right, since its inputs keep their data meanwhile. */
  lemma GateRuns(m: Machine<bool>, epoch: nat, now: Instant, g: NodeIndex, gate: Gate)
    requires Sane(m) && Runnable(m) && Popped(m).node == g && Working(m, g, gate) && !m.net.nodes[g].poisoned
    ensures Consistent(Next(m, epoch, now).cells, g, gate)
  {
    TriggerIsEdge(m.net, gate.left, g);
    TriggerIsEdge(m.net, gate.right, g);
    assert gate.left in {gate.left, gate.right} && gate.right in {gate.left, gate.right};
    var view := ViewOf(m.net.nodes[g].inputs, m.cells, epoch, now);
    assert RanNow(m, epoch, now) == Did(GateFn(gate)(m.cells[g].data, view));
  }

  /** An input that runs keeps its data, or leaves the gate queued. */
  lemma InputRuns(m: Machine<bool>, epoch: nat, now: Instant, base: nat, p: NodeIndex, g: NodeIndex)
    requires Sane(m) && m.arrivals != [] && PoisonDriven(m, epoch, base)
    requires Runnable(m) && Popped(m).node == p && p in m.cells && Honest(m.net.nodes[p].cycleFn)
    requires TriggerEdge(m.net, p, g) && g in m.net.nodes
    requires g in Next(m, epoch, now).net.nodes && !Next(m, epoch, now).net.nodes[g].poisoned
    ensures g in QueuedNodes(Next(m, epoch, now).arrivals) || Next(m, epoch, now).cells[p].data == m.cells[p].data
  {
    var r := RanNow(m, epoch, now);
    assert Popped(m) in m.arrivals;
    TriggerIsEdge(m.net, p, g);
    if ControlOf(r) == Sweep {
      MarkedPoisons(m, epoch, now, g);
    } else if ControlOf(r) == Broadcast {
      ChildrenAreWoken(m.net, p, r);
      StaysQueued(m, epoch, now, g);
    } else {
      var view := ViewOf(m.net.nodes[p].inputs, m.cells, epoch, now);
      assert r == Did(m.net.nodes[p].cycleFn(m.cells[p].data, view));
    }
  }

  /** A node that is neither the gate nor an input of it runs. */
  lemma OtherRuns(m: Machine<bool>, epoch: nat, now: Instant, g: NodeIndex, gate: Gate)
    requires Runnable(m) && Popped(m).node !in {g, gate.left, gate.right} && Consistent(m.cells, g, gate)
    ensures Consistent(Next(m, epoch, now).cells, g, gate)
  {
  }

  /** An input of a right gate runs. */
  lemma InputKeeps(m: Machine<bool>, epoch: nat, now: Instant, base: nat, g: NodeIndex, gate: Gate)
    requires Sane(m) && m.arrivals != [] && PoisonDriven(m, epoch, base) && Working(m, g, gate) && Consistent(m.cells, g, gate)
    requires Runnable(m) && Popped(m).node in {gate.left, gate.right} && Popped(m).node != g
    requires g in Next(m, epoch, now).net.nodes && !Next(m, epoch, now).net.nodes[g].poisoned
    ensures RightOrQueued(Next(m, epoch, now), g, gate)
  {
    InputRuns(m, epoch, now, base, Popped(m).node, g);
  }

  /** Every iteration keeps a gate right or queued, as long as it is not poisoned. */
  lemma GateNext(m: Machine<bool>, epoch: nat, now: Instant, base: nat, g: NodeIndex, gate: Gate)
    requires Sane(m) && m.arrivals != [] && Runnable(m) && PoisonDriven(m, epoch, base)
    requires Working(m, g, gate) && RightOrQueued(m, g, gate) && !m.net.nodes[g].poisoned
    requires g in Next(m, epoch, now).net.nodes && !Next(m, epoch, now).net.nodes[g].poisoned
    ensures RightOrQueued(Next(m, epoch, now), g, gate)
  {
    if Popped(m).node == g {
      GateRuns(m, epoch, now, g, gate);
    } else if g in QueuedNodes(m.arrivals) {
      StaysQueued(m, epoch, now, g);
    } else if Popped(m).node in {gate.left, gate.right} {
      InputKeeps(m, epoch, now, base, g, gate);
    } else {
      OtherRuns(m, epoch, now, g, gate);
    }
  }

  lemma WorkingAt(h: seq<Machine<bool>>, k: nat, epoch: nat, now: Instant, g: NodeIndex, gate: Gate)
    requires Draining(h, epoch, now) && k < |h| && Working(h[0], g, gate)
    ensures Working(h[k], g, gate)
  {
    AllSane(h, k, epoch, now);
    DrainKeepsCells(h, k, epoch, now);
    SameShapeWorking(h[0], h[k], g, gate);
  }

  lemma SameShapeWorking(m: Machine<bool>, m': Machine<bool>, g: NodeIndex, gate: Gate)
    requires Working(m, g, gate) && SameShape(m.net, m'.net) && m'.cells.Keys == m.cells.Keys
    ensures Working(m', g, gate)
  {
    assert SameWiring(m.net.nodes[g], m'.net.nodes[g]);
    forall p | p in {gate.left, gate.right}
      ensures p in m'.net.nodes && p in m'.cells && Honest(m'.net.nodes[p].cycleFn)
    {
      assert SameWiring(m.net.nodes[p], m'.net.nodes[p]);
    }
  }

  lemma GateFollows(h: seq<Machine<bool>>, k: nat, epoch: nat, now: Instant, base: nat, g: NodeIndex, gate: Gate)
    requires Draining(h, epoch, now) && 0 < k < |h| && PoisonDriven(h[k - 1], epoch, base)
    requires Working(h[k - 1], g, gate) && (!h[k - 1].net.nodes[g].poisoned ==> RightOrQueued(h[k - 1], g, gate))
    requires g in h[k].net.nodes && !h[k].net.nodes[g].poisoned
    ensures RightOrQueued(h[k], g, gate)
  {
    AllSane(h, k - 1, epoch, now);
    assert Follows(h, k - 1, epoch, now);
    DrivenNode(h[k - 1], epoch, now, base, g);
    GateNext(h[k - 1], epoch, now, base, g, gate);
  }

  lemma {:induction false} GateAt(h: seq<Machine<bool>>, k: nat, epoch: nat, now: Instant, base: nat, g: NodeIndex, gate: Gate)
    requires Draining(h, epoch, now) && k < |h| && PoisonDriven(h[0], epoch, base)
    requires Working(h[0], g, gate) && RightOrQueued(h[0], g, gate)
    requires g in h[k].net.nodes && !h[k].net.nodes[g].poisoned
    ensures RightOrQueued(h[k], g, gate)
  {
    if k > 0 {
      WorkingAt(h, k - 1, epoch, now, g, gate);
      DrivenAt(h, k - 1, epoch, now, base);
      if !h[k - 1].net.nodes[g].poisoned { GateAt(h, k - 1, epoch, now, base, g, gate); }
      GateFollows(h, k, epoch, now, base, g, gate);
    }
  }

  // ----- one cycle

  lemma BegunGate(s: Snapshot<bool>, polled: seq<NodeIndex>, start: Machine<bool>, rec: Record<bool>, g: NodeIndex, gate: Gate)
    requires Begun(s, polled, start, rec)
    requires Working(s.machine, g, gate) && (RightOrQueued(s.machine, g, gate) || g in s.machine.yielded)
    requires g in LastOf(rec).net.nodes && !LastOf(rec).net.nodes[g].poisoned
    ensures Consistent(LastOf(rec).cells, g, gate)
  {
    PolledGate(s, polled, start, g, gate);
    DrainedGate(start, s.epoch + 1, rec, g, gate);
  }

  /** A gate that was right, pending or left in the queue by a failed poll, is right after the cycle. */
  lemma GateCycle(s: Snapshot<bool>, polled: seq<NodeIndex>, start: Machine<bool>, rec: Record<bool>, s': Snapshot<bool>, g: NodeIndex, gate: Gate)
    requires Moves(s, Cycled(polled, start, rec), s') && g in s'.machine.net.nodes && g in s'.machine.cells
    requires Working(s.machine, g, gate) && (RightOrQueued(s.machine, g, gate) || g in s.machine.yielded)
    ensures Working(s'.machine, g, gate) && Consistent(s'.machine.cells, g, gate)
  {
    assert Begun(s, polled, start, rec);
    KeptGate(s, polled, start, rec, s', g, gate);
    BegunGate(s, polled, start, rec, g, gate);
  }

  /** A gate that stays keeps its inputs and their cells, and all have what the drain gave them. */
  lemma KeptGate(s: Snapshot<bool>, polled: seq<NodeIndex>, start: Machine<bool>, rec: Record<bool>, s': Snapshot<bool>, g: NodeIndex, gate: Gate)
    requires Moves(s, Cycled(polled, start, rec), s') && g in s'.machine.net.nodes && g in s'.machine.cells
    requires Working(s.machine, g, gate)
    ensures Working(s'.machine, g, gate)
    ensures g in LastOf(rec).net.nodes && !LastOf(rec).net.nodes[g].poisoned
    ensures Consistent(LastOf(rec).cells, g, gate) ==> Consistent(s'.machine.cells, g, gate)
  {
    CycleKeeps(s, polled, start, rec, s'.machine, g);
    forall p | p in {gate.left, gate.right}
      ensures p in s'.machine.net.nodes && p in s'.machine.cells && Kept(s.machine, LastOf(rec).cells, s'.machine, p)
    {
      InputHeld(s'.machine, g, p);
      CycleKeeps(s, polled, start, rec, s'.machine, p);
    }
    assert gate.left in {gate.left, gate.right} && gate.right in {gate.left, gate.right};
  }

  lemma PolledGate(s: Snapshot<bool>, polled: seq<NodeIndex>, start: Machine<bool>, g: NodeIndex, gate: Gate)
    requires Standing(s) && PollLeads(s, polled, start)
    requires Working(s.machine, g, gate) && (RightOrQueued(s.machine, g, gate) || g in s.machine.yielded)
    ensures Working(start, g, gate) && RightOrQueued(start, g, gate) && PoisonDriven(start, s.epoch + 1, |start.marked|)
  {
    StartOfCycle(s, polled, start);
    SameShapeWorking(s.machine, start, g, gate);
    if !Consistent(s.machine.cells, g, gate) { PollQueues(s, polled, start, g); }
  }

  lemma DrainedGate(start: Machine<bool>, epoch: nat, rec: Record<bool>, g: NodeIndex, gate: Gate)
    requires Drained(start, epoch, rec) && PoisonDriven(start, epoch, |start.marked|)
    requires Working(start, g, gate) && RightOrQueued(start, g, gate)
    requires g in LastOf(rec).net.nodes && !LastOf(rec).net.nodes[g].poisoned
    ensures Consistent(LastOf(rec).cells, g, gate)
  {
    GateAt(rec.history, |rec.history| - 1, epoch, rec.now, |start.marked|, g, gate);
  }

  // ----- a gate tells its children exactly if its value has changed

  /** In a run the gate takes on its function of what its inputs end with, and broadcasts if that is new. */
  lemma GateRunsTo(h: seq<Machine<bool>>, i: nat, epoch: nat, now: Instant, g: NodeIndex, gate: Gate, value: bool)
    requires Draining(h, epoch, now) && RunsAt(h, i, g) && Working(h[0], g, gate) && NothingMutated(h[0], epoch)
    requires g in h[i].net.nodes && !h[i].net.nodes[g].poisoned
    requires Consistently(h[|h| - 1].cells, gate, value)
    ensures g in h[i].cells && g in h[i + 1].cells && h[i + 1].cells[g].data == value
    ensures Calls(h[i], epoch, now, g) <==> h[i].cells[g].data != value
  {
    assert gate.left in {gate.left, gate.right} && gate.right in {gate.left, gate.right};
    InputIsFinal(h, i, epoch, now, g, gate.left);
    InputIsFinal(h, i, epoch, now, g, gate.right);
    WorkingAt(h, i, epoch, now, g, gate);
    assert Follows(h, i, epoch, now);
    var view := ViewOf(h[i].net.nodes[g].inputs, h[i].cells, epoch, now);
    assert RanNow(h[i], epoch, now) == Did(GateFn(gate)(h[i].cells[g].data, view));
  }

  ghost predicate NothingMutated(m: Machine<bool>, epoch: nat) {
    forall c :: c in m.cells ==> m.cells[c].mutEpoch < epoch
  }

  /** What the gate's function gives for the inputs' data in `cells`. */
  ghost predicate Consistently(cells: map<NodeIndex, NodeInner<bool>>, gate: Gate, value: bool) {
    gate.left in cells && gate.right in cells && value == Compute(gate.kind, cells[gate.left].data, cells[gate.right].data)
  }

  /** So far the gate has broadcast exactly if it has left its first value. */
  ghost predicate Telling(h: seq<Machine<bool>>, k: nat, epoch: nat, now: Instant, g: NodeIndex, value: bool)
    requires k < |h|
  {
    && g in h[0].cells && g in h[k].cells && (h[k].cells[g].data == h[0].cells[g].data || h[k].cells[g].data == value)
    && (BroadcastBefore(h, k, epoch, now, g) <==> h[k].cells[g].data != h[0].cells[g].data)
  }

  lemma TellingNext(h: seq<Machine<bool>>, k: nat, epoch: nat, now: Instant, g: NodeIndex, gate: Gate, value: bool)
    requires Draining(h, epoch, now) && 0 < k < |h| && Working(h[0], g, gate) && NothingMutated(h[0], epoch)
    requires g in h[k - 1].net.nodes && !h[k - 1].net.nodes[g].poisoned
    requires Consistently(h[|h| - 1].cells, gate, value) && Telling(h, k - 1, epoch, now, g, value)
    ensures Telling(h, k, epoch, now, g, value)
  {
    assert Follows(h, k - 1, epoch, now);
    BroadcastMore(h, k, epoch, now, g);
    if RunsAt(h, k - 1, g) {
      GateRunsTo(h, k - 1, epoch, now, g, gate, value);
    } else {
      CellStays(h, k - 1, k, epoch, now, g);
    }
  }

  lemma {:induction false} TellingAt(h: seq<Machine<bool>>, k: nat, epoch: nat, now: Instant, g: NodeIndex, gate: Gate, value: bool)
    requires Draining(h, epoch, now) && k < |h| && Working(h[0], g, gate) && NothingMutated(h[0], epoch)
    requires g in h[k].net.nodes && !h[k].net.nodes[g].poisoned && Consistently(h[|h| - 1].cells, gate, value)
    ensures Telling(h, k, epoch, now, g, value)
  {
    if k > 0 {
      AllSane(h, k - 1, epoch, now);
      if h[k - 1].net.nodes[g].poisoned { PoisonStays(h, k - 1, k, epoch, now, g); }
      TellingAt(h, k - 1, epoch, now, g, gate, value);
      TellingNext(h, k, epoch, now, g, gate, value);
    }
  }

  /** In any drain, whatever its queue held, a gate that is not swept broadcasts if and only if its value
      at the end is not the one it had at the start. */
  lemma GateTellsIff(h: seq<Machine<bool>>, epoch: nat, now: Instant, g: NodeIndex, gate: Gate)
    requires Draining(h, epoch, now) && Working(h[0], g, gate) && NothingMutated(h[0], epoch)
    requires g in h[|h| - 1].net.nodes && !h[|h| - 1].net.nodes[g].poisoned
    ensures g in h[0].cells && g in h[|h| - 1].cells
    ensures BroadcastBefore(h, |h| - 1, epoch, now, g) <==> h[|h| - 1].cells[g].data != h[0].cells[g].data
  {
    WorkingAt(h, |h| - 1, epoch, now, g, gate);
    assert gate.left in {gate.left, gate.right} && gate.right in {gate.left, gate.right};
    var cells := h[|h| - 1].cells;
    TellingAt(h, |h| - 1, epoch, now, g, gate, Compute(gate.kind, cells[gate.left].data, cells[gate.right].data));
  }

  lemma TriggerIsEdge(net: Net<bool>, p: NodeIndex, c: NodeIndex)
    requires Wellformed(net)
    ensures TriggerEdge(net, p, c) ==> HasEdge(net, p, c) && p in net.nodes
  {
  }

  // ----- whole runs

  /** Gates whose inputs still have their data. */
  ghost predicate Wired(net: Net<bool>, gates: map<NodeIndex, Gate>, cells: map<NodeIndex, NodeInner<bool>>) {
    forall g :: g in gates ==> IsGate(net, g, gates[g]) && gates[g].left in cells && gates[g].right in cells
  }

  /** The value of a node recomputed from the sources. */
  ghost function FromScratch(net: Net<bool>, gates: map<NodeIndex, Gate>, cells: map<NodeIndex, NodeInner<bool>>, n: NodeIndex): bool
    requires Wellformed(net) && n in net.nodes && n in cells
    requires Wired(net, gates, cells)
    decreases net.nodes[n].depth
  {
    if n in gates then
      TriggerIsEdge(net, gates[n].left, n);
      TriggerIsEdge(net, gates[n].right, n);
      assert IsGate(net, n, gates[n]);
      Compute(gates[n].kind, FromScratch(net, gates, cells, gates[n].left), FromScratch(net, gates, cells, gates[n].right))
    else cells[n].data
  }

  lemma {:induction false} ConsistentIsFromScratch(net: Net<bool>, gates: map<NodeIndex, Gate>, cells: map<NodeIndex, NodeInner<bool>>, n: NodeIndex)
    requires Wellformed(net) && n in net.nodes && n in cells
    requires Wired(net, gates, cells) && forall g :: g in gates ==> Consistent(cells, g, gates[g])
    ensures cells[n].data == FromScratch(net, gates, cells, n)
    decreases net.nodes[n].depth
  {
    if n in gates {
      TriggerIsEdge(net, gates[n].left, n);
      TriggerIsEdge(net, gates[n].right, n);
      ConsistentIsFromScratch(net, gates, cells, gates[n].left);
      ConsistentIsFromScratch(net, gates, cells, gates[n].right);
    }
  }

  /** A network of gates over honest sources, all still alive. */
  ghost predicate Network(m: Machine<bool>, gates: map<NodeIndex, Gate>) {
    && Wellformed(m.net) && InputsLive(m.net.nodes) && Owned(m.net.nodes, m.cells)
    && gates.Keys <= m.cells.Keys
    && (forall g :: g in gates ==> IsGate(m.net, g, gates[g]))
    && (forall g, p :: g in gates && p in {gates[g].left, gates[g].right} && p !in gates ==> Honest(m.net.nodes[p].cycleFn))
  }

  /** Every gate is right, or its bootstrap is still pending, or a failed poll has left it in the queue. */
  ghost predicate RightOrPending(m: Machine<bool>, gates: map<NodeIndex, Gate>) {
    forall g :: g in gates ==> RightOrQueued(m, g, gates[g]) || g in m.yielded
  }

  ghost predicate AllConsistent(m: Machine<bool>, gates: map<NodeIndex, Gate>) {
    forall g :: g in gates ==> Consistent(m.cells, g, gates[g])
  }

  /** A run in which no gate is dropped: cycles, failed polls, and builds and drops between them. */
  ghost predicate NetworkRun(ss: seq<Snapshot<bool>>, moves: seq<Move<bool>>, gates: map<NodeIndex, Gate>) {
    && History(ss, moves) && Network(ss[0].machine, gates) && RightOrPending(ss[0].machine, gates)
    && forall i :: 0 <= i < |ss| ==> Holds(ss[i].machine, gates)
  }

  ghost predicate Holds(m: Machine<bool>, gates: map<NodeIndex, Gate>) {
    gates.Keys <= m.net.nodes.Keys && gates.Keys <= m.cells.Keys
  }

  lemma NetworkInput(m: Machine<bool>, gates: map<NodeIndex, Gate>, g: NodeIndex, p: NodeIndex)
    requires Network(m, gates) && g in gates && p in {gates[g].left, gates[g].right}
    ensures p in m.net.nodes && p in m.cells && Honest(m.net.nodes[p].cycleFn)
  {
    assert IsGate(m.net, g, gates[g]);
    InputHeld(m, g, p);
    InputsAreHonest(m.net, gates, p);
  }

  lemma NetworkWorks(m: Machine<bool>, gates: map<NodeIndex, Gate>, g: NodeIndex)
    requires Network(m, gates) && g in gates
    ensures Working(m, g, gates[g])
  {
    forall p | p in {gates[g].left, gates[g].right}
      ensures p in m.net.nodes && p in m.cells && Honest(m.net.nodes[p].cycleFn)
    {
      NetworkInput(m, gates, g, p);
    }
  }

  lemma WorkingNetwork(s: Snapshot<bool>, gates: map<NodeIndex, Gate>)
    requires Standing(s) && Holds(s.machine, gates) && forall g :: g in gates ==> Working(s.machine, g, gates[g])
    ensures Network(s.machine, gates)
  {
  }

  /** One cycle makes right every gate that was right or pending. */
  lemma NetworkCycle(s: Snapshot<bool>, polled: seq<NodeIndex>, start: Machine<bool>, rec: Record<bool>, s': Snapshot<bool>, gates: map<NodeIndex, Gate>)
    requires Moves(s, Cycled(polled, start, rec), s') && Holds(s'.machine, gates)
    requires Network(s.machine, gates) && RightOrPending(s.machine, gates)
    ensures Network(s'.machine, gates) && AllConsistent(s'.machine, gates)
  {
    forall g | g in gates
      ensures Working(s'.machine, g, gates[g]) && Consistent(s'.machine.cells, g, gates[g])
    {
      NetworkWorks(s.machine, gates, g);
      GateCycle(s, polled, start, rec, s', g, gates[g]);
    }
    WorkingNetwork(s', gates);
  }

  /** A failed poll leaves every gate right, or in the queue. */
  lemma NetworkPoll(s: Snapshot<bool>, polled: seq<NodeIndex>, s': Snapshot<bool>, gates: map<NodeIndex, Gate>)
    requires Moves(s, PollLost(polled), s') && Holds(s'.machine, gates)
    requires Network(s.machine, gates) && RightOrPending(s.machine, gates)
    ensures Network(s'.machine, gates) && RightOrPending(s'.machine, gates)
  {
    forall g | g in gates
      ensures Working(s'.machine, g, gates[g]) && RightOrQueued(s'.machine, g, gates[g])
    {
      NetworkWorks(s.machine, gates, g);
      PolledGate(s, polled, s'.machine, g, gates[g]);
    }
    WorkingNetwork(s', gates);
  }

  /** What happens between cycles disturbs no gate. */
  lemma NetworkOutside(s: Snapshot<bool>, s': Snapshot<bool>, gates: map<NodeIndex, Gate>)
    requires Moves(s, Outside, s') && Holds(s'.machine, gates)
    requires Network(s.machine, gates) && RightOrPending(s.machine, gates)
    ensures Network(s'.machine, gates) && RightOrPending(s'.machine, gates)
  {
    forall g | g in gates
      ensures Working(s'.machine, g, gates[g]) && (RightOrQueued(s'.machine, g, gates[g]) || g in s'.machine.yielded)
    {
      NetworkWorks(s.machine, gates, g);
      OutsideGate(s, s', g, gates[g]);
    }
    WorkingNetwork(s', gates);
  }

  lemma OutsideGate(s: Snapshot<bool>, s': Snapshot<bool>, g: NodeIndex, gate: Gate)
    requires Moves(s, Outside, s') && Working(s.machine, g, gate) && g in s'.machine.cells
    requires RightOrQueued(s.machine, g, gate) || g in s.machine.yielded
    ensures Working(s'.machine, g, gate) && (RightOrQueued(s'.machine, g, gate) || g in s'.machine.yielded)
  {
    forall p | p in {gate.left, gate.right}
      ensures p in s'.machine.net.nodes && p in s'.machine.cells && s'.machine.net.nodes[p] == s.machine.net.nodes[p]
    {
      InputHeld(s'.machine, g, p);
    }
  }

  lemma InputHeld(m: Machine<bool>, g: NodeIndex, p: NodeIndex)
    requires InputsLive(m.net.nodes) && Owned(m.net.nodes, m.cells)
    requires g in m.net.nodes && p in m.net.nodes[g].inputs
    ensures p in m.net.nodes && p in m.cells
  {
    assert p in m.net.nodes[g].captures;
  }

  /** A new gate joins the network if it starts right, or with its bootstrap pending. */
  lemma GateJoins(s: Snapshot<bool>, gates: map<NodeIndex, Gate>, n: NodeIndex, gate: Gate)
    requires Standing(s) && Network(s.machine, gates) && RightOrPending(s.machine, gates) && n !in gates
    requires IsGate(s.machine.net, n, gate) && n in s.machine.cells
    requires forall p :: p in {gate.left, gate.right} && p !in gates && p in s.machine.net.nodes ==> Honest(s.machine.net.nodes[p].cycleFn)
    requires Consistent(s.machine.cells, n, gate) || n in s.machine.yielded
    ensures Network(s.machine, gates[n := gate]) && RightOrPending(s.machine, gates[n := gate])
  {
    JoinedWorks(s.machine, gates, n, gate);
    forall g | g in gates { NetworkWorks(s.machine, gates, g); }
    WorkingNetwork(s, gates[n := gate]);
  }

  lemma JoinedWorks(m: Machine<bool>, gates: map<NodeIndex, Gate>, n: NodeIndex, gate: Gate)
    requires Network(m, gates) && IsGate(m.net, n, gate) && n in m.cells
    requires forall p :: p in {gate.left, gate.right} && p !in gates && p in m.net.nodes ==> Honest(m.net.nodes[p].cycleFn)
    ensures Working(m, n, gate)
  {
    forall p | p in {gate.left, gate.right}
      ensures p in m.net.nodes && p in m.cells && Honest(m.net.nodes[p].cycleFn)
    {
      InputHeld(m, n, p);
      InputsAreHonest(m.net, gates, p);
    }
  }

  lemma NetworkMoves(s: Snapshot<bool>, move: Move<bool>, s': Snapshot<bool>, gates: map<NodeIndex, Gate>)
    requires Moves(s, move, s') && Holds(s'.machine, gates)
    requires Network(s.machine, gates) && RightOrPending(s.machine, gates)
    ensures Network(s'.machine, gates) && RightOrPending(s'.machine, gates)
    ensures move.Cycled? ==> AllConsistent(s'.machine, gates)
  {
    match move
    case Cycled(polled, start, rec) => NetworkCycle(s, polled, start, rec, s', gates);
    case PollLost(polled) => NetworkPoll(s, polled, s', gates);
    case Outside => NetworkOutside(s, s', gates);
  }

  ghost predicate NetworkAt(ss: seq<Snapshot<bool>>, moves: seq<Move<bool>>, gates: map<NodeIndex, Gate>, k: nat)
    requires |ss| == |moves| + 1 && k < |ss|
  {
    && Network(ss[k].machine, gates) && RightOrPending(ss[k].machine, gates)
    && (k > 0 && moves[k - 1].Cycled? ==> AllConsistent(ss[k].machine, gates))
  }

  lemma NetworkStep(ss: seq<Snapshot<bool>>, moves: seq<Move<bool>>, gates: map<NodeIndex, Gate>, k: nat)
    requires NetworkRun(ss, moves, gates) && 0 < k < |ss| && NetworkAt(ss, moves, gates, k - 1)
    ensures NetworkAt(ss, moves, gates, k)
  {
    assert MovesAt(ss, moves, k - 1);
    NetworkMoves(ss[k - 1], moves[k - 1], ss[k], gates);
  }

  lemma {:induction false} NetworkAlong(ss: seq<Snapshot<bool>>, moves: seq<Move<bool>>, gates: map<NodeIndex, Gate>, k: nat)
    requires NetworkRun(ss, moves, gates) && k < |ss|
    ensures NetworkAt(ss, moves, gates, k)
  {
    if k > 0 {
      NetworkAlong(ss, moves, gates, k - 1);
      NetworkStep(ss, moves, gates, k);
    }
  }

  /** If every gate starts right or with its bootstrap pending, then after every cycle all gates are
      right, whatever polls have failed in between. */
  lemma NetworkStaysRight(ss: seq<Snapshot<bool>>, moves: seq<Move<bool>>, gates: map<NodeIndex, Gate>, k: nat)
    requires NetworkRun(ss, moves, gates) && k < |ss|
    ensures Network(ss[k].machine, gates) && RightOrPending(ss[k].machine, gates)
    ensures k > 0 && moves[k - 1].Cycled? ==> AllConsistent(ss[k].machine, gates)
  {
    NetworkAlong(ss, moves, gates, k);
  }

  /** Incremental evaluation equals evaluation from scratch, after every cycle of every run. */
  lemma IncrementalIsFromScratch(ss: seq<Snapshot<bool>>, moves: seq<Move<bool>>, gates: map<NodeIndex, Gate>, k: nat, n: NodeIndex)
    requires NetworkRun(ss, moves, gates) && 0 < k < |ss| && moves[k - 1].Cycled?
    requires n in ss[k].machine.net.nodes && n in ss[k].machine.cells
    ensures Network(ss[k].machine, gates) && Wired(ss[k].machine.net, gates, ss[k].machine.cells)
    ensures ss[k].machine.cells[n].data == FromScratch(ss[k].machine.net, gates, ss[k].machine.cells, n)
  {
    NetworkStaysRight(ss, moves, gates, k);
    ConsistentIsFromScratch(ss[k].machine.net, gates, ss[k].machine.cells, n);
  }

  /** A cycle of an executor that holds a gate network: the gates still held afterwards are right, and
      after a failed poll they are right or queued. */
  method CycleNetwork(executor: Executor<bool>, now: Instant, later: Instant, timeout: Option<nat>, io: IoResult, ghost gates: map<NodeIndex, Gate>)
    returns (result: CycleResult)
    requires executor.Valid()
    requires Network(executor.State(), gates) && RightOrPending(executor.State(), gates)
    modifies executor.Repr()
    ensures result == Running || result == PollFailed ==> executor.Valid()
    ensures (result == Running || result == PollFailed) && Holds(executor.State(), gates) ==>
      Network(executor.State(), gates) && RightOrPending(executor.State(), gates)
    ensures result == Running && Holds(executor.State(), gates) ==> AllConsistent(executor.State(), gates)
  {
    ghost var s := SnapshotOf(executor);
    ghost var move;
    result, move := RunCycle(executor, now, later, timeout, io, s, executor.driver.Polled(now, io));
    if (result == Running || result == PollFailed) && Holds(executor.State(), gates) {
      NetworkMoves(s, move, SnapshotOf(executor), gates);
    }
  }
}
