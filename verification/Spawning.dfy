/** The deferred spawns at the end of a cycle: each builds its node, and its closure is dropped. */
module Spawning {
  import opened Types
  import opened Machines
  import opened Lifecycle
  import opened Invariants

  /** The parents that the blueprint names are still in the graph. */
  predicate Buildable<V>(net: Net<V>, bp: Blueprint<V>) {
    forall r :: r in bp.relations ==> r.parent in net.nodes && net.nodes[r.parent].depth == r.depth
  }

  // ----- one spawn

  /** A closure that owned `handles` has been dropped. */
  ghost predicate ClosureDropped<V>(m: Machine<V>, handles: set<NodeIndex>, m': Machine<V>) {
    && m' == m.(cells := Released(m.cells, handles), marked := m'.marked)
    && m.marked <= m'.marked
    && forall c :: c in m'.marked[|m.marked|..] <==> c in m.cells && c !in m'.cells
  }

  /** The state in between: node `n` is built, the closure that built it not yet dropped. */
  ghost function BuiltIn<V>(m: Machine<V>, n: NodeIndex, m': Machine<V>): Machine<V>
    requires m.spawns != []
  {
    m'.(cells := CellsWithNew(m.cells, m.spawns[0].blueprint, n), marked := m.marked)
  }

  /** The oldest deferred spawn has run: node `n` is built, then the closure that built it is dropped. */
  ghost predicate Spawned<V>(m: Machine<V>, n: NodeIndex, m': Machine<V>) {
    && m.spawns != [] && Buildable(m.net, m.spawns[0].blueprint)
    && Built(m.(spawns := m.spawns[1..]), m.spawns[0].blueprint, n, BuiltIn(m, n, m'))
    && ClosureDropped(BuiltIn(m, n, m'), m.spawns[0].handles, m')
  }

  lemma DropMarks<V>(m: Machine<V>, handles: set<NodeIndex>, m': Machine<V>)
    requires ClosureDropped(m, handles, m')
    ensures forall x :: x in m'.marked <==> x in m.marked || (x in m.cells && x !in m'.cells)
  {
    assert m'.marked == m.marked + m'.marked[|m.marked|..];
  }

  lemma DropOwned<V>(nodes: map<NodeIndex, NodeContext<V>>, cells: map<NodeIndex, NodeInner<V>>, handles: set<NodeIndex>)
    requires Owned(nodes, cells)
    ensures Owned(nodes, Released(cells, handles))
  {
  }

  lemma DropKeeps<V>(m: Machine<V>, handles: set<NodeIndex>, m': Machine<V>, nextIndex: NodeIndex, levels: nat, epoch: nat)
    requires Healthy(m, nextIndex, levels, epoch) && ClosureDropped(m, handles, m')
    ensures Healthy(m', nextIndex, levels, epoch)
  {
    DropMarks(m, handles, m');
    DropOwned(m.net.nodes, m.cells, handles);
  }

  lemma DropGrows<V>(m: Machine<V>, handles: set<NodeIndex>, m': Machine<V>, nextIndex: NodeIndex)
    requires ClosureDropped(m, handles, m') && forall c :: c in m.cells ==> c < nextIndex
    ensures Grown(m, m', nextIndex)
    ensures Settled(m.(spawns := [])) ==> Settled(m'.(spawns := []))
  {
    DropMarks(m, handles, m');
  }

  /** The spawns still queued own handles of their own of everything they need. */
  lemma SpawnBacked<V>(m: Machine<V>, n: NodeIndex, m': Machine<V>)
    requires Spawned(m, n, m') && Backed(m.cells, m.spawns) && n !in m.cells
    ensures Backed(m'.cells, m'.spawns)
  {
    var rest := m.spawns[1..];
    forall i, c | 0 <= i < |rest| && c in rest[i].handles
      ensures c in m'.cells
    {
      ClaimsAt(rest, i, c);
      assert rest[i] == m.spawns[i + 1];
      assert Claims(m.spawns, c) <= m.cells[c].external;
    }
    forall i | 0 <= i < |rest|
      ensures rest[i].blueprint.captures <= rest[i].handles
    {
      assert rest[i] == m.spawns[i + 1];
    }
    forall c | c in m'.cells
      ensures Claims(rest, c) <= m'.cells[c].external
    {
      if c == n {
        if Claims(rest, n) > 0 { ClaimedExist(m.spawns, m.cells.Keys, n); }
      } else {
        assert Claims(m.spawns, c) <= m.cells[c].external;
      }
    }
  }

  /** A spawn keeps the invariant of the executor and all that was there. */
  lemma SpawnIsSound<V>(m: Machine<V>, taken: Machine<V>, built: Machine<V>, m': Machine<V>, n: NodeIndex, levels: nat, epoch: nat)
    requires Healthy(built, n + 1, levels, epoch) && Grown(taken, built, n) && Backed(m.cells, m.spawns)
    requires m.spawns != [] && Buildable(m.net, m.spawns[0].blueprint) && taken == m.(spawns := m.spawns[1..])
    requires Built(taken, m.spawns[0].blueprint, n, built) && ClosureDropped(built, m.spawns[0].handles, m')
    ensures Healthy(m', n + 1, levels, epoch) && Grown(m, m', n) && Spawned(m, n, m') && Backed(m'.cells, m'.spawns)
    ensures Settled(built.(spawns := [])) ==> Settled(m'.(spawns := []))
  {
    DropKeeps(built, m.spawns[0].handles, m', n + 1, levels, epoch);
    DropGrows(built, m.spawns[0].handles, m', n + 1);
    GrownTransitive(taken, built, m', n, n + 1);
    assert BuiltIn(m, n, m') == built;
    SpawnBacked(m, n, m');
  }

  /** What a deferred spawn hands on to its node still exists. */
  lemma HandedExist<V>(m: Machine<V>)
    requires m.spawns != [] && Backed(m.cells, m.spawns)
    ensures m.spawns[0].blueprint.captures <= m.cells.Keys
  {
  }

  /** After the build the closure's handles are still counted. */
  lemma HandlesCounted<V>(m: Machine<V>, taken: Machine<V>, n: NodeIndex, built: Machine<V>)
    requires m.spawns != [] && Backed(m.cells, m.spawns) && taken.cells == m.cells && Grown(taken, built, n)
    requires built.cells == CellsWithNew(m.cells, m.spawns[0].blueprint, n)
    ensures forall c :: c in m.spawns[0].handles ==> c in built.cells && built.cells[c].external > 0
  {
    forall c | c in m.spawns[0].handles
      ensures c in built.cells && built.cells[c].external > 0
    {
      assert c in m.cells && Claims(m.spawns, c) <= m.cells[c].external;
    }
  }

  // ----- all of them

  /** `ms` are the states between the deferred spawns, each of which ran the oldest one left. */
  ghost predicate Spawning<V>(ms: seq<Machine<V>>, from: NodeIndex) {
    |ms| > 0 && forall i :: 0 <= i < |ms| - 1 ==> SpawnStep(ms, from, i)
  }

  ghost predicate SpawnStep<V>(ms: seq<Machine<V>>, from: NodeIndex, i: nat)
    requires i + 1 < |ms|
  {
    Spawned(ms[i], from + i, ms[i + 1])
  }

  /** The spawns so far have led from `kept` to `m`. */
  ghost predicate SpawnedSoFar<V>(ms: seq<Machine<V>>, from: NodeIndex, kept: Machine<V>, m: Machine<V>, nextIndex: NodeIndex) {
    Spawning(ms, from) && ms[0] == kept && ms[|ms| - 1] == m && nextIndex == from + |ms| - 1
  }

  lemma SpawnedMore<V>(ms: seq<Machine<V>>, from: NodeIndex, kept: Machine<V>, m: Machine<V>, nextIndex: NodeIndex, m': Machine<V>)
    requires SpawnedSoFar(ms, from, kept, m, nextIndex) && Spawned(m, nextIndex, m')
    ensures SpawnedSoFar(ms + [m'], from, kept, m', nextIndex + 1)
  {
    var ms' := ms + [m'];
    forall i | 0 <= i < |ms'| - 1
      ensures SpawnStep(ms', from, i)
    {
      if i < |ms| - 1 { assert SpawnStep(ms, from, i); }
    }
  }

  /** All spawns deferred in `kept` have run, in order, and led to `m`. */
  ghost predicate SpawnedAll<V>(ms: seq<Machine<V>>, from: NodeIndex, kept: Machine<V>, m: Machine<V>) {
    Spawning(ms, from) && ms[0] == kept && ms[|ms| - 1] == m && m.spawns == []
  }

  /** The spawns so far have run, and the next one names a parent that is gone. */
  ghost predicate SpawnFails<V>(ms: seq<Machine<V>>, from: NodeIndex, kept: Machine<V>) {
    && Spawning(ms, from) && ms[0] == kept
    && var last := ms[|ms| - 1];
    last.spawns != [] && !Buildable(last.net, last.spawns[0].blueprint)
  }

  lemma {:induction false} SpawnsLeft<V>(ms: seq<Machine<V>>, from: NodeIndex, k: nat)
    requires Spawning(ms, from) && k < |ms|
    ensures k <= |ms[0].spawns| && ms[k].spawns == ms[0].spawns[k..]
  {
    if k > 0 {
      SpawnsLeft(ms, from, k - 1);
      assert SpawnStep(ms, from, k - 1);
    }
  }

  /** Every deferred spawn has its node, in the order in which they were deferred. */
  lemma SpawnsInOrder<V>(ms: seq<Machine<V>>, from: NodeIndex, kept: Machine<V>, m: Machine<V>, k: nat)
    requires SpawnedAll(ms, from, kept, m)
    ensures |ms| == |kept.spawns| + 1
    ensures k < |kept.spawns| ==> Spawned(ms[k], from + k, ms[k + 1]) && ms[k].spawns[0] == kept.spawns[k]
  {
    SpawnsLeft(ms, from, |ms| - 1);
    if k < |kept.spawns| {
      SpawnsLeft(ms, from, k);
      assert SpawnStep(ms, from, k);
    }
  }
}
