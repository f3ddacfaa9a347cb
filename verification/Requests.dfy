/** What a cycle function asks for: subgraphs to spawn, a yield, a timer. */
module Requests {
  import opened Types
  import opened Stepping
  import opened Timers
  import opened Machines
  import opened Lifecycle
  import opened Invariants
  import opened Spawning
  import opened Execution
  import opened Runs
  import opened Cycles

  // ----- spawns

  /** What the user function of the next iteration asks to spawn; a node that is swept asks for nothing. */
  ghost function AskedAt<V>(m: Machine<V>, epoch: nat, now: Instant): seq<Deferred<V>>
    requires Runnable(m)
  {
    if RanNow(m, epoch, now).Did? then RanNow(m, epoch, now).out.spawns else []
  }

  /** What the user functions of the first `k` iterations asked to spawn, in order. */
  ghost function Asked<V>(h: seq<Machine<V>>, k: nat, epoch: nat, now: Instant): seq<Deferred<V>>
    requires k < |h| && Draining(h, epoch, now)
  {
    if k == 0 then []
    else
      assert Follows(h, k - 1, epoch, now);
      Asked(h, k - 1, epoch, now) + AskedAt(h[k - 1], epoch, now)
  }

  /** A spawn asked for is queued as it is, with the handles of those nodes that still have a cell. */
  ghost predicate Granted<V>(asked: Deferred<V>, cells: set<NodeIndex>, d: Deferred<V>) {
    && d.blueprint.cycleFn == asked.blueprint.cycleFn && d.blueprint.data == asked.blueprint.data
    && d.blueprint.relations == asked.blueprint.relations
    && d.blueprint.owned == asked.blueprint.owned && d.blueprint.bootstrap == asked.blueprint.bootstrap
    && (forall c :: c in d.blueprint.captures <==> c in asked.blueprint.captures && c in cells)
    && (forall c :: c in d.handles <==> (c in asked.handles || c in asked.blueprint.captures) && c in cells)
  }

  ghost predicate AllGranted<V>(asked: seq<Deferred<V>>, cells: set<NodeIndex>, spawns: seq<Deferred<V>>) {
    |spawns| == |asked| && forall i :: 0 <= i < |asked| ==> Granted(asked[i], cells, spawns[i])
  }

  lemma GrantedMore<V>(asked: seq<Deferred<V>>, more: seq<Deferred<V>>, cells: set<NodeIndex>, spawns: seq<Deferred<V>>)
    requires AllGranted(asked, cells, spawns)
    ensures AllGranted(asked + more, cells, spawns + OwningAll(more, cells))
  {
    var spawns' := spawns + OwningAll(more, cells);
    forall i | 0 <= i < |asked + more|
      ensures Granted((asked + more)[i], cells, spawns'[i])
    {
      if i >= |asked| {
        assert spawns'[i] == OwningAll(more, cells)[i - |asked|] == Owning(more[i - |asked|], cells);
      }
    }
  }

  lemma AskedNext<V>(m: Machine<V>, epoch: nat, now: Instant)
    requires Runnable(m)
    ensures Next(m, epoch, now).spawns == m.spawns + OwningAll(AskedAt(m, epoch, now), m.cells.Keys)
  {
  }

  lemma QueuedNext<V>(h: seq<Machine<V>>, k: nat, epoch: nat, now: Instant, asked: seq<Deferred<V>>, cells: set<NodeIndex>)
    requires Draining(h, epoch, now) && 0 < k < |h| && h[k - 1].cells.Keys == cells && AllGranted(asked, cells, h[k - 1].spawns)
    ensures Follows(h, k - 1, epoch, now) && AllGranted(asked + AskedAt(h[k - 1], epoch, now), cells, h[k].spawns)
  {
    assert Follows(h, k - 1, epoch, now);
    AskedNext(h[k - 1], epoch, now);
    GrantedMore(asked, AskedAt(h[k - 1], epoch, now), cells, h[k - 1].spawns);
  }

  lemma {:induction false} QueuedAsAsked<V>(h: seq<Machine<V>>, k: nat, epoch: nat, now: Instant)
    requires Draining(h, epoch, now) && k < |h| && h[0].spawns == []
    ensures AllGranted(Asked(h, k, epoch, now), h[0].cells.Keys, h[k].spawns)
  {
    if k > 0 {
      QueuedAsAsked(h, k - 1, epoch, now);
      DrainKeepsCells(h, k - 1, epoch, now);
      QueuedNext(h, k, epoch, now, Asked(h, k - 1, epoch, now), h[0].cells.Keys);
    }
  }

  /** The node built for a spawn asked for: it reads the declared parents that its closure still could capture. */
  ghost predicate BuiltAsAsked<V>(asked: Deferred<V>, cells: set<NodeIndex>, n: NodeIndex, ctx: NodeContext<V>) {
    && ctx.cycleFn == asked.blueprint.cycleFn && !ctx.poisoned
    && (forall p :: p in ctx.inputs <==>
          p in asked.blueprint.captures && p in cells && exists r :: r in asked.blueprint.relations && r.parent == p)
    && (forall c :: c in ctx.captures <==> (c in asked.blueprint.captures && c in cells) || (c == n && asked.blueprint.owned))
  }

  lemma SpawnedAsAsked<V>(m: Machine<V>, n: NodeIndex, m': Machine<V>, asked: Deferred<V>, cells: set<NodeIndex>)
    requires Spawned(m, n, m') && Granted(asked, cells, m.spawns[0])
    ensures n in m'.net.nodes && BuiltAsAsked(asked, cells, n, m'.net.nodes[n])
    ensures n in m'.cells ==> m'.cells[n].data == asked.blueprint.data
  {
    BuiltAsDeclared(m.(spawns := m.spawns[1..]), m.spawns[0].blueprint, n, BuiltIn(m, n, m'));
  }

  /** Nodes between the spawns: those there before, and one more for each spawn. */
  lemma {:induction false} SpawnsAddNodes<V>(ms: seq<Machine<V>>, from: NodeIndex, i: nat, j: nat)
    requires Spawning.Spawning(ms, from) && i <= j < |ms|
    requires forall n :: n in ms[i].net.nodes ==> n < from + i
    ensures forall n :: n in ms[j].net.nodes <==> n in ms[i].net.nodes || from + i <= n < from + j
    ensures forall n :: n in ms[i].net.nodes ==> ms[j].net.nodes[n] == ms[i].net.nodes[n]
  {
    if i < j {
      SpawnsAddNodes(ms, from, i, j - 1);
      assert SpawnStep(ms, from, j - 1);
    }
  }

  lemma SpawnStays<V>(ms: seq<Machine<V>>, from: NodeIndex, i: nat, n: NodeIndex)
    requires Spawning.Spawning(ms, from) && i < |ms| && forall x :: x in ms[0].net.nodes ==> x < from
    requires n in ms[i].net.nodes
    ensures n in ms[|ms| - 1].net.nodes && ms[|ms| - 1].net.nodes[n] == ms[i].net.nodes[n]
  {
    SpawnsAddNodes(ms, from, 0, i);
    SpawnsAddNodes(ms, from, i, |ms| - 1);
  }

  lemma SpawnIsBuilt<V>(ms: seq<Machine<V>>, from: NodeIndex, i: nat, n: NodeIndex, asked: Deferred<V>, cells: set<NodeIndex>)
    requires Spawning.Spawning(ms, from) && i + 1 < |ms| && (forall x :: x in ms[0].net.nodes ==> x < from) && n == from + i
    requires ms[i].spawns != [] && Granted(asked, cells, ms[i].spawns[0])
    ensures n in ms[|ms| - 1].net.nodes && BuiltAsAsked(asked, cells, n, ms[|ms| - 1].net.nodes[n])
  {
    assert SpawnStep(ms, from, i);
    SpawnedAsAsked(ms[i], n, ms[i + 1], asked, cells);
    SpawnStays(ms, from, i + 1, n);
  }

  lemma BuildsAllGranted<V>(
    ms: seq<Machine<V>>, from: NodeIndex, kept: Machine<V>, m: Machine<V>, asked: seq<Deferred<V>>, cells: set<NodeIndex>, i: nat)
    requires SpawnedAll(ms, from, kept, m) && AllGranted(asked, cells, kept.spawns)
    requires forall n :: n in kept.net.nodes ==> n < from
    ensures forall n :: n in m.net.nodes && n >= from <==> from <= n < from + |asked|
    ensures i < |asked| ==> from + i in m.net.nodes && BuiltAsAsked(asked[i], cells, from + i, m.net.nodes[from + i])
  {
    SpawnsInOrder(ms, from, kept, m, i);
    NodesAfterSpawns(ms, from, kept, m, |asked|);
    if i < |asked| { AskedIsBuilt(ms, from, kept, m, i, from + i, asked[i], cells); }
  }

  lemma AskedIsBuilt<V>(ms: seq<Machine<V>>, from: NodeIndex, kept: Machine<V>, m: Machine<V>, i: nat, n: NodeIndex, asked: Deferred<V>, cells: set<NodeIndex>)
    requires SpawnedAll(ms, from, kept, m) && i < |kept.spawns| && Granted(asked, cells, kept.spawns[i]) && n == from + i
    requires forall x :: x in kept.net.nodes ==> x < from
    ensures n in m.net.nodes && BuiltAsAsked(asked, cells, n, m.net.nodes[n])
  {
    SpawnsInOrder(ms, from, kept, m, i);
    SpawnIsBuilt(ms, from, i, n, asked, cells);
  }

  lemma NodesAfterSpawns<V>(ms: seq<Machine<V>>, from: NodeIndex, kept: Machine<V>, m: Machine<V>, count: nat)
    requires SpawnedAll(ms, from, kept, m) && |ms| == count + 1 && forall n :: n in kept.net.nodes ==> n < from
    ensures forall n :: n in m.net.nodes && n >= from <==> from <= n < from + count
  {
    SpawnsAddNodes(ms, from, 0, count);
  }

  /** The spawns asked for in a cycle. */
  ghost function AskedIn<V>(start: Machine<V>, epoch: nat, rec: Record<V>): seq<Deferred<V>>
    requires Drained(start, epoch, rec)
  {
    Asked(rec.history, |rec.history| - 1, epoch, rec.now)
  }

  /** After the drain exactly the spawns asked for are queued, as they were asked for. */
  lemma QueuesWhatWasAsked<V>(start: Machine<V>, epoch: nat, rec: Record<V>)
    requires Drained(start, epoch, rec) && start.spawns == []
    ensures AllGranted(AskedIn(start, epoch, rec), start.cells.Keys, rec.kept.spawns)
  {
    QueuedAsAsked(rec.history, |rec.history| - 1, epoch, rec.now);
  }

  /** Every spawn asked for in a cycle has a node of its own when the cycle ends, in the order in which
      they were asked for, and nothing else has been built. */
  lemma BuildsWhatWasAsked<V>(start: Machine<V>, epoch: nat, rec: Record<V>, from: NodeIndex, m: Machine<V>, i: nat)
    requires Drained(start, epoch, rec) && start.spawns == [] && SpawnedAll(rec.built, from, rec.kept, m)
    requires forall n :: n in rec.kept.net.nodes ==> n < from
    ensures forall n :: n in m.net.nodes && n >= from <==> from <= n < from + |AskedIn(start, epoch, rec)|
    ensures i < |AskedIn(start, epoch, rec)| ==>
      from + i in m.net.nodes && BuiltAsAsked(AskedIn(start, epoch, rec)[i], start.cells.Keys, from + i, m.net.nodes[from + i])
  {
    QueuesWhatWasAsked(start, epoch, rec);
    BuildsAllGranted(rec.built, from, rec.kept, m, AskedIn(start, epoch, rec), start.cells.Keys, i);
  }

  /** The same for every cycle of a run. */
  lemma CycleBuildsWhatWasAsked<V>(
    s: Snapshot<V>, polled: seq<NodeIndex>, start: Machine<V>, rec: Record<V>, m: Machine<V>, epoch: nat, i: nat)
    requires Begun(s, polled, start, rec) && SpawnedAll(rec.built, s.nextIndex, rec.kept, m) && epoch == s.epoch + 1
    ensures forall n :: n in m.net.nodes && n >= s.nextIndex <==> s.nextIndex <= n < s.nextIndex + |AskedIn(start, epoch, rec)|
    ensures i < |AskedIn(start, epoch, rec)| ==>
      && s.nextIndex + i in m.net.nodes
      && BuiltAsAsked(AskedIn(start, epoch, rec)[i], s.machine.cells.Keys, s.nextIndex + i, m.net.nodes[s.nextIndex + i])
  {
    StartsPlain(s, polled, start);
    KeptBelow(s, polled, start, rec);
    BuildsWhatWasAsked(start, epoch, rec, s.nextIndex, m, i);
  }

  lemma StartsPlain<V>(s: Snapshot<V>, polled: seq<NodeIndex>, start: Machine<V>)
    requires Standing(s) && PollLeads(s, polled, start)
    ensures start.spawns == [] && start.cells == s.machine.cells
  {
  }

  lemma KeptBelow<V>(s: Snapshot<V>, polled: seq<NodeIndex>, start: Machine<V>, rec: Record<V>)
    requires Begun(s, polled, start, rec)
    ensures forall n :: n in rec.kept.net.nodes ==> n < s.nextIndex
  {
    DrainEnds(s, polled, start, rec);
    forall n | n in rec.kept.net.nodes
      ensures n in s.machine.net.nodes
    {
      assert n in LastOf(rec).net.nodes;
    }
  }

  // ----- the handles of spawns are counted once and given back once

  lemma SpawnReturnsHandles<V>(m: Machine<V>, n: NodeIndex, m': Machine<V>, c: NodeIndex)
    requires Spawned(m, n, m') && Backed(m.cells, m.spawns) && c in m.cells && c != n && c in m'.cells
    ensures m.cells[c].external - Claims(m.spawns, c) == m'.cells[c].external - Claims(m'.spawns, c)
  {
    var cells := CellsWithNew(m.cells, m.spawns[0].blueprint, n);
    assert c in cells && cells[c].external == m.cells[c].external;
    assert m'.spawns == m.spawns[1..] && m'.cells == Released(cells, m.spawns[0].handles);
    assert Claims(m.spawns, c) <= m.cells[c].external;
  }

  lemma SpawnedCells<V>(m: Machine<V>, n: NodeIndex, m': Machine<V>)
    requires Spawned(m, n, m')
    ensures forall c :: c in m'.cells ==> c in m.cells || c == n
  {
  }

  ghost predicate BackedBelow<V>(m: Machine<V>, n: NodeIndex) {
    Backed(m.cells, m.spawns) && forall x :: x in m.cells ==> x < n
  }

  lemma SpawnStaysBacked<V>(m: Machine<V>, n: NodeIndex, m': Machine<V>, n': NodeIndex)
    requires Spawned(m, n, m') && BackedBelow(m, n) && n' == n + 1
    ensures BackedBelow(m', n')
  {
    SpawnBacked(m, n, m');
    SpawnedCells(m, n, m');
  }

  lemma {:induction false} SpawnsBacked<V>(ms: seq<Machine<V>>, from: NodeIndex, k: nat)
    requires Spawning.Spawning(ms, from) && k < |ms| && BackedBelow(ms[0], from)
    ensures BackedBelow(ms[k], from + k)
  {
    if k > 0 {
      SpawnsBacked(ms, from, k - 1);
      assert SpawnStep(ms, from, k - 1);
      SpawnStaysBacked(ms[k - 1], from + (k - 1), ms[k], from + k);
    }
  }

  /** A cell's handles outside, those counted for the queue left out. */
  ghost function Others<V>(m: Machine<V>, c: NodeIndex): int
    requires c in m.cells
  {
    m.cells[c].external - Claims(m.spawns, c)
  }

  lemma SpawnKeepsOthers<V>(ms: seq<Machine<V>>, from: NodeIndex, k: nat, c: NodeIndex)
    requires Spawning.Spawning(ms, from) && 0 < k < |ms| && Backed(ms[k - 1].cells, ms[k - 1].spawns)
    requires c < from && c in ms[k].cells
    ensures c in ms[k - 1].cells && Others(ms[k], c) == Others(ms[k - 1], c)
  {
    assert SpawnStep(ms, from, k - 1);
    SpawnedCells(ms[k - 1], from + k - 1, ms[k]);
    SpawnReturnsHandles(ms[k - 1], from + k - 1, ms[k], c);
  }

  lemma {:induction false} SpawnsKeepOthers<V>(ms: seq<Machine<V>>, from: NodeIndex, k: nat, c: NodeIndex)
    requires Spawning.Spawning(ms, from) && k < |ms| && BackedBelow(ms[0], from) && c < from && c in ms[k].cells
    ensures c in ms[0].cells && Others(ms[k], c) == Others(ms[0], c)
  {
    if k > 0 {
      SpawnsBacked(ms, from, k - 1);
      SpawnKeepsOthers(ms, from, k, c);
      SpawnsKeepOthers(ms, from, k - 1, c);
    }
  }

  /** When all deferred spawns have run, every cell that is left is held from outside exactly as often
      as at the end of the drain: what was counted for the queue has been given back. */
  lemma HandlesGivenBack<V>(last: Machine<V>, gone: set<NodeIndex>, kept: Machine<V>, ms: seq<Machine<V>>, from: NodeIndex, m: Machine<V>, c: NodeIndex)
    requires Collected(last, gone, kept) && SpawnedAll(ms, from, kept, m)
    requires OwnsExisting(last.spawns, last.cells.Keys) && forall x :: x in last.cells ==> x < from
    requires c < from && c in m.cells
    ensures c in last.cells && m.cells[c].external == last.cells[c].external
  {
    var cells := Retained(last.cells, last.spawns);
    BackedRetained(last.cells, last.spawns);
    BackedSurvive(cells, last.spawns, gone);
    SpawnsKeepOthers(ms, from, |ms| - 1, c);
  }

  lemma BackedRetained<V>(cells: map<NodeIndex, NodeInner<V>>, spawns: seq<Deferred<V>>)
    requires OwnsExisting(spawns, cells.Keys)
    ensures Backed(Retained(cells, spawns), spawns)
  {
  }

  // ----- yields

  /** The node has yielded, or an earlier poll has left it in the queue. */
  ghost predicate Pending<V>(m: Machine<V>, n: NodeIndex) {
    n in m.yielded || n in QueuedNodes(m.arrivals)
  }

  lemma {:induction false} YieldsStay<V>(h: seq<Machine<V>>, i: nat, j: nat, epoch: nat, now: Instant, n: NodeIndex)
    requires Draining(h, epoch, now) && i <= j < |h| && n in h[i].yielded
    ensures n in h[j].yielded
  {
    if i < j {
      YieldsStay(h, i, j - 1, epoch, now, n);
      assert Follows(h, j - 1, epoch, now);
    }
  }

  /** A node that a user function yields is pending after the drain. */
  lemma DrainYields<V>(h: seq<Machine<V>>, i: nat, epoch: nat, now: Instant, n: NodeIndex)
    requires Draining(h, epoch, now) && i + 1 < |h| && Follows(h, i, epoch, now)
    requires RanNow(h[i], epoch, now).Did? && n in RanNow(h[i], epoch, now).out.yielded
    ensures n in h[|h| - 1].yielded
  {
    assert n in h[i + 1].yielded;
    YieldsStay(h, i + 1, |h| - 1, epoch, now, n);
  }

  lemma CycleYields<V>(start: Machine<V>, epoch: nat, rec: Record<V>, m: Machine<V>, from: NodeIndex, i: nat, n: NodeIndex)
    requires Drained(start, epoch, rec) && Grown(rec.kept, m, from) && i + 1 < |rec.history| && Follows(rec.history, i, epoch, rec.now)
    requires RanNow(rec.history[i], epoch, rec.now).Did? && n in RanNow(rec.history[i], epoch, rec.now).out.yielded
    ensures Pending(m, n)
  {
    DrainYields(rec.history, i, epoch, rec.now, n);
    assert n in rec.kept.yielded;
  }

  /** A cycle runs what was pending. */
  lemma CycleRunsPending<V>(s: Snapshot<V>, polled: seq<NodeIndex>, start: Machine<V>, rec: Record<V>, n: NodeIndex) returns (j: nat)
    requires Begun(s, polled, start, rec) && n in s.machine.net.nodes
    requires Pending(s.machine, n) || n in polled
    ensures RunsAt(rec.history, j, n)
  {
    PollQueues(s, polled, start, n);
    j := DrainRunsQueued(start, s.epoch + 1, rec, n);
  }

  lemma DrainRunsQueued<V>(start: Machine<V>, epoch: nat, rec: Record<V>, n: NodeIndex) returns (j: nat)
    requires Drained(start, epoch, rec) && n in QueuedNodes(start.arrivals)
    ensures RunsAt(rec.history, j, n)
  {
    j := QueuedRuns(rec.history, 0, epoch, rec.now, n);
  }

  /** Failed polls, builds and drops leave it pending. */
  lemma StaysPending<V>(s: Snapshot<V>, move: Move<V>, s': Snapshot<V>, n: NodeIndex)
    requires Moves(s, move, s') && !move.Cycled? && n in s.machine.net.nodes
    requires Pending(s.machine, n) || (move.PollLost? && n in move.polled)
    ensures Pending(s'.machine, n)
  {
    if move.PollLost? { PollQueues(s, move.polled, s'.machine, n); }
  }

  /** A cycle among the moves from `i` to `k` runs the node. */
  ghost predicate RunsWithin<V>(moves: seq<Move<V>>, i: nat, k: nat, n: NodeIndex) {
    exists j, x: nat :: i <= j <= k < |moves| && moves[j].Cycled? && RunsAt(moves[j].rec.history, x, n)
  }

  ghost predicate StaysIn<V>(ss: seq<Snapshot<V>>, i: nat, k: nat, n: NodeIndex) {
    k < |ss| && forall j :: i <= j <= k ==> n in ss[j].machine.net.nodes
  }

  /** In any run a pending node is run by the next cycle that succeeds, if it stays until then. */
  lemma {:induction false} PendingRuns<V>(ss: seq<Snapshot<V>>, moves: seq<Move<V>>, i: nat, k: nat, n: NodeIndex)
    requires History(ss, moves) && i <= k < |moves| && moves[k].Cycled? && StaysIn(ss, i, k, n) && Pending(ss[i].machine, n)
    ensures RunsWithin(moves, i, k, n)
    decreases k - i
  {
    PendingNext(ss, moves, i, n);
    if !moves[i].Cycled? { PendingRuns(ss, moves, i + 1, k, n); }
  }

  lemma PendingNext<V>(ss: seq<Snapshot<V>>, moves: seq<Move<V>>, i: nat, n: NodeIndex)
    requires History(ss, moves) && i < |moves| && n in ss[i].machine.net.nodes && Pending(ss[i].machine, n)
    ensures moves[i].Cycled? ==> exists x: nat :: RunsAt(moves[i].rec.history, x, n)
    ensures !moves[i].Cycled? ==> Pending(ss[i + 1].machine, n)
  {
    assert MovesAt(ss, moves, i);
    if moves[i].Cycled? {
      var x := CycleRunsPending(ss[i], moves[i].polled, moves[i].start, moves[i].rec, n);
    } else {
      StaysPending(ss[i], moves[i], ss[i + 1], n);
    }
  }

  /** The user function of iteration `x` of a cycle yields `n`. */
  ghost predicate YieldsIn<V>(move: Move<V>, epoch: nat, x: nat, n: NodeIndex) {
    && move.Cycled? && x + 1 < |move.rec.history| && Runnable(move.rec.history[x])
    && var r := RanNow(move.rec.history[x], epoch, move.rec.now); r.Did? && n in r.out.yielded
  }

  /** A node that a user function yields in one cycle runs in the next one that succeeds. */
  lemma YieldedRuns<V>(ss: seq<Snapshot<V>>, moves: seq<Move<V>>, i: nat, k: nat, x: nat, n: NodeIndex)
    requires History(ss, moves) && i < k < |moves| && moves[k].Cycled? && StaysIn(ss, i + 1, k, n)
    requires YieldsIn(moves[i], ss[i].epoch + 1, x, n)
    ensures RunsWithin(moves, i + 1, k, n)
  {
    YieldLeaves(ss, moves, i, x, n);
    PendingRuns(ss, moves, i + 1, k, n);
  }

  lemma YieldLeaves<V>(ss: seq<Snapshot<V>>, moves: seq<Move<V>>, i: nat, x: nat, n: NodeIndex)
    requires History(ss, moves) && i < |moves| && YieldsIn(moves[i], ss[i].epoch + 1, x, n)
    ensures Pending(ss[i + 1].machine, n)
  {
    assert MovesAt(ss, moves, i);
    MoveYields(ss[i], moves[i], ss[i + 1], ss[i].epoch + 1, x, n);
  }

  lemma MoveYields<V>(s: Snapshot<V>, move: Move<V>, s': Snapshot<V>, epoch: nat, x: nat, n: NodeIndex)
    requires Moves(s, move, s') && epoch == s.epoch + 1 && YieldsIn(move, epoch, x, n)
    ensures Pending(s'.machine, n)
  {
    RecordYields(move.start, epoch, move.rec, s'.machine, s.nextIndex, move, x, n);
  }

  lemma RecordYields<V>(start: Machine<V>, epoch: nat, rec: Record<V>, m: Machine<V>, from: NodeIndex, move: Move<V>, x: nat, n: NodeIndex)
    requires move.Cycled? && move.rec == rec && YieldsIn(move, epoch, x, n)
    requires Drained(start, epoch, rec) && Grown(rec.kept, m, from)
    ensures Pending(m, n)
  {
    assert Follows(rec.history, x, epoch, rec.now);
    CycleYields(start, epoch, rec, m, from, x, n);
  }

  // ----- timers

  /** A timer held keeps its handle and its node. */
  ghost predicate TimersStay(t: TimerState, t': TimerState) {
    forall k :: k in t.timers ==> k in t'.timers && t'.timers[k] == t.timers[k]
  }

  /** Registering a list of timers holds each of them and disturbs none. */
  lemma {:induction false} RegistersAll(t: TimerState, list: seq<(NodeIndex, Instant)>)
    requires Registered(t)
    ensures Registered(RegisterAll(t, list)) && TimersStay(t, RegisterAll(t, list))
    ensures forall x :: x in list ==> exists k :: k in RegisterAll(t, list).timers && k.when == x.1 && RegisterAll(t, list).timers[k] == x.0
  {
    if list != [] {
      var pre, last := list[..|list| - 1], list[|list| - 1];
      RegistersAll(t, pre);
      var before, after := RegisterAll(t, pre), RegisterAll(t, list);
      assert after.timers[TimerSource(last.1, before.sequence)] == last.0;
      forall x | x in list
        ensures exists k :: k in after.timers && k.when == x.1 && after.timers[k] == x.0
      {
        if x in pre {
          var k :| k in before.timers && k.when == x.1 && before.timers[k] == x.0;
          assert k in after.timers && after.timers[k] == x.0;
        } else {
          assert x == last;
        }
      }
    }
  }

  lemma {:induction false} DrainKeepsTimers<V>(h: seq<Machine<V>>, i: nat, j: nat, epoch: nat, now: Instant)
    requires Draining(h, epoch, now) && i <= j < |h| && Registered(h[i].timers)
    ensures Registered(h[j].timers) && TimersStay(h[i].timers, h[j].timers)
  {
    if i < j {
      DrainKeepsTimers(h, i, j - 1, epoch, now);
      assert Follows(h, j - 1, epoch, now);
      RegistersAll(h[j - 1].timers, TimersOf(RanNow(h[j - 1], epoch, now)));
    }
  }

  /** The user function of iteration `x` asks for a timer of node `n` at `when`. */
  ghost predicate AsksTimer<V>(h: seq<Machine<V>>, epoch: nat, now: Instant, x: nat, n: NodeIndex, when: Instant) {
    && x + 1 < |h| && Runnable(h[x])
    && var r := RanNow(h[x], epoch, now); r.Did? && (n, when) in r.out.timers
  }

  ghost predicate Holds(t: TimerState, k: TimerSource, n: NodeIndex) {
    k in t.timers && t.timers[k] == n
  }

  /** A timer asked for by a user function is held, with its node and deadline, when the drain ends. */
  lemma DrainHolds<V>(h: seq<Machine<V>>, epoch: nat, now: Instant, x: nat, n: NodeIndex, when: Instant) returns (k: TimerSource)
    requires Draining(h, epoch, now) && Registered(h[0].timers) && AsksTimer(h, epoch, now, x, n, when)
    ensures k.when == when && Holds(h[|h| - 1].timers, k, n)
  {
    assert Follows(h, x, epoch, now);
    DrainKeepsTimers(h, 0, x, epoch, now);
    RegistersAll(h[x].timers, TimersOf(RanNow(h[x], epoch, now)));
    k :| k in h[x + 1].timers.timers && k.when == when && h[x + 1].timers.timers[k] == n;
    DrainKeepsTimers(h, x + 1, |h| - 1, epoch, now);
  }

  lemma StartRegistered<V>(s: Snapshot<V>, polled: seq<NodeIndex>, start: Machine<V>)
    requires Standing(s) && PollLeads(s, polled, start)
    ensures Registered(start.timers)
  {
    var now :| FiresAt(s.machine.timers, now, polled, start.timers);
  }

  lemma RecordHolds<V>(start: Machine<V>, epoch: nat, rec: Record<V>, m: Machine<V>, from: NodeIndex, x: nat, n: NodeIndex, when: Instant)
    returns (k: TimerSource)
    requires Drained(start, epoch, rec) && Grown(rec.kept, m, from) && Registered(start.timers)
    requires AsksTimer(rec.history, epoch, rec.now, x, n, when)
    ensures k.when == when && Holds(m.timers, k, n)
  {
    k := DrainHolds(rec.history, epoch, rec.now, x, n, when);
  }

  /** So it is after the cycle. */
  lemma CycleHolds<V>(s: Snapshot<V>, polled: seq<NodeIndex>, start: Machine<V>, rec: Record<V>, s': Snapshot<V>, epoch: nat, x: nat, n: NodeIndex, when: Instant)
    returns (k: TimerSource)
    requires Moves(s, Cycled(polled, start, rec), s') && epoch == s.epoch + 1 && AsksTimer(rec.history, epoch, rec.now, x, n, when)
    ensures k.when == when && Holds(s'.machine.timers, k, n)
  {
    StartRegistered(s, polled, start);
    k := RecordHolds(start, epoch, rec, s'.machine, s.nextIndex, x, n, when);
  }

  lemma RecordKeepsTimers<V>(start: Machine<V>, epoch: nat, rec: Record<V>, m: Machine<V>, from: NodeIndex)
    requires Drained(start, epoch, rec) && Grown(rec.kept, m, from) && Registered(start.timers)
    ensures TimersStay(start.timers, m.timers)
  {
    DrainKeepsTimers(rec.history, 0, |rec.history| - 1, epoch, rec.now);
  }

  /** A poll keeps a timer that is not due, and offers the node of one that is. */
  lemma PollFires<V>(s: Snapshot<V>, polled: seq<NodeIndex>, start: Machine<V>, k: TimerSource, n: NodeIndex) returns (now: Instant)
    requires PollLeads(s, polled, start) && Holds(s.machine.timers, k, n)
    ensures now < k.when ==> Holds(start.timers, k, n)
    ensures k.when <= now ==> n in polled && k !in start.timers.timers
  {
    now :| FiresAt(s.machine.timers, now, polled, start.timers);
  }

  lemma CycleFires<V>(s: Snapshot<V>, polled: seq<NodeIndex>, start: Machine<V>, rec: Record<V>, m: Machine<V>, epoch: nat, k: TimerSource, n: NodeIndex)
    requires Begun(s, polled, start, rec) && Grown(rec.kept, m, s.nextIndex) && epoch == s.epoch + 1 && Holds(s.machine.timers, k, n)
    ensures Holds(m.timers, k, n) || n in polled
  {
    var now := PollFires(s, polled, start, k, n);
    StartRegistered(s, polled, start);
    RecordKeepsTimers(start, epoch, rec, m, s.nextIndex);
  }

  /** Between cycles the timer is not cancelled. */
  ghost predicate NotCancelled<V>(ss: seq<Snapshot<V>>, moves: seq<Move<V>>, i: nat, k: nat, src: TimerSource) {
    && k < |moves| && |ss| == |moves| + 1
    && forall j :: i <= j <= k && moves[j].Outside? ==> TimerStays(ss[j].machine.timers, ss[j + 1].machine.timers, src)
  }

  ghost predicate TimerStays(t: TimerState, t': TimerState, src: TimerSource) {
    src in t.timers ==> src in t'.timers && t'.timers[src] == t.timers[src]
  }

  /** A timer held, one move on: it is still held, or its node is run or pending. */
  lemma TimerNext<V>(ss: seq<Snapshot<V>>, moves: seq<Move<V>>, i: nat, src: TimerSource, n: NodeIndex)
    requires History(ss, moves) && i < |moves| && n in ss[i].machine.net.nodes && Holds(ss[i].machine.timers, src, n)
    requires moves[i].Outside? ==> TimerStays(ss[i].machine.timers, ss[i + 1].machine.timers, src)
    ensures
      || Holds(ss[i + 1].machine.timers, src, n)
      || (moves[i].Cycled? && exists x: nat :: RunsAt(moves[i].rec.history, x, n))
      || (!moves[i].Cycled? && Pending(ss[i + 1].machine, n))
  {
    assert MovesAt(ss, moves, i);
    match moves[i]
    case Cycled(polled, start, rec) =>
      CycleFires(ss[i], polled, start, rec, ss[i + 1].machine, ss[i].epoch + 1, src, n);
      if n in polled { var x := CycleRunsPending(ss[i], polled, start, rec, n); }
    case PollLost(polled) =>
      var now := PollFires(ss[i], polled, ss[i + 1].machine, src, n);
      if n in polled { StaysPending(ss[i], moves[i], ss[i + 1], n); }
    case Outside =>
  }

  /** Over any run: once a timer that was not cancelled is not held any more, and a cycle has succeeded
      since, a cycle has run its node. */
  lemma {:induction false} TimerRuns<V>(ss: seq<Snapshot<V>>, moves: seq<Move<V>>, i: nat, k: nat, src: TimerSource, n: NodeIndex)
    requires History(ss, moves) && i <= k < |moves| && moves[k].Cycled? && StaysIn(ss, i, k, n)
    requires Holds(ss[i].machine.timers, src, n) && NotCancelled(ss, moves, i, k, src) && src !in ss[k + 1].machine.timers.timers
    ensures RunsWithin(moves, i, k, n)
    decreases k - i
  {
    TimerNext(ss, moves, i, src, n);
    if Holds(ss[i + 1].machine.timers, src, n) {
      TimerRuns(ss, moves, i + 1, k, src, n);
    } else if !moves[i].Cycled? {
      PendingRuns(ss, moves, i + 1, k, n);
    }
  }
}
