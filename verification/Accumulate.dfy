/** The accumulating stream node: over any run it folds, once for each cycle in which its parent
    broadcasts, what its parent then holds. */
module Accumulate {
  import opened Types
  import opened Scheduling
  import opened Semantics
  import opened Graphs
  import opened Stepping
  import opened Machines
  import opened Poisoning
  import opened Lifecycle
  import opened Invariants
  import opened Execution
  import opened Runs
  import opened Cycles
  import opened Timers
  import opened Following

  /** Node data of a stream graph: a batch of items, or an accumulated total. */
  datatype Value<T, A> = Batch(items: seq<T>) | Total(total: A)

  function ItemsOf<T, A>(value: Value<T, A>): seq<T> {
    if value.Batch? then value.items else []
  }

  /** The items of several batches, in order. */
  function Items<T, A>(values: seq<Value<T, A>>): seq<T> {
    if values == [] then [] else Items(values[..|values| - 1]) + ItemsOf(values[|values| - 1])
  }

  lemma ItemsMore<T, A>(a: seq<Value<T, A>>, value: Value<T, A>)
    ensures Items(a + [value]) == Items(a) + ItemsOf(value)
  {
    assert (a + [value])[..|a|] == a;
  }

  lemma {:induction false} ItemsAppend<T, A>(a: seq<Value<T, A>>, b: seq<Value<T, A>>)
    ensures Items(a + b) == Items(a) + Items(b)
  {
    if b == [] {
      assert a + b == a;
    } else {
      var pre, last := b[..|b| - 1], b[|b| - 1];
      ItemsAppend(a, pre);
      assert a + b == (a + pre) + [last];
      calc {
        Items(a + b);
        { ItemsMore(a + pre, last); }
        (Items(a) + Items(pre)) + ItemsOf(last);
        Items(a) + (Items(pre) + ItemsOf(last));
        Items(a) + Items(b);
      }
    }
  }

  function Fold<T, A>(f: (A, T) -> A, acc: A, items: seq<T>): A {
    if items == [] then acc else f(Fold(f, acc, items[..|items| - 1]), items[|items| - 1])
  }

  lemma {:induction false} FoldAppend<T, A>(f: (A, T) -> A, acc: A, a: seq<T>, b: seq<T>)
    ensures Fold(f, acc, a + b) == Fold(f, Fold(f, acc, a), b)
  {
    if b == [] {
      assert a + b == a;
    } else {
      var pre := b[..|b| - 1];
      FoldAppend(f, acc, a, pre);
      assert (a + b)[..|a + b| - 1] == a + pre;
    }
  }

  /** The closure's loop over the batch, updating the accumulator in place. */
  method AccumulateBatch<T, A>(f: (A, T) -> A, acc: A, items: seq<T>) returns (r: A)
    ensures r == Fold(f, acc, items)
  {
    r := acc;
    for i := 0 to |items|
      invariant r == Fold(f, acc, items[..i])
    {
      r := f(r, items[i]);
      assert items[..i + 1][..i] == items[..i];
    }
    assert items[..|items|] == items;
  }

  function AccumulateFn<T, A>(parent: NodeIndex, f: (A, T) -> A): CycleFn<Value<T, A>> {
    (this_: Value<T, A>, view: View<Value<T, A>>) =>
      Outcome(if this_.Total? && parent in view.data && view.data[parent].Batch?
              then Total(Fold(f, this_.total, view.data[parent].items)) else this_,
              Broadcast, [], [], [])
  }

  /** The accumulator always tells its children, and asks for nothing else. */
  lemma AccumulatorTells<T, A>(parent: NodeIndex, f: (A, T) -> A, this_: Value<T, A>, view: View<Value<T, A>>)
    ensures var out := AccumulateFn(parent, f)(this_, view);
      out.control == Broadcast && out.yielded == [] && out.timers == [] && out.spawns == []
  {
  }

  /** The node's closure, run with the loop over the batch. */
  method AccumulateNode<T, A>(parent: NodeIndex, f: (A, T) -> A, this_: Value<T, A>, view: View<Value<T, A>>) returns (out: Outcome<Value<T, A>>)
    ensures out == AccumulateFn(parent, f)(this_, view)
  {
    var value := this_;
    if this_.Total? && parent in view.data && view.data[parent].Batch? {
      var total := AccumulateBatch(f, this_.total, view.data[parent].items);
      value := Total(total);
    }
    out := Outcome(value, Broadcast, [], [], []);
  }

  // ----- the accumulator in one drain

  /** `a` accumulates `p` and has no other parent. */
  ghost predicate Accumulates<T(!new), A(!new)>(net: Net<Value<T, A>>, a: NodeIndex, p: NodeIndex, f: (A, T) -> A) {
    && OnlyParent(net, p, a)
    && net.nodes[a].cycleFn == AccumulateFn(p, f) && net.nodes[a].inputs == {p}
  }

  /** Before it runs the accumulator has its old total, afterwards its parent's items are folded in. */
  ghost predicate Folded<T, A>(cells: map<NodeIndex, NodeInner<Value<T, A>>>, a: NodeIndex, p: NodeIndex, f: (A, T) -> A, total: A, visits: nat) {
    && a in cells && p in cells
    && cells[a].data == Total(if visits == 0 then total else Fold(f, total, ItemsOf(cells[p].data)))
  }

  lemma FoldedNext<T(!new), A(!new)>(
    m: Machine<Value<T, A>>, epoch: nat, now: Instant, a: NodeIndex, p: NodeIndex, f: (A, T) -> A, total: A, visits: nat)
    requires Runnable(m) && a in m.net.nodes && a != p && !m.net.nodes[a].poisoned && Folded(m.cells, a, p, f, total, visits)
    requires m.net.nodes[a].cycleFn == AccumulateFn(p, f) && m.net.nodes[a].inputs == {p}
    requires Popped(m).node in {p, a} ==> visits == 0
    ensures Folded(Next(m, epoch, now).cells, a, p, f, total, visits + if Popped(m).node == a then 1 else 0)
  {
    if Popped(m).node == a {
      var view := ViewOf({p}, m.cells, epoch, now);
      assert RanNow(m, epoch, now) == Did(AccumulateFn(p, f)(m.cells[a].data, view));
    }
  }

  lemma FoldedFollows<T(!new), A(!new)>(
    h: seq<Machine<Value<T, A>>>, k: nat, epoch: nat, now: Instant, a: NodeIndex, p: NodeIndex, f: (A, T) -> A, total: A, visits: nat)
    requires Draining(h, epoch, now) && 0 < k < |h| && Accumulates(h[0].net, a, p, f) && a != p
    requires a in h[k - 1].net.nodes && !h[k - 1].net.nodes[a].poisoned && Folded(h[k - 1].cells, a, p, f, total, visits)
    requires Follows(h, k - 1, epoch, now) && (Popped(h[k - 1]).node in {p, a} ==> visits == 0)
    ensures Folded(h[k].cells, a, p, f, total, visits + if Popped(h[k - 1]).node == a then 1 else 0)
  {
    AllSane(h, k - 1, epoch, now);
    assert SameWiring(h[0].net.nodes[a], h[k - 1].net.nodes[a]);
    FoldedNext(h[k - 1], epoch, now, a, p, f, total, visits);
  }

  lemma {:induction false} FoldedAt<T(!new), A(!new)>(
    h: seq<Machine<Value<T, A>>>, k: nat, epoch: nat, now: Instant, a: NodeIndex, p: NodeIndex, f: (A, T) -> A, total: A)
    requires Draining(h, epoch, now) && k < |h| && Accumulates(h[0].net, a, p, f) && a != p && Unseeded(h[0], epoch, a)
    requires Folded(h[0].cells, a, p, f, total, 0)
    requires a in h[k].net.nodes && !h[k].net.nodes[a].poisoned
    ensures Folded(h[k].cells, a, p, f, total, Visits(h, k, a))
  {
    if k > 0 {
      AllSane(h, k - 1, epoch, now);
      if h[k - 1].net.nodes[a].poisoned { StaysPoisoned(h, k, epoch, now, a); }
      FoldedAt(h, k - 1, epoch, now, a, p, f, total);
      WokenAt(h, k - 1, epoch, now, p, a);
      WokenFollows(h, k, epoch, now, p, a, Broadcasts(h, k - 1, epoch, now, p) != [], Visits(h, k - 1, a));
      FoldedFollows(h, k, epoch, now, a, p, f, total, Visits(h, k - 1, a));
    }
  }

  // ----- one cycle

  lemma DrainFolds<T(!new), A(!new)>(
    start: Machine<Value<T, A>>, epoch: nat, rec: Record<Value<T, A>>, a: NodeIndex, p: NodeIndex, f: (A, T) -> A, total: A)
    requires Drained(start, epoch, rec) && Accumulates(start.net, a, p, f) && a != p && Unseeded(start, epoch, a)
    requires Folded(start.cells, a, p, f, total, 0)
    requires a in LastOf(rec).net.nodes && !LastOf(rec).net.nodes[a].poisoned
    ensures Folded(LastOf(rec).cells, a, p, f, total, Visits(rec.history, |rec.history| - 1, a))
  {
    FoldedAt(rec.history, |rec.history| - 1, epoch, rec.now, a, p, f, total);
  }

  lemma BegunFolds<T(!new), A(!new)>(
    s: Snapshot<Value<T, A>>, polled: seq<NodeIndex>, start: Machine<Value<T, A>>, rec: Record<Value<T, A>>, epoch: nat,
    a: NodeIndex, p: NodeIndex, f: (A, T) -> A, total: A)
    requires Begun(s, polled, start, rec) && Follower(s.machine, p, a) && a !in polled && epoch == s.epoch + 1 && a != p
    requires Accumulates(s.machine.net, a, p, f) && s.machine.cells[a].data == Total(total)
    requires a in LastOf(rec).net.nodes && !LastOf(rec).net.nodes[a].poisoned
    ensures Folded(LastOf(rec).cells, a, p, f, total, RunsOf(epoch, Cycled(polled, start, rec), a))
  {
    PolledFollower(s, polled, start, p, a);
    DrainFolds(start, epoch, rec, a, p, f, total);
  }

  lemma StaysAccumulator<T(!new), A(!new)>(net: Net<Value<T, A>>, net': Net<Value<T, A>>, a: NodeIndex, p: NodeIndex, f: (A, T) -> A)
    requires Accumulates(net, a, p, f) && OnlyParent(net', p, a) && SameWiring(net.nodes[a], net'.nodes[a])
    ensures Accumulates(net', a, p, f)
  {
  }

  lemma FoundIsFolded<T, A>(
    cells: map<NodeIndex, NodeInner<Value<T, A>>>, epoch: nat, move: Move<Value<T, A>>, s': Snapshot<Value<T, A>>,
    a: NodeIndex, p: NodeIndex, f: (A, T) -> A, total: A, runs: nat)
    requires Folded(cells, a, p, f, total, runs) && runs == if Offered(epoch, move, p) != [] then 1 else 0
    requires forall c :: c in {p, a} ==> c in s'.machine.cells && s'.machine.cells[c].data == cells[c].data
    ensures s'.machine.cells[a].data == Total(Fold(f, total, Items(Found(epoch, move, s', p))))
  {
    assert p in {p, a} && a in {p, a};
    var one := [cells[p].data];
    assert one[..0] == [] && Items(one) == ItemsOf(cells[p].data);
  }

  lemma AccumulateCycle<T(!new), A(!new)>(
    s: Snapshot<Value<T, A>>, polled: seq<NodeIndex>, start: Machine<Value<T, A>>, rec: Record<Value<T, A>>, s': Snapshot<Value<T, A>>,
    epoch: nat, a: NodeIndex, p: NodeIndex, f: (A, T) -> A, total: A)
    requires FollowStep(s, Cycled(polled, start, rec), s', p, a) && Follower(s.machine, p, a) && epoch == s.epoch + 1 && a != p
    requires Accumulates(s.machine.net, a, p, f) && s.machine.cells[a].data == Total(total)
    ensures a in s'.machine.cells
    ensures s'.machine.cells[a].data == Total(Fold(f, total, Items(Found(epoch, Cycled(polled, start, rec), s', p))))
  {
    CycledFollower(s, polled, start, rec, s', p, a);
    BegunFolds(s, polled, start, rec, epoch, a, p, f, total);
    RunsWhenCalled(s, Cycled(polled, start, rec), s', epoch, p, a);
    FoundIsFolded(LastOf(rec).cells, epoch, Cycled(polled, start, rec), s', a, p, f, total, RunsOf(epoch, Cycled(polled, start, rec), a));
  }

  /** One move folds in what the accumulator finds in it. */
  lemma AccumulateMove<T(!new), A(!new)>(
    s: Snapshot<Value<T, A>>, move: Move<Value<T, A>>, s': Snapshot<Value<T, A>>, epoch: nat,
    a: NodeIndex, p: NodeIndex, f: (A, T) -> A, total: A)
    requires FollowStep(s, move, s', p, a) && Follower(s.machine, p, a) && epoch == s.epoch + 1 && a != p
    requires Accumulates(s.machine.net, a, p, f) && s.machine.cells[a].data == Total(total)
    ensures Follower(s'.machine, p, a) && Accumulates(s'.machine.net, a, p, f)
    ensures s'.machine.cells[a].data == Total(Fold(f, total, Items(Found(epoch, move, s', p))))
  {
    StaysFollower(s, move, s', p, a);
    StaysAccumulator(s.machine.net, s'.machine.net, a, p, f);
    assert a in {p, a};
    if move.Cycled? {
      AccumulateCycle(s, move.polled, move.start, move.rec, s', epoch, a, p, f, total);
    }
  }

  // ----- whole runs

  lemma FoldMore<T, A>(f: (A, T) -> A, total: A, parts: seq<seq<Value<T, A>>>, last: seq<Value<T, A>>)
    ensures Fold(f, Fold(f, total, Items(Concat(parts))), Items(last)) == Fold(f, total, Items(Concat(parts + [last])))
  {
    assert (parts + [last])[..|parts|] == parts;
    ItemsAppend(Concat(parts), last);
    FoldAppend(f, total, Items(Concat(parts)), Items(last));
  }

  /** A run in which accumulator and parent stay, and no poll offers the accumulator. */
  ghost predicate AccumulatorRun<T(!new), A(!new)>(
    ss: seq<Snapshot<Value<T, A>>>, moves: seq<Move<Value<T, A>>>, a: NodeIndex, p: NodeIndex, f: (A, T) -> A, total: A)
  {
    && FollowRun(ss, moves, p, a) && a != p
    && Accumulates(ss[0].machine.net, a, p, f) && ss[0].machine.cells[a].data == Total(total)
  }

  ghost predicate Accumulated<T(!new), A(!new)>(
    ss: seq<Snapshot<Value<T, A>>>, moves: seq<Move<Value<T, A>>>, a: NodeIndex, p: NodeIndex, f: (A, T) -> A, total: A, k: nat)
    requires |ss| == |moves| + 1 && k <= |moves|
  {
    && Follower(ss[k].machine, p, a) && Accumulates(ss[k].machine.net, a, p, f)
    && ss[k].machine.cells[a].data == Total(Fold(f, total, Items(Concat(AllFound(ss, moves, p, k)))))
  }

  lemma AccumulateAt<T(!new), A(!new)>(
    ss: seq<Snapshot<Value<T, A>>>, moves: seq<Move<Value<T, A>>>, a: NodeIndex, p: NodeIndex, f: (A, T) -> A, total: A, i: nat)
    requires FollowRun(ss, moves, p, a) && i < |moves| && a != p
    requires Follower(ss[i].machine, p, a) && Accumulates(ss[i].machine.net, a, p, f) && ss[i].machine.cells[a].data == Total(total)
    ensures Follower(ss[i + 1].machine, p, a) && Accumulates(ss[i + 1].machine.net, a, p, f)
    ensures ss[i + 1].machine.cells[a].data == Total(Fold(f, total, Items(FoundAt(ss, moves, p, i))))
  {
    assert FollowStepAt(ss, moves, p, a, i);
    AccumulateMove(ss[i], moves[i], ss[i + 1], ss[i].epoch + 1, a, p, f, total);
  }

  lemma FoundMore<V>(ss: seq<Snapshot<V>>, moves: seq<Move<V>>, p: NodeIndex, k: nat)
    requires |ss| == |moves| + 1 && 0 < k <= |moves|
    ensures AllFound(ss, moves, p, k) == AllFound(ss, moves, p, k - 1) + [FoundAt(ss, moves, p, k - 1)]
  {
  }

  lemma AccumulateNext<T(!new), A(!new)>(
    ss: seq<Snapshot<Value<T, A>>>, moves: seq<Move<Value<T, A>>>, a: NodeIndex, p: NodeIndex, f: (A, T) -> A, total: A, k: nat)
    requires FollowRun(ss, moves, p, a) && a != p && 0 < k <= |moves| && Accumulated(ss, moves, a, p, f, total, k - 1)
    ensures Accumulated(ss, moves, a, p, f, total, k)
  {
    var parts, last := AllFound(ss, moves, p, k - 1), FoundAt(ss, moves, p, k - 1);
    AccumulateAt(ss, moves, a, p, f, Fold(f, total, Items(Concat(parts))), k - 1);
    FoundMore(ss, moves, p, k);
    FoldMore(f, total, parts, last);
  }

  /** Over any run, failed polls included, the accumulator is the fold of its initial value over what it
      has found: what its parent held at the end of each cycle in which it broadcast, once and in order. */
  lemma {:induction false} FoldsTheStream<T(!new), A(!new)>(
    ss: seq<Snapshot<Value<T, A>>>, moves: seq<Move<Value<T, A>>>, a: NodeIndex, p: NodeIndex, f: (A, T) -> A, total: A, k: nat)
    requires AccumulatorRun(ss, moves, a, p, f, total) && k <= |moves|
    ensures Accumulated(ss, moves, a, p, f, total, k)
  {
    if k == 0 {
      assert AllFound(ss, moves, p, 0) == [];
    } else {
      FoldsTheStream(ss, moves, a, p, f, total, k - 1);
      AccumulateNext(ss, moves, a, p, f, total, k);
    }
  }

  /** If no failed poll offers the parent, that is everything it has ever broadcast. */
  lemma FoldsEveryBroadcast<T(!new), A(!new)>(
    ss: seq<Snapshot<Value<T, A>>>, moves: seq<Move<Value<T, A>>>, a: NodeIndex, p: NodeIndex, f: (A, T) -> A, total: A, k: nat)
    requires AccumulatorRun(ss, moves, a, p, f, total) && k <= |moves| && p !in QueuedNodes(ss[0].machine.arrivals)
    requires forall i :: 0 <= i < k && moves[i].PollLost? ==> p !in moves[i].polled
    ensures a in ss[k].machine.cells
    ensures ss[k].machine.cells[a].data == Total(Fold(f, total, Items(Concat(AllOffered(ss, moves, p, k)))))
  {
    FoldsTheStream(ss, moves, a, p, f, total, k);
    FindsEveryBroadcast(ss, moves, p, a, k);
  }

  // ----- a batch that is lost: the parent is offered by a poll that fails and again by the next one

  type Number = Value<int, int>

  function Plus(): (int, int) -> int { (x: int, y: int) => x + y }

  /** Broadcasts the batch [1]; then broadcasts [2], or clears itself without a broadcast. */
  function NextFn(clears: bool): CycleFn<Number> {
    (this_: Number, view: View<Number>) =>
      if this_ == Batch([]) then Outcome(Batch([1]), Broadcast, [], [], [])
      else if clears then Outcome(Batch([]), Unchanged, [], [], [])
      else Outcome(Batch([2]), Broadcast, [], [], [])
  }

  /** Node 1 accumulates node 0; they were last scheduled in epochs `e0` and `e1`. */
  function Sum(clears: bool, e0: nat, e1: nat): Net<Number> {
    Net(map[0 := NodeContext(NextFn(clears), {}, {}, 0, e0, false), 1 := NodeContext(AccumulateFn(0, Plus()), {0}, {0}, 1, e1, false)],
        map[0 := [Edge(1, Trigger)], 1 := []])
  }

  function SumCells(items: seq<int>, e0: nat, total: int, e1: nat): map<NodeIndex, NodeInner<Number>> {
    map[0 := NodeInner(Batch(items), e0, 1, {1}), 1 := NodeInner(Total(total), e1, 1, {})]
  }

  function SumMachine(clears: bool, e0: nat, e1: nat, cells: map<NodeIndex, NodeInner<Number>>, arrivals: seq<Entry>, floor: nat): Machine<Number> {
    Machine(Sum(clears, e0, e1), cells, arrivals, floor, [], [], TimerState(map[], 0), [])
  }

  lemma SumIsWellformed(clears: bool, e0: nat, e1: nat)
    ensures Wellformed(Sum(clears, e0, e1))
  {
    forall p, c | HasEdge(Sum(clears, e0, e1), p, c)
      ensures p == 0 && c == 1
    {
    }
    assert Edge(1, Trigger) in Sum(clears, e0, e1).adj[0];
  }

  lemma SumIsHeld(clears: bool, m: Machine<Number>)
    requires m == SumMachine(clears, 0, 0, SumCells([], 0, 0, 0), [], 0)
    ensures Held(m)
  {
  }

  lemma SumIsNumbered(clears: bool, m: Machine<Number>)
    requires m == SumMachine(clears, 0, 0, SumCells([], 0, 0, 0), [], 0)
    ensures Numbered(m, 2, 2, 0)
  {
  }

  lemma SumIsSettled(clears: bool, m: Machine<Number>)
    requires m == SumMachine(clears, 0, 0, SumCells([], 0, 0, 0), [], 0)
    ensures Settled(m)
  {
  }

  lemma SumStands(clears: bool, m: Machine<Number>)
    requires m == SumMachine(clears, 0, 0, SumCells([], 0, 0, 0), [], 0)
    ensures Standing(Snapshot(m, 2, 2, 0))
  {
    SumIsWellformed(clears, 0, 0);
    SumIsHeld(clears, m);
    SumIsNumbered(clears, m);
    SumIsSettled(clears, m);
    assert Sane(m);
  }

  lemma OneFresh<V>(nodes: map<NodeIndex, NodeContext<V>>, n: NodeIndex, epoch: nat)
    requires n in nodes && nodes[n].schedEpoch != epoch
    ensures Fresh(nodes, [n], epoch) == [Entry(nodes[n].depth, n)]
  {
    assert [n][..0] == [];
  }

  lemma SumPolls(clears: bool, e: nat, cells: map<NodeIndex, NodeInner<Number>>, arrivals: seq<Entry>)
    ensures AfterPoll(SumMachine(clears, e, 0, cells, arrivals, 0), [0], TimerState(map[], 0), e + 1)
         == SumMachine(clears, e + 1, 0, cells, arrivals + [Entry(0, 0)], 0)
  {
    OneFresh(Sum(clears, e, 0).nodes, 0, e + 1);
    assert Stamp(Sum(clears, e, 0).nodes, [0], e + 1) == Sum(clears, e + 1, 0).nodes;
  }

  lemma SumChildren(clears: bool, e0: nat, e1: nat)
    ensures Children(Sum(clears, e0, e1), 0, Broadcast) == [1] && Children(Sum(clears, e0, e1), 1, Broadcast) == []
  {
    var edges := [Edge(1, Trigger)];
    assert edges[1..] == [] && Targets(edges, true) == [1] + Targets(edges[1..], true);
  }

  lemma SumAdmits(clears: bool)
    ensures NextArrivals(Sum(clears, 2, 0), [Entry(0, 0), Entry(0, 0)], Broadcast, 2) == [Entry(0, 0), Entry(1, 1)]
    ensures NodesAfter(Sum(clears, 2, 0), 0, Broadcast, 2) == Sum(clears, 2, 2).nodes
  {
    assert First([Entry(0, 0), Entry(0, 0)]) == 0 && Without([Entry(0, 0), Entry(0, 0)], 0) == [Entry(0, 0)];
    SumChildren(clears, 2, 0);
    OneFresh(Sum(clears, 2, 0).nodes, 1, 2);
  }

  /** The parent runs, and the accumulator is queued. */
  lemma SumBroadcasts(clears: bool, m: Machine<Number>)
    requires m == SumMachine(clears, 2, 0, SumCells([], 0, 0, 0), [Entry(0, 0), Entry(0, 0)], 0)
    ensures Runnable(m) && Popped(m) == Entry(0, 0) && Calls(m, 2, 0, 0)
    ensures Next(m, 2, 0) == SumMachine(clears, 2, 2, SumCells([1], 2, 0, 0), [Entry(0, 0), Entry(1, 1)], 0)
  {
    assert First(m.arrivals) == 0;
    SumAdmits(clears);
    assert m.spawns + OwningAll<Number>([], m.cells.Keys) == [];
  }

  /** What the parent's second run leaves. */
  function SumLeft(clears: bool): seq<int> { if clears then [] else [2] }

  lemma SumQueueStays(clears: bool, control: Control)
    requires control in {Broadcast, Unchanged}
    ensures NextArrivals(Sum(clears, 2, 2), [Entry(0, 0), Entry(1, 1)], control, 2) == [Entry(1, 1)]
    ensures NodesAfter(Sum(clears, 2, 2), 0, control, 2) == Sum(clears, 2, 2).nodes
  {
    assert First([Entry(0, 0), Entry(1, 1)]) == 0 && Without([Entry(0, 0), Entry(1, 1)], 0) == [Entry(1, 1)];
    SumChildren(clears, 2, 2);
    assert [1][..0] == [];
  }

  lemma SumFiresAgain(clears: bool, r: Ran<Number>)
    requires r == FireNow(Sum(clears, 2, 2), SumCells([1], 2, 0, 0), 0, 2, 0)
    ensures r == Did(Outcome(Batch(SumLeft(clears)), if clears then Unchanged else Broadcast, [], [], []))
    ensures CellsWith(SumCells([1], 2, 0, 0), 0, r, 2) == SumCells(SumLeft(clears), 2, 0, 0)
  {
  }

  /** The parent runs again. */
  lemma SumOverwrites(clears: bool, m: Machine<Number>)
    requires m == SumMachine(clears, 2, 2, SumCells([1], 2, 0, 0), [Entry(0, 0), Entry(1, 1)], 0)
    ensures Runnable(m) && Popped(m) == Entry(0, 0) && (Calls(m, 2, 0, 0) <==> !clears)
    ensures Next(m, 2, 0) == SumMachine(clears, 2, 2, SumCells(SumLeft(clears), 2, 0, 0), [Entry(1, 1)], 0)
  {
    assert First(m.arrivals) == 0;
    SumFiresAgain(clears, RanNow(m, 2, 0));
    SumQueueStays(clears, if clears then Unchanged else Broadcast);
    assert m.spawns + OwningAll<Number>([], m.cells.Keys) == [];
  }

  lemma SumFolds(clears: bool)
    ensures Fold(Plus(), 0, SumLeft(clears)) == if clears then 0 else 2
  {
    assert [2][..1] == [2] && [2][..0] == [];
  }

  lemma SumFires(clears: bool, r: Ran<Number>)
    requires r == FireNow(Sum(clears, 2, 2), SumCells(SumLeft(clears), 2, 0, 0), 1, 2, 0)
    ensures r == Did(Outcome(Total(if clears then 0 else 2), Broadcast, [], [], []))
    ensures CellsWith(SumCells(SumLeft(clears), 2, 0, 0), 1, r, 2) == SumCells(SumLeft(clears), 2, if clears then 0 else 2, 2)
  {
    SumFolds(clears);
  }

  lemma SumAccumulates(clears: bool, m: Machine<Number>)
    requires m == SumMachine(clears, 2, 2, SumCells(SumLeft(clears), 2, 0, 0), [Entry(1, 1)], 0)
    ensures Runnable(m) && Popped(m) == Entry(1, 1)
    ensures Next(m, 2, 0) == SumMachine(clears, 2, 2, SumCells(SumLeft(clears), 2, if clears then 0 else 2, 2), [], 1)
  {
    assert First(m.arrivals) == 0 && Without(m.arrivals, 0) == [];
    SumChildren(clears, 2, 2);
    SumFires(clears, RanNow(m, 2, 0));
    assert NodesAfter(m.net, 1, Broadcast, 2) == m.net.nodes;
    assert m.spawns + OwningAll<Number>([], m.cells.Keys) == [];
  }

  lemma OneStep<V>(h: seq<Machine<V>>, m: Machine<V>, epoch: nat, now: Instant) returns (h': seq<Machine<V>>)
    requires Draining(h, epoch, now) && Runnable(h[|h| - 1]) && m == Next(h[|h| - 1], epoch, now)
    ensures h' == h + [m] && Draining(h', epoch, now)
  {
    HistoryGrows(h, h[|h| - 1], epoch, now);
    h' := h + [m];
  }

  lemma ThreeSteps<V>(m0: Machine<V>, m1: Machine<V>, m2: Machine<V>, m3: Machine<V>, epoch: nat, now: Instant) returns (h: seq<Machine<V>>)
    requires Sane(m0) && Runnable(m0) && Runnable(m1) && Runnable(m2)
    requires m1 == Next(m0, epoch, now) && m2 == Next(m1, epoch, now) && m3 == Next(m2, epoch, now)
    ensures |h| == 4 && h[0] == m0 && h[1] == m1 && h[2] == m2 && h[3] == m3 && Draining(h, epoch, now)
  {
    h := OneStep([m0], m1, epoch, now);
    h := OneStep(h, m2, epoch, now);
    h := OneStep(h, m3, epoch, now);
  }

  lemma SumPollLeads(clears: bool, s: Snapshot<Number>, e: nat, cells: map<NodeIndex, NodeInner<Number>>, arrivals: seq<Entry>, m: Machine<Number>)
    requires s.machine == SumMachine(clears, e, 0, cells, arrivals, 0) && s.epoch == e
    requires m == SumMachine(clears, e + 1, 0, cells, arrivals + [Entry(0, 0)], 0)
    ensures PollLeads(s, [0], m)
  {
    SumPolls(clears, e, cells, arrivals);
    NoTimerFires([0]);
  }

  lemma SumBegins(clears: bool) returns (s: Snapshot<Number>)
    ensures s == Snapshot(SumMachine(clears, 0, 0, SumCells([], 0, 0, 0), [], 0), 2, 2, 0) && Standing(s)
  {
    s := Snapshot(SumMachine(clears, 0, 0, SumCells([], 0, 0, 0), [], 0), 2, 2, 0);
    SumStands(clears, s.machine);
  }

  lemma SumFails(clears: bool, s: Snapshot<Number>) returns (failed: Snapshot<Number>)
    requires s == Snapshot(SumMachine(clears, 0, 0, SumCells([], 0, 0, 0), [], 0), 2, 2, 0)
    ensures failed == Snapshot(SumMachine(clears, 1, 0, SumCells([], 0, 0, 0), [Entry(0, 0)], 0), 2, 2, 1)
    ensures PollLeads(s, [0], failed.machine)
  {
    failed := Snapshot(SumMachine(clears, 1, 0, SumCells([], 0, 0, 0), [Entry(0, 0)], 0), 2, 2, 1);
    assert [] + [Entry(0, 0)] == [Entry(0, 0)];
    SumPollLeads(clears, s, 0, SumCells([], 0, 0, 0), [], failed.machine);
  }

  lemma SumIsPolled(clears: bool, start: Machine<Number>) returns (s: Snapshot<Number>, failed: Snapshot<Number>)
    requires start == SumMachine(clears, 2, 0, SumCells([], 0, 0, 0), [Entry(0, 0), Entry(0, 0)], 0)
    ensures Standing(s) && s.epoch == 0 && PollLeads(s, [0], failed.machine)
    ensures failed.epoch == 1 && PollLeads(failed, [0], start)
  {
    s := SumBegins(clears);
    failed := SumFails(clears, s);
    assert [Entry(0, 0)] + [Entry(0, 0)] == [Entry(0, 0), Entry(0, 0)];
    SumPollLeads(clears, failed, 1, SumCells([], 0, 0, 0), [Entry(0, 0)], start);
  }

  /** A node runs in the first two iterations of three, and broadcasts in the first or in both. */
  lemma TwoRuns<V>(h: seq<Machine<V>>, epoch: nat, now: Instant, p: NodeIndex)
    requires |h| == 4 && p in h[1].cells && p in h[2].cells
    requires Runnable(h[0]) && Calls(h[0], epoch, now, p) && Runnable(h[1]) && Popped(h[1]).node == p
    requires Runnable(h[2]) && Popped(h[2]).node != p
    ensures Visits(h, 3, p) == 2
    ensures Broadcasts(h, 3, epoch, now, p) == [h[1].cells[p].data] + if Calls(h[1], epoch, now, p) then [h[2].cells[p].data] else []
  {
    assert Visits(h, 1, p) == Visits(h, 0, p) + 1 && Visits(h, 2, p) == Visits(h, 1, p) + 1;
    assert Broadcasts(h, 1, epoch, now, p) == Broadcasts(h, 0, epoch, now, p) + [h[1].cells[p].data];
    assert Broadcasts(h, 3, epoch, now, p) == Broadcasts(h, 2, epoch, now, p);
  }

  lemma SumAccumulator(clears: bool, e0: nat, e1: nat)
    ensures Accumulates(Sum(clears, e0, e1), 1, 0, Plus())
  {
    assert Edge(1, Trigger) in Sum(clears, e0, e1).adj[0];
  }

  lemma SumIsSane(clears: bool, m: Machine<Number>)
    requires m == SumMachine(clears, 2, 0, SumCells([], 0, 0, 0), [Entry(0, 0), Entry(0, 0)], 0)
    ensures Sane(m)
  {
    SumIsWellformed(clears, 2, 0);
  }

  lemma SumStates(clears: bool) returns (m0: Machine<Number>, m1: Machine<Number>, m2: Machine<Number>, m3: Machine<Number>)
    ensures m0 == SumMachine(clears, 2, 0, SumCells([], 0, 0, 0), [Entry(0, 0), Entry(0, 0)], 0) && Sane(m0)
    ensures Runnable(m0) && Calls(m0, 2, 0, 0) && m1 == Next(m0, 2, 0) && m1.cells == SumCells([1], 2, 0, 0)
    ensures Runnable(m1) && Popped(m1).node == 0 && (Calls(m1, 2, 0, 0) <==> !clears)
    ensures m2 == Next(m1, 2, 0) && m2.cells == SumCells(SumLeft(clears), 2, 0, 0)
    ensures Runnable(m2) && Popped(m2).node == 1
    ensures m3 == Next(m2, 2, 0) && m3.cells == SumCells(SumLeft(clears), 2, if clears then 0 else 2, 2) && m3.arrivals == []
  {
    m0 := SumMachine(clears, 2, 0, SumCells([], 0, 0, 0), [Entry(0, 0), Entry(0, 0)], 0);
    SumIsSane(clears, m0);
    SumBroadcasts(clears, m0);
    m1 := Next(m0, 2, 0);
    SumOverwrites(clears, m1);
    m2 := Next(m1, 2, 0);
    SumAccumulates(clears, m2);
    m3 := Next(m2, 2, 0);
  }

  lemma SumRuns(clears: bool) returns (h: seq<Machine<Number>>)
    ensures |h| == 4 && Draining(h, 2, 0) && h[0] == SumMachine(clears, 2, 0, SumCells([], 0, 0, 0), [Entry(0, 0), Entry(0, 0)], 0)
    ensures h[1].cells == SumCells([1], 2, 0, 0) && h[2].cells == SumCells(SumLeft(clears), 2, 0, 0)
    ensures h[3].cells == SumCells(SumLeft(clears), 2, if clears then 0 else 2, 2) && h[3].arrivals == []
    ensures Runnable(h[0]) && Calls(h[0], 2, 0, 0) && Runnable(h[1]) && Popped(h[1]).node == 0 && (Calls(h[1], 2, 0, 0) <==> !clears)
    ensures Runnable(h[2]) && Popped(h[2]).node == 1
  {
    var m0, m1, m2, m3 := SumStates(clears);
    h := ThreeSteps(m0, m1, m2, m3, 2, 0);
  }

  /** From a standing executor: a poll that offers node 0 fails, the next one offers it again, and the
      drain `h` of that cycle runs it twice before the accumulator behind it. */
  ghost predicate TwiceOffered(s: Snapshot<Number>, failed: Snapshot<Number>, h: seq<Machine<Number>>) {
    && Standing(s) && s.epoch == 0 && PollLeads(s, [0], failed.machine) && failed.epoch == 1
    && |h| == 4 && PollLeads(failed, [0], h[0]) && Draining(h, 2, 0) && h[3].arrivals == []
    && Accumulates(h[0].net, 1, 0, Plus()) && Folded(h[0].cells, 1, 0, Plus(), 0, 0)
    && Visits(h, 3, 0) == 2
  }

  lemma SumTwice(clears: bool) returns (s: Snapshot<Number>, failed: Snapshot<Number>, h: seq<Machine<Number>>)
    ensures TwiceOffered(s, failed, h) && 1 in h[3].cells && h[3].cells[1].data == Total(if clears then 0 else 2)
    ensures Broadcasts(h, 3, 2, 0, 0) == [Batch([1])] + if clears then [] else [Batch([2])]
  {
    h := SumRuns(clears);
    s, failed := SumIsPolled(clears, h[0]);
    SumAccumulator(clears, 2, 0);
    TwoRuns(h, 2, 0, 0);
  }

  /** The parent broadcasts 1 and then 2; the accumulator has only seen 2. */
  lemma LostBatch() returns (s: Snapshot<Number>, failed: Snapshot<Number>, h: seq<Machine<Number>>)
    ensures TwiceOffered(s, failed, h)
    ensures Broadcasts(h, 3, 2, 0, 0) == [Batch([1]), Batch([2])] && 1 in h[3].cells && h[3].cells[1].data == Total(2)
  {
    s, failed, h := SumTwice(false);
  }

  /** The parent broadcasts 1 and then clears itself without a broadcast; the accumulator has seen nothing. */
  lemma ClearedBatch() returns (s: Snapshot<Number>, failed: Snapshot<Number>, h: seq<Machine<Number>>)
    ensures TwiceOffered(s, failed, h)
    ensures Broadcasts(h, 3, 2, 0, 0) == [Batch([1])] && 1 in h[3].cells && h[3].cells[1].data == Total(0)
  {
    s, failed, h := SumTwice(true);
  }
}
