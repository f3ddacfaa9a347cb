/** The routers: items of each batch go to the live output of their key. */
module Routing {
  import opened Types
  import opened Scheduling
  import opened Semantics
  import opened Stepping
  import opened Machines
  import opened Poisoning
  import opened Building
  import opened Invariants
  import opened Execution
  import opened Runs

  /** A cached output: its node and depth, and the epoch in which it last received items. */
  datatype Slot = Slot(node: NodeIndex, depth: nat, epoch: nat)

  /** `outputs` holds the data of the output nodes still alive. */
  datatype Routes<K, T> = Routes(cache: map<K, Slot>, outputs: map<NodeIndex, seq<T>>)

  /** Cached keys are those of live outputs, each with a node of its own. */
  ghost predicate Paired<K, T>(s: Routes<K, T>) {
    && (forall k :: k in s.cache ==> s.cache[k].node in s.outputs)
    && (forall n :: n in s.outputs ==> exists k :: k in s.cache && s.cache[k].node == n)
    && (forall j, k :: j in s.cache && k in s.cache && s.cache[j].node == s.cache[k].node ==> j == k)
  }

  /** Every output stands at the router's own depth. */
  ghost predicate Level<K, T>(s: Routes<K, T>, depth: nat) {
    forall k :: k in s.cache ==> s.cache[k].depth == depth
  }

  /** The items of a batch with key `k`, in source order. */
  function ForKey<K(==), T>(route: T -> K, items: seq<T>, k: K): seq<T> {
    if items == [] then []
    else
      var last := items[|items| - 1];
      ForKey(route, items[..|items| - 1], k) + if route(last) == k then [last] else []
  }

  /** Every item appears in the output of its own key as often as in the batch, and in no other. */
  lemma {:induction false} Partition<K, T>(route: T -> K, items: seq<T>, k: K, x: T)
    ensures multiset(ForKey(route, items, k))[x] == if route(x) == k then multiset(items)[x] else 0
  {
    if items != [] {
      Partition(route, items[..|items| - 1], k, x);
      assert items == items[..|items| - 1] + [items[|items| - 1]];
    }
  }

  /** Routing a batch is routing its first part and then the rest: an output's items keep their order. */
  lemma {:induction false} ForKeyAppend<K, T>(route: T -> K, a: seq<T>, b: seq<T>, k: K)
    ensures ForKey(route, a + b, k) == ForKey(route, a, k) + ForKey(route, b, k)
  {
    if b == [] {
      assert a + b == a;
    } else {
      var pre := b[..|b| - 1];
      ForKeyAppend(route, a, pre, k);
      assert (a + b)[..|a + b| - 1] == a + pre;
    }
  }

  lemma {:induction false} ForKeyEmpty<K, T>(route: T -> K, items: seq<T>, k: K)
    ensures ForKey(route, items, k) == [] <==> forall x :: x in items ==> route(x) != k
  {
    if items != [] {
      ForKeyEmpty(route, items[..|items| - 1], k);
      assert forall x :: x in items <==> x in items[..|items| - 1] || x == items[|items| - 1];
    }
  }

  /** The state after routing `items` of one batch from state `s`, key by key. */
  ghost predicate Routed<K(!new), T(!new)>(route: T -> K, s: Routes<K, T>, items: seq<T>, epoch: nat, s': Routes<K, T>) {
    && s'.cache.Keys == s.cache.Keys && s'.outputs.Keys == s.outputs.Keys
    && forall k :: k in s.cache ==> RoutedKey(route, s, items, epoch, s', k)
  }

  /** An output that receives items holds just them, after what it may have received earlier in the same epoch. */
  ghost predicate RoutedKey<K(!new), T(!new)>(route: T -> K, s: Routes<K, T>, items: seq<T>, epoch: nat, s': Routes<K, T>, k: K)
    requires k in s.cache
  {
    var slot, mine := s.cache[k], ForKey(route, items, k);
    && k in s'.cache && slot.node in s.outputs && slot.node in s'.outputs
    && (mine == [] ==> s'.cache[k] == slot && s'.outputs[slot.node] == s.outputs[slot.node])
    && (mine != [] ==> s'.cache[k] == slot.(epoch := epoch))
    && (mine != [] ==> s'.outputs[slot.node] == (if slot.epoch == epoch then s.outputs[slot.node] else []) + mine)
  }

  /** The outputs scheduled for `items`: once for each live key without items in this epoch, at its first item. */
  function Woken<K(==), T>(route: T -> K, cache: map<K, Slot>, items: seq<T>, epoch: nat): seq<Entry> {
    if items == [] then []
    else
      var pre, k := items[..|items| - 1], route(items[|items| - 1]);
      Woken(route, cache, pre, epoch) +
      if k in cache && cache[k].epoch != epoch && ForKey(route, pre, k) == [] then [Entry(cache[k].depth, cache[k].node)] else []
  }

  /** Each live output that receives its first items of the epoch is scheduled exactly once, and no other. */
  lemma {:induction false} WokenOnce<K(!new), T(!new)>(route: T -> K, s: Routes<K, T>, items: seq<T>, epoch: nat)
    requires Paired(s)
    ensures DistinctNodes(Woken(route, s.cache, items, epoch))
    ensures forall e :: e in Woken(route, s.cache, items, epoch) <==>
      exists k :: k in s.cache && e == Entry(s.cache[k].depth, s.cache[k].node) && s.cache[k].epoch != epoch && ForKey(route, items, k) != []
  {
    if items != [] {
      var pre, last := items[..|items| - 1], items[|items| - 1];
      var key := route(last);
      WokenOnce(route, s, pre, epoch);
      var w, w' := Woken(route, s.cache, pre, epoch), Woken(route, s.cache, items, epoch);
      forall k
        ensures ForKey(route, items, k) != [] <==> ForKey(route, pre, k) != [] || k == key
      {
      }
      if key in s.cache && s.cache[key].epoch != epoch && ForKey(route, pre, key) == [] {
        forall i | 0 <= i < |w|
          ensures w[i].node != s.cache[key].node
        {
          assert w[i] in w;
        }
      }
    }
  }

  /** The closures of router and outputs, as far as their own data goes: what a router does to its
      outputs and the scheduler is `Router.RunPopped`. */
  function OutputFn<T(==)>(): CycleFn<seq<T>> {
    (this_: seq<T>, view: View<seq<T>>) => Outcome(this_, if this_ != [] then Broadcast else Unchanged, [], [], [])
  }

  /** An output tells its children exactly if it holds items, and keeps them. */
  lemma OutputTells<T>(items: seq<T>, view: View<seq<T>>)
    ensures OutputFn<T>()(items, view).control == Broadcast <==> |items| > 0
    ensures OutputFn<T>()(items, view).control != Sweep && OutputFn<T>()(items, view).data == items
  {
  }

  function RouterFn<T>(): CycleFn<seq<T>> {
    (this_: seq<T>, view: View<seq<T>>) => Outcome(this_, Unchanged, [], [], [])
  }

  class Router<K(==, !new), T(==, !new)> {
    const route: T -> K
    const node: NodeIndex
    const depth: nat
    const source: NodeIndex
    const sourceDepth: nat
    var cache: map<K, Slot>
    var outputs: map<NodeIndex, seq<T>>

    ghost function State(): Routes<K, T>
      reads this
    {
      Routes(cache, outputs)
    }

    ghost predicate Valid()
      reads this
    {
      Paired(State()) && Level(State(), depth) && depth == sourceDepth + 1
    }

    constructor (route: T -> K, node: NodeIndex, source: NodeIndex, sourceDepth: nat)
      ensures Valid() && State() == Routes(map[], map[])
      ensures this.route == route && this.node == node && this.source == source && this.sourceDepth == sourceDepth
    {
      this.route, this.node, this.source, this.sourceDepth, this.depth := route, node, source, sourceDepth, sourceDepth + 1;
      cache, outputs := map[], map[];
    }

    /** Builds an output: it observes the router's source, so it stands at the router's depth. */
    method NewNode(executor: Executor<seq<T>>, ghost m: Machine<seq<T>>) returns (n: NodeIndex)
      requires depth == sourceDepth + 1 && executor.Sound() && m == executor.State() && InputsLive(m.net.nodes)
      requires source in m.net.nodes && m.net.nodes[source].depth == sourceDepth
      modifies executor.graph, executor.store, executor.scheduler`multiQueue, executor.driver.yieldDriver
      ensures executor.Sound() && n == old(executor.graph.nextIndex) && NewOutput(m, executor.State(), source, n, depth)
    {
      n := BuildBelow(executor, source, sourceDepth, OutputFn<T>(), Observe, {}, m);
    }

    /** Makes node `n` the output of a key. The executor is another object. */
    method Insert(key: K, n: NodeIndex, ghost executor: Executor<seq<T>>)
      requires executor.Sound() && !(key in cache && cache[key].node in outputs)
      modifies this
      ensures State() == Created(old(State()), key, n, depth)
      ensures executor.Sound() && executor.State() == old(executor.State())
    {
      cache := cache[key := Slot(n, depth, 0)];
      outputs := outputs[n := []];
      assert unchanged(executor, executor.graph, executor.store, executor.scheduler, executor.gc);
      assert unchanged(executor.driver, executor.driver.timerDriver, executor.driver.yieldDriver);
      assert executor.State() == old(executor.State());
    }

    /** Builds a new output for a key. */
    method NewRoute(executor: Executor<seq<T>>, key: K, ghost m: Machine<seq<T>>) returns (n: NodeIndex)
      requires depth == sourceDepth + 1 && !(key in cache && cache[key].node in outputs)
      requires executor.Sound() && m == executor.State() && InputsLive(m.net.nodes)
      requires source in m.net.nodes && m.net.nodes[source].depth == sourceDepth
      modifies this, executor.graph, executor.store, executor.scheduler`multiQueue, executor.driver.yieldDriver
      ensures n == old(executor.graph.nextIndex) && State() == Created(old(State()), key, n, depth)
      ensures executor.Sound() && NewOutput(m, executor.State(), source, n, depth)
    {
      n := NewNode(executor, m);
      Insert(key, n, executor);
    }

    /** Returns the live output of a key, or makes a new one its output. */
    method Route(executor: Executor<seq<T>>, key: K, ghost m: Machine<seq<T>>) returns (n: NodeIndex)
      requires Valid() && executor.Sound() && m == executor.State() && InputsLive(m.net.nodes)
      requires source in m.net.nodes && m.net.nodes[source].depth == sourceDepth
      requires forall o :: o in outputs ==> o < executor.graph.nextIndex
      modifies this, executor.graph, executor.store, executor.scheduler`multiQueue, executor.driver.yieldDriver
      ensures key in cache && n == cache[key].node && Valid()
      ensures State() == Created(old(State()), key, old(executor.graph.nextIndex), depth)
      ensures executor.Sound() && if n in old(outputs) then executor.State() == m else NewOutput(m, executor.State(), source, n, depth)
      ensures old(Placed(m.net)) ==> Placed(executor.graph.Model())
    {
      if key in cache && cache[key].node in outputs {
        n := cache[key].node;
      } else {
        CreatedPaired(State(), key, executor.graph.nextIndex, depth);
        ghost var before := outputs.Keys;
        n := NewRoute(executor, key, m);
        if PlacedIn(m.net, node, source, before, depth) { PlacedMore(m, executor.State(), node, source, n, before, depth); }
      }
    }

    /** The last handle of an output is dropped: its `on_drop` forgets the key. */
    method DropOutput(key: K, ghost net: Net<seq<T>>)
      requires Valid() && key in cache
      modifies this
      ensures State() == Dropped(old(State()), key) && Valid()
      ensures old(Placed(net)) ==> Placed(net)
    {
      DroppedPaired(State(), key);
      outputs := outputs - {cache[key].node};
      cache := cache - {key};
    }

    /** Appends an item to the live output of its key; one that has not received anything in this
        epoch is cleared and scheduled first. */
    method AppendItem(scheduler: Scheduler, key: K, item: T, epoch: nat)
      requires Level(State(), depth) && scheduler.Valid() && scheduler.currDepth <= depth < |scheduler.multiQueue|
      modifies this, scheduler`multiQueue, scheduler`pendingEvents, scheduler`arrivals
      ensures State() == Appended(old(State()), key, item, epoch)
      ensures scheduler.Valid() && |scheduler.multiQueue| == |old(scheduler.multiQueue)|
      ensures scheduler.arrivals == old(scheduler.arrivals) + Wakeup(old(State()), key, epoch)
    {
      if key in cache && cache[key].node in outputs {
        var slot := cache[key];
        if slot.epoch != epoch {
          outputs := outputs[slot.node := []];
          cache := cache[key := slot.(epoch := epoch)];
          var ok := scheduler.Schedule(slot.node, slot.depth);
          assert ok;
        }
        outputs := outputs[slot.node := outputs[slot.node] + [item]];
      }
    }

    /** Routes one item of a batch of which `done` has been routed. */
    method RouteItem(scheduler: Scheduler, item: T, epoch: nat, ghost s: Routes<K, T>, ghost done: seq<T>, ghost arrivals: seq<Entry>)
      requires Paired(s) && Level(s, depth) && Routed(route, s, done, epoch, State())
      requires scheduler.Valid() && scheduler.currDepth <= depth < |scheduler.multiQueue|
      requires scheduler.arrivals == arrivals + Woken(route, s.cache, done, epoch)
      modifies this, scheduler`multiQueue, scheduler`pendingEvents, scheduler`arrivals
      ensures Routed(route, s, done + [item], epoch, State())
      ensures scheduler.Valid() && |scheduler.multiQueue| == |old(scheduler.multiQueue)|
      ensures scheduler.arrivals == arrivals + Woken(route, s.cache, done + [item], epoch)
    {
      ghost var before := State();
      RoutedLevel(route, s, done, epoch, before, depth);
      AppendItem(scheduler, route(item), item, epoch);
      RoutedMore(route, s, done, item, epoch, before, arrivals);
    }

    /** The loop over the batch of the observing router: the source keeps its items. */
    method RouteBatch(scheduler: Scheduler, items: seq<T>, epoch: nat, ghost s: Routes<K, T>)
      requires Valid() && State() == s && scheduler.Valid() && scheduler.currDepth <= depth < |scheduler.multiQueue|
      modifies this, scheduler`multiQueue, scheduler`pendingEvents, scheduler`arrivals
      ensures Routed(route, s, items, epoch, State()) && Valid()
      ensures scheduler.Valid() && |scheduler.multiQueue| == |old(scheduler.multiQueue)|
      ensures scheduler.arrivals == old(scheduler.arrivals) + Woken(route, s.cache, items, epoch)
    {
      ghost var arrivals, done := scheduler.arrivals, [];
      for i := 0 to |items|
        invariant done == items[..i]
        invariant Routed(route, s, done, epoch, State())
        invariant scheduler.Valid() && |scheduler.multiQueue| == |old(scheduler.multiQueue)|
        invariant scheduler.arrivals == arrivals + Woken(route, s.cache, done, epoch)
      {
        RouteItem(scheduler, items[i], epoch, s, done, arrivals);
        done := done + [items[i]];
      }
      assert done == items;
      RoutedValid(route, s, items, epoch, State(), depth);
    }

    /** Takes the first of the items left. */
    method TakeItem(scheduler: Scheduler, left: seq<T>, epoch: nat, ghost s: Routes<K, T>, ghost done: seq<T>, ghost arrivals: seq<Entry>)
      returns (left': seq<T>, ghost done': seq<T>)
      requires left != [] && Paired(s) && Level(s, depth) && Routed(route, s, done, epoch, State())
      requires scheduler.Valid() && scheduler.currDepth <= depth < |scheduler.multiQueue|
      requires scheduler.arrivals == arrivals + Woken(route, s.cache, done, epoch)
      modifies this, scheduler`multiQueue, scheduler`pendingEvents, scheduler`arrivals
      ensures done' + left' == done + left && |left'| < |left|
      ensures Routed(route, s, done', epoch, State())
      ensures scheduler.Valid() && |scheduler.multiQueue| == |old(scheduler.multiQueue)|
      ensures scheduler.arrivals == arrivals + Woken(route, s.cache, done', epoch)
    {
      RouteItem(scheduler, left[0], epoch, s, done, arrivals);
      left', done' := left[1..], done + [left[0]];
    }

    /** The loop of the taking router drains its source. */
    method TakeBatch(scheduler: Scheduler, items: seq<T>, epoch: nat, ghost s: Routes<K, T>) returns (left: seq<T>)
      requires Valid() && State() == s && scheduler.Valid() && scheduler.currDepth <= depth < |scheduler.multiQueue|
      modifies this, scheduler`multiQueue, scheduler`pendingEvents, scheduler`arrivals
      ensures left == []
      ensures Routed(route, s, items, epoch, State()) && Valid()
      ensures scheduler.Valid() && |scheduler.multiQueue| == |old(scheduler.multiQueue)|
      ensures scheduler.arrivals == old(scheduler.arrivals) + Woken(route, s.cache, items, epoch)
    {
      ghost var arrivals, done := scheduler.arrivals, [];
      left := items;
      while left != []
        invariant items == done + left
        invariant Routed(route, s, done, epoch, State())
        invariant scheduler.Valid() && |scheduler.multiQueue| == |old(scheduler.multiQueue)|
        invariant scheduler.arrivals == arrivals + Woken(route, s.cache, done, epoch)
        decreases |left|
      {
        left, done := TakeItem(scheduler, left, epoch, s, done, arrivals);
      }
      assert done == items;
      RoutedValid(route, s, items, epoch, State(), depth);
    }

    /** Where the router and its outputs stand in the graph. */
    ghost predicate Placed(net: Net<seq<T>>)
      reads this
    {
      node !in outputs && PlacedIn(net, node, source, outputs.Keys, depth)
    }

    /** The executor pops the router, whose closure observes its source. The popped entry's depth is
        that of every output, so the scheduler takes each output that receives items. */
    method PopAndRoute(executor: Executor<seq<T>>, items: seq<T>, ghost m: Machine<seq<T>>, ghost s: Routes<K, T>)
      requires Valid() && State() == s && executor.Sound() && m == executor.State() && Placed(m.net)
      requires Runnable(m) && Popped(m).node == node
      modifies this, executor.scheduler
      ensures Valid() && Routed(route, s, items, executor.epoch, State())
      ensures executor.scheduler.Valid() && |executor.scheduler.multiQueue| == |old(executor.scheduler.multiQueue)|
      ensures executor.State() == Scheduled(m, Woken(route, s.cache, items, executor.epoch))
    {
      var epoch := executor.epoch;
      PopNext(executor, m);
      RouteBatch(executor.scheduler, items, epoch, s);
      assert executor.epoch == epoch;
    }

    /** An iteration of the drain that runs the router: the drain's invariant goes on. */
    method RunPopped(executor: Executor<seq<T>>, ghost m: Machine<seq<T>>, ghost s: Routes<K, T>)
      requires Valid() && State() == s && executor.Sound() && m == executor.State() && Placed(m.net)
      requires Runnable(m) && Popped(m).node == node && source in m.cells
      modifies this, executor.scheduler
      ensures Valid() && Placed(m.net) && Routed(route, s, m.cells[source].data, executor.epoch, State())
      ensures executor.Sound()
      ensures executor.State() == Scheduled(m, Woken(route, s.cache, m.cells[source].data, executor.epoch))
    {
      RouterKeeps(route, s, m.cells[source].data, m, node, source, depth, executor.graph.nextIndex, |executor.scheduler.multiQueue|, executor.epoch);
      PopAndRoute(executor, executor.store.cells[source].data, m, s);
      RoutedKeys(route, s, m.cells[source].data, executor.epoch, State());
    }

    method PopAndTake(executor: Executor<seq<T>>, items: seq<T>, ghost m: Machine<seq<T>>, ghost s: Routes<K, T>) returns (left: seq<T>)
      requires Valid() && State() == s && executor.Sound() && m == executor.State() && Placed(m.net)
      requires Runnable(m) && Popped(m).node == node
      modifies this, executor.scheduler
      ensures left == [] && Valid() && Routed(route, s, items, executor.epoch, State())
      ensures executor.scheduler.Valid() && |executor.scheduler.multiQueue| == |old(executor.scheduler.multiQueue)|
      ensures executor.State() == Scheduled(m, Woken(route, s.cache, items, executor.epoch))
    {
      var epoch := executor.epoch;
      PopNext(executor, m);
      left := TakeBatch(executor.scheduler, items, epoch, s);
      assert executor.epoch == epoch;
    }

    method TakeNext(executor: Executor<seq<T>>, items: seq<T>, ghost m: Machine<seq<T>>, ghost s: Routes<K, T>) returns (left: seq<T>)
      requires Valid() && State() == s && executor.Sound() && m == executor.State() && Placed(m.net)
      requires Runnable(m) && Popped(m).node == node
      modifies this, executor.scheduler
      ensures left == [] && Valid() && Placed(m.net) && Routed(route, s, items, executor.epoch, State())
      ensures executor.Sound() && executor.State() == Scheduled(m, Woken(route, s.cache, items, executor.epoch))
    {
      RouterKeeps(route, s, items, m, node, source, depth, executor.graph.nextIndex, |executor.scheduler.multiQueue|, executor.epoch);
      left := PopAndTake(executor, items, m, s);
      RoutedKeys(route, s, items, executor.epoch, State());
    }

    /** The same for the router that takes its source's items: they are gone afterwards. */
    method TakePopped(executor: Executor<seq<T>>, ghost m: Machine<seq<T>>, ghost s: Routes<K, T>)
      requires Valid() && State() == s && executor.Sound() && m == executor.State() && Placed(m.net)
      requires Runnable(m) && Popped(m).node == node && source in m.cells
      modifies this, executor.scheduler, executor.store
      ensures Valid() && Placed(m.net) && Routed(route, s, m.cells[source].data, executor.epoch, State())
      ensures executor.Sound()
      ensures executor.State() == Emptied(Scheduled(m, Woken(route, s.cache, m.cells[source].data, executor.epoch)), source)
      ensures executor.store.cells == m.cells[source := m.cells[source].(data := [])]
    {
      var epoch, items := executor.epoch, executor.store.cells[source].data;
      var left := TakeNext(executor, items, m, s);
      assert executor.epoch == epoch;
      Empty(executor, source, left, Scheduled(m, Woken(route, s.cache, items, epoch)));
      assert executor.epoch == epoch;
    }
  }

  lemma RoutedValid<K(!new), T(!new)>(route: T -> K, s: Routes<K, T>, items: seq<T>, epoch: nat, s': Routes<K, T>, depth: nat)
    requires Paired(s) && Level(s, depth) && Routed(route, s, items, epoch, s')
    ensures Paired(s') && Level(s', depth)
  {
    RoutedPaired(route, s, items, epoch, s');
    RoutedLevel(route, s, items, epoch, s', depth);
  }

  lemma RoutedKeys<K(!new), T(!new)>(route: T -> K, s: Routes<K, T>, items: seq<T>, epoch: nat, s': Routes<K, T>)
    requires Routed(route, s, items, epoch, s')
    ensures s'.outputs.Keys == s.outputs.Keys
  {
  }

  /** What the taking router leaves in its source is written back. */
  method Empty<T>(executor: Executor<seq<T>>, source: NodeIndex, left: seq<T>, ghost m: Machine<seq<T>>)
    requires executor.Sound() && m == executor.State() && source in m.cells && left == []
    modifies executor.store
    ensures executor.Sound() && executor.State() == Emptied(m, source)
    ensures executor.store.cells == m.cells[source := m.cells[source].(data := [])]
  {
    EmptiedHealthy(m, source, executor.graph.nextIndex, |executor.scheduler.multiQueue|, executor.epoch);
    executor.store.cells := executor.store.cells[source := executor.store.cells[source].(data := left)];
  }

  lemma RouterAtDepth<V>(m: Machine<V>, node: NodeIndex, source: NodeIndex, outputs: set<NodeIndex>, depth: nat)
    requires Sane(m) && PlacedIn(m.net, node, source, outputs, depth) && Runnable(m) && Popped(m).node == node
    ensures Popped(m).depth == depth && AllAt(m.net, outputs, Popped(m).depth)
  {
    assert Popped(m) in m.arrivals;
  }

  lemma RouterKeeps<K(!new), T(!new)>(
    route: T -> K, s: Routes<K, T>, items: seq<T>, m: Machine<seq<T>>, node: NodeIndex, source: NodeIndex, depth: nat,
    nextIndex: NodeIndex, levels: nat, epoch: nat)
    requires Paired(s) && Level(s, depth) && PlacedIn(m.net, node, source, s.outputs.Keys, depth)
    requires Healthy(m, nextIndex, levels, epoch) && Runnable(m) && Popped(m).node == node
    ensures Healthy(Scheduled(m, Woken(route, s.cache, items, epoch)), nextIndex, levels, epoch)
  {
    RouterAtDepth(m, node, source, s.outputs.Keys, depth);
    ScheduledKeeps(route, s, items, m, nextIndex, levels, epoch);
  }

  /** The items of a node have been taken. */
  ghost function Emptied<T>(m: Machine<seq<T>>, source: NodeIndex): Machine<seq<T>>
    requires source in m.cells
  {
    m.(cells := m.cells[source := m.cells[source].(data := [])])
  }

  lemma EmptiedHealthy<T>(m: Machine<seq<T>>, source: NodeIndex, nextIndex: NodeIndex, levels: nat, epoch: nat)
    requires source in m.cells && Healthy(m, nextIndex, levels, epoch)
    ensures Healthy(Emptied(m, source), nextIndex, levels, epoch)
  {
    OwnedFrame(m.net.nodes, m.cells, m.net.nodes, Emptied(m, source).cells);
  }

  /** The executor pops the next node. */
  method PopNext<V>(executor: Executor<V>, ghost m: Machine<V>)
    requires executor.Sound() && m == executor.State() && Runnable(m)
    modifies executor.scheduler
    ensures executor.scheduler.Valid() && executor.State() == AfterPop(m)
    ensures Popped(m).node in m.net.nodes && executor.scheduler.currDepth == m.net.nodes[Popped(m).node].depth
    ensures executor.scheduler.currDepth < |executor.scheduler.multiQueue| == |old(executor.scheduler.multiQueue)|
  {
    assert Popped(m) in m.arrivals;
    var item := executor.scheduler.Pop();
  }

  ghost predicate AllAt<V>(net: Net<V>, nodes: set<NodeIndex>, depth: nat) {
    forall n :: n in nodes ==> n in net.nodes && net.nodes[n].depth == depth
  }

  /** A router that owns a handle of its source stands at one level with its outputs. */
  ghost predicate PlacedIn<V>(net: Net<V>, node: NodeIndex, source: NodeIndex, outputs: set<NodeIndex>, depth: nat) {
    node in net.nodes && source in net.nodes[node].captures && AllAt(net, outputs + {node}, depth)
  }

  /** A new output stands with the others. */
  lemma PlacedMore<T>(m: Machine<seq<T>>, m': Machine<seq<T>>, node: NodeIndex, source: NodeIndex, n: NodeIndex, outputs: set<NodeIndex>, depth: nat)
    requires PlacedIn(m.net, node, source, outputs, depth) && NewOutput(m, m', source, n, depth)
    ensures PlacedIn(m'.net, node, source, outputs + {n}, depth) && n != node
  {
  }

  /** Router and outputs stay where they are for as long as they are in the graph. */
  lemma PlacedAlways<V>(s: Snapshot<V>, move: Move<V>, s': Snapshot<V>, node: NodeIndex, source: NodeIndex, outputs: set<NodeIndex>, depth: nat)
    requires Moves(s, move, s') && PlacedIn(s.machine.net, node, source, outputs, depth) && outputs + {node} <= s'.machine.net.nodes.Keys
    ensures PlacedIn(s'.machine.net, node, source, outputs, depth)
  {
    forall n | n in outputs + {node}
      ensures SameWiring(s.machine.net.nodes[n], s'.machine.net.nodes[n])
    {
      KeepsWiring(s, move, s', n);
    }
  }

  /** The oldest entry of least depth is popped, and `woken` are scheduled. */
  ghost function Scheduled<V>(m: Machine<V>, woken: seq<Entry>): Machine<V>
    requires Runnable(m)
  {
    AfterPop(m).(arrivals := AfterPop(m).arrivals + woken)
  }

  lemma ScheduledHealthy<V>(m: Machine<V>, woken: seq<Entry>, nextIndex: NodeIndex, levels: nat, epoch: nat)
    requires Healthy(m, nextIndex, levels, epoch) && Runnable(m)
    requires forall e :: e in woken ==> e.node in m.net.nodes && e.depth == m.net.nodes[e.node].depth == Popped(m).depth
    ensures Healthy(Scheduled(m, woken), nextIndex, levels, epoch)
  {
    WithoutFirst(m.arrivals);
    forall e | e in Without(m.arrivals, First(m.arrivals))
      ensures Popped(m).depth <= e.depth
    {
    }
  }

  /** The drain goes on: what the router scheduled is live, and no shallower than the router. */
  lemma ScheduledKeeps<K(!new), T(!new)>(
    route: T -> K, s: Routes<K, T>, items: seq<T>, m: Machine<seq<T>>, nextIndex: NodeIndex, levels: nat, epoch: nat)
    requires Paired(s) && Runnable(m) && Level(s, Popped(m).depth) && AllAt(m.net, s.outputs.Keys, Popped(m).depth)
    requires Healthy(m, nextIndex, levels, epoch)
    ensures Healthy(Scheduled(m, Woken(route, s.cache, items, epoch)), nextIndex, levels, epoch)
  {
    var woken, depth := Woken(route, s.cache, items, epoch), Popped(m).depth;
    WokenAt(route, s, items, epoch, m.net, depth);
    ScheduledHealthy(m, woken, nextIndex, levels, epoch);
  }

  lemma WokenAt<K(!new), T(!new), V>(route: T -> K, s: Routes<K, T>, items: seq<T>, epoch: nat, net: Net<V>, depth: nat)
    requires Paired(s) && Level(s, depth) && AllAt(net, s.outputs.Keys, depth)
    ensures forall e :: e in Woken(route, s.cache, items, epoch) ==> e.node in net.nodes && e.depth == net.nodes[e.node].depth == depth
  {
    WokenOnce(route, s, items, epoch);
  }

  /** Builds the router below its source, which triggers it; its closure owns a handle of the source. */
  method RouteStreamNode<K(==, !new), T(==, !new)>(executor: Executor<seq<T>>, source: NodeIndex, route: T -> K, ghost m: Machine<seq<T>>)
    returns (router: Router<K, T>)
    requires executor.Sound() && m == executor.State() && InputsLive(m.net.nodes)
    requires source in m.net.nodes && source in m.cells
    modifies executor.graph, executor.store, executor.scheduler`multiQueue, executor.driver.yieldDriver
    ensures fresh(router) && router.Valid() && router.State() == Routes(map[], map[])
    ensures router.route == route && router.source == source
    ensures executor.Sound() && router.Placed(executor.graph.Model()) && Grown(m, executor.State(), router.node)
    ensures Below(executor.graph.Model(), source, router.node, Trigger)
  {
    var depth := executor.graph.nodes[source].depth;
    var n := BuildBelow(executor, source, depth, RouterFn<T>(), Trigger, {source}, m);
    router := NewRouter(executor, route, n, source, depth);
  }

  /** The router's data. The executor is another object. */
  method NewRouter<K(==, !new), T(==, !new)>(ghost executor: Executor<seq<T>>, route: T -> K, n: NodeIndex, source: NodeIndex, sourceDepth: nat)
    returns (router: Router<K, T>)
    requires executor.Sound() && n in executor.graph.nodes
    requires executor.graph.nodes[n].depth == sourceDepth + 1 && source in executor.graph.nodes[n].captures
    ensures fresh(router) && router.Valid() && router.State() == Routes(map[], map[])
    ensures router.route == route && router.source == source && router.node == n
    ensures executor.Sound() && executor.State() == old(executor.State()) && router.Placed(executor.graph.Model())
  {
    router := new Router(route, n, source, sourceDepth);
    assert unchanged(executor, executor.graph, executor.store, executor.scheduler, executor.gc);
    assert unchanged(executor.driver, executor.driver.timerDriver, executor.driver.yieldDriver);
    assert router.outputs.Keys + {n} == {n};
  }

  /** `source` is the only parent of `n`. */
  ghost predicate Below<V>(net: Net<V>, source: NodeIndex, n: NodeIndex, rel: Relationship) {
    && n in net.nodes && (forall q :: HasEdge(net, q, n) <==> q == source)
    && (TriggerEdge(net, source, n) <==> rel == Trigger)
  }

  /** An output of the router, observing its source, has been built as node `n`, and nothing else has changed. */
  ghost predicate NewOutput<T>(m: Machine<seq<T>>, m': Machine<seq<T>>, source: NodeIndex, n: NodeIndex, depth: nat) {
    && n !in m.net.nodes && n in m'.net.nodes && m'.net.nodes[n].depth == depth && m'.net.nodes[n].cycleFn == OutputFn<T>()
    && Below(m'.net, source, n, Observe) && Grown(m, m', n)
  }

  lemma BuiltBelow<V>(m: Machine<V>, bp: Blueprint<V>, n: NodeIndex, m': Machine<V>, source: NodeIndex, depth: nat, rel: Relationship)
    requires Wellformed(m.net) && n !in m.net.nodes && Built(m, bp, n, m') && bp.relations == [Relation(source, depth, rel)]
    requires source in m.net.nodes && m.net.nodes[source].depth == depth
    ensures Below(m'.net, source, n, rel)
  {
    var parents := AddManyRelationships(bp.relations);
    OneParent(bp.relations, source, depth, rel);
    LinkedEdges(m.net, n, m'.net.nodes[n], parents, source, n);
    forall q
      ensures HasEdge(m'.net, q, n) <==> q == source
    {
      LinkedEdges(m.net, n, m'.net.nodes[n], parents, q, n);
    }
  }

  lemma OneParent(relations: seq<Relation>, source: NodeIndex, depth: nat, rel: Relationship)
    requires relations == [Relation(source, depth, rel)]
    ensures AddManyRelationships(relations) == map[(source, depth) := rel]
  {
    var parents := AddManyRelationships(relations);
    forall k
      ensures k in parents <==> k == (source, depth)
    {
      RelationshipsMerge(relations, k);
    }
    RelationshipsMerge(relations, (source, depth));
    assert relations[0] in relations;
  }

  /** Builds a node whose only parent is `source`, one level below it. */
  method BuildBelow<T>(
    executor: Executor<seq<T>>, source: NodeIndex, sourceDepth: nat, f: CycleFn<seq<T>>, rel: Relationship, captures: set<NodeIndex>,
    ghost m: Machine<seq<T>>)
    returns (n: NodeIndex)
    requires executor.Sound() && m == executor.State() && InputsLive(m.net.nodes) && captures <= m.cells.Keys
    requires source in m.net.nodes && m.net.nodes[source].depth == sourceDepth
    modifies executor.graph, executor.store, executor.scheduler`multiQueue, executor.driver.yieldDriver
    ensures executor.Sound() && n == old(executor.graph.nextIndex) && Grown(m, executor.State(), n)
    ensures n !in m.net.nodes && n in executor.graph.nodes
    ensures executor.graph.nodes[n].depth == sourceDepth + 1 && executor.graph.nodes[n].cycleFn == f
    ensures executor.graph.nodes[n].captures == captures && Below(executor.graph.Model(), source, n, rel)
    ensures Settled(m.(spawns := [])) ==> Settled(executor.State().(spawns := []))
  {
    var bp := Blueprint(f, [], [Relation(source, sourceDepth, rel)], captures, false, false);
    n := executor.BuildFrom(bp, m);
    OneBelow(bp.relations, executor.graph.nodes[n].depth);
    BuiltBelow(m, bp, n, executor.State(), source, sourceDepth, rel);
  }

  /** A node with a single parent stands one level below it. */
  lemma OneBelow(relations: seq<Relation>, depth: nat)
    requires |relations| == 1 && IsDepth(AddManyRelationships(relations).Keys, depth)
    ensures depth == relations[0].depth + 1
  {
    OneParent(relations, relations[0].parent, relations[0].depth, relations[0].rel);
  }

  /** One item appended to the live output of its key, cleared first if stale. */
  ghost function Appended<K, T>(s: Routes<K, T>, key: K, item: T, epoch: nat): Routes<K, T> {
    if key in s.cache && s.cache[key].node in s.outputs then
      var slot := s.cache[key];
      Routes(s.cache[key := slot.(epoch := epoch)],
             s.outputs[slot.node := (if slot.epoch != epoch then [] else s.outputs[slot.node]) + [item]])
    else s
  }

  lemma ForKeyMore<K, T>(route: T -> K, items: seq<T>, item: T, k: K)
    ensures ForKey(route, items + [item], k) == ForKey(route, items, k) + if route(item) == k then [item] else []
  {
    assert (items + [item])[..|items|] == items;
  }

  lemma AppendedOther<K(!new), T(!new)>(route: T -> K, s: Routes<K, T>, done: seq<T>, item: T, epoch: nat, before: Routes<K, T>, k: K)
    requires Paired(s) && Routed(route, s, done, epoch, before) && k in s.cache && k != route(item)
    ensures RoutedKey(route, s, done + [item], epoch, Appended(before, route(item), item, epoch), k)
  {
    ForKeyMore(route, done, item, k);
    assert RoutedKey(route, s, done, epoch, before, k);
    if route(item) in s.cache { assert RoutedKey(route, s, done, epoch, before, route(item)); }
  }

  lemma AppendedOwn<K(!new), T(!new)>(route: T -> K, s: Routes<K, T>, done: seq<T>, item: T, epoch: nat, before: Routes<K, T>)
    requires Paired(s) && Routed(route, s, done, epoch, before) && route(item) in s.cache
    ensures RoutedKey(route, s, done + [item], epoch, Appended(before, route(item), item, epoch), route(item))
  {
    ForKeyMore(route, done, item, route(item));
    assert RoutedKey(route, s, done, epoch, before, route(item));
  }

  lemma AppendedRouted<K(!new), T(!new)>(route: T -> K, s: Routes<K, T>, done: seq<T>, item: T, epoch: nat, before: Routes<K, T>)
    requires Paired(s) && Routed(route, s, done, epoch, before)
    ensures Routed(route, s, done + [item], epoch, Appended(before, route(item), item, epoch))
  {
    var key, after := route(item), Appended(before, route(item), item, epoch);
    forall k | k in s.cache
      ensures RoutedKey(route, s, done + [item], epoch, after, k)
    {
      if k == key {
        AppendedOwn(route, s, done, item, epoch, before);
      } else {
        AppendedOther(route, s, done, item, epoch, before, k);
      }
    }
    if key in s.cache { assert RoutedKey(route, s, done, epoch, before, key); }
  }

  ghost function Wakeup<K, T>(s: Routes<K, T>, key: K, epoch: nat): seq<Entry> {
    if key in s.cache && s.cache[key].node in s.outputs && s.cache[key].epoch != epoch
    then [Entry(s.cache[key].depth, s.cache[key].node)] else []
  }

  lemma RoutedMore<K(!new), T(!new)>(route: T -> K, s: Routes<K, T>, done: seq<T>, item: T, epoch: nat, before: Routes<K, T>, arrivals: seq<Entry>)
    requires Paired(s) && Routed(route, s, done, epoch, before)
    ensures Routed(route, s, done + [item], epoch, Appended(before, route(item), item, epoch))
    ensures arrivals + Woken(route, s.cache, done, epoch) + Wakeup(before, route(item), epoch)
         == arrivals + Woken(route, s.cache, done + [item], epoch)
  {
    AppendedRouted(route, s, done, item, epoch, before);
    WokenStep(route, s, done, item, epoch, before);
  }

  /** An output is stale in this epoch exactly until its key's first item has been routed. */
  lemma WokenStep<K(!new), T(!new)>(route: T -> K, s: Routes<K, T>, done: seq<T>, item: T, epoch: nat, now: Routes<K, T>)
    requires Paired(s) && Routed(route, s, done, epoch, now)
    ensures Woken(route, s.cache, done + [item], epoch) == Woken(route, s.cache, done, epoch) + Wakeup(now, route(item), epoch)
  {
    assert (done + [item])[..|done|] == done;
    if route(item) in s.cache {
      assert RoutedKey(route, s, done, epoch, now, route(item));
    }
  }

  lemma RoutedLevel<K(!new), T(!new)>(route: T -> K, s: Routes<K, T>, items: seq<T>, epoch: nat, s': Routes<K, T>, depth: nat)
    requires Level(s, depth) && Routed(route, s, items, epoch, s')
    ensures Level(s', depth)
  {
    forall k | k in s'.cache
      ensures s'.cache[k].depth == depth
    {
      assert RoutedKey(route, s, items, epoch, s', k);
    }
  }

  function Created<K, T>(s: Routes<K, T>, key: K, built: NodeIndex, depth: nat): Routes<K, T> {
    if key in s.cache && s.cache[key].node in s.outputs then s
    else Routes(s.cache[key := Slot(built, depth, 0)], s.outputs[built := []])
  }

  function Dropped<K, T>(s: Routes<K, T>, key: K): Routes<K, T>
    requires key in s.cache
  {
    Routes(s.cache - {key}, s.outputs - {s.cache[key].node})
  }

  lemma CreatedPaired<K, T>(s: Routes<K, T>, key: K, built: NodeIndex, depth: nat)
    requires Paired(s) && built !in s.outputs
    ensures Paired(Created(s, key, built, depth))
    ensures Level(s, depth) ==> Level(Created(s, key, built, depth), depth)
  {
    var s' := Created(s, key, built, depth);
    forall n | n in s'.outputs
      ensures exists k :: k in s'.cache && s'.cache[k].node == n
    {
      if n in s.outputs {
        var k :| k in s.cache && s.cache[k].node == n;
        assert k in s'.cache && s'.cache[k].node == n;
      } else {
        assert key in s'.cache && s'.cache[key].node == n;
      }
    }
  }

  lemma DroppedPaired<K, T>(s: Routes<K, T>, key: K)
    requires Paired(s) && key in s.cache
    ensures Paired(Dropped(s, key))
  {
    var s' := Dropped(s, key);
    forall n | n in s'.outputs
      ensures exists k :: k in s'.cache && s'.cache[k].node == n
    {
      var k :| k in s.cache && s.cache[k].node == n;
      assert k in s'.cache && s'.cache[k].node == n;
    }
  }

  lemma RoutedPaired<K(!new), T(!new)>(route: T -> K, s: Routes<K, T>, items: seq<T>, epoch: nat, s': Routes<K, T>)
    requires Paired(s) && Routed(route, s, items, epoch, s')
    ensures Paired(s')
  {
    forall k | k in s.cache
      ensures k in s'.cache && s'.cache[k].node == s.cache[k].node
    {
      assert RoutedKey(route, s, items, epoch, s', k);
    }
  }

  // ----- whole runs

  /** What happens to a router: an output is requested, an output is dropped, a batch is routed. */
  datatype RouteOp<K, T> = Create(key: K, built: NodeIndex, depth: nat) | Drop(key: K) | Route(items: seq<T>, epoch: nat)

  ghost predicate RouteStep<K(!new), T(!new)>(route: T -> K, s: Routes<K, T>, op: RouteOp<K, T>, s': Routes<K, T>) {
    match op
    case Create(key, built, depth) => built !in s.outputs && s' == Created(s, key, built, depth)
    case Drop(key) => key in s.cache && s' == Dropped(s, key)
    case Route(items, epoch) => Routed(route, s, items, epoch, s')
  }

  ghost predicate RouteRun<K(!new), T(!new)>(route: T -> K, ss: seq<Routes<K, T>>, ops: seq<RouteOp<K, T>>) {
    && |ss| == |ops| + 1 && ss[0] == Routes(map[], map[])
    && forall i :: 0 <= i < |ops| ==> RouteStep(route, ss[i], ops[i], ss[i + 1])
  }

  function LiveAfter<K(==), T>(ops: seq<RouteOp<K, T>>, k: nat, key: K): bool
    requires k <= |ops|
  {
    k > 0 && match ops[k - 1]
             case Create(key', _, _) => key' == key || LiveAfter(ops, k - 1, key)
             case Drop(key') => key' != key && LiveAfter(ops, k - 1, key)
             case Route(_, _) => LiveAfter(ops, k - 1, key)
  }

  /** The part of the most recent batch holding `key` since its output was created. */
  function MostRecent<K(==), T>(route: T -> K, ops: seq<RouteOp<K, T>>, k: nat, key: K): seq<T>
    requires k <= |ops|
  {
    if k == 0 then []
    else match ops[k - 1]
      case Create(key', _, _) =>
        if key' == key && !LiveAfter(ops, k - 1, key) then [] else MostRecent(route, ops, k - 1, key)
      case Drop(_) => MostRecent(route, ops, k - 1, key)
      case Route(items, _) =>
        if ForKey(route, items, key) != [] then ForKey(route, items, key) else MostRecent(route, ops, k - 1, key)
  }

  /** The epoch of that batch, 0 if there is none. */
  function LastEpoch<K(==), T>(route: T -> K, ops: seq<RouteOp<K, T>>, k: nat, key: K): nat
    requires k <= |ops|
  {
    if k == 0 then 0
    else match ops[k - 1]
      case Create(key', _, _) =>
        if key' == key && !LiveAfter(ops, k - 1, key) then 0 else LastEpoch(route, ops, k - 1, key)
      case Drop(_) => LastEpoch(route, ops, k - 1, key)
      case Route(items, epoch) =>
        if ForKey(route, items, key) != [] then epoch else LastEpoch(route, ops, k - 1, key)
  }

  /** That batch was not the first of its epoch to hold the key. */
  function Repeated<K(==), T>(route: T -> K, ops: seq<RouteOp<K, T>>, k: nat, key: K): bool
    requires k <= |ops|
  {
    k > 0 && match ops[k - 1]
             case Create(key', _, _) => !(key' == key && !LiveAfter(ops, k - 1, key)) && Repeated(route, ops, k - 1, key)
             case Drop(_) => Repeated(route, ops, k - 1, key)
             case Route(items, epoch) =>
               if ForKey(route, items, key) != [] then LastEpoch(route, ops, k - 1, key) == epoch
               else Repeated(route, ops, k - 1, key)
  }

  /** Every epoch counts from 1, as the executor's do. */
  ghost predicate Counted<K, T>(ops: seq<RouteOp<K, T>>) {
    forall i :: 0 <= i < |ops| && ops[i].Route? ==> ops[i].epoch > 0
  }

  /** No two batches in one epoch. */
  ghost predicate OncePerEpoch<K, T>(ops: seq<RouteOp<K, T>>) {
    forall i, j :: 0 <= i < j < |ops| && ops[i].Route? && ops[j].Route? ==> ops[i].epoch < ops[j].epoch
  }

  /** All items with `key` of the batches of that epoch up to it, since the output was created. */
  function Gathered<K(==), T>(route: T -> K, ops: seq<RouteOp<K, T>>, k: nat, key: K): seq<T>
    requires k <= |ops|
  {
    if k == 0 then []
    else match ops[k - 1]
      case Create(key', _, _) =>
        if key' == key && !LiveAfter(ops, k - 1, key) then [] else Gathered(route, ops, k - 1, key)
      case Drop(_) => Gathered(route, ops, k - 1, key)
      case Route(items, epoch) =>
        if ForKey(route, items, key) == [] then Gathered(route, ops, k - 1, key)
        else (if LastEpoch(route, ops, k - 1, key) == epoch then Gathered(route, ops, k - 1, key) else []) + ForKey(route, items, key)
  }

  /** What is gathered is the most recent batch's part, alone exactly if it is not a repetition. */
  lemma {:induction false} GatheredIff<K, T>(route: T -> K, ops: seq<RouteOp<K, T>>, k: nat, key: K)
    requires Counted(ops) && k <= |ops|
    ensures LastEpoch(route, ops, k, key) > 0 ==> Gathered(route, ops, k, key) != []
    ensures Gathered(route, ops, k, key) == MostRecent(route, ops, k, key) <==> !Repeated(route, ops, k, key)
  {
    if k > 0 {
      GatheredIff(route, ops, k - 1, key);
      if ops[k - 1].Route? && ForKey(route, ops[k - 1].items, key) != [] && LastEpoch(route, ops, k - 1, key) == ops[k - 1].epoch {
        assert |Gathered(route, ops, k, key)| > |MostRecent(route, ops, k, key)|;
      }
    }
  }

  /** One batch, seen by one output. */
  lemma OutputRouted<K(!new), T(!new)>(route: T -> K, s: Routes<K, T>, items: seq<T>, epoch: nat, s': Routes<K, T>, key: K)
    requires Paired(s) && Routed(route, s, items, epoch, s') && key in s.cache
    ensures
      var slot, mine := s.cache[key], ForKey(route, items, key);
      && key in s'.cache && slot.node in s'.outputs && s'.cache[key] == (if mine == [] then slot else slot.(epoch := epoch))
      && s'.outputs[slot.node] ==
           if mine == [] then s.outputs[slot.node] else (if slot.epoch == epoch then s.outputs[slot.node] else []) + mine
  {
    assert RoutedKey(route, s, items, epoch, s', key);
  }

  /** What a live output holds, and its tag. */
  ghost predicate Gathers<K, T>(route: T -> K, s: Routes<K, T>, ops: seq<RouteOp<K, T>>, k: nat, key: K)
    requires k <= |ops|
  {
    && (key in s.cache <==> LiveAfter(ops, k, key))
    && (key in s.cache ==>
          && s.cache[key].node in s.outputs
          && s.cache[key].epoch == LastEpoch(route, ops, k, key)
          && s.outputs[s.cache[key].node] == Gathered(route, ops, k, key))
  }

  lemma CreateGathers<K(!new), T(!new)>(route: T -> K, s: Routes<K, T>, ops: seq<RouteOp<K, T>>, k: nat, key: K)
    requires k < |ops| && ops[k].Create? && Paired(s) && Gathers(route, s, ops, k, key) && ops[k].built !in s.outputs
    ensures Gathers(route, Created(s, ops[k].key, ops[k].built, ops[k].depth), ops, k + 1, key)
  {
  }

  lemma DropGathers<K(!new), T(!new)>(route: T -> K, s: Routes<K, T>, ops: seq<RouteOp<K, T>>, k: nat, key: K)
    requires k < |ops| && ops[k].Drop? && Paired(s) && Gathers(route, s, ops, k, key) && ops[k].key in s.cache
    ensures Gathers(route, Dropped(s, ops[k].key), ops, k + 1, key)
  {
  }

  lemma RouteGathers<K(!new), T(!new)>(route: T -> K, s: Routes<K, T>, ops: seq<RouteOp<K, T>>, k: nat, key: K, s': Routes<K, T>)
    requires k < |ops| && ops[k].Route? && Paired(s) && Gathers(route, s, ops, k, key)
    requires Routed(route, s, ops[k].items, ops[k].epoch, s')
    ensures Gathers(route, s', ops, k + 1, key)
  {
    if key in s.cache { OutputRouted(route, s, ops[k].items, ops[k].epoch, s', key); }
  }

  /** Over any run the live outputs are those requested and not dropped since, each with the epoch
      and the items gathered for its key. */
  lemma {:induction false} OutputsGather<K(!new), T(!new)>(route: T -> K, ss: seq<Routes<K, T>>, ops: seq<RouteOp<K, T>>, k: nat, key: K)
    requires RouteRun(route, ss, ops) && k <= |ops|
    ensures Paired(ss[k]) && Gathers(route, ss[k], ops, k, key)
  {
    if k > 0 {
      OutputsGather(route, ss, ops, k - 1, key);
      var s, s' := ss[k - 1], ss[k];
      assert RouteStep(route, s, ops[k - 1], s');
      match ops[k - 1]
      case Create(key', built, depth) =>
        CreatedPaired(s, key', built, depth);
        CreateGathers(route, s, ops, k - 1, key);
      case Drop(key') =>
        DroppedPaired(s, key');
        DropGathers(route, s, ops, k - 1, key);
      case Route(items, epoch) =>
        RoutedPaired(route, s, items, epoch, s');
        RouteGathers(route, s, ops, k - 1, key, s');
    }
  }

  /** A live output holds exactly the items of the most recent batch with its key, in source order, if
      and only if that batch was the first of its epoch to hold the key. */
  lemma HoldsMostRecentIff<K(!new), T(!new)>(route: T -> K, ss: seq<Routes<K, T>>, ops: seq<RouteOp<K, T>>, k: nat, key: K)
    requires RouteRun(route, ss, ops) && Counted(ops) && k <= |ops| && key in ss[k].cache
    ensures ss[k].cache[key].node in ss[k].outputs
    ensures ss[k].outputs[ss[k].cache[key].node] == MostRecent(route, ops, k, key) <==> !Repeated(route, ops, k, key)
  {
    OutputsGather(route, ss, ops, k, key);
    GatheredIff(route, ops, k, key);
  }

  lemma {:induction false} NothingRepeated<K, T>(route: T -> K, ops: seq<RouteOp<K, T>>, k: nat, key: K)
    requires Counted(ops) && OncePerEpoch(ops) && k <= |ops|
    ensures !Repeated(route, ops, k, key)
    ensures LastEpoch(route, ops, k, key) > 0 ==> exists i :: 0 <= i < k && ops[i].Route? && ops[i].epoch == LastEpoch(route, ops, k, key)
  {
    if k > 0 { NothingRepeated(route, ops, k - 1, key); }
  }

  /** With at most one batch an epoch each live output holds exactly the items of the most recent
      batch with its key, in source order. */
  lemma OutputsHoldMostRecent<K(!new), T(!new)>(route: T -> K, ss: seq<Routes<K, T>>, ops: seq<RouteOp<K, T>>, k: nat, key: K)
    requires RouteRun(route, ss, ops) && Counted(ops) && OncePerEpoch(ops) && k <= |ops|
    ensures Paired(ss[k]) && (key in ss[k].cache <==> LiveAfter(ops, k, key))
    ensures key in ss[k].cache ==> ss[k].outputs[ss[k].cache[key].node] == MostRecent(route, ops, k, key)
  {
    OutputsGather(route, ss, ops, k, key);
    GatheredIff(route, ops, k, key);
    NothingRepeated(route, ops, k, key);
  }

  /** A router with a single output, node 2. */
  function Doubling<K, T>(key: K, items: seq<T>, epoch: nat): Routes<K, T> {
    Routes(map[key := Slot(2, 1, epoch)], map[2 := items])
  }

  lemma OneItem<K(!new), T(!new)>(route: T -> K, x: T, held: seq<T>, epoch: nat)
    ensures ForKey(route, [x], route(x)) == [x]
    ensures RouteStep(route, Doubling(route(x), held, epoch), Route([x], 2), Doubling(route(x), (if epoch == 2 then held else []) + [x], 2))
    ensures Woken(route, Doubling(route(x), held, epoch).cache, [x], 2) == if epoch == 2 then [] else [Entry(1, 2)]
  {
    var s, s' := Doubling(route(x), held, epoch), Doubling(route(x), (if epoch == 2 then held else []) + [x], 2);
    assert [x][..0] == [] && ForKey(route, [x], route(x)) == [x];
    forall k | k in s.cache
      ensures RoutedKey(route, s, [x], 2, s', k)
    {
    }
  }

  function Requested<K, T>(key: K, x: T): seq<RouteOp<K, T>> {
    [Create(key, 2, 1), Route([x], 2), Route([x], 2)]
  }

  function Snapshots<K, T>(key: K, x: T): seq<Routes<K, T>> {
    [Routes(map[], map[]), Doubling(key, [], 0), Doubling(key, [x], 2), Doubling(key, [x, x], 2)]
  }

  lemma ThreeOps<K(!new), T(!new)>(
    route: T -> K, s0: Routes<K, T>, s1: Routes<K, T>, s2: Routes<K, T>, s3: Routes<K, T>,
    op0: RouteOp<K, T>, op1: RouteOp<K, T>, op2: RouteOp<K, T>)
    requires s0 == Routes(map[], map[]) && RouteStep(route, s0, op0, s1) && RouteStep(route, s1, op1, s2) && RouteStep(route, s2, op2, s3)
    ensures RouteRun(route, [s0, s1, s2, s3], [op0, op1, op2])
  {
  }

  lemma DoublingRun<K(!new), T(!new)>(route: T -> K, x: T)
    ensures RouteRun(route, Snapshots(route(x), x), Requested(route(x), x))
  {
    var key := route(x);
    OneItem(route, x, [], 0);
    OneItem(route, x, [x], 2);
    assert [] + [x] == [x] && [x] + [x] == [x, x];
    ThreeOps(route, Routes(map[], map[]), Doubling(key, [], 0), Doubling(key, [x], 2), Doubling(key, [x, x], 2),
             Create(key, 2, 1), Route([x], 2), Route([x], 2));
  }

  /** A router that runs twice in one epoch on the same batch doubles it. */
  lemma DoubledBatch<K(!new), T(!new)>(route: T -> K, x: T)
    ensures RouteRun(route, Snapshots(route(x), x), Requested(route(x), x)) && Counted(Requested(route(x), x))
    ensures Snapshots(route(x), x)[3].outputs[2] == [x, x] && MostRecent(route, Requested(route(x), x), 3, route(x)) == [x]
  {
    DoublingRun(route, x);
    OneItem(route, x, [x], 2);
  }
}
