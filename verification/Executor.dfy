/** The executor: one cycle polls, drains, collects and then builds what was deferred. */
module Execution {
  import opened Types
  import opened Scheduling
  import opened Semantics
  import opened Graphs
  import opened Timers
  import opened Events
  import opened Lifecycle
  import opened Stepping
  import opened Machines
  import opened Poisoning
  import opened Building
  import opened Invariants
  import opened Spawning

  /** `SpawnPanicked`: a deferred spawn named a parent that is no longer in the graph. */
  datatype CycleResult = Running | Terminated | PollFailed | SpawnPanicked

  class Executor<V> {
    const graph: Graph<V>
    const store: NodeStore<V>
    const scheduler: Scheduler
    const driver: EventDriver
    const gc: GarbageCollector
    var edgeBuffer: seq<NodeIndex>
    var deferredSpawns: seq<Deferred<V>>
    var epoch: nat

    ghost function Repr(): set<object> {
      {this, graph, store, scheduler, driver, driver.yieldDriver, driver.timerDriver, gc}
    }

    ghost function State(): Machine<V>
      reads Repr()
    {
      Machine(graph.Model(), store.cells, scheduler.arrivals, scheduler.currDepth, gc.removalQueue,
              driver.yieldDriver.indices, driver.timerDriver.State(), deferredSpawns)
    }

    ghost predicate Sound()
      reads Repr()
    {
      && scheduler.Valid() && driver.Valid()
      && Healthy(State(), graph.nextIndex, |scheduler.multiQueue|, epoch)
    }

    ghost predicate Valid()
      reads Repr()
    {
      Sound() && Settled(State()) && edgeBuffer == []
    }

    constructor (notificationCapacity: nat, pollLimit: nat, mode: Mode)
      ensures Valid() && fresh(Repr() - {this})
      ensures graph.nodes == map[] && State().arrivals == [] && epoch == 0
      ensures driver.notificationCapacity == notificationCapacity && driver.pollLimit == pollLimit && driver.mode == mode
    {
      graph := new Graph<V>();
      store := new NodeStore<V>();
      scheduler := new Scheduler();
      driver := new EventDriver(notificationCapacity, pollLimit, mode);
      gc := new GarbageCollector();
      edgeBuffer, deferredSpawns, epoch := [], [], 0;
      new;
      EmptyIsSettled(State());
    }

    /** Dropping a handle between cycles. */
    method DropHandle(c: NodeIndex, ghost m: Machine<V>)
      requires Valid() && m == State() && c in m.cells && m.cells[c].external > 0
      modifies store, gc
      ensures Valid()
      ensures State() == m.(cells := HandleDropped(m.cells, c), marked := gc.removalQueue)
      ensures gc.removalQueue == m.marked + if c in store.cells then [] else [c]
    {
      store.DropHandle(gc, c);
      HandleDropKeeps(m, c, State(), graph.nextIndex, |scheduler.multiQueue|, epoch);
    }

    // ----- one node

    /** The graph's `cycle` of a popped node: user code runs unless the node is poisoned or its cell is gone. */
    method CycleNode(n: NodeIndex, now: Instant) returns (control: Control, ghost r: Ran<V>)
      requires n in graph.nodes && driver.timerDriver.Valid()
      modifies store, driver.yieldDriver, driver.timerDriver, this`deferredSpawns
      ensures driver.timerDriver.Valid()
      ensures r == FireNow(graph.Model(), old(store.cells), n, epoch, now) && control == ControlOf(r)
      ensures store.cells == CellsWith(old(store.cells), n, r, epoch)
      ensures driver.yieldDriver.indices == old(driver.yieldDriver.indices) + YieldsOf(r)
      ensures driver.timerDriver.State() == RegisterAll(old(driver.timerDriver.State()), TimersOf(r))
      ensures deferredSpawns == old(deferredSpawns) + OwningAll(SpawnsOf(r), old(store.cells).Keys)
    {
      var ctx := graph.nodes[n];
      if ctx.poisoned || n !in store.cells {
        SweptIsQuiet(store.cells, n, epoch);
        return Sweep, Swept;
      }
      var cell := store.cells[n];
      var out := ctx.cycleFn(cell.data, ViewOf(ctx.inputs, store.cells, epoch, now));
      r := Did(out);
      control := out.control;
      store.cells := store.cells[n := Updated(cell, Did(out), epoch)];
      driver.yieldDriver.indices := driver.yieldDriver.indices + out.yielded;
      assert store.cells.Keys == old(store.cells).Keys;
      deferredSpawns := deferredSpawns + OwningAll(out.spawns, store.cells.Keys);
      driver.timerDriver.RegisterTimers(out.timers);
    }

    /** Schedules every child in the buffer; the scheduler cannot refuse one below the current depth. */
    method ScheduleBuffer()
      requires scheduler.Valid()
      requires AllBelow(graph.nodes, edgeBuffer, scheduler.currDepth, |scheduler.multiQueue|)
      modifies this`edgeBuffer, graph`nodes, scheduler`multiQueue, scheduler`pendingEvents, scheduler`arrivals
      ensures scheduler.Valid() && edgeBuffer == [] && |scheduler.multiQueue| == |old(scheduler.multiQueue)|
      ensures Admitted(old(graph.nodes), old(scheduler.arrivals), old(edgeBuffer), epoch, graph.nodes, scheduler.arrivals)
    {
      ghost var list, nodes, arrivals := edgeBuffer, graph.nodes, scheduler.arrivals;
      ghost var i := 0;
      AdmittedNone(nodes, arrivals, epoch);
      while edgeBuffer != []
        invariant i <= |list| && edgeBuffer == list[i..]
        invariant scheduler.Valid() && |scheduler.multiQueue| == |old(scheduler.multiQueue)|
        invariant Admitted(nodes, arrivals, list[..i], epoch, graph.nodes, scheduler.arrivals)
      {
        var child := edgeBuffer[0];
        edgeBuffer := edgeBuffer[1..];
        ScheduleReady(graph, scheduler, child, epoch, nodes, arrivals, list[..i]);
        assert list[..i + 1] == list[..i] + [child];
        i := i + 1;
      }
      assert list[..i] == list;
    }

    /** Poisons one child, then admits it. */
    method PoisonChild(child: NodeIndex, ghost nodes: map<NodeIndex, NodeContext<V>>, ghost arrivals: seq<Entry>, ghost done: seq<NodeIndex>)
      requires scheduler.Valid() && Admitted(Poison(nodes, done), arrivals, done, epoch, graph.nodes, scheduler.arrivals)
      requires child in nodes && scheduler.currDepth < nodes[child].depth < |scheduler.multiQueue|
      modifies graph`nodes, scheduler`multiQueue, scheduler`pendingEvents, scheduler`arrivals
      ensures scheduler.Valid() && |scheduler.multiQueue| == |old(scheduler.multiQueue)|
      ensures Admitted(Poison(nodes, done + [child]), arrivals, done + [child], epoch, graph.nodes, scheduler.arrivals)
    {
      PoisonThenAdmit(nodes, arrivals, done, child, epoch, graph.nodes, scheduler.arrivals);
      graph.MarkPoisoned(child);
      ScheduleReady(graph, scheduler, child, epoch, Poison(nodes, done + [child]), arrivals, done);
    }

    /** Poisons and schedules every child in the buffer. */
    method PoisonBuffer()
      requires scheduler.Valid()
      requires AllBelow(graph.nodes, edgeBuffer, scheduler.currDepth, |scheduler.multiQueue|)
      modifies this`edgeBuffer, graph`nodes, scheduler`multiQueue, scheduler`pendingEvents, scheduler`arrivals
      ensures scheduler.Valid() && edgeBuffer == [] && |scheduler.multiQueue| == |old(scheduler.multiQueue)|
      ensures Admitted(Poison(old(graph.nodes), old(edgeBuffer)), old(scheduler.arrivals), old(edgeBuffer), epoch,
                       graph.nodes, scheduler.arrivals)
    {
      ghost var list, nodes, arrivals := edgeBuffer, graph.nodes, scheduler.arrivals;
      ghost var done := [];
      PoisonedNone(nodes, arrivals, epoch);
      while edgeBuffer != []
        invariant list == done + edgeBuffer
        invariant scheduler.Valid() && |scheduler.multiQueue| == |old(scheduler.multiQueue)|
        invariant Admitted(Poison(nodes, done), arrivals, done, epoch, graph.nodes, scheduler.arrivals)
      {
        var child := edgeBuffer[0];
        edgeBuffer := edgeBuffer[1..];
        PoisonChild(child, nodes, arrivals, done);
        done := done + [child];
      }
      assert done == list;
    }

    /** What the control result of the node at the current depth does to its children. */
    method Propagate(n: NodeIndex, control: Control)
      requires scheduler.Valid() && edgeBuffer == [] && Admissible(graph.nodes, 0, |scheduler.multiQueue|)
      requires Wellformed(graph.Model()) && n in graph.nodes && graph.nodes[n].depth == scheduler.currDepth
      modifies this`edgeBuffer, gc, graph`nodes, scheduler`multiQueue, scheduler`pendingEvents, scheduler`arrivals
      ensures scheduler.Valid() && edgeBuffer == [] && |scheduler.multiQueue| == |old(scheduler.multiQueue)|
      ensures graph.nodes == NodesAfter(old(graph.Model()), n, control, epoch)
      ensures scheduler.arrivals == old(scheduler.arrivals) + Fresh(old(graph.nodes), Children(old(graph.Model()), n, control), epoch)
      ensures gc.removalQueue == old(gc.removalQueue) + if control == Sweep then [n] else []
    {
      ghost var net := graph.Model();
      ChildrenDeeper(net, n, control, |scheduler.multiQueue|);
      match control {
        case Broadcast =>
          edgeBuffer := edgeBuffer + graph.TriggeringEdges(n);
          assert edgeBuffer == Children(net, n, Broadcast);
          ScheduleBuffer();
        case Unchanged =>
          QuietControls(net, n, epoch);
        case Sweep =>
          gc.MarkForSweep(n);
          edgeBuffer := edgeBuffer + graph.Edges(n);
          assert edgeBuffer == Children(net, n, Sweep);
          PoisonBuffer();
          SweptNodes(net, n, old(scheduler.arrivals), epoch, graph.nodes, scheduler.arrivals);
        case Terminate =>
          QuietControls(net, n, epoch);
      }
    }

    /** Runs the node just popped from `m` and propagates its control result. */
    method RunPopped(n: NodeIndex, now: Instant, ghost m: Machine<V>) returns (control: Control)
      requires scheduler.Valid() && driver.Valid() && edgeBuffer == []
      requires Runnable(m) && State() == AfterPop(m) && n == Popped(m).node
      requires Wellformed(m.net) && Admissible(graph.nodes, 0, |scheduler.multiQueue|) && graph.nodes[n].depth == Popped(m).depth
      modifies this`edgeBuffer, this`deferredSpawns, graph`nodes, store, driver.yieldDriver, driver.timerDriver, gc,
               scheduler`multiQueue, scheduler`pendingEvents, scheduler`arrivals
      ensures scheduler.Valid() && driver.Valid() && edgeBuffer == [] && |scheduler.multiQueue| == |old(scheduler.multiQueue)|
      ensures State() == Next(m, epoch, now) && control == ControlOf(RanNow(m, epoch, now))
    {
      ghost var r;
      control, r := CycleNode(n, now);
      Propagate(n, control);
    }

    /** One iteration of the machine: pop a node, run it, propagate its control result. */
    method PopAndRun(now: Instant, ghost m: Machine<V>) returns (control: Option<Control>)
      requires Sound() && edgeBuffer == [] && m == State()
      modifies this`edgeBuffer, this`deferredSpawns, graph`nodes, store, scheduler, driver.yieldDriver, driver.timerDriver, gc
      ensures scheduler.Valid() && driver.Valid() && edgeBuffer == [] && |scheduler.multiQueue| == |old(scheduler.multiQueue)|
      ensures control.None? ==> m.arrivals == [] && State() == m.(floor := 0)
      ensures control.Some? ==> m.arrivals != [] && State() == Next(m, epoch, now)
      ensures control.Some? ==> Runnable(m) && control.value == ControlOf(RanNow(m, epoch, now))
      ensures control.None? ==> scheduler.visits == old(scheduler.visits)
      ensures control.Some? ==> scheduler.visits == old(scheduler.visits) + 1 + scheduler.currDepth - m.floor
    {
      var item := scheduler.Pop();
      if item.None? {
        return None;
      }
      var n := item.value;
      assert Popped(m) in m.arrivals;
      var result := RunPopped(n, now, m);
      return Some(result);
    }

    // ----- the drain loop

    /** One turn of the loop keeps the invariant. */
    method Step(now: Instant, ghost m: Machine<V>) returns (control: Option<Control>)
      requires Sound() && edgeBuffer == [] && m == State()
      modifies this`edgeBuffer, this`deferredSpawns, graph`nodes, store, scheduler, driver.yieldDriver, driver.timerDriver, gc
      ensures Sound() && edgeBuffer == [] && |scheduler.multiQueue| == |old(scheduler.multiQueue)|
      ensures control.None? ==> m.arrivals == [] && State() == m.(floor := 0)
      ensures control.Some? ==> m.arrivals != [] && Runnable(m) && State() == Next(m, epoch, now)
      ensures control.Some? ==> control.value == ControlOf(RanNow(m, epoch, now)) && scheduler.currDepth < |scheduler.multiQueue|
      ensures scheduler.visits == old(scheduler.visits) + if control.None? then 0 else 1 + scheduler.currDepth - m.floor
    {
      control := PopAndRun(now, m);
      StepKeeps(m, now, graph.nextIndex, |scheduler.multiQueue|, epoch);
    }

    /** One turn of the loop, with the history it extends. */
    method Turn(now: Instant, ghost m0: Machine<V>, ghost h: seq<Machine<V>>, ghost m: Machine<V>, ghost last: Option<Control>)
      returns (control: Option<Control>, ghost h': seq<Machine<V>>)
      requires Sound() && edgeBuffer == [] && m == State()
      requires Underway(h, m0, m, last, epoch, now) && last.Some? && last != Some(Terminate)
      modifies this`edgeBuffer, this`deferredSpawns, graph`nodes, store, scheduler, driver.yieldDriver, driver.timerDriver, gc
      ensures Sound() && edgeBuffer == [] && |scheduler.multiQueue| == |old(scheduler.multiQueue)|
      ensures Underway(h', m0, State(), control, epoch, now)
      ensures control.Some? ==> Remaining(State(), epoch) < Remaining(m, epoch) && scheduler.currDepth < |scheduler.multiQueue|
      ensures |h'| == |h| + if control.None? then 0 else 1
      ensures scheduler.visits == old(scheduler.visits) + if control.None? then 0 else 1 + scheduler.currDepth - m.floor
    {
      h' := h;
      UnderwayOn(h, m0, m, last, epoch, now);
      control := Step(now, m);
      if control.Some? {
        IterationKeeps(h, m0, m, now, epoch, State());
        h' := h + [State()];
      }
    }

    /** Runs everything scheduled. The history tells exactly what happened; the scheduler's loop
        makes one step per pop plus at most one per depth level. */
    method Drain(now: Instant, ghost m: Machine<V>) returns (terminated: bool, ghost h: seq<Machine<V>>)
      requires Sound() && edgeBuffer == [] && m == State() && m.floor == 0
      modifies this`edgeBuffer, this`deferredSpawns, graph`nodes, store, scheduler,
               driver.yieldDriver, driver.timerDriver, gc
      ensures Sound() && edgeBuffer == [] && |scheduler.multiQueue| == |old(scheduler.multiQueue)|
      ensures Underway(h, m, State(), if terminated then Some(Terminate) else None, epoch, now)
      ensures scheduler.visits - old(scheduler.visits) <= |h| - 1 + |scheduler.multiQueue|
    {
      h := [m];
      var control := Some(Unchanged);
      UnderwayStart(m, epoch, now);
      while control.Some? && control.value != Terminate
        invariant Sound() && edgeBuffer == [] && |scheduler.multiQueue| == |old(scheduler.multiQueue)|
        invariant Underway(h, m, State(), control, epoch, now)
        invariant control.Some? ==> scheduler.visits == old(scheduler.visits) + |h| - 1 + scheduler.currDepth
        invariant scheduler.visits - old(scheduler.visits) <= |h| - 1 + |scheduler.multiQueue|
        decreases if control.Some? && control.value != Terminate then 1 + Remaining(State(), epoch) else 0
      {
        control, h := Turn(now, m, h, State(), control);
      }
      terminated := control.Some?;
    }

    // ----- building

    method InsertNode(bp: Blueprint<V>) returns (n: NodeIndex)
      requires graph.Valid() && scheduler.Valid() && RelationsLive(graph.Model(), bp.relations)
      requires forall m, c :: m in graph.nodes && c in graph.nodes[m].inputs ==> c < graph.nextIndex
      modifies graph, store, scheduler`multiQueue, driver.yieldDriver
      ensures graph.Valid() && scheduler.Valid()
      ensures n == old(graph.nextIndex) && graph.nextIndex == n + 1 && n in graph.nodes
      ensures |old(scheduler.multiQueue)| <= |scheduler.multiQueue| && graph.nodes[n].depth < |scheduler.multiQueue|
      ensures Inserted(old(graph.Model()), bp, n, graph.nodes[n], graph.Model())
      ensures store.cells == CellsWithNew(old(store.cells), bp, n)
      ensures driver.yieldDriver.indices == old(driver.yieldDriver.indices) + if bp.bootstrap then [n] else []
      ensures Exact(old(graph.Model())) ==> Exact(graph.Model())
    {
      var depth;
      n, depth := Insert(graph, bp);
      store.cells := CellsWithNew(store.cells, bp, n);
      scheduler.EnableDepth(depth);
      if bp.bootstrap {
        driver.yieldDriver.YieldNow(n);
      }
    }

    /** `build` and `spawn`: inserts the node, its cell and its queue, and runs its `on_init`. */
    method Build(bp: Blueprint<V>) returns (n: NodeIndex)
      requires Sound() && RelationsLive(graph.Model(), bp.relations) && bp.captures <= store.cells.Keys
      requires InputsLive(graph.nodes)
      modifies graph, store, scheduler`multiQueue, driver.yieldDriver
      ensures Sound() && n == old(graph.nextIndex) && graph.nextIndex == n + 1
      ensures Built(old(State()), bp, n, State())
      ensures AsDeclared(bp, n, graph.nodes[n]) && store.cells[n].data == bp.data && store.cells[n].external == (if bp.owned then 0 else 1)
      ensures driver.yieldDriver.indices == old(driver.yieldDriver.indices) + if bp.bootstrap then [n] else []
      ensures Grown(old(State()), State(), n)
      ensures Settled(old(State()).(spawns := [])) ==> Settled(State().(spawns := []))
      ensures Exact(old(graph.Model())) ==> Exact(graph.Model())
    {
      ghost var m := State();
      n := BuildFrom(bp, m);
      BuiltAsDeclared(m, bp, n, State());
    }

    method BuildFrom(bp: Blueprint<V>, ghost m: Machine<V>) returns (n: NodeIndex)
      requires Sound() && m == State() && RelationsLive(m.net, bp.relations) && bp.captures <= m.cells.Keys
      requires InputsLive(m.net.nodes)
      modifies graph, store, scheduler`multiQueue, driver.yieldDriver
      ensures Sound() && n == old(graph.nextIndex) && graph.nextIndex == n + 1
      ensures Built(m, bp, n, State()) && Grown(m, State(), n) && ExactKept(m, {}, State())
      ensures Settled(m.(spawns := [])) ==> Settled(State().(spawns := []))
    {
      ghost var levels := |scheduler.multiQueue|;
      InputsBelow(m, graph.nextIndex, levels, epoch);
      n := InsertNode(bp);
      BuildIsSound(m, bp, n, State(), levels, |scheduler.multiQueue|, epoch);
    }

    /** Drops the closure of a deferred spawn that has built node `n`. */
    method DropDeferred(d: Deferred<V>, ghost m: Machine<V>, ghost taken: Machine<V>, ghost n: NodeIndex, ghost built: Machine<V>)
      requires Sound() && State() == built && graph.nextIndex == n + 1 && Settled(built.(spawns := []))
      requires m.spawns != [] && m.spawns[0] == d && Buildable(m.net, d.blueprint) && Backed(m.cells, m.spawns)
      requires taken == m.(spawns := m.spawns[1..]) && Built(taken, d.blueprint, n, built) && Grown(taken, built, n)
      modifies store, gc
      ensures Spawned(m, n, State()) && Grown(m, State(), n) && Backed(store.cells, deferredSpawns)
      ensures Sound() && Settled(State().(spawns := [])) && State().net == built.net
    {
      HandlesCounted(m, taken, n, built);
      store.DropHandles(gc, d.handles);
      SpawnIsSound(m, taken, built, State(), n, |scheduler.multiQueue|, epoch);
    }

    /** Builds what the deferred spawn just taken from `m` asks for, then drops its closure. */
    method BuildDeferred(d: Deferred<V>, ghost m: Machine<V>, ghost taken: Machine<V>)
      requires Sound() && State() == taken && Settled(taken.(spawns := []))
      requires m.spawns != [] && m.spawns[0] == d && taken == m.(spawns := m.spawns[1..])
      requires Backed(m.cells, m.spawns) && Buildable(m.net, d.blueprint)
      modifies graph, store, scheduler`multiQueue, driver.yieldDriver, gc
      ensures graph.nextIndex == old(graph.nextIndex) + 1 && Spawned(m, old(graph.nextIndex), State())
      ensures Sound() && Settled(State().(spawns := [])) && Backed(store.cells, deferredSpawns)
      ensures Grown(m, State(), old(graph.nextIndex)) && ExactKept(m, {}, State())
    {
      HandedExist(m);
      var n := BuildFrom(d.blueprint, taken);
      DropDeferred(d, m, taken, n, State());
    }

    /** Runs the oldest deferred spawn. Only a parent that is gone makes it panic. */
    method RunSpawn(ghost m: Machine<V>) returns (panicked: bool)
      requires Sound() && m == State() && Settled(m.(spawns := [])) && m.spawns != [] && Backed(m.cells, m.spawns)
      modifies this`deferredSpawns, graph, store, scheduler`multiQueue, driver.yieldDriver, gc
      ensures !panicked <==>
        forall r :: r in m.spawns[0].blueprint.relations ==> r.parent in m.net.nodes && m.net.nodes[r.parent].depth == r.depth
      ensures panicked ==> !Buildable(m.net, m.spawns[0].blueprint)
      ensures !panicked ==> Spawned(m, old(graph.nextIndex), State()) && graph.nextIndex == old(graph.nextIndex) + 1
      ensures !panicked ==> Sound() && Settled(State().(spawns := [])) && Backed(store.cells, deferredSpawns)
      ensures !panicked ==> Grown(m, State(), old(graph.nextIndex)) && ExactKept(m, {}, State())
      ensures !panicked ==> deferredSpawns == m.spawns[1..]
    {
      var d := deferredSpawns[0];
      panicked := !Buildable(graph.Model(), d.blueprint);
      if !panicked {
        deferredSpawns := deferredSpawns[1..];
        BuildDeferred(d, m, State());
      }
    }

    /** One turn of the loop, with the states between the spawns so far. */
    method SpawnNext(ghost kept: Machine<V>, ghost from: NodeIndex, ghost built: seq<Machine<V>>, ghost m: Machine<V>)
      returns (panicked: bool, ghost built': seq<Machine<V>>)
      requires Sound() && m == State() && Settled(m.(spawns := [])) && m.spawns != [] && Backed(m.cells, m.spawns)
      requires SpawnedSoFar(built, from, kept, m, graph.nextIndex) && Grown(kept, m, from)
      modifies this`deferredSpawns, graph, store, scheduler`multiQueue, driver.yieldDriver, gc
      ensures panicked ==> SpawnFails(built', from, kept)
      ensures !panicked ==> Sound() && Settled(State().(spawns := [])) && Backed(store.cells, deferredSpawns)
      ensures !panicked ==> SpawnedSoFar(built', from, kept, State(), graph.nextIndex)
      ensures !panicked ==> Grown(kept, State(), from) && |deferredSpawns| < |m.spawns|
      ensures !panicked ==> ExactKept(m, {}, State())
    {
      ghost var next := graph.nextIndex;
      built' := built;
      panicked := RunSpawn(m);
      if !panicked {
        GrownTransitive(kept, m, State(), from, next);
        SpawnedMore(built, from, kept, m, next, State());
        built' := built + [State()];
      }
    }

    method RunSpawns(ghost kept: Machine<V>) returns (panicked: bool, ghost built: seq<Machine<V>>)
      requires Sound() && kept == State() && Settled(kept.(spawns := [])) && Backed(kept.cells, kept.spawns)
      modifies this`deferredSpawns, graph, store, scheduler`multiQueue, driver.yieldDriver, gc
      ensures panicked ==> SpawnFails(built, old(graph.nextIndex), kept)
      ensures !panicked ==> SpawnedAll(built, old(graph.nextIndex), kept, State())
      ensures !panicked && edgeBuffer == [] ==> Valid()
      ensures !panicked ==> Grown(kept, State(), old(graph.nextIndex))
      ensures !panicked ==> ExactKept(kept, {}, State())
    {
      ghost var from := graph.nextIndex;
      panicked, built := false, [kept];
      while deferredSpawns != [] && !panicked
        invariant panicked ==> SpawnFails(built, from, kept)
        invariant !panicked ==> Sound() && Settled(State().(spawns := [])) && Backed(store.cells, deferredSpawns)
        invariant !panicked ==> SpawnedSoFar(built, from, kept, State(), graph.nextIndex)
        invariant !panicked ==> Grown(kept, State(), from)
        invariant !panicked ==> ExactKept(kept, {}, State())
        decreases if panicked then 0 else 1 + |deferredSpawns|
      {
        panicked, built := SpawnNext(kept, from, built, State());
      }
    }

    // ----- one cycle

    /** The state after polling at the start of a cycle. */
    ghost function Polled(now: Instant, io: IoResult, epoch: nat): Machine<V>
      reads Repr()
    {
      AfterPoll(State(), driver.Polled(now, io), Apply(State().timers, PollAt(now)), epoch)
    }

    method PollEvents(now: Instant, later: Instant, timeout: Option<nat>, io: IoResult) returns (ok: bool, cycleTime: Instant)
      requires scheduler.Valid() && driver.Valid() && scheduler.currDepth == 0
      requires Admissible(graph.nodes, 0, |scheduler.multiQueue|)
      modifies driver, driver.yieldDriver, driver.timerDriver`timers, graph`nodes,
               scheduler`multiQueue, scheduler`pendingEvents, scheduler`arrivals
      ensures scheduler.Valid() && driver.Valid() && |scheduler.multiQueue| == |old(scheduler.multiQueue)|
      ensures ok <==> io.Ready?
      ensures State() == old(Polled(now, io, epoch))
      ensures cycleTime == if ok && driver.mode == Park && timeout != Some(0) && old(driver.Idle(graph.nodes, scheduler.arrivals, now, epoch))
                           then later else now
    {
      ok, cycleTime := driver.Poll(graph, scheduler, now, later, timeout, io, epoch);
    }

    /** Bumps the epoch and polls all event sources. */
    method BeginCycle(now: Instant, later: Instant, timeout: Option<nat>, io: IoResult) returns (ok: bool, cycleTime: Instant)
      requires Valid()
      modifies this`epoch, driver, driver.yieldDriver, driver.timerDriver`timers, graph`nodes,
               scheduler`multiQueue, scheduler`pendingEvents, scheduler`arrivals
      ensures Valid() && epoch == old(epoch) + 1
      ensures ok <==> io.Ready?
      ensures cycleTime == if ok && driver.mode == Park && timeout != Some(0) && old(driver.Idle(graph.nodes, scheduler.arrivals, now, epoch + 1))
                           then later else now
      ensures State() == old(Polled(now, io, epoch + 1))
      ensures ExactKept(old(State()), {}, State())
      ensures PoisonDriven(State(), epoch, |gc.removalQueue|)
    {
      ghost var before, polled, levels := State(), driver.Polled(now, io), |scheduler.multiQueue|;
      epoch := epoch + 1;
      ok, cycleTime := PollEvents(now, later, timeout, io);
      PollIsSound(before, polled, graph.nextIndex, levels, epoch - 1, State());
      PollKeepsExact(before, polled, epoch, State());
    }

    /** Counts the handles of deferred spawns, then removes what is marked. */
    method RemoveMarked() returns (ghost gone: set<NodeIndex>)
      requires Sound() && scheduler.arrivals == [] && scheduler.currDepth == 0
      requires OwnsExisting(deferredSpawns, store.cells.Keys)
      modifies graph`nodes, graph`adj, store, gc
      ensures Sound() && Collected(old(State()), gone, State()) && Backed(store.cells, deferredSpawns)
    {
      ghost var m := State();
      store.RetainQueued(deferredSpawns);
      RetainedKeeps(m);
      gone := CollectGarbage(graph, store, gc);
      CollectKeeps(m, gone, State(), graph.nextIndex, |scheduler.multiQueue|, epoch);
    }

    /** Runs what a poll has scheduled, then removes what was marked. */
    method DrainAndCollect(now: Instant, ghost m0: Machine<V>, ghost base: nat) returns (terminated: bool, ghost rec: Record<V>)
      requires Sound() && edgeBuffer == [] && m0 == State() && Settled(m0)
      requires base == |gc.removalQueue| && PoisonDriven(m0, epoch, base)
      modifies this`edgeBuffer, this`deferredSpawns, graph`nodes, graph`adj, store, scheduler,
               driver.yieldDriver, driver.timerDriver, gc
      ensures Sound() && edgeBuffer == []
      ensures rec.now == now
      ensures !terminated ==> Drained(m0, epoch, rec) && State() == rec.kept && Settled(State().(spawns := []))
      ensures !terminated ==> Backed(store.cells, deferredSpawns)
      ensures !terminated ==> ExactKept(m0, rec.gone, State())
      ensures terminated ==> Aborted(m0, epoch, rec)
    {
      ghost var h;
      terminated, h := Drain(now, m0);
      if terminated {
        rec := Record(h, {}, State(), now, []);
      } else {
        ghost var m := State();
        DrainOwnsExisting(h, |h| - 1, epoch, now);
        ghost var gone := RemoveMarked();
        rec := Record(h, gone, State(), now, []);
        DrainedAndCollected(m0, h, m, now, epoch, rec);
      }
    }

    /** Everything after a poll that succeeded. */
    method DrainAndSpawn(now: Instant, ghost m: Machine<V>) returns (result: CycleResult, ghost rec: Record<V>)
      requires Valid() && m == State() && PoisonDriven(m, epoch, |gc.removalQueue|)
      modifies this`edgeBuffer, this`deferredSpawns, graph, store, scheduler, driver.yieldDriver, driver.timerDriver, gc
      ensures rec.now == now && result != PollFailed
      ensures result == Running ==> Valid() && Grown(rec.kept, State(), old(graph.nextIndex))
      ensures result == Running ==> SpawnedAll(rec.built, old(graph.nextIndex), rec.kept, State())
      ensures result == SpawnPanicked ==> SpawnFails(rec.built, old(graph.nextIndex), rec.kept)
      ensures result == Terminated ==> Aborted(m, epoch, rec)
      ensures result == Running || result == SpawnPanicked ==> Drained(m, epoch, rec)
      ensures result == Running ==> ExactKept(m, rec.gone, State())
    {
      var terminated;
      terminated, rec := DrainAndCollect(now, m, |gc.removalQueue|);
      result := Terminated;
      if !terminated {
        ghost var drained := rec;
        ghost var built;
        result, built := SpawnDeferred(rec.kept);
        rec := rec.(built := built);
        StillDrained(m, epoch, drained, rec);
      }
    }

    /** Everything after the poll; nothing if it failed. */
    method FinishCycle(ok: bool, now: Instant, ghost m: Machine<V>) returns (result: CycleResult, ghost rec: Record<V>)
      requires Valid() && m == State() && PoisonDriven(m, epoch, |gc.removalQueue|)
      modifies this`edgeBuffer, this`deferredSpawns, graph, store, scheduler, driver.yieldDriver, driver.timerDriver, gc
      ensures rec.now == now
      ensures result == PollFailed <==> !ok
      ensures result == PollFailed ==> Valid() && State() == m && rec.gone == {}
      ensures result == Running ==> Valid() && Grown(rec.kept, State(), old(graph.nextIndex))
      ensures result == Running ==> SpawnedAll(rec.built, old(graph.nextIndex), rec.kept, State())
      ensures result == SpawnPanicked ==> SpawnFails(rec.built, old(graph.nextIndex), rec.kept)
      ensures result == Terminated ==> Aborted(m, epoch, rec)
      ensures result == Running || result == SpawnPanicked ==> Drained(m, epoch, rec)
      ensures result == Running ==> ExactKept(m, rec.gone, State())
    {
      result, rec := PollFailed, Record([m], {}, m, now, []);
      if ok {
        result, rec := DrainAndSpawn(now, m);
      }
    }

    /** The deferred spawns at the end of a cycle that was not terminated. */
    method SpawnDeferred(ghost kept: Machine<V>) returns (result: CycleResult, ghost built: seq<Machine<V>>)
      requires Sound() && kept == State() && Settled(kept.(spawns := [])) && Backed(kept.cells, kept.spawns) && edgeBuffer == []
      modifies this`deferredSpawns, graph, store, scheduler`multiQueue, driver.yieldDriver, gc
      ensures result == Running || result == SpawnPanicked
      ensures result == Running ==> Valid() && Grown(kept, State(), old(graph.nextIndex))
      ensures result == Running ==> SpawnedAll(built, old(graph.nextIndex), kept, State())
      ensures result == SpawnPanicked ==> SpawnFails(built, old(graph.nextIndex), kept)
      ensures result == Running ==> ExactKept(kept, {}, State())
    {
      var panicked;
      panicked, built := RunSpawns(kept);
      result := if panicked then SpawnPanicked else Running;
    }

    /** One cycle. `now` and `later` are the clock's answers before and after a blocking poll,
        `io` the answer of the operating system. */
    method Cycle(now: Instant, later: Instant, timeout: Option<nat>, io: IoResult)
      returns (result: CycleResult, ghost rec: Record<V>)
      requires Valid()
      modifies Repr()
      ensures rec.now == if io.Ready? && driver.mode == Park && timeout != Some(0) && old(driver.Idle(graph.nodes, scheduler.arrivals, now, epoch + 1))
                         then later else now
      ensures epoch == old(epoch) + 1
      ensures result == PollFailed <==> io.Failed?
      ensures result == PollFailed ==> Valid() && State() == old(Polled(now, io, epoch + 1))
      ensures result == Running ==> Valid() && Grown(rec.kept, State(), old(graph.nextIndex))
      ensures result == Running ==> SpawnedAll(rec.built, old(graph.nextIndex), rec.kept, State())
      ensures result == SpawnPanicked ==> SpawnFails(rec.built, old(graph.nextIndex), rec.kept)
      ensures result == Running || result == SpawnPanicked ==> Drained(old(Polled(now, io, epoch + 1)), epoch, rec)
      ensures result == Terminated ==> Aborted(old(Polled(now, io, epoch + 1)), epoch, rec)
      ensures result == Running || result == PollFailed ==> ExactKept(old(State()), rec.gone, State())
    {
      var ok, cycleTime := BeginCycle(now, later, timeout, io);
      result, rec := FinishCycle(ok, cycleTime, State());
    }
  }

  // ----- the cycle

  /** What a cycle did: the drain's states, the nodes collected, the state left by collection, and the
      states between the deferred spawns built after it. */
  datatype Record<!V> = Record(history: seq<Machine<V>>, gone: set<NodeIndex>, kept: Machine<V>, now: Instant, built: seq<Machine<V>>)

  ghost predicate Drained<V>(m: Machine<V>, epoch: nat, rec: Record<V>) {
    && Draining(rec.history, epoch, rec.now) && rec.history[0] == m
    && rec.history[|rec.history| - 1].arrivals == [] && Quiet(rec.history, epoch, rec.now)
    && Collected(rec.history[|rec.history| - 1], rec.gone, rec.kept)
  }

  lemma StillDrained<V>(m: Machine<V>, epoch: nat, rec: Record<V>, rec': Record<V>)
    requires Drained(m, epoch, rec) && rec' == rec.(built := rec'.built)
    ensures Drained(m, epoch, rec')
  {
  }

  /** The cycle ended at a node that asked to terminate. */
  ghost predicate Aborted<V>(m: Machine<V>, epoch: nat, rec: Record<V>) {
    && Draining(rec.history, epoch, rec.now) && rec.history[0] == m
    && |rec.history| > 1 && Terminates(rec.history, |rec.history| - 2, epoch, rec.now)
  }

  lemma DrainedAndCollected<V>(m0: Machine<V>, h: seq<Machine<V>>, m: Machine<V>, now: Instant, epoch: nat, rec: Record<V>)
    requires Underway(h, m0, m, None, epoch, now) && Collected(m, rec.gone, rec.kept) && rec.history == h && rec.now == now
    requires Settled(m0) && Held(m0) && PoisonDriven(m0, epoch, |m0.marked|)
    ensures Drained(m0, epoch, rec) && Settled(rec.kept.(spawns := [])) && ExactKept(m0, rec.gone, rec.kept)
  {
    assert Collected(h[|h| - 1], rec.gone, rec.kept);
    DrainOwnsExisting(h, |h| - 1, epoch, now);
    DrainKeepsHolders(h, |h| - 1, epoch, now);
    CollectedIsSettled(h, now, epoch, rec.gone, rec.kept);
    DrainKeepsExact(h, now, epoch, rec.gone, rec.kept);
  }

  // ----- lemmas about one iteration

  ghost function AfterPop<V>(m: Machine<V>): Machine<V>
    requires Runnable(m)
  {
    m.(arrivals := Without(m.arrivals, First(m.arrivals)), floor := Popped(m).depth)
  }

  ghost predicate Terminates<V>(h: seq<Machine<V>>, j: nat, epoch: nat, now: Instant)
    requires j < |h|
  {
    Runnable(h[j]) && ControlOf(RanNow(h[j], epoch, now)) == Terminate
  }

  ghost predicate AllBelow<V>(nodes: map<NodeIndex, NodeContext<V>>, list: seq<NodeIndex>, floor: nat, levels: nat) {
    forall c :: c in list ==> c in nodes && floor < nodes[c].depth < levels
  }

  lemma ChildrenDeeper<V>(net: Net<V>, n: NodeIndex, control: Control, levels: nat)
    requires Wellformed(net) && n in net.nodes && Admissible(net.nodes, 0, levels)
    ensures AllBelow(net.nodes, Children(net, n, control), net.nodes[n].depth, levels)
  {
    forall c | c in Children(net, n, control)
      ensures HasEdge(net, n, c)
    {
    }
  }

  lemma SweptNodes<V>(net: Net<V>, n: NodeIndex, arrivals: seq<Entry>, epoch: nat, nodes: map<NodeIndex, NodeContext<V>>, queue: seq<Entry>)
    requires Admitted(Poison(net.nodes, Children(net, n, Sweep)), arrivals, Children(net, n, Sweep), epoch, nodes, queue)
    ensures nodes == NodesAfter(net, n, Sweep, epoch)
    ensures queue == arrivals + Fresh(net.nodes, Children(net, n, Sweep), epoch)
  {
    FreshIgnoresPoison(Poison(net.nodes, Children(net, n, Sweep)), net.nodes, Children(net, n, Sweep), epoch);
  }

  lemma InputsBelow<V>(m: Machine<V>, nextIndex: NodeIndex, levels: nat, epoch: nat)
    requires Healthy(m, nextIndex, levels, epoch) && InputsLive(m.net.nodes)
    ensures forall n, c :: n in m.net.nodes && c in m.net.nodes[n].inputs ==> c < nextIndex
  {
  }

  lemma EmptyIsSettled<V>(m: Machine<V>)
    requires m.net == Net(map[], map[]) && m.cells == map[] && m.arrivals == [] && m.floor == 0 && m.marked == [] && m.spawns == []
    ensures Healthy(m, 0, 0, 0) && Settled(m)
  {
  }

  lemma SweptIsQuiet<V>(cells: map<NodeIndex, NodeInner<V>>, n: NodeIndex, epoch: nat)
    ensures CellsWith(cells, n, Swept, epoch) == cells
    ensures YieldsOf<V>(Swept) == [] && TimersOf<V>(Swept) == [] && OwningAll(SpawnsOf<V>(Swept), cells.Keys) == []
  {
  }

  lemma QuietControls<V>(net: Net<V>, n: NodeIndex, epoch: nat)
    ensures NodesAfter(net, n, Unchanged, epoch) == net.nodes && NodesAfter(net, n, Terminate, epoch) == net.nodes
    ensures Fresh(net.nodes, Children(net, n, Unchanged), epoch) == [] && Fresh(net.nodes, Children(net, n, Terminate), epoch) == []
  {
  }

  lemma PoisonedNone<V>(nodes: map<NodeIndex, NodeContext<V>>, arrivals: seq<Entry>, epoch: nat)
    ensures Admitted(Poison(nodes, []), arrivals, [], epoch, nodes, arrivals)
  {
  }

  lemma PoisonThenAdmit<V>(
    nodes: map<NodeIndex, NodeContext<V>>, arrivals: seq<Entry>, done: seq<NodeIndex>, child: NodeIndex, epoch: nat,
    now: map<NodeIndex, NodeContext<V>>, queue: seq<Entry>)
    requires Admitted(Poison(nodes, done), arrivals, done, epoch, now, queue) && child in nodes
    ensures Admitted(Poison(nodes, done + [child]), arrivals, done, epoch, now[child := now[child].(poisoned := true)], queue)
  {
    FreshIgnoresPoison(Poison(nodes, done), Poison(nodes, done + [child]), done, epoch);
    var a, b := Stamp(Poison(nodes, done + [child]), done, epoch), now[child := now[child].(poisoned := true)];
    assert a.Keys == b.Keys;
    forall n | n in a
      ensures a[n] == b[n]
    {
    }
  }

  /** No iteration but possibly the latest asked to terminate. */
  ghost predicate Quiet<V>(h: seq<Machine<V>>, epoch: nat, now: Instant) {
    forall j :: 0 <= j < |h| - 1 ==> !Terminates(h, j, epoch, now)
  }

  lemma StepKeeps<V>(m: Machine<V>, now: Instant, nextIndex: NodeIndex, levels: nat, epoch: nat)
    requires Healthy(m, nextIndex, levels, epoch)
    ensures m.arrivals == [] ==> Healthy(m.(floor := 0), nextIndex, levels, epoch)
    ensures m.arrivals != [] ==> Runnable(m) && Healthy(Next(m, epoch, now), nextIndex, levels, epoch)
    ensures m.arrivals != [] ==> Next(m, epoch, now).floor < levels
  {
    if m.arrivals == [] {
      DrainedKeeps(m, nextIndex, levels, epoch);
    } else {
      HealthyNext(m, now, nextIndex, levels, epoch);
      FloorBelow(m, levels);
    }
  }

  /** The drain that began in `m0` has the history `h` and stands at `m` after a turn that returned `control`. */
  ghost predicate Underway<V>(h: seq<Machine<V>>, m0: Machine<V>, m: Machine<V>, control: Option<Control>, epoch: nat, now: Instant) {
    && Draining(h, epoch, now) && h[0] == m0
    && (if control.None? then h[|h| - 1].arrivals == [] && m == h[|h| - 1].(floor := 0) else m == h[|h| - 1])
    && (if control == Some(Terminate) then |h| > 1 && Terminates(h, |h| - 2, epoch, now) else Quiet(h, epoch, now))
  }

  lemma UnderwayStart<V>(m: Machine<V>, epoch: nat, now: Instant)
    requires Sane(m)
    ensures Underway([m], m, m, Some(Unchanged), epoch, now)
  {
  }

  /** What the last node returned no longer matters, if it did not ask to terminate. */
  lemma UnderwayOn<V>(h: seq<Machine<V>>, m0: Machine<V>, m: Machine<V>, last: Option<Control>, epoch: nat, now: Instant)
    requires Underway(h, m0, m, last, epoch, now) && last.Some? && last != Some(Terminate)
    ensures Underway(h, m0, m, Some(Unchanged), epoch, now)
  {
  }

  lemma IterationKeeps<V>(h: seq<Machine<V>>, m0: Machine<V>, m: Machine<V>, now: Instant, epoch: nat, m': Machine<V>)
    requires Underway(h, m0, m, Some(Unchanged), epoch, now)
    requires m.arrivals != [] && Runnable(m) && m' == Next(m, epoch, now)
    ensures Remaining(m', epoch) < Remaining(m, epoch)
    ensures Underway(h + [m'], m0, m', Some(ControlOf(RanNow(m, epoch, now))), epoch, now)
  {
    AllSane(h, |h| - 1, epoch, now);
    NextUsesUp(m, epoch, now);
    HistoryGrows(h, m, epoch, now);
    QuietGrows(h, m', epoch, now);
  }

  lemma DrainedKeeps<V>(m: Machine<V>, nextIndex: NodeIndex, levels: nat, epoch: nat)
    requires Healthy(m, nextIndex, levels, epoch) && m.arrivals == []
    ensures Healthy(m.(floor := 0), nextIndex, levels, epoch)
  {
  }

  lemma FloorBelow<V>(m: Machine<V>, levels: nat)
    requires EntriesLive(m.net.nodes, m.arrivals) && Admissible(m.net.nodes, 0, levels) && Runnable(m)
    ensures Popped(m).depth < levels
  {
  }

  lemma QuietGrows<V>(h: seq<Machine<V>>, m': Machine<V>, epoch: nat, now: Instant)
    requires |h| > 0 && Quiet(h, epoch, now)
    ensures Terminates(h, |h| - 1, epoch, now) ==> Terminates(h + [m'], |h| - 1, epoch, now)
    ensures !Terminates(h, |h| - 1, epoch, now) ==> Quiet(h + [m'], epoch, now)
  {
    var h' := h + [m'];
    forall j | 0 <= j < |h'| - 1
      ensures Terminates(h', j, epoch, now) <==> Terminates(h, j, epoch, now)
    {
    }
  }

  lemma HistoryGrows<V>(h: seq<Machine<V>>, m: Machine<V>, epoch: nat, now: Instant)
    requires Draining(h, epoch, now) && h[|h| - 1] == m && Runnable(m)
    ensures Draining(h + [Next(m, epoch, now)], epoch, now)
  {
    var h' := h + [Next(m, epoch, now)];
    forall j | 0 <= j < |h'| - 1
      ensures Follows(h', j, epoch, now)
    {
      if j < |h| - 1 { assert Follows(h, j, epoch, now); }
    }
  }
}
