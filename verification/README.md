# Wavelet's execution engine, modelled and proved

Wavelet is a single-threaded graph runtime: nodes hold data, a node's cycle function reads its own
data and that of its parents, and its control result decides what happens to its children. This
project models the runtime's engine in Dafny and proves what users of it rely on.

The classes (`Scheduler`, `Graph`, `TimerDriver`, `YieldDriver`, `EventDriver`, `GarbageCollector`,
`NodeStore`, `Executor`, `Router`, `HistoricalClock`, `Runtime`) have the fields and the loops of the
program. Each method is proved against functions on values, and the theorems are lemmas about these
functions. The interplay of threads (`Channels`) is a state machine whose steps are single atomic
accesses.

How the pieces fit together:

- **One cycle as equations** (`Semantics`). `Solves(start, ran)` says which nodes run in a cycle and
  what each of them does, without mentioning any queue or order. The equations have exactly one
  solution, which is also what a single pass in any topological order computes.
- **The drain loop** (`Scheduling`, `Graphs`, `Stepping`, `Machines`). `Executor.Drain` returns the
  history of its iterations, each a step of the function `Next`; the history of a drain that empties
  the queue ends in the solution of the equations.
- **Whole cycles and runs** (`Invariants`, `Spawning`, `Execution`, `Runs`, `Cycles`, `Requests`,
  `Terminating`, `Retrying`).
  The executor's invariant holds after any sequence of builds, spawns, handle drops, cycles and failed
  polls. A `Move` of a run is a cycle, a failed poll, or a build, drop or yield between cycles; the
  theorems about runs hold for every sequence of moves. A cycle that starts with a drained queue is
  moreover a `CycleStep`, which solves the equations.
- **What nodes rely on** (`Following`, `Gates`, `Accumulate`, `Routing`, `RouterCycles`).
- **What reaches the engine from outside** (`Timers`, `Events`, `Channels`, `Clocks`, `Replay`).

Vocabulary: a `NodeIndex` stands for a node index together with its generation, so it is never handed
out twice. Times are integers in nanoseconds. A cycle function is any function from its own data and a
`View` (its inputs' data, which of them mutated, epoch and time) to an `Outcome` (new data, control,
yields, timers, deferred spawns). The answers of the operating system and of the clock are parameters.

## Where the code does not keep a promise

- A notification dropped on a full queue can lose a wakeup for good: the item stays in the channel and
  the runtime sleeps (`Channels.LostWakeup`). `Channels.NoLostWakeup` gives the exact condition. The
  documentation of `Notifier::notify` says only that notifications coalesce.
- A parked runtime can sleep on a live, already signalled notification (`Channels.ParksOnStaleNote`; for
  a poll limit of zero `Channels.ParksWithoutLimit`). `Channels.ParksIffStaleHead` says exactly when: a
  cycle starts with nothing pending and the waker clear, and the oldest notifications, as many as the
  poll limit, all name removed nodes, with that notification behind them. One such cycle is enough.
- After a failed poll a node can run twice in one cycle, since it stays queued and can be admitted again.
  A parent's second run can overwrite what its first one broadcast before its follower has seen it: by
  broadcasting again (`Accumulate.LostBatch`) or by changing its data without a broadcast
  (`Accumulate.ClearedBatch`). `Following.FindsEveryBroadcastIff` gives the exact condition. A node that no
  failed poll has left in the queue runs once at most (`Following.RunsOnceUnlessLeft`), and one that
  changes its data only when it broadcasts overwrites only by broadcasting twice (`Following.HonestParent`).
  A router that runs twice in an epoch doubles the batch (`Routing.DoubledBatch`, in a run of the engine
  `RouterCycles.RoutesTwice`); `Routing.HoldsMostRecentIff` gives the exact condition, and a router that no
  poll offers meets it (`RouterCycles.UnofferedHoldsMostRecent`).
- `try_receive` can report the channel closed while an item is left (`Channels.ClosedBeforeLastItem`);
  `Channels.ClosedWhileNotEmpty` gives the exact condition. Nothing is pushed afterwards, and the
  node's wakeup is still on its way, so a receiver that is run again finds the item.

## Model

| member | source | states |
|---|---|---|
| Scheduling.Scheduler.Schedule | wavelet/src/runtime/scheduler.rs:45-61 | refuses exactly depths below the current one; otherwise the node is the newest entry of a stable priority queue and the pending count grows by one |
| Scheduling.Scheduler.Pop | wavelet/src/runtime/scheduler.rs:64-85 | takes the oldest entry of the least nonempty depth, and returns nothing only if nothing at all is queued; counts the loop's visits of depth levels |
| Scheduling.Scheduler.EnableDepth | wavelet/src/runtime/scheduler.rs:37-42 | afterwards the depth has a queue; nothing queued is moved or lost |
| Scheduling.DrainNeverGoesBack | wavelet/src/runtime/scheduler.rs:45-85 | over any interleaving of accepted schedules and pops, the depths of popped entries never decrease |
| Scheduling.TakeFromBuckets | wavelet/src/runtime/scheduler.rs:64-85 | removing the head of the first nonempty depth queue is removing the oldest entry of least depth |
| Semantics.SolutionUnique | wavelet/src/runtime/executor.rs:450-487 | a cycle's outcome depends on no order: its equations have at most one solution |
| Semantics.OnePassSolves | wavelet/src/runtime/executor.rs:450-487 | a single pass over the nodes in any topological order, running those that are due, solves the equations |
| Semantics.SolutionIsOnePass | wavelet/src/runtime/executor.rs:450-487 | any solution is that single pass, whichever topological order is chosen |
| Semantics.OrderExists | wavelet/src/runtime/node.rs:771-834 | every graph whose edges go to greater depths has a topological order |
| Semantics.PartialStep | wavelet/src/runtime/executor.rs:450-487 | running one queued node none of whose children has run extends a partial solution |
| Semantics.PartialAgrees | wavelet/src/runtime/executor.rs:450-487 | what has run when a cycle is interrupted is part of the full solution, and above the current depth all of it |
| Semantics.RanIsLeast | wavelet/src/runtime/executor.rs:453-482 | the nodes that run are the least set holding the live seeds and closed under trigger-children of broadcasters and all children of sweepers |
| Semantics.SweepReachesDescendants | wavelet/src/runtime/executor.rs:469-482 | everything reachable from a swept node is swept without running user code |
| Graphs.Graph.CanSchedule | wavelet/src/runtime/graph.rs:86-97 | admits a live node once per epoch and reports its depth; refuses absent and already admitted nodes without a change |
| Graphs.Graph.RemoveNode | wavelet/src/runtime/graph.rs:159-161 | the node and all edges into and out of it are gone, every other node and edge stays; an absent index changes nothing |
| Graphs.RemovedEdges | wavelet/src/runtime/graph.rs:159-161 | after a removal an edge exists exactly if it existed and neither end is the removed node |
| Graphs.FreshSpec | wavelet/src/runtime/graph.rs:86-97 | polling a list admits exactly its live nodes not yet scheduled in the epoch, each once, at its own depth |
| Graphs.FreshAppend | wavelet/src/runtime/graph.rs:86-97 | admitting one list and then another is admitting their concatenation |
| Graphs.ScheduleReady | wavelet/src/runtime/event_driver.rs:204-211 | offering one node extends the admissions of the list offered so far; the scheduler never refuses it |
| Stepping.SyncedStep | wavelet/src/runtime/executor.rs:450-482 | popping and running the first entry of the depth queues keeps the engine's stamps, poison flags and queue in step with the partial solution |
| Stepping.StepUsesUp | wavelet/src/runtime/executor.rs:450-482 | each iteration uses up exactly one of the entries queued and nodes not yet scheduled in the epoch |
| Machines.SaneNext | wavelet/src/runtime/executor.rs:450-482 | every popped node is in the graph, and the queue keeps only live nodes no shallower than the current depth |
| Machines.DrainSolves | wavelet/src/runtime/executor.rs:450-487 | a drain from a fresh poll that empties the queue has solved the cycle's equations, and the cells hold the solution's data and mutation epochs |
| Machines.DrainIsOnePass | wavelet/src/runtime/executor.rs:450-487 | so it has run the nodes of a single topological pass with the same results, whatever the order of seeds, entries of equal depth, and edges |
| Machines.RunsOnceAfterParents | wavelet/src/runtime/executor.rs:450-482 | in a cycle that starts with a drained queue each node runs at most once, and never before one of its parents |
| Machines.PopsAreBounded | wavelet/src/runtime/executor.rs:450-482 | pops so far, entries queued and nodes not yet scheduled always add up to the same number |
| Machines.FreshPopsAtMostLive | wavelet/src/runtime/executor.rs:450-482 | a cycle from a drained queue pops at most as many nodes as are live |
| Terminating.TerminatesIffAsked | wavelet/src/runtime/executor.rs:483-485 | a cycle from a drained queue returns `Terminated` exactly if the unique solution of its equations holds a terminating node, so no order decides whether the run ends |
| Terminating.PrefixOfSolution | wavelet/src/runtime/executor.rs:450-485 | whatever ran before the end did what it does in that solution |
| Poisoning.DrainMarksChildren | wavelet/src/runtime/executor.rs:469-482 | after a drain every poisoned node is marked, and so is every child of a node swept in it |
| Poisoning.InputsSurvive | wavelet/src/runtime/executor.rs:489-492 | a node that survives collection keeps every parent it reads |
| Retrying.RunsAfterFailedPolls | wavelet/src/runtime/executor.rs:432-438 | a drain over a queue left by failed polls runs every queued node, none more than once plus once for each failure |
| Retrying.FailedPollsLoseNothing | wavelet/src/runtime/executor.rs:428-450 | every node queued by any of several polls that fail, with builds, handle drops and yields between them, runs in the cycle that succeeds, at most once plus once for each failure |
| Retrying.QueueOfPolls | wavelet/src/runtime/event_driver.rs:214-227 | a failed poll keeps the queue and puts its own admissions, without repeats, behind it |
| Timers.FiringSpec | wavelet/src/runtime/event_driver/timer_driver.rs:125-142 | a poll fires exactly the timers due, in order of deadline and then of registration |
| Timers.TimerDriver.Poll | wavelet/src/runtime/event_driver/timer_driver.rs:125-142 | offers the due timers' nodes in that order and keeps exactly the timers with a later deadline |
| Timers.TimerDriver.RegisterTimer | wavelet/src/runtime/event_driver/timer_driver.rs:96-105 | returns a handle never used before, under which the timer is kept |
| Timers.HeldUntilConsumed | wavelet/src/runtime/event_driver/timer_driver.rs:96-142 | over any run a timer is held, with its node, exactly until its cancellation or the first poll at or after its deadline |
| Timers.FiresOnce | wavelet/src/runtime/event_driver/timer_driver.rs:125-142 | a timer fires at a poll exactly if it is due there and nothing consumed it before |
| Timers.NotHeldBefore | wavelet/src/runtime/event_driver/timer_driver.rs:96-105 | before its registration a timer's handle names nothing |
| Events.EventDriver.Poll | wavelet/src/runtime/event_driver.rs:186-243 | admits, in this order and without repeats, notifications up to the limit, yields, due timers and ready sources; an error of the last keeps what was admitted; leaves the other notifications and the later timers; the time is sampled again exactly in `Park` mode when nothing was ready and the timeout is not zero |
| Events.EventDriver.OffersExactly | wavelet/src/runtime/event_driver.rs:201-222 | a node is offered exactly if it is among the first notifications, as many as the poll limit, has yielded, has a timer due, or is the node of a ready source |
| Events.EventDriver.PopNotifications | wavelet/src/runtime/event_driver.rs:201-212 | takes the oldest notifications, exactly as many as the poll limit or all if there are fewer, and admits their live nodes |
| Events.EventDriver.EffectiveTimeout | wavelet/src/runtime/event_driver.rs:255-268 | waits exactly until the caller's timeout or the next timer, whichever is first, except for the minimum timer precision |
| Events.EventDriver.Notify | wavelet/src/runtime/event_driver.rs:64-68 | appends the index, or drops it when the queue is full |
| Lifecycle.CollectGarbage | wavelet/src/runtime/executor.rs:489-492 | ends although removals push new marks, and removes exactly the least set holding the marked nodes and closed under "all strong handles are held by closures of removed nodes" |
| Lifecycle.NodeStore.DropHandle | wavelet/src/runtime/node.rs:500-507 | dropping a handle that is not the last only lowers the count; the last one drops the cell and marks the node |
| Lifecycle.NodeStore.DropClosure | wavelet/src/runtime/node.rs:500-507 | removing a node's closure releases its handles and marks exactly the nodes that nobody else holds |
| Lifecycle.OwnedSurvivors | wavelet/src/runtime/graph.rs:159-161 | the cells left after a removal are again owned by outside handles or live closures only |
| Lifecycle.BackedSurvive | wavelet/src/runtime/executor.rs:494-497 | a collection that counts the handles of queued spawns removes no cell that one of them owns |
| Building.RelationshipsMerge | wavelet/src/runtime/node.rs:611-628 | each declared parent appears once, as `Trigger` exactly if some declared relation to it was `Trigger` |
| Building.ComputeDepth | wavelet/src/runtime/node.rs:776-782 | the depth is above every parent's and one more than some parent's, or zero without parents |
| Building.LinkedEdges | wavelet/src/runtime/node.rs:816-823 | inserting a node adds one edge from each declared parent, of the merged relation, and changes no other edge |
| Building.LinkedWellformed | wavelet/src/runtime/node.rs:771-834 | an insertion keeps every edge going to a strictly greater depth |
| Building.DepthBoundsPaths | wavelet/src/runtime/node.rs:776-782 | at all times a node's depth bounds the length of every path into it, so there is no cycle |
| Building.DepthIsLongestPath | wavelet/src/runtime/node.rs:776-782 | where depths are exact, which every build keeps, depth is the length of a path that exists, hence of a longest one |
| Building.Insert | wavelet/src/runtime/node.rs:771-834 | the graph gains exactly the declared node and its edges, and depths stay exact; the node has the function it was declared with and reads exactly the declared parents, triggering or observed, whose handles its closure captured |
| Invariants.PollIsFresh | wavelet/src/runtime/executor.rs:428-438 | from a drained queue a poll leaves exactly the live polled nodes queued, once each |
| Invariants.HealthyNext | wavelet/src/runtime/executor.rs:450-482 | every iteration of the drain keeps the executor's invariant |
| Invariants.CollectedIsSettled | wavelet/src/runtime/executor.rs:489-492 | after drain and collection no poisoned node is left, and every node's inputs are live and owned by it |
| Invariants.BuildIsSound | wavelet/src/runtime/node.rs:771-834 | a build keeps the executor's invariant, and nothing that was there changes |
| Spawning.SpawnBacked | wavelet/src/runtime/executor.rs:494-497 | after a deferred spawn has run, those still queued hold handles of their own of everything they own |
| Spawning.SpawnsInOrder | wavelet/src/runtime/executor.rs:494-497 | at the end of a cycle every deferred spawn has been built, in the order in which they were deferred |
| Execution.Executor.Propagate | wavelet/src/runtime/executor.rs:452-486 | a broadcast admits the triggered children, a sweep marks the node and poisons and admits all children, each once per epoch; the scheduler never refuses one |
| Execution.Executor.CycleNode | wavelet/src/runtime/graph.rs:43-51 | a poisoned node, or one whose cell is gone, is swept without running user code; otherwise data, mutation epoch, yields, timers and spawns are those of the outcome |
| Execution.Executor.PopAndRun | wavelet/src/runtime/executor.rs:450-486 | one iteration of the loop is one step of `Next` |
| Execution.Executor.Drain | wavelet/src/runtime/executor.rs:450-487 | runs until the queue is empty or a node terminates; the scheduler's loop takes at most one step for each pop and one for each depth |
| Execution.Executor.Build | wavelet/src/runtime/node.rs:771-834 | the invariant holds again, the new depth has a queue, the node reads the parents it was declared with and holds its initial data, and exactly a bootstrapped node is yielded |
| Execution.Executor.RunSpawn | wavelet/src/runtime/executor.rs:494-497 | a deferred spawn panics exactly if a parent that it names is not in the graph; no node it captures ever is missing; otherwise its node is built and then the handles of its closure are dropped |
| Execution.Executor.Cycle | wavelet/src/runtime/executor.rs:423-499 | the whole cycle: nodes see the time before the poll, or the one after it exactly if the poll may have parked the thread and succeeded; a failed poll keeps everything admitted; `Terminated` only at a terminating node; `Running` with a complete drain, exact collection that spares what deferred spawns own, and all of them built in order; a panic only at a spawn whose parent was removed; depths stay exact if nothing is removed |
| Execution.Executor.DropHandle | wavelet/src/runtime/node.rs:500-507 | a handle dropped between cycles keeps the invariant and touches nothing but its own cell and mark |
| Runs.CycleIsStep | wavelet/src/runtime/executor.rs:423-499 | a cycle that starts drained and returns `Running` solves its equations for the polled seeds, removes every swept node, leaves survivors their wiring, edges and new data, and leaves the queue drained |
| Runs.RunCycle | wavelet/src/runtime/executor.rs:423-499 | a cycle of the executor, whatever failed polls have left in its queue, is a move of a run for what its poll offered, and so is a failed poll |
| Runs.BuildOutside | wavelet/src/runtime/node.rs:771-834 | a build between cycles is a move of a run: nothing that was there changes |
| Runs.DropOutside | wavelet/src/runtime/node.rs:500-507 | so is a dropped handle |
| Runs.CycleKeeps | wavelet/src/runtime/executor.rs:450-492 | a cycle removes exactly what it collects; every other node was neither marked nor poisoned and keeps wiring, incoming edges and what the drain left in its cell |
| Runs.DepthsAreLongestPaths | wavelet/src/runtime/node.rs:776-782 | over any run of builds, spawns, drops, cycles and failed polls, until a node is removed, every node's depth is the length of a longest path into it |
| Cycles.ParentsFirst | wavelet/src/runtime/executor.rs:450-482 | in any drain no node is run, for the first time or again, once a child of it has run |
| Cycles.SweepRemovesDescendants | wavelet/src/runtime/executor.rs:469-492 | in any cycle, whatever failed polls have left in its queue: if an iteration sweeps a node, everything reachable from it over any edges is run, every time without user code, and is gone when the cycle ends |
| Cycles.SeesThisDrain | wavelet/src/runtime/executor.rs:183-185 | in any drain, when a node's function runs, it sees each input as it is at the end of the drain, and `has_mutated` holds exactly for the inputs that broadcast in it |
| Cycles.SeesThisCycle | wavelet/src/runtime/executor.rs:183-185 | the same for every cycle of a run |
| Cycles.StoresItsData | wavelet/src/runtime/node.rs:786-814 | what a node's function returns is its data from then on, whatever its control result |
| Cycles.BuiltNodeSees | wavelet/src/runtime/node.rs:786-814 | from its build on, whenever a node runs, it runs the function it was built with, and is shown the final data of every declared parent, triggering or only observed, whose handle it captured |
| Cycles.RunsExactlyIf | wavelet/src/runtime/executor.rs:453-482 | in any complete drain exactly those nodes run that were queued at its start, have a triggering edge from a node that broadcasts, or any edge from a swept one: a broadcast wakes no observer |
| Requests.QueuesWhatWasAsked | wavelet/src/runtime/executor.rs:195-200 | after a drain the deferred spawns are exactly those that the user functions asked for, in that order and as they were asked for, with the handles of the nodes that still have a cell |
| Requests.CycleBuildsWhatWasAsked | wavelet/src/runtime/executor.rs:494-497 | a cycle that returns `Running` builds one node for each spawn asked for in it, in that order, and nothing else |
| Requests.HandlesGivenBack | wavelet/src/runtime/executor.rs:494-497 | when the deferred spawns have run, every cell left is held from outside exactly as often as before they were counted |
| Requests.YieldedRuns | wavelet/src/runtime/event_driver/yield_driver.rs:44-61 | over any run, a node that a user function yields is run by the next cycle that succeeds, if it stays until then |
| Requests.CycleHolds | wavelet/src/runtime/executor.rs:121-127 | a timer that a user function asks for is held after the cycle, with its node and deadline |
| Requests.TimerRuns | wavelet/src/runtime/event_driver/timer_driver.rs:125-142 | over any run, failed polls included, once a timer that was not cancelled is no longer held and a cycle has succeeded since, a cycle has run its node |
| Requests.PollFires | wavelet/src/runtime/event_driver/timer_driver.rs:125-142 | a poll takes away a timer exactly if it is due, and then offers its node |
| Gates.NewGate | wavelet/src/wsnl/logic.rs:6-34 | the gate is built with trigger edges from both inputs, its initial value, and a pending yield if bootstrapped; the build is a move of a run |
| Gates.GateJoins | wavelet/src/wsnl/logic.rs:6-34 | a gate that starts right or bootstrapped joins a network |
| Gates.GateNext | wavelet/src/runtime/executor.rs:450-486 | every iteration of every drain keeps a gate equal to its function of its inputs, or queued, unless it is poisoned |
| Gates.GateCycle | wavelet/src/wsnl/logic.rs:6-20 | a gate that equalled its function of its inputs, was bootstrapped, or was left in the queue by a failed poll, equals it after the cycle |
| Gates.GateTellsIff | wavelet/src/wsnl/logic.rs:12-20 | in any drain a gate that is not swept broadcasts if and only if its value at the end differs from its value at the start |
| Gates.TruthTables | wavelet/src/wsnl/logic.rs:35-113 | the three gates compute conjunction, disjunction and exclusive disjunction |
| Gates.CycleNetwork | wavelet/src/runtime/executor.rs:423-499 | a cycle of an executor holding a network whose gates are right, bootstrapped or queued leaves all gates right, if none was removed; a failed poll leaves them right or queued |
| Gates.NetworkStaysRight | wavelet/src/wsnl/logic.rs:3-113 | in any run, failed polls included, in which gates start right or bootstrapped, all gates are right after every cycle |
| Gates.IncrementalIsFromScratch | wavelet/src/wsnl/logic.rs:3-113 | after every cycle of such a run each node's value equals the recursive evaluation of the whole network from its sources |
| Following.RunsWithParent | wavelet/src/runtime/executor.rs:453-464 | in any drain, whatever its queue held, a node woken by its only parent runs exactly once if the parent broadcasts, however often, and not at all otherwise |
| Following.RunsWhenCalled | wavelet/src/runtime/executor.rs:423-499 | the same for every move of a run |
| Following.FindsEveryBroadcastIff | wavelet/src/runtime/executor.rs:423-499 | over any run such a node finds everything its parent broadcast, each once and in order, if and only if in every cycle, when the parent runs again after a broadcast, it does not broadcast again and its last run leaves the data it broadcast |
| Following.FindsEveryBroadcast | wavelet/src/runtime/executor.rs:423-499 | so it does in every run in which no failed poll offers the parent |
| Following.RunsOnceUnlessLeft | wavelet/src/runtime/executor.rs:428-438 | a node that no failed poll has left in the queue runs once at most in the next cycle, and so overwrites nothing |
| Following.HonestParent | wavelet/src/runtime/executor.rs:453-464 | a parent that changes its data only when it broadcasts overwrites exactly by broadcasting twice |
| Accumulate.AccumulateBatch | wavelet/src/wsnl/transform.rs:42-54 | the loop over a batch, updating the total in place, computes the fold |
| Accumulate.AccumulateNode | wavelet/src/wsnl/transform.rs:42-54 | the node's closure with that loop is the function that the engine runs |
| Accumulate.AccumulatorTells | wavelet/src/wsnl/transform.rs:42-54 | an accumulator that runs always broadcasts |
| Accumulate.FoldsTheStream | wavelet/src/wsnl/transform.rs:42-54 | over any run, failed polls included, its value is the fold of the initial value over what its parent held at the end of each cycle in which it broadcast, each once and in order |
| Accumulate.FoldsEveryBroadcast | wavelet/src/wsnl/transform.rs:42-54 | if no failed poll offers the parent it is the fold over every batch ever broadcast |
| Accumulate.LostBatch | wavelet/src/runtime/executor.rs:428-438 | a run in which a poll fails and the next one offers the same node again: the node runs twice in one drain, and the accumulator behind it sees only its second batch |
| Accumulate.ClearedBatch | wavelet/src/runtime/executor.rs:428-438 | the same two polls, with a parent that clears itself in its second run without a broadcast: the accumulator behind it sees nothing of the batch broadcast |
| Routing.Partition | wavelet/src/wsnl/control.rs:129-160 | every item goes to the output of its own key as often as it occurs, and to no other |
| Routing.ForKeyAppend | wavelet/src/wsnl/control.rs:144-158 | the items of an output keep the order they have in the batch |
| Routing.WokenOnce | wavelet/src/wsnl/control.rs:144-158 | a batch schedules exactly the live outputs that receive their first items of the epoch, once each |
| Routing.Router.AppendItem | wavelet/src/wsnl/control.rs:144-156 | an output's first item of an epoch clears it and schedules it; the schedule call does not fail at the router's depth; a key without a live output discards the item |
| Routing.Router.RouteBatch | wavelet/src/wsnl/control.rs:144-158 | each live output that receives items holds exactly those with its key in source order, after those it received earlier in the same epoch, and the others are untouched |
| Routing.Router.TakeBatch | wavelet/src/wsnl/control.rs:207-221 | the same, and the source is left empty |
| Routing.Router.Route | wavelet/src/wsnl/control.rs:47-82 | returns the key's live output, or builds one that observes the router's source, empty and with its key alone; all outputs stand at the router's own depth, also in the graph |
| Routing.Router.DropOutput | wavelet/src/wsnl/control.rs:61-82 | dropping an output forgets its key and nothing else; the others stay in their places |
| Routing.OutputTells | wavelet/src/wsnl/control.rs:61-82 | an output that runs broadcasts exactly if it holds items, and keeps them |
| Routing.RouteStreamNode | wavelet/src/wsnl/control.rs:129-142 | builds the router with its source as the only parent, triggered by it, one level below it and owning a handle of it |
| Routing.OneBelow | wavelet/src/runtime/node.rs:776-782 | a node with a single parent stands exactly one level below it, so router and outputs share their depth |
| Routing.Router.RunPopped | wavelet/src/wsnl/control.rs:142-158 | when the executor pops the router, every output that receives items is accepted by the scheduler, since it stands at the popped depth; the executor's invariant holds again |
| Routing.Router.TakePopped | wavelet/src/wsnl/control.rs:207-221 | the same for the taking router, which leaves its source's cell empty |
| Routing.ScheduledKeeps | wavelet/src/runtime/executor.rs:450-482 | what the router schedules is live and no shallower than the router, so the drain's invariant goes on |
| Routing.PlacedAlways | wavelet/src/runtime/node.rs:776-782 | over any move of a run router and outputs keep their depth, and the router its handle of the source |
| Routing.OutputsHoldMostRecent | wavelet/src/wsnl/control.rs:47-160 | over any run of requests, drops and batches with at most one batch an epoch, the live outputs are those requested and not dropped since, each holding the items of the most recent batch with its key since it was created |
| Routing.HoldsMostRecentIff | wavelet/src/wsnl/control.rs:47-160 | without that restriction an output holds exactly those items if and only if that batch was the first of its epoch to hold the key |
| Routing.DoubledBatch | wavelet/src/wsnl/control.rs:144-158 | a run in which the router runs twice in an epoch and an output holds its batch doubled |
| RouterCycles.PoppedRouterSchedules | wavelet/src/wsnl/control.rs:142-158 | what the executor does when it pops a router is an iteration of the drains below |
| RouterCycles.RouterRunsOnce | wavelet/src/runtime/executor.rs:453-464 | in a drain in which the router schedules its outputs itself, a router that only its source wakes runs once at most |
| RouterCycles.UnofferedRoutesOncePerEpoch | wavelet/src/wsnl/control.rs:144-158 | over any run of such drains it routes at most one batch in each epoch |
| RouterCycles.UnofferedHoldsMostRecent | wavelet/src/wsnl/control.rs:47-160 | so its live outputs hold exactly the items of the most recent batch with their key |
| RouterCycles.RoutesTwice | wavelet/src/runtime/executor.rs:428-438 | a poll that offers the router fails and the next one offers it again: one drain runs it twice, and its output, scheduled once, holds the batch twice |
| Channels.NoLostWakeup | wavelet/src/channel.rs:57-165 | in every interleaving: while the receiver has an item or the closing to find, a wakeup is on its way, exactly if no last wakeup is dropped on a full notification queue |
| Channels.StepKeepsCover | wavelet/src/runtime/event_driver.rs:64-68 | the same for each single step: only a dropped notification that was the last wakeup breaks it |
| Channels.BlockedSenderIsServed | wavelet/src/channel.rs:127-143 | a sender waiting in `blocking_send` on a full channel always has a wakeup of the receiver on its way |
| Channels.BlockingEnds | wavelet/src/channel.rs:127-143 | in every step of every interleaving a `blocking_send` goes on, or pushes exactly its own item, or has found no receiver and pushed nothing |
| Channels.TryEnds | wavelet/src/channel.rs:115-124 | a `try_send` pushes exactly its item if a slot is free at its push, and otherwise nothing |
| Channels.ForceEnds | wavelet/src/channel.rs:145-152 | a `force_send` with a receiver left always pushes its item, and evicts the oldest one exactly if the queue is full |
| Channels.PushedOnlyBySenders | wavelet/src/channel.rs:115-152 | nothing enters the channel but in the push of a thread that is sending it |
| Channels.SendProceeds | wavelet/src/channel.rs:115-152 | with a receiver left a send goes on to its push, which settles it, except that a `blocking_send` on a full queue starts over |
| Channels.SendIsSettled | wavelet/src/channel.rs:115-152 | over any run a send that has started is under way, or a step since has pushed its item, found no receiver, or found the queue full in a `try_send` |
| Channels.ReadyBecomesPending | wavelet/src/runtime/event_driver.rs:186-243 | the live nodes of ready sources and of popped notifications become pending |
| Channels.PendingStays | wavelet/src/runtime/event_driver.rs:186-243 | a pending node stays so until it runs or is removed |
| Channels.ParksOnlyUnsignalled | wavelet/src/runtime/event_driver.rs:186-283 | whatever the threads do during the poll, the runtime parks on a live notification whose thread has already called `wake` only if its cycle began with nothing pending, the waker clear, and as many stale notifications in front as the poll limit |
| Channels.ParksIffStaleHead | wavelet/src/runtime/event_driver.rs:186-283 | from a resting runtime the next poll can park on such a notification if and only if it starts that way |
| Channels.NeverStuck | wavelet/src/runtime/event_driver/io_driver.rs:132-150 | otherwise a parked runtime with something to receive has its waker set, or some thread is between its push and its `wake` |
| Channels.FirstInFirstOut | wavelet/src/channel.rs:115-165 | what was pushed is what was received or evicted, in order, followed by what is queued; capacities are respected |
| Channels.ReceivesEverything | wavelet/src/channel.rs:115-165 | without `force_send`, received and queued items are exactly the pushed ones in order |
| Channels.CountedAlways | wavelet/src/channel.rs:33-50 | the sender count is the number of senders alive, and closing is reported only when there is none |
| Channels.ClosedIsFinal | wavelet/src/channel.rs:154-165 | once closing has been reported nothing is pushed any more |
| Channels.ClosedWhileNotEmpty | wavelet/src/channel.rs:154-165 | closing is reported with items left exactly if the last sender is gone and something was pushed after the empty pop |
| Channels.LostWakeup | wavelet/src/runtime/event_driver.rs:64-68 | a run in which a full notification queue strands an item: the runtime is parked and no thread will wake it |
| Channels.ParksOnStaleNote | wavelet/src/runtime/event_driver.rs:201-222 | a run in which a single cycle's stale notification strands a live one: the runtime is parked and no thread will wake it |
| Channels.ParksWithoutLimit | wavelet/src/runtime/event_driver.rs:201-212 | for every configuration with a poll limit of zero, a run that parks on a queued, already signalled notification |
| Channels.ClosedBeforeLastItem | wavelet/src/channel.rs:154-165 | a run in which closing is reported with an item left |
| Clocks.StepsCover | wavelet/src/runtime/clock/historical.rs:109-125 | the clock stands at the end of the interval from reading number ceil(length / step) on, and not before |
| Clocks.HistoricalClock.ReadCycleTime | wavelet/src/runtime/clock/historical.rs:128-137 | reading `k` is the start plus `k` steps, cut off at the end, as wall time and as instant |
| Clocks.HistoricalClock.TryAdvance | wavelet/src/runtime/clock/historical.rs:109-125 | moves to the next reading and is exhausted once a call has started at the end |
| Clocks.AdvancesAlike | wavelet/src/runtime/clock/historical.rs:100-106 | between any two readings instants and wall time advance by the same amount, by whole steps before the end and never past it |
| Replay.Runtime.RunUntilCompletion | wavelet/src/runtime.rs:262-273 | unless a node terminates or a spawn panics it runs exactly ceil(length / step) + 1 cycles, whichever of their polls fail; cycle `k` and its nodes see the start plus `k` steps, cut off at the end, and the last one sees the end |

## Left out

- Reuse of node indices: a `NodeIndex` includes a generation, so handles, timers, yields and notifications never name a later node of the same slot.
- Wrap-around of the epoch and of the timer sequence, and the width of depths: all are unbounded here.
- mio, sockets and source registration: the ready nodes, a possible error, and whether the waker was cleared are arbitrary answers of the operating system.
- Clocks other than the historical one: their readings are parameters of `Cycle`.
- Memory orderings, fences, `Backoff` and the inside of `ArrayQueue`: each access is one step of a sequentially consistent interleaving.
- Channels: the channel and its senders are a state value rather than objects, because their steps interleave; the receiving node is one that receives until it is told that the channel is empty or closed.
- Channels.NeverStuck: says that a wakeup is under way, not how many steps the operating system or the threads take to deliver it.
- A timer driver that is switched off; the channel model does cover a switched-off I/O driver.
- `allow_panic(true)`; any other panic of a cycle function is the outcome `Sweep`.
- Execution.Executor.Cycle: a deferred spawn is one blueprint with the strong handles its closure owns, not an arbitrary closure; the handles are counted when the drain ends, since nothing drops one before; nothing is said about the state after `Terminated` or after a spawn's panic.
- `on_init` other than yielding the new node, `on_drop` other than that of a router's output, handles kept inside node data, and handles dropped or timers cancelled from inside a cycle function.
- `schedule_node` bypasses the once-per-epoch rule; it is modelled in `Routing.Router.RunPopped`, `TakePopped` and the drains of `RouterCycles`, and the other theorems about whole drains and runs are for graphs whose nodes do not call it.
- Routing.Router.RunPopped: the router's cache and its outputs' data are fields of the router object, not cells of the executor.
- RouterCycles.UnofferedHoldsMostRecent: the run of requests and batches is tied to the drains by the iterations that run the router, not built from the executor's own loop.
- Execution.Executor.RunSpawn: in the program a spawn that names a removed parent does not always panic: the new node can take over the freed slot before its edge is added, and then becomes its own parent. Indices are never reused here.
- The router that reads from a channel, the switch nodes, filter, deduplication and reset-accumulator nodes, constant and periodic nodes, factories, mocks: easier members of the same kinds.
- Accumulate.FoldsTheStream: for an accumulator that no poll offers and whose only parent is the one it folds, as the constructor builds it.
- Building.DepthIsLongestPath: after a removal depths may exceed the longest path; `DepthBoundsPaths` still holds.
- `run_forever`: it is meant not to end. Its single turn is `Executor.Cycle`.
- Replay.Runtime.RunUntilCompletion: asks for a positive step, which `Runtime::new` always gives; with a step of zero the clock never moves and the loop would not end.
- The order in which the graph library lists edges is fixed to newest first, and the parents' map to any order; the theorems show that the result depends on neither.
- Maps, sequences and queues that the program changes in place are fields holding values that the methods replace.
- Shutdown by signals, names, logging and tests.
