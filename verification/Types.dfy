/** The vocabulary shared by every component: node indices, relationships,
    control results, and what a node's cycle function may see and ask for. */
module Types {
  // A node index together with its generation: an index is never handed out twice.
  type NodeIndex = nat

  type Instant = int

  datatype Option<+T> = None | Some(value: T)

  datatype Relationship = Trigger | Observe

  datatype Control = Broadcast | Unchanged | Terminate | Sweep

  /** What a cycle function can read besides its own data: the data of the
      parents whose handles it holds, and which of them mutated in this epoch. */
  datatype View<V> = View(data: map<NodeIndex, V>, mutated: set<NodeIndex>, epoch: nat, now: Instant)

  /** Everything one run of a cycle function produces. A caught panic is the
      outcome whose control is `Sweep`. */
  datatype Outcome<!V> = Outcome(
    data: V,
    control: Control,
    yielded: seq<NodeIndex>,
    timers: seq<(NodeIndex, Instant)>,
    spawns: seq<Deferred<V>>)

  type CycleFn<!V> = (V, View<V>) -> Outcome<V>

  /** One `add_relationship` call: the parent's handle and the declared relation. */
  datatype Relation = Relation(parent: NodeIndex, depth: nat, rel: Relationship)

  /** A configured `NodeBuilder` with the cycle function it is built with.
      `captures` are the nodes whose strong handles the cycle function owns,
      `owned` tells `spawn` (the closure keeps its own node alive) from `build`,
      `bootstrap` is an `on_init` that yields the new node once. */
  datatype Blueprint<!V> = Blueprint(
    cycleFn: CycleFn<V>,
    data: V,
    relations: seq<Relation>,
    captures: set<NodeIndex>,
    owned: bool,
    bootstrap: bool)

  /** A deferred `spawn_subgraph`: what it builds, and the nodes whose strong handles the queued
      closure owns, to hand them on to the new node or only to name its parents. */
  datatype Deferred<!V> = Deferred(blueprint: Blueprint<V>, handles: set<NodeIndex>)

  /** The graph's weight of a node. `inputs` are the declared parents the cycle
      function reads, `captures` all nodes its closure holds strong handles of. */
  datatype NodeContext<!V> = NodeContext(
    cycleFn: CycleFn<V>,
    inputs: set<NodeIndex>,
    captures: set<NodeIndex>,
    depth: nat,
    schedEpoch: nat,
    poisoned: bool)

  /** The reference-counted cell behind a handle: `external` counts strong
      handles outside the graph, `heldBy` the closures that own one. */
  datatype NodeInner<V> = NodeInner(data: V, mutEpoch: nat, external: nat, heldBy: set<NodeIndex>)

  datatype Edge = Edge(target: NodeIndex, rel: Relationship)

  /** The graph as a value: contexts, and outgoing edges, newest first. */
  datatype Net<!V> = Net(nodes: map<NodeIndex, NodeContext<V>>, adj: map<NodeIndex, seq<Edge>>)
}
