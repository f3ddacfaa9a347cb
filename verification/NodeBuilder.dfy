/** Inserting nodes: declared relations, depth, and the shape every sequence of
    insertions and removals keeps. */
module Building {
  import opened Types
  import opened Semantics
  import opened Graphs

  type ParentKey = (NodeIndex, nat)

  /** A repeated relation to a parent can only strengthen it to `Trigger`. */
  function AddRelationship(parents: map<ParentKey, Relationship>, r: Relation): map<ParentKey, Relationship> {
    var key := (r.parent, r.depth);
    if key in parents then
      if r.rel == Trigger then parents[key := r.rel] else parents
    else parents[key := r.rel]
  }

  function AddManyRelationships(relations: seq<Relation>): map<ParentKey, Relationship> {
    if relations == [] then map[]
    else AddRelationship(AddManyRelationships(relations[..|relations| - 1]), relations[|relations| - 1])
  }

  function KeyOf(r: Relation): ParentKey { (r.parent, r.depth) }

  ghost predicate Declared(relations: seq<Relation>, k: ParentKey) {
    exists r :: r in relations && KeyOf(r) == k
  }

  ghost predicate DeclaredTrigger(relations: seq<Relation>, k: ParentKey) {
    exists r :: r in relations && KeyOf(r) == k && r.rel == Trigger
  }

  /** Each declared parent appears once, as `Trigger` iff some declared relation was `Trigger`. */
  lemma {:induction false} RelationshipsMerge(relations: seq<Relation>, k: ParentKey)
    ensures k in AddManyRelationships(relations) <==> Declared(relations, k)
    ensures k in AddManyRelationships(relations) ==>
      (AddManyRelationships(relations)[k] == Trigger <==> DeclaredTrigger(relations, k))
  {
    if relations != [] {
      var pre, last := relations[..|relations| - 1], relations[|relations| - 1];
      RelationshipsMerge(pre, k);
      assert forall r :: r in relations <==> r in pre || r == last;
      assert Declared(relations, k) <==> Declared(pre, k) || KeyOf(last) == k;
      assert DeclaredTrigger(relations, k) <==> DeclaredTrigger(pre, k) || (KeyOf(last) == k && last.rel == Trigger);
    }
  }

  ghost predicate IsDepth(parents: set<ParentKey>, depth: nat) {
    && (forall k :: k in parents ==> k.1 < depth)
    && (depth > 0 ==> exists k :: k in parents && k.1 + 1 == depth)
  }

  method ComputeDepth(parents: set<ParentKey>) returns (depth: nat)
    ensures IsDepth(parents, depth)
  {
    depth := 0;
    var todo := parents;
    while todo != {}
      invariant todo <= parents
      invariant IsDepth(parents - todo, depth)
    {
      var k :| k in todo;
      ghost var done := parents - todo;
      todo := todo - {k};
      assert parents - todo == done + {k};
      if depth < k.1 + 1 {
        depth := k.1 + 1;
        assert k in parents - todo;
      }
    }
    assert parents - todo == parents;
  }

  /** The handles used in the declarations belong to live nodes. */
  ghost predicate RelationsLive<V>(net: Net<V>, relations: seq<Relation>) {
    forall r :: r in relations ==> r.parent in net.nodes && net.nodes[r.parent].depth == r.depth
  }

  predicate IsParent<V>(net: Net<V>, parents: map<ParentKey, Relationship>, p: NodeIndex) {
    p in net.nodes && (p, net.nodes[p].depth) in parents
  }

  /** The graph with node `n` inserted below `parents`. */
  ghost function Linked<V>(net: Net<V>, n: NodeIndex, ctx: NodeContext<V>, parents: map<ParentKey, Relationship>): Net<V> {
    Net(net.nodes[n := ctx],
        (map p | p in net.adj ::
           if IsParent(net, parents, p) then [Edge(n, parents[(p, net.nodes[p].depth)])] + net.adj[p] else net.adj[p])[n := []])
  }

  function Links(edges: seq<Edge>, c: NodeIndex): nat {
    if edges == [] then 0 else (if edges[0].target == c then 1 else 0) + Links(edges[1..], c)
  }

  lemma {:induction false} NoLinks(edges: seq<Edge>, c: NodeIndex)
    requires forall e :: e in edges ==> e.target != c
    ensures Links(edges, c) == 0
  {
    if edges != [] { NoLinks(edges[1..], c); }
  }

  /** Inserting adds one edge per declared parent, of the merged relation, and no other. */
  lemma LinkedEdges<V>(net: Net<V>, n: NodeIndex, ctx: NodeContext<V>, parents: map<ParentKey, Relationship>, p: NodeIndex, c: NodeIndex)
    requires Wellformed(net) && n !in net.nodes
    ensures
      var net' := Linked(net, n, ctx, parents);
      && (HasEdge(net', p, c) <==> HasEdge(net, p, c) || (c == n && IsParent(net, parents, p)))
      && (TriggerEdge(net', p, c) <==>
            (TriggerEdge(net, p, c) || (c == n && IsParent(net, parents, p) && parents[(p, net.nodes[p].depth)] == Trigger)))
      && (p in net'.adj ==> Links(net'.adj[p], n) == if IsParent(net, parents, p) then 1 else 0)
  {
    var net' := Linked(net, n, ctx, parents);
    if p in net.adj && p != n {
      if HasEdge(net, p, c) {
        var e :| e in net.adj[p] && e.target == c;
        assert e in net'.adj[p];
      }
      if IsParent(net, parents, p) {
        assert net'.adj[p] == [Edge(n, parents[(p, net.nodes[p].depth)])] + net.adj[p];
        assert net'.adj[p][0] in net'.adj[p];
      }
      assert forall e :: e in net.adj[p] ==> HasEdge(net, p, e.target);
      NoLinks(net.adj[p], n);
    }
  }

  // ----- depth

  /** Every node is one level below its deepest parent; roots are at level 0. */
  ghost predicate Exact<V>(net: Net<V>) {
    forall n :: n in net.nodes && net.nodes[n].depth > 0 ==> HasDeepest(net, n)
  }

  ghost predicate HasDeepest<V>(net: Net<V>, n: NodeIndex)
    requires n in net.nodes
  {
    exists p :: p in net.nodes && HasEdge(net, p, n) && net.nodes[p].depth + 1 == net.nodes[n].depth
  }

  /** A new node's context fits below its parents. */
  ghost predicate Fits<V>(net: Net<V>, n: NodeIndex, ctx: NodeContext<V>, parents: map<ParentKey, Relationship>) {
    && n !in net.nodes
    && IsDepth(parents.Keys, ctx.depth)
    && (forall k :: k in parents ==> k.0 in net.nodes && net.nodes[k.0].depth == k.1)
    && (forall p :: p in ctx.inputs ==> IsParent(net, parents, p))
    && (forall m :: m in net.nodes ==> n !in net.nodes[m].inputs)
  }

  lemma LinkedWellformed<V>(net: Net<V>, n: NodeIndex, ctx: NodeContext<V>, parents: map<ParentKey, Relationship>)
    requires Wellformed(net) && Fits(net, n, ctx, parents)
    ensures Wellformed(Linked(net, n, ctx, parents))
  {
    var net' := Linked(net, n, ctx, parents);
    forall p, c | HasEdge(net', p, c)
      ensures c in net'.nodes && net'.nodes[p].depth < net'.nodes[c].depth
    {
      LinkedEdges(net, n, ctx, parents, p, c);
      assert IsParent(net, parents, p) ==> (p, net.nodes[p].depth) in parents.Keys;
    }
    forall c, p | c in net'.nodes && p in net'.nodes[c].inputs && p in net'.nodes
      ensures HasEdge(net', p, c)
    {
      LinkedEdges(net, n, ctx, parents, p, c);
    }
  }

  lemma LinkedExact<V>(net: Net<V>, n: NodeIndex, ctx: NodeContext<V>, parents: map<ParentKey, Relationship>)
    requires Wellformed(net) && Fits(net, n, ctx, parents) && Exact(net)
    ensures Exact(Linked(net, n, ctx, parents))
  {
    var net' := Linked(net, n, ctx, parents);
    forall m | m in net'.nodes && net'.nodes[m].depth > 0
      ensures HasDeepest(net', m)
    {
      DeepestKept(net, n, ctx, parents, m);
    }
  }

  lemma DeepestKept<V>(net: Net<V>, n: NodeIndex, ctx: NodeContext<V>, parents: map<ParentKey, Relationship>, m: NodeIndex)
    requires Wellformed(net) && Fits(net, n, ctx, parents)
    requires m in Linked(net, n, ctx, parents).nodes && Linked(net, n, ctx, parents).nodes[m].depth > 0
    requires m != n ==> HasDeepest(net, m)
    ensures HasDeepest(Linked(net, n, ctx, parents), m)
  {
    var net' := Linked(net, n, ctx, parents);
    if m == n {
      var k :| k in parents.Keys && k.1 + 1 == ctx.depth;
      LinkedEdges(net, n, ctx, parents, k.0, n);
      assert HasEdge(net', k.0, n);
    } else {
      var p :| p in net.nodes && HasEdge(net, p, m) && net.nodes[p].depth + 1 == net.nodes[m].depth;
      LinkedEdges(net, n, ctx, parents, p, m);
      assert HasEdge(net', p, m);
    }
  }

  /** At any time depth bounds the length of every path into a node; so there is no cycle. */
  lemma {:induction false} DepthBoundsPaths<V>(net: Net<V>, path: seq<NodeIndex>)
    requires Wellformed(net) && Path(net, path)
    ensures |path| - 1 <= net.nodes[path[|path| - 1]].depth
  {
    var k := |path| - 1;
    if k > 0 {
      DepthBoundsPaths(net, path[..k]);
      assert HasEdge(net, path[k - 1], path[k]);
    }
  }

  /** While nothing has been removed, depth is the length of a longest path from a root. */
  lemma {:induction false} DepthIsLongestPath<V>(net: Net<V>, n: NodeIndex) returns (path: seq<NodeIndex>)
    requires Wellformed(net) && Exact(net) && n in net.nodes
    ensures Path(net, path) && path[|path| - 1] == n && |path| - 1 == net.nodes[n].depth
    decreases net.nodes[n].depth
  {
    if net.nodes[n].depth == 0 {
      path := [n];
    } else {
      var p :| p in net.nodes && HasEdge(net, p, n) && net.nodes[p].depth + 1 == net.nodes[n].depth;
      var above := DepthIsLongestPath(net, p);
      PathMore(net, above, p, n);
      path := above + [n];
    }
  }

  lemma PathMore<V>(net: Net<V>, path: seq<NodeIndex>, p: NodeIndex, n: NodeIndex)
    requires Path(net, path) && path[|path| - 1] == p && n in net.nodes && HasEdge(net, p, n)
    ensures Path(net, path + [n])
  {
  }

  // ----- insertion

  ghost predicate Inserted<V>(net: Net<V>, bp: Blueprint<V>, n: NodeIndex, ctx: NodeContext<V>, net': Net<V>) {
    var parents := AddManyRelationships(bp.relations);
    && net' == Linked(net, n, ctx, parents)
    && IsDepth(parents.Keys, ctx.depth)
    && ctx == NodeContext(bp.cycleFn, set p | p in bp.captures && IsParent(net, parents, p),
                          if bp.owned then bp.captures + {n} else bp.captures, ctx.depth, 0, false)
  }

  /** The new node's context: it reads the declared parents that its closure captured, triggering or
      only observed, and owns the captured handles, with one of its own if it is spawned. */
  ghost predicate AsDeclared<V>(bp: Blueprint<V>, n: NodeIndex, ctx: NodeContext<V>) {
    && ctx.cycleFn == bp.cycleFn && !ctx.poisoned
    && (forall p :: p in ctx.inputs <==> p in bp.captures && exists r :: r in bp.relations && r.parent == p)
    && (forall c :: c in ctx.captures <==> c in bp.captures || (c == n && bp.owned))
  }

  lemma InsertedAsDeclared<V>(net: Net<V>, bp: Blueprint<V>, n: NodeIndex, ctx: NodeContext<V>, net': Net<V>)
    requires Inserted(net, bp, n, ctx, net') && RelationsLive(net, bp.relations)
    ensures AsDeclared(bp, n, ctx)
  {
    var parents := AddManyRelationships(bp.relations);
    forall p
      ensures IsParent(net, parents, p) <==> exists r :: r in bp.relations && r.parent == p
    {
      DeclaredParent(net, bp.relations, p);
    }
  }

  lemma DeclaredParent<V>(net: Net<V>, relations: seq<Relation>, p: NodeIndex)
    requires RelationsLive(net, relations)
    ensures IsParent(net, AddManyRelationships(relations), p) <==> exists r :: r in relations && r.parent == p
  {
    if p in net.nodes {
      RelationshipsMerge(relations, (p, net.nodes[p].depth));
    }
    if r :| r in relations && r.parent == p {
      assert KeyOf(r) == (p, net.nodes[p].depth);
    }
  }

  /** Adds the edges in whatever order the parents map yields them. */
  method AddEdges<V>(graph: Graph<V>, n: NodeIndex, parents: map<ParentKey, Relationship>, ghost net: Net<V>, ghost ctx: NodeContext<V>)
    requires n !in net.nodes && net.adj.Keys == net.nodes.Keys
    requires forall k :: k in parents ==> k.0 in net.nodes && net.nodes[k.0].depth == k.1
    requires graph.nodes == net.nodes[n := ctx] && graph.adj == net.adj[n := []]
    modifies graph`adj
    ensures graph.Model() == Linked(net, n, ctx, parents)
  {
    var todo := parents.Keys;
    AdjEnds(net, n, ctx, parents);
    while todo != {}
      invariant todo <= parents.Keys
      invariant graph.adj == AdjSoFar(net, n, parents, todo)
    {
      var k :| k in todo;
      AdjStep(net, n, parents, todo, k);
      todo := todo - {k};
      graph.AddEdge(k.0, n, parents[k]);
    }
  }

  ghost function AdjSoFar<V>(net: Net<V>, n: NodeIndex, parents: map<ParentKey, Relationship>, todo: set<ParentKey>): map<NodeIndex, seq<Edge>> {
    (map p | p in net.adj ::
       if IsParent(net, parents, p) && (p, net.nodes[p].depth) !in todo
       then [Edge(n, parents[(p, net.nodes[p].depth)])] + net.adj[p] else net.adj[p])[n := []]
  }

  lemma AdjEnds<V>(net: Net<V>, n: NodeIndex, ctx: NodeContext<V>, parents: map<ParentKey, Relationship>)
    ensures AdjSoFar(net, n, parents, parents.Keys) == net.adj[n := []]
    ensures AdjSoFar(net, n, parents, {}) == Linked(net, n, ctx, parents).adj
  {
  }

  lemma AdjStep<V>(net: Net<V>, n: NodeIndex, parents: map<ParentKey, Relationship>, todo: set<ParentKey>, k: ParentKey)
    requires n !in net.nodes && net.adj.Keys == net.nodes.Keys && todo <= parents.Keys && k in todo
    requires forall k :: k in parents ==> k.0 in net.nodes && net.nodes[k.0].depth == k.1
    ensures k.0 in net.adj
    ensures AdjSoFar(net, n, parents, todo - {k})
         == AdjSoFar(net, n, parents, todo)[k.0 := [Edge(n, parents[k])] + AdjSoFar(net, n, parents, todo)[k.0]]
  {
  }

  method Insert<V>(graph: Graph<V>, bp: Blueprint<V>) returns (n: NodeIndex, depth: nat)
    requires graph.Valid() && RelationsLive(graph.Model(), bp.relations)
    requires forall m, c :: m in graph.nodes && c in graph.nodes[m].inputs ==> c < graph.nextIndex
    modifies graph
    ensures graph.Valid()
    ensures n == old(graph.nextIndex) && graph.nextIndex == n + 1
    ensures n in graph.nodes && depth == graph.nodes[n].depth
    ensures Inserted(old(graph.Model()), bp, n, graph.nodes[n], graph.Model()) && AsDeclared(bp, n, graph.nodes[n])
    ensures Exact(old(graph.Model())) ==> Exact(graph.Model())
  {
    ghost var net := graph.Model();
    var parents := AddManyRelationships(bp.relations);
    forall k { RelationshipsMerge(bp.relations, k); }
    depth := ComputeDepth(parents.Keys);
    var inputs := set p | p in bp.captures && IsParent(graph.Model(), parents, p);
    var captures := if bp.owned then bp.captures + {graph.nextIndex} else bp.captures;
    var ctx := NodeContext(bp.cycleFn, inputs, captures, depth, 0, false);
    n := graph.AddNode(ctx);
    assert Fits(net, n, ctx, parents);
    AddEdges(graph, n, parents, net, ctx);
    LinkedWellformed(net, n, ctx, parents);
    if Exact(net) { LinkedExact(net, n, ctx, parents); }
    InsertedAsDeclared(net, bp, n, ctx, graph.Model());
  }
}
