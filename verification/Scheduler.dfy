/** The depth-bucketed multi-queue and the stable priority queue it refines. */
module Scheduling {
  import opened Types

  datatype Entry = Entry(depth: nat, node: NodeIndex)

  /** Reference: entries in order of arrival, and the depth of the last one taken. */
  datatype StableQueue = StableQueue(arrivals: seq<Entry>, floor: nat)

  /** The oldest of the entries of least depth. */
  function First(a: seq<Entry>): (k: nat)
    requires a != []
    ensures k < |a|
    ensures forall j :: 0 <= j < |a| ==> a[k].depth <= a[j].depth
    ensures forall j :: 0 <= j < k ==> a[k].depth < a[j].depth
  {
    var last := |a| - 1;
    if last == 0 then 0
    else
      var k := First(a[..last]);
      assert forall j :: 0 <= j < last ==> a[..last][j] == a[j];
      if a[last].depth < a[k].depth then last else k
  }

  function Without<T>(a: seq<T>, k: nat): seq<T>
    requires k < |a|
  {
    a[..k] + a[k + 1..]
  }

  function Push(q: StableQueue, depth: nat, node: NodeIndex): StableQueue {
    if depth < q.floor then q else q.(arrivals := q.arrivals + [Entry(depth, node)])
  }

  function Take(q: StableQueue): (StableQueue, Option<Entry>) {
    if q.arrivals == [] then (StableQueue([], 0), None)
    else
      var k := First(q.arrivals);
      (StableQueue(Without(q.arrivals, k), q.arrivals[k].depth), Some(q.arrivals[k]))
  }

  /** The bucket of a depth: its nodes, oldest first. */
  function AtDepth(a: seq<Entry>, depth: nat): seq<NodeIndex> {
    if a == [] then []
    else
      var last := |a| - 1;
      AtDepth(a[..last], depth) + if a[last].depth == depth then [a[last].node] else []
  }

  lemma {:induction false} AtDepthAppend(a: seq<Entry>, b: seq<Entry>, depth: nat)
    ensures AtDepth(a + b, depth) == AtDepth(a, depth) + AtDepth(b, depth)
  {
    if b == [] {
      assert a + b == a;
    } else {
      var last := |b| - 1;
      AtDepthAppend(a, b[..last], depth);
      assert (a + b)[..|a + b| - 1] == a + b[..last];
    }
  }

  lemma {:induction false} AtDepthEmpty(a: seq<Entry>, depth: nat)
    ensures AtDepth(a, depth) == [] <==> forall e :: e in a ==> e.depth != depth
  {
    if a != [] {
      var last := |a| - 1;
      AtDepthEmpty(a[..last], depth);
      assert forall e :: e in a <==> e in a[..last] || e == a[last];
    }
  }

  lemma AtDepthRemove(a: seq<Entry>, e: Entry, b: seq<Entry>, depth: nat)
    requires AtDepth(a, e.depth) == []
    ensures AtDepth(a + [e] + b, depth) == (if e.depth == depth then [e.node] else []) + AtDepth(a + b, depth)
  {
    AtDepthAppend(a + [e], b, depth);
    AtDepthAppend(a, [e], depth);
    AtDepthAppend(a, b, depth);
    assert AtDepth([e], depth) == AtDepth([], depth) + if e.depth == depth then [e.node] else [];
  }

  /** Taking the first entry removes the head of its bucket and nothing else. */
  lemma TakeFromBucket(a: seq<Entry>, depth: nat)
    requires a != []
    ensures
      var k := First(a);
      AtDepth(a, depth) == (if a[k].depth == depth then [a[k].node] else []) + AtDepth(Without(a, k), depth)
  {
    var k := First(a);
    AtDepthEmpty(a[..k], a[k].depth);
    AtDepthRemove(a[..k], a[k], a[k + 1..], depth);
    assert a == a[..k] + [a[k]] + a[k + 1..];
  }

  lemma TakeFromBuckets(a: seq<Entry>, buckets: seq<seq<NodeIndex>>)
    requires a != [] && a[First(a)].depth < |buckets|
    requires forall d :: 0 <= d < |buckets| ==> buckets[d] == AtDepth(a, d)
    ensures
      var k := First(a);
      var depth := a[k].depth;
      && buckets[depth] != [] && buckets[depth][0] == a[k].node
      && forall d :: 0 <= d < |buckets| ==>
           AtDepth(Without(a, k), d) == if d == depth then buckets[d][1..] else buckets[d]
  {
    forall d | 0 <= d < |buckets| { TakeFromBucket(a, d); }
  }

  ghost predicate DistinctNodes(a: seq<Entry>) {
    forall i, j :: 0 <= i < j < |a| ==> a[i].node != a[j].node
  }

  // ----- whole drains of the reference queue

  datatype Op = DoPush(depth: nat, node: NodeIndex) | DoTake

  ghost predicate FloorHolds(q: StableQueue) {
    forall e :: e in q.arrivals ==> q.floor <= e.depth
  }

  /** The entries taken by a sequence of operations, up to the first take that finds nothing. */
  function Taken(q: StableQueue, ops: seq<Op>): seq<Entry>
    decreases |ops|
  {
    if ops == [] then []
    else match ops[0]
      case DoPush(d, n) => Taken(Push(q, d, n), ops[1..])
      case DoTake =>
        var (q', e) := Take(q);
        if e == None then [] else [e.value] + Taken(q', ops[1..])
  }

  ghost predicate Ascending(floor: nat, t: seq<Entry>) {
    && (forall i :: 0 <= i < |t| ==> floor <= t[i].depth)
    && (forall i, j :: 0 <= i < j < |t| ==> t[i].depth <= t[j].depth)
  }

  /** However pushes are interleaved, a drain never takes a shallower entry after a deeper one. */
  lemma {:induction false} DrainNeverGoesBack(q: StableQueue, ops: seq<Op>)
    requires FloorHolds(q)
    ensures Ascending(q.floor, Taken(q, ops))
    decreases |ops|
  {
    if ops != [] {
      match ops[0]
      case DoPush(d, n) =>
        DrainNeverGoesBack(Push(q, d, n), ops[1..]);
        assert Taken(q, ops) == Taken(Push(q, d, n), ops[1..]);
      case DoTake =>
        var (q', e) := Take(q);
        if e != None {
          assert forall x :: x in q'.arrivals ==> x in q.arrivals;
          assert e.value in q.arrivals;
          DrainNeverGoesBack(q', ops[1..]);
          AscendingCons(q.floor, e.value, Taken(q', ops[1..]));
        }
    }
  }

  lemma AscendingCons(floor: nat, e: Entry, t: seq<Entry>)
    requires floor <= e.depth && Ascending(e.depth, t)
    ensures Ascending(floor, [e] + t)
  {
  }

  class Scheduler {
    var multiQueue: seq<seq<NodeIndex>>
    var currDepth: nat
    var pendingEvents: nat

    ghost var arrivals: seq<Entry>
    ghost var visits: nat  // iterations of the pop loop so far

    ghost predicate Valid()
      reads this
    {
      && (forall d :: 0 <= d < |multiQueue| ==> multiQueue[d] == AtDepth(arrivals, d))
      && (forall e :: e in arrivals ==> currDepth <= e.depth < |multiQueue|)
      && pendingEvents == |arrivals|
    }

    ghost function Model(): StableQueue
      reads this
    {
      StableQueue(arrivals, currDepth)
    }

    constructor ()
      ensures Valid() && Model() == StableQueue([], 0) && multiQueue == []
    {
      multiQueue, currDepth, pendingEvents := [], 0, 0;
      arrivals, visits := [], 0;
    }

    predicate HasPendingEvent()
      reads this
    {
      pendingEvents > 0
    }

    method EnableDepth(depth: nat)
      requires Valid()
      modifies this`multiQueue
      ensures Valid()
      ensures old(multiQueue) <= multiQueue
      ensures |multiQueue| == if |old(multiQueue)| < depth + 1 then depth + 1 else |old(multiQueue)|
    {
      var requiredLen := depth + 1;
      if |multiQueue| < requiredLen {
        Resize(requiredLen);
      }
    }

    method Resize(maxDepth: nat)
      requires Valid() && |multiQueue| <= maxDepth
      modifies this`multiQueue
      ensures Valid()
      ensures |multiQueue| == maxDepth && old(multiQueue) <= multiQueue
    {
      ghost var n := |multiQueue|;
      multiQueue := multiQueue + seq(maxDepth - |multiQueue|, _ => []);
      forall d | n <= d < maxDepth
        ensures AtDepth(arrivals, d) == []
      {
        AtDepthEmpty(arrivals, d);
      }
    }

    method Schedule(node: NodeIndex, depth: nat) returns (ok: bool)
      requires Valid() && depth < |multiQueue|
      modifies this`multiQueue, this`pendingEvents, this`arrivals
      ensures Valid() && |multiQueue| == |old(multiQueue)|
      ensures ok <==> depth >= currDepth
      ensures Model() == Push(old(Model()), depth, node)
    {
      if depth < currDepth {
        return false;
      }
      forall d {:trigger AtDepth(arrivals + [Entry(depth, node)], d)} | 0 <= d < |multiQueue| {
        AtDepthAppend(arrivals, [Entry(depth, node)], d);
      }
      multiQueue := multiQueue[depth := multiQueue[depth] + [node]];
      pendingEvents := pendingEvents + 1;
      arrivals := arrivals + [Entry(depth, node)];
      ok := true;
    }

    /** Removes the head of the bucket at the current depth. */
    method TakeHead() returns (node: NodeIndex)
      requires Valid() && currDepth < |multiQueue| && multiQueue[currDepth] != []
      modifies this`multiQueue, this`pendingEvents, this`arrivals
      ensures Valid() && |multiQueue| == |old(multiQueue)|
      ensures old(arrivals) != [] && Model() == Take(old(Model())).0
      ensures Some(Entry(currDepth, node)) == Take(old(Model())).1
    {
      AtDepthEmpty(arrivals, currDepth);
      ghost var k := First(arrivals);
      ghost var e :| e in arrivals && e.depth == currDepth;
      assert arrivals[k] in arrivals;
      TakeFromBuckets(arrivals, multiQueue);
      node := multiQueue[currDepth][0];
      multiQueue := multiQueue[currDepth := multiQueue[currDepth][1..]];
      pendingEvents := pendingEvents - 1;
      arrivals := Without(arrivals, k);
    }

    method Pop() returns (item: Option<NodeIndex>)
      requires Valid()
      modifies this`multiQueue, this`currDepth, this`pendingEvents, this`arrivals, this`visits
      ensures Valid() && |multiQueue| == |old(multiQueue)|
      ensures Model() == Take(old(Model())).0
      ensures item == match Take(old(Model())).1 case None => None case Some(e) => Some(e.node)
      ensures old(arrivals) == [] ==> visits == old(visits)
      ensures old(arrivals) != [] ==> visits == old(visits) + 1 + currDepth - old(currDepth)
    {
      while currDepth < |multiQueue| && HasPendingEvent()
        invariant Valid() && multiQueue == old(multiQueue) && arrivals == old(arrivals)
        invariant old(currDepth) <= currDepth
        invariant visits == old(visits) + currDepth - old(currDepth)
        invariant arrivals == [] ==> currDepth == old(currDepth)
        decreases |multiQueue| - currDepth
      {
        visits := visits + 1;
        if multiQueue[currDepth] != [] {
          var node := TakeHead();
          return Some(node);
        }
        AtDepthEmpty(arrivals, currDepth);
        currDepth := currDepth + 1;
      }
      currDepth := 0;
      item := None;
    }
  }
}
