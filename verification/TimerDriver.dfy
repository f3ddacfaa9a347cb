/** Timer registration and expiration. */
module Timers {
  import opened Types
  import opened Scheduling
  import opened Graphs

  datatype TimerSource = TimerSource(when: Instant, id: nat)

  /** The order of the timer map: by deadline, then by registration. */
  predicate AtMost(a: TimerSource, b: TimerSource) {
    a.when < b.when || (a.when == b.when && a.id <= b.id)
  }

  lemma {:induction false} LeastExists(keys: set<TimerSource>)
    requires keys != {}
    ensures exists k :: k in keys && forall j :: j in keys ==> AtMost(k, j)
  {
    var x :| x in keys;
    var rest := keys - {x};
    if rest == {} {
      assert keys == {x};
    } else {
      LeastExists(rest);
      var k :| k in rest && forall j :: j in rest ==> AtMost(k, j);
      var least := if AtMost(x, k) then x else k;
      assert forall j :: j in keys ==> j == x || j in rest;
      assert forall j :: j in keys ==> AtMost(least, j);
    }
  }

  ghost function Least(keys: set<TimerSource>): (k: TimerSource)
    requires keys != {}
    ensures k in keys && forall j :: j in keys ==> AtMost(k, j)
  {
    LeastExists(keys);
    var k :| k in keys && forall j :: j in keys ==> AtMost(k, j);
    k
  }

  /** The timers a poll at `now` fires, in the order it fires them. */
  ghost function Firing(keys: set<TimerSource>, now: Instant): seq<TimerSource>
    decreases |keys|
  {
    if keys == {} || Least(keys).when > now then []
    else [Least(keys)] + Firing(keys - {Least(keys)}, now)
  }

  ghost predicate StrictlyOrdered(s: seq<TimerSource>) {
    forall i, j :: 0 <= i < j < |s| ==> s[i].when < s[j].when || (s[i].when == s[j].when && s[i].id < s[j].id)
  }

  /** A poll fires each expired timer once, by deadline and then by registration, and no other. */
  lemma {:induction false} FiringSpec(keys: set<TimerSource>, now: Instant)
    ensures forall k :: k in Firing(keys, now) <==> k in keys && k.when <= now
    ensures StrictlyOrdered(Firing(keys, now))
    decreases |keys|
  {
    if keys != {} && Least(keys).when <= now {
      var k, rest := Least(keys), keys - {Least(keys)};
      FiringSpec(rest, now);
      var f := Firing(rest, now);
      assert Firing(keys, now) == [k] + f;
      forall i | 0 <= i < |f|
        ensures k.when < f[i].when || (k.when == f[i].when && k.id < f[i].id)
      {
        assert f[i] in f;
      }
    }
  }

  function NodesOf(timers: map<TimerSource, NodeIndex>, s: seq<TimerSource>): (ns: seq<NodeIndex>)
    requires forall k :: k in s ==> k in timers
    ensures |ns| == |s| && forall i :: 0 <= i < |s| ==> ns[i] == timers[s[i]]
  {
    seq(|s|, i requires 0 <= i < |s| => timers[s[i]])
  }

  ghost function FiringNodes(timers: map<TimerSource, NodeIndex>, now: Instant): seq<NodeIndex> {
    FiringSpec(timers.Keys, now);
    NodesOf(timers, Firing(timers.Keys, now))
  }

  function Unexpired(timers: map<TimerSource, NodeIndex>, now: Instant): map<TimerSource, NodeIndex> {
    map k | k in timers && k.when > now :: timers[k]
  }

  class TimerDriver {
    var timers: map<TimerSource, NodeIndex>
    var sequence: nat

    ghost predicate Valid()
      reads this
    {
      forall k :: k in timers ==> k.id < sequence
    }

    ghost function State(): TimerState
      reads this
    {
      TimerState(timers, sequence)
    }

    constructor ()
      ensures Valid() && State() == TimerState(map[], 0)
    {
      timers, sequence := map[], 0;
    }

    predicate Contains(source: TimerSource)
      reads this
    {
      source in timers
    }

    method FirstEntry() returns (k: Option<TimerSource>)
      ensures k == if timers == map[] then None else Some(Least(timers.Keys))
    {
      if timers == map[] {
        return None;
      }
      LeastExists(timers.Keys);
      var first :| first in timers.Keys && forall j :: j in timers.Keys ==> AtMost(first, j);
      assert timers.Keys != {};
      return Some(first);
    }

    method NextTimer() returns (deadline: Option<Instant>)
      ensures deadline.None? <==> timers == map[]
      ensures deadline.Some? ==> exists k :: k in timers && k.when == deadline.value
      ensures deadline.Some? ==> forall k :: k in timers ==> deadline.value <= k.when
    {
      var k := FirstEntry();
      if k.None? {
        return None;
      }
      return Some(k.value.when);
    }

    method RegisterTimer(n: NodeIndex, when: Instant) returns (source: TimerSource)
      requires Valid()
      modifies this
      ensures Valid() && State() == Apply(old(State()), Register(n, when))
      ensures source == TimerSource(when, old(sequence)) && source !in old(timers)
    {
      source := TimerSource(when, sequence);
      sequence := sequence + 1;
      timers := timers[source := n];
    }

    /** The registrations one cycle function makes, in order. */
    method RegisterTimers(list: seq<(NodeIndex, Instant)>)
      requires Valid()
      modifies this
      ensures Valid() && State() == RegisterAll(old(State()), list)
    {
      for i := 0 to |list|
        invariant Valid() && State() == RegisterAll(old(State()), list[..i])
      {
        var source := RegisterTimer(list[i].0, list[i].1);
        assert list[..i + 1][..i] == list[..i];
      }
      assert list[..|list|] == list;
    }

    method DeregisterTimer(source: TimerSource)
      requires Valid()
      modifies this`timers
      ensures Valid() && State() == Apply(old(State()), Deregister(source))
    {
      timers := timers - {source};
    }

    /** One turn of the poll's loop: the first timer fires, unless it lies ahead. */
    method FireFirst<V>(
      graph: Graph<V>, scheduler: Scheduler, now: Instant, epoch: nat,
      ghost all: map<TimerSource, NodeIndex>, ghost nodes: map<NodeIndex, NodeContext<V>>, ghost arrivals: seq<Entry>, ghost fired: seq<TimerSource>)
      returns (done: bool, ghost fired': seq<TimerSource>)
      requires Valid() && scheduler.Valid() && Admissible(nodes, scheduler.currDepth, |scheduler.multiQueue|)
      requires Polled(all, fired, timers, now)
      requires Admitted(nodes, arrivals, NodesOf(all, fired), epoch, graph.nodes, scheduler.arrivals)
      modifies this`timers, graph`nodes, scheduler`multiQueue, scheduler`pendingEvents, scheduler`arrivals
      ensures Valid() && scheduler.Valid() && |scheduler.multiQueue| == |old(scheduler.multiQueue)|
      ensures Polled(all, fired', timers, now)
      ensures Admitted(nodes, arrivals, NodesOf(all, fired'), epoch, graph.nodes, scheduler.arrivals)
      ensures done ==> timers == Unexpired(all, now) && NodesOf(all, fired') == FiringNodes(all, now)
      ensures !done ==> |timers| < |old(timers)|
    {
      fired' := fired;
      var entry := FirstEntry();
      if entry.None? || entry.value.when > now {
        PolledAll(all, fired, timers, now);
        return true, fired;
      }
      var k := entry.value;
      PolledOne(all, fired, timers, now);
      var n := timers[k];
      timers := timers - {k};
      ScheduleReady(graph, scheduler, n, epoch, nodes, arrivals, NodesOf(all, fired));
      return false, fired + [k];
    }

    method Poll<V>(graph: Graph<V>, scheduler: Scheduler, now: Instant, epoch: nat)
      requires Valid() && scheduler.Valid()
      requires Admissible(graph.nodes, scheduler.currDepth, |scheduler.multiQueue|)
      modifies this`timers, graph`nodes, scheduler`multiQueue, scheduler`pendingEvents, scheduler`arrivals
      ensures Valid() && scheduler.Valid() && |scheduler.multiQueue| == |old(scheduler.multiQueue)|
      ensures State() == Apply(old(State()), PollAt(now))
      ensures Admitted(old(graph.nodes), old(scheduler.arrivals), FiringNodes(old(timers), now), epoch,
                       graph.nodes, scheduler.arrivals)
    {
      ghost var all, nodes, arrivals := timers, graph.nodes, scheduler.arrivals;
      ghost var fired: seq<TimerSource> := [];
      AdmittedNone(nodes, arrivals, epoch);
      var done := false;
      while !done
        invariant Valid() && scheduler.Valid() && |scheduler.multiQueue| == |old(scheduler.multiQueue)|
        invariant Polled(all, fired, timers, now)
        invariant Admitted(nodes, arrivals, NodesOf(all, fired), epoch, graph.nodes, scheduler.arrivals)
        invariant done ==> timers == Unexpired(all, now) && NodesOf(all, fired) == FiringNodes(all, now)
        decreases !done, |timers|
      {
        done, fired := FireFirst(graph, scheduler, now, epoch, all, nodes, arrivals, fired);
      }
    }
  }

  /** A poll under way: `fired` has been removed, `left` remains. */
  ghost predicate Polled(all: map<TimerSource, NodeIndex>, fired: seq<TimerSource>, left: map<TimerSource, NodeIndex>, now: Instant) {
    && Firing(all.Keys, now) == fired + Firing(left.Keys, now)
    && (forall k :: k in fired ==> k in all && k !in left && k.when <= now)
    && (forall k :: k in left ==> k in all && left[k] == all[k])
    && (forall k :: k in all ==> k in fired || k in left)
  }

  lemma PolledOne(all: map<TimerSource, NodeIndex>, fired: seq<TimerSource>, left: map<TimerSource, NodeIndex>, now: Instant)
    requires Polled(all, fired, left, now)
    requires left != map[] && Least(left.Keys).when <= now
    ensures var k := Least(left.Keys);
      Polled(all, fired + [k], left - {k}, now) && NodesOf(all, fired + [k]) == NodesOf(all, fired) + [left[k]]
  {
  }

  lemma PolledAll(all: map<TimerSource, NodeIndex>, fired: seq<TimerSource>, left: map<TimerSource, NodeIndex>, now: Instant)
    requires Polled(all, fired, left, now)
    requires left == map[] || Least(left.Keys).when > now
    ensures left == Unexpired(all, now) && NodesOf(all, fired) == FiringNodes(all, now)
  {
  }

  // ----- the life of a timer over a whole run

  datatype TimerOp = Register(node: NodeIndex, when: Instant) | Deregister(source: TimerSource) | PollAt(now: Instant)

  datatype TimerState = TimerState(timers: map<TimerSource, NodeIndex>, sequence: nat)

  /** The driver's methods as one transition function. */
  function Apply(s: TimerState, op: TimerOp): TimerState {
    match op
    case Register(n, w) => TimerState(s.timers[TimerSource(w, s.sequence) := n], s.sequence + 1)
    case Deregister(source) => s.(timers := s.timers - {source})
    case PollAt(now) => s.(timers := Unexpired(s.timers, now))
  }

  function RegisterAll(s: TimerState, list: seq<(NodeIndex, Instant)>): TimerState {
    if list == [] then s
    else
      var last := list[|list| - 1];
      Apply(RegisterAll(s, list[..|list| - 1]), Register(last.0, last.1))
  }

  function After(ops: seq<TimerOp>, k: nat): TimerState
    requires k <= |ops|
  {
    if k == 0 then TimerState(map[], 0) else Apply(After(ops, k - 1), ops[k - 1])
  }

  /** The handle returned by the registration at step `i`. */
  function Handle(ops: seq<TimerOp>, i: nat): TimerSource
    requires i < |ops| && ops[i].Register?
  {
    TimerSource(ops[i].when, After(ops, i).sequence)
  }

  predicate Consumes(op: TimerOp, source: TimerSource) {
    match op
    case Register(_, _) => false
    case Deregister(s) => s == source
    case PollAt(now) => now >= source.when
  }

  lemma {:induction false} IdsAreFresh(ops: seq<TimerOp>, k: nat)
    requires k <= |ops|
    ensures forall s :: s in After(ops, k).timers ==> s.id < After(ops, k).sequence
  {
    if k > 0 { IdsAreFresh(ops, k - 1); }
  }

  lemma {:induction false} SequenceGrows(ops: seq<TimerOp>, i: nat, k: nat)
    requires i <= k <= |ops|
    ensures After(ops, i).sequence <= After(ops, k).sequence
  {
    if i < k { SequenceGrows(ops, i, k - 1); }
  }

  /** A timer is held exactly until the first cancellation of it or poll at or after its deadline. */
  lemma {:induction false} HeldUntilConsumed(ops: seq<TimerOp>, i: nat, k: nat)
    requires i < k <= |ops| && ops[i].Register?
    ensures Handle(ops, i) in After(ops, k).timers <==> forall j :: i < j < k ==> !Consumes(ops[j], Handle(ops, i))
    ensures Handle(ops, i) in After(ops, k).timers ==> After(ops, k).timers[Handle(ops, i)] == ops[i].node
  {
    if i + 1 < k {
      HeldUntilConsumed(ops, i, k - 1);
      SequenceGrows(ops, i + 1, k - 1);
    }
  }

  /** It fires at the first poll at or after its deadline unless cancelled before, and at no other step. */
  lemma FiresOnce(ops: seq<TimerOp>, i: nat, k: nat)
    requires i < k < |ops| && ops[i].Register? && ops[k].PollAt?
    ensures Handle(ops, i) in Firing(After(ops, k).timers.Keys, ops[k].now) <==>
      Consumes(ops[k], Handle(ops, i)) && forall j :: i < j < k ==> !Consumes(ops[j], Handle(ops, i))
  {
    HeldUntilConsumed(ops, i, k);
    FiringSpec(After(ops, k).timers.Keys, ops[k].now);
  }

  /** Before its registration a timer's handle names nothing. */
  lemma NotHeldBefore(ops: seq<TimerOp>, i: nat, k: nat)
    requires k <= i < |ops| && ops[i].Register?
    ensures Handle(ops, i) !in After(ops, k).timers
  {
    IdsAreFresh(ops, k);
    SequenceGrows(ops, k, i);
  }
}
