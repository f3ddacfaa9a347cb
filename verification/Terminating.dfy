/** When a cycle terminates the run. */
module Terminating {
  import opened Types
  import opened Semantics
  import opened Stepping
  import opened Machines
  import opened Execution

  /** Whatever has run by iteration `k` has done what it does in the cycle's solution. */
  lemma PrefixOfSolution<V>(h: seq<Machine<V>>, k: nat, epoch: nat, now: Instant, whole: map<NodeIndex, Ran<V>>, n: NodeIndex)
    requires Draining(h, epoch, now) && FreshlyPolled(h[0], epoch) && k < |h|
    requires Solves(StartOf(h[0], epoch, now), whole) && n in RanIn(h, k, epoch, now)
    ensures n in whole && RanIn(h, k, epoch, now)[n] == whole[n]
  {
    var start, ran, m := StartOf(h[0], epoch, now), RanIn(h, k, epoch, now), h[k];
    InStepAt(h, k, epoch, now);
    AllSane(h, k, epoch, now);
    forall c | c in QueuedNodes(m.arrivals) && c in start.net.nodes
      ensures m.floor <= start.net.nodes[c].depth
    {
      var e :| e in m.arrivals && e.node == c;
    }
    PartialAgrees(start, ran, QueuedNodes(m.arrivals), m.floor, whole, n);
  }

  /** Every node that has run was popped in some iteration. */
  lemma {:induction false} WasPopped<V>(h: seq<Machine<V>>, k: nat, epoch: nat, now: Instant, n: NodeIndex) returns (j: nat)
    requires Draining(h, epoch, now) && k < |h| && n in RanIn(h, k, epoch, now)
    ensures j < k && Runnable(h[j]) && Popped(h[j]).node == n && RanIn(h, k, epoch, now)[n] == RanNow(h[j], epoch, now)
  {
    RanInMore(h, k, epoch, now, n);
    if Popped(h[k - 1]).node == n {
      j := k - 1;
    } else {
      j := WasPopped(h, k - 1, epoch, now, n);
    }
  }

  /** A cycle ends the run exactly if the solution of its equations, which always exists, holds a
      terminating node: which of several is reached first, and in what order the others run, makes
      no difference. */
  lemma TerminatesIffAsked<V>(m: Machine<V>, epoch: nat, rec: Record<V>) returns (whole: map<NodeIndex, Ran<V>>)
    requires Sane(m) && FreshlyPolled(m, epoch)
    requires Drained(m, epoch, rec) || Aborted(m, epoch, rec)
    ensures Solves(StartOf(m, epoch, rec.now), whole)
    ensures Aborted(m, epoch, rec) <==> exists n :: n in whole && ControlOf(whole[n]) == Terminate
  {
    var h, last, start := rec.history, |rec.history| - 1, StartOf(m, epoch, rec.now);
    var order := OrderExists(m.net);
    OnePassSolves(start, order);
    whole := OnePass(start, order);
    if Aborted(m, epoch, rec) {
      assert Follows(h, last - 1, epoch, rec.now);
      PrefixOfSolution(h, last, epoch, rec.now, whole, Popped(h[last - 1]).node);
    } else {
      DrainIsOnePass(h, epoch, rec.now, order);
      if n :| n in whole && ControlOf(whole[n]) == Terminate {
        var j := WasPopped(h, last, epoch, rec.now, n);
        assert Terminates(h, j, epoch, rec.now);
        assert false;
      }
    }
  }
}
