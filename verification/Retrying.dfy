/** Failed polls: what was scheduled before the error stays queued and runs in
    the next drain, each node at most once more than the number of failures. */
module Retrying {
  import opened Types
  import opened Scheduling
  import opened Semantics
  import opened Graphs
  import opened Stepping
  import opened Machines
  import opened Execution
  import opened Runs

  ghost function PoppedIn<V>(h: seq<Machine<V>>, k: nat): seq<Entry>
    requires k < |h|
  {
    if k == 0 then [] else PoppedIn(h, k - 1) + if Runnable(h[k - 1]) then [Popped(h[k - 1])] else []
  }

  /** A drain's bookkeeping: popped and still queued entries are those queued at
      the start plus `added`, which holds nodes first scheduled during the drain. */
  ghost predicate Accounts<V>(m0: Machine<V>, popped: seq<Entry>, added: seq<Entry>, m: Machine<V>, epoch: nat) {
    && multiset(popped) + multiset(m.arrivals) == multiset(m0.arrivals) + multiset(added)
    && DistinctNodes(added)
    && m.net.nodes.Keys == m0.net.nodes.Keys
    && (forall e :: e in added ==> e.node in m0.net.nodes && m0.net.nodes[e.node].schedEpoch != epoch)
    && (forall e :: e in added ==> m.net.nodes[e.node].schedEpoch == epoch)
    && (forall n :: n in m.net.nodes && m0.net.nodes[n].schedEpoch == epoch ==> m.net.nodes[n].schedEpoch == epoch)
  }

  ghost function Admissions<V>(m: Machine<V>, epoch: nat, now: Instant): seq<Entry>
    requires Runnable(m)
  {
    Fresh(m.net.nodes, Children(m.net, Popped(m).node, ControlOf(RanNow(m, epoch, now))), epoch)
  }

  lemma StampsNext<V>(m: Machine<V>, epoch: nat, now: Instant)
    requires Sane(m) && m.arrivals != []
    ensures Runnable(m)
    ensures
      var m', f := Next(m, epoch, now), Admissions(m, epoch, now);
      && m'.net.nodes.Keys == m.net.nodes.Keys
      && (forall n :: n in m.net.nodes && m.net.nodes[n].schedEpoch == epoch ==> m'.net.nodes[n].schedEpoch == epoch)
      && (forall e :: e in f ==> e.node in m.net.nodes && m.net.nodes[e.node].schedEpoch != epoch)
      && (forall e :: e in f ==> m'.net.nodes[e.node].schedEpoch == epoch)
      && DistinctNodes(f)
      && multiset(m'.arrivals) + multiset{Popped(m)} == multiset(m.arrivals) + multiset(f)
  {
    SaneNext(m, epoch, now);
    var n, control := Popped(m).node, ControlOf(RanNow(m, epoch, now));
    FreshSpec(m.net.nodes, Children(m.net, n, control), epoch);
    forall c | c in m.net.nodes { NodeStep(m.net, n, control, epoch, c); }
    WithoutMultiset(m.arrivals, First(m.arrivals));
  }

  lemma AccountsStep<V>(m0: Machine<V>, popped: seq<Entry>, added: seq<Entry>, m: Machine<V>, e: Entry, f: seq<Entry>, m': Machine<V>, epoch: nat)
    requires Accounts(m0, popped, added, m, epoch)
    requires m'.net.nodes.Keys == m.net.nodes.Keys
    requires forall n :: n in m.net.nodes && m.net.nodes[n].schedEpoch == epoch ==> m'.net.nodes[n].schedEpoch == epoch
    requires forall x :: x in f ==> x.node in m.net.nodes && m.net.nodes[x.node].schedEpoch != epoch
    requires forall x :: x in f ==> m'.net.nodes[x.node].schedEpoch == epoch
    requires DistinctNodes(f) && multiset(m'.arrivals) + multiset{e} == multiset(m.arrivals) + multiset(f)
    ensures Accounts(m0, popped + [e], added + f, m', epoch)
  {
    forall i, j | 0 <= i < |added| && 0 <= j < |f|
      ensures added[i].node != f[j].node
    {
      assert added[i] in added && f[j] in f;
    }
    calc {
      multiset(popped + [e]) + multiset(m'.arrivals);
      multiset(popped) + (multiset(m'.arrivals) + multiset{e});
      (multiset(popped) + multiset(m.arrivals)) + multiset(f);
      multiset(m0.arrivals) + (multiset(added) + multiset(f));
      { assert multiset(added + f) == multiset(added) + multiset(f); }
      multiset(m0.arrivals) + multiset(added + f);
    }
  }

  lemma AccountsNext<V>(m0: Machine<V>, popped: seq<Entry>, added: seq<Entry>, m: Machine<V>, epoch: nat, now: Instant)
    requires Accounts(m0, popped, added, m, epoch) && Sane(m) && m.arrivals != []
    ensures Runnable(m)
    ensures Accounts(m0, popped + [Popped(m)], added + Admissions(m, epoch, now), Next(m, epoch, now), epoch)
  {
    StampsNext(m, epoch, now);
    AccountsStep(m0, popped, added, m, Popped(m), Admissions(m, epoch, now), Next(m, epoch, now), epoch);
  }

  lemma AccountsFollows<V>(h: seq<Machine<V>>, k: nat, epoch: nat, now: Instant, m0: Machine<V>, popped: seq<Entry>, added: seq<Entry>)
    returns (added': seq<Entry>)
    requires Machines.Draining(h, epoch, now) && 0 < k < |h| && Accounts(m0, popped, added, h[k - 1], epoch)
    ensures Runnable(h[k - 1]) && Accounts(m0, popped + [Popped(h[k - 1])], added', h[k], epoch)
  {
    AllSane(h, k - 1, epoch, now);
    assert Follows(h, k - 1, epoch, now);
    AccountsNext(m0, popped, added, h[k - 1], epoch, now);
    added' := added + Admissions(h[k - 1], epoch, now);
  }

  lemma {:induction false} AccountsAt<V>(h: seq<Machine<V>>, k: nat, epoch: nat, now: Instant) returns (added: seq<Entry>)
    requires Machines.Draining(h, epoch, now) && k < |h|
    ensures Accounts(h[0], PoppedIn(h, k), added, h[k], epoch)
  {
    added := [];
    if k > 0 {
      added := AccountsAt(h, k - 1, epoch, now);
      added := AccountsFollows(h, k, epoch, now, h[0], PoppedIn(h, k - 1), added);
    }
  }

  lemma DistinctOnce(a: seq<Entry>, e: Entry)
    requires DistinctNodes(a)
    ensures multiset(a)[e] <= 1
  {
    if i :| 0 <= i < |a| && a[i] == e {
      assert a == a[..i] + [e] + a[i + 1..];
      assert e !in a[..i] && e !in a[i + 1..];
    }
  }

  /** The queue after polls that each failed after admitting `batches[i]`. */
  function Leftover(batches: seq<seq<Entry>>): seq<Entry> {
    if batches == [] then [] else Leftover(batches[..|batches| - 1]) + batches[|batches| - 1]
  }

  lemma {:induction false} LeftoverBound(batches: seq<seq<Entry>>, e: Entry)
    requires forall b :: b in batches ==> DistinctNodes(b)
    ensures multiset(Leftover(batches))[e] <= |batches|
  {
    if batches != [] {
      LeftoverBound(batches[..|batches| - 1], e);
      DistinctOnce(batches[|batches| - 1], e);
    }
  }

  /** After failed polls and one that succeeded with `last`, a drain that empties the queue runs
      every node that was queued, and none more than once plus the number of failures. */
  lemma RunsAfterFailedPolls<V>(h: seq<Machine<V>>, epoch: nat, now: Instant, batches: seq<seq<Entry>>, last: seq<Entry>, e: Entry)
    requires Machines.Draining(h, epoch, now) && h[|h| - 1].arrivals == []
    requires h[0].arrivals == Leftover(batches) + last
    requires DistinctNodes(last) && (forall b :: b in batches ==> DistinctNodes(b)) && StampedIn(h[0], last, epoch)
    ensures e in h[0].arrivals ==> e in PoppedIn(h, |h| - 1)
    ensures multiset(PoppedIn(h, |h| - 1))[e] <= 1 + |batches|
  {
    DrainCounts(h, |h| - 1, epoch, now, h[0], Leftover(batches), last, e);
    LeftoverBound(batches, e);
  }

  lemma DrainCounts<V>(h: seq<Machine<V>>, k: nat, epoch: nat, now: Instant, m0: Machine<V>, left: seq<Entry>, last: seq<Entry>, e: Entry)
    requires Machines.Draining(h, epoch, now) && k < |h| && h[k].arrivals == [] && m0 == h[0]
    requires m0.arrivals == left + last && DistinctNodes(last) && StampedIn(m0, last, epoch)
    ensures e in left + last ==> e in PoppedIn(h, k)
    ensures multiset(PoppedIn(h, k))[e] <= multiset(left)[e] + 1
  {
    var added := AccountsAt(h, k, epoch, now);
    AccountsCount(m0, PoppedIn(h, k), added, h[k], epoch, left, last, e);
  }

  /** The entries have been scheduled in this epoch. */
  ghost predicate StampedIn<V>(m: Machine<V>, entries: seq<Entry>, epoch: nat) {
    forall x :: x in entries ==> x.node in m.net.nodes && m.net.nodes[x.node].schedEpoch == epoch
  }

  lemma AccountsCount<V>(m0: Machine<V>, popped: seq<Entry>, added: seq<Entry>, m: Machine<V>, epoch: nat, left: seq<Entry>, last: seq<Entry>, e: Entry)
    requires Accounts(m0, popped, added, m, epoch) && m.arrivals == [] && m0.arrivals == left + last && DistinctNodes(last)
    requires StampedIn(m0, last, epoch)
    ensures e in m0.arrivals ==> e in popped
    ensures multiset(popped)[e] <= multiset(left)[e] + 1
  {
    assert !(e in last && e in added);
    PoppedCount(popped, m.arrivals, left, last, added, e);
  }

  lemma PoppedCount(popped: seq<Entry>, rest: seq<Entry>, left: seq<Entry>, last: seq<Entry>, added: seq<Entry>, e: Entry)
    requires multiset(popped) + multiset(rest) == multiset(left + last) + multiset(added) && rest == []
    requires DistinctNodes(last) && DistinctNodes(added) && !(e in last && e in added)
    ensures e in left + last ==> e in popped
    ensures multiset(popped)[e] <= multiset(left)[e] + 1
  {
    DistinctOnce(last, e);
    DistinctOnce(added, e);
    assert multiset(rest) == multiset{} && multiset(left + last) == multiset(left) + multiset(last);
    assert multiset(popped)[e] == (multiset(popped) + multiset(rest))[e];
    assert multiset(popped)[e] == (multiset(left) + multiset(last) + multiset(added))[e];
    assert e in left + last <==> multiset(left + last)[e] > 0;
    assert e in last <==> multiset(last)[e] > 0;
    assert e in added <==> multiset(added)[e] > 0;
    assert e in popped <==> multiset(popped)[e] > 0;
  }

  // ----- polls that fail, and the cycle that succeeds

  function Failures<V>(moves: seq<Move<V>>): nat {
    if moves == [] then 0 else Failures(moves[..|moves| - 1]) + if moves[|moves| - 1].PollLost? then 1 else 0
  }

  /** From a drained queue: polls that fail, with builds, handle drops and yields between them. */
  ghost predicate Failing<V>(ss: seq<Snapshot<V>>, moves: seq<Move<V>>) {
    && |ss| == |moves| + 1 && ss[0].machine.arrivals == []
    && forall i :: 0 <= i < |moves| ==> FailingAt(ss, moves, i)
  }

  ghost predicate FailingAt<V>(ss: seq<Snapshot<V>>, moves: seq<Move<V>>, i: nat)
    requires |ss| == |moves| + 1 && i < |moves|
  {
    Moves(ss[i], moves[i], ss[i + 1]) && !moves[i].Cycled?
  }

  /** What such a move adds to the queue. */
  lemma FailingAdds<V>(s: Snapshot<V>, move: Move<V>, s': Snapshot<V>) returns (batch: seq<Entry>)
    requires Moves(s, move, s') && !move.Cycled?
    ensures s'.machine.arrivals == s.machine.arrivals + batch
    ensures DistinctNodes(batch) && (move.Outside? ==> batch == [])
  {
    batch := [];
    if move.PollLost? { batch := PollAdds(s, move.polled, s'.machine); }
  }

  /** A failed poll keeps what was queued and adds its own admissions behind it. */
  lemma {:induction false} QueueOfPolls<V>(ss: seq<Snapshot<V>>, moves: seq<Move<V>>, k: nat) returns (batches: seq<seq<Entry>>)
    requires Failing(ss, moves) && k <= |moves|
    ensures |batches| == Failures(moves[..k]) && ss[k].machine.arrivals == Leftover(batches)
    ensures forall b :: b in batches ==> DistinctNodes(b)
  {
    batches := [];
    if k > 0 {
      var pre := QueueOfPolls(ss, moves, k - 1);
      assert FailingAt(ss, moves, k - 1);
      var batch := FailingAdds(ss[k - 1], moves[k - 1], ss[k]);
      assert moves[..k][..k - 1] == moves[..k - 1];
      batches := pre;
      if moves[k - 1].PollLost? {
        batches := pre + [batch];
        assert batches[..|pre|] == pre;
      }
    }
  }

  lemma QueueGrows<V>(ss: seq<Snapshot<V>>, moves: seq<Move<V>>, i: nat, e: Entry)
    requires Failing(ss, moves) && i < |moves| && e in ss[i].machine.arrivals
    ensures e in ss[i + 1].machine.arrivals
  {
    assert FailingAt(ss, moves, i);
    var batch := FailingAdds(ss[i], moves[i], ss[i + 1]);
  }

  lemma {:induction false} QueuesOnlyGrow<V>(ss: seq<Snapshot<V>>, moves: seq<Move<V>>, i: nat, k: nat, e: Entry)
    requires Failing(ss, moves) && i <= k <= |moves| && e in ss[i].machine.arrivals
    ensures e in ss[k].machine.arrivals
  {
    if i < k {
      QueuesOnlyGrow(ss, moves, i, k - 1, e);
      QueueGrows(ss, moves, k - 1, e);
    }
  }

  lemma PollAdds<V>(s: Snapshot<V>, polled: seq<NodeIndex>, start: Machine<V>) returns (last: seq<Entry>)
    requires PollLeads(s, polled, start)
    ensures start.arrivals == s.machine.arrivals + last && DistinctNodes(last)
    ensures forall x :: x in last ==> x.node in start.net.nodes && start.net.nodes[x.node].schedEpoch == s.epoch + 1
  {
    last := Fresh(s.machine.net.nodes, polled, s.epoch + 1);
    FreshSpec(s.machine.net.nodes, polled, s.epoch + 1);
  }

  /** What a cycle's drain popped. */
  ghost function PoppedBy<V>(epoch: nat, start: Machine<V>, rec: Record<V>): seq<Entry>
    requires Drained(start, epoch, rec)
  {
    PoppedIn(rec.history, |rec.history| - 1)
  }

  lemma DrainLosesNothing<V>(start: Machine<V>, epoch: nat, rec: Record<V>, batches: seq<seq<Entry>>, last: seq<Entry>, e: Entry)
    requires Drained(start, epoch, rec) && start.arrivals == Leftover(batches) + last
    requires DistinctNodes(last) && forall b :: b in batches ==> DistinctNodes(b)
    requires StampedIn(start, last, epoch)
    ensures e in start.arrivals ==> e in PoppedBy(epoch, start, rec)
    ensures multiset(PoppedBy(epoch, start, rec))[e] <= 1 + |batches|
  {
    RunsAfterFailedPolls(rec.history, epoch, rec.now, batches, last, e);
  }

  /** Failed polls lose nothing, whatever is built, dropped or yielded between them: every node queued
      by any of the polls runs in the cycle that succeeds, and no node runs more than once plus once
      for each failure. */
  lemma FailedPollsLoseNothing<V>(
    ss: seq<Snapshot<V>>, moves: seq<Move<V>>, polled: seq<NodeIndex>, start: Machine<V>, epoch: nat, rec: Record<V>, i: nat, e: Entry)
    requires Failing(ss, moves) && i <= |moves|
    requires Begun(ss[|moves|], polled, start, rec) && epoch == ss[|moves|].epoch + 1
    ensures e in ss[i].machine.arrivals || e in start.arrivals ==> e in PoppedBy(epoch, start, rec)
    ensures multiset(PoppedBy(epoch, start, rec))[e] <= 1 + Failures(moves)
  {
    var batches := QueueOfPolls(ss, moves, |moves|);
    assert moves[..|moves|] == moves;
    var last := PollAdds(ss[|moves|], polled, start);
    if e in ss[i].machine.arrivals { QueuesOnlyGrow(ss, moves, i, |moves|, e); }
    DrainLosesNothing(start, epoch, rec, batches, last, e);
  }
}
