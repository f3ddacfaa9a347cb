/** The wakeup protocol between the senders of a channel and the runtime, as interleaved atomic
    steps: item queue, reference counts, notification queue, operating-system waker and poll. */
module Channels {
  import opened Types

  type Thread = nat

  // a queue of no slots is refused when it is made
  type Slots = n: nat | n > 0 witness 1

  datatype Call = Try | Blocking | Force

  /** Where a thread stands between two atomic accesses. `holds` tells whether it still owns a sender. */
  datatype Place<T> =
    | Elsewhere
    | Idle
    | Loading(call: Call, item: T)
    | Pushing(call: Call, item: T)
    | Offering(target: NodeIndex, holds: bool)
    | Waking(holds: bool)

  /** Where the runtime thread stands. `sawEmpty`: its notification loop ended on an empty queue. */
  datatype Phase =
    | Resting
    | Popping(left: nat)
    | Deciding(sawEmpty: bool)
    | Polling(blocks: bool, sawEmpty: bool)
    | Draining
    | Receiving
    | Checking(pushedThen: nat)

  datatype Note = Note(node: NodeIndex, thread: Thread)

  datatype Left<T> = Received(item: T) | Evicted(item: T)

  datatype Config = Config(node: NodeIndex, capacity: Slots, noteCapacity: Slots, pollLimit: nat, io: bool, live: set<NodeIndex>)

  /** `live` are the nodes in the graph and not poisoned, `pending` those in the scheduler.
      `pushed` and `gone` record every item that entered and left the channel, `closed`
      whether the receiver has been told that the channel is closed. */
  datatype State<T> = State(
    queue: seq<T>, senders: nat, receivers: nat,
    notes: seq<Note>, signalled: bool, threads: map<Thread, Place<T>>,
    live: set<NodeIndex>, pending: set<NodeIndex>, runtime: Phase,
    pushed: seq<T>, gone: seq<Left<T>>, closed: bool)

  datatype Event<T> =
    // a sender's or notifier's thread
    | Start(t: Thread, call: Call, item: T)
    | Load(t: Thread)
    | Push(t: Thread)
    | Notify(t: Thread, target: NodeIndex)
    | Offer(t: Thread)
    | Wake(t: Thread)
    | Clone(t: Thread, to: Thread)
    | Drop(t: Thread)
    // the runtime
    | Begin
    | PopNote
    | Decide(ready: set<NodeIndex>, zeroTimeout: bool)
    | Poll(ready: set<NodeIndex>, timedOut: bool, cleared: bool)
    | FailPoll
    | RunOther(n: NodeIndex, woken: set<NodeIndex>)
    | RunReceiver
    | Receive
    | Check(woken: set<NodeIndex>)
    | SweepNode(n: NodeIndex)
    | DropReceiver
    | Build(n: NodeIndex)
    | End

  ghost predicate Sound(c: Config) {
    c.node in c.live
  }

  /** One sender, held by thread 0, and the receiver inside the node's cycle function. */
  ghost function Initial<T>(c: Config): State<T> {
    State([], 1, 1, [], false, map[0 := Idle], c.live, {}, Resting, [], [], false)
  }

  ghost function At<T>(s: State<T>, t: Thread): Place<T> {
    if t in s.threads then s.threads[t] else Elsewhere
  }

  ghost function Moved<T>(s: State<T>, t: Thread, p: Place<T>): State<T> {
    s.(threads := s.threads[t := p])
  }

  ghost predicate Enabled<T>(c: Config, s: State<T>, e: Event<T>) {
    match e
    case Start(t, _, _) => At(s, t).Idle?
    case Load(t) => At(s, t).Loading?
    case Push(t) => At(s, t).Pushing?
    case Notify(t, _) => At(s, t).Elsewhere?
    case Offer(t) => At(s, t).Offering?
    case Wake(t) => At(s, t).Waking?
    case Clone(t, u) => At(s, t).Idle? && At(s, u).Elsewhere?
    case Drop(t) => At(s, t).Idle? && s.senders > 0
    case Begin => s.runtime.Resting?
    case PopNote => s.runtime.Popping?
    case Decide(_, _) => s.runtime.Deciding?
    case Poll(ready, timedOut, _) => s.runtime.Polling? && (s.runtime.blocks ==> s.signalled || ready != {} || timedOut)
    case FailPoll => s.runtime.Polling?
    case RunOther(n, _) => s.runtime.Draining? && n in s.pending && n != c.node
    case RunReceiver => s.runtime.Draining? && c.node in s.pending
    case Receive => s.runtime.Receiving?
    case Check(_) => s.runtime.Checking?
    case SweepNode(n) => s.runtime.Draining? && n in s.live
    case DropReceiver => s.runtime.Draining? && c.node !in s.live && s.receivers > 0
    case Build(n) => s.runtime.Draining? && n !in s.live && n != c.node
    case End => s.runtime.Draining? && s.pending == {}
  }

  /** The push of a `try_send`, a retrying `blocking_send` or an evicting `force_send`. */
  ghost function Pushed<T>(c: Config, s: State<T>, t: Thread, call: Call, item: T): State<T> {
    if |s.queue| < c.capacity then
      Moved(s, t, Offering(c.node, true)).(queue := s.queue + [item], pushed := s.pushed + [item])
    else match call
      case Try => Moved(s, t, Idle)
      case Blocking => Moved(s, t, Loading(Blocking, item))
      case Force =>
        Moved(s, t, Offering(c.node, true)).(
          queue := s.queue[1..] + [item], pushed := s.pushed + [item], gone := s.gone + [Evicted(s.queue[0])])
  }

  ghost function NotePopped<T>(s: State<T>): State<T>
    requires s.runtime.Popping?
  {
    if s.runtime.left == 0 then s.(runtime := Deciding(false))
    else if s.notes == [] then s.(runtime := Deciding(true))
    else s.(notes := s.notes[1..], runtime := Popping(s.runtime.left - 1),
            pending := if s.notes[0].node in s.live then s.pending + {s.notes[0].node} else s.pending)
  }

  ghost function Decided<T>(c: Config, s: State<T>, ready: set<NodeIndex>, zeroTimeout: bool): State<T>
    requires s.runtime.Deciding?
  {
    var pending := s.pending + ready * s.live;
    s.(pending := pending,
       runtime := if c.io then Polling(pending == {} && !zeroTimeout, s.runtime.sawEmpty) else Draining)
  }

  ghost function After<T>(c: Config, s: State<T>, e: Event<T>): State<T>
    requires Enabled(c, s, e)
  {
    match e
    case Start(t, call, item) => Moved(s, t, Loading(call, item))
    case Load(t) =>
      if s.receivers == 0 then Moved(s, t, Idle) else Moved(s, t, Pushing(At(s, t).call, At(s, t).item))
    case Push(t) => Pushed(c, s, t, At(s, t).call, At(s, t).item)
    case Notify(t, target) => Moved(s, t, Offering(target, false))
    case Offer(t) =>
      Moved(s, t, Waking(At(s, t).holds)).(
        notes := if |s.notes| < c.noteCapacity then s.notes + [Note(At(s, t).target, t)] else s.notes)
    case Wake(t) => Moved(s, t, if At(s, t).holds then Idle else Elsewhere).(signalled := s.signalled || c.io)
    case Clone(_, u) => Moved(s, u, Idle).(senders := s.senders + 1)
    case Drop(t) => Moved(s, t, if s.senders == 1 then Offering(c.node, false) else Elsewhere).(senders := s.senders - 1)
    case Begin => s.(runtime := Popping(c.pollLimit))
    case PopNote => NotePopped(s)
    case Decide(ready, zeroTimeout) => Decided(c, s, ready, zeroTimeout)
    case Poll(ready, _, cleared) =>
      s.(pending := s.pending + ready * s.live, signalled := s.signalled && !cleared, runtime := Draining)
    case FailPoll => s.(runtime := Resting)
    case RunOther(n, woken) => s.(pending := s.pending - {n} + woken * s.live)
    case RunReceiver => s.(pending := s.pending - {c.node}, runtime := Receiving)
    case Receive =>
      if s.queue == [] then s.(runtime := Checking(|s.pushed|))
      else s.(queue := s.queue[1..], gone := s.gone + [Received(s.queue[0])])
    case Check(woken) =>
      s.(closed := s.closed || s.senders == 0, pending := s.pending + woken * s.live, runtime := Draining)
    case SweepNode(n) => s.(live := s.live - {n}, pending := s.pending - {n})
    case DropReceiver => s.(receivers := s.receivers - 1)
    case Build(n) => s.(live := s.live + {n})
    case End => s.(runtime := Resting)
  }

  // ----- runs: what has happened so far, and the state it leads to

  datatype Run<T> = New | Then(before: Run<T>, last: Event<T>)

  ghost predicate Legal<T>(c: Config, r: Run<T>)
    decreases r, 0
  {
    r.Then? ==> Legal(c, r.before) && Enabled(c, Execute(c, r.before), r.last)
  }

  ghost function Execute<T>(c: Config, r: Run<T>): State<T>
    requires Legal(c, r)
    decreases r, 1
  {
    if r.New? then Initial(c) else After(c, Execute(c, r.before), r.last)
  }

  // ----- no lost wakeup

  /** The receiver has something to find: an item, or the news that the channel is closed. */
  ghost predicate Owed<T>(c: Config, s: State<T>) {
    c.node in s.live && (s.queue != [] || (s.senders == 0 && !s.closed && !s.runtime.Checking?))
  }

  ghost predicate Offers<T>(c: Config, s: State<T>, t: Thread) {
    t in s.threads && s.threads[t].Offering? && s.threads[t].target == c.node
  }

  ghost predicate Queued<T>(c: Config, s: State<T>) {
    exists i :: 0 <= i < |s.notes| && s.notes[i].node == c.node
  }

  /** A wakeup is on its way: a thread about to notify, a queued notification, or the node pending or running. */
  ghost predicate Outstanding<T>(c: Config, s: State<T>) {
    (exists t :: Offers(c, s, t)) || Queued(c, s) || c.node in s.pending || s.runtime.Receiving?
  }

  ghost predicate Covered<T>(c: Config, s: State<T>) {
    Owed(c, s) ==> Outstanding(c, s)
  }

  /** A notification dropped on a full queue that was the last wakeup on its way. */
  ghost predicate FatalDrop<T>(c: Config, s: State<T>, e: Event<T>) {
    && e.Offer? && Offers(c, s, e.t) && Owed(c, s)
    && |s.notes| >= c.noteCapacity && !Queued(c, s)
    && (forall t :: Offers(c, s, t) ==> t == e.t) && c.node !in s.pending && !s.runtime.Receiving?
  }

  lemma ThreadStepKeepsCover<T>(c: Config, s: State<T>, e: Event<T>)
    requires Sound(c) && Covered(c, s) && Enabled(c, s, e)
    requires e.Start? || e.Load? || e.Push? || e.Notify? || e.Wake? || e.Clone? || e.Drop?
    ensures Covered(c, After(c, s, e))
  {
    var s' := After(c, s, e);
    if Owed(c, s') {
      if e.Push? || e.Drop? {
        if Offers(c, s', e.t) { return; }
      }
      assert Outstanding(c, s);
      if t :| Offers(c, s, t) {
        assert Offers(c, s', t);
      } else if Queued(c, s) {
        assert Queued(c, s');
      }
    }
  }

  lemma OfferCover<T>(c: Config, s: State<T>, t: Thread)
    requires Sound(c) && Covered(c, s) && Enabled(c, s, Offer(t))
    ensures Covered(c, After(c, s, Offer(t))) <==> !FatalDrop(c, s, Offer(t))
  {
    var s' := After(c, s, Offer(t));
    forall u | u != t
      ensures Offers(c, s', u) <==> Offers(c, s, u)
    {
    }
    assert !Offers(c, s', t);
    if i :| 0 <= i < |s.notes| && s.notes[i].node == c.node {
      assert s'.notes[i].node == c.node;
    }
    if Offers(c, s, t) && |s.notes| < c.noteCapacity {
      assert s'.notes[|s.notes|].node == c.node;
    }
  }

  lemma RuntimeStepKeepsCover<T>(c: Config, s: State<T>, e: Event<T>)
    requires Sound(c) && Covered(c, s) && Enabled(c, s, e)
    requires !(e.Start? || e.Load? || e.Push? || e.Notify? || e.Offer? || e.Wake? || e.Clone? || e.Drop?)
    ensures Covered(c, After(c, s, e))
  {
    var s' := After(c, s, e);
    if Owed(c, s') && Owed(c, s) {
      if t :| Offers(c, s, t) {
        assert Offers(c, s', t);
      } else if i :| 0 <= i < |s.notes| && s.notes[i].node == c.node {
        if e.PopNote? && s'.notes != s.notes {
          assert i > 0 ==> s'.notes[i - 1].node == c.node;
        } else {
          assert s'.notes[i].node == c.node;
        }
      }
    }
  }

  lemma StepKeepsCover<T>(c: Config, s: State<T>, e: Event<T>)
    requires Sound(c) && Covered(c, s) && Enabled(c, s, e)
    ensures Covered(c, After(c, s, e)) <==> !FatalDrop(c, s, e)
  {
    if e.Offer? {
      OfferCover(c, s, e.t);
    } else if e.Start? || e.Load? || e.Push? || e.Notify? || e.Wake? || e.Clone? || e.Drop? {
      ThreadStepKeepsCover(c, s, e);
    } else {
      RuntimeStepKeepsCover(c, s, e);
    }
  }

  ghost predicate CoveredThroughout<T>(c: Config, r: Run<T>)
    requires Legal(c, r)
  {
    Covered(c, Execute(c, r)) && (r.Then? ==> CoveredThroughout(c, r.before))
  }

  ghost predicate DropsNoWakeup<T>(c: Config, r: Run<T>)
    requires Legal(c, r)
  {
    r.Then? ==> DropsNoWakeup(c, r.before) && !FatalDrop(c, Execute(c, r.before), r.last)
  }

  /** In every interleaving: as long as the receiver has something to find a wakeup is on its way,
      exactly if no last notification is dropped on a full notification queue. */
  lemma {:induction false} NoLostWakeup<T>(c: Config, r: Run<T>)
    requires Sound(c) && Legal(c, r)
    ensures CoveredThroughout(c, r) <==> DropsNoWakeup(c, r)
  {
    if r.Then? {
      NoLostWakeup(c, r.before);
      if CoveredThroughout(c, r.before) {
        StepKeepsCover(c, Execute(c, r.before), r.last);
      }
    }
  }

  /** A sender waiting in `blocking_send` for a slot has a wakeup on its way. */
  lemma BlockedSenderIsServed<T>(c: Config, r: Run<T>, t: Thread)
    requires Sound(c) && Legal(c, r) && DropsNoWakeup(c, r)
    requires var p := At(Execute(c, r), t); (p.Loading? || p.Pushing?) && p.call.Blocking?
    requires |Execute(c, r).queue| >= c.capacity && c.node in Execute(c, r).live
    ensures Outstanding(c, Execute(c, r))
  {
    NoLostWakeup(c, r);
  }

  // ----- parking

  /** The waker is set for a queued notification, or its thread has yet to call `wake`. */
  ghost predicate Told<T>(s: State<T>, i: nat)
    requires i < |s.notes|
  {
    s.signalled || At(s, s.notes[i].thread).Waking?
  }

  ghost predicate Announced<T>(s: State<T>) {
    forall i :: 0 <= i < |s.notes| ==> Told(s, i)
  }

  /** `r` continues the poll that began after `r0`, or the cycle of that poll. */
  ghost predicate SamePoll<T>(r: Run<T>, r0: Run<T>) {
    r.Then? && (r == Then(r0, Begin) || (!r.last.Begin? && SamePoll(r.before, r0)))
  }

  /** What `k` pops have made of the notifications queued in `s0`; those added since are announced. */
  ghost predicate Tracks<T>(s0: State<T>, s: State<T>, k: nat) {
    && s.live == s0.live && s0.pending <= s.pending && (s0.signalled ==> s.signalled)
    && (forall t :: At(s0, t).Waking? ==> s.signalled || At(s, t).Waking?)
    && |s0.notes| <= |s.notes| + k
    && (forall i :: 0 <= i < |s.notes| ==> Tracked(s0, s, k, i))
    && (s.pending == {} ==> StaleUpTo(s0, k))
  }

  ghost predicate Tracked<T>(s0: State<T>, s: State<T>, k: nat, i: nat)
    requires i < |s.notes|
  {
    if i + k < |s0.notes| then s.notes[i] == s0.notes[i + k] else Told(s, i)
  }

  /** The first `k` notifications queued are of nodes that have left the graph. */
  ghost predicate StaleUpTo<T>(s: State<T>, k: nat) {
    forall i :: 0 <= i < k && i < |s.notes| ==> s.notes[i].node !in s.live
  }

  /** How far the poll that began in `s0` has got. */
  ghost predicate InPoll<T>(c: Config, s0: State<T>, s: State<T>) {
    match s.runtime
    case Popping(left) => left <= c.pollLimit && Tracks(s0, s, c.pollLimit - left)
    case Deciding(sawEmpty) => if sawEmpty then Announced(s) else Tracks(s0, s, c.pollLimit)
    case Polling(blocks, sawEmpty) => (blocks ==> s.pending == {}) && if sawEmpty then Announced(s) else Tracks(s0, s, c.pollLimit)
    case _ => true
  }

  lemma TracksThreadStep<T>(c: Config, s0: State<T>, s: State<T>, e: Event<T>, k: nat)
    requires c.io && Enabled(c, s, e) && Tracks(s0, s, k)
    requires e.Start? || e.Load? || e.Push? || e.Notify? || e.Offer? || e.Wake? || e.Clone? || e.Drop?
    ensures Tracks(s0, After(c, s, e), k)
  {
    var s' := After(c, s, e);
    forall i | 0 <= i < |s'.notes|
      ensures Tracked(s0, s', k, i)
    {
      if i < |s.notes| { assert Tracked(s0, s, k, i); }
    }
  }

  lemma ToldStep<T>(c: Config, s: State<T>, e: Event<T>, i: nat)
    requires c.io && Enabled(c, s, e) && !e.PopNote? && !e.Poll? && i < |After(c, s, e).notes|
    requires i < |s.notes| ==> Told(s, i)
    ensures Told(After(c, s, e), i)
  {
  }

  lemma AnnouncedStep<T>(c: Config, s: State<T>, e: Event<T>)
    requires c.io && Enabled(c, s, e) && !e.PopNote? && !e.Poll? && Announced(s)
    ensures Announced(After(c, s, e))
  {
    forall i: nat | i < |After(c, s, e).notes| { ToldStep(c, s, e, i); }
  }

  lemma TracksPop<T>(s0: State<T>, s: State<T>, k: nat)
    requires Tracks(s0, s, k) && s.runtime.Popping? && s.runtime.left > 0 && s.notes != []
    ensures Tracks(s0, NotePopped(s), k + 1)
  {
    var s', k' := NotePopped(s), k + 1;
    assert Tracked(s0, s, k, 0);
    forall i | 0 <= i < |s'.notes|
      ensures Tracked(s0, s', k', i)
    {
      assert Tracked(s0, s, k, i + 1);
    }
  }

  lemma TracksMore<T>(s0: State<T>, s: State<T>, k: nat, s': State<T>)
    requires Tracks(s0, s, k) && s' == s.(pending := s'.pending, runtime := s'.runtime) && s.pending <= s'.pending
    ensures Tracks(s0, s', k)
  {
    forall i | 0 <= i < |s'.notes|
      ensures Tracked(s0, s', k, i)
    {
      assert Tracked(s0, s, k, i);
    }
  }

  lemma InPollStep<T>(c: Config, s0: State<T>, s: State<T>, e: Event<T>)
    requires c.io && Enabled(c, s, e) && InPoll(c, s0, s) && !e.Begin?
    ensures InPoll(c, s0, After(c, s, e))
  {
    var s' := After(c, s, e);
    if e.PopNote? {
      if s.runtime.left > 0 && s.notes != [] {
        TracksPop(s0, s, c.pollLimit - s.runtime.left);
      } else if s.runtime.left == 0 {
        TracksMore(s0, s, c.pollLimit, s');
      }
    } else if e.Decide? {
      if s.runtime.sawEmpty { AnnouncedStep(c, s, e); } else { TracksMore(s0, s, c.pollLimit, s'); }
    } else if e.Start? || e.Load? || e.Push? || e.Notify? || e.Offer? || e.Wake? || e.Clone? || e.Drop? {
      InPollThreadStep(c, s0, s, e);
    }
  }

  lemma InPollFrame<T>(c: Config, s0: State<T>, s: State<T>, s': State<T>)
    requires InPoll(c, s0, s) && s'.runtime == s.runtime && s'.pending == s.pending
    requires Announced(s) ==> Announced(s')
    requires forall k: nat :: Tracks(s0, s, k) ==> Tracks(s0, s', k)
    ensures InPoll(c, s0, s')
  {
  }

  lemma InPollThreadStep<T>(c: Config, s0: State<T>, s: State<T>, e: Event<T>)
    requires c.io && Enabled(c, s, e) && InPoll(c, s0, s)
    requires e.Start? || e.Load? || e.Push? || e.Notify? || e.Offer? || e.Wake? || e.Clone? || e.Drop?
    ensures InPoll(c, s0, After(c, s, e))
  {
    if Announced(s) { AnnouncedStep(c, s, e); }
    forall k: nat | Tracks(s0, s, k)
      ensures Tracks(s0, After(c, s, e), k)
    {
      TracksThreadStep(c, s0, s, e, k);
    }
    InPollFrame(c, s0, s, After(c, s, e));
  }

  lemma TracksStart<T>(s0: State<T>, s: State<T>)
    requires s == s0.(runtime := s.runtime)
    ensures Tracks(s0, s, 0)
  {
  }

  lemma {:induction false} PollTracks<T>(c: Config, r: Run<T>, r0: Run<T>)
    requires c.io && Legal(c, r) && SamePoll(r, r0)
    ensures Legal(c, r0) && Execute(c, r0).runtime.Resting? && InPoll(c, Execute(c, r0), Execute(c, r))
  {
    if r == Then(r0, Begin) {
      TracksStart(Execute(c, r0), Execute(c, r));
    } else {
      PollTracks(c, r.before, r0);
      InPollStep(c, Execute(c, r0), Execute(c, r.before), r.last);
    }
  }

  ghost predicate Underway<T>(s: State<T>) {
    s.runtime.Popping? || s.runtime.Deciding? || s.runtime.Polling?
  }

  lemma UnderwayBefore<T>(c: Config, s: State<T>, e: Event<T>)
    requires Enabled(c, s, e) && Underway(After(c, s, e)) && !e.Begin?
    ensures Underway(s)
  {
  }

  /** Every poll under way has begun. */
  lemma {:induction false} PollBegan<T>(c: Config, r: Run<T>) returns (r0: Run<T>)
    requires Legal(c, r) && Underway(Execute(c, r))
    ensures SamePoll(r, r0)
  {
    if r.last.Begin? {
      r0 := r.before;
    } else {
      UnderwayBefore(c, Execute(c, r.before), r.last);
      r0 := PollBegan(c, r.before);
    }
  }

  /** A queued notification of a live node whose thread has called `wake` already. */
  ghost predicate Silent<T>(s: State<T>, i: nat)
    requires i < |s.notes|
  {
    s.notes[i].node in s.live && !At(s, s.notes[i].thread).Waking?
  }

  /** Parked on a notification that nobody is going to signal. */
  ghost predicate ParksOnLive<T>(s: State<T>) {
    && s.runtime.Polling? && s.runtime.blocks && !s.signalled
    && exists i :: 0 <= i < |s.notes| && Silent(s, i)
  }

  /** At the start of a cycle: nothing is pending, the waker is clear, and before a signalled
      notification of a live node there are enough stale ones to use up the poll limit. */
  ghost predicate StaleHead<T>(c: Config, s: State<T>) {
    && s.runtime.Resting? && s.pending == {} && !s.signalled && StaleUpTo(s, c.pollLimit)
    && exists i :: c.pollLimit <= i < |s.notes| && Silent(s, i)
  }

  ghost predicate ParkedRun<T>(c: Config, r0: Run<T>, r: Run<T>) {
    SamePoll(r, r0) && Legal(c, r) && ParksOnLive(Execute(c, r))
  }

  lemma NotAnnounced<T>(s: State<T>, i: nat)
    requires i < |s.notes| && !Told(s, i)
    ensures !Announced(s)
  {
  }

  lemma StaleHeadBehind<T>(c: Config, s0: State<T>, s: State<T>, i: nat)
    requires s0.runtime.Resting? && Tracks(s0, s, c.pollLimit) && s.pending == {} && !s.signalled
    requires i < |s.notes| && Silent(s, i)
    ensures StaleHead(c, s0)
  {
    assert Tracked(s0, s, c.pollLimit, i);
    assert Silent(s0, i + c.pollLimit);
  }

  /** Whatever the threads do meanwhile, only a poll that began with a stale head parks on a live
      notification that is already signalled. */
  lemma ParksOnlyUnsignalled<T>(c: Config, r: Run<T>, r0: Run<T>)
    requires c.io && Legal(c, r) && SamePoll(r, r0) && ParksOnLive(Execute(c, r))
    ensures Legal(c, r0) && StaleHead(c, Execute(c, r0))
  {
    PollTracks(c, r, r0);
    var s0, s := Execute(c, r0), Execute(c, r);
    var i :| 0 <= i < |s.notes| && Silent(s, i);
    NotAnnounced(s, i);
    StaleHeadBehind(c, s0, s, i);
  }

  /** Popping stale notifications, one after the other. */
  lemma {:induction false} PopsStale<T>(c: Config, r1: Run<T>, s1: State<T>, r0: Run<T>) returns (r: Run<T>, s: State<T>)
    requires Legal(c, r1) && Execute(c, r1) == s1 && SamePoll(r1, r0)
    requires s1.runtime.Popping? && s1.runtime.left <= |s1.notes| && StaleUpTo(s1, s1.runtime.left)
    ensures Legal(c, r) && Execute(c, r) == s && SamePoll(r, r0)
    ensures s == s1.(notes := s1.notes[s1.runtime.left..], runtime := Popping(0))
    decreases if s1.runtime.Popping? then s1.runtime.left else 0
  {
    if s1.runtime.left == 0 {
      r, s := r1, s1;
    } else {
      var s2 := NotePopped(s1);
      assert s2 == s1.(notes := s1.notes[1..], runtime := Popping(s1.runtime.left - 1));
      r, s := PopsStale(c, Then(r1, PopNote), s2, r0);
    }
  }

  /** The end of a loop that has used up its limit, when nothing else is ready. */
  lemma LimitReached<T>(c: Config, r1: Run<T>, s1: State<T>, r0: Run<T>) returns (r: Run<T>)
    requires c.io && Legal(c, r1) && Execute(c, r1) == s1 && SamePoll(r1, r0) && s1.runtime == Popping(0) && s1.pending == {}
    ensures Legal(c, r) && SamePoll(r, r0) && Execute(c, r) == s1.(runtime := Polling(true, false))
  {
    var s2 := s1.(runtime := Deciding(false));
    r := Then(r1, PopNote);
    assert Legal(c, r) && Execute(c, r) == s2;
    r := Then(r, Decide({}, false));
  }

  lemma ParkedBehind<T>(c: Config, r0: Run<T>, s0: State<T>, r: Run<T>, i: nat)
    requires Legal(c, r) && SamePoll(r, r0) && c.pollLimit <= i < |s0.notes| && Silent(s0, i) && !s0.signalled
    requires Execute(c, r) == s0.(notes := s0.notes[c.pollLimit..], runtime := Polling(true, false))
    ensures ParkedRun(c, r0, r)
  {
    assert Silent(Execute(c, r), i - c.pollLimit);
  }

  /** A cycle that starts with a stale head parks, unless something else is ready. */
  lemma StaleHeadParks<T>(c: Config, r0: Run<T>, s0: State<T>) returns (r: Run<T>)
    requires c.io && Legal(c, r0) && Execute(c, r0) == s0 && StaleHead(c, s0)
    ensures ParkedRun(c, r0, r)
  {
    var i :| c.pollLimit <= i < |s0.notes| && Silent(s0, i);
    var s;
    r, s := PopsStale(c, Then(r0, Begin), s0.(runtime := Popping(c.pollLimit)), r0);
    r := LimitReached(c, r, s, r0);
    ParkedBehind(c, r0, s0, r, i);
  }

  /** From a resting runtime the next poll can park on a live, already signalled notification exactly
      if it starts with a stale head. */
  lemma ParksIffStaleHead<T>(c: Config, r0: Run<T>)
    requires c.io && Legal(c, r0) && Execute(c, r0).runtime.Resting?
    ensures (exists r :: ParkedRun(c, r0, r)) <==> StaleHead(c, Execute(c, r0))
  {
    if r :| ParkedRun(c, r0, r) { ParksOnlyUnsignalled(c, r, r0); }
    if StaleHead(c, Execute(c, r0)) { var r := StaleHeadParks(c, r0, Execute(c, r0)); }
  }

  /** A parked runtime with something to receive will be woken, unless its poll began with a stale
      head: the waker is set, or a thread is between its push and its `wake`. */
  lemma NeverStuck<T>(c: Config, r: Run<T>, r0: Run<T>)
    requires Sound(c) && c.io && Legal(c, r) && DropsNoWakeup(c, r)
    requires Execute(c, r).runtime.Polling? && Execute(c, r).runtime.blocks && Owed(c, Execute(c, r))
    requires SamePoll(r, r0) && Legal(c, r0) && !StaleHead(c, Execute(c, r0))
    ensures var s := Execute(c, r); s.signalled || exists t :: Offers(c, s, t) || At(s, t).Waking?
  {
    var s := Execute(c, r);
    NoLostWakeup(c, r);
    PollTracks(c, r, r0);
    if i :| 0 <= i < |s.notes| && s.notes[i].node == c.node {
      if !s.signalled && !At(s, s.notes[i].thread).Waking? {
        assert Silent(s, i);
        ParksOnlyUnsignalled(c, r, r0);
      }
    }
  }

  // ----- nothing is lost, repeated or reordered

  ghost function Items<T>(gone: seq<Left<T>>): seq<T> {
    if gone == [] then [] else Items(gone[..|gone| - 1]) + [gone[|gone| - 1].item]
  }

  ghost function ReceivedOf<T>(gone: seq<Left<T>>): seq<T> {
    if gone == [] then []
    else ReceivedOf(gone[..|gone| - 1]) + if gone[|gone| - 1].Received? then [gone[|gone| - 1].item] else []
  }

  ghost predicate Conserved<T>(c: Config, s: State<T>) {
    && s.pushed == Items(s.gone) + s.queue && |s.queue| <= c.capacity && |s.notes| <= c.noteCapacity
    && (s.runtime.Checking? ==> s.runtime.pushedThen <= |s.pushed| && (s.queue == [] <==> |s.pushed| == s.runtime.pushedThen))
  }

  lemma PushConserves<T>(c: Config, s: State<T>, t: Thread, call: Call, item: T)
    requires Conserved(c, s)
    ensures Conserved(c, Pushed(c, s, t, call, item))
  {
  }

  lemma ReceiveConserves<T>(c: Config, s: State<T>)
    requires Conserved(c, s) && s.runtime.Receiving?
    ensures Conserved(c, After(c, s, Receive))
  {
  }

  lemma ConservedStep<T>(c: Config, s: State<T>, e: Event<T>)
    requires Enabled(c, s, e) && Conserved(c, s)
    ensures Conserved(c, After(c, s, e))
  {
    match e
    case Push(t) => PushConserves(c, s, t, At(s, t).call, At(s, t).item);
    case Receive => ReceiveConserves(c, s);
    case _ =>
  }

  /** Every item pushed is in the channel or has left it once, to the receiver or evicted by
      `force_send`, all in the order of the pushes. */
  lemma {:induction false} FirstInFirstOut<T>(c: Config, r: Run<T>)
    requires Legal(c, r)
    ensures Conserved(c, Execute(c, r))
  {
    if r.Then? {
      FirstInFirstOut(c, r.before);
      ConservedStep(c, Execute(c, r.before), r.last);
    }
  }

  ghost predicate ForcesNothing<T>(r: Run<T>) {
    r.Then? ==> ForcesNothing(r.before) && (r.last.Start? ==> !r.last.call.Force?)
  }

  ghost predicate NothingEvicted<T>(s: State<T>) {
    && (forall t :: t in s.threads ==> var p := s.threads[t]; p.Loading? || p.Pushing? ==> !p.call.Force?)
    && ReceivedOf(s.gone) == Items(s.gone)
  }

  lemma NothingEvictedStep<T>(c: Config, s: State<T>, e: Event<T>)
    requires Enabled(c, s, e) && NothingEvicted(s) && !(e.Start? && e.call.Force?)
    ensures NothingEvicted(After(c, s, e))
  {
    NothingForced(c, s, e);
    match e
    case Push(t) => assert !At(s, t).call.Force?;
    case Receive =>
      var s' := After(c, s, Receive);
      if s'.gone != s.gone { assert s'.gone[..|s.gone|] == s.gone; }
    case _ =>
  }

  lemma NothingForced<T>(c: Config, s: State<T>, e: Event<T>)
    requires Enabled(c, s, e) && NothingEvicted(s) && !(e.Start? && e.call.Force?)
    ensures forall t :: t in After(c, s, e).threads ==>
      var p := After(c, s, e).threads[t]; p.Loading? || p.Pushing? ==> !p.call.Force?
  {
  }

  /** Without `force_send` the receiver gets everything that was pushed, in order. */
  lemma {:induction false} ReceivesEverything<T>(c: Config, r: Run<T>)
    requires Legal(c, r) && ForcesNothing(r)
    ensures NothingEvicted(Execute(c, r))
    ensures ReceivedOf(Execute(c, r).gone) + Execute(c, r).queue == Execute(c, r).pushed
  {
    FirstInFirstOut(c, r);
    if r.Then? {
      ReceivesEverything(c, r.before);
      NothingEvictedStep(c, Execute(c, r.before), r.last);
    }
  }

  // ----- what a send does with its item

  /** The call and the item a thread is sending, until its fate is settled. */
  ghost predicate Sends<T>(s: State<T>, t: Thread, call: Call, item: T) {
    At(s, t) == Loading(call, item) || At(s, t) == Pushing(call, item)
  }

  /** Items enter the channel only in the push of a thread that is sending them. */
  lemma PushedOnlyBySenders<T>(c: Config, s: State<T>, e: Event<T>)
    requires Enabled(c, s, e)
    ensures After(c, s, e).pushed != s.pushed ==>
      e.Push? && At(s, e.t).Pushing? && After(c, s, e).pushed == s.pushed + [At(s, e.t).item]
  {
  }

  /** A `blocking_send` ends only with its item pushed, or with no receiver left and nothing pushed. */
  lemma BlockingEnds<T>(c: Config, s: State<T>, e: Event<T>, t: Thread, item: T)
    requires Enabled(c, s, e) && Sends(s, t, Blocking, item)
    ensures var s' := After(c, s, e);
      || Sends(s', t, Blocking, item)
      || (e == Push(t) && s'.pushed == s.pushed + [item] && s'.queue == s.queue + [item] && At(s', t) == Offering(c.node, true))
      || (e == Load(t) && s.receivers == 0 && s'.pushed == s.pushed && s'.queue == s.queue && At(s', t) == Idle)
  {
  }

  /** A `try_send` pushes its item exactly if a slot is free at its push, and gives up otherwise. */
  lemma TryEnds<T>(c: Config, s: State<T>, e: Event<T>, t: Thread, item: T)
    requires Enabled(c, s, e) && Sends(s, t, Try, item)
    ensures var s' := After(c, s, e);
      || Sends(s', t, Try, item)
      || (e == Push(t) && |s.queue| < c.capacity && s'.pushed == s.pushed + [item] && s'.queue == s.queue + [item] && At(s', t) == Offering(c.node, true))
      || (e == Push(t) && |s.queue| >= c.capacity && s'.pushed == s.pushed && s'.queue == s.queue && At(s', t) == Idle)
      || (e == Load(t) && s.receivers == 0 && s'.pushed == s.pushed && s'.queue == s.queue && At(s', t) == Idle)
  {
  }

  /** A `force_send` always pushes its item; on a full queue the oldest one makes room, and only that. */
  lemma ForceEnds<T>(c: Config, s: State<T>, e: Event<T>, t: Thread, item: T)
    requires Enabled(c, s, e) && Sends(s, t, Force, item)
    ensures var s' := After(c, s, e);
      || Sends(s', t, Force, item)
      || (e == Push(t) && s'.pushed == s.pushed + [item] && At(s', t) == Offering(c.node, true)
          && s'.queue == (if |s.queue| < c.capacity then s.queue else s.queue[1..]) + [item]
          && s'.gone == s.gone + if |s.queue| < c.capacity then [] else [Evicted(s.queue[0])])
      || (e == Load(t) && s.receivers == 0 && s'.pushed == s.pushed && s'.queue == s.queue && At(s', t) == Idle)
  {
  }

  /** With a receiver left a send goes on to its push; and the push settles it, except that a
      `blocking_send` on a full queue starts over. */
  lemma SendProceeds<T>(c: Config, s: State<T>, t: Thread, call: Call, item: T)
    requires Sends(s, t, call, item)
    ensures At(s, t).Loading? && s.receivers > 0 ==> At(After(c, s, Load(t)), t) == Pushing(call, item)
    ensures At(s, t).Pushing? ==>
      (Sends(After(c, s, Push(t)), t, call, item) <==> call == Blocking && |s.queue| >= c.capacity)
  {
  }

  /** The last step of a run settled the send of `item` by thread `t`: it pushed the item, or gave up
      with nothing pushed, because no receiver was left or, in a `try_send`, because the queue was full. */
  ghost predicate Settles<T>(c: Config, r: Run<T>, t: Thread, call: Call, item: T)
    requires Legal(c, r)
  {
    && r.Then? && Sends(Execute(c, r.before), t, call, item)
    && var s, s' := Execute(c, r.before), Execute(c, r);
    || (r.last == Push(t) && s'.pushed == s.pushed + [item])
    || (r.last == Load(t) && s.receivers == 0 && s'.pushed == s.pushed)
    || (r.last == Push(t) && call == Try && |s.queue| >= c.capacity && s'.pushed == s.pushed)
  }

  /** In any run, from its start on a send is under way, or a step since has settled it. */
  lemma {:induction false} SendIsSettled<T>(c: Config, r: Run<T>, started: Run<T>, t: Thread, call: Call, item: T) returns (settled: Run<T>)
    requires Legal(c, r) && Continues(r, started) && started.Then? && started.last == Start(t, call, item)
    ensures Sends(Execute(c, r), t, call, item)
         || (Legal(c, settled) && Continues(r, settled) && Continues(settled, started) && Settles(c, settled, t, call, item))
  {
    settled := r;
    if r != started {
      settled := SendIsSettled(c, r.before, started, t, call, item);
      var s := Execute(c, r.before);
      if Sends(s, t, call, item) {
        settled := r;
        match call
        case Blocking => BlockingEnds(c, s, r.last, t, item);
        case Try => TryEnds(c, s, r.last, t, item);
        case Force => ForceEnds(c, s, r.last, t, item);
      }
    }
  }

  // ----- who gets to run

  /** What is ready becomes pending if its node is live: nodes of ready sources, before and after the
      wait for the operating system, and the node of a notification that is popped. */
  lemma ReadyBecomesPending<T>(c: Config, s: State<T>, e: Event<T>, n: NodeIndex)
    requires Enabled(c, s, e) && n in s.live
    requires
      || (e.Decide? && n in e.ready)
      || (e.Poll? && n in e.ready)
      || (e == PopNote && s.runtime.left > 0 && s.notes != [] && s.notes[0].node == n)
    ensures n in After(c, s, e).pending
  {
  }

  /** A pending node stays so until it runs or is removed. */
  lemma PendingStays<T>(c: Config, s: State<T>, e: Event<T>, n: NodeIndex)
    requires Enabled(c, s, e) && n in s.pending
    ensures n in After(c, s, e).pending || (e.RunOther? && e.n == n) || (e == RunReceiver && n == c.node) || e == SweepNode(n)
  {
  }

  // ----- closing

  ghost predicate Holds<T>(p: Place<T>) {
    p.Idle? || p.Loading? || p.Pushing? || ((p.Offering? || p.Waking?) && p.holds)
  }

  ghost function Holders<T>(s: State<T>): set<Thread> {
    set t | t in s.threads && Holds(s.threads[t])
  }

  ghost predicate Counted<T>(s: State<T>) {
    s.senders == |Holders(s)| && (s.closed ==> s.senders == 0)
  }

  lemma MovedHolders<T>(s: State<T>, t: Thread, p: Place<T>)
    ensures Holders(Moved(s, t, p)) == if Holds(p) then Holders(s) + {t} else Holders(s) - {t}
  {
  }

  /** Sending, notifying and the runtime's steps leave the senders with their owners. */
  lemma OwnersKept<T>(c: Config, s: State<T>, e: Event<T>)
    requires Enabled(c, s, e) && !e.Clone? && !e.Drop?
    ensures Holders(After(c, s, e)) == Holders(s)
  {
    var s' := After(c, s, e);
    if s'.threads != s.threads {
      assert s'.threads == s.threads[e.t := At(s', e.t)];
      MovedHolders(s, e.t, At(s', e.t));
      assert Holds(At(s', e.t)) == Holds(At(s, e.t)) == (e.t in Holders(s));
    }
  }

  lemma CloneCounted<T>(c: Config, s: State<T>, t: Thread, u: Thread)
    requires Enabled(c, s, Clone(t, u)) && Counted(s)
    ensures Counted(After(c, s, Clone(t, u)))
  {
    assert t in Holders(s);
    MovedHolders(s, u, Idle);
  }

  lemma DropCounted<T>(c: Config, s: State<T>, t: Thread)
    requires Enabled(c, s, Drop(t)) && Counted(s)
    ensures Counted(After(c, s, Drop(t)))
  {
    MovedHolders(s, t, At(After(c, s, Drop(t)), t));
  }

  lemma PushOwned<T>(c: Config, s: State<T>, t: Thread)
    requires Enabled(c, s, Push(t)) && Counted(s)
    ensures !s.closed && Counted(After(c, s, Push(t)))
  {
    assert t in Holders(s);
    OwnersKept(c, s, Push(t));
  }

  lemma CountedStep<T>(c: Config, s: State<T>, e: Event<T>)
    requires Enabled(c, s, e) && Counted(s)
    ensures Counted(After(c, s, e))
    ensures s.closed ==> After(c, s, e).pushed == s.pushed
  {
    match e
    case Clone(t, u) => CloneCounted(c, s, t, u);
    case Drop(t) => DropCounted(c, s, t);
    case Push(t) =>
      PushOwned(c, s, t);
    case _ =>
      OwnersKept(c, s, e);
  }

  lemma {:induction false} CountedAlways<T>(c: Config, r: Run<T>)
    requires Legal(c, r)
    ensures Counted(Execute(c, r))
  {
    if r.New? {
      assert Holders<T>(Initial(c)) == {0};
    } else {
      CountedAlways(c, r.before);
      CountedStep(c, Execute(c, r.before), r.last);
    }
  }

  ghost predicate Continues<T>(r: Run<T>, earlier: Run<T>) {
    r == earlier || (r.Then? && Continues(r.before, earlier))
  }

  /** Once the receiver has been told that the channel is closed nothing is pushed any more. */
  lemma {:induction false} ClosedIsFinal<T>(c: Config, r: Run<T>, earlier: Run<T>)
    requires Legal(c, r) && Legal(c, earlier) && Continues(r, earlier) && Execute(c, earlier).closed
    ensures Execute(c, r).closed && Execute(c, r).pushed == Execute(c, earlier).pushed
  {
    if r != earlier {
      ClosedIsFinal(c, r.before, earlier);
      CountedAlways(c, r.before);
      CountedStep(c, Execute(c, r.before), r.last);
    }
  }

  /** The receiver is told so while items are left exactly if one was pushed after its empty pop. */
  lemma ClosedWhileNotEmpty<T>(c: Config, r: Run<T>, woken: set<NodeIndex>)
    requires Legal(c, r) && Execute(c, r).runtime.Checking?
    ensures var s := Execute(c, r); var s' := After(c, s, Check(woken));
      (s'.closed && s'.queue != []) <==> (s'.senders == 0 && |s.pushed| > s.runtime.pushedThen)
  {
    FirstInFirstOut(c, r);
    CountedAlways(c, r);
  }

  // ----- runs in which the code does not keep these promises

  /** A run that has led to `s`, in which no last wakeup was dropped. */
  ghost predicate Reaches<T>(c: Config, r: Run<T>, s: State<T>, kept: bool) {
    Legal(c, r) && Execute(c, r) == s && (kept ==> DropsNoWakeup(c, r))
  }

  lemma Next<T>(c: Config, r: Run<T>, s: State<T>, e: Event<T>, kept: bool) returns (r': Run<T>, s': State<T>)
    requires Reaches(c, r, s, kept) && Enabled(c, s, e)
    requires kept ==> !FatalDrop(c, s, e)
    ensures s' == After(c, s, e) && Reaches(c, r', s', kept)
  {
    r', s' := Then(r, e), After(c, s, e);
  }

  /** Parked, nothing signalled, and no thread on its way to notify. */
  ghost predicate Stuck<T>(s: State<T>) {
    && s.runtime.Polling? && s.runtime.blocks && !s.signalled
    && forall t :: t in s.threads ==> s.threads[t].Idle? || s.threads[t].Elsewhere?
  }

  /** The second half of a notification, dropped if there is no room for it. */
  lemma Offered<T>(c: Config, r0: Run<T>, s0: State<T>, t: Thread, kept: bool) returns (r: Run<T>, s: State<T>)
    requires Reaches(c, r0, s0, kept) && At(s0, t).Offering? && c.io && (kept ==> |s0.notes| < c.noteCapacity)
    ensures Reaches(c, r, s, kept)
    ensures s == s0.(signalled := true, threads := s0.threads[t := if At(s0, t).holds then Idle else Elsewhere],
                     notes := if |s0.notes| < c.noteCapacity then s0.notes + [Note(At(s0, t).target, t)] else s0.notes)
  {
    r, s := Next(c, r0, s0, Offer(t), kept);
    r, s := Next(c, r, s, Wake(t), kept);
  }

  /** A whole `notify` of a thread without a sender. */
  lemma Notified<T>(c: Config, r0: Run<T>, s0: State<T>, t: Thread, n: NodeIndex, kept: bool)
    returns (r: Run<T>, s: State<T>)
    requires Reaches(c, r0, s0, kept) && At(s0, t).Elsewhere? && c.io && |s0.notes| < c.noteCapacity
    ensures Reaches(c, r, s, kept)
    ensures s == s0.(notes := s0.notes + [Note(n, t)], signalled := true, threads := s0.threads[t := Elsewhere])
  {
    r, s := Next(c, r0, s0, Notify(t, n), kept);
    r, s := Offered(c, r, s, t, kept);
  }

  lemma PushedItem<T>(c: Config, r0: Run<T>, s0: State<T>, t: Thread, item: T, kept: bool)
    returns (r: Run<T>, s: State<T>)
    requires Reaches(c, r0, s0, kept) && At(s0, t).Idle? && s0.receivers > 0 && |s0.queue| < c.capacity
    ensures Reaches(c, r, s, kept)
    ensures s == s0.(queue := s0.queue + [item], pushed := s0.pushed + [item], threads := s0.threads[t := Offering(c.node, true)])
  {
    r, s := Next(c, r0, s0, Start(t, Try, item), kept);
    r, s := Next(c, r, s, Load(t), kept);
    r, s := Next(c, r, s, Push(t), kept);
    assert s.threads == s0.threads[t := Offering(c.node, true)];
  }

  /** A whole `try_send` with a free slot. */
  lemma Sent<T>(c: Config, r0: Run<T>, s0: State<T>, t: Thread, item: T, kept: bool)
    returns (r: Run<T>, s: State<T>)
    requires Reaches(c, r0, s0, kept) && At(s0, t).Idle? && c.io && s0.receivers > 0 && |s0.queue| < c.capacity
    requires kept ==> |s0.notes| < c.noteCapacity
    ensures Reaches(c, r, s, kept)
    ensures s == s0.(queue := s0.queue + [item], pushed := s0.pushed + [item], signalled := true, threads := s0.threads[t := Idle],
                     notes := if |s0.notes| < c.noteCapacity then s0.notes + [Note(c.node, t)] else s0.notes)
  {
    r, s := PushedItem(c, r0, s0, t, item, kept);
    r, s := Offered(c, r, s, t, kept);
    assert s.threads == s0.threads[t := Idle];
  }

  /** The end of the notification loop, without other events. */
  lemma LoopEnded<T>(c: Config, r0: Run<T>, s0: State<T>, kept: bool) returns (r: Run<T>, s: State<T>)
    requires Reaches(c, r0, s0, kept) && c.io && s0.runtime.Popping? && (s0.runtime.left == 0 || s0.notes == [])
    ensures Reaches(c, r, s, kept)
    ensures s == s0.(runtime := Polling(s0.pending == {}, s0.runtime.left > 0))
  {
    r, s := Next(c, r0, s0, PopNote, kept);
    r, s := Next(c, r, s, Decide({}, false), kept);
  }

  /** The start of a cycle that pops nothing. */
  lemma PolledNothing<T>(c: Config, r0: Run<T>, s0: State<T>, kept: bool) returns (r: Run<T>, s: State<T>)
    requires Reaches(c, r0, s0, kept) && c.io && s0.runtime.Resting? && s0.pending == {}
    requires c.pollLimit == 0 || s0.notes == []
    ensures Reaches(c, r, s, kept) && s == s0.(runtime := Polling(true, c.pollLimit > 0))
  {
    r, s := Next(c, r0, s0, Begin, kept);
    r, s := LoopEnded(c, r, s, kept);
  }

  /** The start of a cycle that pops the one notification its poll limit allows. */
  lemma PolledOne<T>(c: Config, r0: Run<T>, s0: State<T>, kept: bool) returns (r: Run<T>, s: State<T>)
    requires Reaches(c, r0, s0, kept) && c.io && s0.runtime.Resting? && s0.pending == {}
    requires c.pollLimit == 1 && s0.notes != []
    ensures Reaches(c, r, s, kept)
    ensures var found := {s0.notes[0].node} * s0.live;
      s == s0.(runtime := Polling(found == {}, false), notes := s0.notes[1..], pending := found)
  {
    r, s := Next(c, r0, s0, Begin, kept);
    r, s := Next(c, r, s, PopNote, kept);
    assert s.pending == {s0.notes[0].node} * s0.live;
    r, s := LoopEnded(c, r, s, kept);
  }

  /** A cycle that parks and is woken without any node to run. */
  lemma WokenForNothing<T>(c: Config, r0: Run<T>, s0: State<T>, kept: bool) returns (r: Run<T>, s: State<T>)
    requires Reaches(c, r0, s0, kept) && s0.runtime.Polling? && s0.pending == {} && s0.signalled
    ensures Reaches(c, r, s, kept) && s == s0.(signalled := false, runtime := Resting)
  {
    r, s := Next(c, r0, s0, Poll({}, false, true), kept);
    r, s := Next(c, r, s, End, kept);
  }

  /** Another node's notification fills the queue, and the sender's is dropped. */
  lemma Overfilled(c: Config) returns (r: Run<int>, s: State<int>)
    requires c.io && c.noteCapacity == 1
    ensures Reaches(c, r, s, false)
    ensures s == Initial(c).(queue := [7], pushed := [7], notes := [Note(1, 1)], signalled := true, threads := map[0 := Idle, 1 := Elsewhere])
  {
    r, s := Notified(c, New, Initial(c), 1, 1, false);
    r, s := Sent(c, r, s, 0, 7, false);
  }

  /** The wakeup of a full notification queue is lost: the item stays and the runtime sleeps. */
  lemma LostWakeup() returns (c: Config, r: Run<int>)
    ensures Sound(c) && c.io && c.pollLimit > 0 && Legal(c, r)
    ensures Stuck(Execute(c, r)) && Owed(c, Execute(c, r)) && Execute(c, r).notes == []
  {
    c := Config(0, 1, 1, 1, true, {0, 1});
    var s;
    r, s := Overfilled(c);
    r, s := PolledOne(c, r, s, false);
    r, s := RanOther(c, r, s, 1);
    r, s := PolledNothing(c, r, s, false);
  }

  /** The rest of a cycle in which another node runs. */
  lemma RanOther(c: Config, r0: Run<int>, s0: State<int>, n: NodeIndex) returns (r: Run<int>, s: State<int>)
    requires Reaches(c, r0, s0, false) && s0.runtime == Polling(false, false) && s0.pending == {n} && n != c.node
    ensures Reaches(c, r, s, false) && s == s0.(runtime := Resting, pending := {}, signalled := false)
  {
    r, s := Next(c, r0, s0, Poll({}, false, true), false);
    r, s := Next(c, r, s, RunOther(n, {}), false);
    r, s := Next(c, r, s, End, false);
  }

  /** One cycle that starts with a stale head is enough: while the runtime is parked, a notification
      of a node that is gone arrives and then the sender's. The wakeup for both is used up by a cycle
      without work, and the next one pops the stale notification and parks on the sender's. */
  lemma ParksOnStaleNote() returns (c: Config, r: Run<int>)
    ensures Sound(c) && c.io && c.pollLimit > 0 && Legal(c, r) && DropsNoWakeup(c, r)
    ensures Stuck(Execute(c, r)) && ParksOnLive(Execute(c, r)) && Owed(c, Execute(c, r))
  {
    c := Config(0, 1, 3, 1, true, {0});
    var s := Initial(c);
    r, s := PolledNothing(c, New, s, true);
    r, s := Notified(c, r, s, 1, 1, true);
    r, s := Sent(c, r, s, 0, 7, true);
    r, s := WokenForNothing(c, r, s, true);
    r, s := PolledOne(c, r, s, true);
    assert Silent(s, 0);
  }

  /** With a poll limit of zero notifications are never read, and the runtime parks on one. */
  lemma ParksWithoutLimit<T>(c: Config) returns (r: Run<T>)
    requires Sound(c) && c.io && c.pollLimit == 0
    ensures Legal(c, r) && Stuck(Execute(c, r)) && Queued(c, Execute(c, r))
  {
    var s := Initial(c);
    r, s := Notified(c, New, s, 1, c.node, false);
    r, s := PolledNothing(c, r, s, false);
    r, s := WokenForNothing(c, r, s, false);
    r, s := PolledNothing(c, r, s, false);
    assert s.notes[0].node == c.node;
  }

  /** The receiver, run for some event of its own, has found the channel empty. */
  lemma FoundEmpty(c: Config) returns (r: Run<int>, s: State<int>)
    requires Sound(c) && c.io && c.pollLimit > 0
    ensures Reaches(c, r, s, false) && s == Initial(c).(runtime := Checking(0))
  {
    r, s := Next(c, New, Initial(c), Begin, false);
    r, s := Next(c, r, s, PopNote, false);
    r, s := Next(c, r, s, Decide({c.node}, true), false);
    assert s == Initial(c).(runtime := Polling(false, true), pending := {c.node});
    r, s := ReceiverRan(c, r, s);
  }

  lemma ReceiverRan(c: Config, r0: Run<int>, s0: State<int>) returns (r: Run<int>, s: State<int>)
    requires Reaches(c, r0, s0, false)
    requires s0.runtime == Polling(false, true) && s0.pending == {c.node} && s0.queue == [] && s0.pushed == []
    ensures Reaches(c, r, s, false) && s == s0.(runtime := Checking(0), pending := {})
  {
    r, s := Next(c, r0, s0, Poll({}, false, false), false);
    r, s := Next(c, r, s, RunReceiver, false);
    r, s := Next(c, r, s, Receive, false);
  }

  /** `try_receive` reports the channel closed although an item is left: it was pushed, and the
      last sender dropped, between the empty pop and the load of the sender count. */
  lemma ClosedBeforeLastItem() returns (c: Config, r: Run<int>)
    ensures Legal(c, r) && Execute(c, r).closed && Execute(c, r).queue == [7]
  {
    c := Config(0, 1, 1, 1, true, {0});
    var s;
    r, s := FoundEmpty(c);
    r, s := Sent(c, r, s, 0, 7, false);
    r, s := Next(c, r, s, Drop(0), false);
    r, s := Next(c, r, s, Check({}), false);
  }
}
