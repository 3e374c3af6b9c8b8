/** What every reachable state of the simulator satisfies: nobody is forgotten,
    nobody oversleeps, mutexes are sound, wakes are served in order. */
module Invariants {
  import opened Prelude
  import opened Tasks
  import opened Timing
  import opened Mutexes
  import opened Condvars
  import opened Channels
  import opened Simulation

  // ------------------------------------------------------------------
  // The invariant
  // ------------------------------------------------------------------

  ghost predicate Queued(s: Sim, t: TaskId) {
    t in s.batch || t in s.ready
  }

  ghost function WakeOf(st: Status): Option<nat> {
    match st
    case Sleeping(wake) => Some(wake)
    case TimedWaiting(_, _, wake) => Some(wake)
    case _ => None
  }

  /** The queue that is polled before the clock moves again. */
  ghost function Due(s: Sim): seq<TaskId> {
    if s.phase == Head then s.ready else s.batch
  }

  ghost predicate TasksInRange(s: Sim) {
    && (forall t :: t in s.ready ==> t < |s.tasks|)
    && (forall t :: t in s.batch ==> t < |s.tasks|)
    && (forall e :: e in s.clock.events ==> e.task < |s.tasks|)
    && (forall w :: 0 <= w < |s.owner| ==> s.owner[w] < |s.tasks|)
    && (forall ch :: 0 <= ch < |s.channels| && s.channels[ch].waker.Some? ==> s.channels[ch].waker.value < |s.tasks|)
  }

  ghost predicate StatusInRange(s: Sim) {
    forall t :: 0 <= t < |s.tasks| ==> InRange(s, s.tasks[t])
  }

  /** Exactly the current task is running, and only inside a batch. */
  ghost predicate OneRunner(s: Sim) {
    && (s.phase == Head ==> s.batch == [] && s.current == None)
    && (s.current.Some? ==> s.current.value < |s.tasks|)
    && (forall t :: 0 <= t < |s.tasks| ==> (s.tasks[t] == Running <==> s.current == Some(t)))
  }

  ghost predicate Punctual(s: Sim) {
    && NothingOverdue(s.clock)
    && (forall t :: 0 <= t < |s.tasks| ==> OnTime(s.clock, Due(s), t, WakeOf(s.tasks[t])))
  }

  /** The list of a condvar holds waits of the tasks that own them, and a flag is
      only ever set for a wait that exists. */
  ghost predicate EntriesOwned(s: Sim) {
    && (forall c, e :: 0 <= c < |s.conds| && e in s.conds[c] ==> e.wait < |s.owner| && s.owner[e.wait] == e.task)
    && (forall w :: w in s.woken ==> w < |s.owner|)
  }

  ghost predicate WaitsOwned(s: Sim) {
    && EntriesOwned(s)
    && (forall t {:trigger s.tasks[t]} :: 0 <= t < |s.tasks| ==> OwnsWait(s, t))
  }

  ghost predicate OwnsWait(s: Sim, t: TaskId)
    requires t < |s.tasks|
  {
    match s.tasks[t]
    case Waiting(_, w, _) => w < |s.owner| && s.owner[w] == t
    case SyncWaiting(_, w) => w < |s.owner| && s.owner[w] == t
    case TimedWaiting(_, w, _) => w < |s.owner| && s.owner[w] == t
    case Locking(_, _, wait) =>
      wait.Some? ==> wait.value in s.woken && wait.value < |s.owner| && s.owner[wait.value] == t
    case _ => true
  }

  /** A suspended task will be polled, or is registered with what it waits for. */
  ghost predicate Attended(s: Sim, t: TaskId)
    requires t < |s.tasks|
  {
    match s.tasks[t]
    case New => Queued(s, t)
    case Running => true
    case Finished => true
    case Sleeping(wake) => true // by Punctual
    case Locking(m, id, _) => m < |s.mutexes| && Waiter(id, t) in s.mutexes[m].waiters
    case Waiting(c, w, _) => if w in s.woken then Queued(s, t) else c < |s.conds| && Entry(w, t) in s.conds[c]
    case SyncWaiting(c, w) => if w in s.woken then Queued(s, t) else c < |s.conds| && Entry(w, t) in s.conds[c]
    case TimedWaiting(c, w, _) => w in s.woken ==> Queued(s, t)
    case Receiving(ch) => Queued(s, t) || (ch < |s.channels| && s.channels[ch] == ChannelState([], Some(t)))
  }

  ghost predicate NobodyForgotten(s: Sim) {
    forall t {:trigger s.tasks[t]} :: 0 <= t < |s.tasks| ==> Attended(s, t)
  }

  /** Waiters are exactly tasks that wait, and a free mutex has woken its first one. */
  ghost predicate MutexSound(s: Sim, m: nat)
    requires m < |s.mutexes|
  {
    var x := s.mutexes[m];
    && MutexOk(x) && InTicketOrder(x)
    && (forall w :: w in x.waiters ==> HoldsTicket(s, w.task, m, w.id))
    && (!x.isLocked && x.waiters != [] ==> Queued(s, x.waiters[0].task))
  }

  ghost predicate HoldsTicket(s: Sim, t: TaskId, m: nat, id: nat) {
    t < |s.tasks| && s.tasks[t].Locking? && s.tasks[t].m == m && s.tasks[t].id == id
  }

  ghost predicate MutexesSound(s: Sim) {
    forall m {:trigger s.mutexes[m]} :: 0 <= m < |s.mutexes| ==> MutexSound(s, m)
  }

  ghost predicate ChannelsSound(s: Sim) {
    && (forall ch :: 0 <= ch < |s.channels| ==> ChannelOk(s.channels[ch]))
    && (forall t, u :: 0 <= t < u < |s.tasks| && s.tasks[t].Receiving? ==> s.tasks[t] != s.tasks[u])
  }

  /** Pushes are served in order; one is at most one advance old when it is served. */
  ghost predicate ServedInOrder(s: Sim) {
    var p := s.past;
    && |p.wakes| == p.served + |s.batch| + |s.ready|
    && (forall k :: p.served <= k < |p.wakes| ==> p.wakes[k].task == (s.batch + s.ready)[k - p.served])
    && (forall k :: p.served <= k < |p.wakes| ==>
          p.advances <= p.wakes[k].stamp + (if s.phase == Head || k < p.served + |s.batch| then 1 else 0))
    && (forall k :: 0 <= k < |p.wakes| ==> p.wakes[k].stamp <= p.advances)
  }

  ghost predicate NotifiedFirst(s: Sim) {
    && s.past.completed <= s.woken
    && |s.woken| <= s.past.ones + s.past.covered
  }

  /** Task `t` is suspended in wait `w` and has not left it. */
  ghost predicate StillWaits(s: Sim, t: TaskId, w: nat) {
    t < |s.tasks| &&
    match s.tasks[t]
    case Waiting(_, v, _) => v == w
    case SyncWaiting(_, v) => v == w
    case TimedWaiting(_, v, _) => v == w
    case _ => false
  }

  /** Whatever can still be notified is waited for, except timed waits that ended. */
  ghost predicate WaitsLive(s: Sim) {
    && (forall c, e :: 0 <= c < |s.conds| && e in s.conds[c] && e.wait !in s.woken ==>
          StillWaits(s, e.task, e.wait) || e.wait in s.past.expired)
    && (forall t, w :: StillWaits(s, t, w) ==> w !in s.past.expired)
    && (forall w :: w in s.past.expired ==> w < |s.owner|)
  }

  ghost predicate Inv(s: Sim) {
    && TasksInRange(s)
    && StatusInRange(s)
    && OneRunner(s)
    && Punctual(s)
    && WaitsOwned(s)
    && NobodyForgotten(s)
    && MutexesSound(s)
    && ChannelsSound(s)
    && ServedInOrder(s)
    && NotifiedFirst(s)
    && WaitsLive(s)
  }

  // ------------------------------------------------------------------
  // Every step keeps it
  // ------------------------------------------------------------------

  // What a poll and an operation leave alone ---------------------------

  lemma PopMembers(s: Sim)
    requires s.batch != []
    ensures forall u :: u in PopBatch(s).batch ==> u in s.batch
    ensures forall u :: u in s.batch ==> u == s.batch[0] || u in PopBatch(s).batch
  {
    assert s.batch == [s.batch[0]] + PopBatch(s).batch;
  }

  /** A poll wakes nobody and only touches the status of the polled task. */
  lemma PollFrame(s: Sim, t: TaskId)
    requires CanPoll(s, t) && s.tasks[t] != Running && s.current == None
    ensures var r := Poll(s, t);
            && r.phase == s.phase && r.ready == s.ready && r.batch == s.batch
            && r.owner == s.owner && r.woken == s.woken
            && r.past == s.past.(completed := r.past.completed, expired := r.past.expired)
            && |r.tasks| == |s.tasks| && |r.mutexes| == |s.mutexes| && |r.conds| == |s.conds|
            && |r.channels| == |s.channels|
            && (forall u :: 0 <= u < |s.tasks| && u != t ==> r.tasks[u] == s.tasks[u])
            && (r.tasks[t] == Running <==> r.current == Some(t))
            && (r.current.Some? ==> r.current == Some(t))
  {
  }

  /** The tasks that an operation wakes. */
  ghost function Woken(s: Sim, op: Op): seq<TaskId>
    requires Legal(s, op)
  {
    match op
    case Unlock(m) => if s.mutexes[m].waiters == [] then [] else [s.mutexes[m].waiters[0].task]
    case CondWait(_, m) => if s.mutexes[m].waiters == [] then [] else [s.mutexes[m].waiters[0].task]
    case NotifyOne(c) =>
      var hit := NotifyFirst(s.conds[c], s.woken).1;
      if hit.Some? then [hit.value.task] else []
    case NotifyAll(c) => Wakers(NotifyEach(s.conds[c], s.woken))
    case Send(ch, _) => if s.channels[ch].waker.Some? then [s.channels[ch].waker.value] else []
    case Spawn => [|s.tasks|]
    case Wake(u) => [u]
    case _ => []
  }

  lemma PerformFrame(s: Sim, t: TaskId, op: Op)
    requires t < |s.tasks| && Legal(s, op) && s.tasks[t] == Running && s.current == Some(t)
    ensures var r := Perform(s, t, op);
            && r.phase == s.phase && r.batch == s.batch
            && r.ready == s.ready + Woken(s, op)
            && r.past.wakes == s.past.wakes + Stamped(Woken(s, op), s.past.advances)
            && r.past.served == s.past.served && r.past.advances == s.past.advances
            && |r.tasks| >= |s.tasks| && |r.mutexes| == |s.mutexes| && |r.conds| == |s.conds|
            && |r.channels| == |s.channels|
            && (forall u :: 0 <= u < |s.tasks| && u != t ==> r.tasks[u] == s.tasks[u])
            && (forall u :: |s.tasks| <= u < |r.tasks| ==> r.tasks[u] == New && u in Woken(s, op))
            && (r.tasks[t] == Running <==> r.current == Some(t))
            && (r.current.Some? ==> r.current == Some(t))
  {
    assert s.past.wakes + Stamped([], s.past.advances) == s.past.wakes;
  }

  /** Pushing on the ready queue keeps the order of service. */
  lemma PushKeepsOrder(s: Sim, r: Sim, ts: seq<TaskId>)
    requires ServedInOrder(s)
    requires r.phase == s.phase && r.batch == s.batch && r.ready == s.ready + ts
    requires r.past.wakes == s.past.wakes + Stamped(ts, s.past.advances)
    requires r.past.served == s.past.served && r.past.advances == s.past.advances
    ensures ServedInOrder(r)
  {
    var p, n := r.past, |s.past.wakes|;
    assert r.batch + r.ready == (s.batch + s.ready) + ts;
    assert forall k :: 0 <= k < n ==> p.wakes[k] == s.past.wakes[k];
    assert forall k :: n <= k < |p.wakes| ==> p.wakes[k] == Stamped(ts, s.past.advances)[k - n];
  }

  lemma PopKeepsOrder(s: Sim)
    requires ServedInOrder(s) && s.batch != []
    ensures ServedInOrder(PopBatch(s))
  {
    var r := PopBatch(s);
    assert s.batch + s.ready == [s.batch[0]] + (r.batch + r.ready);
  }

  lemma PollKeepsOrder(s: Sim, t: TaskId)
    requires ServedInOrder(s) && CanPoll(s, t) && s.tasks[t] != Running && s.current == None
    ensures ServedInOrder(Poll(s, t))
  {
    PollFrame(s, t);
  }

  lemma PerformKeepsOrder(s: Sim, t: TaskId, op: Op)
    requires ServedInOrder(s) && t < |s.tasks| && Legal(s, op) && s.tasks[t] == Running && s.current == Some(t)
    ensures ServedInOrder(Perform(s, t, op))
  {
    PerformFrame(s, t, op);
    PushKeepsOrder(s, Perform(s, t, op), Woken(s, op));
  }

  lemma LoopKeepsOrder(s: Sim, ch: Choice)
    requires Inv(s) && Enabled(s, ch) && !ch.PollNext? && !ch.Act?
    ensures ServedInOrder(Step(s, ch))
  {
    match ch
    case External => PushKeepsOrder(s, Step(s, ch), [|s.tasks|]);
    case Take =>
    case Advance(i) =>
      if s.clock.events != [] {
        var moved := s.(phase := Head, past := s.past.(advances := s.past.advances + 1));
        PushKeepsOrder(moved, Step(s, ch), [s.clock.events[i].task]);
      }
  }

  lemma StepKeepsOrder(s: Sim, ch: Choice)
    requires Inv(s) && Enabled(s, ch)
    ensures ServedInOrder(Step(s, ch))
  {
    match ch
    case PollNext => PopKeepsOrder(s); PollKeepsOrder(PopBatch(s), s.batch[0]);
    case Act(op) => PerformKeepsOrder(s, s.current.value, op);
    case _ => LoopKeepsOrder(s, ch);
  }

  // Shape ----------------------------------------------------------------

  lemma WokenInRange(s: Sim, op: Op)
    requires TasksInRange(s) && WaitsOwned(s) && MutexesSound(s) && Legal(s, op)
    ensures forall u :: u in Woken(s, op) ==> u < |s.tasks| || (op.Spawn? && u == |s.tasks|)
  {
    match op
    case Unlock(m) => assert MutexSound(s, m);
    case CondWait(_, m) => assert MutexSound(s, m);
    case NotifyOne(c) => FifoNotifyOne(s.conds[c], s.woken);
    case NotifyAll(c) => FifoNotifyAll(s.conds[c], s.woken);
    case _ =>
  }

  lemma PollKeepsShape(s: Sim, t: TaskId)
    requires TasksInRange(s) && CanPoll(s, t) && s.tasks[t] != Running && s.current == None
    ensures TasksInRange(Poll(s, t))
  {
    PollFrame(s, t);
  }

  lemma PollKeepsRunner(s: Sim, t: TaskId)
    requires StatusInRange(s) && CanPoll(s, t) && s.tasks[t] != Running && OneRunner(s) && s.current == None
    requires s.phase == Polling
    ensures StatusInRange(Poll(s, t)) && OneRunner(Poll(s, t))
  {
    PollFrame(s, t);
  }

  lemma PerformKeepsRange(s: Sim, t: TaskId, op: Op)
    requires TasksInRange(s) && WaitsOwned(s) && MutexesSound(s)
    requires t < |s.tasks| && Legal(s, op) && s.tasks[t] == Running && s.current == Some(t)
    ensures TasksInRange(Perform(s, t, op))
  {
    PerformFrame(s, t, op);
    WokenInRange(s, op);
  }

  lemma PerformKeepsRunner(s: Sim, t: TaskId, op: Op)
    requires StatusInRange(s) && OneRunner(s) && t < |s.tasks| && Legal(s, op) && s.current == Some(t)
    ensures StatusInRange(Perform(s, t, op)) && OneRunner(Perform(s, t, op))
  {
    PerformFrame(s, t, op);
  }

  lemma StepKeepsShape(s: Sim, ch: Choice)
    requires Inv(s) && Enabled(s, ch)
    ensures TasksInRange(Step(s, ch))
  {
    match ch
    case PollNext => PopMembers(s); PollKeepsShape(PopBatch(s), s.batch[0]);
    case Act(op) => PerformKeepsRange(s, s.current.value, op);
    case Advance(i) => if s.clock.events != [] { RemoveAtMembers(s.clock.events, i); }
    case _ =>
  }

  lemma StepKeepsRunner(s: Sim, ch: Choice)
    requires Inv(s) && Enabled(s, ch)
    ensures StatusInRange(Step(s, ch)) && OneRunner(Step(s, ch))
  {
    match ch
    case PollNext => PollKeepsRunner(PopBatch(s), s.batch[0]);
    case Act(op) => PerformKeepsRunner(s, s.current.value, op);
    case _ =>
  }

  // Punctuality ------------------------------------------------------------

  lemma PollKeepsPunctual(s: Sim, t: TaskId)
    requires CanPoll(s, t) && s.tasks[t] != Running && s.current == None && NothingOverdue(s.clock)
    requires forall u :: 0 <= u < |s.tasks| && u != t ==> OnTime(s.clock, s.batch, u, WakeOf(s.tasks[u]))
    ensures NothingOverdue(Poll(s, t).clock)
    ensures forall u :: 0 <= u < |s.tasks| ==> OnTime(Poll(s, t).clock, s.batch, u, WakeOf(Poll(s, t).tasks[u]))
  {
    PollFrame(s, t);
  }

  lemma PerformKeepsPunctual(s: Sim, t: TaskId, op: Op)
    requires OneRunner(s) && Punctual(s)
    requires t < |s.tasks| && Legal(s, op) && s.current == Some(t) && s.phase == Polling
    ensures Punctual(Perform(s, t, op))
  {
    PerformFrame(s, t, op);
  }

  lemma StepKeepsPunctual(s: Sim, ch: Choice)
    requires Inv(s) && Enabled(s, ch)
    ensures Punctual(Step(s, ch))
  {
    match ch
    case PollNext => PollFrame(PopBatch(s), s.batch[0]); PollKeepsPunctual(PopBatch(s), s.batch[0]);
    case Act(op) => PerformKeepsPunctual(s, s.current.value, op);
    case Advance(i) =>
      if s.clock.events != [] {
        var r := Step(s, ch);
        RemoveAtMembers(s.clock.events, i);
        forall t | 0 <= t < |s.tasks|
          ensures OnTime(r.clock, r.ready, t, WakeOf(r.tasks[t]))
        {
          PopKeepsOnTime(s.clock, i, t, WakeOf(s.tasks[t]), r.ready);
        }
      }
    case _ =>
  }

  // Ownership of waits -----------------------------------------------------

  /** Every un-woken listed wait is hit, and whoever owns a hit wait is woken. */
  lemma HitsReachOwners(l: seq<Entry<nat>>, woken: set<nat>, owner: seq<TaskId>)
    requires forall e :: e in l ==> e.wait < |owner| && owner[e.wait] == e.task
    ensures var hits := NotifyEach(l, woken);
            && (forall w :: w in WaitsOfHits(hits) ==> w < |owner| && owner[w] in Wakers(hits))
            && (forall e :: e in l && e.wait !in woken ==> e.wait in WaitsOfHits(hits))
  {
    var hits := NotifyEach(l, woken);
    FifoNotifyAll(l, woken);
    forall w | w in WaitsOfHits(hits)
      ensures w < |owner| && owner[w] in Wakers(hits)
    {
      var i :| 0 <= i < |hits| && Waits(hits)[i] == w;
      assert hits[i] in hits && Wakers(hits)[i] == hits[i].task;
    }
    forall e | e in l && e.wait !in woken
      ensures e.wait in WaitsOfHits(hits)
    {
      var i :| 0 <= i < |l| && l[i] == e;
      assert l[i].wait in Fifo(l, woken);
    }
  }

  lemma PopKeepsOwners(s: Sim)
    requires WaitsOwned(s) && s.batch != []
    ensures WaitsOwned(PopBatch(s))
  {
    forall u | 0 <= u < |s.tasks|
      ensures OwnsWait(PopBatch(s), u)
    {
      assert OwnsWait(s, u);
    }
  }

  lemma PollKeepsOwners(s: Sim, t: TaskId)
    requires WaitsOwned(s) && CanPoll(s, t) && s.tasks[t] != Running && s.current == None
    ensures WaitsOwned(Poll(s, t))
  {
    PollFrame(s, t);
    var r := Poll(s, t);
    assert OwnsWait(s, t);
    forall u | 0 <= u < |r.tasks|
      ensures OwnsWait(r, u)
    {
      if u != t { assert OwnsWait(s, u); }
    }
  }

  lemma PerformKeepsOwners(s: Sim, t: TaskId, op: Op)
    requires WaitsOwned(s) && t < |s.tasks| && Legal(s, op) && s.tasks[t] == Running && s.current == Some(t)
    ensures WaitsOwned(Perform(s, t, op))
  {
    PerformFrame(s, t, op);
    var r := Perform(s, t, op);
    NotifyKeepsOwners(s, t, op);
    forall u | 0 <= u < |r.tasks|
      ensures OwnsWait(r, u)
    {
      if u < |s.tasks| && u != t { assert OwnsWait(s, u); }
    }
  }

  lemma NotifyKeepsOwners(s: Sim, t: TaskId, op: Op)
    requires EntriesOwned(s) && t < |s.tasks| && Legal(s, op)
    ensures EntriesOwned(Perform(s, t, op))
  {
    match op
    case NotifyOne(c) => NotifyOneKeepsOwners(s, t, c);
    case NotifyAll(c) => NotifyAllKeepsOwners(s, t, c);
    case CondWait(c, _) =>
      assert Perform(s, t, op).conds == s.conds[c := s.conds[c] + [Entry(|s.owner|, t)]];
    case SyncWait(c) =>
      assert Perform(s, t, op).conds == s.conds[c := s.conds[c] + [Entry(|s.owner|, t)]];
    case _ =>
  }

  lemma NotifyOneKeepsOwners(s: Sim, t: TaskId, c: nat)
    requires EntriesOwned(s) && t < |s.tasks| && c < |s.conds|
    ensures EntriesOwned(Perform(s, t, NotifyOne(c)))
  {
    FifoNotifyOne(s.conds[c], s.woken);
    forall e { NotifyFirstKeeps(s.conds[c], s.woken, e); }
    var hit := NotifyFirst(s.conds[c], s.woken).1;
    assert hit.Some? ==> hit.value in s.conds[c] && hit.value.wait < |s.owner|;
  }

  lemma NotifyAllKeepsOwners(s: Sim, t: TaskId, c: nat)
    requires EntriesOwned(s) && t < |s.tasks| && c < |s.conds|
    ensures EntriesOwned(Perform(s, t, NotifyAll(c)))
  {
    AllHitsKeepOwners(s, Perform(s, t, NotifyAll(c)), c);
  }

  lemma AllHitsKeepOwners(s: Sim, r: Sim, c: nat)
    requires EntriesOwned(s) && c < |s.conds|
    requires r.conds == s.conds[c := []] && r.owner == s.owner
    requires r.woken == s.woken + WaitsOfHits(NotifyEach(s.conds[c], s.woken))
    ensures EntriesOwned(r)
  {
    HitsReachOwners(s.conds[c], s.woken, s.owner);
  }

  lemma StepKeepsOwners(s: Sim, ch: Choice)
    requires Inv(s) && Enabled(s, ch)
    ensures WaitsOwned(Step(s, ch))
  {
    var r := Step(s, ch);
    if ch.PollNext? {
      PopKeepsOwners(s);
      PollKeepsOwners(PopBatch(s), s.batch[0]);
    } else if ch.Act? {
      PerformKeepsOwners(s, s.current.value, ch.op);
    } else {
      forall u | 0 <= u < |r.tasks|
        ensures OwnsWait(r, u)
      {
        if u < |s.tasks| { assert OwnsWait(s, u); }
      }
    }
  }

  // Notification counts ------------------------------------------------------

  lemma WaitsOfHitsSize(hits: seq<Entry<nat>>)
    ensures |WaitsOfHits(hits)| <= |hits|
    decreases |hits|
  {
    if hits != [] {
      var n := |hits| - 1;
      WaitsOfHitsSize(hits[..n]);
      assert WaitsOfHits(hits) == WaitsOfHits(hits[..n]) + {hits[n].wait} by {
        forall w | w in WaitsOfHits(hits)
          ensures w in WaitsOfHits(hits[..n]) + {hits[n].wait}
        {
          var i :| 0 <= i < |hits| && Waits(hits)[i] == w;
          if i < n { assert Waits(hits[..n])[i] == w; }
        }
        forall w | w in WaitsOfHits(hits[..n])
          ensures w in WaitsOfHits(hits)
        {
          var i :| 0 <= i < n && Waits(hits[..n])[i] == w;
          assert Waits(hits)[i] == w;
        }
        assert Waits(hits)[n] == hits[n].wait;
      }
    }
  }

  lemma PollKeepsCounts(s: Sim, t: TaskId)
    requires NotifiedFirst(s) && CanPoll(s, t) && OwnsWait(s, t)
    ensures NotifiedFirst(Poll(s, t))
  {
  }

  lemma PerformKeepsCounts(s: Sim, t: TaskId, op: Op)
    requires NotifiedFirst(s) && t < |s.tasks| && Legal(s, op)
    ensures NotifiedFirst(Perform(s, t, op))
  {
    match op
    case NotifyOne(c) => NotifyOneKeepsCounts(s, t, c);
    case NotifyAll(c) => NotifyAllKeepsCounts(s, t, c);
    case _ =>
  }

  lemma NotifyOneKeepsCounts(s: Sim, t: TaskId, c: nat)
    requires NotifiedFirst(s) && t < |s.tasks| && c < |s.conds|
    ensures NotifiedFirst(Perform(s, t, NotifyOne(c)))
  {
  }

  lemma NotifyAllKeepsCounts(s: Sim, t: TaskId, c: nat)
    requires NotifiedFirst(s) && t < |s.tasks| && c < |s.conds|
    ensures NotifiedFirst(Perform(s, t, NotifyAll(c)))
  {
    WaitsOfHitsSize(NotifyEach(s.conds[c], s.woken));
  }

  lemma StepKeepsCounts(s: Sim, ch: Choice)
    requires Inv(s) && Enabled(s, ch)
    ensures NotifiedFirst(Step(s, ch))
  {
    match ch
    case PollNext =>
      assert OwnsWait(s, s.batch[0]);
      PollKeepsCounts(PopBatch(s), s.batch[0]);
    case Act(op) => PerformKeepsCounts(s, s.current.value, op);
    case _ =>
  }

  // Live entries -------------------------------------------------------------

  /** Task `t` may have entered a wait or left one that was notified, and lists may have
      lost entries; everybody else waits as before. */
  lemma LiveKept(s: Sim, r: Sim, t: TaskId)
    requires WaitsLive(s) && |s.tasks| <= |r.tasks| && |r.conds| == |s.conds| && |s.owner| <= |r.owner|
    requires s.woken <= r.woken && r.past.expired == s.past.expired
    requires forall u :: 0 <= u < |s.tasks| && u != t ==> r.tasks[u] == s.tasks[u]
    requires forall u :: |s.tasks| <= u < |r.tasks| ==> r.tasks[u] == New
    requires forall c, e :: 0 <= c < |r.conds| && e in r.conds[c] ==>
               e in s.conds[c] || (e.task == t && StillWaits(r, t, e.wait))
    requires forall w :: StillWaits(s, t, w) ==> StillWaits(r, t, w) || w in r.woken
    requires forall w: nat :: StillWaits(r, t, w) ==> StillWaits(s, t, w) || w >= |s.owner|
    ensures WaitsLive(r)
  {
    forall c, e | 0 <= c < |r.conds| && e in r.conds[c] && e.wait !in r.woken
      ensures StillWaits(r, e.task, e.wait) || e.wait in r.past.expired
    {
      if e in s.conds[c] && e.wait !in s.past.expired {
        assert StillWaits(s, e.task, e.wait);
      }
    }
    forall u, w | StillWaits(r, u, w)
      ensures w !in r.past.expired
    {
      assert u != t ==> StillWaits(s, u, w);
    }
  }

  /** Timed wait `w` of task `t` ends without a notification. */
  lemma LiveExpired(s: Sim, r: Sim, t: TaskId, w: nat)
    requires WaitsLive(s) && t < |s.tasks| && StillWaits(s, t, w) && w < |s.owner|
    requires forall u :: 0 <= u < |s.tasks| && u != t ==> !StillWaits(s, u, w)
    requires r.tasks == s.tasks[t := Running] && r.conds == s.conds && r.woken == s.woken && r.owner == s.owner
    requires r.past.expired == s.past.expired + {w}
    ensures WaitsLive(r)
  {
    forall c, e | 0 <= c < |r.conds| && e in r.conds[c] && e.wait !in r.woken
      ensures StillWaits(r, e.task, e.wait) || e.wait in r.past.expired
    {
      if e.wait !in s.past.expired {
        assert StillWaits(s, e.task, e.wait);
      }
    }
    forall u, v | StillWaits(r, u, v)
      ensures v !in r.past.expired
    {
      assert u != t && StillWaits(s, u, v);
    }
  }

  lemma PollKeepsLive(s: Sim, t: TaskId)
    requires WaitsLive(s) && WaitsOwned(s) && CanPoll(s, t) && s.tasks[t] != Running && s.current == None
    ensures WaitsLive(Poll(s, t))
  {
    var r := Poll(s, t);
    PollFrame(s, t);
    assert OwnsWait(s, t);
    if s.tasks[t].TimedWaiting? && s.tasks[t].w !in s.woken && s.clock.now >= s.tasks[t].wake {
      forall u | 0 <= u < |s.tasks| && u != t
        ensures !StillWaits(s, u, s.tasks[t].w)
      {
        assert OwnsWait(s, u);
      }
      LiveExpired(s, r, t, s.tasks[t].w);
    } else {
      LiveKept(s, r, t);
    }
  }

  lemma PerformKeepsLive(s: Sim, t: TaskId, op: Op)
    requires WaitsLive(s) && t < |s.tasks| && Legal(s, op) && s.tasks[t] == Running && s.current == Some(t)
    ensures WaitsLive(Perform(s, t, op))
  {
    PerformFrame(s, t, op);
    if op.NotifyOne? {
      forall e { NotifyFirstKeeps(s.conds[op.c], s.woken, e); }
    }
    LiveKept(s, Perform(s, t, op), t);
  }

  lemma StepKeepsLive(s: Sim, ch: Choice)
    requires Inv(s) && Enabled(s, ch)
    ensures WaitsLive(Step(s, ch))
  {
    match ch
    case PollNext =>
      PopKeepsOwners(s);
      LiveKept(s, PopBatch(s), s.batch[0]);
      PollKeepsLive(PopBatch(s), s.batch[0]);
    case Act(op) => PerformKeepsLive(s, s.current.value, op);
    case _ => LiveKept(s, Step(s, ch), |s.tasks|);
  }

  // Channels -----------------------------------------------------------------

  lemma PollKeepsChannels(s: Sim, t: TaskId)
    requires ChannelsSound(s) && CanPoll(s, t) && s.tasks[t] != Running && s.current == None
    ensures ChannelsSound(Poll(s, t))
  {
    PollFrame(s, t);
  }

  lemma PerformKeepsChannels(s: Sim, t: TaskId, op: Op)
    requires ChannelsSound(s) && t < |s.tasks| && Legal(s, op) && s.tasks[t] == Running && s.current == Some(t)
    ensures ChannelsSound(Perform(s, t, op))
  {
    PerformFrame(s, t, op);
  }

  lemma StepKeepsChannels(s: Sim, ch: Choice)
    requires Inv(s) && Enabled(s, ch)
    ensures ChannelsSound(Step(s, ch))
  {
    match ch
    case PollNext => PollKeepsChannels(PopBatch(s), s.batch[0]);
    case Act(op) => PerformKeepsChannels(s, s.current.value, op);
    case _ =>
  }

  // Nobody is forgotten --------------------------------------------------------

  /** The polled task is registered again or running. */
  lemma PollAttendsSelf(s: Sim)
    requires Inv(s) && Enabled(s, PollNext)
    ensures var (r, t) := (Step(s, PollNext), s.batch[0]); t < |r.tasks| && Attended(r, t)
  {
    var t, p := s.batch[0], PopBatch(s);
    PollFrame(p, t);
    assert Attended(s, t) && OwnsWait(s, t);
    if s.tasks[t].Waiting? && s.tasks[t].w in s.woken {
      assert MutexSound(s, s.tasks[t].m);
      LockFresh(s.mutexes[s.tasks[t].m], t);
    }
  }

  lemma PollAttendsOther(s: Sim, u: TaskId)
    requires Inv(s) && Enabled(s, PollNext) && u < |s.tasks| && u != s.batch[0] && !s.tasks[u].Locking?
    ensures var r := Step(s, PollNext); u < |r.tasks| && Attended(r, u)
  {
    PollFrame(PopBatch(s), s.batch[0]);
    PopMembers(s);
    assert Attended(s, u);
  }

  lemma PollAttendsOtherWaiter(s: Sim, u: TaskId)
    requires Inv(s) && Enabled(s, PollNext) && u < |s.tasks| && u != s.batch[0] && s.tasks[u].Locking?
    ensures var r := Step(s, PollNext); u < |r.tasks| && Attended(r, u)
  {
    var t, m := s.batch[0], s.tasks[u].m;
    PollFrame(PopBatch(s), t);
    assert Attended(s, u) && MutexSound(s, m) && Attended(s, t);
    OtherWaiterStays(s, t, m, Waiter(s.tasks[u].id, u));
    PollLeavesWaiter(PopBatch(s), t, m, Waiter(s.tasks[u].id, u));
  }

  /** A poll changes the list of a mutex only by locking it. */
  lemma PollLeavesWaiter(s: Sim, t: TaskId, m: nat, w: Waiter)
    requires CanPoll(s, t) && m < |s.mutexes| && w in s.mutexes[m].waiters
    requires s.tasks[t].Locking? && s.tasks[t].m == m ==> w in PollLock(s.mutexes[m], s.tasks[t].id, t).0.waiters
    requires w in LockNow(s.mutexes[m], t).0.waiters
    ensures m < |Poll(s, t).mutexes| && w in Poll(s, t).mutexes[m].waiters
  {
  }

  lemma OtherWaiterStays(s: Sim, t: TaskId, m: nat, w: Waiter)
    requires m < |s.mutexes| && MutexOk(s.mutexes[m]) && w in s.mutexes[m].waiters && w.task != t && t < |s.tasks|
    requires s.tasks[t].Locking? && s.tasks[t].m == m ==> Waiter(s.tasks[t].id, t) in s.mutexes[m].waiters
    ensures s.tasks[t].Locking? && s.tasks[t].m == m ==> w in PollLock(s.mutexes[m], s.tasks[t].id, t).0.waiters
    ensures w in LockNow(s.mutexes[m], t).0.waiters
  {
    if s.tasks[t].Locking? && s.tasks[t].m == m {
      if s.tasks[t].id == w.id { TicketsDistinct(s.mutexes[m], w, Waiter(s.tasks[t].id, t)); }
      PollKeepsWaiter(s.mutexes[m], s.tasks[t].id, t, w);
    }
    LockFresh(s.mutexes[m], t);
  }

  /** A mutex that a step does not touch stays sound, if its waiters are left alone. */
  lemma MutexUntouched(s: Sim, r: Sim, m: nat)
    requires m < |s.mutexes| && MutexSound(s, m) && m < |r.mutexes| && r.mutexes[m] == s.mutexes[m]
    requires |s.tasks| <= |r.tasks|
    requires forall u :: 0 <= u < |s.tasks| && s.tasks[u].Locking? && s.tasks[u].m == m ==>
               r.tasks[u] == s.tasks[u] && (Queued(s, u) ==> Queued(r, u))
    ensures MutexSound(r, m)
  {
    var x := s.mutexes[m];
    forall w | w in x.waiters
      ensures HoldsTicket(r, w.task, m, w.id)
      ensures Queued(s, w.task) ==> Queued(r, w.task)
    {
      assert HoldsTicket(s, w.task, m, w.id);
    }
  }

  lemma PollKeepsMutex(s: Sim, m: nat)
    requires Inv(s) && Enabled(s, PollNext) && m < |s.mutexes|
    ensures MutexSound(Step(s, PollNext), m)
  {
    var t, p := s.batch[0], PopBatch(s);
    var r := Poll(p, t);
    PollFrame(p, t);
    PopMembers(s);
    assert MutexSound(s, m);
    assert Attended(s, t);
    if s.tasks[t].Locking? && s.tasks[t].m == m {
      PollKeepsOwnMutex(s);
    } else if s.tasks[t].Waiting? && s.tasks[t].w in s.woken && s.tasks[t].m == m {
      PollKeepsNewMutex(s);
    } else {
      MutexUntouched(s, r, m);
    }
  }

  lemma PollKeepsOwnMutex(s: Sim)
    requires Inv(s) && Enabled(s, PollNext) && s.tasks[s.batch[0]].Locking?
    ensures MutexSound(Step(s, PollNext), s.tasks[s.batch[0]].m)
  {
    var t := s.batch[0];
    var m, id := s.tasks[t].m, s.tasks[t].id;
    assert MutexSound(s, m) && Attended(s, t);
    var k :| 0 <= k < |s.mutexes[m].waiters| && s.mutexes[m].waiters[k] == Waiter(id, t);
    RepollKeepsMutex(s, Step(s, PollNext), t, m, k);
  }

  /** A waiter that is polled again leaves its mutex locked, by itself or by another. */
  lemma RepollKeepsMutex(s: Sim, r: Sim, t: TaskId, m: nat, k: nat)
    requires t < |s.tasks| && m < |s.mutexes| && MutexOk(s.mutexes[m]) && InTicketOrder(s.mutexes[m])
    requires forall w :: w in s.mutexes[m].waiters ==> HoldsTicket(s, w.task, m, w.id)
    requires k < |s.mutexes[m].waiters| && s.mutexes[m].waiters[k].task == t
    requires var (after, got) := PollLock(s.mutexes[m], s.mutexes[m].waiters[k].id, t);
             && |r.mutexes| == |s.mutexes| && r.mutexes[m] == after
             && r.tasks == (if got then s.tasks[t := Running] else s.tasks)
    ensures MutexSound(r, m)
  {
    var x := s.mutexes[m];
    assert HoldsTicket(s, x.waiters[k].task, m, x.waiters[k].id);
    PollQueued(x, k);
    RepollKeepsTicketOrder(x, k, t);
    forall w | w in r.mutexes[m].waiters
      ensures HoldsTicket(r, w.task, m, w.id)
    {
      assert HoldsTicket(s, w.task, m, w.id);
    }
  }

  lemma RepollKeepsTicketOrder(x: MutexState, k: nat, t: TaskId)
    requires InTicketOrder(x) && k < |x.waiters|
    ensures InTicketOrder(PollLock(x, x.waiters[k].id, t).0)
  {
    assert x.waiters[k] in x.waiters;
    PollKeepsTicketOrder(x, x.waiters[k].id, t);
  }

  lemma PollKeepsNewMutex(s: Sim)
    requires Inv(s) && Enabled(s, PollNext) && s.tasks[s.batch[0]].Waiting? && s.tasks[s.batch[0]].w in s.woken
    ensures MutexSound(Step(s, PollNext), s.tasks[s.batch[0]].m)
  {
    var t, m := s.batch[0], s.tasks[s.batch[0]].m;
    assert MutexSound(s, m);
    StartKeepsMutex(s, Step(s, PollNext), t, m, Some(s.tasks[t].w));
  }

  /** A fresh lock request keeps its mutex sound: it ends up locked either way. */
  lemma StartKeepsMutex(s: Sim, r: Sim, t: TaskId, m: nat, wait: Option<nat>)
    requires t < |s.tasks| && m < |s.mutexes| && MutexOk(s.mutexes[m]) && InTicketOrder(s.mutexes[m])
    requires !s.tasks[t].Locking?
    requires forall w :: w in s.mutexes[m].waiters ==> HoldsTicket(s, w.task, m, w.id)
    requires var (after, got) := LockNow(s.mutexes[m], t);
             && |r.mutexes| == |s.mutexes| && r.mutexes[m] == after
             && r.tasks == s.tasks[t := if got then Running else Locking(m, s.mutexes[m].nextId, wait)]
    ensures MutexSound(r, m)
  {
    var x := s.mutexes[m];
    LockFresh(x, t);
    forall w | w in r.mutexes[m].waiters
      ensures HoldsTicket(r, w.task, m, w.id)
    {
      if w in x.waiters { assert HoldsTicket(s, w.task, m, w.id); }
    }
  }

  lemma PerformKeepsMutex(s: Sim, t: TaskId, op: Op, m: nat)
    requires Inv(s) && s.current == Some(t) && Legal(s, op) && m < |s.mutexes|
    ensures MutexSound(Perform(s, t, op), m)
  {
    var r, x := Perform(s, t, op), s.mutexes[m];
    PerformFrame(s, t, op);
    assert MutexSound(s, m);
    if op == Lock(m) {
      StartKeepsMutex(s, r, t, m, None);
    } else if (op.Unlock? || op.CondWait?) && op.m == m {
      ReleaseKeepsMutex(s, t, op);
    } else {
      MutexUntouched(s, r, m);
    }
  }

  lemma ReleaseKeepsMutex(s: Sim, t: TaskId, op: Op)
    requires (op.Unlock? || op.CondWait?) && t < |s.tasks| && Legal(s, op)
    requires s.tasks[t] == Running && MutexSound(s, op.m)
    ensures MutexSound(Perform(s, t, op), op.m)
  {
    var r, x := Perform(s, t, op), s.mutexes[op.m];
    forall w | w in x.waiters
      ensures HoldsTicket(r, w.task, op.m, w.id)
    {
      assert HoldsTicket(s, w.task, op.m, w.id);
    }
    assert x.waiters != [] ==> x.waiters[0].task in Woken(s, op);
  }

  lemma StepKeepsMutexes(s: Sim, ch: Choice)
    requires Inv(s) && Enabled(s, ch)
    ensures MutexesSound(Step(s, ch))
  {
    var r := Step(s, ch);
    forall m | 0 <= m < |r.mutexes|
      ensures MutexSound(r, m)
    {
      assert MutexSound(s, m);
      match ch
      case PollNext => PollFrame(PopBatch(s), s.batch[0]); PollKeepsMutex(s, m);
      case Act(op) => PerformKeepsMutex(s, s.current.value, op, m);
      case _ => MutexUntouched(s, r, m);
    }
  }

  lemma PerformAttends(s: Sim, t: TaskId, op: Op, u: TaskId)
    requires Inv(s) && s.current == Some(t) && Legal(s, op) && u < |Perform(s, t, op).tasks|
    ensures var r := Perform(s, t, op); Attended(r, u)
  {
    var r := Perform(s, t, op);
    PerformFrame(s, t, op);
    if u < |s.tasks| && u != t {
      assert Attended(s, u) && OwnsWait(s, u);
      PerformKeepsAttended(s, t, op, u);
    } else if op.Lock? {
      assert MutexSound(s, op.m);
      LockFresh(s.mutexes[op.m], t);
    }
  }

  lemma PerformKeepsAttended(s: Sim, t: TaskId, op: Op, u: TaskId)
    requires Inv(s) && s.current == Some(t) && Legal(s, op) && u < |s.tasks| && u != t
    requires Attended(s, u) && OwnsWait(s, u)
    ensures u < |Perform(s, t, op).tasks| && Attended(Perform(s, t, op), u)
  {
    if op.NotifyOne? {
      NotifyOneAttends(s, t, op.c, u);
    } else if op.NotifyAll? {
      NotifyAllAttends(s, t, op.c, u);
    } else if op.Lock? {
      assert MutexSound(s, op.m);
      LockAttends(s, t, op.m, u);
    } else if op.Unlock? || op.CondWait? {
      ReleaseAttends(s, t, op, u);
    } else {
      PlainOpAttends(s, t, op, u);
    }
  }

  lemma ReleaseAttends(s: Sim, t: TaskId, op: Op, u: TaskId)
    requires t < |s.tasks| && Legal(s, op) && (op.Unlock? || op.CondWait?)
    requires u < |s.tasks| && u != t && Attended(s, u)
    ensures Attended(Perform(s, t, op), u)
  {
  }

  lemma PlainOpAttends(s: Sim, t: TaskId, op: Op, u: TaskId)
    requires t < |s.tasks| && Legal(s, op) && s.tasks[t] == Running
    requires op.Sleep? || op.SyncWait? || op.TimedWait? || op.Send? || op.Recv? || op.Spawn? || op.Wake? || op.Finish?
    requires u < |s.tasks| && u != t && Attended(s, u)
    ensures u < |Perform(s, t, op).tasks| && Attended(Perform(s, t, op), u)
  {
  }

  lemma LockAttends(s: Sim, t: TaskId, m: nat, u: TaskId)
    requires t < |s.tasks| && m < |s.mutexes| && MutexOk(s.mutexes[m]) && CanTicket(s.mutexes[m])
    requires u < |s.tasks| && u != t && Attended(s, u)
    ensures Attended(Perform(s, t, Lock(m)), u)
  {
    LockFresh(s.mutexes[m], t);
  }

  /** The task of a listed wait is the one that is woken when the wait is hit. */
  lemma NotifyOneAttends(s: Sim, t: TaskId, c: nat, u: TaskId)
    requires WaitsOwned(s) && t < |s.tasks| && c < |s.conds| && u < |s.tasks|
    requires Attended(s, u) && OwnsWait(s, u)
    ensures Attended(Perform(s, t, NotifyOne(c)), u)
  {
    FifoNotifyOne(s.conds[c], s.woken);
    forall e { NotifyFirstKeeps(s.conds[c], s.woken, e); }
    var r, hit := Perform(s, t, NotifyOne(c)), NotifyFirst(s.conds[c], s.woken).1;
    if hit.Some? {
      assert r.ready[|s.ready|] == hit.value.task == s.owner[hit.value.wait];
    }
  }

  lemma NotifyAllAttends(s: Sim, t: TaskId, c: nat, u: TaskId)
    requires WaitsOwned(s) && t < |s.tasks| && c < |s.conds| && u < |s.tasks|
    requires Attended(s, u) && OwnsWait(s, u)
    ensures Attended(Perform(s, t, NotifyAll(c)), u)
  {
    HitsReachOwners(s.conds[c], s.woken, s.owner);
  }

  lemma StepKeepsAttention(s: Sim, ch: Choice)
    requires Inv(s) && Enabled(s, ch)
    ensures NobodyForgotten(Step(s, ch))
  {
    var r := Step(s, ch);
    forall u | 0 <= u < |r.tasks|
      ensures Attended(r, u)
    {
      match ch
      case PollNext =>
        PollFrame(PopBatch(s), s.batch[0]);
        if u == s.batch[0] {
          PollAttendsSelf(s);
        } else if s.tasks[u].Locking? {
          PollAttendsOtherWaiter(s, u);
        } else {
          PollAttendsOther(s, u);
        }
      case Act(op) => PerformAttends(s, s.current.value, op, u);
      case _ =>
        if u < |s.tasks| { assert Attended(s, u); }
    }
  }

  lemma BeginIsFine(mutexes: nat, conds: nat, channels: nat)
    ensures Inv(Begin(mutexes, conds, channels))
  {
    var s := Begin(mutexes, conds, channels);
    assert forall m :: 0 <= m < mutexes ==> s.mutexes[m] == Unlocked && MutexSound(s, m);
  }

  lemma StepKeepsInv(s: Sim, ch: Choice)
    requires Inv(s) && Enabled(s, ch)
    ensures Inv(Step(s, ch))
  {
    StepKeepsShape(s, ch);
    StepKeepsRunner(s, ch);
    StepKeepsPunctual(s, ch);
    StepKeepsOwners(s, ch);
    StepKeepsAttention(s, ch);
    StepKeepsMutexes(s, ch);
    StepKeepsChannels(s, ch);
    StepKeepsOrder(s, ch);
    StepKeepsCounts(s, ch);
    StepKeepsLive(s, ch);
  }

  lemma {:induction false} RunKeepsInv(s: Sim, chs: seq<Choice>, r: Sim)
    requires Inv(s) && Run(s, chs, r)
    ensures Inv(r)
    decreases |chs|
  {
    if chs != [] {
      StepKeepsInv(s, chs[0]);
      RunKeepsInv(Step(s, chs[0]), chs[1..], r);
    }
  }

  lemma ReachableIsInv(s: Sim)
    requires Reachable(s)
    ensures Inv(s)
  {
    var mutexes, conds, channels :| Reaches(Begin(mutexes, conds, channels), s);
    var chs :| Run(Begin(mutexes, conds, channels), chs, s);
    BeginIsFine(mutexes, conds, channels);
    RunKeepsInv(Begin(mutexes, conds, channels), chs, s);
  }
}
