/** What each operation and each poll does to the simulator, field by field, and the laws
    over whole runs that follow: messages and lock guards are conserved.

    A statement of the form `r.(x := s.x, y := s.y) == s` says that nothing but `x` and
    `y` changed. */
module Effects {
  import opened Prelude
  import opened Tasks
  import opened Timing
  import opened Mutexes
  import opened Condvars
  import opened Channels
  import opened Simulation
  import opened Invariants
  import opened Guarantees

  // ------------------------------------------------------------------
  // The loop
  // ------------------------------------------------------------------

  /** At the start nothing exists but free mutexes and empty condvars and channels. */
  lemma StartState(mutexes: nat, conds: nat, channels: nat)
    ensures var s := Begin(mutexes, conds, channels);
            && s.phase == Head && s.clock == Clock(0, []) && s.current == None
            && s.tasks == [] && s.ready == [] && s.batch == [] && s.owner == [] && s.woken == {}
            && s.past == NoPast
            && |s.mutexes| == mutexes && (forall m :: 0 <= m < mutexes ==> s.mutexes[m] == MutexState(false, 0, [], 0))
            && |s.conds| == conds && (forall c :: 0 <= c < conds ==> s.conds[c] == [])
            && |s.channels| == channels
            && (forall ch :: 0 <= ch < channels ==> s.channels[ch] == ChannelState([], None))
  {
  }

  /** The tasks that are ready become the batch, in order. */
  lemma TakeEffect(s: Sim)
    requires Reachable(s) && Enabled(s, Take)
    ensures var r := Step(s, Take);
            && r.phase == Polling && s.batch == [] && r.batch == s.ready && r.ready == []
            && r.(phase := s.phase, batch := s.batch, ready := s.ready) == s
  {
    ReachableIsInv(s);
  }

  /** An advance pops an earliest event, sets the clock to it and wakes its task. */
  lemma AdvanceEffect(s: Sim, i: nat)
    requires Enabled(s, Advance(i))
    ensures var r := Step(s, Advance(i));
            && r.phase == Head
            && if s.clock.events == [] then r.(phase := s.phase) == s
               else
                 && IsEarliest(s.clock.events, i)
                 && r.clock == Clock(s.clock.events[i].wakeTime, RemoveAt(s.clock.events, i))
                 && r.ready == s.ready + [s.clock.events[i].task] && r.past.advances == s.past.advances + 1
                 && r.(phase := s.phase, clock := s.clock, ready := s.ready, past := s.past) == s
  {
  }

  // ------------------------------------------------------------------
  // Operations of the running task
  // ------------------------------------------------------------------

  /** A zero or past sleep does nothing; any other registers at its wake time. */
  lemma SleepEffect(s: Sim, wake: nat)
    requires Enabled(s, Act(Sleep(wake)))
    ensures var (r, t) := (Step(s, Act(Sleep(wake))), s.current.value);
            if wake <= s.clock.now then r == s
            else
              && r.clock == Clock(s.clock.now, s.clock.events + [TimeEvent(wake, t)])
              && r.tasks == s.tasks[t := Sleeping(wake)] && r.current == None
              && r.(clock := s.clock, tasks := s.tasks, current := s.current) == s
  {
  }

  /** `lock().await` on mutex `m`: acquired when free, and otherwise queued last. */
  lemma LockEffect(s: Sim, m: nat)
    requires Reachable(s) && Enabled(s, Act(Lock(m)))
    ensures var (r, t, x) := (Step(s, Act(Lock(m))), s.current.value, s.mutexes[m]);
            if x.isLocked then
              && r.mutexes == s.mutexes[m := MutexState(true, x.nextId + 1, x.waiters + [Waiter(x.nextId, t)], 1)]
              && r.tasks == s.tasks[t := Locking(m, x.nextId, None)] && r.current == None
              && r.(mutexes := s.mutexes, tasks := s.tasks, current := s.current) == s
            else
              && r.mutexes == s.mutexes[m := MutexState(true, x.nextId + 1, x.waiters, 1)]
              && r.(mutexes := s.mutexes) == s
  {
    ReachableIsInv(s);
    assert MutexSound(s, m);
    LockFresh(s.mutexes[m], s.current.value);
    var t := s.current.value;
    assert s.tasks[t] == Running && s.tasks[t := Running] == s.tasks;
    assert s.past.completed + {} == s.past.completed;
  }

  /** The task of the first waiter, which a guard that is dropped wakes. */
  function FirstTask(ws: seq<Waiter>): (ts: seq<TaskId>)
    ensures ws == [] ==> ts == []
    ensures ws != [] ==> ts == [ws[0].task]
  {
    if ws == [] then [] else [ws[0].task]
  }

  /** Dropping a guard frees its mutex, keeps its waiters and wakes exactly the first. */
  lemma UnlockEffect(s: Sim, m: nat)
    requires Reachable(s) && Enabled(s, Act(Unlock(m)))
    ensures var (r, x) := (Step(s, Act(Unlock(m))), s.mutexes[m]);
            && x.isLocked && r.mutexes == s.mutexes[m := MutexState(false, x.nextId, x.waiters, 0)]
            && r.ready == s.ready + FirstTask(x.waiters)
            && r.(mutexes := s.mutexes, ready := s.ready, past := s.past) == s
  {
    ReachableIsInv(s);
    assert MutexSound(s, m);
  }

  /** A condition wait gives up its mutex and leaves a new wait, un-woken and last on the
      list of its condvar. */
  lemma CondWaitEffect(s: Sim, c: nat, m: nat)
    requires Reachable(s) && Enabled(s, Act(CondWait(c, m)))
    ensures var (r, t, x) := (Step(s, Act(CondWait(c, m))), s.current.value, s.mutexes[m]);
            && x.isLocked && r.mutexes == s.mutexes[m := MutexState(false, x.nextId, x.waiters, 0)]
            && r.ready == s.ready + FirstTask(x.waiters)
            && r.tasks == s.tasks[t := Waiting(c, |s.owner|, m)] && r.current == None
            && BeginsWait(s, r, c, t)
            && r.(mutexes := s.mutexes, ready := s.ready, past := s.past, tasks := s.tasks, current := s.current,
                  owner := s.owner, conds := s.conds) == s
  {
    ReachableIsInv(s);
    assert MutexSound(s, m);
    WaitBegins(s, Step(s, Act(CondWait(c, m))), c, s.current.value);
  }

  /** The next wait is un-woken, and queues behind every other. */
  lemma FreshWaitQueues(l: seq<Entry<nat>>, woken: set<nat>, e: Entry<nat>)
    requires e.wait !in woken && forall x :: x in l ==> x.wait < e.wait
    ensures Fifo(l + [e], woken) == Fifo(l, woken) + [e.wait]
  {
    var q := Fifo(l, woken);
    FifoPoll(l, woken, e);
    forall k | 0 <= k < |q|
      ensures q[k] < e.wait
    {
      assert Listed(l, q[k]);
      var i :| 0 <= i < |l| && l[i].wait == q[k];
      assert l[i] in l;
    }
  }

  /** A wait was begun on condvar `c`: it is the next one, and stands last in the queue. */
  ghost predicate BeginsWait(s: Sim, r: Sim, c: nat, t: TaskId) {
    var w: nat := |s.owner|;
    && c < |s.conds| && r.owner == s.owner + [t] && w !in r.woken
    && r.conds == s.conds[c := s.conds[c] + [Entry(w, t)]]
    && Fifo(r.conds[c], r.woken) == Fifo(s.conds[c], s.woken) + [w]
  }

  lemma WaitBegins(s: Sim, r: Sim, c: nat, t: TaskId)
    requires EntriesOwned(s) && c < |s.conds| && r.owner == s.owner + [t] && r.woken == s.woken
    requires r.conds == s.conds[c := s.conds[c] + [Entry(|s.owner|, t)]]
    ensures BeginsWait(s, r, c, t)
  {
    FreshWaitQueues(s.conds[c], s.woken, Entry(|s.owner|, t));
  }

  lemma SyncWaitEffect(s: Sim, c: nat)
    requires Reachable(s) && Enabled(s, Act(SyncWait(c)))
    ensures var (r, t) := (Step(s, Act(SyncWait(c))), s.current.value);
            && r.tasks == s.tasks[t := SyncWaiting(c, |s.owner|)] && r.current == None
            && BeginsWait(s, r, c, t)
            && r.(tasks := s.tasks, current := s.current, owner := s.owner, conds := s.conds) == s
  {
    ReachableIsInv(s);
    WaitBegins(s, Step(s, Act(SyncWait(c))), c, s.current.value);
  }

  /** A wait with a deadline is registered both at its condvar and at its deadline. */
  lemma TimedWaitEffect(s: Sim, c: nat, wake: nat)
    requires Reachable(s) && Enabled(s, Act(TimedWait(c, wake))) && s.clock.now < wake
    ensures var (r, t) := (Step(s, Act(TimedWait(c, wake))), s.current.value);
            && r.tasks == s.tasks[t := TimedWaiting(c, |s.owner|, wake)] && r.current == None
            && BeginsWait(s, r, c, t)
            && r.clock == Clock(s.clock.now, s.clock.events + [TimeEvent(wake, t)])
            && r.(tasks := s.tasks, current := s.current, owner := s.owner, conds := s.conds, clock := s.clock) == s
  {
    ReachableIsInv(s);
    WaitBegins(s, Step(s, Act(TimedWait(c, wake))), c, s.current.value);
  }

  /** The owners of waits, in the same order. */
  ghost predicate OwnersOf(ts: seq<TaskId>, q: seq<nat>, owner: seq<TaskId>) {
    |ts| == |q| && forall k :: 0 <= k < |q| ==> q[k] < |owner| && ts[k] == owner[q[k]]
  }

  /** `notify_one` touches one condvar and one flag. */
  lemma NotifyOneEffect(s: Sim, c: nat)
    requires Reachable(s) && Enabled(s, Act(NotifyOne(c)))
    ensures var (r, q) := (Step(s, Act(NotifyOne(c))), Fifo(s.conds[c], s.woken));
            && |r.conds| == |s.conds| && (forall d :: 0 <= d < |s.conds| && d != c ==> r.conds[d] == s.conds[d])
            && r.(conds := s.conds, woken := s.woken, ready := s.ready, past := s.past) == s
            && r.past.ones == s.past.ones + 1
  {
  }

  /** `notify_all` empties one condvar, sets the flags of exactly the waits queued there,
      and wakes the owner of each once, in queue order. */
  lemma NotifyAllEffect(s: Sim, c: nat)
    requires Reachable(s) && Enabled(s, Act(NotifyAll(c)))
    ensures var (r, q) := (Step(s, Act(NotifyAll(c))), Fifo(s.conds[c], s.woken));
            && r.conds == s.conds[c := []]
            && (forall w :: w in r.woken <==> w in s.woken || w in q)
            && |r.ready| == |s.ready| + |q| && r.ready[..|s.ready|] == s.ready
            && OwnersOf(r.ready[|s.ready|..], q, s.owner)
            && r.(conds := s.conds, woken := s.woken, ready := s.ready, past := s.past) == s
  {
    ReachableIsInv(s);
    var l, hits := s.conds[c], NotifyEach(s.conds[c], s.woken);
    var r := Step(s, Act(NotifyAll(c)));
    FifoNotifyAll(l, s.woken);
    assert r.ready == s.ready + Wakers(hits);
    assert r.ready[|s.ready|..] == Wakers(hits);
    forall k | 0 <= k < |hits|
      ensures hits[k].wait < |s.owner| && Wakers(hits)[k] == s.owner[Waits(hits)[k]]
    {
      assert hits[k] in hits;
    }
  }

  /** A message goes behind the buffered ones, and the waiting receiver is woken. */
  lemma SendEffect(s: Sim, ch: nat, msg: nat)
    requires Enabled(s, Act(Send(ch, msg)))
    ensures var (r, x) := (Step(s, Act(Send(ch, msg))), s.channels[ch]);
            && r.channels == s.channels[ch := ChannelState(x.messages + [msg], None)]
            && r.ready == s.ready + (if x.waker.Some? then [x.waker.value] else [])
            && r.(channels := s.channels, ready := s.ready, past := s.past) == s
  {
  }

  /** A `recv` that finds messages takes them all; otherwise the task waits for one. */
  lemma RecvEffect(s: Sim, ch: nat)
    requires Enabled(s, Act(Recv(ch)))
    ensures var (r, t, x) := (Step(s, Act(Recv(ch))), s.current.value, s.channels[ch]);
            if x.messages != [] then
              && r.channels == s.channels[ch := ChannelState([], x.waker)]
              && r.(channels := s.channels) == s
            else
              && r.channels == s.channels[ch := ChannelState([], Some(t))]
              && r.tasks == s.tasks[t := Receiving(ch)] && r.current == None
              && r.(channels := s.channels, tasks := s.tasks, current := s.current) == s
  {
  }

  lemma SpawnEffect(s: Sim)
    requires Enabled(s, Act(Spawn))
    ensures var r := Step(s, Act(Spawn));
            && r.tasks == s.tasks + [New] && r.ready == s.ready + [|s.tasks|]
            && r.(tasks := s.tasks, ready := s.ready, past := s.past) == s
  {
  }

  lemma OutsideSpawnEffect(s: Sim)
    requires Enabled(s, External)
    ensures var r := Step(s, External);
            && r.tasks == s.tasks + [New] && r.ready == s.ready + [|s.tasks|]
            && r.(tasks := s.tasks, ready := s.ready, past := s.past) == s
  {
  }

  lemma WakeEffect(s: Sim, t: TaskId)
    requires Enabled(s, Act(Wake(t)))
    ensures var r := Step(s, Act(Wake(t)));
            r.ready == s.ready + [t] && r.(ready := s.ready, past := s.past) == s
  {
  }

  lemma FinishEffect(s: Sim)
    requires Enabled(s, Act(Finish))
    ensures var (r, t) := (Step(s, Act(Finish)), s.current.value);
            && r.tasks == s.tasks[t := Finished] && r.current == None
            && r.(tasks := s.tasks, current := s.current) == s
  {
  }

  /** Whatever is pushed is remembered with the number of advances before it. */
  lemma PushesAreRecorded(s: Sim, op: Op)
    requires Reachable(s) && Enabled(s, Act(op))
    ensures var r := Step(s, Act(op));
            && s.ready <= r.ready
            && |r.past.wakes| == |s.past.wakes| + |r.ready| - |s.ready|
            && (forall k :: 0 <= k < |s.past.wakes| ==> r.past.wakes[k] == s.past.wakes[k])
            && (forall k :: |s.past.wakes| <= k < |r.past.wakes| ==>
                  r.past.wakes[k] == Wakeup(r.ready[k - |s.past.wakes| + |s.ready|], s.past.advances))
  {
    ReachableIsInv(s);
    PerformFrame(s, s.current.value, op);
    RecordsPushes(s, Step(s, Act(op)), Woken(s, op));
  }

  lemma RecordsPushes(s: Sim, r: Sim, ts: seq<TaskId>)
    requires r.ready == s.ready + ts && r.past.wakes == s.past.wakes + Stamped(ts, s.past.advances)
    ensures && s.ready <= r.ready
            && |r.past.wakes| == |s.past.wakes| + |r.ready| - |s.ready|
            && (forall k :: 0 <= k < |s.past.wakes| ==> r.past.wakes[k] == s.past.wakes[k])
            && (forall k :: |s.past.wakes| <= k < |r.past.wakes| ==>
                  r.past.wakes[k] == Wakeup(r.ready[k - |s.past.wakes| + |s.ready|], s.past.advances))
  {
  }

  // ------------------------------------------------------------------
  // Polls
  // ------------------------------------------------------------------

  /** The polled task goes on. */
  ghost predicate Resumes(s: Sim, r: Sim) {
    && s.batch != [] && s.batch[0] < |s.tasks|
    && r.tasks == s.tasks[s.batch[0] := Running] && r.current == Some(s.batch[0])
  }

  /** Every poll uses up one entry of the batch. */
  lemma PollUsesEntry(s: Sim)
    requires Reachable(s) && Enabled(s, PollNext)
    ensures var r := Step(s, PollNext);
            && r.batch == s.batch[1..] && r.ready == s.ready && r.owner == s.owner && r.woken == s.woken
            && r.phase == s.phase && r.past.served == s.past.served + 1
            && r.past == s.past.(served := r.past.served, completed := r.past.completed, expired := r.past.expired)
  {
    ReachableIsInv(s);
    PollFrame(PopBatch(s), s.batch[0]);
  }

  lemma NewPollEffect(s: Sim)
    requires Enabled(s, PollNext) && s.tasks[s.batch[0]] == New
    ensures var r := Step(s, PollNext);
            Resumes(s, r) && r.(tasks := s.tasks, current := s.current, batch := s.batch, past := s.past) == s
  {
  }

  lemma SleepPollEffect(s: Sim, wake: nat)
    requires Enabled(s, PollNext) && s.tasks[s.batch[0]] == Sleeping(wake)
    ensures var r := Step(s, PollNext);
            if s.clock.now >= wake then
              Resumes(s, r) && r.(tasks := s.tasks, current := s.current, batch := s.batch, past := s.past) == s
            else
              && r.clock == Clock(s.clock.now, s.clock.events + [TimeEvent(wake, s.batch[0])])
              && r.(clock := s.clock, batch := s.batch, past := s.past) == s
  {
  }

  /** A waiter that is polled acquires a free mutex and alone leaves its list. */
  lemma FreeLockPollEffect(s: Sim, m: nat, id: nat, wait: Option<nat>)
    requires Reachable(s) && Enabled(s, PollNext) && s.tasks[s.batch[0]] == Locking(m, id, wait)
    requires !s.mutexes[m].isLocked
    ensures var (r, x) := (Step(s, PollNext), s.mutexes[m]);
            && Resumes(s, r) && |r.mutexes| == |s.mutexes| && r.mutexes == s.mutexes[m := r.mutexes[m]]
            && r.mutexes[m] == MutexState(true, x.nextId, r.mutexes[m].waiters, 1)
            && Polled(x.waiters, id, s.batch[0], true, r.mutexes[m].waiters)
            && r.(mutexes := s.mutexes, tasks := s.tasks, current := s.current, batch := s.batch, past := s.past) == s
  {
    ReachableIsInv(s);
    WaiterIsListed(s, s.batch[0], m, id, wait);
    ListedPoll(s.mutexes[m], id, s.batch[0]);
    LockPollSets(PopBatch(s), s.batch[0], m, id, wait);
  }

  /** On a locked mutex a poll of a waiter changes nothing. */
  lemma LockedPollEffect(s: Sim, m: nat, id: nat, wait: Option<nat>)
    requires Reachable(s) && Enabled(s, PollNext) && s.tasks[s.batch[0]] == Locking(m, id, wait)
    requires s.mutexes[m].isLocked
    ensures Step(s, PollNext).(batch := s.batch, past := s.past) == s
  {
    ReachableIsInv(s);
    WaiterIsListed(s, s.batch[0], m, id, wait);
    ListedPoll(s.mutexes[m], id, s.batch[0]);
    LockPollSets(PopBatch(s), s.batch[0], m, id, wait);
    assert s.mutexes[m := s.mutexes[m]] == s.mutexes;
  }

  lemma WaiterIsListed(s: Sim, t: TaskId, m: nat, id: nat, wait: Option<nat>)
    requires Inv(s) && t < |s.tasks| && s.tasks[t] == Locking(m, id, wait)
    ensures m < |s.mutexes| && MutexOk(s.mutexes[m]) && Waiter(id, t) in s.mutexes[m].waiters
  {
    assert Attended(s, t);
    assert MutexSound(s, m);
  }

  /** The poll of a listed waiter, on the mutex alone. */
  lemma ListedPoll(x: MutexState, id: nat, t: TaskId)
    requires MutexOk(x) && Waiter(id, t) in x.waiters
    ensures var (after, got) := PollLock(x, id, t);
            if x.isLocked then !got && after == x
            else
              && got && after == MutexState(true, x.nextId, after.waiters, 1)
              && Polled(x.waiters, id, t, true, after.waiters)
  {
    Mutexes.PollEffect(x, id, t);
    var w := Waiter(id, t);
    assert w in x.waiters && w.id == id;
  }

  lemma LockPollSets(s: Sim, t: TaskId, m: nat, id: nat, wait: Option<nat>)
    requires CanPoll(s, t) && s.tasks[t] == Locking(m, id, wait)
    ensures var (r, (after, got)) := (Poll(s, t), PollLock(s.mutexes[m], id, t));
            && r.mutexes == s.mutexes[m := after]
            && (if got then r.tasks == s.tasks[t := Running] && r.current == Some(t)
                else r.tasks == s.tasks && r.current == s.current && r.past == s.past)
            && r.(mutexes := s.mutexes, tasks := s.tasks, current := s.current, past := s.past) == s
  {
  }

  /** A condition wait that is polled un-woken keeps its place in the queue; one that was
      notified requests its mutex, like a fresh `lock`. */
  lemma WaitPollEffect(s: Sim, c: nat, w: nat, m: nat)
    requires Reachable(s) && Enabled(s, PollNext) && s.tasks[s.batch[0]] == Waiting(c, w, m)
    ensures var (r, t, x) := (Step(s, PollNext), s.batch[0], s.mutexes[m]);
            if w !in s.woken then
              && r.conds == s.conds[c := s.conds[c] + [Entry(w, t)]]
              && Fifo(r.conds[c], r.woken) == Fifo(s.conds[c], s.woken)
              && r.(conds := s.conds, batch := s.batch, past := s.past) == s
            else if x.isLocked then
              && r.mutexes == s.mutexes[m := MutexState(true, x.nextId + 1, x.waiters + [Waiter(x.nextId, t)], 1)]
              && r.tasks == s.tasks[t := Locking(m, x.nextId, Some(w))]
              && r.(mutexes := s.mutexes, tasks := s.tasks, batch := s.batch, past := s.past) == s
            else
              && Resumes(s, r) && r.past.completed == s.past.completed + {w}
              && r.mutexes == s.mutexes[m := MutexState(true, x.nextId + 1, x.waiters, 1)]
              && r.(mutexes := s.mutexes, tasks := s.tasks, current := s.current, batch := s.batch, past := s.past) == s
  {
    ReachableIsInv(s);
    assert MutexSound(s, m) && Attended(s, s.batch[0]);
    LockFresh(s.mutexes[m], s.batch[0]);
    if w !in s.woken {
      QueuedWaitStays(s, c, w, s.batch[0]);
    }
  }

  lemma QueuedWaitStays(s: Sim, c: nat, w: nat, t: TaskId)
    requires c < |s.conds| && Entry(w, t) in s.conds[c] && w !in s.woken
    ensures Fifo(s.conds[c] + [Entry(w, t)], s.woken) == Fifo(s.conds[c], s.woken)
  {
    FifoPoll(s.conds[c], s.woken, Entry(w, t));
    var i :| 0 <= i < |s.conds[c]| && s.conds[c][i] == Entry(w, t);
    assert s.conds[c][i].wait in Fifo(s.conds[c], s.woken);
  }

  lemma SyncWaitPollEffect(s: Sim, c: nat, w: nat)
    requires Reachable(s) && Enabled(s, PollNext) && s.tasks[s.batch[0]] == SyncWaiting(c, w)
    ensures var (r, t) := (Step(s, PollNext), s.batch[0]);
            if w !in s.woken then
              && r.conds == s.conds[c := s.conds[c] + [Entry(w, t)]]
              && Fifo(r.conds[c], r.woken) == Fifo(s.conds[c], s.woken)
              && r.(conds := s.conds, batch := s.batch, past := s.past) == s
            else
              && Resumes(s, r) && r.past.completed == s.past.completed + {w}
              && r.(tasks := s.tasks, current := s.current, batch := s.batch, past := s.past) == s
  {
    ReachableIsInv(s);
    assert Attended(s, s.batch[0]);
    if w !in s.woken {
      QueuedWaitStays(s, c, w, s.batch[0]);
    }
  }

  lemma TimedWaitPollEffect(s: Sim, c: nat, w: nat, wake: nat)
    requires Enabled(s, PollNext) && s.tasks[s.batch[0]] == TimedWaiting(c, w, wake)
    ensures var (r, t) := (Step(s, PollNext), s.batch[0]);
            if w in s.woken || s.clock.now >= wake then
              && Resumes(s, r)
              && r.past.expired == (if w in s.woken then s.past.expired else s.past.expired + {w})
              && r.(tasks := s.tasks, current := s.current, batch := s.batch, past := s.past) == s
            else
              && r.clock == Clock(s.clock.now, s.clock.events + [TimeEvent(wake, t)])
              && r.conds == s.conds[c := s.conds[c] + [Entry(w, t)]]
              && r.(clock := s.clock, conds := s.conds, batch := s.batch, past := s.past) == s
  {
  }

  lemma RecvPollEffect(s: Sim, ch: nat)
    requires Enabled(s, PollNext) && s.tasks[s.batch[0]] == Receiving(ch)
    ensures var (r, t, x) := (Step(s, PollNext), s.batch[0], s.channels[ch]);
            if x.messages == [] then
              && r.channels == s.channels[ch := ChannelState([], Some(t))]
              && r.(channels := s.channels, batch := s.batch, past := s.past) == s
            else
              && Resumes(s, r) && r.channels == s.channels[ch := ChannelState([], x.waker)]
              && r.(channels := s.channels, tasks := s.tasks, current := s.current,
                    batch := s.batch, past := s.past) == s
  {
  }

  // ------------------------------------------------------------------
  // The stream law, over runs
  // ------------------------------------------------------------------

  /** What one choice sends on channel `ch`. */
  function SentBy(choice: Choice, ch: nat): seq<nat> {
    if choice.Act? && choice.op.Send? && choice.op.ch == ch then [choice.op.msg] else []
  }

  /** All messages that a run sends on channel `ch`, in order. */
  ghost function SentIn(chs: seq<Choice>, ch: nat): seq<nat> {
    if chs == [] then [] else SentBy(chs[0], ch) + SentIn(chs[1..], ch)
  }

  /** A task receives from channel `ch`: it runs on from `recv`, newly called or waited for. */
  ghost predicate Receives(s: Sim, choice: Choice, ch: nat)
    requires Enabled(s, choice)
  {
    || (choice == Act(Recv(ch)) && Step(s, choice).current == s.current)
    || (choice == PollNext && s.tasks[s.batch[0]] == Receiving(ch) && Step(s, choice).current == Some(s.batch[0]))
  }

  /** The batches received from channel `ch` along a run: each is the buffer that was
      there when the receiver went on. */
  ghost function ReceivedIn(s: Sim, chs: seq<Choice>, r: Sim, ch: nat): seq<seq<nat>>
    requires Run(s, chs, r)
    decreases |chs|
  {
    if chs == [] then []
    else
      ReceivedBy(s, chs[0], ch) + ReceivedIn(Step(s, chs[0]), chs[1..], r, ch)
  }

  ghost function Joined(batches: seq<seq<nat>>): seq<nat> {
    if batches == [] then [] else batches[0] + Joined(batches[1..])
  }

  /** One step: what was buffered and what is sent is received or buffered. */
  lemma StreamStep(s: Sim, choice: Choice, ch: nat)
    requires Inv(s) && Enabled(s, choice) && ch < |s.channels|
    ensures |Step(s, choice).channels| == |s.channels|
    ensures var (before, after) := (s.channels[ch].messages, Step(s, choice).channels[ch].messages);
            && (if Receives(s, choice, ch) then before != [] && after == [] && SentBy(choice, ch) == []
                else after == before + SentBy(choice, ch))
  {
    match choice
    case PollNext => PollStream(PopBatch(s), s.batch[0], ch);
    case Act(op) => OpStream(s, op, ch);
    case _ =>
  }

  lemma PollStream(s: Sim, t: TaskId, ch: nat)
    requires CanPoll(s, t) && s.tasks[t] != Running && s.current == None && ch < |s.channels|
    ensures |Poll(s, t).channels| == |s.channels|
    ensures var (before, r) := (s.channels[ch].messages, Poll(s, t));
            if s.tasks[t] == Receiving(ch) && r.current == Some(t) then before != [] && r.channels[ch].messages == []
            else r.channels[ch].messages == before
  {
  }

  lemma OpStream(s: Sim, op: Op, ch: nat)
    requires Enabled(s, Act(op)) && ch < |s.channels|
    ensures |Step(s, Act(op)).channels| == |s.channels|
    ensures var (before, r) := (s.channels[ch].messages, Step(s, Act(op)));
            if op == Recv(ch) && r.current == s.current then before != [] && r.channels[ch].messages == []
            else r.channels[ch].messages == before + SentBy(Act(op), ch)
  {
  }

  /** What one step receives from channel `ch`. */
  ghost function ReceivedBy(s: Sim, choice: Choice, ch: nat): seq<seq<nat>>
    requires Enabled(s, choice)
  {
    if ch < |s.channels| && Receives(s, choice, ch) then [s.channels[ch].messages] else []
  }

  /** The law for one step before a run that obeys it. */
  lemma StreamJoins(first: seq<seq<nat>>, rest: seq<seq<nat>>, sent: seq<nat>, later: seq<nat>,
                    a: seq<nat>, b: seq<nat>, c: seq<nat>)
    requires Joined(rest) + c == b + later
    requires if first == [] then b == a + sent else first == [a] && b == [] && sent == []
    ensures Joined(first + rest) + c == a + (sent + later)
  {
    if first == [] {
      assert first + rest == rest;
      assert (a + sent) + later == a + (sent + later);
    } else {
      assert (first + rest)[1..] == rest;
      assert Joined(first + rest) + c == a + (Joined(rest) + c);
      assert sent + later == later;
    }
  }

  /** The stream law: on every run and every channel, the batches received and then the
      buffer are what was buffered at first and then what was sent; no batch is empty. */
  lemma {:induction false} StreamLaw(s: Sim, chs: seq<Choice>, r: Sim, ch: nat)
    requires Inv(s) && Run(s, chs, r) && ch < |s.channels|
    ensures ch < |r.channels|
    ensures Joined(ReceivedIn(s, chs, r, ch)) + r.channels[ch].messages == s.channels[ch].messages + SentIn(chs, ch)
    ensures forall b :: b in ReceivedIn(s, chs, r, ch) ==> b != []
    decreases |chs|
  {
    if chs == [] {
      assert s.channels[ch].messages + [] == s.channels[ch].messages;
    } else {
      var n := Step(s, chs[0]);
      StreamStep(s, chs[0], ch);
      StepKeepsInv(s, chs[0]);
      StreamLaw(n, chs[1..], r, ch);
      StreamJoins(ReceivedBy(s, chs[0], ch), ReceivedIn(n, chs[1..], r, ch), SentBy(chs[0], ch), SentIn(chs[1..], ch),
                  s.channels[ch].messages, n.channels[ch].messages, r.channels[ch].messages);
    }
  }

  /** From the start, everything received or buffered was sent, in the order of sending. */
  lemma AllThatIsSentArrives(mutexes: nat, conds: nat, channels: nat, chs: seq<Choice>, r: Sim, ch: nat)
    requires Run(Begin(mutexes, conds, channels), chs, r) && ch < channels
    ensures ch < |r.channels|
    ensures Joined(ReceivedIn(Begin(mutexes, conds, channels), chs, r, ch)) + r.channels[ch].messages == SentIn(chs, ch)
  {
    BeginIsFine(mutexes, conds, channels);
    StreamFromEmpty(Begin(mutexes, conds, channels), chs, r, ch);
  }

  lemma StreamFromEmpty(s: Sim, chs: seq<Choice>, r: Sim, ch: nat)
    requires Inv(s) && Run(s, chs, r) && ch < |s.channels| && s.channels[ch].messages == []
    ensures ch < |r.channels| && Joined(ReceivedIn(s, chs, r, ch)) + r.channels[ch].messages == SentIn(chs, ch)
  {
    StreamLaw(s, chs, r, ch);
    assert [] + SentIn(chs, ch) == SentIn(chs, ch);
  }

  /** A receiver in a deadlock has received everything that was ever sent to it. */
  lemma StuckReceiverMissesNothing(mutexes: nat, conds: nat, channels: nat, chs: seq<Choice>, r: Sim,
                                   t: TaskId, ch: nat)
    requires Run(Begin(mutexes, conds, channels), chs, r) && Idle(r)
    requires ch < channels && t < |r.tasks| && r.tasks[t] == Receiving(ch)
    ensures Joined(ReceivedIn(Begin(mutexes, conds, channels), chs, r, ch)) == SentIn(chs, ch)
  {
    assert Reaches(Begin(mutexes, conds, channels), r);
    IdleMeansDeadlock(r, t);
    AllThatIsSentArrives(mutexes, conds, channels, chs, r, ch);
  }

  // ------------------------------------------------------------------
  // Lock guards, over runs
  // ------------------------------------------------------------------

  /** A guard of mutex `m` is dropped: by the running task, or handed to a condition wait. */
  predicate Drops(choice: Choice, m: nat) {
    choice.Act? && (choice.op == Unlock(m) || (choice.op.CondWait? && choice.op.m == m))
  }

  /** A task goes on with a new guard of mutex `m`. */
  ghost predicate Acquires(s: Sim, choice: Choice, m: nat)
    requires Enabled(s, choice)
  {
    || (choice == Act(Lock(m)) && Step(s, choice).current == s.current)
    || (choice == PollNext && Step(s, choice).current == Some(s.batch[0])
        && match s.tasks[s.batch[0]]
           case Locking(n, _, _) => n == m
           case Waiting(_, _, n) => n == m
           case _ => false)
  }

  ghost function AcquiredIn(s: Sim, chs: seq<Choice>, r: Sim, m: nat): nat
    requires Run(s, chs, r)
    decreases |chs|
  {
    if chs == [] then 0
    else (if Acquires(s, chs[0], m) then 1 else 0) + AcquiredIn(Step(s, chs[0]), chs[1..], r, m)
  }

  ghost function DroppedIn(chs: seq<Choice>, m: nat): nat {
    if chs == [] then 0 else (if Drops(chs[0], m) then 1 else 0) + DroppedIn(chs[1..], m)
  }

  lemma PollGuards(s: Sim, t: TaskId, m: nat)
    requires CanPoll(s, t) && s.tasks[t] != Running && s.current == None && m < |s.mutexes|
    ensures |Poll(s, t).mutexes| == |s.mutexes|
    ensures var (before, r) := (s.mutexes[m], Poll(s, t));
            var locks := (match s.tasks[t]
                          case Locking(n, _, _) => n == m
                          case Waiting(_, _, n) => n == m
                          case _ => false);
            if locks && r.current == Some(t) then !before.isLocked && r.mutexes[m].guards == before.guards + 1
            else r.mutexes[m].guards == before.guards
  {
  }

  lemma OpGuards(s: Sim, op: Op, m: nat)
    requires Enabled(s, Act(op)) && s.tasks[s.current.value] == Running && m < |s.mutexes|
    ensures |Step(s, Act(op)).mutexes| == |s.mutexes|
    ensures var (before, r) := (s.mutexes[m], Step(s, Act(op)));
            if op == Lock(m) && r.current == s.current then !before.isLocked && r.mutexes[m].guards == before.guards + 1
            else if Drops(Act(op), m) then before.guards > 0 && r.mutexes[m].guards == before.guards - 1
            else r.mutexes[m].guards == before.guards
  {
  }

  lemma GuardStep(s: Sim, choice: Choice, m: nat)
    requires Inv(s) && Enabled(s, choice) && m < |s.mutexes|
    ensures var r := Step(s, choice);
            && |r.mutexes| == |s.mutexes|
            && r.mutexes[m].guards + (if Drops(choice, m) then 1 else 0)
               == s.mutexes[m].guards + (if Acquires(s, choice, m) then 1 else 0)
            && (Acquires(s, choice, m) ==> !s.mutexes[m].isLocked)
  {
    match choice
    case PollNext => PollGuards(PopBatch(s), s.batch[0], m);
    case Act(op) => OpGuards(s, op, m);
    case _ =>
  }

  /** Guards are conserved: on every run the guards that are live are those that were,
      and those acquired since, without those dropped; a mutex is locked by at most one,
      and never acquired while it is locked. */
  lemma {:induction false} GuardLaw(s: Sim, chs: seq<Choice>, r: Sim, m: nat)
    requires Inv(s) && Run(s, chs, r) && m < |s.mutexes|
    ensures m < |r.mutexes| && r.mutexes[m].guards + DroppedIn(chs, m) == s.mutexes[m].guards + AcquiredIn(s, chs, r, m)
    ensures r.mutexes[m].guards <= 1 && (r.mutexes[m].isLocked <==> r.mutexes[m].guards == 1)
    decreases |chs|
  {
    if chs == [] {
      assert MutexSound(s, m);
    } else {
      GuardStep(s, chs[0], m);
      StepKeepsInv(s, chs[0]);
      GuardLaw(Step(s, chs[0]), chs[1..], r, m);
    }
  }

  /** So a mutex is locked exactly while one more guard was acquired than dropped. */
  lemma LockedWhileHeld(mutexes: nat, conds: nat, channels: nat, chs: seq<Choice>, r: Sim, m: nat)
    requires Run(Begin(mutexes, conds, channels), chs, r) && m < mutexes
    ensures m < |r.mutexes|
    ensures var held := AcquiredIn(Begin(mutexes, conds, channels), chs, r, m) - DroppedIn(chs, m);
            0 <= held <= 1 && (r.mutexes[m].isLocked <==> held == 1)
  {
    BeginIsFine(mutexes, conds, channels);
    GuardLaw(Begin(mutexes, conds, channels), chs, r, m);
  }
}
