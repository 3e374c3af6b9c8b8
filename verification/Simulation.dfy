/** The whole simulator as one transition system: the loop of `Runtime::block_on`
    over arbitrary tasks that sleep, lock, wait, notify, send, receive and spawn.

    A future is a script position: what its task is suspended on. While a task runs
    it performs any operations in any order, so every program is covered; wakers are
    task identifiers. Each operation uses the functions that the mutable classes are
    proved against. */
module Simulation {
  import opened Prelude
  import opened Tasks
  import opened Timing
  import opened Mutexes
  import opened Condvars
  import opened Channels

  /** What a task is suspended on. `Locking.wait` is the condition wait that the
      lock request belongs to, if any. */
  datatype Status =
    | New
    | Running
    | Sleeping(wake: nat)
    | Locking(m: nat, id: nat, wait: Option<nat>)
    | Waiting(c: nat, w: nat, m: nat)
    | SyncWaiting(c: nat, w: nat)
    | TimedWaiting(c: nat, w: nat, wake: nat)
    | Receiving(ch: nat)
    | Finished

  /** Operations of a running task. A sleep or a timed wait is given by its wake
      time, which was fixed when the future was created, perhaps long before. `Wake`
      calls a waker of any task, itself included, for no reason known here. */
  datatype Op =
    | Sleep(wake: nat)
    | Lock(m: nat)
    | Unlock(m: nat)
    | CondWait(c: nat, m: nat)
    | SyncWait(c: nat)
    | TimedWait(c: nat, wake: nat)
    | NotifyOne(c: nat)
    | NotifyAll(c: nat)
    | Send(ch: nat, msg: nat)
    | Recv(ch: nat)
    | Spawn
    | Wake(t: TaskId)
    | Finish

  datatype Wakeup = Wakeup(task: TaskId, stamp: nat)

  /** A record of the past that no step reads: every push on the ready queue with
      the number of advances before it, how many pushes were served, the number of
      `notify_one` calls, the waits that `notify_all` calls found queued, the un-timed
      waits that returned, and the timed waits that ended without a notification. */
  datatype History = History(
    wakes: seq<Wakeup>, served: nat, advances: nat, ones: nat, covered: nat, completed: set<nat>, expired: set<nat>)

  const NoPast: History := History([], 0, 0, 0, 0, {}, {})

  datatype Sim = Sim(
    phase: Phase,
    clock: Clock,
    ready: seq<TaskId>,
    batch: seq<TaskId>,
    current: Option<TaskId>,
    tasks: seq<Status>,
    mutexes: seq<MutexState>,
    conds: seq<seq<Entry<nat>>>,
    owner: seq<TaskId>,
    woken: set<nat>,
    channels: seq<ChannelState<nat>>,
    past: History)

  datatype Choice = External | Take | PollNext | Act(op: Op) | Advance(i: nat)

  function Begin(mutexes: nat, conds: nat, channels: nat): Sim {
    Sim(Head, Start, [], [], None, [],
        seq(mutexes, _ => Unlocked), seq(conds, _ => []), [], {}, seq(channels, _ => ChannelState([], None)),
        NoPast)
  }

  // ------------------------------------------------------------------
  // Effects
  // ------------------------------------------------------------------

  function Stamped(ts: seq<TaskId>, stamp: nat): (ws: seq<Wakeup>)
    ensures |ws| == |ts| && forall i :: 0 <= i < |ts| ==> ws[i] == Wakeup(ts[i], stamp)
  {
    seq(|ts|, i requires 0 <= i < |ts| => Wakeup(ts[i], stamp))
  }

  function WakeAll(s: Sim, ts: seq<TaskId>): Sim {
    s.(ready := s.ready + ts, past := s.past.(wakes := s.past.wakes + Stamped(ts, s.past.advances)))
  }

  function WakeOpt(s: Sim, t: Option<TaskId>): Sim {
    WakeAll(s, if t.Some? then [t.value] else [])
  }

  function Resume(s: Sim, t: TaskId): Sim
    requires t < |s.tasks|
  {
    s.(tasks := s.tasks[t := Running], current := Some(t))
  }

  function Suspend(s: Sim, t: TaskId, status: Status): Sim
    requires t < |s.tasks|
  {
    s.(tasks := s.tasks[t := status], current := None)
  }

  function Enlist(s: Sim, c: nat, w: nat, t: TaskId): Sim
    requires c < |s.conds|
  {
    s.(conds := s.conds[c := s.conds[c] + [Entry(w, t)]])
  }

  function Acquired(s: Sim, t: TaskId, wait: Option<nat>): Sim
    requires t < |s.tasks|
  {
    Resume(s, t).(past := s.past.(completed := s.past.completed + (if wait.Some? then {wait.value} else {})))
  }

  /** `lock` and the first poll of its future, for a task or for a notified wait. */
  function StartLock(s: Sim, t: TaskId, m: nat, wait: Option<nat>): Sim
    requires t < |s.tasks| && m < |s.mutexes|
  {
    var (after, got) := LockNow(s.mutexes[m], t);
    var s' := s.(mutexes := s.mutexes[m := after]);
    if got then Acquired(s', t, wait) else Suspend(s', t, Locking(m, s.mutexes[m].nextId, wait))
  }

  function Release(s: Sim, m: nat): Sim
    requires m < |s.mutexes| && s.mutexes[m].guards > 0
  {
    var (after, head) := DropGuard(s.mutexes[m]);
    WakeOpt(s.(mutexes := s.mutexes[m := after]), head)
  }

  // ------------------------------------------------------------------
  // One poll of a suspended task
  // ------------------------------------------------------------------

  predicate InRange(s: Sim, st: Status) {
    match st
    case Locking(m, _, _) => m < |s.mutexes|
    case Waiting(c, _, m) => c < |s.conds| && m < |s.mutexes|
    case SyncWaiting(c, _) => c < |s.conds|
    case TimedWaiting(c, _, _) => c < |s.conds|
    case Receiving(ch) => ch < |s.channels|
    case _ => true
  }

  /** The one panic a poll can run into is the overflow of a waiter identifier. */
  predicate CanPoll(s: Sim, t: TaskId) {
    && t < |s.tasks| && InRange(s, s.tasks[t])
    && (s.tasks[t].Waiting? && s.tasks[t].w in s.woken ==> CanTicket(s.mutexes[s.tasks[t].m]))
  }

  function Poll(s: Sim, t: TaskId): Sim
    requires CanPoll(s, t)
  {
    match s.tasks[t]
    case New => Resume(s, t)
    case Running => s
    case Finished => s
    case Sleeping(wake) =>
      var (clock, ready) := PollSleep(s.clock, wake, t);
      if ready then Resume(s, t) else s.(clock := clock)
    case Locking(m, id, wait) =>
      var (after, got) := PollLock(s.mutexes[m], id, t);
      var s' := s.(mutexes := s.mutexes[m := after]);
      if got then Acquired(s', t, wait) else s'
    case Waiting(c, w, m) =>
      if w in s.woken then StartLock(s, t, m, Some(w)) else Enlist(s, c, w, t)
    case SyncWaiting(c, w) =>
      if w in s.woken then Acquired(s, t, Some(w)) else Enlist(s, c, w, t)
    case TimedWaiting(c, w, wake) =>
      if w in s.woken then Resume(s, t)
      else
        var (clock, ready) := PollSleep(s.clock, wake, t);
        if ready then Resume(s, t).(past := s.past.(expired := s.past.expired + {w}))
        else Enlist(s.(clock := clock), c, w, t)
    case Receiving(ch) =>
      var (after, got) := PollRecv(s.channels[ch], t);
      var s' := s.(channels := s.channels[ch := after]);
      if got.Some? then Resume(s', t) else s'
  }

  // ------------------------------------------------------------------
  // One operation of the running task
  // ------------------------------------------------------------------

  /** At most one task may be receiving on a channel, since it stores one waker. */
  predicate Legal(s: Sim, op: Op) {
    match op
    case Lock(m) => m < |s.mutexes| && CanTicket(s.mutexes[m])
    case Unlock(m) => m < |s.mutexes| && s.mutexes[m].guards > 0
    case CondWait(c, m) => c < |s.conds| && m < |s.mutexes| && s.mutexes[m].guards > 0
    case SyncWait(c) => c < |s.conds|
    case TimedWait(c, _) => c < |s.conds|
    case NotifyOne(c) => c < |s.conds|
    case NotifyAll(c) => c < |s.conds|
    case Send(ch, _) => ch < |s.channels|
    case Recv(ch) => ch < |s.channels| && forall t :: 0 <= t < |s.tasks| ==> s.tasks[t] != Receiving(ch)
    case Wake(t) => t < |s.tasks|
    case _ => true
  }

  function WaitsOfHits(hits: seq<Entry<nat>>): set<nat> {
    set w | w in Waits(hits)
  }

  function Perform(s: Sim, t: TaskId, op: Op): Sim
    requires t < |s.tasks| && Legal(s, op)
  {
    match op
    case Sleep(wake) =>
      var (clock, ready) := PollSleep(s.clock, wake, t);
      if ready then s else Suspend(s.(clock := clock), t, Sleeping(wake))
    case Lock(m) => StartLock(s, t, m, None)
    case Unlock(m) => Release(s, m)
    case CondWait(c, m) =>
      var w := |s.owner|;
      Suspend(Enlist(Release(s, m).(owner := s.owner + [t]), c, w, t), t, Waiting(c, w, m))
    case SyncWait(c) =>
      var w := |s.owner|;
      Suspend(Enlist(s.(owner := s.owner + [t]), c, w, t), t, SyncWaiting(c, w))
    case TimedWait(c, wake) =>
      var w := |s.owner|;
      var (clock, ready) := PollSleep(s.clock, wake, t);
      if ready then s.(owner := s.owner + [t])
      else Suspend(Enlist(s.(clock := clock, owner := s.owner + [t]), c, w, t), t, TimedWaiting(c, w, wake))
    case NotifyOne(c) =>
      var (rest, hit) := NotifyFirst(s.conds[c], s.woken);
      var s' := s.(conds := s.conds[c := rest], past := s.past.(ones := s.past.ones + 1));
      if hit.None? then s' else WakeAll(s'.(woken := s.woken + {hit.value.wait}), [hit.value.task])
    case NotifyAll(c) =>
      var hits := NotifyEach(s.conds[c], s.woken);
      WakeAll(s.(conds := s.conds[c := []], woken := s.woken + WaitsOfHits(hits),
                 past := s.past.(covered := s.past.covered + |hits|)), Wakers(hits))
    case Send(ch, msg) =>
      WakeOpt(s.(channels := s.channels[ch := SendTo(s.channels[ch], msg)]), s.channels[ch].waker)
    case Recv(ch) =>
      var (after, got) := PollRecv(s.channels[ch], t);
      var s' := s.(channels := s.channels[ch := after]);
      if got.Some? then s' else Suspend(s', t, Receiving(ch))
    case Spawn => WakeAll(s.(tasks := s.tasks + [New]), [|s.tasks|])
    case Wake(u) => WakeAll(s, [u])
    case Finish => Suspend(s, t, Finished)
  }

  // ------------------------------------------------------------------
  // Steps and runs
  // ------------------------------------------------------------------

  function PopBatch(s: Sim): Sim
    requires s.batch != []
  {
    s.(batch := s.batch[1..], past := s.past.(served := s.past.served + 1))
  }

  predicate Enabled(s: Sim, ch: Choice) {
    match ch
    case External => s.phase == Head
    case Take => s.phase == Head
    case PollNext => s.phase == Polling && s.current == None && s.batch != [] && CanPoll(s, s.batch[0])
    case Act(op) => s.current.Some? && s.current.value < |s.tasks| && Legal(s, op)
    case Advance(i) =>
      && s.phase == Polling && s.current == None && s.batch == []
      && (s.clock.events == [] || IsEarliest(s.clock.events, i))
  }

  /** `External` is a spawn from outside the loop, such as the one in `block_on`. */
  function Step(s: Sim, ch: Choice): Sim
    requires Enabled(s, ch)
  {
    match ch
    case External => WakeAll(s.(tasks := s.tasks + [New]), [|s.tasks|])
    case Take => s.(phase := Polling, batch := s.ready, ready := [])
    case PollNext => Poll(PopBatch(s), s.batch[0])
    case Act(op) => Perform(s, s.current.value, op)
    case Advance(i) =>
      if s.clock.events == [] then s.(phase := Head)
      else
        WakeAll(s.(phase := Head, clock := Pop(s.clock, i), past := s.past.(advances := s.past.advances + 1)),
                [s.clock.events[i].task])
  }

  ghost predicate Run(s: Sim, chs: seq<Choice>, r: Sim)
    decreases |chs|
  {
    if chs == [] then r == s
    else Enabled(s, chs[0]) && Run(Step(s, chs[0]), chs[1..], r)
  }

  ghost predicate Reaches(s: Sim, r: Sim) {
    exists chs :: Run(s, chs, r)
  }

  /** The states of all runs, over any number of primitives and any tasks. */
  ghost predicate Reachable(s: Sim) {
    exists mutexes, conds, channels :: Reaches(Begin(mutexes, conds, channels), s)
  }

  lemma {:induction false} RunExtends(s: Sim, chs: seq<Choice>, r: Sim, ch: Choice)
    requires Run(s, chs, r) && Enabled(r, ch)
    ensures Run(s, chs + [ch], Step(r, ch))
    decreases |chs|
  {
    if chs == [] {
      assert [ch][1..] == [];
    } else {
      assert (chs + [ch])[0] == chs[0] && (chs + [ch])[1..] == chs[1..] + [ch];
      RunExtends(Step(s, chs[0]), chs[1..], r, ch);
    }
  }

  lemma ReachesStep(s: Sim, r: Sim, ch: Choice)
    requires Reaches(s, r) && Enabled(r, ch)
    ensures Reaches(s, Step(r, ch))
  {
    var chs :| Run(s, chs, r);
    RunExtends(s, chs, r, ch);
  }

  lemma ReachesSelf(s: Sim)
    ensures Reaches(s, s)
  {
    assert Run(s, [], s);
  }

  ghost predicate OneStep(s: Sim, r: Sim) {
    exists ch :: Enabled(s, ch) && r == Step(s, ch)
  }

  /** A run may start with one more step. */
  lemma ReachesAfterStep(s: Sim, n: Sim, r: Sim)
    requires OneStep(s, n) && Reaches(n, r)
    ensures Reaches(s, r)
  {
    var ch :| Enabled(s, ch) && n == Step(s, ch);
    var chs :| Run(n, chs, r);
    assert ([ch] + chs)[1..] == chs;
    assert Run(s, [ch] + chs, r);
  }

  lemma {:induction false} RunConcat(s: Sim, a: seq<Choice>, m: Sim, b: seq<Choice>, r: Sim)
    requires Run(s, a, m) && Run(m, b, r)
    ensures Run(s, a + b, r)
    decreases |a|
  {
    if a == [] {
      assert a + b == b;
    } else {
      assert (a + b)[0] == a[0] && (a + b)[1..] == a[1..] + b;
      RunConcat(Step(s, a[0]), a[1..], m, b, r);
    }
  }

  lemma ReachesTransitive(s: Sim, m: Sim, r: Sim)
    requires Reaches(s, m) && Reaches(m, r)
    ensures Reaches(s, r)
  {
    var a :| Run(s, a, m);
    var b :| Run(m, b, r);
    RunConcat(s, a, m, b, r);
  }
}
