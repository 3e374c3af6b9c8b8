/** What the simulator guarantees on every run of `block_on`, whatever its tasks do. */
module Guarantees {
  import opened Prelude
  import opened Tasks
  import opened Timing
  import opened Mutexes
  import opened Condvars
  import opened Channels
  import opened Simulation
  import opened Invariants

  // ------------------------------------------------------------------
  // Nobody is orphaned
  // ------------------------------------------------------------------

  /** Registered with what it waits for: the heap at its own wake time, a mutex, a
      condition variable that has not notified it, or the waker of an empty channel. */
  ghost predicate Registered(s: Sim, t: TaskId)
    requires t < |s.tasks|
  {
    match s.tasks[t]
    case Sleeping(wake) => TimeEvent(wake, t) in s.clock.events
    case TimedWaiting(_, _, wake) => TimeEvent(wake, t) in s.clock.events
    case Locking(m, id, _) => m < |s.mutexes| && Waiter(id, t) in s.mutexes[m].waiters
    case Waiting(c, w, _) => w !in s.woken && c < |s.conds| && Entry(w, t) in s.conds[c]
    case SyncWaiting(c, w) => w !in s.woken && c < |s.conds| && Entry(w, t) in s.conds[c]
    case Receiving(ch) => ch < |s.channels| && s.channels[ch] == ChannelState([], Some(t))
    case _ => false
  }

  lemma NoOrphans(s: Sim, t: TaskId)
    requires Reachable(s) && t < |s.tasks| && s.tasks[t] != Finished && s.current != Some(t)
    ensures Queued(s, t) || Registered(s, t)
  {
    ReachableIsInv(s);
    assert Attended(s, t);
    assert OnTime(s.clock, Due(s), t, WakeOf(s.tasks[t]));
  }

  /** The loop spins without effect: nothing is ready and no event is pending. */
  predicate Idle(s: Sim) {
    s.current == None && s.ready == [] && s.batch == [] && s.clock.events == []
  }

  /** An idle simulator is a genuine deadlock: each unfinished task waits for a held
      mutex, a notification that was not given, or a message that was not sent. */
  lemma IdleMeansDeadlock(s: Sim, t: TaskId)
    requires Reachable(s) && Idle(s) && t < |s.tasks| && s.tasks[t] != Finished
    ensures match s.tasks[t]
            case Locking(m, _, _) => m < |s.mutexes| && s.mutexes[m].isLocked
            case Waiting(c, w, _) => w !in s.woken
            case SyncWaiting(c, w) => w !in s.woken
            case Receiving(ch) => ch < |s.channels| && s.channels[ch].messages == []
            case _ => false
  {
    NoOrphans(s, t);
    ReachableIsInv(s);
    if s.tasks[t].Locking? {
      assert MutexSound(s, s.tasks[t].m);
    }
  }

  // ------------------------------------------------------------------
  // Time
  // ------------------------------------------------------------------

  lemma {:induction false} TimeNeverDecreases(s: Sim, chs: seq<Choice>, r: Sim)
    requires Inv(s) && Run(s, chs, r)
    ensures s.clock.now <= r.clock.now
    decreases |chs|
  {
    if chs != [] {
      StepKeepsInv(s, chs[0]);
      StepTime(s, chs[0]);
      TimeNeverDecreases(Step(s, chs[0]), chs[1..], r);
    }
  }

  /** Only an advance moves the clock, to the earliest pending event. */
  lemma StepTime(s: Sim, ch: Choice)
    requires Inv(s) && Enabled(s, ch)
    ensures s.clock.now <= Step(s, ch).clock.now
    ensures s.clock.now != Step(s, ch).clock.now ==>
              ch.Advance? && forall e :: e in s.clock.events ==> Step(s, ch).clock.now <= e.wakeTime
  {
    if ch.Advance? && s.clock.events != [] {
      assert s.clock.events[ch.i] in s.clock.events;
    }
  }

  /** One step of a task that sleeps or waits with a deadline: the clock is not past
      its wake time, and it goes on exactly at that time, or was notified. */
  lemma WakeStep(s: Sim, ch: Choice, t: TaskId)
    requires Inv(s) && Enabled(s, ch) && t < |s.tasks| && WakeOf(s.tasks[t]).Some?
    ensures var (r, wake) := (Step(s, ch), WakeOf(s.tasks[t]).value);
            && s.clock.now <= wake && t < |r.tasks|
            && (|| r.tasks[t] == s.tasks[t]
                || (&& r.tasks[t] == Running && r.clock.now <= wake
                    && (r.clock.now == wake || (s.tasks[t].TimedWaiting? && s.tasks[t].w in s.woken))))
  {
    assert OnTime(s.clock, Due(s), t, WakeOf(s.tasks[t]));
    if ch.PollNext? {
      PollFrame(PopBatch(s), s.batch[0]);
    } else if ch.Act? {
      PerformFrame(s, s.current.value, ch.op);
    }
  }

  /** Between `s` and `r`, task `t` resumed from what it was suspended on in `s`, in
      the step from `before` to `after`. */
  ghost predicate Resumed(s: Sim, r: Sim, t: TaskId, before: Sim, after: Sim) {
    && Reaches(s, before) && OneStep(before, after) && Reaches(after, r)
    && t < |s.tasks| && t < |before.tasks| && t < |after.tasks|
    && before.tasks[t] == s.tasks[t] && after.tasks[t] == Running
  }

  /** The first step of a run at which a sleeping task stops sleeping resumes it. */
  lemma {:induction false} FindResumption(s: Sim, chs: seq<Choice>, r: Sim, t: TaskId)
    requires Inv(s) && Run(s, chs, r) && t < |s.tasks| && WakeOf(s.tasks[t]).Some?
    ensures t < |r.tasks|
    ensures r.tasks[t] == s.tasks[t] || exists before, after :: Inv(before) && Resumed(s, r, t, before, after)
    decreases |chs|
  {
    if chs != [] {
      var n := Step(s, chs[0]);
      assert OneStep(s, n) && Reaches(n, r);
      WakeStep(s, chs[0], t);
      StepKeepsInv(s, chs[0]);
      TaskCountGrows(n, chs[1..], r);
      ReachesSelf(s);
      if n.tasks[t] == s.tasks[t] {
        FindResumption(n, chs[1..], r, t);
        if before, after :| Inv(before) && Resumed(n, r, t, before, after) {
          ReachesAfterStep(s, n, before);
          assert Resumed(s, r, t, before, after);
        }
      } else {
        assert Resumed(s, r, t, s, n);
      }
    }
  }

  lemma {:induction false} TaskCountGrows(s: Sim, chs: seq<Choice>, r: Sim)
    requires Run(s, chs, r)
    ensures |s.tasks| <= |r.tasks|
    decreases |chs|
  {
    if chs != [] {
      StepTaskCount(s, chs[0]);
      TaskCountGrows(Step(s, chs[0]), chs[1..], r);
    }
  }

  lemma StepTaskCount(s: Sim, ch: Choice)
    requires Enabled(s, ch)
    ensures |s.tasks| <= |Step(s, ch).tasks|
  {
  }

  /** What `WakeStep` says about the step found by `FindResumption`. */
  lemma ResumeClock(before: Sim, after: Sim, t: TaskId)
    requires Inv(before) && OneStep(before, after) && t < |before.tasks| && WakeOf(before.tasks[t]).Some?
    requires t < |after.tasks| && after.tasks[t] == Running
    ensures var wake := WakeOf(before.tasks[t]).value;
            && after.clock.now <= wake
            && (after.clock.now == wake || (before.tasks[t].TimedWaiting? && before.tasks[t].w in before.woken))
  {
    var ch :| Enabled(before, ch) && after == Step(before, ch);
    WakeStep(before, ch, t);
  }

  ghost predicate ResumedInTime(s: Sim, r: Sim, t: TaskId, wake: nat, before: Sim, after: Sim)
    requires t < |s.tasks|
  {
    && Resumed(s, r, t, before, after) && after.clock.now <= wake
    && (after.clock.now < wake ==> s.tasks[t].TimedWaiting? && s.tasks[t].w in before.woken)
  }

  /** Nobody oversleeps: until it resumes, the clock has not passed its wake time; it
      resumes no later, and before only from a timed wait that was notified. */
  lemma NobodyOversleeps(s: Sim, r: Sim, t: TaskId)
    requires Reachable(s) && Reaches(s, r) && t < |s.tasks| && WakeOf(s.tasks[t]).Some?
    ensures t < |r.tasks|
    ensures var wake := WakeOf(s.tasks[t]).value;
            || (r.tasks[t] == s.tasks[t] && r.clock.now <= wake)
            || exists before, after :: ResumedInTime(s, r, t, wake, before, after)
  {
    ReachableIsInv(s);
    var chs :| Run(s, chs, r);
    RunKeepsInv(s, chs, r);
    FindResumption(s, chs, r, t);
    if r.tasks[t] == s.tasks[t] {
      assert OnTime(r.clock, Due(r), t, WakeOf(r.tasks[t]));
    } else {
      var before, after :| Inv(before) && Resumed(s, r, t, before, after);
      ResumeClock(before, after, t);
      assert ResumedInTime(s, r, t, WakeOf(s.tasks[t]).value, before, after);
    }
  }

  /** Punctual sleep. A task sleeping until `wake` either still sleeps, and the clock
      has not passed `wake`, or it resumed in a state whose clock was exactly `wake`. */
  lemma SleepIsPunctual(s: Sim, r: Sim, t: TaskId, wake: nat)
    requires Reachable(s) && Reaches(s, r) && t < |s.tasks| && s.tasks[t] == Sleeping(wake)
    ensures t < |r.tasks|
    ensures || (r.tasks[t] == Sleeping(wake) && r.clock.now <= wake)
            || exists before, after :: Resumed(s, r, t, before, after) && after.clock.now == wake
  {
    NobodyOversleeps(s, r, t);
    if before, after :| ResumedInTime(s, r, t, wake, before, after) {
      assert Resumed(s, r, t, before, after) && after.clock.now == wake;
    }
  }

  /** A `sleep(d)` awaited where it is created, at time `now`: a zero sleep goes on at
      once, any other ends when the clock shows exactly `now + d`. */
  lemma SleepTakesItsTime(s: Sim, d: nat, r: Sim)
    requires Reachable(s) && Enabled(s, Act(Sleep(s.clock.now + d)))
    requires Reaches(Step(s, Act(Sleep(s.clock.now + d))), r)
    ensures var (n, t, wake) := (Step(s, Act(Sleep(s.clock.now + d))), s.current.value, s.clock.now + d);
            if d == 0 then n == s
            else
              && t < |r.tasks|
              && (|| (r.tasks[t] == Sleeping(wake) && r.clock.now <= wake)
                  || exists before, after :: Resumed(n, r, t, before, after) && after.clock.now == wake)
  {
    if d > 0 {
      var n := Step(s, Act(Sleep(s.clock.now + d)));
      ReachableStep(s, Act(Sleep(s.clock.now + d)));
      SleepIsPunctual(n, r, s.current.value, s.clock.now + d);
    }
  }

  lemma ReachableStep(s: Sim, ch: Choice)
    requires Reachable(s) && Enabled(s, ch)
    ensures Reachable(Step(s, ch))
  {
    var mutexes, conds, channels :| Reaches(Begin(mutexes, conds, channels), s);
    ReachesStep(Begin(mutexes, conds, channels), s, ch);
  }

  /** A wait with a deadline returns no later than its deadline, and before it only
      if it was notified, even when the clock moves between the two. */
  lemma TimedWaitMeetsDeadline(s: Sim, r: Sim, t: TaskId, c: nat, w: nat, wake: nat)
    requires Reachable(s) && Reaches(s, r) && t < |s.tasks| && s.tasks[t] == TimedWaiting(c, w, wake)
    ensures t < |r.tasks|
    ensures || (r.tasks[t] == TimedWaiting(c, w, wake) && r.clock.now <= wake)
            || exists before, after :: Resumed(s, r, t, before, after) && after.clock.now <= wake
                                    && (after.clock.now < wake ==> w in before.woken)
  {
    NobodyOversleeps(s, r, t);
    if before, after :| ResumedInTime(s, r, t, wake, before, after) {
      assert Resumed(s, r, t, before, after) && after.clock.now <= wake;
      assert after.clock.now < wake ==> w in before.woken;
    }
  }

  /** A `wait_with_timeout(d)` awaited where it is created, at time `now`. */
  lemma TimedWaitTakesItsTime(s: Sim, c: nat, d: nat, r: Sim)
    requires Reachable(s) && Enabled(s, Act(TimedWait(c, s.clock.now + d))) && d > 0
    requires Reaches(Step(s, Act(TimedWait(c, s.clock.now + d))), r)
    ensures var (n, wake) := (Step(s, Act(TimedWait(c, s.clock.now + d))), s.clock.now + d);
            var (t, w) := (s.current.value, |s.owner|);
            && t < |r.tasks|
            && (|| (r.tasks[t] == TimedWaiting(c, w, wake) && r.clock.now <= wake)
                || exists before, after :: Resumed(n, r, t, before, after) && after.clock.now <= wake
                                        && (after.clock.now < wake ==> w in before.woken))
  {
    var n := Step(s, Act(TimedWait(c, s.clock.now + d)));
    ReachableStep(s, Act(TimedWait(c, s.clock.now + d)));
    TimedWaitMeetsDeadline(n, r, s.current.value, c, |s.owner|, s.clock.now + d);
  }

  // ------------------------------------------------------------------
  // Order and lag of the ready queue
  // ------------------------------------------------------------------

  /** Polls serve wakes and spawns in the order they happened, each after at most one
      advance; polling a finished task only consumes its entry. */
  lemma ServedSoonAndInOrder(s: Sim)
    requires Reachable(s) && Enabled(s, PollNext)
    ensures var p := s.past;
            && p.served < |p.wakes| && p.wakes[p.served].task == s.batch[0]
            && p.wakes[p.served].stamp <= p.advances <= p.wakes[p.served].stamp + 1
    ensures s.tasks[s.batch[0]] == Finished ==> Step(s, PollNext) == PopBatch(s)
  {
    ReachableIsInv(s);
  }

  /** When the clock is about to move, everything woken before the previous move is served. */
  lemma NothingLeftBehind(s: Sim, i: nat, k: nat)
    requires Reachable(s) && Enabled(s, Advance(i)) && k < |s.past.wakes| && s.past.wakes[k].stamp < s.past.advances
    ensures k < s.past.served
  {
    ReachableIsInv(s);
  }

  /** Push `k` is served before the clock moves: it was made by an advance or from
      outside, or it is already in the batch. */
  ghost predicate DueNow(s: Sim, k: nat) {
    s.past.served <= k < |s.past.wakes| && (s.phase == Head || k < s.past.served + |s.batch|)
  }

  /** Push `k` was made in the middle of a batch, and waits for the next one. */
  ghost predicate DueNext(s: Sim, k: nat) {
    s.phase == Polling && s.past.served + |s.batch| <= k < |s.past.wakes|
  }

  /** The one fact about a step that lag depends on. */
  lemma StepHistory(s: Sim, ch: Choice)
    requires Inv(s) && Enabled(s, ch)
    ensures var r := Step(s, ch);
            && s.past.wakes <= r.past.wakes
            && r.past.served == s.past.served + (if ch.PollNext? then 1 else 0)
            && (!ch.Advance? ==> r.clock.now == s.clock.now)
            && (ch.PollNext? ==> r.phase == Polling && |r.batch| == |s.batch| - 1)
            && (ch.Act? ==> r.phase == s.phase && r.batch == s.batch)
  {
    if ch.PollNext? {
      PollFrame(PopBatch(s), s.batch[0]);
    } else if ch.Act? {
      PerformFrame(s, s.current.value, ch.op);
    }
  }

  /** The clock does not move while a push is due: until push `k` is served, it stays
      due, and time stands still. */
  lemma DueStep(s: Sim, ch: Choice, k: nat)
    requires Inv(s) && Enabled(s, ch) && DueNow(s, k)
    ensures var r := Step(s, ch);
            && r.past.served >= s.past.served && s.past.wakes <= r.past.wakes && r.clock.now == s.clock.now
            && (r.past.served > k || DueNow(r, k))
  {
    StepHistory(s, ch);
    assert |s.past.wakes| == s.past.served + |s.batch| + |s.ready|;
  }

  lemma {:induction false} ServedCountGrows(s: Sim, chs: seq<Choice>, r: Sim)
    requires Inv(s) && Run(s, chs, r)
    ensures s.past.served <= r.past.served
    decreases |chs|
  {
    if chs != [] {
      StepHistory(s, chs[0]);
      StepKeepsInv(s, chs[0]);
      ServedCountGrows(Step(s, chs[0]), chs[1..], r);
    }
  }

  lemma {:induction false} DueRun(s: Sim, chs: seq<Choice>, r: Sim, k: nat)
    requires Inv(s) && Run(s, chs, r) && DueNow(s, k) && r.past.served == k
    ensures r.clock.now == s.clock.now && s.past.wakes <= r.past.wakes
    decreases |chs|
  {
    if chs != [] {
      var n := Step(s, chs[0]);
      DueStep(s, chs[0], k);
      StepKeepsInv(s, chs[0]);
      ServedCountGrows(n, chs[1..], r);
      DueRun(n, chs[1..], r, k);
    }
  }

  /** A push that is due is polled at its turn, and at this very time. */
  lemma DuePushIsPolledNow(s: Sim, r: Sim, k: nat)
    requires Reachable(s) && DueNow(s, k) && Reaches(s, r) && Enabled(r, PollNext) && r.past.served == k
    ensures r.batch[0] == s.past.wakes[k].task && r.clock.now == s.clock.now
  {
    ReachableIsInv(s);
    var chs :| Run(s, chs, r);
    DueRun(s, chs, r, k);
    HeadIsPush(s, r, k);
  }

  /** The heap has nothing to move the clock to: no event, or one that is due already. */
  predicate ClockStays(s: Sim) {
    s.clock.events == [] || exists e :: e in s.clock.events && e.wakeTime == s.clock.now
  }

  /** Exactly then an advance leaves the clock where it is. */
  lemma AdvanceMovesUnlessStays(s: Sim, i: nat)
    requires Inv(s) && Enabled(s, Advance(i))
    ensures Step(s, Advance(i)).clock.now == s.clock.now <==> ClockStays(s)
    ensures s.clock.events != [] ==> Step(s, Advance(i)).clock.now == s.clock.events[i].wakeTime
  {
    if s.clock.events != [] {
      assert s.clock.events[i] in s.clock.events;
      if e :| e in s.clock.events && e.wakeTime == s.clock.now {
        var j :| 0 <= j < |s.clock.events| && s.clock.events[j] == e;
      }
    }
  }

  /** A push that waits for the next batch when the clock is advanced is polled at its
      own time if and only if the advance finds no event, or one that is due already. */
  lemma LatePushIsPolledNowIff(a: Sim, i: nat, r: Sim, k: nat)
    requires Reachable(a) && DueNext(a, k) && Enabled(a, Advance(i))
    requires Reaches(Step(a, Advance(i)), r) && Enabled(r, PollNext) && r.past.served == k
    ensures r.batch[0] == a.past.wakes[k].task && r.clock.now == Step(a, Advance(i)).clock.now
    ensures r.clock.now == a.clock.now <==> ClockStays(a)
  {
    ReachableIsInv(a);
    ReachableStep(a, Advance(i));
    StepHistory(a, Advance(i));
    AdvanceMovesUnlessStays(a, i);
    DuePushIsPolledNow(Step(a, Advance(i)), r, k);
  }

  /** From `s` the rest of the batch is polled up to state `a`, in which push `k` still
      waits; then the clock is advanced on the way to `r`. */
  ghost predicate AdvancedOnce(s: Sim, r: Sim, k: nat, a: Sim, i: nat) {
    && Reaches(s, a) && DueNext(a, k) && a.clock.now == s.clock.now
    && Enabled(a, Advance(i)) && Reaches(Step(a, Advance(i)), r)
  }

  /** Until the clock is advanced a late push keeps waiting, at the same time. */
  lemma {:induction false} LateRun(s: Sim, chs: seq<Choice>, r: Sim, k: nat)
    requires Inv(s) && Run(s, chs, r) && DueNext(s, k) && r.past.served == k && Enabled(r, PollNext)
    ensures exists a, i :: AdvancedOnce(s, r, k, a, i)
    decreases |chs|
  {
    if chs == [] {
      assert false;
    } else if chs[0].Advance? {
      ReachesSelf(s);
      assert Reaches(Step(s, chs[0]), r);
      assert AdvancedOnce(s, r, k, s, chs[0].i);
    } else {
      var n := Step(s, chs[0]);
      LateStep(s, chs[0], k);
      StepKeepsInv(s, chs[0]);
      LateRun(n, chs[1..], r, k);
      var a, i :| AdvancedOnce(n, r, k, a, i);
      assert OneStep(s, n);
      ReachesAfterStep(s, n, a);
      assert AdvancedOnce(s, r, k, a, i);
    }
  }

  lemma LateStep(s: Sim, ch: Choice, k: nat)
    requires Inv(s) && Enabled(s, ch) && DueNext(s, k) && !ch.Advance?
    ensures DueNext(Step(s, ch), k) && Step(s, ch).clock.now == s.clock.now
  {
    StepHistory(s, ch);
  }

  /** Bounded lag, exactly. Every push that is not served yet is polled at its turn. One
      that is due is polled at this time. For one made in the middle of a batch the
      clock is advanced exactly once before, and it is polled at this time if and only
      if that advance finds no event, or one that is due already. */
  lemma PolledWithoutDelay(s: Sim, r: Sim, k: nat)
    requires Reachable(s) && s.past.served <= k < |s.past.wakes|
    requires Reaches(s, r) && Enabled(r, PollNext) && r.past.served == k
    ensures r.batch[0] == s.past.wakes[k].task
    ensures DueNow(s, k) ==> r.clock.now == s.clock.now
    ensures !DueNow(s, k) ==>
              exists a, i :: AdvancedOnce(s, r, k, a, i) && (r.clock.now == s.clock.now <==> ClockStays(a))
  {
    if DueNow(s, k) {
      DuePushIsPolledNow(s, r, k);
    } else {
      HeadIsPush(s, r, k);
      LatePushIsPolled(s, r, k);
    }
  }

  lemma HeadIsPush(s: Sim, r: Sim, k: nat)
    requires Reachable(s) && k < |s.past.wakes|
    requires Reaches(s, r) && Enabled(r, PollNext) && r.past.served == k
    ensures r.batch[0] == s.past.wakes[k].task
  {
    ReachableIsInv(s);
    var chs :| Run(s, chs, r);
    RunKeepsWakes(s, chs, r);
    RunKeepsInv(s, chs, r);
    assert r.past.wakes[k] == s.past.wakes[k];
  }

  lemma LatePushIsPolled(s: Sim, r: Sim, k: nat)
    requires Reachable(s) && s.past.served <= k < |s.past.wakes| && !DueNow(s, k)
    requires Reaches(s, r) && Enabled(r, PollNext) && r.past.served == k
    ensures exists a, i :: AdvancedOnce(s, r, k, a, i) && (r.clock.now == s.clock.now <==> ClockStays(a))
  {
    ReachableIsInv(s);
    var chs :| Run(s, chs, r);
    LateRun(s, chs, r, k);
    var a, i :| AdvancedOnce(s, r, k, a, i);
    ReachableFrom(s, a);
    LatePushIsPolledNowIff(a, i, r, k);
  }

  lemma ReachableFrom(s: Sim, r: Sim)
    requires Reachable(s) && Reaches(s, r)
    ensures Reachable(r)
  {
    var mutexes, conds, channels :| Reaches(Begin(mutexes, conds, channels), s);
    ReachesTransitive(Begin(mutexes, conds, channels), s, r);
  }

  lemma {:induction false} RunKeepsWakes(s: Sim, chs: seq<Choice>, r: Sim)
    requires Inv(s) && Run(s, chs, r)
    ensures s.past.wakes <= r.past.wakes
    decreases |chs|
  {
    if chs != [] {
      StepHistory(s, chs[0]);
      StepKeepsInv(s, chs[0]);
      RunKeepsWakes(Step(s, chs[0]), chs[1..], r);
    }
  }

  /** The clock overtakes work of its own time exactly when a task is ready while the
      heap offers nothing but later events. */
  lemma ClockOvertakesWorkIff(s: Sim, i: nat)
    requires Reachable(s) && Enabled(s, Advance(i))
    ensures Step(s, Advance(i)).clock.now != s.clock.now && (exists k :: DueNext(s, k))
            <==> s.ready != [] && !ClockStays(s)
  {
    ReachableIsInv(s);
    AdvanceMovesUnlessStays(s, i);
    if s.ready != [] {
      assert DueNext(s, s.past.served);
    }
  }

  lemma {:induction false} FinishedForever(s: Sim, chs: seq<Choice>, r: Sim, t: TaskId)
    requires Inv(s) && Run(s, chs, r) && t < |s.tasks| && s.tasks[t] == Finished
    ensures t < |r.tasks| && r.tasks[t] == Finished
    decreases |chs|
  {
    if chs != [] {
      if chs[0].PollNext? {
        PollFrame(PopBatch(s), s.batch[0]);
      } else if chs[0].Act? {
        PerformFrame(s, s.current.value, chs[0].op);
      }
      StepKeepsInv(s, chs[0]);
      FinishedForever(Step(s, chs[0]), chs[1..], r, t);
    }
  }

  /** The clock may move while new work is ready: a task spawned at time 0 by a task
      that then sleeps 5 is first polled at time 5. */
  lemma TimeMovesPastReadyWork() returns (s: Sim)
    ensures Reachable(s) && Enabled(s, Advance(0)) && s.tasks == [Sleeping(5), New] && s.ready == [1]
    ensures s.clock.now == 0
    ensures Step(s, Advance(0)).clock.now == 5 && Step(s, Advance(0)).tasks[1] == New
  {
    var b := Begin(0, 0, 0);
    ReachesSelf(b);
    ReachesStep(b, b, External);
    var s1 := Step(b, External);
    assert s1.tasks == [New] && s1.ready == [0];
    ReachesStep(b, s1, Take);
    var s2 := Step(s1, Take);
    ReachesStep(b, s2, PollNext);
    var s3 := Step(s2, PollNext);
    assert s3.tasks == [Running];
    ReachesStep(b, s3, Act(Spawn));
    var s4 := Step(s3, Act(Spawn));
    ReachesStep(b, s4, Act(Sleep(5)));
    s := Step(s4, Act(Sleep(5)));
    assert IsEarliest(s.clock.events, 0);
  }

  // ------------------------------------------------------------------
  // Mutexes
  // ------------------------------------------------------------------

  /** A mutex is locked exactly when one guard is live, its waiters are in arrival
      order, and a free mutex with waiters has a poll of the first one outstanding,
      which will acquire it if the mutex is still free. */
  lemma MutexGuarantee(s: Sim, m: nat)
    requires Reachable(s) && m < |s.mutexes|
    ensures var x := s.mutexes[m];
            && x.guards == (if x.isLocked then 1 else 0)
            && (forall j, k :: 0 <= j < k < |x.waiters| ==> x.waiters[j].id < x.waiters[k].id < x.nextId)
            && (forall w :: w in x.waiters ==> HoldsTicket(s, w.task, m, w.id))
            && (!x.isLocked && x.waiters != [] ==> Queued(s, x.waiters[0].task))
  {
    ReachableIsInv(s);
    assert MutexSound(s, m);
  }

  /** A poll of the first waiter of a free mutex acquires it. */
  lemma FirstWaiterAcquires(s: Sim, m: nat)
    requires Reachable(s) && Enabled(s, PollNext) && m < |s.mutexes|
    requires !s.mutexes[m].isLocked && s.mutexes[m].waiters != [] && s.mutexes[m].waiters[0].task == s.batch[0]
    ensures var r := Step(s, PollNext);
            && r.current == Some(s.batch[0]) && r.mutexes[m].isLocked
            && r.mutexes[m].waiters == s.mutexes[m].waiters[1..]
  {
    ReachableIsInv(s);
    assert MutexSound(s, m);
    var w := s.mutexes[m].waiters[0];
    assert w in s.mutexes[m].waiters && HoldsTicket(s, w.task, m, w.id);
    PollQueued(s.mutexes[m], 0);
  }

  /** Barging: task 0 locks and sleeps 5, task 1 queues, and task 0 unlocks when it wakes
      up. At `free` the mutex is free and task 1 was woken, but task 0 locks again and
      gets it; task 1 still waits. */
  lemma LateComerOvertakes() returns (free: Sim, s: Sim)
    ensures Reachable(free) && free.current == Some(0) && free.ready == [1]
    ensures free.mutexes == [MutexState(false, 2, [Waiter(1, 1)], 0)]
    ensures Enabled(free, Act(Lock(0))) && s == Step(free, Act(Lock(0))) && Reachable(s)
    ensures s.tasks == [Running, Locking(0, 1, None)] && s.current == Some(0)
    ensures s.mutexes == [MutexState(true, 3, [Waiter(1, 1)], 1)]
  {
    free := HolderUnlocks();
    ReachableStep(free, Act(Lock(0)));
    s := Step(free, Act(Lock(0)));
    assert Find([Waiter(1, 1)], 2) == 1;
  }

  lemma HolderUnlocks() returns (s: Sim)
    ensures Reachable(s) && s.current == Some(0) && s.ready == [1]
    ensures s.tasks == [Running, Locking(0, 1, None)] && s.mutexes == [MutexState(false, 2, [Waiter(1, 1)], 0)]
  {
    var a := HolderResumes();
    ReachableStep(a, Act(Unlock(0)));
    s := Step(a, Act(Unlock(0)));
  }

  lemma HolderResumes() returns (s: Sim)
    ensures Reachable(s) && s.current == Some(0) && s.ready == []
    ensures s.tasks == [Running, Locking(0, 1, None)] && s.mutexes == [MutexState(true, 2, [Waiter(1, 1)], 1)]
  {
    var a := HolderIsDue();
    ReachableStep(a, Take);
    var b := Step(a, Take);
    ReachableStep(b, PollNext);
    s := Step(b, PollNext);
  }

  lemma HolderIsDue() returns (s: Sim)
    ensures Reachable(s) && s.phase == Head && s.current == None && s.batch == [] && s.ready == [0] && s.clock.now == 5
    ensures s.tasks == [Sleeping(5), Locking(0, 1, None)] && s.mutexes == [MutexState(true, 2, [Waiter(1, 1)], 1)]
  {
    var a := SecondQueues();
    assert IsEarliest(a.clock.events, 0);
    ReachableStep(a, Advance(0));
    s := Step(a, Advance(0));
  }

  lemma SecondQueues() returns (s: Sim)
    ensures Reachable(s) && s.phase == Polling && s.current == None && s.batch == [] && s.ready == []
    ensures s.clock == Clock(0, [TimeEvent(5, 0)])
    ensures s.tasks == [Sleeping(5), Locking(0, 1, None)] && s.mutexes == [MutexState(true, 2, [Waiter(1, 1)], 1)]
  {
    var a := SecondRuns();
    ReachableStep(a, Act(Lock(0)));
    s := Step(a, Act(Lock(0)));
    assert s.mutexes[0].waiters == [Waiter(1, 1)];
  }

  lemma SecondRuns() returns (s: Sim)
    ensures Reachable(s) && s.phase == Polling && s.current == Some(1) && s.batch == [] && s.ready == []
    ensures s.clock == Clock(0, [TimeEvent(5, 0)])
    ensures s.tasks == [Sleeping(5), Running] && s.mutexes == [MutexState(true, 1, [], 1)]
  {
    var a := HolderSleeps();
    ReachableStep(a, PollNext);
    s := Step(a, PollNext);
  }

  lemma HolderSleeps() returns (s: Sim)
    ensures Reachable(s) && s.phase == Polling && s.current == None && s.batch == [1] && s.ready == []
    ensures s.clock == Clock(0, [TimeEvent(5, 0)])
    ensures s.tasks == [Sleeping(5), New] && s.mutexes == [MutexState(true, 1, [], 1)]
  {
    var a := FirstLocks();
    ReachableStep(a, Act(Sleep(5)));
    s := Step(a, Act(Sleep(5)));
  }

  lemma FirstLocks() returns (s: Sim)
    ensures Reachable(s) && s.phase == Polling && s.current == Some(0) && s.batch == [1] && s.ready == []
    ensures s.clock == Start && s.tasks == [Running, New] && s.mutexes == [MutexState(true, 1, [], 1)]
  {
    var a := FirstRuns();
    ReachableStep(a, Act(Lock(0)));
    s := Step(a, Act(Lock(0)));
  }

  lemma FirstRuns() returns (s: Sim)
    ensures Reachable(s) && s.phase == Polling && s.current == Some(0) && s.batch == [1] && s.ready == []
    ensures s.clock == Start && s.tasks == [Running, New] && s.mutexes == [Unlocked]
  {
    var a := TwoTasks();
    ReachableStep(a, PollNext);
    s := Step(a, PollNext);
  }

  /** Two tasks that were never polled, one mutex and one condition variable. */
  lemma TwoTasks() returns (s: Sim)
    ensures Reachable(s) && s.phase == Polling && s.current == None && s.batch == [0, 1] && s.ready == []
    ensures s.tasks == [New, New] && s.clock == Start && s.mutexes == [Unlocked]
    ensures s.conds == [[]] && s.owner == [] && s.woken == {}
  {
    var b := Begin(1, 1, 0);
    ReachesSelf(b);
    ReachableStep(b, External);
    var s1 := Step(b, External);
    ReachableStep(s1, External);
    var s2 := Step(s1, External);
    ReachableStep(s2, Take);
    s := Step(s2, Take);
  }

  // ------------------------------------------------------------------
  // Condition waits
  // ------------------------------------------------------------------

  /** A flag is set only for a wait that is registered at the time. */
  lemma OnlyRegisteredAreNotified(s: Sim, ch: Choice, w: nat)
    requires Reachable(s) && Enabled(s, ch) && w !in s.woken && w in Step(s, ch).woken
    ensures exists c :: 0 <= c < |s.conds| && Listed(s.conds[c], w)
  {
    ReachableIsInv(s);
    if !(ch.Act? && (ch.op.NotifyOne? || ch.op.NotifyAll?)) {
      OnlyNotifiersWake(s, ch);
    } else if ch.op.NotifyOne? {
      FirstHitIsListed(s.conds[ch.op.c], s.woken);
    } else {
      HitIsListed(s.conds[ch.op.c], s.woken, w);
    }
  }

  lemma OnlyNotifiersWake(s: Sim, ch: Choice)
    requires Enabled(s, ch) && !(ch.Act? && (ch.op.NotifyOne? || ch.op.NotifyAll?))
    ensures Step(s, ch).woken == s.woken
  {
  }

  lemma FirstHitIsListed(l: seq<Entry<nat>>, woken: set<nat>)
    ensures var hit := NotifyFirst(l, woken).1; hit.Some? ==> Listed(l, hit.value.wait)
  {
    FifoNotifyOne(l, woken);
    var hit := NotifyFirst(l, woken).1;
    if hit.Some? {
      var i :| 0 <= i < |l| && l[i] == hit.value;
      assert l[i].wait == hit.value.wait;
    }
  }

  lemma HitIsListed(l: seq<Entry<nat>>, woken: set<nat>, w: nat)
    requires w in WaitsOfHits(NotifyEach(l, woken))
    ensures Listed(l, w)
  {
    FifoNotifyAll(l, woken);
    var i :| 0 <= i < |NotifyEach(l, woken)| && Waits(NotifyEach(l, woken))[i] == w;
    assert Fifo(l, woken)[i] == w;
  }

  /** A condition wait that returns was notified before, and one over an asynchronous
      mutex returns with the mutex it took from being free. */
  lemma ReturnsWereNotified(s: Sim, ch: Choice, w: nat)
    requires Reachable(s) && Enabled(s, ch) && w !in s.past.completed && w in Step(s, ch).past.completed
    ensures w in s.woken && ch == PollNext && w < |s.owner| && s.owner[w] == s.batch[0]
    ensures var st := s.tasks[s.batch[0]];
            (st.Locking? && st.wait == Some(w)) || (st.Waiting? && st.w == w) ==>
              !s.mutexes[st.m].isLocked && Step(s, ch).mutexes[st.m].isLocked
  {
    ReachableIsInv(s);
    OnlyPollsReturn(s, ch);
    assert OwnsWait(s, s.batch[0]);
    PollReturns(PopBatch(s), s.batch[0], w);
  }

  lemma OnlyPollsReturn(s: Sim, ch: Choice)
    requires Inv(s) && Enabled(s, ch)
    ensures Step(s, ch).past.completed != s.past.completed ==> ch == PollNext
  {
  }

  lemma PollReturns(s: Sim, t: TaskId, w: nat)
    requires CanPoll(s, t) && OwnsWait(s, t) && w !in s.past.completed && w in Poll(s, t).past.completed
    ensures w in s.woken && w < |s.owner| && s.owner[w] == t
    ensures var st := s.tasks[t];
            (st.Locking? && st.wait == Some(w)) || (st.Waiting? && st.w == w) ==>
              !s.mutexes[st.m].isLocked && Poll(s, t).mutexes[st.m].isLocked
  {
  }

  /** `notify_one` serves the waits of a condvar as a queue: it notifies exactly the
      head and wakes the task that owns it. That task still waits, unless the head is a
      timed wait that ended: then, and only then, the notification reaches nobody. */
  lemma NotifyOneServesQueue(s: Sim, c: nat)
    requires Reachable(s) && Enabled(s, Act(NotifyOne(c)))
    ensures var (q, r) := (Fifo(s.conds[c], s.woken), Step(s, Act(NotifyOne(c))));
            if q == [] then r.woken == s.woken && r.ready == s.ready && Fifo(r.conds[c], r.woken) == []
            else
              && q[0] < |s.owner| && r.woken == s.woken + {q[0]} && r.ready == s.ready + [s.owner[q[0]]]
              && Fifo(r.conds[c], r.woken) == q[1..]
              && (StillWaits(s, s.owner[q[0]], q[0]) <==> q[0] !in s.past.expired)
  {
    ReachableIsInv(s);
    FifoNotifyOne(s.conds[c], s.woken);
    var hit := NotifyFirst(s.conds[c], s.woken).1;
    if hit.Some? {
      var e := hit.value;
      assert Fifo(s.conds[c], s.woken)[0] == e.wait;
      assert e in s.conds[c] && e.wait < |s.owner| && s.owner[e.wait] == e.task;
    }
  }

  /** No wait with a deadline was ever begun on condvar `c`: what is listed there is no
      timed wait, neither one that lasts nor one that ended. */
  ghost predicate Untimed(s: Sim, c: nat) {
    && (forall t :: 0 <= t < |s.tasks| && s.tasks[t].TimedWaiting? ==> s.tasks[t].c != c)
    && (c < |s.conds| ==> forall e :: e in s.conds[c] ==> e.wait !in s.past.expired)
    && (c < |s.conds| ==>
          forall e, t :: e in s.conds[c] && 0 <= t < |s.tasks| && s.tasks[t].TimedWaiting? ==> s.tasks[t].w != e.wait)
  }

  lemma PollKeepsUntimed(s: Sim, t: TaskId, c: nat)
    requires WaitsLive(s) && WaitsOwned(s) && Untimed(s, c)
    requires CanPoll(s, t) && s.tasks[t] != Running && s.current == None && c < |s.conds|
    ensures Untimed(Poll(s, t), c)
  {
    PollFrame(s, t);
    assert OwnsWait(s, t);
    if s.tasks[t].Waiting? || s.tasks[t].SyncWaiting? {
      assert StillWaits(s, t, s.tasks[t].w);
      forall u | 0 <= u < |s.tasks| && s.tasks[u].TimedWaiting?
        ensures s.tasks[u].w != s.tasks[t].w
      {
        assert OwnsWait(s, u);
      }
    }
  }

  lemma PerformKeepsUntimed(s: Sim, t: TaskId, op: Op, c: nat)
    requires WaitsLive(s) && WaitsOwned(s) && Untimed(s, c) && c < |s.conds|
    requires t < |s.tasks| && Legal(s, op) && s.tasks[t] == Running && s.current == Some(t)
    requires op.TimedWait? ==> op.c != c
    ensures Untimed(Perform(s, t, op), c)
  {
    PerformFrame(s, t, op);
    NoFreshWait(s);
    if op.NotifyOne? {
      forall e { NotifyFirstKeeps(s.conds[op.c], s.woken, e); }
    }
  }

  /** The next wait to be created is not in use. */
  lemma NoFreshWait(s: Sim)
    requires WaitsLive(s) && WaitsOwned(s)
    ensures |s.owner| !in s.past.expired
    ensures forall c, e :: 0 <= c < |s.conds| && e in s.conds[c] ==> e.wait < |s.owner|
    ensures forall t :: 0 <= t < |s.tasks| && s.tasks[t].TimedWaiting? ==> s.tasks[t].w < |s.owner|
  {
    forall t | 0 <= t < |s.tasks| && s.tasks[t].TimedWaiting?
      ensures s.tasks[t].w < |s.owner|
    {
      assert OwnsWait(s, t);
    }
  }

  lemma StepKeepsUntimed(s: Sim, ch: Choice, c: nat)
    requires Inv(s) && Enabled(s, ch) && Untimed(s, c) && c < |s.conds|
    requires ch.Act? && ch.op.TimedWait? ==> ch.op.c != c
    ensures Untimed(Step(s, ch), c) && |Step(s, ch).conds| == |s.conds|
  {
    match ch
    case PollNext =>
      var p := PopBatch(s);
      PopKeepsOwners(s);
      LiveKept(s, p, s.batch[0]);
      PollKeepsUntimed(p, s.batch[0], c);
      PollFrame(p, s.batch[0]);
    case Act(op) =>
      PerformKeepsUntimed(s, s.current.value, op, c);
      PerformFrame(s, s.current.value, op);
    case _ =>
  }

  lemma {:induction false} RunKeepsUntimed(s: Sim, chs: seq<Choice>, r: Sim, c: nat)
    requires Inv(s) && Run(s, chs, r) && Untimed(s, c) && c < |s.conds|
    requires forall k :: 0 <= k < |chs| && chs[k].Act? && chs[k].op.TimedWait? ==> chs[k].op.c != c
    ensures Inv(r) && Untimed(r, c) && |r.conds| == |s.conds|
    decreases |chs|
  {
    if chs != [] {
      StepKeepsUntimed(s, chs[0], c);
      StepKeepsInv(s, chs[0]);
      RunKeepsUntimed(Step(s, chs[0]), chs[1..], r, c);
    }
  }

  /** No notification is lost on a condvar that no task ever waits on with a deadline:
      `notify_one` always reaches a task that is still in the wait it is notified of. */
  lemma UntimedNotificationArrives(mutexes: nat, conds: nat, channels: nat, chs: seq<Choice>, s: Sim, c: nat)
    requires Run(Begin(mutexes, conds, channels), chs, s)
    requires forall k :: 0 <= k < |chs| && chs[k].Act? && chs[k].op.TimedWait? ==> chs[k].op.c != c
    requires Enabled(s, Act(NotifyOne(c))) && Fifo(s.conds[c], s.woken) != []
    ensures var w := Fifo(s.conds[c], s.woken)[0];
            w < |s.owner| && StillWaits(s, s.owner[w], w) && w in Step(s, Act(NotifyOne(c))).woken
  {
    var b := Begin(mutexes, conds, channels);
    BeginIsFine(mutexes, conds, channels);
    SameConds(b, chs, s);
    RunKeepsUntimed(b, chs, s, c);
    assert Reaches(b, s);
    NotifyOneServesQueue(s, c);
    var w := Fifo(s.conds[c], s.woken)[0];
    var i :| 0 <= i < |s.conds[c]| && s.conds[c][i].wait == w;
    assert s.conds[c][i] in s.conds[c];
  }

  lemma {:induction false} SameConds(s: Sim, chs: seq<Choice>, r: Sim)
    requires Run(s, chs, r)
    ensures |r.conds| == |s.conds|
    decreases |chs|
  {
    if chs != [] {
      StepSameConds(s, chs[0]);
      SameConds(Step(s, chs[0]), chs[1..], r);
    }
  }

  lemma StepSameConds(s: Sim, ch: Choice)
    requires Enabled(s, ch)
    ensures |Step(s, ch).conds| == |s.conds|
  {
  }

  /** How a notification is lost: a wait with a deadline at 5 and a wait without one are
      registered, the first ends at 5, and its task then notifies one. The notification
      goes to the wait that ended, and the task that still waits is not notified. */
  lemma EndedWaitTakesNotification() returns (s: Sim)
    ensures Reachable(s) && Enabled(s, Act(NotifyOne(0))) && s.tasks == [Running, SyncWaiting(0, 1)]
    ensures var r := Step(s, Act(NotifyOne(0)));
            r.tasks[1] == SyncWaiting(0, 1) && 1 !in r.woken && r.conds == [[Entry(1, 1)]] && r.ready == [0]
  {
    s := WaitEnded();
    var l: seq<Entry<nat>> := [Entry(0, 0), Entry(1, 1)];
    assert s.conds[0] == l && l[1..] == [Entry(1, 1)];
    assert NotifyFirst(l, {}) == (l[1..], Some(l[0]));
  }

  lemma WaitEnded() returns (s: Sim)
    ensures Reachable(s) && s.current == Some(0) && s.ready == [] && s.woken == {}
    ensures s.tasks == [Running, SyncWaiting(0, 1)] && s.conds == [[Entry(0, 0), Entry(1, 1)]]
  {
    var a := DeadlinePassed();
    ReachableStep(a, PollNext);
    s := Step(a, PollNext);
  }

  /** The clock shows 5 and task 0 is polled next. */
  lemma DeadlinePassed() returns (s: Sim)
    ensures Reachable(s) && Enabled(s, PollNext) && s.batch == [0] && s.ready == []
    ensures s.clock == Clock(5, []) && s.tasks == [TimedWaiting(0, 0, 5), SyncWaiting(0, 1)]
    ensures s.conds == [[Entry(0, 0), Entry(1, 1)]] && s.woken == {}
  {
    var a := DeadlineReached();
    ReachableStep(a, Take);
    s := Step(a, Take);
  }

  lemma DeadlineReached() returns (s: Sim)
    ensures Reachable(s) && s.phase == Head && s.current == None && s.batch == [] && s.ready == [0]
    ensures s.clock == Clock(5, []) && s.tasks == [TimedWaiting(0, 0, 5), SyncWaiting(0, 1)]
    ensures s.conds == [[Entry(0, 0), Entry(1, 1)]] && s.woken == {}
  {
    var a := TwoWaits();
    assert IsEarliest(a.clock.events, 0);
    ReachableStep(a, Advance(0));
    s := Step(a, Advance(0));
  }

  /** A state in which task 0 waits until 5 and task 1 waits without a deadline. */
  lemma TwoWaits() returns (s: Sim)
    ensures Reachable(s) && s.phase == Polling && s.current == None && s.batch == [] && s.ready == []
    ensures s.clock == Clock(0, [TimeEvent(5, 0)]) && s.tasks == [TimedWaiting(0, 0, 5), SyncWaiting(0, 1)]
    ensures s.conds == [[Entry(0, 0), Entry(1, 1)]] && s.woken == {}
  {
    var a := OneWait();
    ReachableStep(a, PollNext);
    var b := Step(a, PollNext);
    ReachableStep(b, Act(SyncWait(0)));
    s := Step(b, Act(SyncWait(0)));
    assert s.conds[0] == [Entry(0, 0), Entry(1, 1)];
  }

  lemma OneWait() returns (s: Sim)
    ensures Reachable(s) && s.phase == Polling && s.current == None && s.batch == [1] && s.ready == []
    ensures s.clock == Clock(0, [TimeEvent(5, 0)]) && s.tasks == [TimedWaiting(0, 0, 5), New]
    ensures s.conds == [[Entry(0, 0)]] && s.owner == [0] && s.woken == {}
  {
    var a := TwoTasks();
    ReachableStep(a, PollNext);
    var b := Step(a, PollNext);
    ReachableStep(b, Act(TimedWait(0, 5)));
    s := Step(b, Act(TimedWait(0, 5)));
    assert s.conds[0] == [Entry(0, 0)];
  }

  /** Completed waits never outnumber the notifications given. */
  lemma NoMoreReturnsThanNotifications(s: Sim)
    requires Reachable(s)
    ensures |s.past.completed| <= s.past.ones + s.past.covered
  {
    ReachableIsInv(s);
    SubsetSize(s.past.completed, s.woken);
  }

  lemma SubsetSize<T>(a: set<T>, b: set<T>)
    requires a <= b
    ensures |a| <= |b|
  {
    assert b == a + (b - a);
  }
}
