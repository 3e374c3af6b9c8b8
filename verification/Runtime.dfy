/** The executor (`src/runtime.rs`): `spawn`, `execute_tasks` and `block_on`, proved
    to perform exactly the steps of the transition system, and to come to rest. */
module Runtimes {
  import opened Prelude
  import opened Tasks
  import opened Timing
  import opened Mutexes
  import opened Condvars
  import opened Channels
  import opened Simulation
  import opened Invariants
  import opened Guarantees
  import opened Termination

  /** A mutex whose waiter identifiers are used up is about to be locked: by the running
      task, or in the next poll, by a condition wait that was notified. */
  ghost predicate TicketsRunOut(s: Sim) {
    exists m :: 0 <= m < |s.mutexes| && !CanTicket(s.mutexes[m]) && LocksNext(s, m)
  }

  predicate LocksExhausted(s: Sim, op: Op) {
    op.Lock? && op.m < |s.mutexes| && !CanTicket(s.mutexes[op.m])
  }

  ghost predicate LocksNext(s: Sim, m: nat) {
    if s.current.Some? then s.current.value < |s.tasks|
    else
      && s.batch != [] && s.batch[0] < |s.tasks|
      && match s.tasks[s.batch[0]]
         case Waiting(_, w, n) => w in s.woken && n == m
         case _ => false
  }

  /** The loop of `block_on` gets to an iteration that panics. */
  ghost predicate PanicsLater(s: Sim, main: TaskId) {
    exists before :: LoopGetsTo(s, main, before) && Unfinished(before, main) && PanicsNext(before)
  }

  ghost predicate PanicsNext(s: Sim) {
    Enabled(s, Take) && exists r :: PollsTo(Step(s, Take), r) && TicketsRunOut(r)
  }

  /** How `block_on` ends. `Stuck` is the endless loop that no longer changes anything. */
  datatype Ending = Completed | Stuck | Panicked

  class Runtime {
    const readyTasks: ReadyQueue
    const timer: Timer
    var tasks: seq<Status>
    var mutexes: seq<MutexState>
    var conds: seq<seq<Entry<nat>>>
    var owner: seq<TaskId>
    var woken: set<nat>
    var channels: seq<ChannelState<nat>>
    var past: History
    /** How many more operations the tasks of this run perform, all together. */
    var fuel: nat

    function State(phase: Phase, batch: seq<TaskId>): Sim
      reads this, readyTasks, timer
    {
      Sim(phase, Clock(timer.currentTime, timer.timeEvents), readyTasks.tasks, batch, None,
          tasks, mutexes, conds, owner, woken, channels, past)
    }

    /** Between two iterations of the loop. */
    ghost predicate Valid()
      reads this, readyTasks, timer
    {
      Inv(State(Head, []))
    }

    constructor (mutexes: nat, conds: nat, channels: nat, fuel: nat)
      ensures Valid() && State(Head, []) == Begin(mutexes, conds, channels) && this.fuel == fuel
      ensures fresh(readyTasks) && fresh(timer)
    {
      readyTasks := new ReadyQueue();
      timer := new Timer();
      tasks := [];
      this.mutexes := seq(mutexes, _ => Unlocked);
      this.conds := seq(conds, _ => []);
      owner := [];
      woken := {};
      this.channels := seq(channels, _ => ChannelState([], None));
      past := NoPast;
      this.fuel := fuel;
      new;
      assert State(Head, []) == Begin(mutexes, conds, channels);
      BeginIsFine(mutexes, conds, channels);
    }

    method Load(s: Sim)
      requires s.current == None
      modifies this, readyTasks, timer
      ensures State(s.phase, s.batch) == s && fuel == old(fuel)
    {
      timer.currentTime, timer.timeEvents := s.clock.now, s.clock.events;
      readyTasks.tasks := s.ready;
      tasks, mutexes, conds, owner, woken, channels := s.tasks, s.mutexes, s.conds, s.owner, s.woken, s.channels;
      past := s.past;
    }

    /** `spawn` from outside the loop: a new task, ready to be polled. */
    method Spawn() returns (t: TaskId)
      requires Valid() && fuel > 0
      modifies this, readyTasks, timer
      ensures Valid() && t == |old(tasks)| && tasks == old(tasks) + [New]
      ensures readyTasks.tasks == old(readyTasks.tasks) + [t]
      ensures State(Head, []) == Step(old(State(Head, [])), External)
      ensures fuel == old(fuel) - 1
    {
      t := |tasks|;
      ghost var s := State(Head, []);
      StepKeepsInv(s, External);
      tasks := tasks + [New];
      past := past.(wakes := past.wakes + Stamped([t], past.advances));
      readyTasks.Wake(t);
      fuel := fuel - 1;
    }

    /** Takes the future of the next task out of its slot and polls it: what it is
        suspended on decides whether it goes on. */
    static method Resumption(s: Sim, fuel: nat) returns (r: Sim)
      requires Inv(s) && Enabled(s, PollNext)
      ensures r == Step(s, PollNext)
      ensures Inv(r) && PollsTo(s, r) && Smaller(Effort(r, fuel), Effort(s, fuel))
      ensures r.phase == Polling && r.batch == s.batch[1..] && r.past.served == s.past.served + 1
    {
      PollsToStep(s, PollNext);
      StepKeepsInv(s, PollNext);
      PollShrinks(s, fuel);
      PollFrame(PopBatch(s), s.batch[0]);
      r := Step(s, PollNext);
    }

    /** The running task performs an operation of its own choosing, or finishes.
        `panicked` tells that it called `lock` on a mutex without identifiers left. */
    static method Operation(s: Sim, fuel: nat) returns (r: Sim, left: nat, panicked: bool)
      requires Inv(s) && s.current.Some? && s.phase == Polling
      ensures panicked ==> r == s && TicketsRunOut(s)
      ensures !panicked ==> Inv(r) && PollsTo(s, r) && Smaller(Effort(r, left), Effort(s, fuel))
      ensures !panicked ==> r.phase == Polling && r.batch == s.batch && r.past.served == s.past.served
      ensures !panicked ==> left < fuel || (left == fuel && r.current == None)
    {
      var op: Op := *;
      if fuel > 0 && LocksExhausted(s, op) {
        LockPanics(s, op);
        return s, fuel, true;
      }
      if fuel == 0 || !Legal(s, op) {
        op := Finish;
      }
      OperationFacts(s, op, fuel);
      return Step(s, Act(op)), if op == Finish then fuel else fuel - 1, false;
    }

    static lemma LockPanics(s: Sim, op: Op)
      requires LocksExhausted(s, op) && s.current.Some? && s.current.value < |s.tasks|
      ensures TicketsRunOut(s)
    {
      assert LocksNext(s, op.m);
    }

    static lemma OperationFacts(s: Sim, op: Op, fuel: nat)
      requires Inv(s) && s.phase == Polling && Enabled(s, Act(op)) && (op == Finish || fuel > 0)
      ensures var r := Step(s, Act(op));
              && Inv(r) && PollsTo(s, r)
              && Smaller(Effort(r, if op == Finish then fuel else fuel - 1), Effort(s, fuel))
              && r.phase == Polling && r.batch == s.batch && r.past.served == s.past.served
              && (op == Finish ==> r.current == None)
    {
      PollsToStep(s, Act(op));
      StepKeepsInv(s, Act(op));
      PollingStepShrinks(s, Act(op), fuel);
      PerformFrame(s, s.current.value, op);
    }

    /** One poll of the next task of the batch, up to where it is suspended again. */
    static method PollNextTask(start: Sim, fuel: nat) returns (s: Sim, left: nat, panicked: bool)
      requires Inv(start) && Enabled(start, PollNext)
      ensures PollsTo(start, s) && (panicked ==> TicketsRunOut(s))
      ensures !panicked ==> Inv(s) && Smaller(Effort(s, left), Effort(start, fuel))
      ensures !panicked ==> s.phase == Polling && s.current == None
      ensures !panicked ==> s.batch == start.batch[1..] && s.past.served == start.past.served + 1
    {
      s := Resumption(start, fuel);
      left, panicked := fuel, false;
      ghost var top, m := Effort(start, fuel), Effort(s, fuel);
      while s.current.Some? && !panicked
        invariant Inv(s) && PollsTo(start, s) && (panicked ==> TicketsRunOut(s))
        invariant s.phase == Polling && s.batch == start.batch[1..] && s.past.served == start.past.served + 1
        invariant m == Effort(s, left) && Smaller(m, top)
        decreases !panicked, left, s.current.Some?
      {
        var r: Sim;
        var rest: nat;
        r, rest, panicked := Operation(s, left);
        if !panicked {
          PollsToTransitive(start, s, r);
          s, left := r, rest;
          m := Effort(s, left);
        }
      }
    }

    static lemma WhyPollFails(s: Sim)
      requires Inv(s) && s.phase == Polling && s.current == None && s.batch != [] && !Enabled(s, PollNext)
      ensures TicketsRunOut(s)
    {
      assert s.batch[0] in s.batch;
    }

    /** The loop of `execute_tasks` over the batch it took. */
    static method PollBatch(start: Sim, fuel: nat) returns (s: Sim, left: nat, panicked: bool)
      requires Inv(start) && start.phase == Polling && start.current == None && start.batch != []
      ensures PollsTo(start, s) && (panicked ==> TicketsRunOut(s))
      ensures !panicked ==> Inv(s) && s.phase == Polling && s.current == None
      ensures !panicked ==> s.batch == [] && Smaller(Effort(s, left), Effort(start, fuel))
      ensures !panicked ==> s.past.served == start.past.served + |start.batch|
    {
      s, left := start, fuel;
      ghost var top, m := Effort(start, fuel), Effort(start, fuel);
      PollsToSelf(start);
      while s.batch != []
        invariant Inv(s) && PollsTo(start, s) && s.phase == Polling && s.current == None
        invariant s.past.served + |s.batch| == start.past.served + |start.batch|
        invariant m == Effort(s, left)
        invariant if s.batch == start.batch then m == top else Smaller(m, top)
        decreases |s.batch|
      {
        if !Enabled(s, PollNext) {
          WhyPollFails(s);
          return s, left, true;
        }
        ghost var was := s;
        s, left, panicked := PollNextTask(s, left);
        PollsToTransitive(start, was, s);
        if panicked {
          return s, left, true;
        }
        m := Effort(s, left);
      }
      return s, left, false;
    }

    /** Polls every task that was ready, in order; tasks that become ready meanwhile
        are left for the next call. */
    method ExecuteTasks() returns (ran: bool, panicked: bool)
      requires Valid()
      modifies this, readyTasks, timer
      ensures ran == (old(readyTasks.tasks) != [])
      ensures panicked ==> PanicsNext(old(State(Head, [])))
      ensures !panicked ==> Inv(State(Polling, [])) && PollsTo(Step(old(State(Head, [])), Take), State(Polling, []))
      ensures !ran ==> !panicked && fuel == old(fuel) && State(Polling, []) == old(State(Head, [])).(phase := Polling)
      ensures !panicked && ran ==> Smaller(Effort(State(Polling, []), fuel), Effort(old(State(Head, [])), old(fuel)))
      ensures !panicked ==> State(Polling, []).past.served == old(past).served + |old(readyTasks.tasks)|
    {
      ghost var start := State(Head, []);
      var batch := readyTasks.Take();
      assert State(Polling, batch) == Step(start, Take);
      TakeFacts(start, fuel);
      if batch == [] {
        PollsToSelf(Step(start, Take));
        return false, false;
      }
      ran := true;
      var s: Sim;
      s, fuel, panicked := PollBatch(State(Polling, batch), fuel);
      if !panicked {
        Load(s);
      }
    }

    static lemma TakeFacts(s: Sim, fuel: nat)
      requires Inv(s) && s.phase == Head
      ensures Inv(Step(s, Take)) && Effort(Step(s, Take), fuel) == Effort(s, fuel)
    {
      StepKeepsInv(s, Take);
      SameEffort(s, Step(s, Take), fuel);
    }

    /** Spawns the main task and runs until it is done, that is, until the first
        iteration that finishes it. When every other way out is closed the loop repeats
        an unchanged state for ever, which is reported as `Stuck`: then some task waits
        for what no task will ever provide. */
    method BlockOn() returns (end: Ending)
      requires Valid() && fuel > 0
      modifies this, readyTasks, timer
      ensures end == Panicked ==> PanicsLater(Step(old(State(Head, [])), External), |old(tasks)|)
      ensures end != Panicked ==>
                && Valid() && Reaches(old(State(Head, [])), State(Head, []))
                && LoopGetsTo(Step(old(State(Head, [])), External), |old(tasks)|, State(Head, []))
      ensures end == Completed ==> |old(tasks)| < |tasks| && tasks[|old(tasks)|] == Finished
      ensures end == Stuck ==> Idle(State(Head, [])) && Unfinished(State(Head, []), |old(tasks)|)
    {
      ghost var start := State(Head, []);
      var main := Spawn();
      ghost var first := State(Head, []);
      assert LoopsTo(first, main, first, 0);
      end := Loop(main, first);
      if end != Panicked {
        AfterSpawn(start, main, State(Head, []));
      }
    }

    static lemma AfterSpawn(s: Sim, main: TaskId, r: Sim)
      requires Enabled(s, External) && LoopGetsTo(Step(s, External), main, r)
      ensures Reaches(s, r)
    {
      var n :| LoopsTo(Step(s, External), main, r, n);
      LoopsReach(Step(s, External), main, r, n);
      assert OneStep(s, Step(s, External));
      ReachesAfterStep(s, Step(s, External), r);
    }

    /** The loop itself, entered in state `first`. */
    method Loop(main: TaskId, ghost first: Sim) returns (end: Ending)
      requires Valid() && main < |tasks| && LoopGetsTo(first, main, State(Head, []))
      modifies this, readyTasks, timer
      ensures end == Panicked ==> PanicsLater(first, main)
      ensures end != Panicked ==> Valid() && main < |tasks| && LoopGetsTo(first, main, State(Head, []))
      ensures end == Completed ==> tasks[main] == Finished
      ensures end == Stuck ==> Idle(State(Head, [])) && tasks[main] != Finished
    {
      ghost var m := Effort(State(Head, []), fuel);
      while tasks[main] != Finished
        invariant Valid() && main < |tasks| && LoopGetsTo(first, main, State(Head, []))
        invariant m == Effort(State(Head, []), fuel)
        decreases m.0, m.1, m.2
      {
        if readyTasks.tasks == [] && timer.timeEvents == [] {
          return Stuck;
        }
        ghost var head := State(Head, []);
        var panicked := Iterate();
        if panicked {
          return Panicked;
        }
        LoopGoesOn(first, main, head, State(Head, []));
        m := Effort(State(Head, []), fuel);
      }
      return Completed;
    }

    /** One iteration of the loop: a whole batch, then one advance of the clock. */
    method Iterate() returns (panicked: bool)
      requires Valid() && (readyTasks.tasks != [] || timer.timeEvents != [])
      modifies this, readyTasks, timer
      ensures panicked ==> PanicsNext(old(State(Head, [])))
      ensures !panicked ==>
                && Valid() && Iterates(old(State(Head, [])), State(Head, []))
                && Reaches(old(State(Head, [])), State(Head, []))
                && |old(tasks)| <= |tasks|
                && Smaller(Effort(State(Head, []), fuel), Effort(old(State(Head, [])), old(fuel)))
    {
      ghost var head := State(Head, []);
      var ran: bool;
      ran, panicked := ExecuteTasks();
      if panicked {
        return;
      }
      ghost var mid := State(Polling, []);
      if !ran {
        SameEffort(head, mid, fuel);
      }
      AdvanceClock();
      ghost var i :| Enabled(mid, Advance(i)) && State(Head, []) == Step(mid, Advance(i));
      AdvanceFacts(mid, i, fuel);
      MakesIteration(head, mid, i);
      TaskCountGrowsAlong(head, State(Head, []));
    }

    static lemma TaskCountGrowsAlong(s: Sim, r: Sim)
      requires Reaches(s, r)
      ensures |s.tasks| <= |r.tasks|
    {
      var chs :| Run(s, chs, r);
      TaskCountGrows(s, chs, r);
    }

    /** The call of `advance` at the end of each iteration. */
    method AdvanceClock()
      requires Inv(State(Polling, []))
      modifies this, readyTasks, timer
      ensures fuel == old(fuel)
      ensures exists i ::
                && Enabled(old(State(Polling, [])), Advance(i))
                && State(Head, []) == Step(old(State(Polling, [])), Advance(i))
    {
      ghost var s := State(Polling, []);
      var existed := timer.Advance(readyTasks);
      if existed {
        ghost var i: nat :| IsEarliest(s.clock.events, i)
                            && Clock(timer.currentTime, timer.timeEvents) == Pop(s.clock, i)
                            && readyTasks.tasks == s.ready + [s.clock.events[i].task];
        past := Advanced(past, readyTasks.tasks[|readyTasks.tasks| - 1]);
        AdvanceResult(s, i, State(Head, []));
      } else {
        assert Enabled(s, Advance(0)) && State(Head, []) == Step(s, Advance(0));
      }
    }

    static function Advanced(past: History, woken: TaskId): History {
      var advances := past.advances + 1;
      past.(advances := advances, wakes := past.wakes + Stamped([woken], advances))
    }

    static lemma AdvanceResult(s: Sim, i: nat, r: Sim)
      requires Enabled(s, Advance(i)) && r.phase == Head && s.clock.events != []
      requires var t := s.clock.events[i].task;
               r == s.(phase := Head, clock := Pop(s.clock, i), ready := s.ready + [t], past := Advanced(s.past, t))
      ensures r == Step(s, Advance(i))
    {
    }

    static lemma AdvanceFacts(s: Sim, i: nat, fuel: nat)
      requires Inv(s) && Enabled(s, Advance(i))
      ensures var r := Step(s, Advance(i));
              && Inv(r)
              && (s.clock.events == [] ==> Effort(r, fuel) == Effort(s, fuel))
              && (s.clock.events != [] ==> Smaller(Effort(r, fuel), Effort(s, fuel)))
    {
      StepKeepsInv(s, Advance(i));
      if s.clock.events == [] {
        SameEffort(s, Step(s, Advance(i)), fuel);
      } else {
        AdvanceShrinks(s, i);
      }
    }
  }
}
