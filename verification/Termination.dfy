/** Every simulation whose tasks perform finitely many operations comes to rest,
    although wakes can be duplicated and stale events stay in the heap.

    The measure is lexicographic: the operations and polls left to complete, then the
    wake tokens in flight. A token for a sleeping task weighs 3 in a queue and 2 in the
    heap at its own wake time; any other token weighs 1 in a queue and 4 in the heap. */
module Termination {
  import opened Prelude
  import opened Tasks
  import opened Timing
  import opened Simulation
  import opened Invariants
  import opened Guarantees

  // ------------------------------------------------------------------
  // Weighted sums
  // ------------------------------------------------------------------

  ghost function Sum<T>(w: T -> nat, xs: seq<T>): nat {
    if xs == [] then 0 else w(xs[0]) + Sum(w, xs[1..])
  }

  lemma {:induction false} SumConcat<T>(w: T -> nat, xs: seq<T>, ys: seq<T>)
    ensures Sum(w, xs + ys) == Sum(w, xs) + Sum(w, ys)
  {
    if xs == [] {
      assert xs + ys == ys;
    } else {
      assert (xs + ys)[1..] == xs[1..] + ys;
      SumConcat(w, xs[1..], ys);
    }
  }

  lemma SumPush<T>(w: T -> nat, xs: seq<T>, x: T)
    ensures Sum(w, xs + [x]) == Sum(w, xs) + w(x)
  {
    SumConcat(w, xs, [x]);
    assert [x][1..] == [];
  }

  lemma {:induction false} SumLess<T>(v: T -> nat, w: T -> nat, xs: seq<T>)
    requires forall i :: 0 <= i < |xs| ==> v(xs[i]) <= w(xs[i])
    ensures Sum(v, xs) <= Sum(w, xs)
  {
    if xs != [] {
      SumLess(v, w, xs[1..]);
    }
  }

  lemma SumRemove<T>(w: T -> nat, xs: seq<T>, i: nat)
    requires i < |xs|
    ensures Sum(w, RemoveAt(xs, i)) == Sum(w, xs) - w(xs[i])
  {
    SumConcat(w, xs[..i], xs[i..]);
    SumConcat(w, xs[..i], xs[i + 1..]);
    assert xs == xs[..i] + xs[i..];
    assert xs[i..][1..] == xs[i + 1..];
  }

  lemma SumUpdate<T>(w: T -> nat, xs: seq<T>, i: nat, x: T)
    requires i < |xs|
    ensures Sum(w, xs[i := x]) == Sum(w, xs) - w(xs[i]) + w(x)
  {
    SumConcat(w, xs[..i], xs[i..]);
    SumConcat(w, xs[..i], [x] + xs[i + 1..]);
    assert xs == xs[..i] + xs[i..];
    assert xs[i := x] == xs[..i] + ([x] + xs[i + 1..]);
    assert ([x] + xs[i + 1..])[1..] == xs[i + 1..];
    assert xs[i..][1..] == xs[i + 1..];
  }

  // ------------------------------------------------------------------
  // The measure
  // ------------------------------------------------------------------

  ghost function Left(): Status -> nat {
    (st: Status) => if st == Finished then 0 else if st == Running then 1 else 2
  }

  /** `fuel` is the number of operations and outside spawns still to come. */
  ghost function Work(s: Sim, fuel: nat): nat {
    3 * fuel + Sum(Left(), s.tasks)
  }

  ghost predicate Asleep(s: Sim, t: TaskId) {
    t < |s.tasks| && WakeOf(s.tasks[t]).Some? && s.clock.now < WakeOf(s.tasks[t]).value
  }

  ghost function InQueue(s: Sim): TaskId -> nat {
    (t: TaskId) => if Asleep(s, t) then 3 else 1
  }

  ghost function InHeap(s: Sim): TimeEvent -> nat {
    (e: TimeEvent) => if e.task < |s.tasks| && WakeOf(s.tasks[e.task]) == Some(e.wakeTime) then 2 else 4
  }

  ghost function Tokens(s: Sim): nat {
    Sum(InQueue(s), s.batch) + Sum(InQueue(s), s.ready) + Sum(InHeap(s), s.clock.events)
  }

  /** The loop itself takes at most two steps in a row that serve no token. */
  ghost function Slack(s: Sim): nat {
    if s.phase == Head then 1
    else if s.batch == [] && s.current == None && s.clock.events == [] then 2
    else 0
  }

  ghost predicate Smaller(a: (nat, nat, nat), b: (nat, nat, nat)) {
    a.0 < b.0 || (a.0 == b.0 && (a.1 < b.1 || (a.1 == b.1 && a.2 < b.2)))
  }

  ghost function Measure(s: Sim, fuel: nat): (nat, nat, nat) {
    (Work(s, fuel), Tokens(s), Slack(s))
  }

  /** Finishing is free: a task that has nothing left to do always may. */
  predicate IsOp(ch: Choice) {
    ch.External? || (ch.Act? && ch.op != Finish)
  }

  /** The part of the measure that does not concern the loop itself. */
  ghost function Effort(s: Sim, fuel: nat): (nat, nat, nat) {
    (Work(s, fuel), Tokens(s), 0)
  }

  lemma SumSame<T>(v: T -> nat, w: T -> nat, xs: seq<T>)
    requires forall i :: 0 <= i < |xs| ==> v(xs[i]) == w(xs[i])
    ensures Sum(v, xs) == Sum(w, xs)
  {
    SumLess(v, w, xs);
    SumLess(w, v, xs);
  }

  /** Moving the batch costs no effort, and neither does remembering the past. */
  lemma SameEffort(s: Sim, r: Sim, fuel: nat)
    requires s.tasks == r.tasks && s.clock == r.clock && s.batch + s.ready == r.batch + r.ready
    ensures Effort(r, fuel) == Effort(s, fuel)
  {
    SumConcat(InQueue(s), s.batch, s.ready);
    SumConcat(InQueue(r), r.batch, r.ready);
    SumSame(InQueue(s), InQueue(r), s.batch + s.ready);
    SumSame(InHeap(s), InHeap(r), s.clock.events);
  }

  // ------------------------------------------------------------------
  // Every step that is not idle decreases it
  // ------------------------------------------------------------------

  lemma OpShrinks(s: Sim, ch: Choice, fuel: nat)
    requires Inv(s) && Enabled(s, ch) && IsOp(ch) && fuel > 0
    ensures Work(Step(s, ch), fuel - 1) < Work(s, fuel)
  {
    var r := Step(s, ch);
    if ch.External? || ch == Act(Spawn) {
      assert r.tasks == s.tasks + [New];
      SumPush(Left(), s.tasks, New);
    } else {
      var t := s.current.value;
      PerformFrame(s, t, ch.op);
      OnlyStatusChanges(s, t, ch.op);
      assert r.tasks == s.tasks[t := r.tasks[t]];
      SumUpdate(Left(), s.tasks, t, r.tasks[t]);
    }
  }

  lemma OnlyStatusChanges(s: Sim, t: TaskId, op: Op)
    requires t < |s.tasks| && Legal(s, op) && op != Spawn
    ensures |Perform(s, t, op).tasks| == |s.tasks|
  {
  }

  /** A poll that does not resume its task consumes a token; a sleeping task turns
      it into a cheaper one. */
  lemma PollShrinks(s: Sim, fuel: nat)
    requires Inv(s) && Enabled(s, PollNext)
    ensures var r := Step(s, PollNext);
            || Work(r, fuel) < Work(s, fuel)
            || (Work(r, fuel) == Work(s, fuel) && Tokens(r) < Tokens(s))
  {
    var t, r := s.batch[0], Step(s, PollNext);
    PollFrame(PopBatch(s), t);
    assert r.tasks == s.tasks[t := r.tasks[t]];
    SumUpdate(Left(), s.tasks, t, r.tasks[t]);
    if r.tasks[t] != Running {
      PollLeavesWeights(s);
      TokensFall(s, r);
    }
  }

  /** The token of the polled task is gone, or became an event at its own wake time. */
  lemma TokensFall(s: Sim, r: Sim)
    requires s.batch != [] && r.batch == s.batch[1..] && r.ready == s.ready
    requires |r.tasks| == |s.tasks| && r.clock.now == s.clock.now
    requires forall u :: 0 <= u < |s.tasks| ==> WakeOf(r.tasks[u]) == WakeOf(s.tasks[u])
    requires var t := s.batch[0];
             || r.clock.events == s.clock.events
             || (Asleep(s, t) && r.clock.events == s.clock.events + [TimeEvent(WakeOf(s.tasks[t]).value, t)])
    ensures Tokens(r) < Tokens(s)
  {
    SumLess(InQueue(r), InQueue(s), r.batch);
    SumLess(InQueue(r), InQueue(s), r.ready);
    SumLess(InHeap(r), InHeap(s), s.clock.events);
    if r.clock.events != s.clock.events {
      SumPush(InHeap(r), s.clock.events, TimeEvent(WakeOf(s.tasks[s.batch[0]]).value, s.batch[0]));
    }
  }

  lemma PollLeavesWeights(s: Sim)
    requires Inv(s) && Enabled(s, PollNext) && s.batch[0] < |Step(s, PollNext).tasks|
    requires Step(s, PollNext).tasks[s.batch[0]] != Running
    ensures var (r, t) := (Step(s, PollNext), s.batch[0]);
            && |r.tasks| == |s.tasks| && r.clock.now == s.clock.now
            && r.tasks[t] != New && (r.tasks[t] == Finished <==> s.tasks[t] == Finished)
            && (forall u :: 0 <= u < |s.tasks| ==> WakeOf(r.tasks[u]) == WakeOf(s.tasks[u]))
            && (r.clock.events == s.clock.events ||
                (Asleep(s, t) && r.clock.events == s.clock.events + [TimeEvent(WakeOf(s.tasks[t]).value, t)]))
  {
    PollFrame(PopBatch(s), s.batch[0]);
  }

  /** Popping an event turns it into a cheaper token, and wakes nobody else's up early. */
  lemma AdvanceShrinks(s: Sim, i: nat)
    requires Inv(s) && Enabled(s, Advance(i)) && s.clock.events != []
    ensures Tokens(Step(s, Advance(i))) < Tokens(s)
  {
    var r, e := Step(s, Advance(i)), s.clock.events[i];
    assert e in s.clock.events;
    SumLess(InQueue(r), InQueue(s), s.ready);
    SumPush(InQueue(r), s.ready, e.task);
    SumRemove(InHeap(s), s.clock.events, i);
    SumLess(InHeap(r), InHeap(s), r.clock.events);
  }

  lemma StepShrinks(s: Sim, ch: Choice, fuel: nat)
    requires Inv(s) && Enabled(s, ch) && !Idle(s) && (IsOp(ch) ==> fuel > 0)
    ensures Smaller(Measure(Step(s, ch), if IsOp(ch) then fuel - 1 else fuel), Measure(s, fuel))
  {
    if IsOp(ch) {
      OpShrinks(s, ch, fuel);
    } else if ch == Act(Finish) {
      SumUpdate(Left(), s.tasks, s.current.value, Finished);
    } else if ch.PollNext? {
      PollShrinks(s, fuel);
    } else if ch.Advance? && s.clock.events != [] {
      AdvanceShrinks(s, ch.i);
    } else {
      LoopStepShrinks(s, ch, fuel);
    }
  }

  /** Taking an empty batch or advancing an empty heap changes the phase only. */
  lemma LoopStepShrinks(s: Sim, ch: Choice, fuel: nat)
    requires Inv(s) && Enabled(s, ch) && !Idle(s) && (ch.Take? || (ch.Advance? && s.clock.events == []))
    ensures Smaller(Measure(Step(s, ch), fuel), Measure(s, fuel))
  {
    SameEffort(s, Step(s, ch), fuel);
  }

  // ------------------------------------------------------------------
  // Runs come to rest
  // ------------------------------------------------------------------

  /** How many of the first `n` choices are operations or outside spawns. */
  ghost function OpsBefore(chs: nat -> Choice, n: nat): nat {
    if n == 0 then 0 else OpsBefore(chs, n - 1) + (if IsOp(chs(n - 1)) then 1 else 0)
  }

  ghost predicate Execution(run: nat -> Sim, chs: nat -> Choice) {
    forall k: nat {:trigger chs(k)} :: Enabled(run(k), chs(k)) && run(k + 1) == Step(run(k), chs(k))
  }

  lemma {:induction false} ExecutionKeepsInv(run: nat -> Sim, chs: nat -> Choice, k: nat)
    requires Execution(run, chs) && Inv(run(0))
    ensures Inv(run(k))
  {
    if k > 0 {
      ExecutionKeepsInv(run, chs, k - 1);
      StepKeepsInv(run(k - 1), chs(k - 1));
      assert run(k - 1 + 1) == Step(run(k - 1), chs(k - 1));
    }
  }

  /** A sequence of measures cannot decrease for ever. */
  lemma {:induction false} DescentStops(ms: nat -> (nat, nat, nat), stop: nat -> bool, i: nat) returns (j: nat)
    requires forall k: nat {:trigger stop(k)} :: stop(k) || Smaller(ms(k + 1), ms(k))
    ensures i <= j && stop(j)
    decreases ms(i).0, ms(i).1, ms(i).2
  {
    if stop(i) {
      return i;
    }
    j := DescentStops(ms, stop, i + 1);
  }

  ghost function MeasureAt(run: nat -> Sim, chs: nat -> Choice, fuel: nat, k: nat): (nat, nat, nat) {
    if OpsBefore(chs, k) <= fuel then Measure(run(k), fuel - OpsBefore(chs, k)) else (0, 0, 0)
  }

  /** An endless execution whose tasks perform at most `fuel` operations becomes idle. */
  lemma ComesToRest(run: nat -> Sim, chs: nat -> Choice, fuel: nat, i: nat) returns (j: nat)
    requires Execution(run, chs) && Reachable(run(0))
    requires forall k: nat :: OpsBefore(chs, k) <= fuel
    ensures i <= j && Idle(run(j))
  {
    ReachableIsInv(run(0));
    forall k: nat
      ensures Idle(run(k)) || Smaller(MeasureAt(run, chs, fuel, k + 1), MeasureAt(run, chs, fuel, k))
    {
      if !Idle(run(k)) { MeasureDescends(run, chs, fuel, k); }
    }
    j := DescentStops((k: nat) => MeasureAt(run, chs, fuel, k), (k: nat) => Idle(run(k)), i);
  }

  lemma MeasureDescends(run: nat -> Sim, chs: nat -> Choice, fuel: nat, i: nat)
    requires Execution(run, chs) && Inv(run(0)) && !Idle(run(i))
    requires forall k: nat :: OpsBefore(chs, k) <= fuel
    ensures Smaller(MeasureAt(run, chs, fuel, i + 1), MeasureAt(run, chs, fuel, i))
  {
    ExecutionKeepsInv(run, chs, i);
    assert OpsBefore(chs, i + 1) <= fuel;
    StepShrinks(run(i), chs(i), fuel - OpsBefore(chs, i));
  }

  // ------------------------------------------------------------------
  // One iteration of the loop
  // ------------------------------------------------------------------

  ghost predicate IsPolling(chs: seq<Choice>) {
    forall k :: 0 <= k < |chs| ==> chs[k].PollNext? || chs[k].Act?
  }

  ghost function OpsIn(chs: seq<Choice>): nat {
    if chs == [] then 0 else (if IsOp(chs[0]) then 1 else 0) + OpsIn(chs[1..])
  }

  /** `r` is `s` after one iteration: a batch is taken and polled, up to `mid`, and the
      clock is advanced. */
  ghost predicate Iteration(s: Sim, chs: seq<Choice>, mid: Sim, i: nat, r: Sim) {
    && Enabled(s, Take) && IsPolling(chs) && Run(Step(s, Take), chs, mid)
    && Enabled(mid, Advance(i)) && r == Step(mid, Advance(i))
  }

  /** Polls and operations of one batch lead from `s` to `r`. */
  ghost predicate PollsTo(s: Sim, r: Sim) {
    exists chs :: IsPolling(chs) && Run(s, chs, r)
  }

  lemma PollsToSelf(s: Sim)
    ensures PollsTo(s, s)
  {
    assert IsPolling([]) && Run(s, [], s);
  }

  lemma PollsToStep(s: Sim, ch: Choice)
    requires Enabled(s, ch) && (ch.PollNext? || ch.Act?)
    ensures PollsTo(s, Step(s, ch))
  {
    ghost var r := Step(s, ch);
    assert Run(r, [ch][1..], r);
    assert IsPolling([ch]) && Run(s, [ch], r);
  }

  lemma PollsToTransitive(s: Sim, m: Sim, r: Sim)
    requires PollsTo(s, m) && PollsTo(m, r)
    ensures PollsTo(s, r)
  {
    var a :| IsPolling(a) && Run(s, a, m);
    var b :| IsPolling(b) && Run(m, b, r);
    RunConcat(s, a, m, b, r);
    assert IsPolling(a + b);
  }

  lemma PollsToReaches(s: Sim, r: Sim)
    requires Enabled(s, Take) && PollsTo(Step(s, Take), r)
    ensures Reaches(s, r)
  {
    var chs :| IsPolling(chs) && Run(Step(s, Take), chs, r);
    assert Reaches(Step(s, Take), r) && OneStep(s, Step(s, Take));
    ReachesAfterStep(s, Step(s, Take), r);
  }

  /** One iteration of the loop leads from `s` to `r`. */
  ghost predicate Iterates(s: Sim, r: Sim) {
    exists chs, mid, i :: Iteration(s, chs, mid, i, r)
  }

  lemma MakesIteration(s: Sim, mid: Sim, i: nat)
    requires Enabled(s, Take) && PollsTo(Step(s, Take), mid) && Enabled(mid, Advance(i))
    ensures Iterates(s, Step(mid, Advance(i))) && Reaches(s, Step(mid, Advance(i)))
  {
    var chs :| IsPolling(chs) && Run(Step(s, Take), chs, mid);
    assert Iteration(s, chs, mid, i, Step(mid, Advance(i)));
    PollsToReaches(s, mid);
    ReachesStep(s, mid, Advance(i));
  }

  /** The loop of `block_on` for task `main`: `n` iterations lead from `s` to `r`, and
      each of them began because `main` was not finished. */
  ghost predicate LoopsTo(s: Sim, main: TaskId, r: Sim, n: nat)
    decreases n
  {
    if n == 0 then r == s
    else exists m :: LoopsTo(s, main, m, n - 1) && Unfinished(m, main) && Iterates(m, r)
  }

  predicate Unfinished(s: Sim, t: TaskId) {
    t < |s.tasks| && s.tasks[t] != Finished
  }

  lemma LoopsOnce(s: Sim, main: TaskId, m: Sim, n: nat, r: Sim)
    requires LoopsTo(s, main, m, n) && Unfinished(m, main) && Iterates(m, r)
    ensures LoopsTo(s, main, r, n + 1)
  {
  }

  lemma IteratesReaches(s: Sim, r: Sim)
    requires Iterates(s, r)
    ensures Reaches(s, r)
  {
    var chs, mid, i :| Iteration(s, chs, mid, i, r);
    assert PollsTo(Step(s, Take), mid);
    MakesIteration(s, mid, i);
  }

  lemma {:induction false} LoopsReach(s: Sim, main: TaskId, r: Sim, n: nat)
    requires LoopsTo(s, main, r, n)
    ensures Reaches(s, r)
    decreases n
  {
    if n == 0 {
      ReachesSelf(s);
    } else {
      var m :| LoopsTo(s, main, m, n - 1) && Unfinished(m, main) && Iterates(m, r);
      LoopsReach(s, main, m, n - 1);
      IteratesReaches(m, r);
      ReachesTransitive(s, m, r);
    }
  }

  /** The loop of `block_on` gets to `r`. */
  ghost predicate LoopGetsTo(s: Sim, main: TaskId, r: Sim) {
    exists n :: LoopsTo(s, main, r, n)
  }

  lemma LoopGoesOn(s: Sim, main: TaskId, m: Sim, r: Sim)
    requires LoopGetsTo(s, main, m) && Unfinished(m, main) && Iterates(m, r)
    ensures LoopGetsTo(s, main, r)
  {
    var n :| LoopsTo(s, main, m, n);
    LoopsOnce(s, main, m, n, r);
  }

  lemma SmallerTransitive(a: (nat, nat, nat), b: (nat, nat, nat), c: (nat, nat, nat))
    requires Smaller(a, b) && Smaller(b, c)
    ensures Smaller(a, c)
  {
  }

  lemma PollingStepShrinks(s: Sim, ch: Choice, fuel: nat)
    requires Inv(s) && Enabled(s, ch) && (ch.PollNext? || ch.Act?) && (IsOp(ch) ==> fuel > 0)
    ensures Smaller(Effort(Step(s, ch), if IsOp(ch) then fuel - 1 else fuel), Effort(s, fuel))
  {
    if IsOp(ch) {
      OpShrinks(s, ch, fuel);
    } else if ch.PollNext? {
      PollShrinks(s, fuel);
    } else {
      SumUpdate(Left(), s.tasks, s.current.value, Finished);
    }
  }

  lemma {:induction false} PollingShrinks(s: Sim, chs: seq<Choice>, r: Sim, fuel: nat)
    requires Inv(s) && IsPolling(chs) && Run(s, chs, r) && OpsIn(chs) <= fuel
    ensures Inv(r) && (chs != [] ==> Smaller(Effort(r, fuel - OpsIn(chs)), Effort(s, fuel)))
    decreases |chs|
  {
    if chs != [] {
      var n, left := Step(s, chs[0]), if IsOp(chs[0]) then fuel - 1 else fuel;
      StepKeepsInv(s, chs[0]);
      PollingStepShrinks(s, chs[0], fuel);
      assert left - OpsIn(chs[1..]) == fuel - OpsIn(chs);
      PollingShrinks(n, chs[1..], r, left);
      if chs[1..] != [] {
        SmallerTransitive(Effort(r, fuel - OpsIn(chs)), Effort(n, left), Effort(s, fuel));
      }
    }
  }

  lemma IterationShrinks(s: Sim, chs: seq<Choice>, mid: Sim, i: nat, r: Sim, fuel: nat)
    requires Inv(s) && Iteration(s, chs, mid, i, r) && !Idle(s) && OpsIn(chs) <= fuel
    ensures Smaller(Effort(r, fuel - OpsIn(chs)), Effort(s, fuel))
  {
    var start, left := Step(s, Take), fuel - OpsIn(chs);
    StepKeepsInv(s, Take);
    SameEffort(s, start, fuel);
    PollingShrinks(start, chs, mid, fuel);
    if mid.clock.events == [] {
      SameEffort(mid, r, left);
    } else {
      AdvanceShrinks(mid, i);
      AdvanceKeepsWork(mid, i);
    }
  }

  lemma AdvanceKeepsWork(s: Sim, i: nat)
    requires Enabled(s, Advance(i))
    ensures Step(s, Advance(i)).tasks == s.tasks
  {
  }

  /** The body of the loop changes nothing exactly at rest. Elsewhere an iteration
      changes the state, or uses up operations that the tasks still had to perform;
      what is remembered of the past does not matter. */
  lemma UnchangedOnlyAtRest(s: Sim, chs: seq<Choice>, mid: Sim, i: nat, r: Sim)
    requires Reachable(s) && Iteration(s, chs, mid, i, r)
    ensures Idle(s) ==> r == s
    ensures r.(past := s.past) == s && OpsIn(chs) == 0 ==> Idle(s)
    ensures r == s ==> Idle(s)
  {
    ReachableIsInv(s);
    if Idle(s) {
      NothingToPoll(s, chs, mid);
    } else {
      IterationShrinks(s, chs, mid, i, r, OpsIn(chs));
      if r.(past := s.past) == s && OpsIn(chs) == 0 {
        SameEffort(r, s, 0);
      }
      IterationLeavesTrace(s, chs, mid, i, r);
    }
  }

  lemma NothingToPoll(s: Sim, chs: seq<Choice>, mid: Sim)
    requires s.phase == Head && s.current == None && s.ready == [] && IsPolling(chs) && Run(Step(s, Take), chs, mid)
    ensures chs == [] && mid == Step(s, Take)
  {
  }

  /** The past shows that something was served or that the clock was advanced. */
  lemma IterationLeavesTrace(s: Sim, chs: seq<Choice>, mid: Sim, i: nat, r: Sim)
    requires Inv(s) && Iteration(s, chs, mid, i, r) && !Idle(s)
    ensures r.past != s.past
  {
    StepKeepsInv(s, Take);
    PollingPast(Step(s, Take), chs, mid);
    if s.ready == [] {
      NothingToPoll(s, chs, mid);
    }
  }

  lemma {:induction false} PollingPast(s: Sim, chs: seq<Choice>, r: Sim)
    requires Inv(s) && IsPolling(chs) && Run(s, chs, r)
    ensures r.past.served + |r.batch| == s.past.served + |s.batch| && r.past.advances == s.past.advances
    decreases |chs|
  {
    if chs != [] {
      if chs[0].PollNext? {
        PollFrame(PopBatch(s), s.batch[0]);
      } else {
        PerformFrame(s, s.current.value, chs[0].op);
      }
      StepKeepsInv(s, chs[0]);
      PollingPast(Step(s, chs[0]), chs[1..], r);
    }
  }

  /** At rest, an iteration is possible and changes nothing. */
  lemma IdleIsFixpoint(s: Sim, i: nat)
    requires s.phase == Head && Idle(s)
    ensures Enabled(s, Take) && Enabled(Step(s, Take), Advance(i)) && !Enabled(Step(s, Take), PollNext)
    ensures Step(Step(s, Take), Advance(i)) == s
  {
  }
}
