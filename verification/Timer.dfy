/** The simulated clock and its heap of pending time events (`src/time/timer.rs`).

    The heap orders events by wake time only, so ties are popped in no particular
    order: the events are a bag, and a pop removes any earliest event. */
module Timing {
  import opened Prelude
  import opened Tasks

  /** Times and durations are unsigned 64-bit microseconds. */
  const TIME_LIMIT: nat := 0x1_0000_0000_0000_0000

  datatype TimeEvent = TimeEvent(wakeTime: nat, task: TaskId)

  datatype Clock = Clock(now: nat, events: seq<TimeEvent>)

  const Start: Clock := Clock(0, [])

  predicate IsEarliest(events: seq<TimeEvent>, i: nat) {
    i < |events| && forall j :: 0 <= j < |events| ==> events[i].wakeTime <= events[j].wakeTime
  }

  /** `SleepFut::poll`: ready once the wake time is reached, otherwise one more event. */
  function PollSleep(c: Clock, wake: nat, task: TaskId): (r: (Clock, bool)) {
    if c.now >= wake then (c, true)
    else (c.(events := c.events + [TimeEvent(wake, task)]), false)
  }

  /** `Timer::advance` on a heap whose pop yields position `i`: the clock is
      overwritten with the popped time, whatever it was before. */
  function Pop(c: Clock, i: nat): (r: Clock)
    requires i < |c.events|
  {
    Clock(c.events[i].wakeTime, RemoveAt(c.events, i))
  }

  lemma {:induction false} EarliestExists(events: seq<TimeEvent>)
    requires events != []
    ensures exists i: nat :: IsEarliest(events, i)
  {
    if |events| == 1 {
      assert IsEarliest(events, 0);
    } else {
      EarliestExists(events[1..]);
      var k: nat :| IsEarliest(events[1..], k);
      var i := if events[0].wakeTime <= events[k + 1].wakeTime then 0 else k + 1;
      forall j | 0 <= j < |events|
        ensures events[i].wakeTime <= events[j].wakeTime
      {
        if j > 0 { assert events[j] == events[1..][j - 1]; }
      }
      assert IsEarliest(events, i);
    }
  }

  // ------------------------------------------------------------------
  // Monotone time, for any interleaving of polls and advances
  // ------------------------------------------------------------------

  /** No pending event lies in the past. */
  ghost predicate NothingOverdue(c: Clock) {
    forall e :: e in c.events ==> c.now <= e.wakeTime
  }

  /** One call on the timer: an `advance` that pops position `i`, or a first or
      repeated poll of a sleep created at any earlier moment. */
  datatype TimerCall = CallAdvance(i: nat) | CallPoll(wake: nat, task: TaskId)

  predicate Possible(c: Clock, call: TimerCall) {
    call.CallAdvance? ==> c.events == [] || IsEarliest(c.events, call.i)
  }

  function After(c: Clock, call: TimerCall): (r: Clock)
    requires Possible(c, call)
  {
    match call
    case CallAdvance(i) => if c.events == [] then c else Pop(c, i)
    case CallPoll(wake, task) => PollSleep(c, wake, task).0
  }

  ghost predicate TimerRun(c: Clock, calls: seq<TimerCall>, r: Clock)
    decreases |calls|
  {
    if calls == [] then r == c
    else Possible(c, calls[0]) && TimerRun(After(c, calls[0]), calls[1..], r)
  }

  lemma AfterKeepsOrder(c: Clock, call: TimerCall)
    requires NothingOverdue(c) && Possible(c, call)
    ensures NothingOverdue(After(c, call)) && c.now <= After(c, call).now
  {
    if call.CallAdvance? && c.events != [] {
      RemoveAtMembers(c.events, call.i);
    }
  }

  /** Time never decreases and no event is ever overdue, although `advance` stores
      the popped time without looking at the current one. */
  lemma {:induction false} TimeIsMonotone(c: Clock, calls: seq<TimerCall>, r: Clock)
    requires NothingOverdue(c) && TimerRun(c, calls, r)
    ensures NothingOverdue(r) && c.now <= r.now
    decreases |calls|
  {
    if calls != [] {
      AfterKeepsOrder(c, calls[0]);
      TimeIsMonotone(After(c, calls[0]), calls[1..], r);
    }
  }

  // ------------------------------------------------------------------
  // Punctuality: the bookkeeping a sleeping task relies on
  // ------------------------------------------------------------------

  /** A task waiting until `wake` is not late, and either its own event is still
      pending or its time is now and it is in the queue `due` that will be polled
      before the clock moves again. */
  ghost predicate OnTime(c: Clock, due: seq<TaskId>, t: TaskId, wake: Option<nat>) {
    wake.Some? ==>
      && c.now <= wake.value
      && (TimeEvent(wake.value, t) in c.events || (wake.value == c.now && t in due))
  }

  /** Popping an earliest event carries punctuality across a change of the clock. */
  lemma PopKeepsOnTime(c: Clock, i: nat, t: TaskId, wake: Option<nat>, due: seq<TaskId>)
    requires IsEarliest(c.events, i)
    requires OnTime(c, [], t, wake)
    requires c.events[i].task in due
    ensures OnTime(Pop(c, i), due, t, wake)
  {
    if wake.Some? {
      var e := TimeEvent(wake.value, t);
      RemoveAtMembers(c.events, i);
      assert e in c.events;
      var k :| 0 <= k < |c.events| && c.events[k] == e;
      assert c.events[i].wakeTime <= c.events[k].wakeTime;
    }
  }

  // ------------------------------------------------------------------
  // The mutable timer
  // ------------------------------------------------------------------

  class Timer {
    var currentTime: nat
    var timeEvents: seq<TimeEvent>

    ghost function Value(): Clock
      reads this
    {
      Clock(currentTime, timeEvents)
    }

    constructor ()
      ensures Value() == Start
    {
      currentTime := 0;
      timeEvents := [];
    }

    /** Moves to the next event and wakes its task; false when there is none. */
    method Advance(queue: ReadyQueue) returns (existed: bool)
      modifies this, queue
      ensures existed == (old(timeEvents) != [])
      ensures !existed ==> Value() == old(Value()) && queue.tasks == old(queue.tasks)
      ensures existed ==> exists i: nat :: IsEarliest(old(timeEvents), i)
                                        && Value() == Pop(old(Value()), i)
                                        && currentTime == old(timeEvents)[i].wakeTime
                                        && timeEvents == RemoveAt(old(timeEvents), i)
                                        && queue.tasks == old(queue.tasks) + [old(timeEvents)[i].task]
      ensures old(NothingOverdue(Value())) ==> NothingOverdue(Value()) && old(currentTime) <= currentTime
    {
      if timeEvents == [] {
        return false;
      }
      EarliestExists(timeEvents);
      var i: nat :| i < |timeEvents| && IsEarliest(timeEvents, i);
      if NothingOverdue(Value()) {
        AfterKeepsOrder(Value(), CallAdvance(i));
      }
      var event := timeEvents[i];
      timeEvents := RemoveAt(timeEvents, i);
      currentTime := event.wakeTime;
      queue.Wake(event.task);
      return true;
    }

    /** Creates a sleep; `None` is the panic on 64-bit overflow of the wake time. */
    method SleepFor(duration: nat) returns (f: Option<SleepFut>)
      ensures f.Some? <==> currentTime + duration < TIME_LIMIT
      ensures f.Some? ==> f.value.timer == this && f.value.wakeTime == currentTime + duration
    {
      if currentTime + duration >= TIME_LIMIT {
        return None;
      }
      var fut := new SleepFut(this, currentTime + duration);
      return Some(fut);
    }
  }

  class SleepFut {
    const timer: Timer
    const wakeTime: nat

    constructor (timer: Timer, wakeTime: nat)
      ensures this.timer == timer && this.wakeTime == wakeTime
    {
      this.timer := timer;
      this.wakeTime := wakeTime;
    }

    method Poll(task: TaskId) returns (ready: bool)
      modifies timer
      ensures (timer.Value(), ready) == PollSleep(old(timer.Value()), wakeTime, task)
      ensures ready == (timer.currentTime >= wakeTime) && timer.currentTime == old(timer.currentTime)
      ensures timer.timeEvents == old(timer.timeEvents) + (if ready then [] else [TimeEvent(wakeTime, task)])
      ensures OnTime(timer.Value(), [], task, if ready then None else Some(wakeTime))
    {
      if timer.currentTime >= wakeTime {
        return true;
      }
      timer.timeEvents := timer.timeEvents + [TimeEvent(wakeTime, task)];
      return false;
    }
  }
}
