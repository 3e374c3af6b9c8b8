/** The futures that wait on a condition variable (`src/sync/mutex.rs`, lines
    151-176, and `src/sync/sync_mutex.rs`, lines 82-111). */
module CondWaits {
  import opened Prelude
  import opened Tasks
  import opened Timing
  import opened Mutexes
  import opened Condvars

  datatype Outcome = Ready | Pending | Panic

  /** A wait that must own its mutex again before it returns. */
  class CondWait {
    const mutex: Mutex
    const condvar: Condvar
    const flag: Flag
    var lockFuture: Option<nat>

    /** Once the lock is requested the wait was notified, and it stays queued at the mutex. */
    ghost predicate Valid()
      reads this, mutex, flag
    {
      && mutex.Valid()
      && (lockFuture.Some? ==> flag.woken && exists w :: w in mutex.waiters && w.id == lockFuture.value)
    }

    /** `Condvar::wait` drops the guard it is given before the wait is first polled. */
    constructor (condvar: Condvar, mutex: Mutex, queue: ReadyQueue)
      requires mutex.Valid() && mutex.guards > 0
      modifies mutex, queue
      ensures Valid() && this.mutex == mutex && this.condvar == condvar && lockFuture == None
      ensures fresh(flag) && !flag.woken
      ensures !mutex.isLocked && mutex.guards == 0
      ensures mutex.waiters == old(mutex.waiters) && mutex.nextWaiterId == old(mutex.nextWaiterId)
      ensures mutex.Value() == DropGuard(old(mutex.Value())).0
      ensures queue.tasks == old(queue.tasks) + (if mutex.waiters == [] then [] else [mutex.waiters[0].task])
    {
      mutex.Drop(queue);
      this.mutex := mutex;
      this.condvar := condvar;
      this.flag := new Flag();
      this.lockFuture := None;
    }

    /** A poll returns only to a wait that was notified, and only with its mutex
        taken from being free; until it is notified it is in the condvar's queue. */
    method Poll(task: TaskId) returns (r: Outcome)
      requires Valid()
      modifies this, mutex, condvar
      ensures Valid()
      ensures flag.woken == old(flag.woken)
      ensures r == Ready ==> flag.woken && mutex.isLocked && !old(mutex.isLocked)
      ensures r == Pending && flag.woken ==> mutex.isLocked && lockFuture.Some?
      ensures r == Pending && flag.woken && old(lockFuture).None? ==>
                && lockFuture == Some(old(mutex.nextWaiterId))
                && mutex.waiters == old(mutex.waiters) + [Waiter(old(mutex.nextWaiterId), task)]
                && mutex.nextWaiterId == old(mutex.nextWaiterId) + 1
      ensures r == Pending && old(lockFuture).Some? ==>
                lockFuture == old(lockFuture) && mutex.Value() == old(mutex.Value())
      ensures r == Ready && old(lockFuture).None? ==>
                mutex.waiters == old(mutex.waiters) && mutex.nextWaiterId == old(mutex.nextWaiterId) + 1
      ensures r == Ready && old(lockFuture).Some? ==>
                && mutex.nextWaiterId == old(mutex.nextWaiterId)
                && Polled(old(mutex.waiters), old(lockFuture).value, task, true, mutex.waiters)
      ensures r == Pending && !flag.woken ==>
                && lockFuture == None && mutex.Value() == old(mutex.Value()) && flag in condvar.Queue()
                && condvar.waiters == old(condvar.waiters) + [Entry(flag, task)]
                && condvar.Queue() == old(condvar.Queue()) + (if flag in old(condvar.Queue()) then [] else [flag])
      ensures flag.woken ==> condvar.waiters == old(condvar.waiters)
      ensures r == Panic <==>
                flag.woken && old(lockFuture).None? && old(mutex.nextWaiterId) + 1 >= 0x1_0000_0000
    {
      if lockFuture.Some? {
        var got := mutex.PollLockFuture(lockFuture.value, task);
        if got {
          lockFuture := None;  // the future is consumed together with the wait
          return Ready;
        }
        return Pending;
      } else if flag.woken {
        var ticket := mutex.Lock();
        if ticket.None? {
          return Panic;
        }
        var got := mutex.PollLockFuture(ticket.value, task);
        if got {
          return Ready;
        }
        lockFuture := ticket;
        return Pending;
      } else {
        condvar.Enlist(flag, task);
        assert condvar.waiters[|condvar.waiters| - 1].wait == flag;
        return Pending;
      }
    }
  }

  /** A wait over a lock that is never held across a suspension point. */
  class SyncCondWait {
    const condvar: Condvar
    const flag: Flag

    constructor (condvar: Condvar)
      ensures this.condvar == condvar && fresh(flag) && !flag.woken
    {
      this.condvar := condvar;
      this.flag := new Flag();
    }

    method Poll(task: TaskId) returns (r: Outcome)
      modifies condvar
      ensures r == (if flag.woken then Ready else Pending)
      ensures r == Ready ==> condvar.waiters == old(condvar.waiters)
      ensures r == Pending ==>
                && condvar.waiters == old(condvar.waiters) + [Entry(flag, task)]
                && condvar.Queue() == old(condvar.Queue()) + (if flag in old(condvar.Queue()) then [] else [flag])
    {
      if flag.woken {
        return Ready;
      }
      condvar.Enlist(flag, task);
      return Pending;
    }
  }

  /** As above with a deadline: whichever of the notification and the sleep is first. */
  class SyncCondTimeoutWait {
    const condvar: Condvar
    const flag: Flag
    const sleepFut: SleepFut

    /** The zero timeout trips the assertion, so callers must not pass it. */
    constructor (condvar: Condvar, timer: Timer, timeout: nat)
      requires timeout > 0 && timer.currentTime + timeout < TIME_LIMIT
      ensures this.condvar == condvar && fresh(flag) && !flag.woken
      ensures sleepFut.timer == timer && sleepFut.wakeTime == timer.currentTime + timeout
    {
      this.condvar := condvar;
      this.flag := new Flag();
      this.sleepFut := new SleepFut(timer, timer.currentTime + timeout);
    }

    /** Before the deadline it returns only if it was notified. */
    method Poll(task: TaskId) returns (r: Outcome)
      modifies condvar, sleepFut.timer
      ensures r == Ready <==> flag.woken || sleepFut.timer.currentTime >= sleepFut.wakeTime
      ensures r == Ready || r == Pending
      ensures sleepFut.timer.currentTime == old(sleepFut.timer.currentTime)
      ensures r == Ready ==>
                && sleepFut.timer.timeEvents == old(sleepFut.timer.timeEvents)
                && condvar.waiters == old(condvar.waiters)
      ensures r == Pending ==>
                && OnTime(sleepFut.timer.Value(), [], task, Some(sleepFut.wakeTime))
                && condvar.waiters == old(condvar.waiters) + [Entry(flag, task)]
    {
      if flag.woken {
        return Ready;
      }
      var elapsed := sleepFut.Poll(task);
      if elapsed {
        return Ready;
      }
      condvar.Enlist(flag, task);
      return Pending;
    }
  }
}
