# A verified model of asim

asim is a single-threaded discrete event simulator: asynchronous tasks run on an
executor with a simulated clock, synchronise through mutexes, condition variables and
channels, and may form a network of nodes that send each other messages over links. This
project models the three layers together and proves what a simulation can rely on. Most
guarantees belong to no single function; they follow from how the executor loop, the
event heap and the waiter lists work together.

## How it is built

- `Timer.dfy`, `Tasks.dfy`, `Mutex.dfy`, `Condvar.dfy`, `CondWait.dfy`, `Channel.dfy`:
  the primitives as classes, with loops and fields as in the code. Each is proved against
  a value (`Clock`, `MutexState`, a list of entries, `ChannelState`) and small functions
  on it. The list of a condition variable, which has duplicate and stale entries, is shown
  to refine a queue of distinct waits.
- `Simulation.dfy`: the executor loop as a transition system over the same functions.
  What a task does is not restricted: while it runs it performs any operations in any
  order, so the runs of every program are among the runs of the system. `past` records
  history for the statements; no step reads it.
- `Effects.dfy`: what every operation and poll changes, field by field, and the laws over
  runs that follow: the stream law of channels and the conservation of lock guards.
- `Invariants.dfy`: one invariant that joins all components, kept by every step.
- `Guarantees.dfy`: the theorems about every run. `Termination.dfy`: the measure.
- `Runtime.dfy`: the executor as a class. Its methods are proved to perform exactly steps
  of the transition system, and `BlockOn` is proved to end by the measure.
- `Bandwidth.dfy`, `Link.dfy`, `Topology.dfy`, `Inbox.dfy`: size delays, message counters
  with 32-bit wrap-around, link tables, and the inbox loop as a server.
- `Network.dfy`, `NetworkInvariants.dfy`, `NetworkGuarantees.dfy`: the network as a second
  transition system under the same executor loop, its invariant and its theorems;
  `NetworkEffects.dfy`: its operations field by field, and that messages are those sent.

A waker is the number of the task it wakes, and a future is what its task is suspended
on. A panic is an explicit outcome of a method, or a step that is not enabled. Microseconds
are natural numbers; a wake time that does not fit 64 bits is a panic where the code asserts.

## What does not hold

Each of these is what one might expect, and is shown to fail.

- Work at one time does not all finish before time moves: `block_on` advances the clock
  also while tasks are ready (`Guarantees.TimeMovesPastReadyWork`). It happens exactly when
  a task is ready while the heap offers only later events
  (`Guarantees.ClockOvertakesWorkIff`). Which wakes it concerns is exact too: those made
  in the middle of a batch, and they wait for one advance (`Guarantees.PolledWithoutDelay`).
- Mutexes are not acquired first come, first served: a fresh request takes a free mutex
  ahead of every waiter, exactly when it is free (`Mutexes.LockFresh`;
  `Guarantees.LateComerOvertakes` is a run).
- `notify_one` may reach nobody although a task waits: exactly when the head of the queue
  is a timed wait that ended (`Guarantees.NotifyOneServesQueue`,
  `Guarantees.EndedWaitTakesNotification`). It cannot happen on a condvar that no task
  waits on with a deadline (`Guarantees.UntimedNotificationArrives`).
- Messages in one direction of a link may be reversed when their latencies began to pass
  at the same time, because the heap orders events by time alone
  (`NetworkGuarantees.DeliveryOrder`). In `NetworkGuarantees.TiedMessageOvertakes` four
  messages tie and the third overtakes the second; the binary heap of the standard library
  pops four equal events in the order first, third, second, fourth.
- The delivery assertion of a link fails once 2^32 messages are in flight in one direction
  (`Links.SentAccounts`, `Links.WrapBreaksDelivery`, `Links.LimitIsReached`).

Where comments and code disagree, the code is followed: `Timer::now` and `Latency` are
documented in milliseconds but hold microseconds. `Condvar` and `SyncCondvar` have the
same code, so one class models both.

## Model

| member | source | states |
|---|---|---|
| Timing.TimeIsMonotone | src/time/timer.rs:59-117 | over any sequence of advances and of first or repeated polls, however delayed, time never decreases and no pending event is ever overdue, although the popped time is stored unconditionally |
| Timing.PopKeepsOnTime | src/time/timer.rs:59-70 | popping any earliest event, ties included, keeps every sleeper either registered at its own wake time or due exactly now and queued |
| Timing.EarliestExists | src/time/timer.rs:31-35 | a heap that is not empty always has an event that may be popped |
| Timing.Timer.constructor | src/time/timer.rs:43-48 | the clock starts at zero with no events |
| Timing.Timer.Advance | src/time/timer.rs:59-70 | false and nothing changes when no event exists; otherwise an earliest event leaves the heap, the clock shows its time, and exactly its task is woken |
| Timing.Timer.SleepFor | src/time/timer.rs:74-88 | fails exactly when the wake time overflows 64 bits; otherwise the sleep ends at the current time plus the duration |
| Timing.SleepFut.Poll | src/time/timer.rs:100-117 | ready exactly from the wake time on; a pending poll registers the task at that time, which is what punctuality rests on |
| Tasks.ReadyQueue.Wake | src/task.rs:29-32 | a wake appends the task, even when it is queued already |
| Tasks.ReadyQueue.Take | src/runtime.rs:68-71 | the whole queue is handed out in order and left empty |
| Mutexes.Mutex.Lock | src/sync/mutex.rs:77-86 | tickets are handed out in increasing order; fails exactly when the 32-bit counter would overflow |
| Mutexes.Mutex.Position | src/sync/mutex.rs:118-123 | the search loop finds the first waiter with the identifier, or none |
| Mutexes.Mutex.PollLockFuture | src/sync/mutex.rs:112-148 | the lock is acquired exactly when it was free; one guard is live exactly when locked, so the borrow of the data cannot fail; waiters stay distinct in whatever order futures are first polled, and in ticket order if polled in turn |
| Mutexes.Mutex.Drop | src/sync/mutex.rs:53-63 | unlocks and wakes exactly the longest-waiting task, which keeps its place |
| Mutexes.PollQueued | src/sync/mutex.rs:112-148 | a queued waiter that is polled acquires exactly when the mutex is free and only then leaves the list; nobody else's place changes |
| Mutexes.LockFresh | src/sync/mutex.rs:115-147 | a fresh request barges past every waiter of a free mutex and otherwise queues behind all of them, so acquisition is not first come, first served |
| Mutexes.PollKeepsOk | src/sync/mutex.rs:112-148 | any poll of any ticket keeps one guard per locked mutex and distinct identifiers, in whatever order tickets are first polled |
| Mutexes.PollUnlisted | src/sync/mutex.rs:112-148 | the first poll of a ticket, whenever it comes, lists it last with the task that polled, or takes a free mutex past all waiters |
| Mutexes.PollEffect | src/sync/mutex.rs:112-148 | a poll appends at most its own ticket, once, and removes at most its own |
| Mutexes.PollKeepsTicketOrder | src/sync/mutex.rs:118-144 | waiters stay in ticket order when no later ticket queued before a first poll |
| Mutexes.PollKeepsWaiter | src/sync/mutex.rs:118-123 | no poll removes the waiter of another ticket |
| Mutexes.TicketsDistinct | src/sync/mutex.rs:78-80 | identifiers tell waiters apart |
| Condvars.Fifo | src/sync/mutex.rs:196-227 | the queue a waiter list stands for: exactly the waits listed and not woken, each once |
| Condvars.FifoPoll | src/sync/mutex.rs:169-174 | a pending poll enqueues an absent wait and changes nothing for a present or woken one |
| Condvars.FifoNotifyOne | src/sync/mutex.rs:196-216 | notify_one hits nobody exactly when the queue is empty, and otherwise removes exactly its head |
| Condvars.FifoNotifyAll | src/sync/mutex.rs:218-227 | notify_all hits each wait of the queue exactly once, in queue order, despite duplicate and stale entries |
| Condvars.NotifyFirstKeeps | src/sync/mutex.rs:204-215 | notify_one loses no entry of a wait that is still un-woken and invents none |
| Condvars.FifoAgrees | src/sync/mutex.rs:204-210 | the queue depends on the flags of listed waits only |
| Condvars.FifoNotified | src/sync/mutex.rs:196-216 | list and flags after notify_one stand for the queue without its head |
| Condvars.Condvar.Enlist | src/sync/mutex.rs:170-173 | refinement of a pending poll: enqueue if absent |
| Condvars.Condvar.WakeFirst | src/sync/mutex.rs:203-210 | the first loop of notify_one: uses up the list up to the first un-woken entry, sets exactly that flag and wakes exactly that entry's task |
| Condvars.Condvar.PutBack | src/sync/mutex.rs:212-215 | the second loop of notify_one puts back every entry behind the hit, in order |
| Condvars.Condvar.NotifyOne | src/sync/mutex.rs:196-216 | refinement: pops exactly the head of the queue, sets its flag alone and wakes its task; on an empty queue nobody is woken |
| Condvars.Condvar.NotifyAll | src/sync/mutex.rs:218-227 | refinement: the queue is emptied, all flags are set, and one task is woken per queued wait, in queue order |
| CondWaits.CondWait.constructor | src/sync/mutex.rs:185-194 | creating the wait drops the guard and wakes the mutex's first waiter; the wait is not woken and holds no ticket |
| CondWaits.CondWait.Poll | src/sync/mutex.rs:154-175 | returns only to a notified wait and only with the mutex taken from being free; un-notified it stays queued; notified and locked out it is listed last at the mutex, with the task that polled and the next ticket, and later pending polls change nothing; fails exactly when a ticket is needed and none is left |
| CondWaits.SyncCondWait.Poll | src/sync/sync_mutex.rs:85-93 | ready exactly when notified; otherwise queued once |
| CondWaits.SyncCondTimeoutWait.constructor | src/sync/sync_mutex.rs:128-142 | the deadline is the time of creation plus the timeout, which must not be zero |
| CondWaits.SyncCondTimeoutWait.Poll | src/sync/sync_mutex.rs:99-110 | ready exactly when notified or past the deadline; pending it is registered both at its deadline and at the condvar |
| Channels.Channel.Send | src/sync/mpsc.rs:19-26 | appends the message and wakes exactly the stored waker, keeping the stream law |
| Channels.Channel.Poll | src/sync/mpsc.rs:49-60 | stream law: all received batches, then the buffer, are the messages sent; batches are never empty; a stored waker means an empty buffer |
| Invariants.StepKeepsInv | src/runtime.rs:65-127 | the joint invariant of scheduler, clock, mutexes, condvars and channels survives every step, whatever the tasks do |
| Invariants.ReachableIsInv | src/runtime.rs:109-127 | it holds in every state of every run |
| Invariants.StepKeepsAttention | src/runtime.rs:82-95 | after every step each suspended task is queued, or registered with what it waits for |
| Invariants.StepKeepsMutexes | src/sync/mutex.rs:53-148 | after every step a free mutex with waiters has a poll of its first waiter outstanding, even after barging |
| Invariants.StepKeepsPunctual | src/time/timer.rs:59-117 | after every step each sleeper is registered at its wake time, or due now and polled before the clock moves |
| Invariants.StepKeepsOrder | src/runtime.rs:67-95 | after every step wakes are served in order, each at most one advance old |
| Invariants.StepKeepsOwners | src/sync/mutex.rs:151-194 | after every step listed entries belong to the tasks that created the waits |
| Invariants.StepKeepsLive | src/sync/sync_mutex.rs:96-111 | after every step each entry that can be notified belongs to a task still in that wait, or to a timed wait that ended |
| Invariants.StepKeepsCounts | src/sync/mutex.rs:196-227 | after every step waits that returned were notified, and flags never outnumber notifications |
| Invariants.StepKeepsChannels | src/sync/mpsc.rs:19-60 | after every step a stored waker means an empty buffer |
| Invariants.HitsReachOwners | src/sync/mutex.rs:218-227 | notify_all hits every un-woken listed wait and wakes the task that owns it |
| Guarantees.NoOrphans | src/runtime.rs:67-99 | in every reachable state an unfinished task that is not running is queued, or registered with the heap at its own wake time, a mutex, an un-woken condvar entry, or the waker of an empty channel |
| Guarantees.IdleMeansDeadlock | src/runtime.rs:123-126 | with queue and heap empty, each unfinished task waits for a locked mutex, a notification not given, or an empty channel; none sleeps |
| Guarantees.TimeNeverDecreases | src/time/timer.rs:59-70 | along every run simulated time never decreases |
| Guarantees.StepTime | src/time/timer.rs:59-70 | only an advance moves the clock, and never past a pending event |
| Guarantees.NobodyOversleeps | src/time/timer.rs:97-117 | until a sleeper resumes the clock has not passed its wake time, and it resumes no later, before only from a timed wait that was notified |
| Guarantees.SleepIsPunctual | src/time/timer.rs:97-117 | on every run a task sleeping until a time resumes in a state whose clock shows exactly that time, or still sleeps and the time is not past |
| Guarantees.SleepTakesItsTime | src/time/timer.rs:74-88 | a sleep of d awaited where it is created ends exactly d later, whatever other tasks, ties and arbitrary stray wakes occur; a zero sleep does not suspend |
| Guarantees.TimedWaitMeetsDeadline | src/sync/sync_mutex.rs:99-110 | a timed wait returns at or before its deadline, and before it only if notified |
| Guarantees.TimedWaitTakesItsTime | src/sync/sync_mutex.rs:128-142 | the same for a timeout d awaited where it is created: no later than d after |
| Guarantees.ServedSoonAndInOrder | src/runtime.rs:82-95 | polls serve wakes and spawns in the order they happened, each after at most one advance; the poll of a finished task changes nothing else |
| Guarantees.DuePushIsPolledNow | src/runtime.rs:123-126 | a wake or spawn made by the advance or from outside, or already in the batch, is polled at its turn and at this very time |
| Guarantees.LatePushIsPolledNowIff | src/runtime.rs:123-126 | one made in the middle of a batch is polled at its own time if and only if the advance that follows finds no event, or one that is due already |
| Guarantees.PolledWithoutDelay | src/runtime.rs:123-126 | every pending wake or spawn is polled at its turn: at this time if it is due, and otherwise after exactly one advance, at this time if and only if that advance finds no event or one that is due already |
| Guarantees.AdvanceMovesUnlessStays | src/time/timer.rs:59-70 | an advance leaves the time unchanged exactly when there is no event or one that is due already |
| Guarantees.ClockOvertakesWorkIff | src/runtime.rs:123-126 | time moves past work of its own time exactly when a task is ready while the heap offers only later events |
| Guarantees.NothingLeftBehind | src/runtime.rs:123-126 | when the clock is about to move, everything pushed before its previous move was served |
| Guarantees.FinishedForever | src/runtime.rs:85-94 | a finished task stays finished on every run, in particular it never runs again |
| Guarantees.TimeMovesPastReadyWork | src/runtime.rs:123-126 | a concrete run in which the clock moves although a spawned task is ready: work at one time need not finish before time moves |
| Guarantees.MutexGuarantee | src/sync/mutex.rs:53-148 | in every reachable state a mutex is locked exactly when one guard is live, waiters are the waiting tasks in ticket order, and a free mutex has its first waiter queued for a poll |
| Guarantees.FirstWaiterAcquires | src/sync/mutex.rs:115-130 | that poll acquires the mutex and removes exactly the first waiter |
| Guarantees.LateComerOvertakes | src/sync/mutex.rs:115-130 | a concrete run in which a free mutex with a woken waiter is taken by a task that asks later, while the waiter keeps waiting |
| Guarantees.OnlyRegisteredAreNotified | src/sync/mutex.rs:196-227 | a flag is set only for a wait that is registered at that moment |
| Guarantees.ReturnsWereNotified | src/sync/mutex.rs:154-175 | a condition wait returns only in a poll of its own task, after a notification, and with its mutex taken from being free |
| Guarantees.NotifyOneServesQueue | src/sync/sync_mutex.rs:144-164 | in the whole simulator notify_one notifies exactly the head of the queue; a task still in that wait is reached if and only if the head is not a timed wait that ended |
| Guarantees.UntimedNotificationArrives | src/sync/mutex.rs:196-216 | on a condvar that no task ever waits on with a deadline, notify_one always reaches a task still in the wait it is notified of |
| Guarantees.EndedWaitTakesNotification | src/sync/sync_mutex.rs:99-110 | a concrete run in which the stale entry of a timed-out wait takes the notification another task waits for |
| Guarantees.NoMoreReturnsThanNotifications | src/sync/mutex.rs:196-227 | un-timed waits that returned never outnumber notify_one calls plus the waits covered by notify_all calls |
| Termination.StepShrinks | src/runtime.rs:123-126 | every step that is not idle decreases a lexicographic measure: work left, then weighted wake tokens, then loop phases |
| Termination.OpShrinks | src/runtime.rs:82-95 | every operation or outside spawn lowers the work left, also when it creates a task |
| Termination.PollShrinks | src/time/timer.rs:100-117 | a poll resumes its task or uses up a wake token, despite stale wakes and repeated registrations |
| Termination.AdvanceShrinks | src/time/timer.rs:59-70 | popping an event turns it into a cheaper token and makes no other dearer |
| Termination.ComesToRest | src/runtime.rs:109-127 | every endless execution whose tasks perform finitely many operations reaches a state with ready queue and heap empty |
| Termination.IdleIsFixpoint | src/runtime.rs:123-126 | there the body of the loop changes nothing |
| Termination.UnchangedOnlyAtRest | src/runtime.rs:123-126 | the converse: an iteration that leaves the state unchanged and performs no operation starts at rest, even if what is remembered of the past is disregarded |
| Termination.IterationShrinks | src/runtime.rs:123-126 | every iteration that does not start at rest decreases the work left or the wake tokens |
| Effects.StartState | src/runtime.rs:18-26 | at the start nothing exists but free mutexes and empty condvars and channels |
| Effects.TakeEffect | src/runtime.rs:68-71 | the tasks that are ready become the batch, in order, and nothing else changes |
| Effects.AdvanceEffect | src/time/timer.rs:59-70 | an advance pops an earliest event, sets the clock to it, wakes exactly its task, and changes nothing else |
| Effects.SleepEffect | src/time/timer.rs:97-117 | a sleep that is past does nothing; any other registers its task at its wake time and suspends it |
| Effects.LockEffect | src/sync/mutex.rs:77-148 | lock takes a free mutex; a locked one lists the task last under the next ticket; other mutexes and tasks are untouched |
| Effects.UnlockEffect | src/sync/mutex.rs:53-63 | the mutex is free, its waiters are unchanged, and exactly the first one's task is woken |
| Effects.CondWaitEffect | src/sync/mutex.rs:185-194 | a condition wait frees its mutex, wakes exactly the first waiter's task, and leaves a new un-woken wait last in the condvar's queue |
| Effects.SyncWaitEffect | src/sync/sync_mutex.rs:118-126 | a new un-woken wait stands last in the condvar's queue |
| Effects.TimedWaitEffect | src/sync/sync_mutex.rs:128-142 | the same, and the task is registered at its deadline |
| Effects.FreshWaitQueues | src/sync/mutex.rs:170-173 | a wait not listed before queues behind every other |
| Effects.NotifyOneEffect | src/sync/mutex.rs:196-216 | no other condvar, task, mutex, channel or event is touched |
| Effects.NotifyAllEffect | src/sync/mutex.rs:218-227 | in the whole simulator notify_all empties one queue, sets exactly the flags of the waits in it, and wakes each owner once, in queue order |
| Effects.SendEffect | src/sync/mpsc.rs:19-26 | the message goes behind the buffered ones, exactly the stored waker is woken, and no other channel is touched |
| Effects.RecvEffect | src/sync/mpsc.rs:49-60 | recv takes the whole buffer, or waits at an empty one |
| Effects.SpawnEffect | src/runtime.rs:155-158 | one new task, ready to be polled |
| Effects.OutsideSpawnEffect | src/runtime.rs:101-104 | the same from outside the loop |
| Effects.WakeEffect | src/task.rs:29-32 | a wake pushes exactly its task |
| Effects.FinishEffect | src/runtime.rs:91-93 | only the task that finishes is affected |
| Effects.PushesAreRecorded | src/task.rs:29-32 | the record of wakes that the lag theorems speak of is exactly what operations push on the ready queue |
| Effects.PollUsesEntry | src/runtime.rs:82-95 | every poll uses up one entry of the batch and wakes nobody |
| Effects.NewPollEffect | src/runtime.rs:85-91 | the first poll of a task starts it |
| Effects.SleepPollEffect | src/time/timer.rs:100-117 | a sleeper goes on exactly from its wake time, and otherwise registers again |
| Effects.FreeLockPollEffect | src/sync/mutex.rs:115-130 | a waiter that is polled takes a free mutex and alone leaves its list |
| Effects.LockedPollEffect | src/sync/mutex.rs:131-147 | on a locked mutex the poll of a waiter changes nothing |
| Effects.WaitPollEffect | src/sync/mutex.rs:154-175 | an un-woken condition wait keeps its place in the queue; a notified one takes its free mutex or is listed last at a locked one |
| Effects.SyncWaitPollEffect | src/sync/sync_mutex.rs:85-93 | an un-woken wait keeps its place in the queue; a notified one returns |
| Effects.TimedWaitPollEffect | src/sync/sync_mutex.rs:99-110 | returns exactly when notified or past the deadline; otherwise registers again in both places |
| Effects.RecvPollEffect | src/sync/mpsc.rs:49-60 | a receiver that is polled takes the whole buffer, or goes on waiting |
| Effects.StreamLaw | src/sync/mpsc.rs:19-60 | on every run and every channel the batches received, followed by the buffer, are the messages sent, in order; no batch is empty |
| Effects.AllThatIsSentArrives | src/sync/mpsc.rs:19-60 | from the start, nothing sent is lost, duplicated or reordered |
| Effects.StuckReceiverMissesNothing | src/sync/mpsc.rs:49-60 | a receiver in a deadlock has received everything that was ever sent to it |
| Effects.GuardLaw | src/sync/mutex.rs:53-148 | on every run the live guards of a mutex are those acquired and not dropped, by an unlock or by a condition wait; never more than one |
| Effects.LockedWhileHeld | src/sync/mutex.rs:53-148 | a mutex is locked exactly while one more guard was acquired than dropped |
| Runtimes.Runtime.constructor | src/runtime.rs:18-26 | a new runtime is the initial state of the transition system |
| Runtimes.Runtime.Spawn | src/runtime.rs:101-104 | appends one new task and pushes exactly it |
| Runtimes.Runtime.PollNextTask | src/runtime.rs:82-95 | one poll up to the next suspension performs any operations and consumes exactly the first task of the batch, is a run of the transition system, and decreases the measure |
| Runtimes.Runtime.Operation | src/runtime.rs:91-91 | one operation of the running task is a step of the transition system and lowers the measure; calling lock on a mutex without identifiers left is a panic |
| Runtimes.Runtime.PollBatch | src/runtime.rs:82-95 | the loop polls the whole batch in order; a panic is reported only when a mutex without identifiers left is locked, by the running task or by a notified wait |
| Runtimes.Runtime.ExecuteTasks | src/runtime.rs:67-99 | true exactly when a task was ready; serves exactly the tasks that were ready, leaving new ones for the next call |
| Runtimes.Runtime.AdvanceClock | src/runtime.rs:125-125 | the advance of an iteration is an advance step to some earliest event |
| Runtimes.Runtime.Iterate | src/runtime.rs:123-126 | one pass of the loop is exactly one iteration: a batch is taken and polled, and the clock advanced once; it decreases the measure unless the loop is at its fixpoint |
| Runtimes.Runtime.BlockOn | src/runtime.rs:109-127 | spawns the main task and performs iterations as long as it is not finished: Completed after exactly the first iteration that finishes it, Stuck at the idle fixpoint with it unfinished; a panic is reported only when a mutex without identifiers left is locked |
| Runtimes.Runtime.Loop | src/runtime.rs:123-126 | the loop is entered only while the main task is unfinished, and each pass is one batch and one advance |
| Bandwidths.DelayExistsIff | src/network/mod.rs:50-55 | the delay can be computed exactly when the bandwidth is not zero and the product fits 64 bits |
| Bandwidths.DelayBounds | src/network/mod.rs:50-55 | the delay is the whole number of microseconds the bits need, rounded down |
| Bandwidths.BusyPeriodBounds | src/network/mod.rs:50-55 | over n messages the rounding loses less than n microseconds in all |
| Links.SentAccounts | src/network/link.rs:137-161 | counters, activity and callbacks stay right after a send if and only if the queue then holds fewer than 2^32 messages; the link became active exactly when it carried nothing before |
| Links.WrapBreaksDelivery | src/network/link.rs:149-178 | with 2^32 messages on either queue, whatever the other holds, its counter is zero and the next delivery notification fails |
| Links.SendsAccount | src/network/link.rs:137-161 | sends in both directions from a new link are accounted for as long as each queue holds fewer than 2^32 |
| Links.LimitIsReached | src/network/link.rs:137-178 | 2^32 sends in one direction of a new link reach the failing state |
| Links.DeliveredAccounts | src/network/link.rs:174-189 | the notification of a message in flight never fails and leaves everything accounted for; the link became inactive exactly when nothing is left |
| Links.Link.Send | src/network/link.rs:137-161 | the counters and the log of callbacks after a send |
| Links.Link.NotifyDelivery | src/network/link.rs:174-189 | the assertion holds exactly when the queue counts a message; the accounts stay right |
| Topologies.ConnectKeepsGraph | src/network/link.rs:35-60 | the tables stay an undirected simple graph |
| Topologies.ConnectAddsEdge | src/network/link.rs:55-57 | connecting adds exactly one edge, in both directions, over a fresh link with the given ends and latency |
| Topologies.ConnectFailsWhenLinked | src/network/node.rs:245-252 | in a graph, connecting fails exactly for equal or already linked nodes |
| Topologies.DisconnectKeepsGraph | src/network/node.rs:103-128 | the tables stay an undirected simple graph |
| Topologies.DisconnectRemovesEdges | src/network/node.rs:103-128 | disconnecting a node removes exactly the edges at it |
| Topologies.PeerIsEnd | src/network/node.rs:109-117 | the link found under a peer ends at that peer, and the peer knows it |
| Topologies.AddNodeAddsNoEdge | src/network/node.rs:76-83 | a new node has no edge, and every other edge stays |
| Topologies.Tables.NewNode | src/network/node.rs:76-83 | adds one empty table, leaves the others as they are, and keeps the graph |
| Topologies.Tables.LinkTo | src/network/link.rs:81-89 | finds a link exactly when the peer is connected, and the queue that leads from this node to the peer; the panic is unreachable |
| Topologies.Tables.AddLink | src/network/node.rs:245-252 | inserts the link, and fails exactly when a connection existed |
| Topologies.Tables.NewLink | src/network/link.rs:35-60 | succeeds exactly for two different nodes that are not linked, and then adds the link to both tables |
| Topologies.Tables.DropPeer | src/network/node.rs:109-122 | the end that is the peer is found, and its entry removed |
| Topologies.Tables.DropFromPeers | src/network/node.rs:106-125 | visiting the peers in any order erases this node from exactly their tables, once each |
| Topologies.VisitedNext | src/network/node.rs:119-122 | whatever peers were visited, the next one still has its entry to remove |
| Topologies.Tables.Disconnect | src/network/node.rs:103-128 | neither panic is reachable, exactly the edges at the node go, each peer is told once, and the graph is kept |
| Inboxes.ArriveKeepsServer | src/network/node.rs:148-156 | an arrival at any moment keeps the server invariant |
| Inboxes.ReceiveKeepsServer | src/network/node.rs:163-163 | so does taking the next batch, across batch boundaries |
| Inboxes.BeginKeepsServer | src/network/node.rs:164-169 | so does beginning a service that takes time |
| Inboxes.EndKeepsServer | src/network/node.rs:167-179 | so does ending a service after exactly its delay |
| Inboxes.FifoServer | src/network/node.rs:158-182 | finish(k) >= max(finish(k-1), arrival(k)) + delay(k), and finish(k) = finish(k-1) + delay(k) whenever message k arrived before message k-1 was finished |
| Inboxes.BusyPeriodLasts | src/network/node.rs:163-171 | a busy period has no gaps: it lasts as long as its services together |
| Inboxes.BusyPeriodBandwidth | src/network/node.rs:163-171 | over n messages of a busy period of T microseconds: bandwidth * T <= bytes * 8 * 10^6 < bandwidth * (T + n) |
| Inboxes.InboxLoop.Next | src/network/node.rs:163-179 | each stretch of the running loop keeps the server invariant and finishes messages in order |
| Inboxes.InboxLoop.Continue | src/network/node.rs:163-169 | so does resuming from a sleep that ends exactly on time, or from recv |
| Inboxes.InboxLoop.Poll | src/network/node.rs:158-182 | one poll ends suspended in recv on an empty channel or in a sleep, having finished a prefix of the waiting messages in order; it fails only when a delay overflows |
| NetworkInvariants.StepKeepsInv | src/network/node.rs:103-212 | the joint invariant of scheduling, messages, counters and order survives every step of the network |
| NetworkInvariants.ReachableIsInv | src/network/node.rs:158-182 | it holds in every state of every run |
| NetworkInvariants.NotifyNeverFails | src/network/link.rs:174-178 | the message served next is still counted on its queue |
| NetworkInvariants.DeliversInOrder | src/network/link.rs:163-197 | a message that arrives overtakes none that had to be before it |
| NetworkInvariants.OlderHaveBegun | src/runtime.rs:101-104 | a carrier is first polled after all carriers spawned before it |
| NetworkInvariants.InFlightHandled | src/network/link.rs:174-189 | handling one message takes exactly it from the messages in flight |
| NetworkGuarantees.OnePlaceOnly | src/network/link.rs:163-198 | no message is in two places: carriers, inbox positions and services never overlap, and none is handled twice |
| NetworkGuarantees.NothingIsLost | src/network/node.rs:103-182 | every message sent is still carried, waits at its destination, or was handled there, whatever was disconnected |
| NetworkGuarantees.HandledNoEarlier | src/network/node.rs:158-182 | a message is handled by the other end of its link, no earlier than send time plus latency plus size delay, and exactly then if nothing was in its way |
| NetworkGuarantees.InboxIsFifoServer | src/network/node.rs:158-182 | in every run each inbox is a work-conserving first-come-first-served server |
| NetworkGuarantees.InboxUsesItsBandwidth | src/network/mod.rs:50-55 | in every run each busy period obeys the bandwidth bound |
| NetworkGuarantees.LatencyBeginsInSendOrder | src/runtime.rs:101-104 | over the whole network latencies begin to pass in the order of sending |
| NetworkGuarantees.DeliveryOrder | src/network/link.rs:163-197 | in one direction of a link messages arrive in send order without latency, or when the earlier latency began strictly before |
| NetworkGuarantees.TiedMessageOvertakes | src/time/timer.rs:31-35 | a concrete run in which, of four messages whose latencies began together, the third arrives before the second |
| NetworkGuarantees.LinkAccounting | src/network/link.rs:62-100 | in every run the counters are the messages in flight per direction, the link is active exactly while there are any, callbacks alternate from active on, and the total counts all messages sent |
| NetworkGuarantees.NotificationHolds | src/network/link.rs:178-178 | in every run the assertion of the delivery notification holds when it is reached |
| NetworkGuarantees.TablesStaySymmetric | src/network/node.rs:245-252 | in every run an edge is known to both of its ends, over the same link, which joins them |
| NetworkGuarantees.InboxNeverStarves | src/network/node.rs:158-182 | while messages wait in an inbox its loop is queued, running, or serving one until a time that is not past and is registered in the heap |
| NetworkGuarantees.AtRestAllIsHandled | src/network/node.rs:158-182 | when nothing runs, is ready or is pending, every message ever sent was handled at its destination |
| NetworkGuarantees.AtRestLinksAreInactive | src/network/link.rs:62-65 | and no link is active |
| NetworkEffects.TakeEffect | src/runtime.rs:68-71 | the tasks that are ready become the batch, and nothing else changes |
| NetworkEffects.AdvanceEffect | src/time/timer.rs:59-70 | an advance pops an earliest event, sets the clock to it and wakes its task |
| NetworkEffects.SendMessageEffect | src/network/link.rs:137-163 | sending to a peer posts one message, counts it on its side of the link and spawns its carrier; sending to anybody else does nothing |
| NetworkEffects.NewNodeEffect | src/network/node.rs:69-95 | a new node has an empty inbox, no connection, and a new task for its loop |
| NetworkEffects.NewLinkEffect | src/network/link.rs:35-60 | a new link counts nothing and joins exactly its two nodes |
| NetworkEffects.DisconnectEffect | src/network/node.rs:103-128 | exactly the edges at the node go, and no message, counter or task is touched |
| NetworkEffects.SpawnEffect | src/runtime.rs:155-158 | one new task, ready to be polled |
| NetworkEffects.AppPollEffect | src/runtime.rs:85-91 | an application task that is polled goes on, unless it sleeps and its time is not there yet |
| NetworkEffects.CarrierStartsEffect | src/network/link.rs:163-167 | the first poll of a carrier starts its latency |
| NetworkEffects.CarrierDeliversEffect | src/network/link.rs:192-197 | after the latency exactly this message goes behind the others in the inbox of its destination, and the loop waiting there is woken |
| NetworkEffects.EarlyPollEffect | src/time/timer.rs:100-117 | a poll before the time only registers again |
| NetworkEffects.LoopReceivesEffect | src/network/node.rs:163-163 | the loop takes the whole inbox, or waits at an empty one |
| NetworkEffects.ServicePollEffect | src/network/node.rs:171-179 | the end of a service notifies the link once, takes one message from the batch and spawns one handler for it |
| NetworkEffects.ServeEffect | src/network/node.rs:163-179 | the running loop receives, serves a message that takes no time, or sleeps for exactly the delay of the next one |
| NetworkEffects.PollFailsOnlyOnOverflow | src/network/node.rs:158-182 | in every run a poll can fail only because the end of a latency does not fit 64 bits |
| NetworkEffects.ServeFailsOnlyOnOverflow | src/network/node.rs:163-171 | in every run the inbox loop can fail only on a zero bandwidth or an overflow of a delay or of its end |
| NetworkEffects.MailIsWhatWasSent | src/network/node.rs:205-212 | on every run the messages of the network are exactly those sent along it, in order, with their senders, destinations, sizes and times |
| NetworkEffects.AllThatIsSentIsHandled | src/network/node.rs:158-182 | at rest every message sent on the run was handled at its destination |

## Left out

- `Runtime::stop` and `Handle::stop`: they drop queued wakes and break the no-orphan guarantee by design.
- Cancelled futures, `select` and joins: futures have no destructor here, so a dropped lock or wait leaves a stale entry behind.
- Several outstanding `recv` calls on one channel: only one waker is stored, and the code promises nothing; an operation that would start a second one is not enabled.
- Delayed first polls of `lock` and of condition waits in the transition system: there they are polled where they are created, as by `.await`; the classes `Mutex` and `CondWait` poll them at any time.
- Operations in the transition system are not tied to the guard's owner: any task may drop a live guard, which covers guards that are moved.
- Pinning, reference counting, waker tables and the state machines of async functions: a waker is a task number, a future a script position.
- The internals of the standard heap and hash map: a pop takes any earliest event, an iteration takes any order. That the standard heap makes the pops of `NetworkGuarantees.TiedMessageOvertakes` is therefore not proved here.
- Guards of `SyncMutex`: its lock is assumed not to be held across an await, as its documentation demands, so its borrow never fails.
- Wake times in the executor's transition system are unbounded; `Timing.Timer.SleepFor` says exactly when creating a sleep panics.
- Unchecked arithmetic: overflow of a waiter identifier, of a wake time and of the product in the size delay is a panic, as in a checked build; the atomic link counters wrap as they always do, and the total counters are unbounded.
- In the network system a send that would be the 2^32-th message in flight on a queue is not enabled; `Links.SentAccounts` says what happens there.
- User code: callbacks of nodes and links are entries of a log or a list of peers told, and do not call back into the network; handlers are arbitrary tasks.
- The Runtime class keeps the state of the primitives as values instead of sharing the objects, and chooses the operations of tasks arbitrarily (a choice that no program could make, such as unlocking without a guard, is replaced by finishing); its field `fuel` bounds how many there are, which `BlockOn` needs in order to end.
- A simulation that is stuck loops forever in the code; `BlockOn` reports it as `Stuck` when the loop has reached its fixpoint.
- The inbox loop, the carriers of messages and the timed waits are modelled poll by poll: the code between two suspensions is one method or step.
- Nodes, links and tables are indexed by number instead of being shared objects; aliasing is not modelled, and identifiers are distinct where the code draws them at random.
- `broadcast` is a sequence of sends to the current peers; `get_peers`, `num_peers` and the getters read one field.
- Mutexes, condition variables and channels of one run exist from its start, in any number.
- The `oneshot` and `Notify` re-exports, the context lock, the test macro, logging, serialisation, examples, unit conversions, floating-point accessors and formatting.
