/** The asynchronous mutex (`src/sync/mutex.rs`, lines 9-149).

    A waiter is woken without being dequeued, and any task that polls while the
    mutex is unlocked takes it, whether or not it waited longest. */
module Mutexes {
  import opened Prelude
  import opened Tasks

  /** Waiter identifiers are unsigned 32-bit numbers. */
  const ID_LIMIT: nat := 0x1_0000_0000

  datatype Waiter = Waiter(id: nat, task: TaskId)

  /** `guards` counts the live lock guards; it is what the `RefCell` around the
      protected data records, since every guard holds a mutable borrow of it. */
  datatype MutexState = MutexState(isLocked: bool, nextId: nat, waiters: seq<Waiter>, guards: nat)

  const Unlocked: MutexState := MutexState(false, 0, [], 0)

  /** Position of the waiter with this identifier, or the length if there is none. */
  function Find(ws: seq<Waiter>, id: nat): (k: nat)
    ensures k <= |ws|
    ensures forall j :: 0 <= j < k ==> ws[j].id != id
    ensures k < |ws| ==> ws[k].id == id
  {
    if ws == [] || ws[0].id == id then 0 else 1 + Find(ws[1..], id)
  }

  function Without(ws: seq<Waiter>, id: nat): seq<Waiter> {
    var k := Find(ws, id);
    if k < |ws| then RemoveAt(ws, k) else ws
  }

  /** `Mutex::lock` panics when the identifier counter would overflow. */
  predicate CanTicket(m: MutexState) {
    m.nextId + 1 < ID_LIMIT
  }

  /** `LockFuture::poll`: the new state, and whether the lock was acquired. */
  function PollLock(m: MutexState, id: nat, task: TaskId): (r: (MutexState, bool)) {
    if !m.isLocked then
      (m.(isLocked := true, waiters := Without(m.waiters, id), guards := m.guards + 1), true)
    else if Find(m.waiters, id) < |m.waiters| then
      (m, false)
    else
      (m.(waiters := m.waiters + [Waiter(id, task)]), false)
  }

  /** `Mutex::lock` and the first poll of the future it returns. */
  function LockNow(m: MutexState, task: TaskId): (r: (MutexState, bool)) {
    PollLock(m.(nextId := m.nextId + 1), m.nextId, task)
  }

  /** `LockGuard::drop`: unlocks and names the task to wake. */
  function DropGuard(m: MutexState): (r: (MutexState, Option<TaskId>))
    requires m.guards > 0
  {
    (m.(isLocked := false, guards := m.guards - 1),
     if m.waiters == [] then None else Some(m.waiters[0].task))
  }

  // ------------------------------------------------------------------
  // The mutex invariant
  // ------------------------------------------------------------------

  /** Locked exactly when one guard is live; waiters carry distinct identifiers that
      were handed out before. */
  ghost predicate MutexOk(m: MutexState) {
    && m.guards == (if m.isLocked then 1 else 0)
    && (forall j, k :: 0 <= j < k < |m.waiters| ==> m.waiters[j].id != m.waiters[k].id)
    && (forall j :: 0 <= j < |m.waiters| ==> m.waiters[j].id < m.nextId)
  }

  /** Waiters stand in the order in which their tickets were handed out. It holds while
      every ticket is first polled before later ones are, as by `lock().await`. */
  ghost predicate InTicketOrder(m: MutexState) {
    forall j, k :: 0 <= j < k < |m.waiters| ==> m.waiters[j].id < m.waiters[k].id
  }

  /** Polling ticket `id` cannot put it behind a later one. */
  ghost predicate PolledInTurn(m: MutexState, id: nat) {
    (forall w :: w in m.waiters ==> w.id <= id) || (exists w :: w in m.waiters && w.id == id)
  }

  /** Re-polling a queued waiter, whatever else happened in between: the caller
      gets the mutex exactly when it is free; nobody else's place changes. */
  lemma PollQueued(m: MutexState, k: nat)
    requires MutexOk(m) && k < |m.waiters|
    ensures var (after, got) := PollLock(m, m.waiters[k].id, m.waiters[k].task);
            && MutexOk(after) && after.isLocked && got == !m.isLocked
            && after.waiters == (if got then m.waiters[..k] + m.waiters[k + 1..] else m.waiters)
            && after.nextId == m.nextId
            && (forall w :: w in after.waiters ==> w in m.waiters && (got ==> w.id != m.waiters[k].id))
  {
    var f := Find(m.waiters, m.waiters[k].id);
    assert f == k;
    RemoveAtMembers(m.waiters, k);
  }

  /** A fresh lock request barges past every waiter of a free mutex and otherwise
      queues behind all of them. */
  lemma LockFresh(m: MutexState, task: TaskId)
    requires MutexOk(m)
    ensures var (after, got) := LockNow(m, task);
            && MutexOk(after) && after.isLocked && got == !m.isLocked
            && after.waiters == (if got then m.waiters else m.waiters + [Waiter(m.nextId, task)])
            && after.nextId == m.nextId + 1
            && (InTicketOrder(m) ==> InTicketOrder(after))
  {
    assert Find(m.waiters, m.nextId) == |m.waiters|;
  }

  /** The first poll of a ticket, whenever it comes: a held mutex lists it last, with the
      task that polled, and a free one is taken past all waiters. */
  lemma PollUnlisted(m: MutexState, id: nat, task: TaskId)
    requires forall w :: w in m.waiters ==> w.id != id
    ensures var (after, got) := PollLock(m, id, task);
            && got == !m.isLocked && after.isLocked && after.nextId == m.nextId
            && after.waiters == (if got then m.waiters else m.waiters + [Waiter(id, task)])
            && after.guards == (if got then m.guards + 1 else m.guards)
  {
    assert Find(m.waiters, id) == |m.waiters|;
  }

  /** What a poll makes of the list: a pending poll appends its ticket with the task that
      polled, unless it is listed; a successful one removes at most its own ticket. */
  ghost predicate Polled(before: seq<Waiter>, id: nat, task: TaskId, got: bool, after: seq<Waiter>) {
    && (!got && (forall w :: w in before ==> w.id != id) ==> after == before + [Waiter(id, task)])
    && (!got && (exists w :: w in before && w.id == id) ==> after == before)
    && (got && (forall w :: w in before ==> w.id != id) ==> after == before)
    && (got ==> (forall w :: w in after ==> w in before) && forall w :: w in before ==> (w in after <==> w.id != id))
  }

  lemma PollEffect(m: MutexState, id: nat, task: TaskId)
    requires MutexOk(m)
    ensures var (after, got) := PollLock(m, id, task); Polled(m.waiters, id, task, got, after.waiters)
  {
    var k := Find(m.waiters, id);
    if k == |m.waiters| {
      assert forall w :: w in m.waiters ==> w.id != id;
    } else {
      assert m.waiters[k] in m.waiters;
      RemoveAtMembers(m.waiters, k);
    }
  }

  /** Any poll of any ticket keeps the invariant, in whatever order tickets are polled. */
  lemma PollKeepsOk(m: MutexState, id: nat, task: TaskId)
    requires MutexOk(m) && id < m.nextId
    ensures MutexOk(PollLock(m, id, task).0)
  {
  }

  /** A poll keeps ticket order if it comes in turn. */
  lemma PollKeepsTicketOrder(m: MutexState, id: nat, task: TaskId)
    requires InTicketOrder(m) && PolledInTurn(m, id)
    ensures InTicketOrder(PollLock(m, id, task).0)
  {
    var k := Find(m.waiters, id);
    if k == |m.waiters| {
      assert forall j :: 0 <= j < |m.waiters| ==> m.waiters[j] in m.waiters && m.waiters[j].id != id;
    }
  }

  lemma PollFacts(m: MutexState, id: nat, task: TaskId)
    requires MutexOk(m) && id < m.nextId
    ensures var (after, got) := PollLock(m, id, task);
            && MutexOk(after) && after.isLocked && got == !m.isLocked && after.guards == 1 && after.nextId == m.nextId
            && Polled(m.waiters, id, task, got, after.waiters)
            && (InTicketOrder(m) && PolledInTurn(m, id) ==> InTicketOrder(after))
  {
    PollKeepsOk(m, id, task);
    PollEffect(m, id, task);
    if InTicketOrder(m) && PolledInTurn(m, id) {
      PollKeepsTicketOrder(m, id, task);
    }
  }

  /** Identifiers tell waiters apart. */
  lemma TicketsDistinct(m: MutexState, v: Waiter, w: Waiter)
    requires MutexOk(m) && v in m.waiters && w in m.waiters && v.id == w.id
    ensures v == w
  {
  }

  /** No poll removes the waiter of another ticket. */
  lemma PollKeepsWaiter(m: MutexState, id: nat, task: TaskId, w: Waiter)
    requires w in m.waiters && w.id != id
    ensures w in PollLock(m, id, task).0.waiters
  {
    if Find(m.waiters, id) < |m.waiters| {
      RemoveAtMembers(m.waiters, Find(m.waiters, id));
    }
  }

  // ------------------------------------------------------------------
  // The mutable mutex
  // ------------------------------------------------------------------

  class Mutex {
    var isLocked: bool
    var nextWaiterId: nat
    var waiters: seq<Waiter>
    var guards: nat

    ghost function Value(): MutexState
      reads this
    {
      MutexState(isLocked, nextWaiterId, waiters, guards)
    }

    ghost predicate Valid()
      reads this
    {
      MutexOk(Value())
    }

    constructor ()
      ensures Valid() && Value() == Unlocked
    {
      isLocked, nextWaiterId, waiters, guards := false, 0, [], 0;
    }

    /** `None` is the panic on overflow of the identifier counter. */
    method Lock() returns (ticket: Option<nat>)
      requires Valid()
      modifies this`nextWaiterId
      ensures Valid()
      ensures ticket.Some? <==> old(nextWaiterId) + 1 < 0x1_0000_0000
      ensures ticket.Some? ==> ticket.value == old(nextWaiterId) && nextWaiterId == ticket.value + 1
      ensures ticket.None? ==> nextWaiterId == old(nextWaiterId)
    {
      if nextWaiterId + 1 >= ID_LIMIT {
        return None;
      }
      ticket := Some(nextWaiterId);
      nextWaiterId := nextWaiterId + 1;
    }

    /** The search both branches of a poll begin with. */
    method Position(id: nat) returns (idx: nat)
      ensures idx == Find(waiters, id)
    {
      idx := 0;
      while idx < |waiters|
        invariant idx <= |waiters|
        invariant forall j :: 0 <= j < idx ==> waiters[j].id != id
      {
        if waiters[idx].id == id {
          break;
        }
        idx := idx + 1;
      }
    }

    /** Polls the lock future `id` on behalf of `task`. Borrowing the data cannot
        fail, because an unlocked mutex has no live guard. Futures may be polled first
        in any order; ticket order is kept by polls that come in turn. */
    method PollLockFuture(id: nat, task: TaskId) returns (acquired: bool)
      requires Valid() && id < nextWaiterId
      modifies this
      ensures Valid()
      ensures (Value(), acquired) == PollLock(old(Value()), id, task)
      ensures isLocked && acquired == !old(isLocked) && guards == 1 && nextWaiterId == old(nextWaiterId)
      ensures Polled(old(waiters), id, task, acquired, waiters)
      ensures old(InTicketOrder(Value()) && PolledInTurn(Value(), id)) ==> InTicketOrder(Value())
    {
      PollFacts(Value(), id, task);
      ghost var was := Value();
      acquired := TryLock(id, task);
      assert (Value(), acquired) == PollLock(was, id, task);
    }

    /** The two branches of a poll. */
    method TryLock(id: nat, task: TaskId) returns (acquired: bool)
      requires guards == (if isLocked then 1 else 0)
      modifies this
      ensures (Value(), acquired) == PollLock(old(Value()), id, task)
    {
      var idx := Position(id);
      if !isLocked {
        isLocked := true;
        if idx < |waiters| {
          waiters := RemoveAt(waiters, idx);
        }
        assert guards == 0;
        guards := guards + 1;
        return true;
      }
      if idx == |waiters| {
        waiters := waiters + [Waiter(id, task)];
      }
      return false;
    }

    /** Dropping the live guard unlocks and wakes the longest-waiting task, which
        keeps its place in the list. */
    method Drop(queue: ReadyQueue)
      requires Valid() && guards > 0
      modifies this, queue
      ensures Valid() && Value() == DropGuard(old(Value())).0
      ensures !isLocked && guards == 0 && waiters == old(waiters) && nextWaiterId == old(nextWaiterId)
      ensures queue.tasks == old(queue.tasks) + (if waiters == [] then [] else [waiters[0].task])
    {
      isLocked := false;
      guards := guards - 1;
      if waiters != [] {
        queue.Wake(waiters[0].task);
      }
    }
  }
}
