/** The waiter list shared by `Condvar` (`src/sync/mutex.rs`, lines 151-228) and
    `SyncCondvar` (`src/sync/sync_mutex.rs`, lines 82-176).

    Every pending poll appends an entry, so one wait can be listed many times, and
    an entry stays listed after its wait was notified. The list is shown to behave
    as a queue of distinct waits that were not notified yet. */
module Condvars {
  import opened Prelude
  import opened Tasks

  /** `wait` identifies one wait (its shared `woken` flag), `task` its waker. */
  datatype Entry<W> = Entry(wait: W, task: TaskId)

  // ------------------------------------------------------------------
  // What the code does to the list
  // ------------------------------------------------------------------

  /** `notify_one`: skips and drops entries already woken, then hits the first other. */
  function NotifyFirst<W(==)>(l: seq<Entry<W>>, woken: set<W>): (r: (seq<Entry<W>>, Option<Entry<W>>)) {
    if l == [] then ([], None)
    else if l[0].wait in woken then NotifyFirst(l[1..], woken)
    else (l[1..], Some(l[0]))
  }

  /** `notify_all`: the entries hit, in order, while the list is drained. */
  function NotifyEach<W(==)>(l: seq<Entry<W>>, woken: set<W>): (hits: seq<Entry<W>>) {
    if l == [] then []
    else if l[0].wait in woken then NotifyEach(l[1..], woken)
    else [l[0]] + NotifyEach(l[1..], woken + {l[0].wait})
  }

  function Waits<W>(l: seq<Entry<W>>): (ws: seq<W>)
    ensures |ws| == |l| && forall i :: 0 <= i < |l| ==> ws[i] == l[i].wait
  {
    seq(|l|, i requires 0 <= i < |l| => l[i].wait)
  }

  // ------------------------------------------------------------------
  // What it means
  // ------------------------------------------------------------------

  ghost predicate Distinct<T>(s: seq<T>) {
    forall i, j :: 0 <= i < j < |s| ==> s[i] != s[j]
  }

  ghost predicate Listed<W>(l: seq<Entry<W>>, w: W) {
    exists i :: 0 <= i < |l| && l[i].wait == w
  }

  /** The queue the list stands for: each un-woken wait once, by first occurrence. */
  ghost function Fifo<W>(l: seq<Entry<W>>, woken: set<W>): (q: seq<W>)
    ensures forall k :: 0 <= k < |q| ==> q[k] !in woken && Listed(l, q[k])
    ensures forall i :: 0 <= i < |l| && l[i].wait !in woken ==> l[i].wait in q
    ensures Distinct(q)
  {
    if l == [] then []
    else if l[0].wait in woken then
      var q := Fifo(l[1..], woken);
      assert forall k :: 0 <= k < |q| ==> Listed(l, q[k]) by { ListedShift(l, q); }
      assert forall i :: 0 < i < |l| ==> l[i] == l[1..][i - 1];
      q
    else
      var q := Fifo(l[1..], woken + {l[0].wait});
      assert forall k :: 0 <= k < |q| ==> Listed(l, q[k]) by { ListedShift(l, q); }
      assert forall i :: 0 < i < |l| ==> l[i] == l[1..][i - 1];
      [l[0].wait] + q
  }

  lemma ListedShift<W>(l: seq<Entry<W>>, q: seq<W>)
    requires l != [] && forall k :: 0 <= k < |q| ==> Listed(l[1..], q[k])
    ensures forall k :: 0 <= k < |q| ==> Listed(l, q[k])
  {
    forall k | 0 <= k < |q|
      ensures Listed(l, q[k])
    {
      var i :| 0 <= i < |l[1..]| && l[1..][i].wait == q[k];
      assert l[i + 1].wait == q[k];
    }
  }

  /** Polling enqueues a wait that is absent and changes nothing for one present or woken. */
  lemma {:induction false} FifoPoll<W>(l: seq<Entry<W>>, woken: set<W>, e: Entry<W>)
    ensures Fifo(l + [e], woken) ==
            if e.wait in woken || e.wait in Fifo(l, woken) then Fifo(l, woken) else Fifo(l, woken) + [e.wait]
  {
    if l == [] {
      assert [e][1..] == [];
      assert l + [e] == [e];
    } else {
      assert (l + [e])[0] == l[0] && (l + [e])[1..] == l[1..] + [e];
      FifoPoll(l[1..], if l[0].wait in woken then woken else woken + {l[0].wait}, e);
    }
  }

  /** `notify_one` removes exactly the head of the queue, and only marks that wait. */
  lemma {:induction false} FifoNotifyOne<W>(l: seq<Entry<W>>, woken: set<W>)
    ensures var (rest, hit) := NotifyFirst(l, woken);
            && (hit.None? <==> Fifo(l, woken) == [])
            && (hit.None? ==> rest == [])
            && (hit.Some? ==> Fifo(l, woken) == [hit.value.wait] + Fifo(rest, woken + {hit.value.wait}))
            && (hit.Some? ==> hit.value in l && hit.value.wait !in woken)
  {
    if l != [] && l[0].wait in woken {
      FifoNotifyOne(l[1..], woken);
    }
  }

  /** `notify_one` loses no entry of a wait that is still un-woken. */
  lemma {:induction false} NotifyFirstKeeps<W>(l: seq<Entry<W>>, woken: set<W>, e: Entry<W>)
    ensures var (rest, hit) := NotifyFirst(l, woken);
            && (e in l && e.wait !in woken && hit != Some(e) ==> e in rest)
            && (e in rest ==> e in l)
  {
    if l != [] && l[0].wait in woken {
      NotifyFirstKeeps(l[1..], woken, e);
    }
  }

  /** `notify_all` hits each wait of the queue exactly once, in queue order. */
  lemma {:induction false} FifoNotifyAll<W>(l: seq<Entry<W>>, woken: set<W>)
    ensures Waits(NotifyEach(l, woken)) == Fifo(l, woken)
    ensures forall e :: e in NotifyEach(l, woken) ==> e in l
  {
    if l == [] {
    } else if l[0].wait in woken {
      FifoNotifyAll(l[1..], woken);
    } else {
      FifoNotifyAll(l[1..], woken + {l[0].wait});
      var hits := NotifyEach(l[1..], woken + {l[0].wait});
      assert Waits([l[0]] + hits) == [l[0].wait] + Waits(hits);
    }
  }

  /** Only the flags of listed waits matter. */
  lemma {:induction false} FifoAgrees<W>(l: seq<Entry<W>>, a: set<W>, b: set<W>)
    requires forall i :: 0 <= i < |l| ==> (l[i].wait in a <==> l[i].wait in b)
    ensures Fifo(l, a) == Fifo(l, b)
  {
    if l != [] {
      var x := l[0].wait;
      if x in a {
        FifoAgrees(l[1..], a, b);
      } else {
        FifoAgrees(l[1..], a + {x}, b + {x});
      }
    }
  }

  /** The queue after `notify_one`, for any set of flags that differs by the hit only. */
  lemma FifoNotified<W>(l: seq<Entry<W>>, woken: set<W>, after: set<W>)
    requires var (rest, hit) := NotifyFirst(l, woken);
             forall k :: 0 <= k < |rest| ==>
               (rest[k].wait in after <==> rest[k].wait in woken || (hit.Some? && rest[k].wait == hit.value.wait))
    ensures var (rest, hit) := NotifyFirst(l, woken);
            var q := Fifo(l, woken);
            && (q == [] ==> hit == None && Fifo(rest, after) == [])
            && (q != [] ==> hit.Some? && hit.value in l && hit.value.wait == q[0] && Fifo(rest, after) == q[1..])
  {
    FifoNotifyOne(l, woken);
    var (rest, hit) := NotifyFirst(l, woken);
    FifoAgrees(rest, after, if hit.Some? then woken + {hit.value.wait} else woken);
  }

  // ------------------------------------------------------------------
  // The mutable condition variable
  // ------------------------------------------------------------------

  /** The flag shared by one wait and all of its entries. */
  class Flag {
    var woken: bool

    constructor ()
      ensures !woken
    {
      woken := false;
    }
  }

  ghost function WokenOf(l: seq<Entry<Flag>>): (woken: set<Flag>)
    reads Waits(l)
  {
    set f | f in Waits(l) && f.woken
  }

  /** The code of `Condvar` and of `SyncCondvar` is the same, line for line. */
  class Condvar {
    var waiters: seq<Entry<Flag>>

    /** The waits that can still be notified, longest-waiting first. */
    ghost function Queue(): seq<Flag>
      reads this, Waits(waiters)
    {
      Fifo(waiters, WokenOf(waiters))
    }

    constructor ()
      ensures waiters == [] && Queue() == []
    {
      waiters := [];
    }

    /** What a pending poll of a wait does: a wait that is in the queue, for
        whatever reason it is polled again, keeps its place. */
    method Enlist(flag: Flag, task: TaskId)
      modifies this
      ensures waiters == old(waiters) + [Entry(flag, task)]
      ensures Queue() == old(Queue()) + (if flag.woken || flag in old(Queue()) then [] else [flag])
    {
      ghost var before := WokenOf(waiters);
      ghost var all := before + (if flag.woken then {flag} else {});
      FifoAgrees(waiters, before, all);
      FifoPoll(waiters, all, Entry(flag, task));
      waiters := waiters + [Entry(flag, task)];
      FifoAgrees(waiters, all, WokenOf(waiters));
    }

    /** Finds one waker that has not been woken yet; everything up to it is used up. */
    static method WakeFirst(entries: seq<Entry<Flag>>, queue: ReadyQueue) returns (i: nat)
      modifies Waits(entries), queue
      ensures i <= |entries|
      ensures NotifyFirst(entries, old(WokenOf(entries))).0 == entries[i..]
      ensures var hit := NotifyFirst(entries, old(WokenOf(entries))).1;
              && (forall f :: f in Waits(entries) ==> f.woken == (old(f.woken) || (hit.Some? && f == hit.value.wait)))
              && queue.tasks == old(queue.tasks) + (if hit.Some? then [hit.value.task] else [])
    {
      ghost var woken := WokenOf(entries);
      i := 0;
      while i < |entries|
        invariant i <= |entries|
        invariant NotifyFirst(entries, woken) == NotifyFirst(entries[i..], woken)
        invariant queue.tasks == old(queue.tasks)
        invariant forall f :: f in Waits(entries) ==> f.woken == (f in woken)
      {
        var e := entries[i];
        i := i + 1;
        assert e.wait == Waits(entries)[i - 1];
        if !e.wait.woken {
          e.wait.woken := true;
          queue.Wake(e.task);
          break;
        }
      }
    }

    /** The second loop of `notify_one` puts the rest back on the list. */
    method PutBack(entries: seq<Entry<Flag>>, start: nat)
      requires waiters == [] && start <= |entries|
      modifies this
      ensures waiters == entries[start..]
    {
      var i := start;
      while i < |entries|
        invariant start <= i <= |entries|
        invariant waiters == entries[start..i]
      {
        waiters := waiters + [entries[i]];
        i := i + 1;
      }
    }

    method NotifyOne(queue: ReadyQueue)
      modifies this, Waits(waiters), queue
      ensures old(Queue()) == [] ==>
                && Queue() == [] && queue.tasks == old(queue.tasks)
                && forall f :: f in old(Waits(waiters)) ==> f.woken == old(f.woken)
      ensures old(Queue()) != [] ==>
                && Queue() == old(Queue())[1..]
                && (forall f :: f in old(Waits(waiters)) ==> f.woken == (old(f.woken) || f == old(Queue())[0]))
                && exists t :: Entry(old(Queue())[0], t) in old(waiters) && queue.tasks == old(queue.tasks) + [t]
    {
      ghost var was, woken := waiters, WokenOf(waiters);
      var oldWaiters := waiters;
      waiters := [];

      var i := WakeFirst(oldWaiters, queue);
      ghost var (rest, hit) := NotifyFirst(was, woken);

      PutBack(oldWaiters, i);
      AfterFirst(was, rest, i);
      forall k | 0 <= k < |rest|
        ensures rest[k].wait in WokenOf(waiters) <==>
                  rest[k].wait in woken || (hit.Some? && rest[k].wait == hit.value.wait)
      {
        assert rest[k].wait in Waits(was) && rest[k].wait in Waits(rest);
      }
      FifoNotified(was, woken, WokenOf(waiters));
    }

    method NotifyAll(queue: ReadyQueue)
      modifies this, Waits(waiters), queue
      ensures waiters == [] && Queue() == []
      ensures forall f :: f in old(Waits(waiters)) ==> f.woken
      ensures var hits := NotifyEach(old(waiters), old(WokenOf(waiters)));
              && Waits(hits) == old(Queue())
              && (forall e :: e in hits ==> e in old(waiters))
              && queue.tasks == old(queue.tasks) + Wakers(hits)
    {
      ghost var was, woken := waiters, WokenOf(waiters);
      FifoNotifyAll(was, woken);
      var drained := waiters;
      waiters := [];
      ghost var hits: seq<Entry<Flag>> := [];
      ghost var now := woken;
      for i := 0 to |drained|
        invariant waiters == [] && Drained(was, woken, i, hits, now)
        invariant queue.tasks == old(queue.tasks) + Wakers(hits)
        invariant forall f: Flag :: f in Waits(was) ==> f.woken == (f in now)
      {
        var e := drained[i];
        assert e.wait == Waits(was)[i];
        DrainNext(was, woken, i, hits, now);
        if !e.wait.woken {
          e.wait.woken := true;
          queue.Wake(e.task);
          hits, now := hits + [e], now + {e.wait};
        }
      }
      DrainEnds(was, woken, hits, now);
    }
  }

  lemma AfterFirst<W>(l: seq<Entry<W>>, rest: seq<Entry<W>>, i: nat)
    requires i <= |l| && rest == l[i..]
    ensures forall k :: 0 <= k < |rest| ==> rest[k].wait in Waits(l) && rest[k].wait in Waits(rest)
  {
    forall k | 0 <= k < |rest|
      ensures rest[k].wait in Waits(l) && rest[k].wait in Waits(rest)
    {
      assert rest[k].wait == Waits(l)[i + k] == Waits(rest)[k];
    }
  }

  /** Where `notify_all` stands after `i` entries: `hits` were woken and `now` are the
      flags that are set. */
  ghost predicate Drained<W>(l: seq<Entry<W>>, woken: set<W>, i: nat, hits: seq<Entry<W>>, now: set<W>) {
    && i <= |l| && NotifyEach(l, woken) == hits + NotifyEach(l[i..], now)
    && forall k :: 0 <= k < i ==> l[k].wait in now
  }

  lemma DrainNext<W>(l: seq<Entry<W>>, woken: set<W>, i: nat, hits: seq<Entry<W>>, now: set<W>)
    requires i < |l| && Drained(l, woken, i, hits, now)
    ensures l[i].wait in now ==> Drained(l, woken, i + 1, hits, now)
    ensures l[i].wait !in now ==> Drained(l, woken, i + 1, hits + [l[i]], now + {l[i].wait})
    ensures Wakers(hits + [l[i]]) == Wakers(hits) + [l[i].task]
  {
    assert l[i..][1..] == l[i + 1..];
    if l[i].wait !in now {
      var rest := NotifyEach(l[i + 1..], now + {l[i].wait});
      assert hits + ([l[i]] + rest) == (hits + [l[i]]) + rest;
    }
  }

  lemma DrainEnds<W>(l: seq<Entry<W>>, woken: set<W>, hits: seq<Entry<W>>, now: set<W>)
    requires Drained(l, woken, |l|, hits, now)
    ensures hits == NotifyEach(l, woken)
    ensures forall w :: w in Waits(l) ==> w in now
  {
    forall w | w in Waits(l)
      ensures w in now
    {
      var k :| 0 <= k < |l| && Waits(l)[k] == w;
      assert l[k].wait in now;
    }
  }

  function Wakers<W>(l: seq<Entry<W>>): (ts: seq<TaskId>)
    ensures |ts| == |l| && forall i :: 0 <= i < |l| ==> ts[i] == l[i].task
  {
    seq(|l|, i requires 0 <= i < |l| => l[i].task)
  }
}
