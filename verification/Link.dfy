/** Message counters of a link and its two queues (`src/network/link.rs`). */
module Links {
  import opened Prelude

  /** `current_message_count` is an unsigned 32-bit atomic that wraps around. */
  const COUNT_LIMIT: nat := 0x1_0000_0000

  datatype Activity = BecameActive | BecameInactive

  /** `queue1` carries messages from the link's first node, `queue2` those of its second. */
  datatype Direction = Forward | Backward

  /** `log` lists the calls of the activity callbacks. */
  datatype LinkState = LinkState(
    current1: nat, current2: nat, total1: nat, total2: nat, activeQueues: nat, log: seq<Activity>)

  const Quiet: LinkState := LinkState(0, 0, 0, 0, 0, [])

  function Current(l: LinkState, d: Direction): nat {
    if d == Forward then l.current1 else l.current2
  }

  function Counted(l: LinkState, d: Direction, current: nat, sent: nat): LinkState {
    if d == Forward then l.(current1 := current, total1 := l.total1 + sent)
    else l.(current2 := current, total2 := l.total2 + sent)
  }

  /** The synchronous part of `LinkQueue::send`. */
  function Sent(l: LinkState, d: Direction): LinkState {
    var prev := Current(l, d);
    var l' := Counted(l, d, (prev + 1) % COUNT_LIMIT, 1);
    if prev != 0 then l'
    else
      l'.(activeQueues := l.activeQueues + 1,
          log := if l.activeQueues == 0 then l.log + [BecameActive] else l.log)
  }

  /** The delivery notification; `None` is its failing assertion `prev > 0`. */
  function Delivered(l: LinkState, d: Direction): Option<LinkState> {
    var prev := Current(l, d);
    if prev == 0 then None
    else
      var l' := Counted(l, d, prev - 1, 0);
      if prev != 1 then Some(l')
      else
        Some(l'.(activeQueues := if l.activeQueues == 0 then 0xFFFF_FFFF else l.activeQueues - 1,
                 log := if l.activeQueues == 1 then l.log + [BecameInactive] else l.log))
  }

  predicate IsActive(l: LinkState) {
    l.activeQueues > 0
  }

  function NumTotalMessages(l: LinkState): nat {
    l.total1 + l.total2
  }

  // ------------------------------------------------------------------
  // Accounting
  // ------------------------------------------------------------------

  /** Callbacks alternate, beginning with the one for becoming active. */
  ghost predicate Alternates(log: seq<Activity>) {
    forall i :: 0 <= i < |log| ==> log[i] == (if i % 2 == 0 then BecameActive else BecameInactive)
  }

  /** The counters agree with `f1` and `f2` messages that were sent and not yet
      notified, and the callbacks told so. */
  ghost predicate Accounts(l: LinkState, f1: nat, f2: nat) {
    && l.current1 == f1 && l.current2 == f2
    && l.activeQueues == (if f1 > 0 then 1 else 0) + (if f2 > 0 then 1 else 0)
    && Alternates(l.log)
    && (|l.log| % 2 == 1 <==> IsActive(l))
  }

  function Add(d: Direction, f1: nat, f2: nat): (nat, nat) {
    if d == Forward then (f1 + 1, f2) else (f1, f2 + 1)
  }

  /** A send is accounted for exactly while its queue holds fewer than 2^32 messages. */
  lemma SentAccounts(l: LinkState, d: Direction, f1: nat, f2: nat)
    requires Accounts(l, f1, f2) && f1 < COUNT_LIMIT && f2 < COUNT_LIMIT
    ensures var (g1, g2) := Add(d, f1, f2);
            Accounts(Sent(l, d), g1, g2) <==> g1 < COUNT_LIMIT && g2 < COUNT_LIMIT
    ensures NumTotalMessages(Sent(l, d)) == NumTotalMessages(l) + 1
    ensures Sent(l, d).log == l.log + (if f1 + f2 == 0 then [BecameActive] else [])
  {
  }

  /** The numbers `own` in direction `d` and `other` against it, forward first. */
  function Split(d: Direction, own: nat, other: nat): (nat, nat) {
    if d == Forward then (own, other) else (other, own)
  }

  /** At the limit the counter of a queue wraps to zero, whatever the other queue holds,
      and the first delivery over it panics. */
  lemma WrapBreaksDelivery(l: LinkState, d: Direction, other: nat)
    requires var (f1, f2) := Split(d, COUNT_LIMIT - 1, other); Accounts(l, f1, f2)
    ensures Current(Sent(l, d), d) == 0 && Delivered(Sent(l, d), d) == None
  {
  }

  function Opposite(d: Direction): Direction {
    if d == Forward then Backward else Forward
  }

  /** A new link after `own` sends in direction `d` and `other` sends against it. */
  ghost function AfterSends(d: Direction, own: nat, other: nat): LinkState
    decreases own + other
  {
    if own > 0 then Sent(AfterSends(d, own - 1, other), d)
    else if other > 0 then Sent(AfterSends(d, own, other - 1), Opposite(d))
    else Quiet
  }

  ghost predicate AccountsFor(l: LinkState, d: Direction, own: nat, other: nat) {
    var (f1, f2) := Split(d, own, other); Accounts(l, f1, f2)
  }

  lemma OneMore(l: LinkState, d: Direction, own: nat, other: nat)
    requires AccountsFor(l, d, own, other) && own < COUNT_LIMIT && other < COUNT_LIMIT
    ensures own + 1 < COUNT_LIMIT ==> AccountsFor(Sent(l, d), d, own + 1, other)
    ensures other + 1 < COUNT_LIMIT ==> AccountsFor(Sent(l, Opposite(d)), d, own, other + 1)
  {
    var (f1, f2) := Split(d, own, other);
    SentAccounts(l, d, f1, f2);
    SentAccounts(l, Opposite(d), f1, f2);
  }

  /** Below the limit, sends alone are accounted for. */
  lemma {:induction false} SendsAccount(d: Direction, own: nat, other: nat)
    requires own < COUNT_LIMIT && other < COUNT_LIMIT
    ensures AccountsFor(AfterSends(d, own, other), d, own, other)
    decreases own + other
  {
    if own > 0 {
      SendsAccount(d, own - 1, other);
      OneMore(AfterSends(d, own - 1, other), d, own - 1, other);
    } else if other > 0 {
      SendsAccount(d, own, other - 1);
      OneMore(AfterSends(d, own, other - 1), d, own, other - 1);
    }
  }

  /** So the limit is reached on any link, by 2^32 sends in one direction. */
  lemma LimitIsReached(d: Direction, other: nat)
    requires other < COUNT_LIMIT
    ensures Delivered(AfterSends(d, COUNT_LIMIT, other), d) == None
  {
    SendsAccount(d, COUNT_LIMIT - 1, other);
    WrapBreaksDelivery(AfterSends(d, COUNT_LIMIT - 1, other), d, other);
  }

  /** The notification of a message in flight never fails and is accounted for. */
  lemma DeliveredAccounts(l: LinkState, d: Direction, f1: nat, f2: nat)
    requires var (g1, g2) := Add(d, f1, f2); Accounts(l, g1, g2)
    ensures Delivered(l, d).Some? && Accounts(Delivered(l, d).value, f1, f2)
    ensures NumTotalMessages(Delivered(l, d).value) == NumTotalMessages(l)
    ensures Delivered(l, d).value.log == l.log + (if f1 + f2 == 0 then [BecameInactive] else [])
  {
  }

  // ------------------------------------------------------------------
  // The mutable link
  // ------------------------------------------------------------------

  class LinkQueue {
    var currentMessageCount: nat
    var totalMessageCount: nat

    constructor ()
      ensures currentMessageCount == 0 && totalMessageCount == 0
    {
      currentMessageCount, totalMessageCount := 0, 0;
    }
  }

  class Link {
    const queue1: LinkQueue
    const queue2: LinkQueue
    var activeQueues: nat
    var log: seq<Activity>

    ghost function Value(): LinkState
      reads this, queue1, queue2
    {
      LinkState(queue1.currentMessageCount, queue2.currentMessageCount,
                queue1.totalMessageCount, queue2.totalMessageCount, activeQueues, log)
    }

    ghost predicate Valid() {
      queue1 != queue2
    }

    constructor ()
      ensures Valid() && Value() == Quiet && Accounts(Value(), 0, 0)
    {
      queue1 := new LinkQueue();
      queue2 := new LinkQueue();
      activeQueues, log := 0, [];
    }

    function Queue(d: Direction): LinkQueue {
      if d == Forward then queue1 else queue2
    }

    method Send(d: Direction)
      requires Valid()
      modifies this, Queue(d)
      ensures Value() == Sent(old(Value()), d)
    {
      var q := Queue(d);
      q.totalMessageCount := q.totalMessageCount + 1;
      var prev := q.currentMessageCount;
      q.currentMessageCount := (prev + 1) % COUNT_LIMIT;
      if prev == 0 {
        var active := activeQueues;
        activeQueues := active + 1;
        if active == 0 {
          log := log + [BecameActive];
        }
      }
    }

    /** `ok` is the outcome of the assertion; with a message in flight it holds. */
    method NotifyDelivery(d: Direction, ghost f1: nat, ghost f2: nat) returns (ok: bool)
      requires Valid()
      modifies this, Queue(d)
      ensures ok <==> old(Current(Value(), d)) > 0
      ensures if ok then Delivered(old(Value()), d) == Some(Value()) else Value() == old(Value())
      ensures var (g1, g2) := Add(d, f1, f2); old(Accounts(Value(), g1, g2)) ==> ok && Accounts(Value(), f1, f2)
    {
      var q := Queue(d);
      var prev := q.currentMessageCount;
      if prev == 0 {
        return false;
      }
      q.currentMessageCount := prev - 1;
      if prev == 1 {
        var active := activeQueues;
        activeQueues := if active == 0 then 0xFFFF_FFFF else active - 1;
        if active == 1 {
          log := log + [BecameInactive];
        }
      }
      return true;
    }
  }
}
