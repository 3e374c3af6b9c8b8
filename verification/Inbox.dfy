/** The inbox loop of a node (`src/network/node.rs`, lines 158-182): a server that
    works off the messages of its channel one after the other, in order of arrival. */
module Inboxes {
  import opened Prelude
  import opened Tasks
  import opened Timing
  import opened Channels
  import opened Bandwidths

  /** A message in an inbox: which one it is, and its size. */
  datatype Parcel = Parcel(letter: nat, size: nat)

  datatype Arrival = Arrival(parcel: Parcel, at: nat)

  datatype Service = Service(start: nat, finish: nat)

  /** Where the loop stands: never polled, suspended in `recv`, suspended in the sleep
      that serves the first message of its batch, or running between two of these. */
  datatype Mode = Fresh | InRecv | Serving(start: nat, wake: nat) | Looping

  /** `arrivals` and `served` record the past of the inbox; no step reads them. */
  datatype NodeState = NodeState(
    bandwidth: nat, loopTask: TaskId, inbox: ChannelState<Parcel>, batch: seq<Parcel>, mode: Mode,
    arrivals: seq<Arrival>, served: seq<Service>)

  function NewInbox(bandwidth: nat, loopTask: TaskId): NodeState {
    NodeState(bandwidth, loopTask, ChannelState([], None), [], Fresh, [], [])
  }

  function DelayOf(x: NodeState, p: Parcel): Option<nat> {
    SizeDelay(p.size, x.bandwidth)
  }

  // ------------------------------------------------------------------
  // What the code does
  // ------------------------------------------------------------------

  /** `deliver_message`. */
  function Arrive(x: NodeState, p: Parcel, now: nat): NodeState {
    x.(inbox := SendTo(x.inbox, p), arrivals := x.arrivals + [Arrival(p, now)])
  }

  /** A poll of `recv`: the whole buffer becomes the batch, or the loop suspends. */
  function Receive(x: NodeState): NodeState {
    var (inbox, got) := PollRecv(x.inbox, x.loopTask);
    if got.Some? then x.(inbox := inbox, batch := got.value, mode := Looping)
    else x.(inbox := inbox, mode := InRecv)
  }

  /** The service of the next message can start: no overflow in its delay. */
  predicate CanBegin(x: NodeState, now: nat) {
    x.batch != [] && DelayOf(x, x.batch[0]).Some? && now + DelayOf(x, x.batch[0]).value < TIME_LIMIT
  }

  /** The service of a message with a positive delay begins with a sleep. */
  function BeginService(x: NodeState, now: nat): NodeState
    requires CanBegin(x, now)
  {
    x.(mode := Serving(now, now + DelayOf(x, x.batch[0]).value))
  }

  function EndService(x: NodeState, start: nat, now: nat): NodeState
    requires x.batch != []
  {
    x.(batch := x.batch[1..], mode := Looping, served := x.served + [Service(start, now)])
  }

  // ------------------------------------------------------------------
  // The server invariant
  // ------------------------------------------------------------------

  /** Service `i` took exactly its delay; it began after the arrival and after the
      service before, and immediately after it when the message was already there. */
  ghost predicate ServedRight(x: NodeState, now: nat, i: nat)
    requires i < |x.served| <= |x.arrivals|
  {
    var a, v := x.arrivals[i], x.served[i];
    && DelayOf(x, a.parcel) == Some(v.finish - v.start) && v.start <= v.finish <= now
    && StartsRight(x, i, v.start)
  }

  ghost predicate StartsRight(x: NodeState, i: nat, start: nat)
    requires i <= |x.served| <= |x.arrivals| && i < |x.arrivals|
  {
    && x.arrivals[i].at <= start
    && (i > 0 ==> x.served[i - 1].finish <= start)
    && (i > 0 && x.arrivals[i].at < x.served[i - 1].finish ==> start == x.served[i - 1].finish)
  }

  /** Whatever still waits arrived after the last service ended. */
  ghost predicate CaughtUp(x: NodeState) {
    |x.served| > 0 ==>
      forall i :: |x.served| <= i < |x.arrivals| ==> x.served[|x.served| - 1].finish <= x.arrivals[i].at
  }

  /** Batch and buffer together are the arrivals not served yet, in order. */
  ghost predicate InOrder(x: NodeState) {
    && |x.served| + |x.batch| + |x.inbox.messages| == |x.arrivals|
    && (forall i :: |x.served| <= i < |x.arrivals| ==>
          x.arrivals[i].parcel == (x.batch + x.inbox.messages)[i - |x.served|])
  }

  ghost predicate ModeRight(x: NodeState, now: nat)
    requires |x.served| <= |x.arrivals|
  {
    match x.mode
    case Fresh => x.batch == [] && x.served == []
    case InRecv => x.batch == [] && CaughtUp(x)
    case Serving(start, wake) =>
      && x.batch != [] && |x.served| < |x.arrivals|
      && start <= now && start < wake && DelayOf(x, x.batch[0]) == Some(wake - start)
      && StartsRight(x, |x.served|, start)
    case Looping => CaughtUp(x) || (x.served != [] && x.served[|x.served| - 1].finish == now)
  }

  ghost predicate ServerOk(x: NodeState, now: nat) {
    && InOrder(x)
    && ChannelOk(x.inbox)
    && (forall i :: 0 <= i < |x.arrivals| ==> x.arrivals[i].at <= now)
    && (forall i, j :: 0 <= i <= j < |x.arrivals| ==> x.arrivals[i].at <= x.arrivals[j].at)
    && (forall i :: 0 <= i < |x.served| ==> ServedRight(x, now, i))
    && ModeRight(x, now)
  }

  lemma NewInboxIsOk(bandwidth: nat, loopTask: TaskId, now: nat)
    ensures ServerOk(NewInbox(bandwidth, loopTask), now)
  {
  }

  lemma ArriveKeepsServer(x: NodeState, p: Parcel, now: nat)
    requires ServerOk(x, now)
    ensures ServerOk(Arrive(x, p, now), now)
    ensures var r := Arrive(x, p, now);
            && r.arrivals == x.arrivals + [Arrival(p, now)] && r.inbox == ChannelState(x.inbox.messages + [p], None)
            && r.batch == x.batch && r.served == x.served && r.mode == x.mode
            && r.bandwidth == x.bandwidth && r.loopTask == x.loopTask
  {
    var r := Arrive(x, p, now);
    assert r.batch + r.inbox.messages == (x.batch + x.inbox.messages) + [p];
    forall i | 0 <= i < |r.served|
      ensures ServedRight(r, now, i)
    {
      assert ServedRight(x, now, i);
    }
    if x.served != [] {
      assert ServedRight(x, now, |x.served| - 1);
    }
  }

  lemma ReceiveKeepsServer(x: NodeState, now: nat)
    requires ServerOk(x, now) && x.batch == [] && !x.mode.Serving?
    ensures ServerOk(Receive(x), now)
    ensures || Receive(x).mode == Looping
            || (Receive(x).mode == InRecv && Receive(x).inbox == ChannelState([], Some(x.loopTask)))
  {
    var r := Receive(x);
    assert r.batch + r.inbox.messages == x.batch + x.inbox.messages;
    forall i | 0 <= i < |r.served|
      ensures ServedRight(r, now, i)
    {
      assert ServedRight(x, now, i);
    }
  }

  lemma BeginKeepsServer(x: NodeState, now: nat)
    requires ServerOk(x, now) && x.mode == Looping && CanBegin(x, now) && DelayOf(x, x.batch[0]).value > 0
    ensures ServerOk(BeginService(x, now), now)
  {
    var r := BeginService(x, now);
    StartingNow(x, now);
    forall i | 0 <= i < |r.served|
      ensures ServedRight(r, now, i)
    {
      assert ServedRight(x, now, i);
    }
  }

  /** A running loop may start the next service right now. */
  lemma StartingNow(x: NodeState, now: nat)
    requires ServerOk(x, now) && x.mode == Looping && x.batch != []
    ensures |x.served| < |x.arrivals| && StartsRight(x, |x.served|, now) && x.arrivals[|x.served|].parcel == x.batch[0]
  {
    if x.served != [] {
      assert ServedRight(x, now, |x.served| - 1);
    }
  }

  /** Ending a service that began at `start` and lasted exactly its delay. */
  lemma EndKeepsServer(x: NodeState, start: nat, now: nat)
    requires ServerOk(x, now) && x.batch != [] && start <= now
    requires x.mode == Serving(start, now) || (x.mode == Looping && start == now && DelayOf(x, x.batch[0]) == Some(0))
    ensures ServerOk(EndService(x, start, now), now)
  {
    var r := EndService(x, start, now);
    if x.mode == Looping { StartingNow(x, now); }
    assert x.batch + x.inbox.messages == [x.batch[0]] + (r.batch + r.inbox.messages);
    forall i | 0 <= i < |r.served|
      ensures ServedRight(r, now, i)
    {
      if i < |x.served| { assert ServedRight(x, now, i); }
    }
  }

  /** The clock may move while the loop is suspended. */
  lemma TimeKeepsServer(x: NodeState, now: nat, later: nat)
    requires ServerOk(x, now) && now <= later && x.mode != Looping
    ensures ServerOk(x, later)
  {
    forall i | 0 <= i < |x.served|
      ensures ServedRight(x, later, i)
    {
      assert ServedRight(x, now, i);
    }
  }

  // ------------------------------------------------------------------
  // What the invariant means
  // ------------------------------------------------------------------

  /** Work-conserving and first come, first served: with arrival `a`, delay `d` and
      finish `f`, always f(k) >= max(f(k-1), a(k)) + d(k), and f(k) = f(k-1) + d(k)
      when the message arrived before the previous one was finished. */
  lemma FifoServer(x: NodeState, now: nat, k: nat)
    requires ServerOk(x, now) && k < |x.served|
    ensures k < |x.arrivals| && DelayOf(x, x.arrivals[k].parcel).Some?
    ensures var (a, d, f) := (x.arrivals[k].at, DelayOf(x, x.arrivals[k].parcel).value, x.served[k].finish);
            && f >= a + d
            && (k > 0 ==> f >= x.served[k - 1].finish + d)
            && (k > 0 && a < x.served[k - 1].finish ==> f == x.served[k - 1].finish + d)
  {
    assert ServedRight(x, now, k);
  }

  /** Messages `i` to `j - 1` form one busy period: each arrived before the one
      before it was finished. */
  ghost predicate Busy(x: NodeState, i: nat, j: nat) {
    && i < j <= |x.served| <= |x.arrivals|
    && forall k :: i < k < j ==> x.arrivals[k].at < x.served[k - 1].finish
  }

  ghost function Sizes(x: NodeState, i: nat, j: nat): (r: seq<nat>)
    requires i <= j <= |x.arrivals|
    ensures |r| == j - i && forall k :: 0 <= k < j - i ==> r[k] == x.arrivals[i + k].parcel.size
  {
    seq<nat>(j - i, k requires 0 <= k < j - i => x.arrivals[i + k].parcel.size)
  }

  ghost function Durations(x: NodeState, i: nat, j: nat): (r: seq<nat>)
    requires i <= j <= |x.served| && forall k :: i <= k < j ==> x.served[k].start <= x.served[k].finish
    ensures |r| == j - i && forall k :: 0 <= k < j - i ==> r[k] == x.served[i + k].finish - x.served[i + k].start
  {
    seq<nat>(j - i, k requires 0 <= k < j - i => x.served[i + k].finish - x.served[i + k].start)
  }

  /** A busy period has no gaps: it lasts as long as its services together. */
  lemma {:induction false} BusyPeriodLasts(x: NodeState, now: nat, i: nat, j: nat)
    requires ServerOk(x, now) && Busy(x, i, j)
    ensures forall k :: i <= k < j ==> x.served[k].start <= x.served[k].finish
    ensures x.served[j - 1].finish - x.served[i].start == Total(Durations(x, i, j))
    decreases j - i
  {
    forall k | i <= k < j
      ensures x.served[k].start <= x.served[k].finish
    {
      assert ServedRight(x, now, k);
    }
    var ds := Durations(x, i, j);
    if i + 1 < j {
      BusyPeriodLasts(x, now, i + 1, j);
      assert ServedRight(x, now, i + 1);
      assert ds[1..] == Durations(x, i + 1, j);
    } else {
      assert ds[1..] == [];
    }
  }

  /** Over the `n` messages of a busy period that lasts `T` microseconds, the bits sent
      are at least bandwidth times T and less than bandwidth times (T + n). */
  lemma BusyPeriodBandwidth(x: NodeState, now: nat, i: nat, j: nat)
    requires ServerOk(x, now) && Busy(x, i, j)
    ensures var (T, n) := (x.served[j - 1].finish - x.served[i].start, j - i);
            x.bandwidth * T <= Total(Sizes(x, i, j)) * MICROBITS_PER_BYTE < x.bandwidth * (T + n)
  {
    BusyPeriodLasts(x, now, i, j);
    var sizes, ds := Sizes(x, i, j), Durations(x, i, j);
    forall k | 0 <= k < j - i
      ensures SizeDelay(sizes[k], x.bandwidth) == Some(ds[k])
    {
      assert ServedRight(x, now, i + k);
    }
    BusyPeriodBounds(sizes, ds, x.bandwidth);
  }

  // ------------------------------------------------------------------
  // The loop itself
  // ------------------------------------------------------------------

  class InboxLoop {
    var state: NodeState

    constructor (bandwidth: nat, loopTask: TaskId, now: nat)
      ensures state == NewInbox(bandwidth, loopTask) && ServerOk(state, now)
    {
      state := NewInbox(bandwidth, loopTask);
      NewInboxIsOk(bandwidth, loopTask, now);
    }

    /** What every part of a poll keeps: `done` of the waiting messages were finished,
        in order, and the rest still waits in order. */
    twostate predicate Progress(done: seq<Parcel>)
      reads this
    {
      && old(state).batch + old(state).inbox.messages == done + (state.batch + state.inbox.messages)
      && state.arrivals == old(state).arrivals && |state.served| == |old(state).served| + |done|
      && state.bandwidth == old(state).bandwidth && state.loopTask == old(state).loopTask
    }

    /** A running loop goes on: it takes the next batch, begins to serve the next
        message, or finishes one that takes no time. */
    method Next(now: nat) returns (done: seq<Parcel>)
      requires ServerOk(state, now) && state.mode == Looping && (state.batch == [] || CanBegin(state, now))
      modifies this
      ensures ServerOk(state, now) && Progress(done)
      ensures state.mode == Looping || Suspended(now)
      ensures |state.batch| + |state.inbox.messages| < |old(state).batch| + |old(state).inbox.messages|
              || state.mode != Looping || |state.inbox.messages| < |old(state).inbox.messages|
      ensures |state.batch| + |state.inbox.messages| <= |old(state).batch| + |old(state).inbox.messages|
    {
      done := [];
      if state.batch == [] {
        ReceiveKeepsServer(state, now);
        state := Receive(state);
      } else if DelayOf(state, state.batch[0]).value > 0 {
        BeginKeepsServer(state, now);
        state := BeginService(state, now);
      } else {
        done := [state.batch[0]];
        EndKeepsServer(state, now, now);
        state := EndService(state, now, now);
      }
    }

    /** Suspended in `recv` on an empty channel that holds the waker, or in a sleep. */
    ghost predicate Suspended(now: nat)
      reads this
    {
      || (state.mode == InRecv && state.inbox == ChannelState([], Some(state.loopTask)) && state.batch == [])
      || (state.mode.Serving? && now < state.mode.wake)
    }

    /** One poll of the loop at time `now`: it works until it must sleep or wait for
        messages. `done` are the messages whose delivery it notified. `panicked` tells
        that a delay overflowed. The sleep of a service ends exactly on time. */
    method Poll(now: nat) returns (done: seq<Parcel>, panicked: bool)
      requires ServerOk(state, now) && state.mode != Looping
      requires state.mode.Serving? ==> now <= state.mode.wake
      modifies this
      ensures ServerOk(state, now) && Progress(done)
      ensures if panicked then state.mode == Looping && !CanBegin(state, now) else Suspended(now)
    {
      if state.mode.Serving? && now < state.mode.wake {
        return [], false;
      }
      done := Continue(now);
      while state.mode == Looping
        invariant ServerOk(state, now) && Progress(done)
        invariant state.mode == Looping || Suspended(now)
        decreases |state.batch| + |state.inbox.messages|, state.mode == Looping, |state.inbox.messages|
      {
        if state.batch != [] && !CanBegin(state, now) {
          return done, true;
        }
        var more := Next(now);
        ghost var rest := state.batch + state.inbox.messages;
        assert done + (more + rest) == (done + more) + rest;
        done := done + more;
      }
      return done, false;
    }

    /** What a suspended loop does first when it can go on. */
    method Continue(now: nat) returns (done: seq<Parcel>)
      requires ServerOk(state, now) && state.mode != Looping
      requires state.mode.Serving? ==> now == state.mode.wake
      modifies this
      ensures ServerOk(state, now) && Progress(done)
      ensures state.mode == Looping || Suspended(now)
    {
      if state.mode.Serving? {
        done := [state.batch[0]];
        EndKeepsServer(state, state.mode.start, now);
        state := EndService(state, state.mode.start, now);
      } else {
        done := [];
        ReceiveKeepsServer(state, now);
        state := Receive(state);
      }
    }
  }
}
