/** What the simulated network guarantees on every run. */
module NetworkGuarantees {
  import opened Prelude
  import opened Tasks
  import opened Timing
  import opened Channels
  import opened Bandwidths
  import opened Inboxes
  import opened Links
  import opened Topologies
  import opened Networks
  import opened NetworkInvariants

  // ------------------------------------------------------------------
  // Conservation
  // ------------------------------------------------------------------

  /** Task `t` carries the message over the link. */
  ghost predicate CarriedBy(s: Net, id: LetterId, t: TaskId) {
    t < |s.tasks| && s.tasks[t].Latency? && s.tasks[t].letter == id
  }

  /** The message stands at position `i` of what node `n` received and did not finish. */
  ghost predicate WaitsAt(s: Net, id: LetterId, n: NodeId, i: nat) {
    n < |s.nodes| && i < |s.nodes[n].batch + s.nodes[n].inbox.messages|
    && (s.nodes[n].batch + s.nodes[n].inbox.messages)[i].letter == id
  }

  /** The message was the `k`-th that node `n` finished and handed to a handler. */
  ghost predicate HandledAs(s: Net, id: LetterId, n: NodeId, k: nat) {
    n < |s.nodes| && k < |s.nodes[n].served| <= |s.nodes[n].arrivals| && s.nodes[n].arrivals[k].parcel.letter == id
  }

  /** No message is in two places: two carriers, two inbox positions or two services. */
  lemma OnePlaceOnly(s: Net, id: LetterId)
    requires Reachable(s)
    ensures forall t, u :: CarriedBy(s, id, t) && CarriedBy(s, id, u) ==> t == u
    ensures forall n, i, m, j :: WaitsAt(s, id, n, i) && WaitsAt(s, id, m, j) ==> n == m && i == j
    ensures forall n, i, m, j :: HandledAs(s, id, n, i) && HandledAs(s, id, m, j) ==> n == m && i == j
    ensures forall t, n, i :: !(CarriedBy(s, id, t) && WaitsAt(s, id, n, i))
    ensures forall t, n, i :: !(CarriedBy(s, id, t) && HandledAs(s, id, n, i))
    ensures forall n, i, m, j :: !(WaitsAt(s, id, n, i) && HandledAs(s, id, m, j))
  {
    ReachableIsInv(s);
    forall n: nat, i: nat | WaitsAt(s, id, n, i)
      ensures IsArrival(s, id, n, |s.nodes[n].served| + i)
    {
      WaitingIsArrival(s, id, n, i);
    }
    forall n: nat, k: nat | HandledAs(s, id, n, k)
      ensures IsArrival(s, id, n, k)
    {
      HandledIsArrival(s, id, n, k);
    }
    forall t: nat | CarriedBy(s, id, t)
      ensures IsUnderWay(s, id, t)
    {
      CarriedIsUnderWay(s, id, t);
    }
  }

  lemma WaitingIsArrival(s: Net, id: LetterId, n: NodeId, i: nat)
    requires Inv(s) && WaitsAt(s, id, n, i)
    ensures IsArrival(s, id, n, |s.nodes[n].served| + i)
  {
    var x := s.nodes[n];
    assert ServerOk(x, s.clock.now);
    assert x.arrivals[|x.served| + i].parcel == (x.batch + x.inbox.messages)[i];
    assert ArrivalOk(s, n, |x.served| + i);
  }

  lemma HandledIsArrival(s: Net, id: LetterId, n: NodeId, k: nat)
    requires Inv(s) && HandledAs(s, id, n, k)
    ensures IsArrival(s, id, n, k)
  {
    assert ArrivalOk(s, n, k);
  }

  ghost predicate IsUnderWay(s: Net, id: LetterId, t: TaskId) {
    id < |s.mail| && s.mail[id].position == None && s.mail[id].carrier == t
  }

  lemma CarriedIsUnderWay(s: Net, id: LetterId, t: TaskId)
    requires Inv(s) && CarriedBy(s, id, t)
    ensures IsUnderWay(s, id, t)
  {
    assert Addressed(s, id) && Located(s, id);
  }

  ghost predicate IsArrival(s: Net, id: LetterId, n: NodeId, k: nat) {
    n < |s.nodes| && k < |s.nodes[n].arrivals| && id < |s.mail| && s.mail[id].dst == n && s.mail[id].position == Some(k)
  }

  /** No message is lost, whatever is disconnected: each one sent is still carried,
      or waits at its destination, or was handled there. */
  lemma NothingIsLost(s: Net, id: LetterId)
    requires Reachable(s) && id < |s.mail|
    ensures var m := s.mail[id];
            || CarriedBy(s, id, m.carrier)
            || (exists i :: WaitsAt(s, id, m.dst, i))
            || (exists k :: HandledAs(s, id, m.dst, k))
  {
    ReachableIsInv(s);
    var m := s.mail[id];
    assert Addressed(s, id) && Located(s, id);
    var x := s.nodes[m.dst];
    assert ServerOk(x, s.clock.now);
    if m.position.Some? {
      var k := m.position.value;
      if k < |x.served| {
        assert HandledAs(s, id, m.dst, k);
      } else {
        assert x.arrivals[k].parcel == (x.batch + x.inbox.messages)[k - |x.served|];
        assert WaitsAt(s, id, m.dst, k - |x.served|);
      }
    }
  }

  /** A message is handled by the other end of its link, no earlier than the latency
      and its own size delay after it was sent; exactly then, when its latency began
      to pass at once and the node had nothing else to do. */
  lemma HandledNoEarlier(s: Net, id: LetterId, n: NodeId, k: nat)
    requires Reachable(s) && HandledAs(s, id, n, k)
    ensures id < |s.mail| && s.mail[id].link < |s.topo.links|
    ensures var (m, x) := (s.mail[id], s.nodes[n]);
            && n == m.dst && n != m.src && Joins(s.topo.links[m.link], m.src, n)
            && SizeDelay(m.size, x.bandwidth).Some? && m.handler.Some? && m.begun.Some?
            && var d := SizeDelay(m.size, x.bandwidth).value;
               && x.served[k].finish >= m.sentAt + LatencyOf(s, id) + d
               && (m.begun == Some(m.sentAt) && x.served[k].start == x.arrivals[k].at ==>
                     x.served[k].finish == m.sentAt + LatencyOf(s, id) + d)
  {
    ReachableIsInv(s);
    var x := s.nodes[n];
    assert ArrivalOk(s, n, k);
    assert Addressed(s, id) && Located(s, id);
    assert ServerOk(x, s.clock.now) && ServedRight(x, s.clock.now, k);
  }

  // ------------------------------------------------------------------
  // Service and order
  // ------------------------------------------------------------------

  /** Every inbox is a work-conserving first-come-first-served server. */
  lemma InboxIsFifoServer(s: Net, n: NodeId, k: nat)
    requires Reachable(s) && n < |s.nodes| && k < |s.nodes[n].served|
    ensures var x := s.nodes[n];
            && k < |x.arrivals| && DelayOf(x, x.arrivals[k].parcel).Some?
            && var (a, d, f) := (x.arrivals[k].at, DelayOf(x, x.arrivals[k].parcel).value, x.served[k].finish);
               && f >= a + d
               && (k > 0 ==> f >= x.served[k - 1].finish + d)
               && (k > 0 && a < x.served[k - 1].finish ==> f == x.served[k - 1].finish + d)
  {
    ReachableIsInv(s);
    assert ServerOk(s.nodes[n], s.clock.now);
    FifoServer(s.nodes[n], s.clock.now, k);
  }

  lemma InboxUsesItsBandwidth(s: Net, n: NodeId, i: nat, j: nat)
    requires Reachable(s) && n < |s.nodes| && Busy(s.nodes[n], i, j)
    ensures var x := s.nodes[n];
            var (T, count) := (x.served[j - 1].finish - x.served[i].start, j - i);
            x.bandwidth * T <= Total(Sizes(x, i, j)) * MICROBITS_PER_BYTE < x.bandwidth * (T + count)
  {
    ReachableIsInv(s);
    assert ServerOk(s.nodes[n], s.clock.now);
    BusyPeriodBandwidth(s.nodes[n], s.clock.now, i, j);
  }

  /** Messages begin to pass their latency in the order in which they were sent, all
      over the network. */
  lemma LatencyBeginsInSendOrder(s: Net, a: LetterId, b: LetterId)
    requires Reachable(s) && a < b < |s.mail| && s.mail[b].begun.Some?
    ensures s.mail[a].begun.Some? && s.mail[a].sentAt <= s.mail[a].begun.value <= s.mail[b].begun.value
  {
    ReachableIsInv(s);
    assert Addressed(s, a);
  }

  /** Of two messages in the same direction of a link, the later one arrives after the
      earlier one if there is no latency, or if the latency of the earlier one began to
      pass strictly before. With both begun at the same time nothing is promised. */
  lemma DeliveryOrder(s: Net, a: LetterId, b: LetterId)
    requires Reachable(s) && a < b < |s.mail| && SameQueue(s.mail[a], s.mail[b]) && s.mail[b].position.Some?
    ensures s.mail[a].link < |s.topo.links| && s.mail[a].begun.Some? && s.mail[b].begun.Some?
    ensures LatencyOf(s, a) == 0 || s.mail[a].begun.value < s.mail[b].begun.value ==>
              s.mail[a].position.Some? && s.mail[a].position.value < s.mail[b].position.value
  {
    ReachableIsInv(s);
    assert Addressed(s, a) && Addressed(s, b) && Located(s, b);
    assert ArrivesBefore(s, a, b);
  }

  // With equal starts the order of sending may be reversed. Four messages are sent over
  // a link of latency 5 at time 0, so that four equal events are pushed. The binary heap
  // of the standard library pops four equal events in the order first, third, second,
  // fourth, because a pop moves the last element to the root and sinks it below the
  // right one of two equal children. The run below makes the first two of these pops.

  /** The third message arrives before the second, although both started at time 0. */
  lemma TiedMessageOvertakes() returns (s: Net)
    ensures Reachable(s) && |s.mail| == 4 && SameQueue(s.mail[1], s.mail[2])
    ensures s.mail[1].link < |s.topo.links| && LatencyOf(s, 1) == 5
    ensures forall id :: 0 <= id < 4 ==> s.mail[id].sentAt == 0 && s.mail[id].begun == Some(0)
    ensures s.mail[0].position == Some(0) && s.mail[1].position == None && s.mail[2].position == Some(1)
  {
    var a := ServingFirst();
    ReachableStep(a, PollNext);
    s := Step(a, PollNext);
  }

  function Posted(id: LetterId, begun: Option<nat>, position: Option<nat>): Letter {
    Letter(0, 1, 0, 1, 0, 2 + id, begun, position, None)
  }

  /** Two nodes of bandwidth 1, one link of latency 5 between them. */
  ghost predicate OneLink(s: Net) {
    s.topo == Topology([map[1 := 0], map[0 := 0]], [Ends(0, 1, 5)]) && |s.links| == 1
  }

  lemma TwoLinkedNodes() returns (s: Net)
    ensures Reachable(s) && Sending(s, 0)
  {
    var a := TwoNodes();
    ReachableStep(a, External(NewLink(0, 1, 5)));
    s := Step(a, External(NewLink(0, 1, 5)));
  }

  lemma TwoNodes() returns (s: Net)
    ensures Reachable(s) && s.phase == Head && s.clock == Start && s.current == None && s.batch == []
    ensures s.ready == [0, 1] && s.tasks == [Inbox(0), Inbox(1)] && s.mail == [] && s.links == []
    ensures s.nodes == [NewInbox(1, 0), NewInbox(1, 1)] && s.topo == Topology([map[], map[]], [])
  {
    assert Run(Empty, [], Empty);
    ReachableStep(Empty, External(NewNode(1)));
    var a := Step(Empty, External(NewNode(1)));
    ReachableStep(a, External(NewNode(1)));
    s := Step(a, External(NewNode(1)));
  }

  /** `n` messages were sent at time 0, before the loop runs. */
  ghost predicate Sending(s: Net, n: nat) {
    && OneLink(s) && Current(s.links[0], Forward) == n
    && s.phase == Head && s.clock == Start && s.current == None && s.batch == []
    && s.nodes == [NewInbox(1, 0), NewInbox(1, 1)]
    && |s.mail| == n && (forall id :: 0 <= id < n ==> s.mail[id] == Posted(id, None, None))
    && |s.tasks| == 2 + n == |s.ready| && s.tasks[0] == Inbox(0) && s.tasks[1] == Inbox(1)
    && (forall t :: 2 <= t < 2 + n ==> s.tasks[t] == Latency(t - 2, None))
    && (forall t :: 0 <= t < 2 + n ==> s.ready[t] == t)
  }

  lemma SendOne(s: Net, n: nat) returns (r: Net)
    requires Reachable(s) && Sending(s, n) && n < 4
    ensures Reachable(r) && Sending(r, n + 1)
  {
    ReachableStep(s, External(SendMessage(0, 1, 1)));
    r := Step(s, External(SendMessage(0, 1, 1)));
    assert r.links == s.links[0 := Sent(s.links[0], Forward)];
  }

  lemma FourSent() returns (s: Net)
    ensures Reachable(s) && Sending(s, 4)
  {
    s := TwoLinkedNodes();
    s := SendOne(s, 0);
    s := SendOne(s, 1);
    s := SendOne(s, 2);
    s := SendOne(s, 3);
  }

  function Receiving(node: NodeId): NodeState {
    NodeState(1, node, ChannelState([], Some(node)), [], InRecv, [], [])
  }

  /** Both inbox loops wait, and `n` of the carriers sleep until 5. */
  ghost predicate UnderWay(s: Net, n: nat) {
    && n <= 4 && OneLink(s) && Current(s.links[0], Forward) == 4
    && s.phase == Polling && s.current == None && s.ready == [] && s.clock.now == 0
    && s.nodes == [Receiving(0), Receiving(1)]
    && |s.batch| == 4 - n && (forall k :: 0 <= k < 4 - n ==> s.batch[k] == 2 + n + k)
    && |s.clock.events| == n && (forall k :: 0 <= k < n ==> s.clock.events[k] == TimeEvent(5, 2 + k))
    && |s.tasks| == 6 && s.tasks[0] == Inbox(0) && s.tasks[1] == Inbox(1)
    && (forall t :: 2 <= t < 6 ==> s.tasks[t] == Latency(t - 2, if t < 2 + n then Some(5) else None))
    && |s.mail| == 4
    && (forall id :: 0 <= id < 4 ==> s.mail[id] == Posted(id, if id < n then Some(0) else None, None))
  }

  lemma FirstLoopReceives() returns (s: Net)
    ensures Reachable(s) && s.batch == [1, 2, 3, 4, 5] && s.nodes == [Receiving(0), NewInbox(1, 1)]
    ensures s.phase == Polling && s.current == None && s.ready == [] && s.clock == Start
    ensures exists a ::
              Sending(a, 4) && s.tasks == a.tasks && s.mail == a.mail && s.links == a.links && s.topo == a.topo
  {
    var a := FourSent();
    ReachableStep(a, Take);
    var b := Step(a, Take);
    assert b.batch == [0, 1, 2, 3, 4, 5];
    ReachableStep(b, PollNext);
    s := Step(b, PollNext);
    assert Sending(a, 4);
  }

  lemma LoopsReceive() returns (s: Net)
    ensures Reachable(s) && UnderWay(s, 0)
  {
    var a := FirstLoopReceives();
    ReachableStep(a, PollNext);
    s := Step(a, PollNext);
  }

  lemma StartOne(s: Net, n: nat) returns (r: Net)
    requires Reachable(s) && UnderWay(s, n) && n < 4
    ensures Reachable(r) && UnderWay(r, n + 1)
  {
    StartsCarrier(s, n);
    ReachableStep(s, PollNext);
    r := Step(s, PollNext);
    NextUnderWay(s, n, r);
  }

  lemma StartsCarrier(s: Net, n: nat)
    requires UnderWay(s, n) && n < 4
    ensures Enabled(s, PollNext) && s.mail[n] == Posted(n, None, None)
    ensures Step(s, PollNext) ==
            s.(batch := s.batch[1..], tasks := s.tasks[2 + n := Latency(n, Some(5))],
               mail := s.mail[n := Posted(n, Some(0), None)],
               clock := s.clock.(events := s.clock.events + [TimeEvent(5, 2 + n)]))
  {
    assert s.batch[0] == 2 + n;
  }

  lemma NextUnderWay(s: Net, n: nat, r: Net)
    requires UnderWay(s, n) && n < 4
    requires r == s.(batch := s.batch[1..], tasks := s.tasks[2 + n := Latency(n, Some(5))],
                     mail := s.mail[n := Posted(n, Some(0), None)],
                     clock := s.clock.(events := s.clock.events + [TimeEvent(5, 2 + n)]))
    ensures UnderWay(r, n + 1)
  {
  }

  lemma AllUnderWay() returns (s: Net)
    ensures Reachable(s) && UnderWay(s, 4)
  {
    s := LoopsReceive();
    s := StartOne(s, 0);
    s := StartOne(s, 1);
    s := StartOne(s, 2);
    s := StartOne(s, 3);
  }

  /** What holds from time 5 on: messages 1 to 3 are on their way. */
  ghost predicate RestUnderWay(s: Net) {
    && OneLink(s) && Current(s.links[0], Forward) == 4 && s.clock.now == 5
    && |s.nodes| == 2 && |s.tasks| == 6 && s.tasks[1] == Inbox(1) && s.tasks[4] == Latency(2, Some(5))
    && |s.mail| == 4 && (forall id :: 1 <= id < 4 ==> s.mail[id] == Posted(id, Some(0), None))
  }

  lemma FirstIsDue() returns (s: Net)
    ensures Reachable(s) && RestUnderWay(s) && s.phase == Head && s.current == None && s.batch == [] && s.ready == [2]
    ensures s.clock.events == [TimeEvent(5, 3), TimeEvent(5, 4), TimeEvent(5, 5)]
    ensures s.nodes[1] == Receiving(1) && s.tasks[2] == Latency(0, Some(5)) && s.mail[0] == Posted(0, Some(0), None)
  {
    var a := AllUnderWay();
    assert IsEarliest(a.clock.events, 0);
    ReachableStep(a, Advance(0));
    s := Step(a, Advance(0));
  }

  /** The first message is delivered, which wakes the inbox loop. */
  ghost predicate FirstArrived(s: Net) {
    && RestUnderWay(s) && s.mail[0] == Posted(0, Some(0), Some(0))
    && s.nodes[1].arrivals == [Arrival(Parcel(0, 1), 5)]
    && s.nodes[1].bandwidth == 1 && s.nodes[1].loopTask == 1
  }

  lemma FirstArrives() returns (s: Net)
    ensures Reachable(s) && FirstArrived(s) && s.phase == Polling && s.current == None && s.batch == []
    ensures s.ready == [1]
    ensures s.clock.events == [TimeEvent(5, 3), TimeEvent(5, 4), TimeEvent(5, 5)]
    ensures s.nodes[1].inbox == ChannelState([Parcel(0, 1)], None) && s.nodes[1].batch == []
    ensures s.nodes[1].mode == InRecv
  {
    var a := FirstIsDue();
    ReachableStep(a, Take);
    var b := Step(a, Take);
    ReachableStep(b, PollNext);
    s := Step(b, PollNext);
  }

  lemma ThirdIsDue() returns (s: Net)
    ensures Reachable(s) && FirstArrived(s) && s.phase == Head && s.current == None && s.batch == []
    ensures s.ready == [1, 4]
    ensures s.nodes[1].inbox == ChannelState([Parcel(0, 1)], None) && s.nodes[1].batch == []
    ensures s.nodes[1].mode == InRecv
  {
    var a := FirstArrives();
    assert IsEarliest(a.clock.events, 1);
    ReachableStep(a, Advance(1));
    s := Step(a, Advance(1));
  }

  lemma LoopTakesFirst() returns (s: Net)
    ensures Reachable(s) && FirstArrived(s) && s.phase == Polling && s.current == Some(1) && s.batch == [4]
    ensures s.ready == []
    ensures s.nodes[1].batch == [Parcel(0, 1)] && s.nodes[1].mode == Looping
  {
    var a := ThirdIsDue();
    ReachableStep(a, Take);
    var b := Step(a, Take);
    ReachableStep(b, PollNext);
    s := Step(b, PollNext);
  }

  lemma ServingFirst() returns (s: Net)
    ensures Reachable(s) && FirstArrived(s) && s.phase == Polling && s.current == None && s.batch == [4]
  {
    var a := LoopTakesFirst();
    assert DelayOf(a.nodes[1], Parcel(0, 1)) == Some(8000000);
    assert CanServe(a, 1);
    ReachableStep(a, ServeNext);
    s := Step(a, ServeNext);
  }

  // ------------------------------------------------------------------
  // Links
  // ------------------------------------------------------------------

  /** A link counts exactly the messages in flight on each side; it is active while
      there is one, its callbacks alternate from the first on, and the total counts
      every message ever sent. */
  lemma LinkAccounting(s: Net, l: LinkId)
    requires Reachable(s) && l < |s.links|
    ensures var (x, ends) := (s.links[l], s.topo.links);
            var (f1, f2) := (InFlight(ends, s.mail, l, Forward), InFlight(ends, s.mail, l, Backward));
            && x.current1 == f1 && x.current2 == f2
            && (IsActive(x) <==> f1 + f2 > 0)
            && Alternates(x.log) && (|x.log| % 2 == 1 <==> IsActive(x))
            && NumTotalMessages(x) == SentOver(s.mail, l)
  {
    ReachableIsInv(s);
    assert LinkOk(s, l);
  }

  /** The assertion in the delivery notification holds whenever it is reached. */
  lemma NotificationHolds(s: Net, n: NodeId)
    requires Reachable(s) && n < |s.nodes| && s.nodes[n].batch != []
    ensures CanNotify(s, n)
  {
    ReachableIsInv(s);
    NotifyNeverFails(s, n);
  }

  /** The tables are an undirected simple graph throughout, and a message that is sent
      travels over the link that both of its ends know. */
  lemma TablesStaySymmetric(s: Net, x: NodeId, y: NodeId, l: LinkId)
    requires Reachable(s) && Edge(s.topo, x, y, l)
    ensures x != y && Edge(s.topo, y, x, l) && l < |s.topo.links| && Joins(s.topo.links[l], x, y)
  {
    ReachableIsInv(s);
    assert Mirrored(s.topo, x, y);
  }

  // ------------------------------------------------------------------
  // Nobody waits in vain
  // ------------------------------------------------------------------

  /** While messages wait in an inbox, its loop is about to run or serves one of them
      until a time that is not past. */
  lemma InboxNeverStarves(s: Net, n: NodeId, i: nat, id: LetterId)
    requires Reachable(s) && WaitsAt(s, id, n, i)
    ensures var x := s.nodes[n];
            || Queued(s, x.loopTask)
            || s.current == Some(x.loopTask)
            || (x.mode.Serving? && x.batch != [] && s.clock.now <= x.mode.wake
                && TimeEvent(x.mode.wake, x.loopTask) in s.clock.events)
  {
    ReachableIsInv(s);
    var x := s.nodes[n];
    assert ServerOk(x, s.clock.now);
    assert Attended(s, x.loopTask) && OnTime(s.clock, Due(s), x.loopTask, WakeOf(s, x.loopTask));
    assert Runs(s, x.loopTask) <==> s.current == Some(x.loopTask);
  }

  /** Nothing runs, nothing is ready, and no event is pending. */
  predicate AtRest(s: Net) {
    s.current == None && s.ready == [] && s.batch == [] && s.clock.events == []
  }

  /** At rest no carrier is left and nobody waits in an inbox. */
  lemma AtRestNothingMoves(s: Net, id: LetterId)
    requires Reachable(s) && AtRest(s)
    ensures forall t :: !CarriedBy(s, id, t)
    ensures forall n, i :: !WaitsAt(s, id, n, i)
  {
    ReachableIsInv(s);
    forall t | 0 <= t < |s.tasks|
      ensures !CarriedBy(s, id, t)
    {
      assert Attended(s, t) && OnTime(s.clock, Due(s), t, WakeOf(s, t));
    }
    forall n: nat, i: nat
      ensures !WaitsAt(s, id, n, i)
    {
      if WaitsAt(s, id, n, i) {
        InboxNeverStarves(s, n, i, id);
      }
    }
  }

  /** When the network is at rest every message ever sent was handled at its destination. */
  lemma AtRestAllIsHandled(s: Net, id: LetterId)
    requires Reachable(s) && AtRest(s) && id < |s.mail|
    ensures exists k :: HandledAs(s, id, s.mail[id].dst, k)
  {
    NothingIsLost(s, id);
    AtRestNothingMoves(s, id);
  }

  /** So no link is active then. */
  lemma AtRestLinksAreInactive(s: Net, l: LinkId)
    requires Reachable(s) && AtRest(s) && l < |s.links|
    ensures !IsActive(s.links[l])
  {
    LinkAccounting(s, l);
    forall id | 0 <= id < |s.mail|
      ensures s.mail[id].handler.Some?
    {
      AtRestAllIsHandled(s, id);
      var k :| HandledAs(s, id, s.mail[id].dst, k);
      HandledNoEarlier(s, id, s.mail[id].dst, k);
    }
    NoneInFlight(s.topo.links, s.mail, l, Forward);
    NoneInFlight(s.topo.links, s.mail, l, Backward);
  }

  lemma {:induction false} NoneInFlight(ends: seq<Ends>, mail: seq<Letter>, l: LinkId, d: Direction)
    requires forall id :: 0 <= id < |mail| ==> mail[id].handler.Some?
    ensures InFlight(ends, mail, l, d) == 0
    decreases |mail|
  {
    if mail != [] {
      assert mail[|mail| - 1].handler.Some?;
      NoneInFlight(ends, mail[..|mail| - 1], l, d);
    }
  }
}
