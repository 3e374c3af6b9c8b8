/** What each operation and each poll does to the simulated network, field by field, that
    the messages are exactly those sent, and that only overflow can stop a step.

    A statement of the form `r.(x := s.x, y := s.y) == s` says that nothing but `x` and
    `y` changed. */
module NetworkEffects {
  import opened Prelude
  import opened Tasks
  import opened Timing
  import opened Channels
  import opened Bandwidths
  import opened Inboxes
  import opened Links
  import opened Topologies
  import opened Networks
  import opened NetworkInvariants
  import opened NetworkGuarantees

  // ------------------------------------------------------------------
  // Operations, inside and outside of the loop
  // ------------------------------------------------------------------

  /** An operation is performed by the running task, or from outside. */
  predicate Does(ch: Choice, op: Op) {
    ch == Act(op) || ch == External(op)
  }

  /** One message more is counted on its side of the link, and nothing else is. */
  ghost predicate CountsOne(before: LinkState, after: LinkState, d: Direction) {
    var e := if d == Forward then Backward else Forward;
    && Current(after, d) == Current(before, d) + 1 && Current(after, e) == Current(before, e)
    && NumTotalMessages(after) == NumTotalMessages(before) + 1
  }

  /** `send_to` a peer posts one message over the link to it, carried by a new task that is
      ready; to anybody else it does nothing. */
  lemma SendMessageEffect(s: Net, ch: Choice, x: NodeId, y: NodeId, size: nat)
    requires Reachable(s) && Enabled(s, ch) && Does(ch, SendMessage(x, y, size))
    ensures y !in s.topo.tables[x] ==> Step(s, ch) == s
    ensures y in s.topo.tables[x] ==>
              var (r, l) := (Step(s, ch), s.topo.tables[x][y]);
              && l < |s.links| && l < |s.topo.links|
              && r.mail == s.mail + [Letter(x, y, l, size, s.clock.now, |s.tasks|, None, None, None)]
              && r.tasks == s.tasks + [Latency(|s.mail|, None)] && r.ready == s.ready + [|s.tasks|]
              && |r.links| == |s.links| && (forall k :: 0 <= k < |s.links| && k != l ==> r.links[k] == s.links[k])
              && CountsOne(s.links[l], r.links[l], DirectionFrom(s.topo.links[l], x))
              && r.(mail := s.mail, tasks := s.tasks, ready := s.ready, links := s.links) == s
  {
  }

  /** A new node has an empty inbox and no connection; its loop is a new task. */
  lemma NewNodeEffect(s: Net, ch: Choice, bandwidth: nat)
    requires Enabled(s, ch) && Does(ch, NewNode(bandwidth))
    ensures var r := Step(s, ch);
            && r.nodes == s.nodes + [NodeState(bandwidth, |s.tasks|, ChannelState([], None), [], Fresh, [], [])]
            && r.topo.tables == s.topo.tables + [map[]] && r.topo.links == s.topo.links
            && r.tasks == s.tasks + [Inbox(|s.nodes|)] && r.ready == s.ready + [|s.tasks|]
            && r.(nodes := s.nodes, topo := s.topo, tasks := s.tasks, ready := s.ready) == s
  {
  }

  /** A new link joins its two nodes, in both tables, and counts nothing. */
  lemma NewLinkEffect(s: Net, ch: Choice, x: NodeId, y: NodeId, latency: nat)
    requires Reachable(s) && Enabled(s, ch) && Does(ch, NewLink(x, y, latency))
    ensures var (r, l) := (Step(s, ch), |s.topo.links|);
            && r.links == s.links + [LinkState(0, 0, 0, 0, 0, [])]
            && r.topo.links == s.topo.links + [Ends(x, y, latency)]
            && (forall p, q, k :: Edge(r.topo, p, q, k) <==>
                  Edge(s.topo, p, q, k) || (k == l && ((p == x && q == y) || (p == y && q == x))))
            && r.(links := s.links, topo := s.topo) == s
  {
    forall p, q, k
      ensures Edge(Step(s, ch).topo, p, q, k) <==>
                Edge(s.topo, p, q, k) || (k == |s.topo.links| && ((p == x && q == y) || (p == y && q == x)))
    {
      ConnectAddsEdge(s.topo, x, y, latency, p, q, k);
    }
  }

  /** Disconnecting takes away edges, and nothing that is under way. */
  lemma DisconnectEffect(s: Net, ch: Choice, x: NodeId)
    requires Enabled(s, ch) && Does(ch, Disconnect(x))
    ensures var r := Step(s, ch);
            && r.topo.links == s.topo.links
            && (forall p, q, k :: Edge(r.topo, p, q, k) <==> Edge(s.topo, p, q, k) && p != x && q != x)
            && r.(topo := s.topo) == s
  {
    forall p, q, k
      ensures Edge(Step(s, ch).topo, p, q, k) <==> Edge(s.topo, p, q, k) && p != x && q != x
    {
      DisconnectRemovesEdges(s.topo, x, p, q, k);
    }
  }

  lemma SpawnEffect(s: Net, ch: Choice)
    requires Enabled(s, ch) && Does(ch, SpawnApp)
    ensures var r := Step(s, ch);
            && r.tasks == s.tasks + [AppNew] && r.ready == s.ready + [|s.tasks|]
            && r.(tasks := s.tasks, ready := s.ready) == s
  {
  }

  lemma WakeEffect(s: Net, ch: Choice, t: TaskId)
    requires Enabled(s, ch) && Does(ch, Wake(t))
    ensures Step(s, ch).ready == s.ready + [t] && Step(s, ch).(ready := s.ready) == s
  {
  }

  /** A task sleeps, blocks or finishes. */
  lemma SuspendEffect(s: Net, op: Op)
    requires Enabled(s, Act(op)) && !Instant(op)
    ensures var (r, t) := (Step(s, Act(op)), s.current.value);
            match op
            case Sleep(wake) =>
              if wake <= s.clock.now then r == s
              else
                && r.clock == Clock(s.clock.now, s.clock.events + [TimeEvent(wake, t)])
                && r.tasks == s.tasks[t := AppSleeping(wake)] && r.current == None
                && r.(clock := s.clock, tasks := s.tasks, current := s.current) == s
            case Block =>
              && r.tasks == s.tasks[t := AppBlocked] && r.current == None
              && r.(tasks := s.tasks, current := s.current) == s
            case Finish =>
              && r.tasks == s.tasks[t := Over] && r.current == None
              && r.(tasks := s.tasks, current := s.current) == s
            case _ => true
  {
  }

  // ------------------------------------------------------------------
  // The loop
  // ------------------------------------------------------------------

  lemma TakeEffect(s: Net)
    requires Reachable(s) && Enabled(s, Take)
    ensures var r := Step(s, Take);
            && r.phase == Polling && s.batch == [] && r.batch == s.ready && r.ready == []
            && r.(phase := s.phase, batch := s.batch, ready := s.ready) == s
  {
    ReachableIsInv(s);
  }

  lemma AdvanceEffect(s: Net, i: nat)
    requires Enabled(s, Advance(i))
    ensures var r := Step(s, Advance(i));
            && r.phase == Head
            && if s.clock.events == [] then r.(phase := s.phase) == s
               else
                 && IsEarliest(s.clock.events, i)
                 && r.clock == Clock(s.clock.events[i].wakeTime, RemoveAt(s.clock.events, i))
                 && r.ready == s.ready + [s.clock.events[i].task]
                 && r.(phase := s.phase, clock := s.clock, ready := s.ready) == s
  {
  }

  /** An application task that is polled goes on, unless it sleeps and its time is not
      there yet; polling a task that is over changes nothing. */
  lemma AppPollEffect(s: Net)
    requires Enabled(s, PollNext)
    ensures var (r, t, st) := (Step(s, PollNext), s.batch[0], s.tasks[s.batch[0]]);
            && ((st == AppNew || st == AppBlocked || (st.AppSleeping? && s.clock.now >= st.wake)) ==>
                  && r.tasks == s.tasks[t := AppRunning] && r.current == Some(t)
                  && r.(tasks := s.tasks, current := s.current, batch := s.batch) == s)
            && (st.AppSleeping? && s.clock.now < st.wake ==>
                  && r.clock == Clock(s.clock.now, s.clock.events + [TimeEvent(st.wake, t)])
                  && r.(clock := s.clock, batch := s.batch) == s)
            && (st == Over ==> r.(batch := s.batch) == s)
            && r.batch == s.batch[1..]
  {
  }

  // ------------------------------------------------------------------
  // Carriers
  // ------------------------------------------------------------------

  /** The first poll of a carrier over a link with latency starts to wait for it. */
  lemma CarrierStartsEffect(s: Net, id: LetterId)
    requires Reachable(s) && Enabled(s, PollNext) && s.tasks[s.batch[0]] == Latency(id, None) && LatencyOf(s, id) > 0
    ensures var (r, t, wake) := (Step(s, PollNext), s.batch[0], s.clock.now + LatencyOf(s, id));
            && r.mail == s.mail[id := s.mail[id].(begun := Some(s.clock.now))]
            && r.tasks == s.tasks[t := Latency(id, Some(wake))]
            && r.clock == Clock(s.clock.now, s.clock.events + [TimeEvent(wake, t)])
            && r.(mail := s.mail, tasks := s.tasks, clock := s.clock, batch := s.batch) == s
  {
  }

  /** When its latency is over, or there is none, a carrier puts its message behind the
      others in the inbox of the destination, wakes the loop that waits there, and ends. */
  lemma CarrierDeliversEffect(s: Net, id: LetterId, until: Option<nat>)
    requires Reachable(s) && Enabled(s, PollNext) && s.tasks[s.batch[0]] == Latency(id, until)
    requires if until.Some? then s.clock.now >= until.value else LatencyOf(s, id) == 0
    ensures var (r, m) := (Step(s, PollNext), s.mail[id]);
            && id < |s.mail| && m.dst < |s.nodes|
            && var (x, y) := (s.nodes[m.dst], r.nodes[m.dst]);
               && y.inbox == ChannelState(x.inbox.messages + [Parcel(id, m.size)], None)
               && y.arrivals == x.arrivals + [Arrival(Parcel(id, m.size), s.clock.now)]
               && y.(inbox := x.inbox, arrivals := x.arrivals) == x
               && r.nodes == s.nodes[m.dst := y]
               && r.ready == s.ready + (if x.inbox.waker.Some? then [x.inbox.waker.value] else [])
               && r.mail == s.mail[id := r.mail[id]] && r.mail[id].position == Some(|x.arrivals|)
               && r.tasks == s.tasks[s.batch[0] := Over]
               && r.(nodes := s.nodes, ready := s.ready, mail := s.mail, tasks := s.tasks, batch := s.batch) == s
  {
    ReachableIsInv(s);
    assert Addressed(s, id);
  }

  /** Polled too early, a carrier or a serving loop only registers at its time again. */
  lemma EarlyPollEffect(s: Net, wake: nat)
    requires Reachable(s) && Enabled(s, PollNext) && s.clock.now < wake
    requires var st := s.tasks[s.batch[0]];
             || (st.Latency? && st.until == Some(wake))
             || (st.Inbox? && s.nodes[st.node].mode.Serving? && s.nodes[st.node].mode.wake == wake)
    ensures var r := Step(s, PollNext);
            && r.clock == Clock(s.clock.now, s.clock.events + [TimeEvent(wake, s.batch[0])])
            && r.batch == s.batch[1..] && r.(clock := s.clock, batch := s.batch) == s
  {
  }

  // ------------------------------------------------------------------
  // Inbox loops
  // ------------------------------------------------------------------

  /** A `recv` of the loop takes the whole inbox, or waits at an empty one. */
  ghost predicate Received(x: NodeState, y: NodeState) {
    if x.inbox.messages == [] then
      y == x.(inbox := ChannelState([], Some(x.loopTask)), mode := InRecv)
    else
      y == x.(inbox := ChannelState([], x.inbox.waker), batch := x.inbox.messages, mode := Looping)
  }

  lemma LoopReceivesEffect(s: Net, n: NodeId)
    requires Enabled(s, PollNext) && s.tasks[s.batch[0]] == Inbox(n) && n < |s.nodes|
    requires s.nodes[n].mode == Fresh || s.nodes[n].mode == InRecv
    ensures var (r, x) := (Step(s, PollNext), s.nodes[n]);
            && |r.nodes| == |s.nodes| && Received(x, r.nodes[n]) && r.nodes == s.nodes[n := r.nodes[n]]
            && r.current == (if x.inbox.messages == [] then None else Some(x.loopTask))
            && r.(nodes := s.nodes, current := s.current, batch := s.batch) == s
  {
  }

  /** The end of a service: the first message leaves the batch, its link counts one message
      less, and a new task to handle it is ready. */
  ghost predicate EndsService(s: Net, r: Net, n: NodeId, start: nat) {
    && HasNext(s, n)
    && var (x, id) := (s.nodes[n], s.nodes[n].batch[0].letter);
       var m := s.mail[id];
       var (d, e) := (Side(s, m), if Side(s, m) == Forward then Backward else Forward);
       && r.nodes == s.nodes[n := x.(batch := x.batch[1..], mode := Looping,
                                     served := x.served + [Service(start, s.clock.now)])]
       && r.mail == s.mail[id := m.(handler := Some(|s.tasks|))]
       && r.tasks == s.tasks + [AppNew] && r.ready == s.ready + [|s.tasks|]
       && |r.links| == |s.links| && (forall k :: 0 <= k < |s.links| && k != m.link ==> r.links[k] == s.links[k])
       && Current(r.links[m.link], d) == Current(s.links[m.link], d) - 1
       && Current(r.links[m.link], e) == Current(s.links[m.link], e)
       && NumTotalMessages(r.links[m.link]) == NumTotalMessages(s.links[m.link])
       && r.current == Some(x.loopTask)
       && r.(nodes := s.nodes, mail := s.mail, tasks := s.tasks, ready := s.ready, links := s.links,
             current := s.current, batch := s.batch) == s
  }

  lemma CompleteEnds(s: Net, n: NodeId, start: nat)
    requires CanNotify(s, n)
    ensures EndsService(s, Complete(s, n, start), n, start)
  {
  }

  /** The poll of a serving loop at its time ends the service. */
  lemma ServicePollEffect(s: Net, n: NodeId)
    requires Enabled(s, PollNext) && s.tasks[s.batch[0]] == Inbox(n) && n < |s.nodes|
    requires s.nodes[n].mode.Serving? && s.clock.now >= s.nodes[n].mode.wake
    ensures EndsService(s, Step(s, PollNext), n, s.nodes[n].mode.start) && Step(s, PollNext).batch == s.batch[1..]
  {
    CompleteEnds(PopBatch(s), n, s.nodes[n].mode.start);
  }

  /** The running loop receives, serves a message that takes no time, or sleeps for the
      delay of the next message. */
  lemma ServeEffect(s: Net, n: NodeId)
    requires Enabled(s, ServeNext) && s.tasks[s.current.value] == Inbox(n)
    ensures var (r, x, now) := (Step(s, ServeNext), s.nodes[n], s.clock.now);
            if x.batch == [] then
              && |r.nodes| == |s.nodes| && Received(x, r.nodes[n]) && r.nodes == s.nodes[n := r.nodes[n]]
              && r.current == (if x.inbox.messages == [] then None else Some(x.loopTask))
              && r.(nodes := s.nodes, current := s.current) == s
            else
              && SizeDelay(x.batch[0].size, x.bandwidth).Some?
              && var d := SizeDelay(x.batch[0].size, x.bandwidth).value;
                 if d == 0 then EndsService(s, r, n, now) && r.batch == s.batch
                 else
                   && r.nodes == s.nodes[n := x.(mode := Serving(now, now + d))] && r.current == None
                   && r.clock == Clock(now, s.clock.events + [TimeEvent(now + d, x.loopTask)])
                   && r.(nodes := s.nodes, current := s.current, clock := s.clock) == s
  {
    if s.nodes[n].batch != [] {
      CompleteEnds(s, n, s.clock.now);
    }
  }

  // ------------------------------------------------------------------
  // Only overflow stops the network
  // ------------------------------------------------------------------

  /** The next task of a batch can always be polled, unless it starts a latency whose end
      does not fit 64 bits. */
  lemma PollFailsOnlyOnOverflow(s: Net)
    requires Reachable(s) && s.phase == Polling && s.current == None && s.batch != []
    ensures s.batch[0] < |s.tasks|
    ensures var st := s.tasks[s.batch[0]];
            && (st.Latency? ==> st.letter < |s.mail| && s.mail[st.letter].link < |s.topo.links|)
            && (Enabled(s, PollNext) <==>
                  (st.Latency? && st.until == None ==> s.clock.now + LatencyOf(s, st.letter) < 0x1_0000_0000_0000_0000))
  {
    ReachableIsInv(s);
    var t := s.batch[0];
    assert t in s.batch;
    if s.tasks[t].Latency? {
      assert Addressed(s, s.tasks[t].letter);
    } else if s.tasks[t].Inbox? && s.nodes[s.tasks[t].node].mode.Serving? {
      assert ServerOk(s.nodes[s.tasks[t].node], s.clock.now);
      NotifyNeverFails(s, s.tasks[t].node);
    }
  }

  /** The delay of the next message can be computed, and its end fits 64 bits. */
  predicate DelayFits(x: NodeState, now: nat)
    requires x.batch != []
  {
    && x.bandwidth > 0 && x.batch[0].size * MICROBITS_PER_BYTE < U64_LIMIT
    && now + x.batch[0].size * MICROBITS_PER_BYTE / x.bandwidth < 0x1_0000_0000_0000_0000
  }

  lemma BeginsIff(x: NodeState, now: nat)
    requires x.batch != []
    ensures CanBegin(x, now) <==> DelayFits(x, now)
  {
    var size := x.batch[0].size;
    assert size * 8 * 1000 * 1000 == size * MICROBITS_PER_BYTE;
  }

  lemma ServesIff(s: Net, n: NodeId)
    requires Inv(s) && n < |s.nodes| && s.current == Some(s.nodes[n].loopTask)
    ensures Enabled(s, ServeNext) <==> (s.nodes[n].batch != [] ==> CanBegin(s.nodes[n], s.clock.now))
  {
    assert Runs(s, s.nodes[n].loopTask);
    if s.nodes[n].batch != [] {
      NotifyNeverFails(s, n);
    }
  }

  /** A running inbox loop can always go on, unless the delay of its next message cannot be
      computed or its end does not fit 64 bits. */
  lemma ServeFailsOnlyOnOverflow(s: Net, n: NodeId)
    requires Reachable(s) && n < |s.nodes| && s.current == Some(s.nodes[n].loopTask)
    ensures Enabled(s, ServeNext) <==> (s.nodes[n].batch != [] ==> DelayFits(s.nodes[n], s.clock.now))
  {
    ReachableIsInv(s);
    ServesIff(s, n);
    if s.nodes[n].batch != [] {
      BeginsIff(s.nodes[n], s.clock.now);
    }
  }

  // ------------------------------------------------------------------
  // The messages are those that were sent
  // ------------------------------------------------------------------

  /** What a sender decides about a message, and when. */
  datatype Header = Header(src: NodeId, dst: NodeId, size: nat, sentAt: nat)

  function HeaderOf(m: Letter): Header {
    Header(m.src, m.dst, m.size, m.sentAt)
  }

  ghost function Headers(mail: seq<Letter>): (hs: seq<Header>)
    ensures |hs| == |mail| && forall i :: 0 <= i < |mail| ==> hs[i] == HeaderOf(mail[i])
  {
    seq(|mail|, i requires 0 <= i < |mail| => HeaderOf(mail[i]))
  }

  /** What one choice sends: a message to a peer of the sender. */
  ghost function PostedBy(s: Net, ch: Choice): seq<Header> {
    match ch
    case Act(SendMessage(x, y, size)) => PostedTo(s, x, y, size)
    case External(SendMessage(x, y, size)) => PostedTo(s, x, y, size)
    case _ => []
  }

  ghost function PostedTo(s: Net, x: NodeId, y: NodeId, size: nat): seq<Header> {
    if x < |s.topo.tables| && y in s.topo.tables[x] then [Header(x, y, size, s.clock.now)] else []
  }

  ghost function PostedIn(s: Net, chs: seq<Choice>, r: Net): seq<Header>
    requires Run(s, chs, r)
    decreases |chs|
  {
    if chs == [] then [] else PostedBy(s, chs[0]) + PostedIn(Step(s, chs[0]), chs[1..], r)
  }

  lemma StepMail(s: Net, ch: Choice)
    requires Enabled(s, ch)
    ensures Headers(Step(s, ch).mail) == Headers(s.mail) + PostedBy(s, ch)
  {
    match ch
    case External(op) => OpMail(s, op);
    case Act(op) => if Instant(op) { OpMail(s, op); }
    case PollNext => PollMail(PopBatch(s), s.batch[0]);
    case _ =>
  }

  lemma OpMail(s: Net, op: Op)
    requires Legal(s, op) && Instant(op)
    ensures Headers(Perform(s, op).mail) == Headers(s.mail) + PostedBy(s, External(op))
    ensures PostedBy(s, External(op)) == PostedBy(s, Act(op))
  {
  }

  lemma PollMail(s: Net, t: TaskId)
    requires CanPoll(s, t)
    ensures Headers(Poll(s, t).mail) == Headers(s.mail)
  {
  }

  lemma PostedJoins(s: Net, chs: seq<Choice>, r: Net, n: Net, before: seq<Header>)
    requires chs != [] && Run(s, chs, r) && n == Step(s, chs[0])
    ensures (before + PostedBy(s, chs[0])) + PostedIn(n, chs[1..], r) == before + PostedIn(s, chs, r)
  {
    var (b, c) := (PostedBy(s, chs[0]), PostedIn(n, chs[1..], r));
    assert (before + b) + c == before + (b + c);
  }

  /** On every run the messages of the network are those that were sent along it, in order,
      with their senders, destinations, sizes and times; none is made up or dropped. */
  lemma {:induction false} MailIsWhatWasSent(s: Net, chs: seq<Choice>, r: Net)
    requires Run(s, chs, r)
    ensures Headers(r.mail) == Headers(s.mail) + PostedIn(s, chs, r)
    decreases |chs|
  {
    if chs == [] {
      assert Headers(s.mail) + [] == Headers(s.mail);
    } else {
      var n := Step(s, chs[0]);
      StepMail(s, chs[0]);
      MailIsWhatWasSent(n, chs[1..], r);
      PostedJoins(s, chs, r, n, Headers(s.mail));
    }
  }

  lemma MailFromStart(chs: seq<Choice>, r: Net)
    requires Run(Empty, chs, r)
    ensures Headers(r.mail) == PostedIn(Empty, chs, r)
  {
    MailIsWhatWasSent(Empty, chs, r);
    assert Headers(Empty.mail) == [];
  }

  /** At rest every message that was sent on the run was handled at its destination. */
  lemma AllThatIsSentIsHandled(chs: seq<Choice>, r: Net, i: nat, h: Header)
    requires Run(Empty, chs, r) && AtRest(r) && i < |PostedIn(Empty, chs, r)| && h == PostedIn(Empty, chs, r)[i]
    ensures i < |r.mail| && HeaderOf(r.mail[i]) == h
    ensures exists k :: HandledAs(r, i, h.dst, k)
  {
    MailFromStart(chs, r);
    assert Headers(r.mail)[i] == HeaderOf(r.mail[i]);
    AtRestAllIsHandled(r, i);
  }
}
