/** What every reachable state of the simulated network satisfies. */
module NetworkInvariants {
  import opened Prelude
  import opened Tasks
  import opened Timing
  import opened Channels
  import opened Inboxes
  import opened Links
  import opened Topologies
  import opened Networks

  // ------------------------------------------------------------------
  // Scheduling
  // ------------------------------------------------------------------

  ghost predicate Queued(s: Net, t: TaskId) {
    t in s.batch || t in s.ready
  }

  ghost function Due(s: Net): seq<TaskId> {
    if s.phase == Head then s.ready else s.batch
  }

  /** Until when a task sleeps; a serving inbox loop sleeps until its service ends. */
  ghost function WakeOf(s: Net, t: TaskId): Option<nat>
    requires t < |s.tasks|
  {
    match s.tasks[t]
    case AppSleeping(wake) => Some(wake)
    case Latency(_, until) => until
    case Inbox(n) => if n < |s.nodes| && s.nodes[n].mode.Serving? then Some(s.nodes[n].mode.wake) else None
    case _ => None
  }

  ghost predicate InRange(s: Net) {
    && (forall t :: t in s.ready ==> t < |s.tasks|)
    && (forall t :: t in s.batch ==> t < |s.tasks|)
    && (forall e :: e in s.clock.events ==> e.task < |s.tasks|)
    && |s.topo.tables| == |s.nodes| && |s.links| == |s.topo.links| && GraphOk(s.topo)
  }

  /** Inbox loops and nodes correspond; only the loop is ever stored as a waker. */
  ghost predicate LoopsOk(s: Net) {
    && (forall n :: 0 <= n < |s.nodes| ==>
          && s.nodes[n].loopTask < |s.tasks| && s.tasks[s.nodes[n].loopTask] == Inbox(n)
          && (s.nodes[n].inbox.waker.Some? ==> s.nodes[n].inbox.waker.value == s.nodes[n].loopTask))
    && (forall t :: 0 <= t < |s.tasks| && s.tasks[t].Inbox? ==>
          s.tasks[t].node < |s.nodes| && s.nodes[s.tasks[t].node].loopTask == t)
  }

  ghost predicate OneRunner(s: Net) {
    && (s.phase == Head ==> s.batch == [] && s.current == None)
    && (s.current.Some? ==> s.current.value < |s.tasks|)
    && (forall t :: 0 <= t < |s.tasks| ==> (Runs(s, t) <==> s.current == Some(t)))
  }

  ghost predicate Runs(s: Net, t: TaskId)
    requires t < |s.tasks|
  {
    || s.tasks[t] == AppRunning
    || (s.tasks[t].Inbox? && s.tasks[t].node < |s.nodes| && s.nodes[s.tasks[t].node].mode == Looping)
  }

  ghost predicate Punctual(s: Net) {
    && NothingOverdue(s.clock)
    && (forall t :: 0 <= t < |s.tasks| ==> OnTime(s.clock, Due(s), t, WakeOf(s, t)))
  }

  /** A task that was never polled is queued, and an inbox loop is queued or holds the
      waker of an empty inbox. */
  ghost predicate Attended(s: Net, t: TaskId)
    requires t < |s.tasks|
  {
    match s.tasks[t]
    case AppNew => Queued(s, t)
    case Latency(_, until) => until == None ==> Queued(s, t)
    case Inbox(n) => n < |s.nodes| && InboxAttended(s, s.nodes[n], t)
    case _ => true
  }

  ghost predicate InboxAttended(s: Net, x: NodeState, t: TaskId) {
    match x.mode
    case Fresh => Queued(s, t)
    case InRecv => Queued(s, t) || x.inbox == ChannelState([], Some(t))
    case _ => true
  }

  ghost predicate NobodyForgotten(s: Net) {
    forall t {:trigger s.tasks[t]} :: 0 <= t < |s.tasks| ==> Attended(s, t)
  }

  // ------------------------------------------------------------------
  // Messages
  // ------------------------------------------------------------------

  ghost predicate ServersOk(s: Net) {
    forall n {:trigger s.nodes[n]} :: 0 <= n < |s.nodes| ==> ServerOk(s.nodes[n], s.clock.now)
  }

  ghost predicate Addressed(s: Net, id: LetterId)
    requires id < |s.mail|
  {
    var m := s.mail[id];
    && m.link < |s.topo.links| && Joins(s.topo.links[m.link], m.src, m.dst) && m.dst < |s.nodes|
    && m.carrier < |s.tasks| && m.sentAt <= s.clock.now
    && (m.begun.Some? ==> m.sentAt <= m.begun.value <= s.clock.now)
  }

  /** On its way, a message is with its carrier; having arrived, it has one place
      among the arrivals of its destination, and is handled when its service ends. */
  ghost predicate Located(s: Net, id: LetterId)
    requires id < |s.mail| && Addressed(s, id)
  {
    var m := s.mail[id];
    match m.position
    case None =>
      && m.handler == None
      && (m.begun.Some? ==> LatencyOf(s, id) > 0)
      && s.tasks[m.carrier] == Latency(id, if m.begun.None? then None else Some(m.begun.value + LatencyOf(s, id)))
    case Some(i) =>
      var x := s.nodes[m.dst];
      && s.tasks[m.carrier] == Over && m.begun.Some?
      && i < |x.arrivals| && x.arrivals[i] == Arrival(Parcel(id, m.size), m.begun.value + LatencyOf(s, id))
      && (m.handler.Some? <==> i < |x.served|)
  }

  ghost predicate MailOk(s: Net) {
    forall id {:trigger s.mail[id]} :: 0 <= id < |s.mail| ==> Addressed(s, id) && Located(s, id)
  }

  ghost predicate CarriersOk(s: Net) {
    forall t :: 0 <= t < |s.tasks| && s.tasks[t].Latency? ==>
      s.tasks[t].letter < |s.mail| && s.mail[s.tasks[t].letter].carrier == t
  }

  ghost predicate ArrivalsOk(s: Net) {
    forall n, i :: 0 <= n < |s.nodes| && 0 <= i < |s.nodes[n].arrivals| ==> ArrivalOk(s, n, i)
  }

  ghost predicate ArrivalOk(s: Net, n: NodeId, i: nat)
    requires n < |s.nodes| && i < |s.nodes[n].arrivals|
  {
    var id := s.nodes[n].arrivals[i].parcel.letter;
    id < |s.mail| && s.mail[id].dst == n && s.mail[id].position == Some(i)
  }

  // ------------------------------------------------------------------
  // Accounting
  // ------------------------------------------------------------------

  /** The messages of `mail` sent over link `l` in direction `d` and not yet notified. */
  ghost function InFlight(ends: seq<Ends>, mail: seq<Letter>, l: LinkId, d: Direction): nat {
    if mail == [] then 0
    else
      var m := mail[|mail| - 1];
      InFlight(ends, mail[..|mail| - 1], l, d) + (if OnQueue(ends, m, l, d) && m.handler == None then 1 else 0)
  }

  ghost predicate OnQueue(ends: seq<Ends>, m: Letter, l: LinkId, d: Direction) {
    m.link == l < |ends| && DirectionFrom(ends[l], m.src) == d
  }

  ghost function SentOver(mail: seq<Letter>, l: LinkId): nat {
    if mail == [] then 0
    else SentOver(mail[..|mail| - 1], l) + (if mail[|mail| - 1].link == l then 1 else 0)
  }

  ghost predicate LinkOk(s: Net, l: LinkId)
    requires l < |s.links|
  {
    && Accounts(s.links[l], InFlight(s.topo.links, s.mail, l, Forward), InFlight(s.topo.links, s.mail, l, Backward))
    && s.links[l].current1 < COUNT_LIMIT && s.links[l].current2 < COUNT_LIMIT
    && NumTotalMessages(s.links[l]) == SentOver(s.mail, l)
  }

  ghost predicate AccountsOk(s: Net) {
    forall l {:trigger s.links[l]} :: 0 <= l < |s.links| ==> LinkOk(s, l)
  }

  // ------------------------------------------------------------------
  // Order
  // ------------------------------------------------------------------

  ghost predicate Unpolled(s: Net, t: TaskId) {
    t < |s.tasks| && s.tasks[t].Latency? && s.tasks[t].until == None
  }

  /** No task is queued before an older carrier that was never polled. */
  ghost predicate OlderFirst(s: Net, q: seq<TaskId>) {
    forall j, t :: 0 <= j < |q| && 0 <= t < q[j] && Unpolled(s, t) ==> t in q[..j]
  }

  ghost predicate QueueOrder(s: Net) {
    OlderFirst(s, s.batch + s.ready)
  }

  ghost predicate SendOrder(s: Net) {
    && (forall a, b :: 0 <= a < b < |s.mail| ==> s.mail[a].carrier < s.mail[b].carrier)
    && (forall a, b :: 0 <= a < b < |s.mail| && s.mail[b].begun.Some? ==>
          s.mail[a].begun.Some? && s.mail[a].begun.value <= s.mail[b].begun.value)
  }

  ghost predicate SameQueue(m: Letter, n: Letter) {
    m.link == n.link && m.dst == n.dst
  }

  /** Of two messages on the same queue the one sent first arrives first, if the link
      has no latency or its latency began to pass strictly earlier. */
  ghost predicate DeliveredInOrder(s: Net) {
    forall a, b :: 0 <= a < b < |s.mail| && s.mail[b].position.Some? ==> ArrivesBefore(s, a, b)
  }

  ghost predicate ArrivesBefore(s: Net, a: LetterId, b: LetterId)
    requires a < |s.mail| && b < |s.mail| && s.mail[b].position.Some?
  {
    var (m, n) := (s.mail[a], s.mail[b]);
    SameQueue(m, n) && m.link < |s.topo.links| && m.begun.Some? && n.begun.Some?
    && (LatencyOf(s, a) == 0 || m.begun.value < n.begun.value)
    ==> m.position.Some? && m.position.value < n.position.value
  }

  /** What the schedule of tasks satisfies, whatever the messages are. */
  ghost predicate ScheduleOk(s: Net) {
    && InRange(s)
    && LoopsOk(s)
    && OneRunner(s)
    && Punctual(s)
    && NobodyForgotten(s)
    && QueueOrder(s)
  }

  ghost predicate MessagesOk(s: Net) {
    && ServersOk(s)
    && MailOk(s)
    && CarriersOk(s)
    && ArrivalsOk(s)
    && AccountsOk(s)
    && SendOrder(s)
    && DeliveredInOrder(s)
  }

  ghost predicate Inv(s: Net) {
    ScheduleOk(s) && MessagesOk(s)
  }

  // ------------------------------------------------------------------
  // Steps that touch no message
  // ------------------------------------------------------------------

  /** Carriers and arrived messages are left alone, and no carrier is added. */
  ghost predicate CarriersKept(s: Net, r: Net) {
    && |s.tasks| <= |r.tasks|
    && (forall t :: 0 <= t < |s.tasks| && (s.tasks[t].Latency? || s.tasks[t] == Over) ==> r.tasks[t] == s.tasks[t])
    && (forall t :: 0 <= t < |r.tasks| && r.tasks[t].Latency? ==> t < |s.tasks| && s.tasks[t] == r.tasks[t])
  }

  /** Nodes and links may be added; what arrived and what was served is unchanged. */
  ghost predicate MailUntouched(s: Net, r: Net) {
    && r.mail == s.mail && s.clock.now <= r.clock.now
    && |s.topo.links| <= |r.topo.links| && (forall l :: 0 <= l < |s.topo.links| ==> r.topo.links[l] == s.topo.links[l])
    && |s.nodes| <= |r.nodes|
    && (forall n :: 0 <= n < |s.nodes| ==>
          r.nodes[n].arrivals == s.nodes[n].arrivals && r.nodes[n].served == s.nodes[n].served)
    && (forall n :: |s.nodes| <= n < |r.nodes| ==> r.nodes[n].arrivals == [])
    && CarriersKept(s, r)
  }

  lemma UntouchedMail(s: Net, r: Net)
    requires MailOk(s) && CarriersOk(s) && ArrivalsOk(s) && DeliveredInOrder(s)
    requires MailUntouched(s, r)
    ensures MailOk(r) && CarriersOk(r) && ArrivalsOk(r) && DeliveredInOrder(r)
  {
    forall id | 0 <= id < |r.mail|
      ensures Addressed(r, id) && Located(r, id)
    {
      assert Addressed(s, id) && Located(s, id);
    }
    forall n, i | 0 <= n < |r.nodes| && 0 <= i < |r.nodes[n].arrivals|
      ensures ArrivalOk(r, n, i)
    {
      assert ArrivalOk(s, n, i);
    }
    forall a, b | 0 <= a < b < |r.mail| && r.mail[b].position.Some?
      ensures ArrivesBefore(r, a, b)
    {
      assert ArrivesBefore(s, a, b) && Addressed(s, a);
    }
  }

  lemma SameAccounts(s: Net, r: Net)
    requires AccountsOk(s) && r.mail == s.mail && r.links == s.links && r.topo.links == s.topo.links
    ensures AccountsOk(r)
  {
    forall l | 0 <= l < |r.links|
      ensures LinkOk(r, l)
    {
      assert LinkOk(s, l);
    }
  }

  /** A step of the schedule alone keeps everything about messages. */
  lemma QuietMessages(s: Net, r: Net)
    requires MessagesOk(s) && MailUntouched(s, r)
    requires r.nodes == s.nodes && r.links == s.links && r.topo.links == s.topo.links && r.clock.now == s.clock.now
    ensures MessagesOk(r)
  {
    UntouchedMail(s, r);
    SameAccounts(s, r);
    forall n | 0 <= n < |r.nodes|
      ensures ServerOk(r.nodes[n], r.clock.now)
    {
      assert ServerOk(s.nodes[n], s.clock.now);
    }
  }

  /** The carriers of a queue that only grew at its end are still in order, if every
      unpolled carrier was queued before. */
  lemma PushKeepsOlderFirst(s: Net, r: Net, q: seq<TaskId>, more: seq<TaskId>)
    requires OlderFirst(s, q)
    requires forall t :: 0 <= t < |r.tasks| && Unpolled(r, t) ==> Unpolled(s, t) || t == |s.tasks|
    requires forall t :: 0 <= t < |s.tasks| && Unpolled(s, t) ==> t in q
    requires forall x :: x in q + more ==> x <= |s.tasks|
    ensures OlderFirst(r, q + more)
  {
    forall j, t | 0 <= j < |q + more| && 0 <= t < (q + more)[j] && Unpolled(r, t)
      ensures t in (q + more)[..j]
    {
      assert (q + more)[j] in q + more;
      if j < |q| {
        assert (q + more)[j] == q[j] && (q + more)[..j] == q[..j];
      } else {
        assert t in q;
        assert (q + more)[..j] == q + more[..j - |q|];
      }
    }
  }

  lemma UnpolledQueued(s: Net)
    requires InRange(s) && NobodyForgotten(s)
    ensures forall t :: 0 <= t < |s.tasks| && Unpolled(s, t) ==> t in s.batch + s.ready
  {
    forall t | 0 <= t < |s.tasks| && Unpolled(s, t)
      ensures t in s.batch + s.ready
    {
      assert Attended(s, t);
    }
  }

  // The loop: taking a batch and advancing the clock ---------------------------

  /** Moving the batch, without the clock. */
  lemma LoopKeepsSchedule(s: Net, r: Net)
    requires ScheduleOk(s) && s.current == None && r.current == None && s.phase != r.phase
    requires r.tasks == s.tasks && r.nodes == s.nodes && r.topo == s.topo && r.links == s.links && r.clock == s.clock
    requires if s.phase == Head then r.batch == s.ready && r.ready == []
             else s.batch == [] == r.batch && r.ready == s.ready
    requires s.phase == Polling ==> s.clock.events == []
    ensures ScheduleOk(r)
  {
    UnpolledQueued(s);
    PushKeepsOlderFirst(s, r, s.batch + s.ready, []);
    assert s.batch + s.ready == r.batch + r.ready == (s.batch + s.ready) + [];
    forall t | 0 <= t < |r.tasks|
      ensures Attended(r, t) && OnTime(r.clock, Due(r), t, WakeOf(r, t)) && (Runs(r, t) <==> Runs(s, t))
    {
      assert Attended(s, t) && OnTime(s.clock, Due(s), t, WakeOf(s, t));
    }
  }

  lemma TakeKeepsInv(s: Net)
    requires Inv(s) && Enabled(s, Take)
    ensures Inv(Step(s, Take))
  {
    QuietMessages(s, Step(s, Take));
    LoopKeepsSchedule(s, Step(s, Take));
  }

  lemma PopKeepsMessages(s: Net, r: Net)
    requires MessagesOk(s) && MailUntouched(s, r) && s.current == None && OneRunner(s) && LoopsOk(s)
    requires r.nodes == s.nodes && r.links == s.links && r.topo.links == s.topo.links
    ensures MessagesOk(r)
  {
    UntouchedMail(s, r);
    SameAccounts(s, r);
    forall n | 0 <= n < |r.nodes|
      ensures ServerOk(r.nodes[n], r.clock.now)
    {
      assert Runs(s, s.nodes[n].loopTask) <==> s.current == Some(s.nodes[n].loopTask);
      TimeKeepsServer(s.nodes[n], s.clock.now, r.clock.now);
    }
  }

  lemma PopKeepsSchedule(s: Net, r: Net, i: nat)
    requires ScheduleOk(s) && s.current == None && s.phase == Polling && s.batch == [] && IsEarliest(s.clock.events, i)
    requires r == WakeUp(s.(phase := Head, clock := Pop(s.clock, i)), s.clock.events[i].task)
    ensures ScheduleOk(r) && s.clock.now <= r.clock.now
  {
    var e := s.clock.events[i];
    assert e in s.clock.events;
    RemoveAtMembers(s.clock.events, i);
    forall t | 0 <= t < |r.tasks|
      ensures Attended(r, t) && OnTime(r.clock, r.ready, t, WakeOf(r, t)) && (Runs(r, t) <==> Runs(s, t))
    {
      assert Attended(s, t);
      PopKeepsOnTime(s.clock, i, t, WakeOf(s, t), r.ready);
    }
    UnpolledQueued(s);
    PushKeepsOlderFirst(s, r, s.batch + s.ready, [e.task]);
    assert r.batch + r.ready == (s.batch + s.ready) + [e.task];
  }

  lemma AdvanceKeepsInv(s: Net, i: nat)
    requires Inv(s) && Enabled(s, Advance(i))
    ensures Inv(Step(s, Advance(i)))
  {
    var r := Step(s, Advance(i));
    if s.clock.events == [] {
      QuietMessages(s, r);
      LoopKeepsSchedule(s, r);
    } else {
      PopKeepsSchedule(s, r, i);
      PopKeepsMessages(s, r);
    }
  }

  // Polls ------------------------------------------------------------------------

  lemma PopMembers(s: Net)
    requires s.batch != []
    ensures forall u :: u in PopBatch(s).batch ==> u in s.batch
    ensures forall u :: u in s.batch ==> u == s.batch[0] || u in PopBatch(s).batch
  {
    assert s.batch == [s.batch[0]] + PopBatch(s).batch;
  }

  /** The head of the batch leaves the queue; it is no unpolled carrier afterwards. */
  lemma PollKeepsOlderFirst(s: Net, r: Net, more: seq<TaskId>)
    requires InRange(s) && NobodyForgotten(s) && QueueOrder(s) && s.batch != []
    requires r.batch == s.batch[1..] && r.ready == s.ready + more
    requires forall t :: 0 <= t < |r.tasks| && Unpolled(r, t) ==> Unpolled(s, t) && t != s.batch[0]
    requires |r.tasks| >= |s.tasks| && forall x :: x in more ==> x <= |s.tasks|
    ensures QueueOrder(r)
  {
    var q, q' := s.batch + s.ready, s.batch[1..] + s.ready;
    assert q == [s.batch[0]] + q';
    forall j, t | 0 <= j < |q'| && 0 <= t < q'[j] && Unpolled(r, t)
      ensures t in q'[..j]
    {
      assert q[j + 1] == q'[j] && t in q[..j + 1];
      assert q[..j + 1] == [s.batch[0]] + q'[..j];
    }
    assert OlderFirst(r, q');
    PopMembers(s);
    assert forall x :: x in q' ==> x in PopBatch(s).batch || x in s.ready;
    forall t | 0 <= t < |r.tasks| && Unpolled(r, t)
      ensures t in q'
    {
      assert Unpolled(s, t) && Attended(s, t);
    }
    PushKeepsOlderFirst(r, r, q', more);
    assert r.batch + r.ready == q' + more;
  }

  /** The frame of a poll that only concerns its own task `t`: everybody else is as
      punctual and as attended as before. */
  lemma PollKeepsOthers(s: Net, r: Net, t: TaskId, u: TaskId)
    requires ScheduleOk(s) && s.phase == Polling && s.batch != [] && t == s.batch[0] && u < |s.tasks| && u != t
    requires r.phase == s.phase && r.batch == s.batch[1..] && s.ready <= r.ready && r.clock.now == s.clock.now
    requires s.clock.events <= r.clock.events
    requires u < |r.tasks| && r.tasks[u] == s.tasks[u] && |s.nodes| <= |r.nodes|
    requires s.tasks[u].Inbox? ==> r.nodes[s.tasks[u].node] == s.nodes[s.tasks[u].node]
    ensures Attended(r, u) && OnTime(r.clock, Due(r), u, WakeOf(r, u))
  {
    PopMembers(s);
    assert Attended(s, u) && OnTime(s.clock, Due(s), u, WakeOf(s, u));
    assert forall v :: v in s.ready ==> v in r.ready;
    assert forall e :: e in s.clock.events ==> e in r.clock.events;
  }

  lemma PollAppSchedule(s: Net)
    requires ScheduleOk(s) && Enabled(s, PollNext)
    requires s.tasks[s.batch[0]].AppNew? || s.tasks[s.batch[0]].AppBlocked? || s.tasks[s.batch[0]].AppSleeping?
             || s.tasks[s.batch[0]].Over?
    ensures ScheduleOk(Step(s, PollNext))
  {
    var r, t := Step(s, PollNext), s.batch[0];
    PopMembers(s);
    PollKeepsOlderFirst(s, r, []);
    assert OnTime(s.clock, Due(s), t, WakeOf(s, t));
    forall u | 0 <= u < |r.tasks|
      ensures Attended(r, u) && OnTime(r.clock, Due(r), u, WakeOf(r, u))
    {
      if u != t { PollKeepsOthers(s, r, t, u); }
    }
    forall u | 0 <= u < |r.tasks|
      ensures Runs(r, u) <==> r.current == Some(u)
    {
      assert Runs(s, u) <==> s.current == Some(u);
    }
  }

  lemma PollAppKeepsInv(s: Net)
    requires Inv(s) && Enabled(s, PollNext)
    requires s.tasks[s.batch[0]].AppNew? || s.tasks[s.batch[0]].AppBlocked? || s.tasks[s.batch[0]].AppSleeping?
             || s.tasks[s.batch[0]].Over?
    ensures Inv(Step(s, PollNext))
  {
    PollAppSchedule(s);
    QuietMessages(s, Step(s, PollNext));
  }

  /** A carrier or a serving loop that is polled before its time goes back to sleep. */
  lemma EarlySchedule(s: Net, r: Net, wake: nat)
    requires ScheduleOk(s) && s.phase == Polling && s.current == None && s.batch != [] && s.batch[0] < |s.tasks|
    requires WakeOf(s, s.batch[0]) == Some(wake) && s.clock.now < wake
    requires s.tasks[s.batch[0]].Latency? || s.tasks[s.batch[0]].Inbox?
    requires r == PopBatch(s).(clock := s.clock.(events := s.clock.events + [TimeEvent(wake, s.batch[0])]))
    ensures ScheduleOk(r)
  {
    var t := s.batch[0];
    PopMembers(s);
    PollKeepsOlderFirst(s, r, []);
    assert Attended(s, t);
    forall u | 0 <= u < |r.tasks|
      ensures Attended(r, u) && OnTime(r.clock, Due(r), u, WakeOf(r, u)) && (Runs(r, u) <==> Runs(s, u))
    {
      if u != t { PollKeepsOthers(s, r, t, u); }
    }
  }

  lemma PollEarlyKeepsInv(s: Net, wake: nat)
    requires Inv(s) && Enabled(s, PollNext) && WakeOf(s, s.batch[0]) == Some(wake) && s.clock.now < wake
    requires s.tasks[s.batch[0]].Latency? || s.tasks[s.batch[0]].Inbox?
    ensures Inv(Step(s, PollNext))
  {
    EarlySchedule(s, Step(s, PollNext), wake);
    QuietMessages(s, Step(s, PollNext));
  }

  // The latency of a message -------------------------------------------------------

  /** What a step that handles no message and moves none to another link leaves counted. */
  lemma {:induction false} InFlightSame(ends: seq<Ends>, a: seq<Letter>, b: seq<Letter>, l: LinkId, d: Direction)
    requires |a| == |b|
    requires forall i :: 0 <= i < |a| ==> a[i].link == b[i].link && a[i].src == b[i].src && a[i].handler == b[i].handler
    ensures InFlight(ends, a, l, d) == InFlight(ends, b, l, d) && SentOver(a, l) == SentOver(b, l)
    decreases |a|
  {
    if a != [] {
      InFlightSame(ends, a[..|a| - 1], b[..|b| - 1], l, d);
    }
  }

  lemma RelabelledAccounts(s: Net, r: Net)
    requires AccountsOk(s) && |r.mail| == |s.mail| && r.links == s.links && r.topo.links == s.topo.links
    requires forall i :: 0 <= i < |s.mail| ==>
               && r.mail[i].link == s.mail[i].link && r.mail[i].src == s.mail[i].src
               && r.mail[i].handler == s.mail[i].handler
    ensures AccountsOk(r)
  {
    forall l | 0 <= l < |r.links|
      ensures LinkOk(r, l)
    {
      assert LinkOk(s, l);
      InFlightSame(s.topo.links, s.mail, r.mail, l, Forward);
      InFlightSame(s.topo.links, s.mail, r.mail, l, Backward);
    }
  }

  /** A carrier that is polled for the first time is polled after all older ones. */
  lemma OlderHaveBegun(s: Net, id: LetterId, a: LetterId)
    requires Inv(s) && Enabled(s, PollNext) && s.tasks[s.batch[0]] == Latency(id, None) && a < id < |s.mail|
    ensures s.mail[a].begun.Some? && s.mail[a].begun.value <= s.clock.now
  {
    assert Addressed(s, a) && Located(s, a);
    assert s.mail[id].carrier == s.batch[0];
    HeadIsOldest(s, s.mail[a].carrier);
  }

  lemma HeadIsOldest(s: Net, t: TaskId)
    requires QueueOrder(s) && s.batch != [] && t < s.batch[0]
    ensures !Unpolled(s, t)
  {
    var q := s.batch + s.ready;
    assert q[0] == s.batch[0] && q[..0] == [];
  }

  /** The message of an unpolled carrier. */
  lemma UnpolledLetter(s: Net, id: LetterId)
    requires Inv(s) && Enabled(s, PollNext) && s.tasks[s.batch[0]] == Latency(id, None)
    ensures id < |s.mail| && s.mail[id].carrier == s.batch[0] && s.mail[id].begun == None && s.mail[id].position == None
    ensures Addressed(s, id) && Located(s, id) && s.mail[id].handler == None
  {
    assert Addressed(s, id) && Located(s, id);
  }

  /** Starting the latency keeps messages in order of sending. */
  lemma BegunKeepsSendOrder(s: Net, r: Net, id: LetterId)
    requires Inv(s) && Enabled(s, PollNext) && s.tasks[s.batch[0]] == Latency(id, None)
    requires |r.mail| == |s.mail| && id < |s.mail|
    requires forall i :: 0 <= i < |s.mail| ==> r.mail[i].carrier == s.mail[i].carrier
    requires forall i :: 0 <= i < |s.mail| && i != id ==> r.mail[i].begun == s.mail[i].begun
    requires r.mail[id].begun == Some(s.clock.now)
    ensures SendOrder(r)
  {
    UnpolledLetter(s, id);
    forall a, b | 0 <= a < b < |r.mail| && r.mail[b].begun.Some?
      ensures r.mail[a].begun.Some? && r.mail[a].begun.value <= r.mail[b].begun.value
    {
      if b == id {
        OlderHaveBegun(s, id, a);
      }
    }
  }

  /** Only the message `id` and its carrier `t` changed, from unpolled to sleeping. */
  ghost predicate Began(s: Net, r: Net, t: TaskId, id: LetterId) {
    && id < |s.mail| && t < |s.tasks| && s.mail[id].link < |s.topo.links|
    && r.mail == s.mail[id := s.mail[id].(begun := Some(s.clock.now))]
    && r.tasks == s.tasks[t := Latency(id, Some(s.clock.now + LatencyOf(s, id)))]
    && r.nodes == s.nodes && r.links == s.links && r.topo == s.topo && r.clock.now == s.clock.now
  }

  lemma BeganMail(s: Net, r: Net, t: TaskId, id: LetterId)
    requires MailOk(s) && CarriersOk(s) && ArrivalsOk(s) && SendOrder(s) && Began(s, r, t, id)
    requires s.tasks[t] == Latency(id, None) && s.mail[id].carrier == t && LatencyOf(s, id) > 0
    ensures MailOk(r) && CarriersOk(r) && ArrivalsOk(r)
  {
    forall i | 0 <= i < |r.mail|
      ensures Addressed(r, i) && Located(r, i)
    {
      assert Addressed(s, i) && Located(s, i);
      assert i != id ==> s.mail[i].carrier != t;
    }
    forall n, i | 0 <= n < |r.nodes| && 0 <= i < |r.nodes[n].arrivals|
      ensures ArrivalOk(r, n, i)
    {
      assert ArrivalOk(s, n, i);
    }
  }

  lemma BeganDelivery(s: Net, r: Net, t: TaskId, id: LetterId)
    requires MailOk(s) && SendOrder(s) && DeliveredInOrder(s) && Began(s, r, t, id) && s.mail[id].begun == None
    ensures DeliveredInOrder(r)
  {
    forall a, b | 0 <= a < b < |r.mail| && r.mail[b].position.Some?
      ensures ArrivesBefore(r, a, b)
    {
      assert ArrivesBefore(s, a, b) && Addressed(s, b) && Located(s, b);
    }
  }

  lemma BeganSchedule(s: Net, r: Net, id: LetterId)
    requires ScheduleOk(s) && s.phase == Polling && s.current == None && s.batch != [] && Began(s, r, s.batch[0], id)
    requires s.tasks[s.batch[0]] == Latency(id, None) && LatencyOf(s, id) > 0
    requires r.phase == s.phase && r.batch == s.batch[1..] && r.ready == s.ready && r.current == None
    requires r.clock.events == s.clock.events + [TimeEvent(s.clock.now + LatencyOf(s, id), s.batch[0])]
    ensures ScheduleOk(r)
  {
    var t := s.batch[0];
    PopMembers(s);
    PollKeepsOlderFirst(s, r, []);
    forall u | 0 <= u < |r.tasks|
      ensures Attended(r, u) && OnTime(r.clock, Due(r), u, WakeOf(r, u)) && (Runs(r, u) <==> Runs(s, u))
    {
      if u != t { PollKeepsOthers(s, r, t, u); }
    }
  }

  lemma StartLatencyKeepsInv(s: Net, id: LetterId)
    requires Inv(s) && Enabled(s, PollNext) && s.tasks[s.batch[0]] == Latency(id, None)
    requires id < |s.mail| && Addressed(s, id) && LatencyOf(s, id) > 0
    ensures Inv(Step(s, PollNext))
  {
    var r, t := Step(s, PollNext), s.batch[0];
    UnpolledLetter(s, id);
    assert Began(s, r, t, id);
    BeganKeepsMessages(s, r, t, id);
    BeganSchedule(s, r, id);
  }

  lemma BeganKeepsMessages(s: Net, r: Net, t: TaskId, id: LetterId)
    requires Inv(s) && Enabled(s, PollNext) && t == s.batch[0] && s.tasks[t] == Latency(id, None) && Began(s, r, t, id)
    requires s.mail[id].carrier == t && s.mail[id].begun == None && LatencyOf(s, id) > 0
    ensures MessagesOk(r)
  {
    BeganMail(s, r, t, id);
    BeganDelivery(s, r, t, id);
    BegunKeepsSendOrder(s, r, id);
    RelabelledAccounts(s, r);
    BeganServers(s, r, t, id);
  }

  lemma BeganServers(s: Net, r: Net, t: TaskId, id: LetterId)
    requires ServersOk(s) && Began(s, r, t, id)
    ensures ServersOk(r)
  {
    forall n | 0 <= n < |r.nodes|
      ensures ServerOk(r.nodes[n], r.clock.now)
    {
      assert ServerOk(s.nodes[n], s.clock.now);
    }
  }

  // Delivery ------------------------------------------------------------------------

  /** Message `id` arrived, carried by `t`, and nothing else happened to messages. */
  ghost predicate Delivers(s: Net, r: Net, t: TaskId, id: LetterId) {
    && id < |s.mail| && t < |s.tasks| && |r.mail| == |s.mail| && Addressed(s, id)
    && var (m, m') := (s.mail[id], r.mail[id]);
       var x := s.nodes[m.dst];
       && r.mail == s.mail[id := m']
       && m' == m.(begun := m'.begun, position := Some(|x.arrivals|))
       && m'.begun.Some? && m.sentAt <= m'.begun.value && m'.begun.value + LatencyOf(s, id) == s.clock.now
       && (m'.begun == m.begun || m.begun == None)
       && r.tasks == s.tasks[t := Over]
       && r.nodes == s.nodes[m.dst := Arrive(x, Parcel(id, m.size), s.clock.now)]
       && r.links == s.links && r.topo == s.topo && r.clock == s.clock
  }

  lemma DeliversMail(s: Net, r: Net, t: TaskId, id: LetterId)
    requires MailOk(s) && CarriersOk(s) && ServersOk(s) && Delivers(s, r, t, id)
    requires s.tasks[t].Latency? && s.tasks[t].letter == id && s.mail[id].carrier == t && SendOrder(s)
    ensures MailOk(r) && CarriersOk(r)
  {
    var x := s.nodes[s.mail[id].dst];
    assert Located(s, id) && ServerOk(x, s.clock.now);
    forall i | 0 <= i < |r.mail|
      ensures Addressed(r, i) && Located(r, i)
    {
      assert Addressed(s, i) && Located(s, i);
      assert i != id ==> s.mail[i].carrier != t;
    }
  }

  lemma DeliversArrival(s: Net, r: Net, t: TaskId, id: LetterId)
    requires MailOk(s) && ArrivalsOk(s) && Delivers(s, r, t, id)
    requires s.tasks[t].Latency? && s.mail[id].carrier == t
    ensures ArrivalsOk(r)
  {
    var dst := s.mail[id].dst;
    assert Located(s, id);
    forall n, i | 0 <= n < |r.nodes| && 0 <= i < |r.nodes[n].arrivals|
      ensures ArrivalOk(r, n, i)
    {
      if n != dst || i < |s.nodes[dst].arrivals| { assert ArrivalOk(s, n, i); }
    }
  }

  lemma DeliversServers(s: Net, r: Net, t: TaskId, id: LetterId)
    requires ServersOk(s) && Delivers(s, r, t, id)
    ensures ServersOk(r)
  {
    var dst := s.mail[id].dst;
    forall n | 0 <= n < |r.nodes|
      ensures ServerOk(r.nodes[n], r.clock.now)
    {
      assert ServerOk(s.nodes[n], s.clock.now);
      if n == dst { ArriveKeepsServer(s.nodes[n], Parcel(id, s.mail[id].size), s.clock.now); }
    }
  }

  /** The message that arrives has been overtaken by no later one and overtakes none. */
  lemma DeliversInOrder(s: Net, r: Net, t: TaskId, id: LetterId)
    requires MailOk(s) && SendOrder(s) && DeliveredInOrder(s) && Punctual(s) && Delivers(s, r, t, id)
    requires s.tasks[t].Latency? && s.tasks[t].letter == id && s.mail[id].carrier == t && Located(s, id)
    ensures DeliveredInOrder(r)
  {
    forall a, b | 0 <= a < b < |r.mail| && r.mail[b].position.Some?
      ensures ArrivesBefore(r, a, b)
    {
      assert Addressed(s, a) && Located(s, a) && Addressed(s, b) && Located(s, b);
      if b == id {
        var c := s.mail[a].carrier;
        assert OnTime(s.clock, Due(s), c, WakeOf(s, c));
      } else {
        assert ArrivesBefore(s, a, b);
      }
    }
  }

  lemma BegunMonotone(s: Net, r: Net, t: TaskId, id: LetterId)
    requires SendOrder(s) && Delivers(s, r, t, id) && r.mail[id].begun == s.mail[id].begun
    ensures SendOrder(r)
  {
  }

  /** Everything the delivery step does outside the messages. */
  lemma DeliversSchedule(s: Net, r: Net, id: LetterId)
    requires ScheduleOk(s) && s.phase == Polling && s.current == None && s.batch != [] && Delivers(s, r, s.batch[0], id)
    requires s.tasks[s.batch[0]].Latency?
    requires r.phase == s.phase && r.current == None && r.batch == s.batch[1..]
    requires var waker := s.nodes[s.mail[id].dst].inbox.waker;
             r.ready == s.ready + (if waker.Some? then [waker.value] else [])
    ensures ScheduleOk(r)
  {
    var t, dst := s.batch[0], s.mail[id].dst;
    var x := s.nodes[dst];
    PopMembers(s);
    PollKeepsOlderFirst(s, r, if x.inbox.waker.Some? then [x.inbox.waker.value] else []);
    forall u | 0 <= u < |r.tasks|
      ensures Attended(r, u) && OnTime(r.clock, Due(r), u, WakeOf(r, u))
      ensures Runs(r, u) ==> Runs(s, u)
    {
      assert Runs(s, u) <==> s.current == Some(u);
      if u != t {
        if s.tasks[u] == Inbox(dst) {
          assert Attended(s, u) && OnTime(s.clock, Due(s), u, WakeOf(s, u));
        } else {
          PollKeepsOthers(s, r, t, u);
        }
      }
    }
  }

  lemma DeliverKeepsInv(s: Net, id: LetterId)
    requires Inv(s) && Enabled(s, PollNext) && s.tasks[s.batch[0]].Latency? && s.tasks[s.batch[0]].letter == id
    requires id < |s.mail| && Addressed(s, id)
    requires s.tasks[s.batch[0]].until == None ==> LatencyOf(s, id) == 0
    requires s.tasks[s.batch[0]].until.Some? ==> s.clock.now >= s.tasks[s.batch[0]].until.value
    ensures Inv(Step(s, PollNext))
  {
    var r, t := Step(s, PollNext), s.batch[0];
    assert Located(s, id) && OnTime(s.clock, Due(s), t, WakeOf(s, t));
    assert s.mail[id].carrier == t;
    if s.tasks[t].until == None {
      UnpolledLetter(s, id);
      BegunKeepsSendOrder(s, r, id);
    } else {
      BegunMonotone(s, r, t, id);
    }
    DeliversMail(s, r, t, id);
    DeliversArrival(s, r, t, id);
    DeliversServers(s, r, t, id);
    DeliversInOrder(s, r, t, id);
    RelabelledAccounts(s, r);
    DeliversSchedule(s, r, id);
  }

  // The inbox loop ----------------------------------------------------------------------

  lemma ServersExcept(s: Net, r: Net, n: NodeId)
    requires ServersOk(s) && n < |s.nodes| && |r.nodes| == |s.nodes| && r.clock.now == s.clock.now
    requires forall k :: 0 <= k < |s.nodes| && k != n ==> r.nodes[k] == s.nodes[k]
    requires ServerOk(r.nodes[n], r.clock.now)
    ensures ServersOk(r)
  {
    forall k | 0 <= k < |r.nodes|
      ensures ServerOk(r.nodes[k], r.clock.now)
    {
      assert ServerOk(s.nodes[k], s.clock.now);
    }
  }

  /** The receiving loop was polled, or runs on with an empty batch. */
  lemma ReceiveMail(s: Net, r: Net, n: NodeId)
    requires MessagesOk(s) && n < |s.nodes| && s.nodes[n].batch == [] && !s.nodes[n].mode.Serving?
    requires r.nodes == s.nodes[n := Receive(s.nodes[n])] && r.mail == s.mail && r.links == s.links && r.topo == s.topo
    requires r.tasks == s.tasks && r.clock == s.clock
    ensures MessagesOk(r)
  {
    assert ServerOk(s.nodes[n], s.clock.now);
    ReceiveKeepsServer(s.nodes[n], s.clock.now);
    ServersExcept(s, r, n);
    UntouchedMail(s, r);
    SameAccounts(s, r);
  }

  lemma PollReceiveSchedule(s: Net, r: Net, n: NodeId)
    requires ScheduleOk(s) && s.phase == Polling && s.current == None && s.batch != [] && s.batch[0] < |s.tasks|
    requires s.tasks[s.batch[0]] == Inbox(n) && n < |s.nodes|
    requires var x := Receive(s.nodes[n]);
             && (x.mode == Looping || (x.mode == InRecv && x.inbox == ChannelState([], Some(x.loopTask))))
             && r == PopBatch(s).(nodes := s.nodes[n := x],
                                  current := if x.mode == Looping then Some(x.loopTask) else None)
    ensures ScheduleOk(r)
  {
    var t := s.batch[0];
    PopMembers(s);
    PollKeepsOlderFirst(s, r, []);
    forall u | 0 <= u < |r.tasks|
      ensures Attended(r, u) && OnTime(r.clock, Due(r), u, WakeOf(r, u))
    {
      if u != t { PollKeepsOthers(s, r, t, u); }
    }
    forall u | 0 <= u < |r.tasks|
      ensures Runs(r, u) <==> r.current == Some(u)
    {
      assert Runs(s, u) <==> s.current == Some(u);
    }
  }

  lemma PollReceiveKeepsInv(s: Net)
    requires Inv(s) && Enabled(s, PollNext) && s.tasks[s.batch[0]].Inbox?
    requires var x := s.nodes[s.tasks[s.batch[0]].node]; x.mode == Fresh || x.mode == InRecv
    ensures Inv(Step(s, PollNext))
  {
    var r, n := Step(s, PollNext), s.tasks[s.batch[0]].node;
    assert ServerOk(s.nodes[n], s.clock.now);
    ReceiveKeepsServer(s.nodes[n], s.clock.now);
    ReceiveMail(s, r, n);
    PollReceiveSchedule(s, r, n);
  }

  /** The frame of a step of the running task `t`: nobody else is affected. */
  lemma RunKeepsOthers(s: Net, r: Net, t: TaskId, u: TaskId)
    requires ScheduleOk(s) && s.current == Some(t) && u < |s.tasks| && u != t
    requires r.phase == s.phase && r.batch == s.batch && s.ready <= r.ready && r.clock.now == s.clock.now
    requires s.clock.events <= r.clock.events
    requires u < |r.tasks| && r.tasks[u] == s.tasks[u] && |s.nodes| <= |r.nodes|
    requires s.tasks[u].Inbox? ==> r.nodes[s.tasks[u].node] == s.nodes[s.tasks[u].node]
    ensures Attended(r, u) && OnTime(r.clock, Due(r), u, WakeOf(r, u))
  {
    assert Attended(s, u) && OnTime(s.clock, Due(s), u, WakeOf(s, u));
    assert forall v :: v in s.ready ==> v in r.ready;
    assert forall e :: e in s.clock.events ==> e in r.clock.events;
  }

  lemma PushKeepsQueueOrder(s: Net, r: Net, more: seq<TaskId>)
    requires InRange(s) && NobodyForgotten(s) && QueueOrder(s)
    requires r.batch == s.batch && r.ready == s.ready + more
    requires forall t :: 0 <= t < |r.tasks| && Unpolled(r, t) ==> Unpolled(s, t) || t == |s.tasks|
    requires forall x :: x in more ==> x <= |s.tasks|
    ensures QueueOrder(r)
  {
    UnpolledQueued(s);
    PushKeepsOlderFirst(s, r, s.batch + s.ready, more);
    assert r.batch + r.ready == (s.batch + s.ready) + more;
  }

  lemma ServeReceiveSchedule(s: Net, r: Net, n: NodeId)
    requires ScheduleOk(s) && s.phase == Polling && n < |s.nodes| && s.current == Some(s.nodes[n].loopTask)
    requires var x := Receive(s.nodes[n]);
             && (x.mode == Looping || (x.mode == InRecv && x.inbox == ChannelState([], Some(x.loopTask))))
             && r == s.(nodes := s.nodes[n := x], current := if x.mode == Looping then Some(x.loopTask) else None)
    ensures ScheduleOk(r)
  {
    var t := s.nodes[n].loopTask;
    PushKeepsQueueOrder(s, r, []);
    forall u | 0 <= u < |r.tasks|
      ensures Attended(r, u) && OnTime(r.clock, Due(r), u, WakeOf(r, u))
    {
      if u != t { RunKeepsOthers(s, r, t, u); }
    }
    forall u | 0 <= u < |r.tasks|
      ensures Runs(r, u) <==> r.current == Some(u)
    {
      assert Runs(s, u) <==> s.current == Some(u);
    }
  }

  lemma ServeReceiveKeepsInv(s: Net, n: NodeId)
    requires Inv(s) && Enabled(s, ServeNext) && s.tasks[s.current.value] == Inbox(n) && s.nodes[n].batch == []
    ensures Inv(Step(s, ServeNext))
  {
    var r := Step(s, ServeNext);
    assert ServerOk(s.nodes[n], s.clock.now);
    ReceiveKeepsServer(s.nodes[n], s.clock.now);
    ReceiveMail(s, r, n);
    ServeReceiveSchedule(s, r, n);
  }

  /** The loop goes to sleep until the end of the service it begins. */
  ghost predicate Begins(s: Net, r: Net, n: NodeId) {
    && n < |s.nodes| && CanBegin(s.nodes[n], s.clock.now) && DelayOf(s.nodes[n], s.nodes[n].batch[0]).value > 0
    && var x := BeginService(s.nodes[n], s.clock.now);
       r == s.(nodes := s.nodes[n := x], current := None,
               clock := s.clock.(events := s.clock.events + [TimeEvent(x.mode.wake, x.loopTask)]))
  }

  lemma BeginsMail(s: Net, r: Net, n: NodeId)
    requires MessagesOk(s) && Begins(s, r, n) && s.nodes[n].mode == Looping
    ensures MessagesOk(r)
  {
    assert ServerOk(s.nodes[n], s.clock.now);
    BeginKeepsServer(s.nodes[n], s.clock.now);
    ServersExcept(s, r, n);
    UntouchedMail(s, r);
    SameAccounts(s, r);
  }

  lemma BeginsSchedule(s: Net, r: Net, n: NodeId)
    requires ScheduleOk(s) && Begins(s, r, n) && s.current == Some(s.nodes[n].loopTask) && s.phase == Polling
    ensures ScheduleOk(r)
  {
    PushKeepsQueueOrder(s, r, []);
    forall u | 0 <= u < |r.tasks|
      ensures Attended(r, u) && OnTime(r.clock, Due(r), u, WakeOf(r, u))
      ensures Runs(r, u) <==> r.current == Some(u)
    {
      assert Runs(s, u) <==> s.current == Some(u);
      if u != s.nodes[n].loopTask { RunKeepsOthers(s, r, s.nodes[n].loopTask, u); }
    }
  }

  // The end of a service ------------------------------------------------------------------

  lemma {:induction false} InFlightHandled(ends: seq<Ends>, a: seq<Letter>, b: seq<Letter>,
                                           id: LetterId, l: LinkId, d: Direction)
    requires id < |a| == |b| && a[id].handler == None && b[id].handler.Some?
    requires b[id].link == a[id].link && b[id].src == a[id].src
    requires forall i :: 0 <= i < |a| && i != id ==> b[i] == a[i]
    ensures InFlight(ends, a, l, d) == InFlight(ends, b, l, d) + (if OnQueue(ends, a[id], l, d) then 1 else 0)
    ensures SentOver(a, l) == SentOver(b, l)
    decreases |a|
  {
    var n := |a| - 1;
    if id == n {
      InFlightSame(ends, a[..n], b[..n], l, d);
    } else {
      InFlightHandled(ends, a[..n], b[..n], id, l, d);
    }
  }

  /** Message `id` at node `n` was served, its link notified and a handler spawned. */
  ghost predicate Completes(s: Net, r: Net, n: NodeId, id: LetterId, start: nat) {
    && CanNotify(s, n) && s.nodes[n].batch[0].letter == id
    && var m := s.mail[id];
       && r.mail == s.mail[id := m.(handler := Some(|s.tasks|))]
       && r.nodes == s.nodes[n := EndService(s.nodes[n], start, s.clock.now)]
       && r.links == s.links[m.link := Delivered(s.links[m.link], Side(s, m)).value]
       && r.tasks == s.tasks + [AppNew]
       && r.topo == s.topo && r.clock == s.clock
  }

  /** The first message of a batch is the next arrival, and was not handled before. */
  lemma HeadIsNextArrival(s: Net, n: NodeId)
    requires ServersOk(s) && MailOk(s) && ArrivalsOk(s) && n < |s.nodes| && s.nodes[n].batch != []
    ensures var (x, id) := (s.nodes[n], s.nodes[n].batch[0].letter);
            && |x.served| < |x.arrivals| && x.arrivals[|x.served|].parcel == x.batch[0]
            && id < |s.mail| && s.mail[id].dst == n && s.mail[id].position == Some(|x.served|)
            && s.mail[id].handler == None && Addressed(s, id) && Located(s, id)
  {
    var x := s.nodes[n];
    assert ServerOk(x, s.clock.now);
    assert x.arrivals[|x.served|].parcel == (x.batch + x.inbox.messages)[0];
    assert ArrivalOk(s, n, |x.served|);
    var id := x.batch[0].letter;
    assert Addressed(s, id) && Located(s, id);
  }

  lemma CompletesMail(s: Net, r: Net, n: NodeId, id: LetterId, start: nat)
    requires MailOk(s) && CarriersOk(s) && ArrivalsOk(s) && ServersOk(s) && Completes(s, r, n, id, start)
    ensures MailOk(r) && CarriersOk(r) && ArrivalsOk(r)
  {
    HeadIsNextArrival(s, n);
    var k := |s.nodes[n].served|;
    forall i | 0 <= i < |r.mail|
      ensures Addressed(r, i) && Located(r, i)
    {
      assert Addressed(s, i) && Located(s, i);
      if s.mail[i].dst == n && s.mail[i].position == Some(k) {
        assert s.nodes[n].arrivals[k].parcel.letter == i;
      }
    }
    forall m, i | 0 <= m < |r.nodes| && 0 <= i < |r.nodes[m].arrivals|
      ensures ArrivalOk(r, m, i)
    {
      assert ArrivalOk(s, m, i);
    }
  }

  lemma CompletesAccounts(s: Net, r: Net, n: NodeId, id: LetterId, start: nat)
    requires MailOk(s) && ArrivalsOk(s) && ServersOk(s) && AccountsOk(s) && Completes(s, r, n, id, start)
    ensures AccountsOk(r)
  {
    HeadIsNextArrival(s, n);
    var m := s.mail[id];
    forall l | 0 <= l < |r.links|
      ensures LinkOk(r, l)
    {
      assert LinkOk(s, l);
      InFlightHandled(s.topo.links, s.mail, r.mail, id, l, Forward);
      InFlightHandled(s.topo.links, s.mail, r.mail, id, l, Backward);
      if l == m.link {
        DeliveredAccounts(s.links[l], Side(s, m),
                          InFlight(s.topo.links, r.mail, l, Forward), InFlight(s.topo.links, r.mail, l, Backward));
      }
    }
  }

  lemma CompletesOrder(s: Net, r: Net, n: NodeId, id: LetterId, start: nat)
    requires MailOk(s) && SendOrder(s) && DeliveredInOrder(s) && Completes(s, r, n, id, start)
    ensures SendOrder(r) && DeliveredInOrder(r)
  {
    forall a, b | 0 <= a < b < |r.mail| && r.mail[b].position.Some?
      ensures ArrivesBefore(r, a, b)
    {
      assert ArrivesBefore(s, a, b);
    }
  }

  lemma CompletesServers(s: Net, r: Net, n: NodeId, id: LetterId, start: nat)
    requires ServersOk(s) && Completes(s, r, n, id, start) && start <= s.clock.now
    requires var x := s.nodes[n];
             || x.mode == Serving(start, s.clock.now)
             || (x.mode == Looping && start == s.clock.now && DelayOf(x, x.batch[0]) == Some(0))
    ensures ServersOk(r)
  {
    assert ServerOk(s.nodes[n], s.clock.now);
    EndKeepsServer(s.nodes[n], start, s.clock.now);
    ServersExcept(s, r, n);
  }

  /** The delivery notification never fails: the message is counted on its queue. */
  lemma NotifyNeverFails(s: Net, n: NodeId)
    requires InRange(s) && MailOk(s) && ArrivalsOk(s) && ServersOk(s) && AccountsOk(s)
    requires n < |s.nodes| && s.nodes[n].batch != []
    ensures CanNotify(s, n)
  {
    HeadIsNextArrival(s, n);
    var id := s.nodes[n].batch[0].letter;
    var m := s.mail[id];
    assert LinkOk(s, m.link);
    CountedInFlight(s.topo.links, s.mail, id);
  }

  lemma {:induction false} CountedInFlight(ends: seq<Ends>, mail: seq<Letter>, id: LetterId)
    requires id < |mail| && mail[id].handler == None && mail[id].link < |ends|
    ensures InFlight(ends, mail, mail[id].link, DirectionFrom(ends[mail[id].link], mail[id].src)) > 0
    decreases |mail|
  {
    if id < |mail| - 1 {
      CountedInFlight(ends, mail[..|mail| - 1], id);
    }
  }

  lemma PollCompleteSchedule(s: Net, r: Net, n: NodeId, id: LetterId, start: nat)
    requires ScheduleOk(s) && s.phase == Polling && s.current == None && s.batch != [] && s.batch[0] < |s.tasks|
    requires s.tasks[s.batch[0]] == Inbox(n) && n < |s.nodes|
    requires Completes(s, r, n, id, start)
    requires r.phase == s.phase && r.batch == s.batch[1..] && r.ready == s.ready + [|s.tasks|]
    requires r.current == Some(s.batch[0])
    ensures ScheduleOk(r)
  {
    var t := s.batch[0];
    PopMembers(s);
    PollKeepsOlderFirst(s, r, [|s.tasks|]);
    forall u | 0 <= u < |r.tasks|
      ensures Attended(r, u) && OnTime(r.clock, Due(r), u, WakeOf(r, u))
      ensures Runs(r, u) <==> r.current == Some(u)
    {
      if u < |s.tasks| {
        assert Runs(s, u) <==> s.current == Some(u);
        if u != t { PollKeepsOthers(s, r, t, u); }
      } else {
        assert r.ready[|s.ready|] == u;
      }
    }
  }

  lemma ServeCompleteSchedule(s: Net, r: Net, n: NodeId, id: LetterId, start: nat)
    requires ScheduleOk(s) && Completes(s, r, n, id, start) && s.current == Some(s.nodes[n].loopTask)
    requires s.phase == Polling
    requires s.nodes[n].mode == Looping
    requires r.phase == s.phase && r.batch == s.batch && r.ready == s.ready + [|s.tasks|] && r.current == s.current
    ensures ScheduleOk(r)
  {
    var t := s.nodes[n].loopTask;
    PushKeepsQueueOrder(s, r, [|s.tasks|]);
    forall u | 0 <= u < |r.tasks|
      ensures Attended(r, u) && OnTime(r.clock, Due(r), u, WakeOf(r, u))
      ensures Runs(r, u) <==> r.current == Some(u)
    {
      if u < |s.tasks| {
        assert Runs(s, u) <==> s.current == Some(u);
        if u != t { RunKeepsOthers(s, r, t, u); }
      } else {
        assert r.ready[|s.ready|] == u;
      }
    }
  }

  lemma CompletesKeepMail(s: Net, r: Net, n: NodeId, id: LetterId, start: nat)
    requires MessagesOk(s) && Completes(s, r, n, id, start) && start <= s.clock.now
    requires var x := s.nodes[n];
             || x.mode == Serving(start, s.clock.now)
             || (x.mode == Looping && start == s.clock.now && DelayOf(x, x.batch[0]) == Some(0))
    ensures MessagesOk(r)
  {
    CompletesMail(s, r, n, id, start);
    CompletesAccounts(s, r, n, id, start);
    CompletesOrder(s, r, n, id, start);
    CompletesServers(s, r, n, id, start);
  }

  lemma PollServingKeepsInv(s: Net, n: NodeId)
    requires Inv(s) && Enabled(s, PollNext) && s.tasks[s.batch[0]] == Inbox(n) && s.nodes[n].mode.Serving?
    requires s.clock.now >= s.nodes[n].mode.wake
    ensures Inv(Step(s, PollNext))
  {
    var r, x := Step(s, PollNext), s.nodes[n];
    assert OnTime(s.clock, Due(s), s.batch[0], WakeOf(s, s.batch[0]));
    assert ServerOk(x, s.clock.now);
    var id := x.batch[0].letter;
    CompletesKeepMail(s, r, n, id, x.mode.start);
    PollCompleteSchedule(s, r, n, id, x.mode.start);
  }

  lemma ServeKeepsInv(s: Net)
    requires Inv(s) && Enabled(s, ServeNext)
    ensures Inv(Step(s, ServeNext))
  {
    var n := s.tasks[s.current.value].node;
    var r, x := Step(s, ServeNext), s.nodes[n];
    if x.batch == [] {
      ServeReceiveKeepsInv(s, n);
    } else if DelayOf(x, x.batch[0]).value == 0 {
      CompletesKeepMail(s, r, n, x.batch[0].letter, s.clock.now);
      ServeCompleteSchedule(s, r, n, x.batch[0].letter, s.clock.now);
    } else {
      assert Begins(s, r, n);
      BeginsMail(s, r, n);
      BeginsSchedule(s, r, n);
    }
  }

  lemma PollCarrierKeepsInv(s: Net, id: LetterId, until: Option<nat>)
    requires Inv(s) && Enabled(s, PollNext) && s.tasks[s.batch[0]] == Latency(id, until)
    ensures Inv(Step(s, PollNext))
  {
    assert Addressed(s, id);
    match until
    case None =>
      if LatencyOf(s, id) == 0 { DeliverKeepsInv(s, id); } else { StartLatencyKeepsInv(s, id); }
    case Some(wake) =>
      if s.clock.now >= wake { DeliverKeepsInv(s, id); } else { PollEarlyKeepsInv(s, wake); }
  }

  lemma PollInboxKeepsInv(s: Net, n: NodeId)
    requires Inv(s) && Enabled(s, PollNext) && s.tasks[s.batch[0]] == Inbox(n)
    ensures Inv(Step(s, PollNext))
  {
    assert Runs(s, s.batch[0]) <==> s.current == Some(s.batch[0]);
    if !s.nodes[n].mode.Serving? {
      PollReceiveKeepsInv(s);
    } else if s.clock.now >= s.nodes[n].mode.wake {
      PollServingKeepsInv(s, n);
    } else {
      PollEarlyKeepsInv(s, s.nodes[n].mode.wake);
    }
  }

  lemma PollKeepsInv(s: Net)
    requires Inv(s) && Enabled(s, PollNext)
    ensures Inv(Step(s, PollNext))
  {
    var t := s.batch[0];
    assert Runs(s, t) <==> s.current == Some(t);
    match s.tasks[t]
    case Latency(id, until) => PollCarrierKeepsInv(s, id, until);
    case Inbox(n) => PollInboxKeepsInv(s, n);
    case _ => PollAppKeepsInv(s);
  }

  // Operations of the application -----------------------------------------------------------

  /** What an operation does to the schedule: tasks are only added, and only pushed. */
  ghost predicate Pushes(s: Net, r: Net, more: seq<TaskId>) {
    && r.phase == s.phase && r.batch == s.batch && r.ready == s.ready + more
    && r.clock == s.clock && r.current == s.current
    && (forall u :: u in more ==> u < |r.tasks|)
    && s.tasks <= r.tasks && |r.tasks| <= |s.tasks| + 1
    && (|r.tasks| > |s.tasks| ==> |s.tasks| in more && r.tasks[|s.tasks|] != AppRunning && WakeOf(r, |s.tasks|) == None)
    && |s.nodes| <= |r.nodes| && (forall n :: 0 <= n < |s.nodes| ==> r.nodes[n] == s.nodes[n])
  }

  lemma PushKeepsSchedule(s: Net, r: Net, more: seq<TaskId>)
    requires ScheduleOk(s) && Pushes(s, r, more) && LoopsOk(r) && InRange(r)
    requires forall n :: |s.nodes| <= n < |r.nodes| ==> r.nodes[n].mode == Fresh
    ensures ScheduleOk(r)
  {
    PushKeepsQueueOrder(s, r, more);
    assert forall v :: v in s.ready || v in more ==> v in r.ready;
    forall u | 0 <= u < |r.tasks|
      ensures Attended(r, u) && OnTime(r.clock, Due(r), u, WakeOf(r, u))
    {
      if u < |s.tasks| {
        assert Attended(s, u) && OnTime(s.clock, Due(s), u, WakeOf(s, u));
      }
    }
    forall u | 0 <= u < |r.tasks|
      ensures Runs(r, u) <==> r.current == Some(u)
    {
      if u < |s.tasks| { assert Runs(s, u) <==> s.current == Some(u); }
    }
  }

  lemma SpawnAppKeepsInv(s: Net)
    requires Inv(s)
    ensures Inv(Perform(s, SpawnApp))
  {
    var r := Perform(s, SpawnApp);
    QuietMessages(s, r);
    PushKeepsSchedule(s, r, [|s.tasks|]);
  }

  lemma WakeKeepsInv(s: Net, t: TaskId)
    requires Inv(s) && t < |s.tasks|
    ensures Inv(Perform(s, Wake(t)))
  {
    var r := Perform(s, Wake(t));
    QuietMessages(s, r);
    PushKeepsSchedule(s, r, [t]);
  }

  lemma NewNodeMessages(s: Net, r: Net, bandwidth: nat)
    requires MessagesOk(s) && MailUntouched(s, r) && r.nodes == s.nodes + [NewInbox(bandwidth, |s.tasks|)]
    requires r.links == s.links && r.topo.links == s.topo.links && r.clock == s.clock
    ensures MessagesOk(r)
  {
    UntouchedMail(s, r);
    SameAccounts(s, r);
    NewInboxIsOk(bandwidth, |s.tasks|, s.clock.now);
    forall n | 0 <= n < |r.nodes|
      ensures ServerOk(r.nodes[n], r.clock.now)
    {
      if n < |s.nodes| { assert ServerOk(s.nodes[n], s.clock.now); }
    }
  }

  lemma NewNodeKeepsInv(s: Net, bandwidth: nat)
    requires Inv(s)
    ensures Inv(Perform(s, NewNode(bandwidth)))
  {
    var r := Perform(s, NewNode(bandwidth));
    AddNodeKeepsGraph(s.topo);
    NewNodeMessages(s, r, bandwidth);
    NewNodeLoops(s, r, bandwidth);
    PushKeepsSchedule(s, r, [|s.tasks|]);
  }

  lemma NewNodeLoops(s: Net, r: Net, bandwidth: nat)
    requires LoopsOk(s) && r.nodes == s.nodes + [NewInbox(bandwidth, |s.tasks|)]
    requires r.tasks == s.tasks + [Inbox(|s.nodes|)]
    ensures LoopsOk(r)
  {
  }

  lemma DisconnectKeepsInv(s: Net, x: NodeId)
    requires Inv(s) && x < |s.topo.tables|
    ensures Inv(Perform(s, Disconnect(x)))
  {
    var r := Perform(s, Disconnect(x));
    DisconnectKeepsGraph(s.topo, x);
    QuietMessages(s, r);
    PushKeepsSchedule(s, r, []);
  }

  /** A new link carries nothing, and the others carry what they carried. */
  lemma {:induction false} InFlightNewLink(ends: seq<Ends>, e: Ends, mail: seq<Letter>, l: LinkId, d: Direction)
    requires forall i :: 0 <= i < |mail| ==> mail[i].link < |ends|
    ensures l < |ends| ==> InFlight(ends + [e], mail, l, d) == InFlight(ends, mail, l, d)
    ensures l >= |ends| ==> InFlight(ends + [e], mail, l, d) == 0 && SentOver(mail, l) == 0
    decreases |mail|
  {
    if mail != [] {
      assert mail[|mail| - 1].link < |ends|;
      InFlightNewLink(ends, e, mail[..|mail| - 1], l, d);
    }
  }

  lemma NewLinkMessages(s: Net, r: Net, e: Ends)
    requires MessagesOk(s) && MailUntouched(s, r) && |s.links| == |s.topo.links|
    requires r.nodes == s.nodes && r.clock == s.clock && r.links == s.links + [Quiet]
    requires r.topo.links == s.topo.links + [e]
    ensures MessagesOk(r)
  {
    UntouchedMail(s, r);
    forall i | 0 <= i < |s.mail|
      ensures s.mail[i].link < |s.topo.links|
    {
      assert Addressed(s, i);
    }
    forall l | 0 <= l < |r.links|
      ensures LinkOk(r, l)
    {
      InFlightNewLink(s.topo.links, e, s.mail, l, Forward);
      InFlightNewLink(s.topo.links, e, s.mail, l, Backward);
      if l < |s.links| { assert LinkOk(s, l); }
    }
    forall n | 0 <= n < |r.nodes|
      ensures ServerOk(r.nodes[n], r.clock.now)
    {
      assert ServerOk(s.nodes[n], s.clock.now);
    }
  }

  lemma NewLinkKeepsInv(s: Net, x: NodeId, y: NodeId, latency: nat)
    requires Inv(s) && CanConnect(s.topo, x, y)
    ensures Inv(Perform(s, NewLink(x, y, latency)))
  {
    var r := Perform(s, NewLink(x, y, latency));
    ConnectKeepsGraph(s.topo, x, y, latency);
    NewLinkMessages(s, r, Ends(x, y, latency));
    PushKeepsSchedule(s, r, []);
  }

  /** A message was added, with an unpolled carrier of its own. */
  ghost predicate Posts(s: Net, r: Net, m: Letter) {
    && r.mail == s.mail + [m] && r.tasks == s.tasks + [Latency(|s.mail|, None)]
    && m.carrier == |s.tasks| && m.begun == None && m.position == None && m.handler == None && m.sentAt == s.clock.now
    && r.nodes == s.nodes && r.topo == s.topo && r.clock == s.clock
    && m.link < |s.topo.links| && m.dst < |s.nodes| && Joins(s.topo.links[m.link], m.src, m.dst)
  }

  lemma PostMail(s: Net, r: Net, m: Letter)
    requires MailOk(s) && CarriersOk(s) && ArrivalsOk(s) && Posts(s, r, m)
    ensures MailOk(r) && CarriersOk(r) && ArrivalsOk(r)
  {
    forall id | 0 <= id < |r.mail|
      ensures Addressed(r, id) && Located(r, id)
    {
      if id < |s.mail| { assert Addressed(s, id) && Located(s, id); }
    }
    forall n, i | 0 <= n < |r.nodes| && 0 <= i < |r.nodes[n].arrivals|
      ensures ArrivalOk(r, n, i)
    {
      assert ArrivalOk(s, n, i);
    }
  }

  lemma PostOrder(s: Net, x: NodeId, y: NodeId, l: LinkId, size: nat)
    requires MailOk(s) && SendOrder(s) && DeliveredInOrder(s) && l < |s.links| == |s.topo.links|
    ensures var r := Post(s, x, y, l, size); SendOrder(r) && DeliveredInOrder(r)
  {
    var r := Post(s, x, y, l, size);
    forall a, b | 0 <= a < b < |r.mail|
      ensures r.mail[a].carrier < r.mail[b].carrier
    {
      assert Addressed(s, a);
    }
    forall a, b | 0 <= a < b < |r.mail| && r.mail[b].position.Some?
      ensures ArrivesBefore(r, a, b)
    {
      assert ArrivesBefore(s, a, b);
    }
  }

  lemma PostAccounts(s: Net, x: NodeId, y: NodeId, l: LinkId, size: nat)
    requires AccountsOk(s) && l < |s.links| == |s.topo.links|
    requires Current(s.links[l], DirectionFrom(s.topo.links[l], x)) + 1 < COUNT_LIMIT
    ensures AccountsOk(Post(s, x, y, l, size))
  {
    var r := Post(s, x, y, l, size);
    forall k | 0 <= k < |r.links|
      ensures LinkOk(r, k)
    {
      assert LinkOk(s, k);
      assert r.mail[..|r.mail| - 1] == s.mail;
      if k == l {
        SentAccounts(s.links[l], DirectionFrom(s.topo.links[l], x),
                     InFlight(s.topo.links, s.mail, l, Forward), InFlight(s.topo.links, s.mail, l, Backward));
      }
    }
  }

  lemma AppendedTaskLoops(s: Net, r: Net, st: Status)
    requires LoopsOk(s) && r.nodes == s.nodes && r.tasks == s.tasks + [st] && !st.Inbox?
    ensures LoopsOk(r)
  {
  }

  lemma PostKeepsInv(s: Net, r: Net, x: NodeId, y: NodeId, l: LinkId, size: nat)
    requires Inv(s) && l < |s.links| == |s.topo.links| && Edge(s.topo, x, y, l)
    requires Current(s.links[l], DirectionFrom(s.topo.links[l], x)) + 1 < COUNT_LIMIT
    requires r == Post(s, x, y, l, size)
    ensures Inv(r)
  {
    assert Mirrored(s.topo, x, y);
    PostKeepsMessages(s, r, x, y, l, size);
    PostSchedule(s, r, Latency(|s.mail|, None));
  }

  lemma PostSchedule(s: Net, r: Net, st: Status)
    requires ScheduleOk(s) && r.nodes == s.nodes && r.tasks == s.tasks + [st] && st.Latency? && st.until == None
    requires r.phase == s.phase && r.clock == s.clock && r.current == s.current && r.topo == s.topo
    requires |r.links| == |s.links|
    requires r.batch == s.batch && r.ready == s.ready + [|s.tasks|]
    ensures ScheduleOk(r)
  {
    AppendedTaskLoops(s, r, st);
    PushKeepsSchedule(s, r, [|s.tasks|]);
  }

  lemma PostKeepsMessages(s: Net, r: Net, x: NodeId, y: NodeId, l: LinkId, size: nat)
    requires MessagesOk(s) && l < |s.links| == |s.topo.links| && y < |s.nodes| && Joins(s.topo.links[l], x, y)
    requires Current(s.links[l], DirectionFrom(s.topo.links[l], x)) + 1 < COUNT_LIMIT
    requires r == Post(s, x, y, l, size)
    ensures MessagesOk(r)
  {
    PostMail(s, r, r.mail[|s.mail|]);
    PostOrder(s, x, y, l, size);
    PostAccounts(s, x, y, l, size);
    forall n | 0 <= n < |r.nodes|
      ensures ServerOk(r.nodes[n], r.clock.now)
    {
      assert ServerOk(s.nodes[n], s.clock.now);
    }
  }

  lemma SendKeepsInv(s: Net, x: NodeId, y: NodeId, size: nat)
    requires Inv(s) && Legal(s, SendMessage(x, y, size))
    ensures Inv(Perform(s, SendMessage(x, y, size)))
  {
    if y in s.topo.tables[x] {
      PostKeepsInv(s, Perform(s, SendMessage(x, y, size)), x, y, s.topo.tables[x][y], size);
    }
  }

  lemma PerformKeepsInv(s: Net, op: Op)
    requires Inv(s) && Legal(s, op) && Instant(op)
    ensures Inv(Perform(s, op))
  {
    match op
    case NewNode(bandwidth) => NewNodeKeepsInv(s, bandwidth);
    case NewLink(x, y, latency) => NewLinkKeepsInv(s, x, y, latency);
    case Disconnect(x) => DisconnectKeepsInv(s, x);
    case SendMessage(x, y, size) => SendKeepsInv(s, x, y, size);
    case SpawnApp => SpawnAppKeepsInv(s);
    case Wake(t) => WakeKeepsInv(s, t);
  }

  lemma SuspendSchedule(s: Net, op: Op)
    requires ScheduleOk(s) && Enabled(s, Act(op)) && !Instant(op)
    ensures ScheduleOk(Step(s, Act(op)))
  {
    var r, t := Step(s, Act(op)), s.current.value;
    PushKeepsQueueOrder(s, r, []);
    forall u | 0 <= u < |r.tasks|
      ensures Attended(r, u) && OnTime(r.clock, Due(r), u, WakeOf(r, u))
    {
      if u != t { RunKeepsOthers(s, r, t, u); }
    }
    forall u | 0 <= u < |r.tasks|
      ensures Runs(r, u) <==> r.current == Some(u)
    {
      assert Runs(s, u) <==> s.current == Some(u);
    }
  }

  lemma SuspendKeepsInv(s: Net, op: Op)
    requires Inv(s) && Enabled(s, Act(op)) && !Instant(op)
    ensures Inv(Step(s, Act(op)))
  {
    SuspendSchedule(s, op);
    QuietMessages(s, Step(s, Act(op)));
  }

  // All steps ----------------------------------------------------------------------------------

  lemma StepKeepsInv(s: Net, ch: Choice)
    requires Inv(s) && Enabled(s, ch)
    ensures Inv(Step(s, ch))
  {
    match ch
    case External(op) => PerformKeepsInv(s, op);
    case Take => TakeKeepsInv(s);
    case PollNext => PollKeepsInv(s);
    case Act(op) => if Instant(op) { PerformKeepsInv(s, op); } else { SuspendKeepsInv(s, op); }
    case ServeNext => ServeKeepsInv(s);
    case Advance(i) => AdvanceKeepsInv(s, i);
  }

  lemma {:induction false} RunKeepsInv(s: Net, chs: seq<Choice>, r: Net)
    requires Inv(s) && Run(s, chs, r)
    ensures Inv(r)
    decreases |chs|
  {
    if chs != [] {
      StepKeepsInv(s, chs[0]);
      RunKeepsInv(Step(s, chs[0]), chs[1..], r);
    }
  }

  lemma ReachableIsInv(s: Net)
    requires Reachable(s)
    ensures Inv(s)
  {
    var chs :| Run(Empty, chs, s);
    RunKeepsInv(Empty, chs, s);
  }
}
