/** The simulated network as one transition system under the loop of `block_on`
    (`src/network/link.rs`, `src/network/node.rs`): for every message a task that lets
    the latency pass and delivers it, for every node an inbox loop that serves one
    message after the other, and application tasks that do anything at all. */
module Networks {
  import opened Prelude
  import opened Tasks
  import opened Timing
  import opened Inboxes
  import opened Links
  import opened Topologies

  type LetterId = nat

  datatype Status =
    | AppNew
    | AppRunning
    | AppSleeping(wake: nat)
    | AppBlocked
    | Latency(letter: LetterId, until: Option<nat>)
    | Inbox(node: NodeId)
    | Over

  /** A message. `carrier` is the task spawned for it by `send`; `begun` the time that
      task was first polled; `position` its place among the arrivals at its
      destination; `handler` the task spawned to handle it. */
  datatype Letter = Letter(
    src: NodeId, dst: NodeId, link: LinkId, size: nat, sentAt: nat,
    carrier: TaskId, begun: Option<nat>, position: Option<nat>, handler: Option<TaskId>)

  datatype Net = Net(
    phase: Phase, clock: Clock, ready: seq<TaskId>, batch: seq<TaskId>, current: Option<TaskId>,
    tasks: seq<Status>, nodes: seq<NodeState>, topo: Topology, links: seq<LinkState>, mail: seq<Letter>)

  /** What application code does. The first five need no running task: they are also
      done from outside, between two iterations of the loop. */
  datatype Op =
    | NewNode(bandwidth: nat)
    | NewLink(x: NodeId, y: NodeId, latency: nat)
    | Disconnect(x: NodeId)
    | SendMessage(x: NodeId, y: NodeId, size: nat)
    | SpawnApp
    | Wake(t: TaskId)
    | Sleep(wake: nat)
    | Block
    | Finish

  datatype Choice = External(op: Op) | Take | PollNext | Act(op: Op) | ServeNext | Advance(i: nat)

  const Empty: Net := Net(Head, Start, [], [], None, [], [], Isolated, [], [])

  // ------------------------------------------------------------------
  // Effects
  // ------------------------------------------------------------------

  function WakeUp(s: Net, t: TaskId): Net {
    s.(ready := s.ready + [t])
  }

  function Spawn(s: Net, st: Status): Net {
    WakeUp(s.(tasks := s.tasks + [st]), |s.tasks|)
  }

  function LatencyOf(s: Net, id: LetterId): nat
    requires id < |s.mail| && s.mail[id].link < |s.topo.links|
  {
    s.topo.links[s.mail[id].link].latency
  }

  function Side(s: Net, m: Letter): Direction
    requires m.link < |s.topo.links|
  {
    DirectionFrom(s.topo.links[m.link], m.src)
  }

  /** `Link::send`: counts the message and spawns the task that carries it. */
  function Post(s: Net, x: NodeId, y: NodeId, l: LinkId, size: nat): Net
    requires l < |s.topo.links| && l < |s.links|
  {
    var m := Letter(x, y, l, size, s.clock.now, |s.tasks|, None, None, None);
    Spawn(s.(links := s.links[l := Sent(s.links[l], Side(s, m))], mail := s.mail + [m]), Latency(|s.mail|, None))
  }

  /** `deliver_message`: into the inbox of the destination, which wakes its loop. */
  function Deliver(s: Net, t: TaskId, id: LetterId): Net
    requires t < |s.tasks| && id < |s.mail| && s.mail[id].dst < |s.nodes|
  {
    var m := s.mail[id];
    var x := s.nodes[m.dst];
    s.(tasks := s.tasks[t := Over],
       nodes := s.nodes[m.dst := Arrive(x, Parcel(id, m.size), s.clock.now)],
       mail := s.mail[id := m.(position := Some(|x.arrivals|))],
       ready := s.ready + (if x.inbox.waker.Some? then [x.inbox.waker.value] else []))
  }

  /** One `recv` of the inbox loop: it runs on with a batch, or suspends. */
  function RunReceive(s: Net, n: NodeId): Net
    requires n < |s.nodes|
  {
    var x := Receive(s.nodes[n]);
    s.(nodes := s.nodes[n := x], current := if x.mode == Looping then Some(x.loopTask) else None)
  }

  /** The message served next, its link and its direction are known. */
  predicate HasNext(s: Net, n: NodeId) {
    && n < |s.nodes| && s.nodes[n].batch != [] && s.nodes[n].batch[0].letter < |s.mail|
    && s.mail[s.nodes[n].batch[0].letter].link < |s.links|
    && s.mail[s.nodes[n].batch[0].letter].link < |s.topo.links|
  }

  /** The assertion in the delivery notification of that message holds. */
  predicate CanNotify(s: Net, n: NodeId) {
    && HasNext(s, n)
    && var m := s.mail[s.nodes[n].batch[0].letter]; Delivered(s.links[m.link], Side(s, m)).Some?
  }

  /** The end of one service: the link is notified and a handler spawned. */
  function Complete(s: Net, n: NodeId, start: nat): Net
    requires CanNotify(s, n)
  {
    var x, id := s.nodes[n], s.nodes[n].batch[0].letter;
    var m := s.mail[id];
    Spawn(s.(nodes := s.nodes[n := EndService(x, start, s.clock.now)],
             links := s.links[m.link := Delivered(s.links[m.link], Side(s, m)).value],
             mail := s.mail[id := m.(handler := Some(|s.tasks|))],
             current := Some(x.loopTask)), AppNew)
  }

  // ------------------------------------------------------------------
  // Polls
  // ------------------------------------------------------------------

  /** What would panic is not enabled: overflow of a wake time, and the assertion on
      delivery. The latter is proved never to fail. */
  predicate CanPoll(s: Net, t: TaskId) {
    t < |s.tasks| &&
    match s.tasks[t]
    case Latency(id, wake) =>
      && id < |s.mail| && s.mail[id].dst < |s.nodes| && s.mail[id].link < |s.topo.links|
      && (wake == None ==> s.clock.now + LatencyOf(s, id) < TIME_LIMIT)
    case Inbox(n) =>
      n < |s.nodes| && (s.nodes[n].mode.Serving? && s.clock.now >= s.nodes[n].mode.wake ==> CanNotify(s, n))
    case _ => true
  }

  function Poll(s: Net, t: TaskId): Net
    requires CanPoll(s, t)
  {
    match s.tasks[t]
    case AppNew => s.(tasks := s.tasks[t := AppRunning], current := Some(t))
    case AppBlocked => s.(tasks := s.tasks[t := AppRunning], current := Some(t))
    case AppSleeping(wake) =>
      var (clock, ready) := PollSleep(s.clock, wake, t);
      if ready then s.(tasks := s.tasks[t := AppRunning], current := Some(t)) else s.(clock := clock)
    case Latency(id, None) =>
      var begun := s.(mail := s.mail[id := s.mail[id].(begun := Some(s.clock.now))]);
      if LatencyOf(s, id) == 0 then Deliver(begun, t, id)
      else
        var wake := s.clock.now + LatencyOf(s, id);
        begun.(tasks := s.tasks[t := Latency(id, Some(wake))], clock := PollSleep(s.clock, wake, t).0)
    case Latency(id, Some(wake)) =>
      var (clock, ready) := PollSleep(s.clock, wake, t);
      if ready then Deliver(s, t, id) else s.(clock := clock)
    case Inbox(n) =>
      (match s.nodes[n].mode
       case Fresh => RunReceive(s, n)
       case InRecv => RunReceive(s, n)
       case Serving(start, wake) =>
         var (clock, ready) := PollSleep(s.clock, wake, t);
         if ready then Complete(s, n, start) else s.(clock := clock)
       case Looping => s)
    case AppRunning => s
    case Over => s
  }

  /** The next message of the batch, or the next batch: still the same poll. */
  predicate CanServe(s: Net, n: NodeId) {
    && n < |s.nodes| && s.nodes[n].mode == Looping
    && (s.nodes[n].batch != [] ==> CanBegin(s.nodes[n], s.clock.now) && CanNotify(s, n))
  }

  function Serve(s: Net, n: NodeId): Net
    requires CanServe(s, n)
  {
    var x := s.nodes[n];
    if x.batch == [] then RunReceive(s, n)
    else if DelayOf(x, x.batch[0]).value == 0 then Complete(s, n, s.clock.now)
    else
      var x' := BeginService(x, s.clock.now);
      s.(nodes := s.nodes[n := x'], clock := PollSleep(s.clock, x'.mode.wake, x.loopTask).0, current := None)
  }

  // ------------------------------------------------------------------
  // Operations of the application
  // ------------------------------------------------------------------

  predicate Legal(s: Net, op: Op) {
    match op
    case NewLink(x, y, _) => CanConnect(s.topo, x, y)
    case Disconnect(x) => x < |s.topo.tables|
    case SendMessage(x, y, _) =>
      && x < |s.topo.tables| && x != y
      && (y in s.topo.tables[x] ==>
            var l := s.topo.tables[x][y];
            && l < |s.links| && l < |s.topo.links|
            && Current(s.links[l], DirectionFrom(s.topo.links[l], x)) + 1 < COUNT_LIMIT)
    case Wake(t) => t < |s.tasks|
    case _ => true
  }

  predicate Instant(op: Op) {
    !op.Sleep? && !op.Block? && !op.Finish?
  }

  /** An operation that does not suspend. `send_to` without a connection does nothing. */
  function Perform(s: Net, op: Op): Net
    requires Legal(s, op) && Instant(op)
  {
    match op
    case NewNode(bandwidth) =>
      Spawn(s.(nodes := s.nodes + [NewInbox(bandwidth, |s.tasks|)], topo := AddNode(s.topo)), Inbox(|s.nodes|))
    case NewLink(x, y, latency) => s.(topo := Connect(s.topo, x, y, latency), links := s.links + [Quiet])
    case Disconnect(x) => s.(topo := DisconnectAll(s.topo, x))
    case SendMessage(x, y, size) => if y in s.topo.tables[x] then Post(s, x, y, s.topo.tables[x][y], size) else s
    case SpawnApp => Spawn(s, AppNew)
    case Wake(t) => WakeUp(s, t)
  }

  function Suspend(s: Net, t: TaskId, op: Op): Net
    requires t < |s.tasks| && !Instant(op)
  {
    match op
    case Sleep(wake) =>
      var (clock, ready) := PollSleep(s.clock, wake, t);
      if ready then s else s.(clock := clock, tasks := s.tasks[t := AppSleeping(wake)], current := None)
    case Block => s.(tasks := s.tasks[t := AppBlocked], current := None)
    case Finish => s.(tasks := s.tasks[t := Over], current := None)
  }

  // ------------------------------------------------------------------
  // Steps and runs
  // ------------------------------------------------------------------

  function PopBatch(s: Net): Net
    requires s.batch != []
  {
    s.(batch := s.batch[1..])
  }

  predicate Enabled(s: Net, ch: Choice) {
    match ch
    case External(op) => s.phase == Head && Instant(op) && Legal(s, op)
    case Take => s.phase == Head
    case PollNext => s.phase == Polling && s.current == None && s.batch != [] && CanPoll(s, s.batch[0])
    case Act(op) =>
      s.current.Some? && s.current.value < |s.tasks| && s.tasks[s.current.value] == AppRunning && Legal(s, op)
    case ServeNext =>
      && s.current.Some? && s.current.value < |s.tasks|
      && s.tasks[s.current.value].Inbox? && CanServe(s, s.tasks[s.current.value].node)
    case Advance(i) =>
      && s.phase == Polling && s.current == None && s.batch == []
      && (s.clock.events == [] || IsEarliest(s.clock.events, i))
  }

  function Step(s: Net, ch: Choice): Net
    requires Enabled(s, ch)
  {
    match ch
    case External(op) => Perform(s, op)
    case Take => s.(phase := Polling, batch := s.ready, ready := [])
    case PollNext => Poll(PopBatch(s), s.batch[0])
    case Act(op) => if Instant(op) then Perform(s, op) else Suspend(s, s.current.value, op)
    case ServeNext => Serve(s, s.tasks[s.current.value].node)
    case Advance(i) =>
      if s.clock.events == [] then s.(phase := Head)
      else WakeUp(s.(phase := Head, clock := Pop(s.clock, i)), s.clock.events[i].task)
  }

  ghost predicate Run(s: Net, chs: seq<Choice>, r: Net)
    decreases |chs|
  {
    if chs == [] then r == s
    else Enabled(s, chs[0]) && Run(Step(s, chs[0]), chs[1..], r)
  }

  ghost predicate Reachable(s: Net) {
    exists chs :: Run(Empty, chs, s)
  }

  lemma {:induction false} RunExtends(s: Net, chs: seq<Choice>, r: Net, ch: Choice)
    requires Run(s, chs, r) && Enabled(r, ch)
    ensures Run(s, chs + [ch], Step(r, ch))
    decreases |chs|
  {
    if chs == [] {
      assert [ch][1..] == [];
    } else {
      assert (chs + [ch])[0] == chs[0] && (chs + [ch])[1..] == chs[1..] + [ch];
      RunExtends(Step(s, chs[0]), chs[1..], r, ch);
    }
  }

  lemma ReachableStep(s: Net, ch: Choice)
    requires Reachable(s) && Enabled(s, ch)
    ensures Reachable(Step(s, ch))
  {
    var chs :| Run(Empty, chs, s);
    RunExtends(Empty, chs, s, ch);
  }
}
