/** Which nodes are linked (`src/network/node.rs`, lines 102-146 and 184-252, and
    `src/network/link.rs`, lines 35-89). Nodes and links are numbered. */
module Topologies {
  import opened Prelude
  import opened Links

  type NodeId = nat
  type LinkId = nat

  /** A link with its first and second node, as given when it was created. */
  datatype Ends = Ends(first: NodeId, second: NodeId, latency: nat)

  /** `tables[n]` is the map `network_links` of node `n`, from peers to links. */
  datatype Topology = Topology(tables: seq<map<NodeId, LinkId>>, links: seq<Ends>)

  const Isolated: Topology := Topology([], [])

  predicate Joins(e: Ends, x: NodeId, y: NodeId) {
    (e.first == x && e.second == y) || (e.first == y && e.second == x)
  }

  /** The search in `disconnect_all` finds node `x` among the two nodes of the link. */
  predicate IsEnd(e: Ends, x: NodeId) {
    e.first == x || e.second == x
  }

  function DirectionFrom(e: Ends, source: NodeId): Direction {
    if e.first == source then Forward else Backward
  }

  // ------------------------------------------------------------------
  // What the code does
  // ------------------------------------------------------------------

  /** `Link::new` panics for two equal nodes and for nodes that are linked already. */
  predicate CanConnect(t: Topology, x: NodeId, y: NodeId) {
    x < |t.tables| && y < |t.tables| && x != y && y !in t.tables[x] && x !in t.tables[y]
  }

  function Insert(table: map<NodeId, LinkId>, peer: NodeId, l: LinkId): (r: map<NodeId, LinkId>)
    ensures forall k :: k in r <==> k in table || k == peer
    ensures forall k :: k in r ==> r[k] == if k == peer then l else table[k]
  {
    table[peer := l]
  }

  function Erase(table: map<NodeId, LinkId>, peer: NodeId): (r: map<NodeId, LinkId>)
    ensures forall k :: k in r <==> k in table && k != peer
    ensures forall k :: k in r ==> r[k] == table[k]
  {
    table - {peer}
  }

  function Connect(t: Topology, x: NodeId, y: NodeId, latency: nat): Topology
    requires CanConnect(t, x, y)
  {
    var l := |t.links|;
    Topology(t.tables[x := Insert(t.tables[x], y, l)][y := Insert(t.tables[y], x, l)], t.links + [Ends(x, y, latency)])
  }

  function DisconnectAll(t: Topology, x: NodeId): Topology
    requires x < |t.tables|
  {
    t.(tables := seq(|t.tables|, i requires 0 <= i < |t.tables| => if i == x then map[] else Erase(t.tables[i], x)))
  }

  function AddNode(t: Topology): Topology {
    t.(tables := t.tables + [map[]])
  }

  // ------------------------------------------------------------------
  // What it means: an undirected simple graph
  // ------------------------------------------------------------------

  ghost predicate Edge(t: Topology, x: NodeId, y: NodeId, l: LinkId) {
    x < |t.tables| && y in t.tables[x] && t.tables[x][y] == l
  }

  /** Each node maps each peer to the link between them, and so does the peer. */
  ghost predicate Symmetric(t: Topology) {
    forall x, y {:trigger y in t.tables[x]} :: 0 <= x < |t.tables| && y in t.tables[x] ==> Mirrored(t, x, y)
  }

  ghost predicate Mirrored(t: Topology, x: NodeId, y: NodeId)
    requires x < |t.tables| && y in t.tables[x]
  {
    && y != x && y < |t.tables|
    && t.tables[x][y] < |t.links| && Joins(t.links[t.tables[x][y]], x, y)
    && x in t.tables[y] && t.tables[y][x] == t.tables[x][y]
  }

  /** Every link ever made joins two different nodes that exist. */
  ghost predicate LinksOk(t: Topology) {
    forall l :: 0 <= l < |t.links| ==>
      t.links[l].first != t.links[l].second && t.links[l].first < |t.tables| && t.links[l].second < |t.tables|
  }

  ghost predicate GraphOk(t: Topology) {
    Symmetric(t) && LinksOk(t)
  }

  lemma PeersAgree(t: Topology, x: NodeId, y: NodeId)
    requires GraphOk(t) && x < |t.tables| && y < |t.tables|
    ensures y in t.tables[x] <==> x in t.tables[y]
  {
    if y in t.tables[x] { assert Mirrored(t, x, y); }
    if x in t.tables[y] { assert Mirrored(t, y, x); }
  }

  /** The link a node finds under a peer really ends at that peer. */
  lemma PeerIsEnd(t: Topology, x: NodeId, y: NodeId)
    requires GraphOk(t) && x < |t.tables| && y in t.tables[x]
    ensures t.tables[x][y] < |t.links| && IsEnd(t.links[t.tables[x][y]], y) && y < |t.tables| && x in t.tables[y]
  {
    assert Mirrored(t, x, y);
  }

  lemma ConnectKeepsGraph(t: Topology, x: NodeId, y: NodeId, latency: nat)
    requires GraphOk(t) && CanConnect(t, x, y)
    ensures GraphOk(Connect(t, x, y, latency))
  {
    var r := Connect(t, x, y, latency);
    ConnectExtends(t, x, y, latency);
    forall p, q | 0 <= p < |r.tables| && q in r.tables[p]
      ensures Mirrored(r, p, q)
    {
      if q in t.tables[p] {
        OldEdgeMirrored(t, r, p, q);
      } else {
        NewEdgeMirrored(t, x, y, latency, p, q);
      }
    }
  }

  /** Nothing is forgotten. */
  ghost predicate Extends(t: Topology, r: Topology) {
    && |r.tables| == |t.tables| && t.links <= r.links
    && forall i, k :: 0 <= i < |t.tables| && k in t.tables[i] ==> Edge(r, i, k, t.tables[i][k])
  }

  lemma ConnectExtends(t: Topology, x: NodeId, y: NodeId, latency: nat)
    requires CanConnect(t, x, y)
    ensures Extends(t, Connect(t, x, y, latency))
  {
    forall i, k | 0 <= i < |t.tables| && k in t.tables[i]
      ensures Edge(Connect(t, x, y, latency), i, k, t.tables[i][k])
    {
      ConnectAddsEdge(t, x, y, latency, i, k, t.tables[i][k]);
    }
  }

  lemma OldEdgeMirrored(t: Topology, r: Topology, p: NodeId, q: NodeId)
    requires Symmetric(t) && Extends(t, r) && p < |t.tables| && q in t.tables[p]
    ensures q in r.tables[p] && Mirrored(r, p, q)
  {
    assert Mirrored(t, p, q);
    assert Edge(r, p, q, t.tables[p][q]) && Edge(r, q, p, t.tables[q][p]);
  }

  lemma NewEdgeMirrored(t: Topology, x: NodeId, y: NodeId, latency: nat, p: NodeId, q: NodeId)
    requires CanConnect(t, x, y) && p < |t.tables| && q !in t.tables[p]
    requires q in Connect(t, x, y, latency).tables[p]
    ensures Mirrored(Connect(t, x, y, latency), p, q)
  {
    assert (p == x && q == y) || (p == y && q == x);
  }

  /** Connecting adds exactly one edge, in both directions, over a new link. */
  lemma ConnectAddsEdge(t: Topology, x: NodeId, y: NodeId, latency: nat, p: NodeId, q: NodeId, l: LinkId)
    requires CanConnect(t, x, y)
    ensures Edge(Connect(t, x, y, latency), p, q, l) <==>
              Edge(t, p, q, l) || (l == |t.links| && ((p == x && q == y) || (p == y && q == x)))
    ensures var r := Connect(t, x, y, latency);
            |r.tables| == |t.tables| && r.links == t.links + [Ends(x, y, latency)]
  {
  }

  /** In a graph, connecting two nodes fails exactly when they are equal or linked. */
  lemma ConnectFailsWhenLinked(t: Topology, x: NodeId, y: NodeId)
    requires GraphOk(t) && x < |t.tables| && y < |t.tables|
    ensures CanConnect(t, x, y) <==> x != y && forall l :: !Edge(t, x, y, l)
  {
    if x != y && y in t.tables[x] {
      assert Edge(t, x, y, t.tables[x][y]);
    }
    if x != y && x in t.tables[y] {
      assert Mirrored(t, y, x);
      assert Edge(t, x, y, t.tables[y][x]);
    }
  }

  lemma DisconnectKeepsGraph(t: Topology, x: NodeId)
    requires GraphOk(t) && x < |t.tables|
    ensures GraphOk(DisconnectAll(t, x))
  {
    var r := DisconnectAll(t, x);
    forall p, q | 0 <= p < |r.tables| && q in r.tables[p]
      ensures Mirrored(r, p, q)
    {
      assert q in t.tables[p] && Mirrored(t, p, q);
    }
  }

  /** Disconnecting a node removes exactly the edges at it. */
  lemma DisconnectRemovesEdges(t: Topology, x: NodeId, p: NodeId, q: NodeId, l: LinkId)
    requires x < |t.tables|
    ensures Edge(DisconnectAll(t, x), p, q, l) <==> Edge(t, p, q, l) && p != x && q != x
    ensures |DisconnectAll(t, x).tables| == |t.tables| && DisconnectAll(t, x).links == t.links
  {
  }

  /** A new node has no edge and changes none. */
  lemma AddNodeAddsNoEdge(t: Topology, p: NodeId, q: NodeId, l: LinkId)
    ensures Edge(AddNode(t), p, q, l) <==> Edge(t, p, q, l)
    ensures |AddNode(t).tables| == |t.tables| + 1 && AddNode(t).links == t.links
  {
  }

  lemma AddNodeKeepsGraph(t: Topology)
    requires GraphOk(t)
    ensures GraphOk(AddNode(t))
  {
    var r := AddNode(t);
    forall p, q | 0 <= p < |r.tables| && q in r.tables[p]
      ensures Mirrored(r, p, q)
    {
      assert q in t.tables[p] && Mirrored(t, p, q);
    }
  }

  // ------------------------------------------------------------------
  // The mutable tables
  // ------------------------------------------------------------------

  class Tables {
    var tables: seq<map<NodeId, LinkId>>
    var links: seq<Ends>

    function Value(): Topology
      reads this
    {
      Topology(tables, links)
    }

    constructor ()
      ensures Value() == Isolated && GraphOk(Value())
    {
      tables, links := [], [];
    }

    /** `Node::new`: a node without connections. */
    method NewNode() returns (node: NodeId)
      requires GraphOk(Value())
      modifies this`tables
      ensures node == |old(tables)| && tables == old(tables) + [map[]]
      ensures Value() == AddNode(old(Value())) && GraphOk(Value())
    {
      AddNodeKeepsGraph(Value());
      node := |tables|;
      tables := tables + [map[]];
    }

    /** `get_link_to` for another node, and the queue that `Link::send` picks: since the
        table holds a link of this node, the search for its queue cannot fail. */
    method LinkTo(self: NodeId, peer: NodeId) returns (found: Option<(LinkId, Direction)>)
      requires GraphOk(Value()) && self < |tables| && peer != self
      ensures found.Some? <==> peer in tables[self]
      ensures found.Some? ==>
                && Edge(Value(), self, peer, found.value.0)
                && var e := links[found.value.0];
                   if found.value.1 == Forward then e.first == self && e.second == peer
                   else e.second == self && e.first == peer
    {
      if peer !in tables[self] {
        return None;
      }
      assert Mirrored(Value(), self, peer);
      var l := tables[self][peer];
      return Some((l, DirectionFrom(links[l], self)));
    }

    /** `add_link`: false is the panic for a connection that existed. */
    method AddLink(node: NodeId, dest: NodeId, link: LinkId) returns (ok: bool)
      requires node < |tables|
      modifies this`tables
      ensures ok == (dest !in old(tables)[node])
      ensures tables == old(tables)[node := Insert(old(tables)[node], dest, link)]
    {
      var prev := dest in tables[node];
      tables := tables[node := Insert(tables[node], dest, link)];
      return !prev;
    }

    /** `Link::new`: registers the link with both of its nodes, lower number first. */
    method NewLink(node1: NodeId, node2: NodeId, latency: nat) returns (link: Option<LinkId>)
      requires GraphOk(Value()) && node1 < |tables| && node2 < |tables|
      modifies this
      ensures link.Some? <==> old(CanConnect(Value(), node1, node2))
      ensures link.Some? ==>
                && link.value == |old(links)| && links == old(links) + [Ends(node1, node2, latency)]
                && |tables| == |old(tables)| && Edge(Value(), node1, node2, link.value) && GraphOk(Value())
                && Value() == Connect(old(Value()), node1, node2, latency)
    {
      if node1 == node2 {
        return None;
      }
      var l := |links|;
      var lower, upper := if node1 < node2 then node1 else node2, if node1 < node2 then node2 else node1;
      ghost var was := Value();
      links := links + [Ends(node1, node2, latency)];
      var ok := AddLink(lower, upper, l);
      if !ok {
        return None;
      }
      ok := AddLink(upper, lower, l);
      if !ok {
        return None;
      }
      ConnectKeepsGraph(was, node1, node2, latency);
      assert tables == Connect(was, node1, node2, latency).tables;
      return Some(l);
    }

    /** One iteration of `disconnect_all`: the peer's own entry is removed. */
    method DropPeer(link: Ends, self: NodeId, peer: NodeId)
      requires IsEnd(link, peer) && peer < |tables| && self in tables[peer]
      modifies this`tables
      ensures tables == old(tables)[peer := Erase(old(tables)[peer], self)]
    {
      var node := if link.first == peer then link.first else link.second;
      tables := tables[node := Erase(tables[node], self)];
    }

    /** The order in which a table happens to be iterated. */
    static method AnyOrder(peers: set<NodeId>) returns (order: seq<NodeId>)
      ensures Lists(order, peers)
    {
      order := [];
      ghost var done: set<NodeId> := {};
      var left := peers;
      while left != {}
        invariant left !! done && left + done == peers && Lists(order, done)
        decreases left
      {
        var p :| p in left;
        ListsNext(order, done, p);
        order, left, done := order + [p], left - {p}, done + {p};
      }
      assert done == peers;
    }

    /** The loop of `disconnect_all`, which visits the peers in any order. */
    method DropFromPeers(self: NodeId, mine: map<NodeId, LinkId>) returns (told: seq<NodeId>)
      requires PeersKnow(Value(), self, mine)
      modifies this`tables
      ensures Lists(told, mine.Keys) && tables == Visited(old(tables), self, told)
    {
      told := AnyOrder(mine.Keys);
      ghost var was := Value();
      NoneVisited(was.tables, self, told);
      for i := 0 to |told|
        invariant tables == Visited(was.tables, self, told[..i])
      {
        VisitedNext(was, self, mine, told, i);
        DropPeer(links[mine[told[i]]], self, told[i]);
      }
      assert told[..|told|] == told;
    }

    /** `disconnect_all`: each peer is an end of its link and has a connection to
        remove, so neither of the two panics is reachable. `told` lists the peers
        whose callbacks were called. */
    method Disconnect(self: NodeId) returns (told: seq<NodeId>)
      requires GraphOk(Value()) && self < |tables|
      modifies this`tables
      ensures GraphOk(Value()) && Value() == DisconnectAll(old(Value()), self)
      ensures |tables| == |old(tables)| && tables[self] == map[]
      ensures forall i :: 0 <= i < |tables| && i != self ==> tables[i] == old(tables)[i] - {self}
      ensures Lists(told, old(tables)[self].Keys)
    {
      ghost var was := Value();
      OwnPeersKnow(was, self);
      told := DropFromPeers(self, tables[self]);
      tables := tables[self := map[]];
      DisconnectResult(was, self, told, Value());
    }
  }

  /** `told` names each of `peers` exactly once. */
  ghost predicate Lists(told: seq<NodeId>, peers: set<NodeId>) {
    (forall i, j :: 0 <= i < j < |told| ==> told[i] != told[j]) && (forall p :: p in told <==> p in peers)
  }

  lemma ListsNext(told: seq<NodeId>, done: set<NodeId>, peer: NodeId)
    requires Lists(told, done) && peer !in done
    ensures Lists(told + [peer], done + {peer})
  {
  }

  /** Every peer is an end of its link and has this node in its own table. */
  ghost predicate PeersKnow(t: Topology, x: NodeId, mine: map<NodeId, LinkId>) {
    forall p :: p in mine ==> PeerKnows(t, x, p, mine[p])
  }

  ghost predicate PeerKnows(t: Topology, x: NodeId, p: NodeId, l: LinkId) {
    p < |t.tables| && x in t.tables[p] && l < |t.links| && IsEnd(t.links[l], p)
  }

  lemma OwnPeersKnow(t: Topology, x: NodeId)
    requires GraphOk(t) && x < |t.tables|
    ensures PeersKnow(t, x, t.tables[x])
  {
    forall p | p in t.tables[x]
      ensures PeerKnows(t, x, p, t.tables[x][p])
    {
      PeerIsEnd(t, x, p);
    }
  }

  /** The tables once `disconnect_all` has visited the peers in `done`. */
  ghost function Visited(tables: seq<map<NodeId, LinkId>>, x: NodeId, done: seq<NodeId>): (r: seq<map<NodeId, LinkId>>)
    ensures |r| == |tables|
    ensures forall i :: 0 <= i < |tables| ==> r[i] == (if i in done then Erase(tables[i], x) else tables[i])
  {
    seq(|tables|, i requires 0 <= i < |tables| => if i in done then Erase(tables[i], x) else tables[i])
  }

  lemma NoneVisited(tables: seq<map<NodeId, LinkId>>, x: NodeId, told: seq<NodeId>)
    ensures Visited(tables, x, told[..0]) == tables
  {
  }

  /** The next peer still has its entry, and erasing it is the next visit. */
  lemma VisitedNext(was: Topology, x: NodeId, mine: map<NodeId, LinkId>, told: seq<NodeId>, i: nat)
    requires PeersKnow(was, x, mine) && Lists(told, mine.Keys) && i < |told|
    ensures told[i] in mine && PeerKnows(was, x, told[i], mine[told[i]])
    ensures var (tables, p) := (Visited(was.tables, x, told[..i]), told[i]);
            x in tables[p] && tables[p := Erase(tables[p], x)] == Visited(was.tables, x, told[..i + 1])
  {
    var p := told[i];
    assert p in mine.Keys && PeerKnows(was, x, p, mine[p]);
    assert told[..i + 1] == told[..i] + [p];
    var a, b := Visited(was.tables, x, told[..i]), Visited(was.tables, x, told[..i + 1]);
    forall k | 0 <= k < |b|
      ensures a[p := Erase(a[p], x)][k] == b[k]
    {
    }
  }

  /** Erasing at every peer erases everywhere. */
  lemma VisitedAll(t: Topology, x: NodeId, told: seq<NodeId>)
    requires GraphOk(t) && x < |t.tables| && Lists(told, t.tables[x].Keys)
    ensures Visited(t.tables, x, told)[x := map[]] == DisconnectAll(t, x).tables
  {
    var a, b := Visited(t.tables, x, told)[x := map[]], DisconnectAll(t, x).tables;
    forall i | 0 <= i < |t.tables|
      ensures a[i] == b[i]
    {
      if i != x && i !in told {
        PeersAgree(t, i, x);
        ErasesNothing(t.tables[i], x);
      }
    }
  }

  lemma DisconnectResult(was: Topology, x: NodeId, told: seq<NodeId>, r: Topology)
    requires GraphOk(was) && x < |was.tables| && Lists(told, was.tables[x].Keys)
    requires r.links == was.links && r.tables == Visited(was.tables, x, told)[x := map[]]
    ensures r == DisconnectAll(was, x) && GraphOk(r)
  {
    VisitedAll(was, x, told);
    DisconnectKeepsGraph(was, x);
  }

  lemma ErasesNothing(table: map<NodeId, LinkId>, x: NodeId)
    requires x !in table
    ensures Erase(table, x) == table
  {
  }
}
