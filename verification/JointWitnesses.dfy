/** Runs of clients and servers in which a pipe is connected twice.  Peer 0 asks for room `other` while
    its transport, on server 0, is in room `home`.  A visitor makes `other` close and open again on server
    1, which server 0 hears nothing of: in the first kind of run because `other` is not `home`, which peer
    0 came from without leaving it; in the second kind because the room was dropped untold before, and its
    new route does not list server 0.  So the next producer request has the pipe connected once more. */
module JointWitnesses {
  import opened Sfu
  import opened Signaling
  import opened Handshake
  import opened HandshakeInvariant
  import opened HandshakeCondition
  import opened JointRuns
  import opened JointScene
  import MeshRuns

  // ---------------------------------------------------------------- the peers of these runs

  predicate At(s: State, p: PeerId, r: Room, i: Node, e: Node) {
    p in s.peers && s.peers[p].room == Some(r) && s.peers[p].ingress == Some(i) && s.peers[p].egress == Some(e)
  }

  predicate In(s: State, p: PeerId, r: Room, i: Node) {
    At(s, p, r, i, 1)
  }

  predicate Waiting(s: State, p: PeerId) {
    p in s.peers && s.peers[p].lobby && !s.peers[p].participant && !s.peers[p].spectator
  }

  predicate Out(s: State, p: PeerId) {
    Waiting(s, p) && s.peers[p].room.None? && s.peers[p].ingress.None? && s.peers[p].egress.None?
  }

  predicate Three(s: State) {
    s.peers.Keys == {0, 1, 2}
  }

  /** Nobody but peer 0 is in `other`. */
  predicate Alone(s: State, other: Room) {
    forall q :: q in s.peers && q != 0 ==> s.peers[q].room != Some(other)
  }

  /** Peer 0 is in `other`, on server 0; its room is gone from the tables or lists nobody else. */
  predicate Astray(s: State, other: Room, v: PeerId) {
    && In(s, 0, other, 0) && v != 0 && Out(s, v) && Alone(s, other)
    && (other in s.rooms ==> s.rooms[other] == Lists([0], [1]))
    && (other in s.counts ==> s.counts[other] == NOTHING)
  }

  // ---------------------------------------------------------------- joins

  function JoinOf(p: PeerId, r: Room, i: Node, e: Node): Move {
    Request(MeshRuns.Join(p, r, Some(i), Some(e)))
  }

  /** A join on servers `i` and `e` leaves everything else alone. */
  ghost predicate Joined(s: State, s': State, p: PeerId, r: Room, i: Node, e: Node, lists: Lists) {
    && s'.peers.Keys == s.peers.Keys && At(s', p, r, i, e) && (Waiting(s, p) ==> Waiting(s', p))
    && (forall q :: q in s.peers && q != p ==> s'.peers[q] == s.peers[q].(told := s'.peers[q].told))
    && s'.rooms == s.rooms[r := lists] && s'.counts == s.counts
  }

  /** A join leaves the others where they are. */
  lemma Unmoved(s: State, s': State, p: PeerId, r: Room, i: Node, e: Node, q: PeerId)
    requires q in s.peers && q != p && exists lists :: Joined(s, s', p, r, i, e, lists)
    ensures forall r', i' :: In(s, q, r', i') ==> In(s', q, r', i')
    ensures (Waiting(s, q) ==> Waiting(s', q)) && (Out(s, q) ==> Out(s', q)) && s'.peers[q].room == s.peers[q].room
  {
  }

  lemma FirstJoin(s: State, p: PeerId, r: Room, i: Node, e: Node)
    requires p in s.peers && r !in s.rooms
    requires forall q :: q in s.peers && q != p && s.peers[q].room == Some(r) ==> s.peers[q].egress == Some(e)
    ensures Orders(s, JoinOf(p, r, i, e)) == [JoinAction(r, i), JoinAction(r, e)]
    ensures Joined(s, JoinRoom(s, p, r, Some(i), Some(e)), p, r, i, e, Lists([i], [e]))
  {
    assert Others(s, p, r, e) == {} && Repeated(e, 1) == [e];
    assert With([], i) == [i] && With([], e) == [e];
    assert Joining(s, p, r, Some(i), Some(e)) == [i, e];
    TwoJoins(r, i, e);
  }

  lemma NextJoin(s: State, p: PeerId, r: Room, i: Node)
    requires p in s.peers && r in s.rooms && s.rooms[r].egress == [1]
    ensures Orders(s, JoinOf(p, r, i, 1)) == [JoinAction(r, 1), JoinAction(r, i)]
    ensures Joined(s, JoinRoom(s, p, r, Some(i), Some(1)), p, r, i, 1, Lists(With(s.rooms[r].ingress, i), [1]))
  {
    assert Joining(s, p, r, Some(i), Some(1)) == [1, i];
    TwoJoins(r, 1, i);
  }

  lemma TwoJoins(r: Room, m: Node, n: Node)
    ensures EachJoin(r, [m, n]) == [JoinAction(r, m), JoinAction(r, n)]
  {
    assert [n][1..] == [] && EachJoin(r, [n]) == [JoinAction(r, n)];
    assert [m, n][1..] == [n];
  }

  lemma TellTwo(c: Scene, a: Action, b: Action)
    requires Simple(c, a) && Simple(c, b)
    ensures Simple(Tell(c, a), b)
    ensures TellAll(c, [a, b]) == Tell(Tell(c, a), b) && TellAll(c, [a]) == Tell(c, a)
  {
    assert [b][1..] == [] && TellAll(Tell(c, a), [b]) == TellAll(Tell(Tell(c, a), b), []);
    assert [a][1..] == [] && TellAll(c, [a]) == TellAll(Tell(c, a), []);
    assert [a, b][1..] == [b];
  }

  lemma JoinsFirst(j: Joint, c: Scene, p: PeerId, r: Room, i: Node, e: Node) returns (j': Joint, c': Scene)
    requires Looks(j, c) && p in j.s.peers && r !in j.s.rooms && i in {0, 2, 4} && e in {1, 3}
      && Follows(j.s, JoinOf(p, r, i, e), c.rules)
    requires forall q :: q in j.s.peers && q != p && j.s.peers[q].room == Some(r) ==> j.s.peers[q].egress == Some(e)
    ensures Looks(j', c') && c' == To(To(c, i, CreateRouterGroup(r)), e, CreateRouterGroup(r))
    ensures Joined(j.s, j'.s, p, r, i, e, Lists([i], [e]))
  {
    FirstJoin(j.s, p, r, i, e);
    TellTwo(c, JoinAction(r, i), JoinAction(r, e));
    Ordered(j, c, JoinOf(p, r, i, e));
    j', c' := After(j, JoinOf(p, r, i, e)), To(To(c, i, CreateRouterGroup(r)), e, CreateRouterGroup(r));
  }

  lemma JoinsNext(j: Joint, c: Scene, p: PeerId, r: Room, i: Node) returns (j': Joint, c': Scene)
    requires Looks(j, c) && p in j.s.peers && r in j.s.rooms && j.s.rooms[r].egress == [1]
    requires i in {0, 2} && Follows(j.s, JoinOf(p, r, i, 1), c.rules)
    ensures Looks(j', c') && c' == To(To(c, 1, CreateRouterGroup(r)), i, CreateRouterGroup(r))
    ensures Joined(j.s, j'.s, p, r, i, 1, Lists(With(j.s.rooms[r].ingress, i), [1]))
  {
    NextJoin(j.s, p, r, i);
    TellTwo(c, JoinAction(r, 1), JoinAction(r, i));
    Ordered(j, c, JoinOf(p, r, i, 1));
    j', c' := After(j, JoinOf(p, r, i, 1)), To(To(c, 1, CreateRouterGroup(r)), i, CreateRouterGroup(r));
  }

  // ---------------------------------------------------------------- a pipe from the peer's room

  /** Nothing on the links of servers 0 and 1. */
  predicate Calm(c: Scene) {
    c.a == Wire([], []) && c.b == Wire([], [])
  }

  lemma CreateOne(j: Joint, c: Scene, p: PeerId) returns (j': Joint)
    requires Looks(j, c)
    ensures Looks(j', c) && j'.s == CreatePeer(j.s, p)
  {
    Ordered(j, c, Request(MeshRuns.Create(p)));
    j' := After(j, Request(MeshRuns.Create(p)));
  }

  lemma Nowhere(j: Joint, c: Scene)
    requires Start(j) && NetLooks(j.net, c) && c.closed == {}
    ensures Looks(j, c)
  {
    assert RuledRun([j], [], c.rules) && NamingRun([j], [], {(c.home, c.other)}) && Ends([j], [], j);
  }

  function Empty(home: Room, other: Room, rules: Rules, lost: set<Room>): Scene {
    Scene(home, other, rules, lost, {}, 0, 0, Wire([], []), Wire([], []), false, false, None, false, false, [], [])
  }

  lemma Beginning(home: Room, other: Room, rules: Rules, lost: set<Room>) returns (j: Joint, c: Scene)
    ensures Looks(j, c) && c == Empty(home, other, rules, lost) && j.s == EMPTY
  {
    var i := NodeState(true, [0], [], 0, [], 0, Fresh, map[]);
    var e := i.(ingress := false);
    var net := Net([i, e, i, e, i], map[], map[], [], 0, History(map[], map[], map[], map[], [], {}));
    j := Joint(EMPTY, net, {});
    c := Empty(home, other, rules, lost);
    Nowhere(j, c);
  }

  lemma Begin(home: Room, other: Room, rules: Rules, lost: set<Room>) returns (j: Joint, c: Scene)
    ensures Looks(j, c) && c == Empty(home, other, rules, lost)
    ensures j.s == EMPTY.(peers := map[0 := NOBODY, 1 := NOBODY, 2 := NOBODY])
  {
    j, c := Beginning(home, other, rules, lost);
    j := CreateOne(j, c, 0);
    j := CreateOne(j, c, 1);
    j := CreateOne(j, c, 2);
    ThreePeers();
  }

  lemma ThreePeers()
    ensures CreatePeer(CreatePeer(CreatePeer(EMPTY, 0), 1), 2) ==
      EMPTY.(peers := map[0 := NOBODY, 1 := NOBODY, 2 := NOBODY])
  {
  }

  lemma ReadOnly(m: Msg, sent: seq<Msg>)
    ensures Read(Wire([m], []), sent) == Wire([], sent) && [] + [m] == [m]
  {
    assert [m][1..] == [] && [] + sent == sent;
  }

  lemma RoutesAgree(j: Joint, c: Scene, r: Room)
    requires Looks(j, c) && r in j.s.rooms
    ensures r in j.s.table && j.s.table[r] == j.s.rooms[r]
    ensures r in j.net.table && j.net.table[r] == Members(j.s.rooms[r])
  {
    See(j, c);
    ReachOk(j, c.rules, {(c.home, c.other)});
  }

  /** Peer `p` makes an ingress transport. */
  lemma Asks(j: Joint, c: Scene, p: PeerId, r: Room, i: Node) returns (j': Joint, c': Scene)
    requires Looks(j, c) && In(j.s, p, r, i) && r in j.s.rooms && j.s.rooms[r].egress == [1] && i in {0, 2}
    ensures Looks(j', c') && c' == To(c, i, CreateWebRTCIngress(p, r, [Some(1)])) && j'.s == CreateIngress(j.s, p)
  {
    RoutesAgree(j, c, r);
    assert Pipes(j.s, r) == [Some(1)];
    var a := ApiAction(i, CreateWebRTCIngress(p, r, [Some(1)]));
    TellTwo(c, a, a);
    Ordered(j, c, Request(MeshRuns.Ingress(p)));
    j', c' := After(j, Request(MeshRuns.Ingress(p))), Tell(c, a);
  }

  lemma PipeOffered(j: Joint, c: Scene) returns (j': Joint, c': Scene)
    requires Looks(j, c) && c.a == Wire([CreateWebRTCIngress(0, c.home, [Some(1)])], []) && c.b == Wire([], [])
    requires c.made && !c.piped && !c.offered && c.pipes == []
    ensures Looks(j', c') && j'.s == j.s && Calm(c')
    ensures c' == c.(a := c'.a, piped := true, t := c'.t, offered := true, pipes := [Record(0, 1, c.r)])
  {
    j', c' := IngressOffers(j, c);
    var m := StorePipeRelay(c.r, 1, c'.t);
    ReadOnly(c.a.down[0], [m]);
    ReadOnly(m, []);
    j', c' := Up(j', c');
    assert [m][1..] == [];
    j', c' := EgressStores(j', c');
  }

  // ---------------------------------------------------------------- a producer request

  /** A producer request for `other` gets to server 1. */
  lemma Requested(j: Joint, c: Scene) returns (j': Joint, c': Scene)
    requires Looks(j, c) && Calm(c) && c.piped && In(j.s, 0, c.other, 0)
    ensures Looks(j', c') && j'.s == j.s && c' == c.(b := Wire([CreateRelayProducer(c.other, c.r, 1)], []))
  {
    var m, request := CreateProducer(0, c.other, 1), CreateRelayProducer(c.other, c.r, 1);
    ReadOnly(m, [request]);
    ReadOnly(request, []);
    j' := ProducesThere(j, c);
    j', c' := IngressRelays(j', To(c, 0, m));
    j', c' := Up(j', c');
  }

  lemma ProducesThere(j: Joint, c: Scene) returns (j': Joint)
    requires Looks(j, c) && In(j.s, 0, c.other, 0)
    ensures Looks(j', To(c, 0, CreateProducer(0, c.other, 1))) && j'.s == j.s
  {
    var a := ApiAction(0, CreateProducer(0, c.other, 1));
    TellTwo(c, a, a);
    Ordered(j, c, Produce(0));
    j' := After(j, Produce(0));
  }

  /** Server 1 answers. */
  lemma Answered(j: Joint, c: Scene) returns (j': Joint, c': Scene, u: TransportId)
    requires Looks(j, c) && c.q.Some? && !c.relayed && c.b == Wire([CreateRelayProducer(c.other, c.r, 1)], [])
    ensures Looks(j', c') && j'.s == j.s && u == j.net.next
    ensures c' == c.(b := Wire([], [ConnectPipeRelay(c.r, c.q.value, 1, u)]), relayed := true,
                     connects := if c.offered then c.connects + [Connect(1, u, c.t)] else c.connects)
  {
    ReadOnly(CreateRelayProducer(c.other, c.r, 1), [ConnectPipeRelay(c.r, c.q.value, 1, j.net.next)]);
    j', c', u := EgressAnswers(j, c);
  }

  /** Its answer has server 0 connect the pipe. */
  lemma Answers(j: Joint, c: Scene, q: RouterId, u: TransportId) returns (j': Joint, c': Scene)
    requires Looks(j, c) && c.a == Wire([], []) && c.b == Wire([], [ConnectPipeRelay(c.r, q, 1, u)])
    requires c.piped && c.pipes == [Record(0, 1, c.r)]
    ensures Looks(j', c') && j'.s == j.s && c' == c.(b := Wire([], []), connects := c.connects + [Connect(0, c.t, u)])
  {
    var answer := ConnectPipeRelay(c.r, q, 1, u);
    ReadOnly(answer, []);
    assert [answer][1..] == [];
    j', c' := Back(j, c, q, u);
    j', c' := IngressConnects(j', c', q, u);
  }

  /** A producer request for `other` makes server 1 answer and server 0 connect its pipe, whether or not
      it was connected before. */
  lemma Produces(j: Joint, c: Scene) returns (j': Joint, c': Scene, u: TransportId)
    requires Looks(j, c) && Calm(c) && c.piped && c.q.Some? && !c.relayed && c.pipes == [Record(0, 1, c.r)]
      && In(j.s, 0, c.other, 0)
    ensures Looks(j', c') && j'.s == j.s && c' == c.(relayed := true, connects := c'.connects)
    ensures c'.connects == c.connects + (if c.offered then [Connect(1, u, c.t)] else []) + [Connect(0, c.t, u)]
    ensures forall x :: x in c.connects ==> x.remote < u
  {
    j', c' := Requested(j, c);
    RemotesBelow(j', c');
    u := j'.net.next;
    j', c' := GetsAnswer(j', c');
  }

  lemma GetsAnswer(j: Joint, c: Scene) returns (j': Joint, c': Scene)
    requires Looks(j, c) && c.a == Wire([], []) && c.b == Wire([CreateRelayProducer(c.other, c.r, 1)], [])
    requires c.piped && c.q.Some? && !c.relayed && c.pipes == [Record(0, 1, c.r)]
    ensures Looks(j', c') && j'.s == j.s && c' == c.(b := Wire([], []), relayed := true, connects := c'.connects)
    ensures c'.connects ==
      c.connects + (if c.offered then [Connect(1, j.net.next, c.t)] else []) + [Connect(0, c.t, j.net.next)]
  {
    var u;
    j', c', u := Answered(j, c);
    j', c' := Answers(j', c', c.q.value, u);
  }

  lemma RemotesBelow(j: Joint, c: Scene)
    requires Looks(j, c)
    ensures forall x :: x in c.connects ==> x.remote < j.net.next
  {
    See(j, c);
    ReachOk(j, c.rules, {(c.home, c.other)});
    forall x | x in c.connects ensures x.remote < j.net.next {
      var i :| 0 <= i < |c.connects| && c.connects[i] == x;
      assert ConnectOk(j.net, j.net.h.connects[i]);
    }
  }

  // ---------------------------------------------------------------- the room closes and opens again

  /** What lists the visitor finds or makes. */
  function Visited(s: State, other: Room): Lists {
    Lists(if other in s.rooms then [0, 2] else [2], [1])
  }

  /** Server 0 has nothing of `other`, or is not listed for it. */
  predicate Unreached(s: State, c: Scene) {
    c.home != c.other || c.other !in s.rooms
  }

  lemma HeardBy1(c: Scene, m: Msg)
    requires Calm(c)
    ensures var c1 := To(c, 1, m); c1.b.down == [m] && c1.(b := Read(c1.b, [])) == c
    ensures To(To(c, 1, m), 2, m) == To(c, 1, m) && To(To(c, 2, m), 1, m) == To(c, 1, m)
  {
    ReadOnly(m, []);
  }

  lemma FindsOther(j: Joint, c: Scene, v: PeerId) returns (j': Joint)
    requires Looks(j, c) && Calm(c) && Astray(j.s, c.other, v) && c.other in j.s.rooms
    ensures Looks(j', To(c, 1, CreateRouterGroup(c.other)))
    ensures Joined(j.s, j'.s, v, c.other, 2, 1, Lists([0, 2], [1]))
  {
    var c';
    assert With([0], 2) == [0, 2];
    HeardBy1(c, CreateRouterGroup(c.other));
    j', c' := JoinsNext(j, c, v, c.other, 2);
  }

  lemma MakesOther(j: Joint, c: Scene, v: PeerId) returns (j': Joint)
    requires Looks(j, c) && Calm(c) && Astray(j.s, c.other, v) && c.other !in j.s.rooms
    ensures Looks(j', To(c, 1, CreateRouterGroup(c.other)))
    ensures Joined(j.s, j'.s, v, c.other, 2, 1, Lists([2], [1]))
  {
    var c';
    HeardBy1(c, CreateRouterGroup(c.other));
    j', c' := JoinsFirst(j, c, v, c.other, 2, 1);
  }

  /** Visitor `v` comes to `other` on server 2; server 1 knows the room already. */
  lemma ComesBy(j: Joint, c: Scene, v: PeerId) returns (j': Joint)
    requires Looks(j, c) && Calm(c) && c.q.Some? && Astray(j.s, c.other, v)
    ensures Looks(j', c) && Joined(j.s, j'.s, v, c.other, 2, 1, Visited(j.s, c.other))
  {
    if c.other in j.s.rooms {
      j' := FindsOther(j, c, v);
    } else {
      j' := MakesOther(j, c, v);
    }
    j' := IdlesThere(j', c);
  }

  lemma IdlesThere(j: Joint, c: Scene) returns (j': Joint)
    requires Looks(j, To(c, 1, CreateRouterGroup(c.other))) && Calm(c) && c.q.Some?
    ensures j'.s == j.s && Looks(j', c)
  {
    var c';
    HeardBy1(c, CreateRouterGroup(c.other));
    j', c' := EgressIdles(j, To(c, 1, CreateRouterGroup(c.other)));
  }

  lemma CountOne(j: Joint, c: Scene, p: PeerId, r: Room) returns (j': Joint)
    requires Looks(j, c)
    ensures Looks(j', c) && j'.s == GetPeerCount(j.s, p, [r])
  {
    var count := Request(MeshRuns.Count(p, [r]));
    Ordered(j, c, count);
    j' := After(j, count);
  }

  /** The counter of `other` is at zero and the visitor was not counted. */
  predicate Visits(s: State, other: Room, v: PeerId, lists: Lists) {
    && In(s, 0, other, 0) && v != 0 && In(s, v, other, 2) && Waiting(s, v)
    && (forall q :: q in s.peers && q != 0 && q != v ==> s.peers[q].room != Some(other))
    && other in s.rooms && s.rooms[other] == lists && other in s.counts && s.counts[other] == NOTHING
  }

  lemma VisitedThen(s: State, s': State, other: Room, v: PeerId)
    requires Astray(s, other, v) && Joined(s, s', v, other, 2, 1, Visited(s, other))
    ensures Visits(GetPeerCount(s', v, [other]), other, v, Visited(s, other))
  {
    assert other in [other];
  }

  /** The visitor comes and asks how many are there. */
  lemma Arrives(j: Joint, c: Scene, v: PeerId) returns (j': Joint)
    requires Looks(j, c) && Calm(c) && c.q.Some? && Astray(j.s, c.other, v)
    ensures Looks(j', c) && Visits(j'.s, c.other, v, Visited(j.s, c.other))
  {
    j' := ComesBy(j, c, v);
    VisitedThen(j.s, j'.s, c.other, v);
    j' := CountOne(j', c, v, c.other);
  }

  lemma LastGoodbye(s: State, other: Room, v: PeerId, lists: Lists)
    requires Visits(s, other, v, lists) && lists.egress == [1]
    ensures var goodbyes := [ApiAction(2, DisconnectTransport(v)), ApiAction(1, DisconnectTransport(v))];
      Orders(s, Request(MeshRuns.Leave(v, other))) == goodbyes + [CloseAction(other)]
    ensures var s' := LeaveRoom(s, v, other);
      In(s', 0, other, 0) && Out(s', v) && Alone(s', other) && other !in s'.rooms && other !in s'.counts
  {
    assert Goodbyes([1], v) == [ApiAction(1, DisconnectTransport(v))] by {
      assert [1][1..] == [];
    }
  }

  /** Whoever of servers 0 and 1 the route lists is told. */
  function Destroying(c: Scene, to: set<Node>): Scene {
    var c1 := if 0 in to then To(c, 0, DestroyRouterGroup(c.other)) else c;
    if 1 in to then To(c1, 1, DestroyRouterGroup(c.other)) else c1
  }

  predicate Hearing(nd: NodeState, nd': NodeState, m: Msg) {
    nd' == nd || nd' == nd.(down := nd.down + [m])
  }

  lemma SomeHear(net: Net, net': Net, c: Scene, m: Msg)
    requires NetLooks(net, c) && |net'.nodes| == 5 && net'.pipes == net.pipes && net'.h == net.h
    requires forall n :: 0 <= n < 5 ==> Hearing(net.nodes[n], net'.nodes[n], m)
    ensures var a := if net'.nodes[0] == net.nodes[0] then c.a else c.a.(down := c.a.down + [m]);
      var b := if net'.nodes[1] == net.nodes[1] then c.b else c.b.(down := c.b.down + [m]);
      NetLooks(net', c.(a := a, b := b))
  {
    LinkSent(net.nodes[0], c.a, m);
    LinkSent(net.nodes[1], c.b, m);
    assert Hearing(net.nodes[0], net'.nodes[0], m) && Hearing(net.nodes[1], net'.nodes[1], m);
    assert Hearing(net.nodes[2], net'.nodes[2], m) && Hearing(net.nodes[3], net'.nodes[3], m);
    assert Hearing(net.nodes[4], net'.nodes[4], m);
  }

  lemma CloseTold(net: Net, c: Scene)
    requires NetLooks(net, c) && c.other in net.table
    ensures Shows({CloseRoom(net, c.other)}, Destroying(c, net.table[c.other]))
  {
    var net', m := CloseRoom(net, c.other), DestroyRouterGroup(c.other);
    forall n | 0 <= n < 5 ensures Hearing(net.nodes[n], net'.nodes[n], m) {
    }
    SomeHear(net, net', c, m);
    assert |net.nodes[0].down + [m]| != |net.nodes[0].down| && |net.nodes[1].down + [m]| != |net.nodes[1].down|;
  }

  /** What the leave of the visitor has the signaling server do. */
  lemma ClosingOrders(net: Net, c: Scene, goodbyes: seq<Action>)
    requires NetLooks(net, c) && c.other in net.table && AllSimple(c, goodbyes)
    requires forall a :: a in goodbyes ==> a.ApiAction?
    ensures Alike(c, TellAll(c, goodbyes))
    ensures AllEnabled(net, goodbyes + [CloseAction(c.other)]) ==>
      Shows({ApplyAll(net, goodbyes + [CloseAction(c.other)])}, Destroying(TellAll(c, goodbyes), net.table[c.other]))
  {
    TellsSame(c, goodbyes);
    if AllEnabled(net, goodbyes + [CloseAction(c.other)]) {
      AllEnabledSplit(net, goodbyes, [CloseAction(c.other)]);
      TellsAll(net, c, goodbyes);
      SameTables(net, goodbyes);
      var net' := ApplyAll(net, goodbyes);
      assert net' in {net'};
      OneOrder(net', CloseAction(c.other));
      CloseTold(net', TellAll(c, goodbyes));
    }
  }

  /** The servers that hear of the close. */
  function Told01(lists: Lists): set<Node> {
    if 0 in lists.ingress then {0, 1} else {1}
  }

  lemma MembersOf(c: Scene, lists: Lists)
    requires lists == Lists([0, 2], [1]) || lists == Lists([2], [1])
    ensures Destroying(c, Members(lists)) == Destroying(c, Told01(lists))
  {
    assert 1 in [1] && 0 in [0, 2];
  }

  lemma LeaveSeen(j: Joint, c: Scene, v: PeerId, lists: Lists)
    requires Looks(j, c) && Visits(j.s, c.other, v, lists)
    requires lists == Lists([0, 2], [1]) || lists == Lists([2], [1])
    ensures var orders, c' := Orders(j.s, Request(MeshRuns.Leave(v, c.other))),
        Destroying(To(c, 1, DisconnectTransport(v)), Told01(lists));
      AllEnabled(j.net, orders) ==> Shows({ApplyAll(j.net, orders)}, c')
  {
    var goodbyes := [ApiAction(2, DisconnectTransport(v)), ApiAction(1, DisconnectTransport(v))];
    See(j, c);
    RoutesAgree(j, c, c.other);
    LastGoodbye(j.s, c.other, v, lists);
    TellTwo(c, goodbyes[0], goodbyes[1]);
    MembersOf(TellAll(c, goodbyes), lists);
    ClosingOrders(j.net, c, goodbyes);
  }

  /** The visitor's leave closes the room. */
  lemma Leaves(j: Joint, c: Scene, v: PeerId, lists: Lists) returns (j': Joint, c': Scene)
    requires Looks(j, c) && Calm(c) && Visits(j.s, c.other, v, lists)
    requires lists == Lists([0, 2], [1]) || lists == Lists([2], [1])
    ensures Looks(j', c') && j'.s == LeaveRoom(j.s, v, c.other)
    ensures c' == Destroying(To(c, 1, DisconnectTransport(v)), Told01(lists))
  {
    var m := Request(MeshRuns.Leave(v, c.other));
    c' := Destroying(To(c, 1, DisconnectTransport(v)), Told01(lists));
    LeaveSeen(j, c, v, lists);
    Moved(j, c, m, c');
    j' := After(j, m);
  }

  /** What servers 0 and 1 read of that. */
  lemma Hears(c: Scene, v: PeerId, to: set<Node>)
    requires Calm(c) && 1 in to
    ensures var c' := Destroying(To(c, 1, DisconnectTransport(v)), to);
      && c'.b == Wire([DisconnectTransport(v), DestroyRouterGroup(c.other)], [])
      && c'.a == (if 0 in to then Wire([DestroyRouterGroup(c.other)], []) else Wire([], []))
      && c' == c.(a := c'.a, b := c'.b)
    ensures Read(Wire([DisconnectTransport(v), DestroyRouterGroup(c.other)], []), [])
      == Wire([DestroyRouterGroup(c.other)], [])
  {
    var m, n := DisconnectTransport(v), DestroyRouterGroup(c.other);
    assert [] + [m] + [n] == [m, n] && [m, n][1..] == [n] && [] + [n] == [n];
  }

  lemma Destroyed(j: Joint, c: Scene, c0: Scene, v: PeerId, to: set<Node>) returns (j': Joint, c': Scene)
    requires Looks(j, c) && c == Destroying(To(c0, 1, DisconnectTransport(v)), to) && Calm(c0) && 1 in to
    requires c0.q.Some? && c0.relayed && (0 in to ==> c0.home != c0.other)
    ensures Looks(j', c') && j'.s == j.s && c' == c0.(q := None, relayed := false, offered := false)
  {
    Hears(c0, v, to);
    j' := j;
    if 0 in to {
      ReadOnly(DestroyRouterGroup(c0.other), []);
      j', c' := IngressIdles(j', c);
    }
    j', c' := ReadsDestroy(j', c.(a := Wire([], [])), v);
  }

  lemma ReadsDestroy(j: Joint, c: Scene, v: PeerId) returns (j': Joint, c': Scene)
    requires Looks(j, c) && c.q.Some? && c.relayed
    requires c.b == Wire([DisconnectTransport(v), DestroyRouterGroup(c.other)], [])
    ensures Looks(j', c') && j'.s == j.s
    ensures c' == c.(b := Wire([], []), q := None, relayed := false, offered := false)
  {
    ReadOnly(DestroyRouterGroup(c.other), []);
    assert [DisconnectTransport(v), DestroyRouterGroup(c.other)][1..] == [DestroyRouterGroup(c.other)];
    j', c' := EgressIdles(j, c);
    j', c' := EgressDestroys(j', c');
  }

  lemma VisitEnds(j: Joint, c: Scene, v: PeerId, lists: Lists) returns (j': Joint, c': Scene)
    requires Looks(j, c) && Calm(c) && c.q.Some? && c.relayed && Visits(j.s, c.other, v, lists)
    requires lists == Lists([2], [1]) || (lists == Lists([0, 2], [1]) && c.home != c.other)
    ensures Looks(j', c') && c' == c.(q := None, relayed := false, offered := false)
    ensures In(j'.s, 0, c.other, 0) && Out(j'.s, v) && Alone(j'.s, c.other) && c.other !in j'.s.rooms
  {
    var to := Told01(lists);
    j', c' := LeavesLast(j, c, v, lists);
    j', c' := Destroyed(j', c', c, v, to);
  }

  lemma LeavesLast(j: Joint, c: Scene, v: PeerId, lists: Lists) returns (j': Joint, c': Scene)
    requires Looks(j, c) && Calm(c) && Visits(j.s, c.other, v, lists)
    requires lists == Lists([0, 2], [1]) || lists == Lists([2], [1])
    ensures Looks(j', c') && c' == Destroying(To(c, 1, DisconnectTransport(v)), Told01(lists))
    ensures In(j'.s, 0, c.other, 0) && Out(j'.s, v) && Alone(j'.s, c.other) && c.other !in j'.s.rooms
  {
    LastGoodbye(j.s, c.other, v, lists);
    j', c' := Leaves(j, c, v, lists);
  }

  /** The visitor comes and goes, and server 1 has nothing of `other` any more. */
  lemma ComesAndCloses(j: Joint, c: Scene, v: PeerId) returns (j': Joint, c': Scene)
    requires Looks(j, c) && Calm(c) && c.q.Some? && c.relayed && Astray(j.s, c.other, v) && Unreached(j.s, c)
    ensures Looks(j', c') && c' == c.(q := None, relayed := false, offered := false)
    ensures In(j'.s, 0, c.other, 0) && Out(j'.s, v) && Alone(j'.s, c.other) && c.other !in j'.s.rooms
  {
    j' := Arrives(j, c, v);
    j', c' := VisitEnds(j', c, v, Visited(j.s, c.other));
  }

  /** A peer joins `other` on servers `i` and 1, where it is new to server 1. */
  lemma OtherOpens(j: Joint, c: Scene, p: PeerId, i: Node) returns (j': Joint, c': Scene)
    requires Looks(j, c) && Calm(c) && c.q.None? && !c.relayed && (i == 2 || (i == 0 && c.home != c.other))
    requires p in j.s.peers && c.other !in j.s.rooms && Follows(j.s, JoinOf(p, c.other, i, 1), c.rules)
    requires forall q :: q in j.s.peers && q != p && j.s.peers[q].room == Some(c.other) ==>
      j.s.peers[q].egress == Some(1)
    ensures Looks(j', c') && c'.q.Some? && c' == c.(q := c'.q)
      && Joined(j.s, j'.s, p, c.other, i, 1, Lists([i], [1]))
  {
    j' := OtherHeard(j, c, p, i);
    j', c' := OpensThere(j', c);
  }

  lemma OpensThere(j: Joint, c: Scene) returns (j': Joint, c': Scene)
    requires Looks(j, To(c, 1, CreateRouterGroup(c.other))) && Calm(c) && c.q.None? && !c.relayed
    ensures j'.s == j.s && Looks(j', c') && c'.q.Some? && c' == c.(q := c'.q)
  {
    ReadOnly(CreateRouterGroup(c.other), []);
    j', c' := EgressOpens(j, To(c, 1, CreateRouterGroup(c.other)));
  }

  /** Server 0, if it is told, has the room already or does not care. */
  lemma OtherHeard(j: Joint, c: Scene, p: PeerId, i: Node) returns (j': Joint)
    requires Looks(j, c) && Calm(c) && (i == 2 || (i == 0 && c.home != c.other))
    requires p in j.s.peers && c.other !in j.s.rooms && Follows(j.s, JoinOf(p, c.other, i, 1), c.rules)
    requires forall q :: q in j.s.peers && q != p && j.s.peers[q].room == Some(c.other) ==>
      j.s.peers[q].egress == Some(1)
    ensures Looks(j', To(c, 1, CreateRouterGroup(c.other)))
    ensures Joined(j.s, j'.s, p, c.other, i, 1, Lists([i], [1]))
  {
    var c';
    j', c' := JoinsFirst(j, c, p, c.other, i, 1);
    if i == 0 {
      j' := OtherIdles(j', c);
    }
  }

  lemma OtherIdles(j: Joint, c: Scene) returns (j': Joint)
    requires Looks(j, To(To(c, 0, CreateRouterGroup(c.other)), 1, CreateRouterGroup(c.other)))
    requires Calm(c) && c.home != c.other
    ensures j'.s == j.s && Looks(j', To(c, 1, CreateRouterGroup(c.other)))
  {
    var m := CreateRouterGroup(c.other);
    var c';
    HeardBy0(c, m);
    j', c' := IngressIdles(j, To(To(c, 0, m), 1, m));
  }

  lemma HeardBy0(c: Scene, m: Msg)
    requires Calm(c)
    ensures var c1 := To(To(c, 0, m), 1, m); c1.a.down == [m] && c1.(a := Read(c1.a, [])) == To(c, 1, m)
  {
    ReadOnly(m, []);
  }

  /** The visitor opens `other` again. */
  lemma Reopens(j: Joint, c: Scene, v: PeerId) returns (j': Joint, c': Scene)
    requires Looks(j, c) && Calm(c) && c.q.Some? && c.relayed && Astray(j.s, c.other, v) && Unreached(j.s, c)
    ensures Looks(j', c') && In(j'.s, 0, c.other, 0)
    ensures c'.q.Some? && c' == c.(q := c'.q, relayed := false, offered := false)
  {
    j', c' := ComesAndCloses(j, c, v);
    j', c' := OtherOpens(j', c', v, 2);
  }

  // ---------------------------------------------------------------- a pipe that is connected twice

  /** The pipe of peer 0 is connected, on both sides. */
  predicate Produced(c: Scene, u: TransportId) {
    && Calm(c) && c.made && c.piped && c.q.Some? && c.relayed && c.pipes == [Record(0, 1, c.r)]
    && c.connects == [Connect(1, u, c.t), Connect(0, c.t, u)]
  }

  lemma TwiceIsUnsafe(net: Net, t: TransportId, u: TransportId, v: TransportId)
    requires net.h.connects == [Connect(1, u, t), Connect(0, t, u), Connect(0, t, v)]
    requires u < v && t < v && |net.nodes| == 5 && net.nodes[0].ingress
    ensures !ConnectedOnce(net) && !EndsAgree(net)
  {
    assert net.h.connects[1].transport == net.h.connects[2].transport;
    assert net.h.connects[2] == Connect(0, t, v) && !Answering(net, net.h.connects[2]);
  }

  /** A run that reaches it, with no other naming than `home` and `other`, and no other room than those
      in `lost` dropped untold. */
  ghost predicate Twice(j: Joint, c: Scene) {
    && Reaches(j, c.rules, {(c.home, c.other)}) && j.net.h.lost <= c.lost
    && !ConnectedOnce(j.net) && !EndsAgree(j.net)
  }

  /** After the visitor's visit the pipe is connected again, to one that server 1 never connected. */
  lemma ProducesAgain(j: Joint, c: Scene, u: TransportId, v: PeerId) returns (j': Joint)
    requires Looks(j, c) && Produced(c, u) && Astray(j.s, c.other, v) && Unreached(j.s, c)
    ensures Twice(j', c)
  {
    var c';
    j', c' := Reopens(j, c, v);
    j' := ProducesTwice(j', c', u);
  }

  lemma ProducesTwice(j: Joint, c: Scene, u: TransportId) returns (j': Joint)
    requires Looks(j, c) && Calm(c) && c.piped && c.q.Some? && !c.relayed && !c.offered
    requires c.pipes == [Record(0, 1, c.r)] && c.connects == [Connect(1, u, c.t), Connect(0, c.t, u)]
    requires In(j.s, 0, c.other, 0)
    ensures Twice(j', c)
  {
    var c', w;
    assert c.connects[0] in c.connects && c.connects[1] in c.connects;
    j', c', w := Produces(j, c);
    assert c'.connects == [Connect(1, u, c.t), Connect(0, c.t, u), Connect(0, c.t, w)];
    TwiceLooks(j', c', u, w);
  }

  lemma TwiceLooks(j: Joint, c: Scene, u: TransportId, v: TransportId)
    requires Looks(j, c) && c.connects == [Connect(1, u, c.t), Connect(0, c.t, u), Connect(0, c.t, v)]
    requires u < v && c.t < v
    ensures Twice(j, c)
  {
    See(j, c);
    TwiceIsUnsafe(j.net, c.t, u, v);
  }

  // ---------------------------------------------------------------- astray by a switch

  /** Peers 0 and 2 have ingress transports in `home`, on servers 0 and 2. */
  predicate AtHome(s: State, home: Room) {
    && Three(s) && In(s, 0, home, 0) && Waiting(s, 0) && Out(s, 1) && In(s, 2, home, 2)
    && s.rooms == map[home := Lists([0, 2], [1])] && s.counts.Keys == {home} && s.counts[home].lobby == 2
  }

  /** Peer 0 is in `other`, which it opened, and peer 1 in no room. */
  predicate Strayed(s: State, other: Room) {
    Astray(s, other, 1) && other in s.rooms && other !in s.counts
  }

  /** Server 0 opens `home` and server 1 hears of it. */
  lemma HomeOpens(j: Joint, c: Scene) returns (j': Joint, c': Scene)
    requires Looks(j, c) && Calm(c) && !c.made && !c.piped && !c.relayed && !c.offered && c.home != c.other
    requires Three(j.s) && Out(j.s, 0) && j.s.rooms == map[] && forall q :: q in j.s.peers ==> j.s.peers[q].room.None?
    ensures Looks(j', c') && c' == c.(made := true, r := c'.r) && Joined(j.s, j'.s, 0, c.home, 0, 1, Lists([0], [1]))
  {
    var m := CreateRouterGroup(c.home);
    ReadOnly(m, []);
    j', c' := JoinsFirst(j, c, 0, c.home, 0, 1);
    j', c' := IngressOpens(j', c');
    j', c' := EgressIdles(j', c');
  }

  /** Peers 0 and 2 are in `home`. */
  predicate Both(s: State, home: Room) {
    && Three(s) && In(s, 0, home, 0) && Waiting(s, 0) && Out(s, 1) && In(s, 2, home, 2)
    && s.rooms == map[home := Lists([0, 2], [1])] && s.counts == map[]
  }

  /** A peer comes to `home` on server 2, which server 1 knows already. */
  lemma ComesHome(j: Joint, c: Scene, p: PeerId) returns (j': Joint)
    requires Looks(j, c) && Calm(c) && p in j.s.peers && c.home in j.s.rooms && j.s.rooms[c.home].egress == [1]
    requires Follows(j.s, JoinOf(p, c.home, 2, 1), c.rules) && c.home != c.other
    ensures Looks(j', c) && Joined(j.s, j'.s, p, c.home, 2, 1, Lists(With(j.s.rooms[c.home].ingress, 2), [1]))
  {
    j' := FindsHome(j, c, p);
    j' := IdlesHome(j', c);
  }

  lemma FindsHome(j: Joint, c: Scene, p: PeerId) returns (j': Joint)
    requires Looks(j, c) && Calm(c) && p in j.s.peers && c.home in j.s.rooms && j.s.rooms[c.home].egress == [1]
    requires Follows(j.s, JoinOf(p, c.home, 2, 1), c.rules)
    ensures Looks(j', To(c, 1, CreateRouterGroup(c.home)))
    ensures Joined(j.s, j'.s, p, c.home, 2, 1, Lists(With(j.s.rooms[c.home].ingress, 2), [1]))
  {
    var c';
    HeardBy1(c, CreateRouterGroup(c.home));
    j', c' := JoinsNext(j, c, p, c.home, 2);
  }

  lemma IdlesHome(j: Joint, c: Scene) returns (j': Joint)
    requires Looks(j, To(c, 1, CreateRouterGroup(c.home))) && Calm(c) && c.home != c.other
    ensures j'.s == j.s && Looks(j', c)
  {
    var c';
    HeardBy1(c, CreateRouterGroup(c.home));
    j', c' := EgressIdles(j, To(c, 1, CreateRouterGroup(c.home)));
  }

  lemma BothThen(s: State, s': State, home: Room)
    requires Three(s) && In(s, 0, home, 0) && Waiting(s, 0) && Out(s, 1) && s.counts == map[]
    requires s.rooms == map[home := Lists([0], [1])] && Joined(s, s', 2, home, 2, 1, Lists(With([0], 2), [1]))
    ensures Both(s', home)
  {
    assert With([0], 2) == [0, 2];
    Unmoved(s, s', 2, home, 2, 1, 0);
    Unmoved(s, s', 2, home, 2, 1, 1);
  }

  lemma SecondComes(j: Joint, c: Scene) returns (j': Joint)
    requires Looks(j, c) && Calm(c) && Three(j.s) && In(j.s, 0, c.home, 0) && Waiting(j.s, 0) && Out(j.s, 1)
    requires Out(j.s, 2) && j.s.rooms == map[c.home := Lists([0], [1])] && j.s.counts == map[] && c.home != c.other
    ensures Looks(j', c) && Both(j'.s, c.home)
  {
    j' := ComesHome(j, c, 2);
    BothThen(j.s, j'.s, c.home);
  }

  lemma BothCounted(s: State, home: Room)
    requires Both(s, home)
    ensures In(s, 2, home, 2) && home in s.rooms && s.rooms[home].egress == [1]
    ensures In(CreateIngress(s, 2), 0, home, 0) && CreateIngress(s, 2).rooms == s.rooms
    ensures AtHome(CreateIngress(CreateIngress(s, 2), 0), home)
  {
  }

  /** Both peers make ingress transports. */
  lemma Transports(j: Joint, c: Scene) returns (j': Joint, c': Scene)
    requires Looks(j, c) && Calm(c) && Both(j.s, c.home)
    ensures Looks(j', c') && AtHome(j'.s, c.home)
      && c' == c.(a := Wire([CreateWebRTCIngress(0, c.home, [Some(1)])], []))
  {
    BothCounted(j.s, c.home);
    j', c' := Asks(j, c, 2, c.home, 2);
    j', c' := AsksFirst(j', c);
  }

  lemma AsksFirst(j: Joint, c: Scene) returns (j': Joint, c': Scene)
    requires Looks(j, c) && Calm(c) && In(j.s, 0, c.home, 0) && c.home in j.s.rooms && j.s.rooms[c.home].egress == [1]
    ensures Looks(j', c') && j'.s == CreateIngress(j.s, 0)
      && c' == c.(a := Wire([CreateWebRTCIngress(0, c.home, [Some(1)])], []))
  {
    ReadOnly(CreateWebRTCIngress(0, c.home, [Some(1)]), []);
    j', c' := Asks(j, c, 0, c.home, 0);
  }

  /** Peer 0 has its pipe in `home`. */
  lemma Home(home: Room, other: Room, rules: Rules) returns (j: Joint, c: Scene)
    requires home != other
    ensures Looks(j, c) && AtHome(j.s, home) && Calm(c) && c.made && c.piped && c.offered
    ensures c.home == home && c.other == other && c.rules == rules && c.lost == {}
    ensures c.q.None? && !c.relayed && c.pipes == [Record(0, 1, c.r)] && c.connects == []
  {
    j, c := Begin(home, other, rules, {});
    j, c := HomeOpens(j, c);
    assert j.s.rooms == map[home := Lists([0], [1])];
    j := SecondComes(j, c);
    j, c := Transports(j, c);
    j, c := PipeOffered(j, c);
  }

  lemma StrayedThen(s: State, s': State, home: Room, other: Room)
    requires Three(s) && Out(s, 1) && s.peers[2].room == Some(home) && home != other
    requires other !in s.counts && Joined(s, s', 0, other, 0, 1, Lists([0], [1]))
    ensures Strayed(s', other)
  {
    Unmoved(s, s', 0, other, 0, 1, 1);
    Unmoved(s, s', 0, other, 0, 1, 2);
  }

  /** From `home` to `other` in one step. */
  lemma StraysAway(j: Joint, c: Scene) returns (j': Joint, c': Scene)
    requires Looks(j, c) && AtHome(j.s, c.home) && Calm(c) && c.made && c.q.None? && !c.relayed
    requires c.home != c.other && (c.home, c.other) in c.rules.switches
    ensures Looks(j', c') && Strayed(j'.s, c.other) && c'.q.Some? && c' == c.(q := c'.q)
  {
    j', c' := OtherOpens(j, c, 0, 0);
    StrayedThen(j.s, j'.s, c.home, c.other);
  }

  /** Peer 2 alone is in `home`. */
  predicate Left(s: State, home: Room) {
    Three(s) && Out(s, 0) && Out(s, 1) && In(s, 2, home, 2) && s.rooms.Keys == {home} && s.counts.Keys == {home}
  }

  /** Peer 0 is in `home` again, on server 2. */
  predicate HomeAgain(s: State, home: Room) {
    && Three(s) && In(s, 0, home, 2) && Waiting(s, 0) && Out(s, 1) && In(s, 2, home, 2)
    && s.rooms == map[home := Lists([0, 2], [1])] && s.counts.Keys == {home} && s.counts[home].lobby == 2
  }

  lemma SaysGoodbye(s: State, home: Room)
    requires HomeAgain(s, home)
    ensures Orders(s, Request(MeshRuns.Leave(0, home))) ==
      [ApiAction(2, DisconnectTransport(0)), ApiAction(1, DisconnectTransport(0))]
    ensures Left(LeaveRoom(s, 0, home), home)
  {
    assert Goodbyes([1], 0) == [ApiAction(1, DisconnectTransport(0))] by {
      assert [1][1..] == [];
    }
  }

  lemma LeavesHome(j: Joint, c: Scene) returns (j': Joint)
    requires Looks(j, c) && Calm(c) && HomeAgain(j.s, c.home)
    ensures Looks(j', c) && Left(j'.s, c.home)
  {
    var m, goodbye := Request(MeshRuns.Leave(0, c.home)), DisconnectTransport(0);
    SaysGoodbye(j.s, c.home);
    TellTwo(c, ApiAction(2, goodbye), ApiAction(1, goodbye));
    Ordered(j, c, m);
    HeardBy1(c, goodbye);
    var c';
    j', c' := EgressIdles(After(j, m), To(c, 1, goodbye));
  }

  lemma ComesBack(j: Joint, c: Scene) returns (j': Joint)
    requires Looks(j, c) && AtHome(j.s, c.home) && Calm(c) && (c.home, c.home) in c.rules.switches && c.home != c.other
    ensures Looks(j', c) && HomeAgain(j'.s, c.home)
  {
    j' := ComesHome(j, c, 0);
    BackThen(j.s, j'.s, c.home);
  }

  lemma BackThen(s: State, s': State, home: Room)
    requires AtHome(s, home) && Joined(s, s', 0, home, 2, 1, Lists(With([0, 2], 2), [1]))
    ensures HomeAgain(s', home)
  {
    assert With([0, 2], 2) == [0, 2];
    Unmoved(s, s', 0, home, 2, 1, 1);
    Unmoved(s, s', 0, home, 2, 1, 2);
  }

  /** Peer 0 joins `home` again on server 2 and leaves it; server 0 hears of no goodbye. */
  lemma ComesAndLeaves(j: Joint, c: Scene) returns (j': Joint)
    requires Looks(j, c) && AtHome(j.s, c.home) && Calm(c) && (c.home, c.home) in c.rules.switches && c.home != c.other
    ensures Looks(j', c) && Left(j'.s, c.home)
  {
    j' := ComesBack(j, c);
    j' := LeavesHome(j', c);
  }

  /** So it can go to `other` with the transport on server 0 still open. */
  lemma StraysBack(j: Joint, c: Scene) returns (j': Joint, c': Scene)
    requires Looks(j, c) && AtHome(j.s, c.home) && Calm(c) && c.made && c.q.None? && !c.relayed
    requires c.home != c.other && (c.home, c.home) in c.rules.switches
    ensures Looks(j', c') && Strayed(j'.s, c.other) && c'.q.Some? && c' == c.(q := c'.q)
  {
    var j1 := ComesAndLeaves(j, c);
    j', c' := OtherOpens(j1, c, 0, 0);
    StrayedThen(j1.s, j'.s, c.home, c.other);
  }

  /** Peer 0 is in `other`, with a pipe in `home`. */
  lemma Strays(home: Room, other: Room, rules: Rules) returns (j: Joint, c: Scene)
    requires home != other && ((home, other) in rules.switches || (home, home) in rules.switches)
    ensures Looks(j, c) && Strayed(j.s, other) && Calm(c) && c.made && c.piped && c.offered
    ensures c.home == home && c.other == other && c.rules == rules && c.lost == {}
    ensures c.q.Some? && !c.relayed && c.pipes == [Record(0, 1, c.r)] && c.connects == []
  {
    j, c := Home(home, other, rules);
    if (home, other) in rules.switches {
      j, c := StraysAway(j, c);
    } else {
      j, c := StraysBack(j, c);
    }
  }

  /** A switch from a room to another one, or to the room itself, lets server 0 connect a pipe twice,
      the second time to a pipe that server 1 never connected. */
  lemma SwitchIsUnsafe(home: Room, other: Room, rules: Rules) returns (j: Joint)
    requires home != other && ((home, other) in rules.switches || (home, home) in rules.switches)
    ensures Reaches(j, rules, {(home, other)}) && j.net.h.lost == {}
    ensures !ConnectedOnce(j.net) && !EndsAgree(j.net)
  {
    var c, c', u;
    j, c := Strays(home, other, rules);
    j, c', u := Produces(j, c);
    assert Produced(c', u);
    j := ProducesAgain(j, c', u, 1);
  }
}
