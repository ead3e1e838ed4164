/** Runs of disciplined producer requests stay tidy. */
module HandshakeAgreements {
  import opened Sfu
  import opened Handshake
  import opened HandshakeInvariant
  import opened HandshakeSteps
  import opened HandshakeRouting
  import opened HandshakeDiscipline

  // ---------------------------------------------------------------- handlers that connect and forget nothing

  ghost predicate Calm(net: Net, net': Net, n: Node) {
    && n < |net.nodes| == |net'.nodes| && net.nodes[n].read < |net.nodes[n].down|
    && (forall m :: 0 <= m < |net.nodes| && m != n ==> net'.nodes[m] == net.nodes[m])
    && net'.h.connects == net.h.connects && net'.h.first == net.h.first
    && var nd, nd' := net.nodes[n], net'.nodes[n];
    && nd'.down == nd.down && nd'.read == nd.read + 1
    && nd.up <= nd'.up
    && (forall j :: |nd.up| <= j < |nd'.up| ==> CalmMsg(net', nd'.up[j]))
    && (!nd.ingress ==>
          && nd'.server.relays == nd.server.relays && nd'.server.relayRouters == nd.server.relayRouters
          && (forall r :: r in nd.server.pending ==> r in nd'.server.pending)
          && (nd.down[nd.read].StorePipeRelay? ==> nd.down[nd.read].route in nd'.server.pending))
  }

  ghost predicate CalmMsg(net: Net, m: Msg) {
    !m.ConnectPipeRelay? && (m.CreateRelayProducer? ==> RoomOf(net, m.route, m.room))
  }

  lemma ToldBefore(log: seq<Msg>, r: RouterId, read: nat)
    requires read < |log| && Told(log, r, read + 1)
    ensures Told(log, r, read) || (log[read].StorePipeRelay? && log[read].route == r)
  {
  }

  lemma CalmAwaited(net: Net, net': Net, n: Node)
    requires Calm(net, net', n)
    ensures NewAwaited(net, net', n)
  {
    var nd, nd' := net.nodes[n], net'.nodes[n];
    if !nd.ingress {
      forall r | Told(nd'.down, r, nd'.read) && r !in nd'.server.pending
        ensures Told(nd.down, r, nd.read) && r !in nd.server.pending
      {
        ToldBefore(nd.down, r, nd.read);
      }
    }
  }

  lemma CalmNews(net: Net, net': Net, n: Node)
    requires Calm(net, net', n)
    ensures NewsTidy(net, net', {n})
  {
    CalmAwaited(net, net', n);
  }

  lemma ServedNews(net: Net, net': Net, n: Node)
    requires Extends(net, net', n) && n < |net.nodes|
    requires forall m :: 0 <= m < |net.nodes| && m != n ==> net'.nodes[m] == net.nodes[m]
    requires NewsTidy(net, net', {n})
    ensures forall m :: 0 <= m < |net.nodes| ==> NewsTidy(net, net', {m})
  {
    forall m | 0 <= m < |net.nodes| ensures NewsTidy(net, net', {m}) {
      if m != n {
        BystanderTidy(net, net', n, m);
      }
    }
  }

  lemma CalmTidy(net: Net, net': Net, n: Node)
    requires Inv(net) && Tidy(net) && Extends(net, net', n) && Calm(net, net', n)
    ensures Tidy(net')
  {
    CalmNews(net, net', n);
    ServedNews(net, net', n);
    SamePairs(net, net', n);
    StepTidy(net, net', n);
  }

  lemma GroupCalm(net: Net, n: Node, room: Room)
    requires n < |net.nodes| && net.nodes[n].read < |net.nodes[n].down|
    requires net.nodes[n].down[net.nodes[n].read] == CreateRouterGroup(room)
    ensures Calm(net, ServeGroup(net, n, room), n)
  {
  }

  lemma IngressCalm(net: Net, n: Node, peer: Peer, room: Room, es: seq<Option<Node>>)
    requires n < |net.nodes| && net.nodes[n].read < |net.nodes[n].down| && net.nodes[n].ingress
    requires net.nodes[n].down[net.nodes[n].read].CreateWebRTCIngress?
    ensures Calm(net, ServeIngress(net, n, peer, room, es), n)
  {
  }

  lemma ProducerCalm(net: Net, n: Node, peer: Peer, room: Room, e: Node)
    requires n < |net.nodes| && net.nodes[n].read < |net.nodes[n].down|
    requires net.nodes[n].down[net.nodes[n].read] == CreateProducer(peer, room, e)
    requires peer in net.nodes[n].routes ==> RoomOf(net, net.nodes[n].routes[peer], room)
    ensures Calm(net, ServeProducer(net, n, peer, room, e), n)
  {
  }

  lemma DisconnectCalm(net: Net, n: Node, peer: Peer)
    requires n < |net.nodes| && net.nodes[n].read < |net.nodes[n].down|
    requires net.nodes[n].down[net.nodes[n].read] == DisconnectTransport(peer)
    ensures Calm(net, ServeDisconnect(net, n, peer), n)
  {
  }

  lemma StoreCalm(net: Net, n: Node, r: RouterId, e: Node, remote: TransportId)
    requires n < |net.nodes| && net.nodes[n].read < |net.nodes[n].down|
    requires net.nodes[n].down[net.nodes[n].read] == StorePipeRelay(r, e, remote)
    ensures Calm(net, ServeStore(net, n, r, remote), n)
  {
  }

  lemma UnansweredCalm(net: Net, n: Node, room: Room, r: RouterId)
    requires n < |net.nodes| && net.nodes[n].read < |net.nodes[n].down|
    requires net.nodes[n].down[net.nodes[n].read].CreateRelayProducer?
    requires !AnswerOf(net.nodes[n].server, room, r).Answered?
    ensures Calm(net, ServeRelay(net, n, room, r), n)
  {
  }

  lemma DestroyCalm(net: Net, n: Node, room: Room, gone: set<RouterId>)
    requires n < |net.nodes| && net.nodes[n].read < |net.nodes[n].down|
    requires net.nodes[n].down[net.nodes[n].read] == DestroyRouterGroup(room)
    requires net.nodes[n].ingress || room !in net.nodes[n].server.rooms
    ensures Calm(net, ServeDestroy(net, n, room, gone), n)
  {
  }

  lemma UnconnectedCalm(net: Net, n: Node, r: RouterId, e: Node, remote: TransportId)
    requires n < |net.nodes| && net.nodes[n].read < |net.nodes[n].down|
    requires net.nodes[n].down[net.nodes[n].read].ConnectPipeRelay?
    requires ConnectTarget(net.nodes[n].server, r, e).None?
    ensures Calm(net, ServeConnect(net, n, r, e, remote), n)
  {
  }

  // ---------------------------------------------------------------- an egress server destroys a room

  lemma ToldThenDestroyed(net: Net, n: Node, r: RouterId, room: Room)
    requires n < |net.nodes| && net.nodes[n].read < |net.nodes[n].down| && Ordered(net, n)
    requires net.nodes[n].down[net.nodes[n].read] == DestroyRouterGroup(room)
    requires Told(net.nodes[n].down, r, net.nodes[n].read) && RoomOf(net, r, room)
    ensures Closing(net, r)
  {
    var log := net.nodes[n].down;
    var j :| 0 <= j < net.nodes[n].read && j < |log| && log[j].StorePipeRelay? && log[j].route == r;
    assert Crossing(net, log, j, net.nodes[n].read);
  }

  /** Egress server `n` reads the order to destroy a room that it has. */
  ghost predicate Destroying(net: Net, net': Net, n: Node, room: Room, gone: set<RouterId>) {
    && n < |net.nodes| && net.nodes[n].read < |net.nodes[n].down|
    && !net.nodes[n].ingress && room in net.nodes[n].server.rooms
    && net.nodes[n].down[net.nodes[n].read] == DestroyRouterGroup(room)
    && OnePerRouter(net.nodes[n].server.relayRouters, Elems(net.nodes[n].server.rooms[room]), gone)
    && net' == ServeDestroy(net, n, room, gone)
    && Extends(net, net', n)
  }

  lemma DestroyRelayed(net: Net, net': Net, n: Node, room: Room, gone: set<RouterId>)
    requires Destroying(net, net', n, room, gone)
    requires Labelled(net, n) && Ordered(net, n) && EgressOk(net, n)
    ensures NewRelayed(net, net', n)
  {
    var s, s' := net.nodes[n].server, net'.nodes[n].server;
    forall k | k in net'.h.first && k.1 == n && OfRouter(s'.relays, k.0) == [] && OfRouter(s.relays, k.0) != []
      ensures Closing(net', k.0)
    {
      var x := OfRouter(s.relays, k.0)[0];
      assert x in OfRouter(s.relays, k.0);
      assert x.room != room ==> x in s'.relays && x in OfRouter(s'.relays, k.0);
      ToldThenDestroyed(net, n, k.0, room);
      ClosingStays(net, net', n, k.0);
    }
  }

  lemma DestroyAwaited(net: Net, net': Net, n: Node, room: Room, gone: set<RouterId>)
    requires Destroying(net, net', n, room, gone)
    requires Labelled(net, n) && Ordered(net, n) && EgressOk(net, n) && GroupsAtHome(net, n)
    ensures NewAwaited(net, net', n)
  {
    var nd, nd' := net.nodes[n], net'.nodes[n];
    forall r | Told(nd'.down, r, nd'.read) && r !in nd'.server.pending
      ensures (Told(nd.down, r, nd.read) && r !in nd.server.pending) || Closing(net', r)
    {
      ToldBefore(nd.down, r, nd.read);
      if r in nd.server.pending {
        assert r in gone;
        var q := nd.server.relayRouters[r];
        assert SameRoom(net, r, q) && q in nd.server.rooms[room];
        ToldThenDestroyed(net, n, r, room);
        ClosingStays(net, net', n, r);
      }
    }
  }

  lemma DestroyNews(net: Net, net': Net, n: Node, room: Room, gone: set<RouterId>)
    requires Destroying(net, net', n, room, gone)
    requires NewRelayed(net, net', n) && NewAwaited(net, net', n)
    ensures NewsTidy(net, net', {n})
  {
  }

  lemma DestroyTidy(net: Net, net': Net, n: Node, room: Room, gone: set<RouterId>)
    requires Inv(net) && Tidy(net) && Destroying(net, net', n, room, gone)
    ensures Tidy(net')
  {
    assert NodeOk(net, n) && NodeTidy(net, n);
    DestroyRelayed(net, net', n, room, gone);
    DestroyAwaited(net, net', n, room, gone);
    DestroyNews(net, net', n, room, gone);
    ServedNews(net, net', n);
    SamePairs(net, net', n);
    StepTidy(net, net', n);
  }

  // ---------------------------------------------------------------- an egress server answers

  lemma OfRouterStays(rs: seq<Relay>, rs': seq<Relay>, r: RouterId)
    requires forall x :: x in rs && x.router == r ==> x in rs'
    ensures OfRouter(rs', r) == [] ==> OfRouter(rs, r) == []
  {
    if OfRouter(rs, r) != [] {
      assert OfRouter(rs, r)[0] in OfRouter(rs, r);
    }
  }

  lemma AnswerRelayed(net: Net, net': Net, n: Node, room: Room, r: RouterId, q: RouterId)
    requires NewAnswer(net, net', n, room, r, q)
    ensures NewRelayed(net, net', n)
  {
    var rs, rs' := net.nodes[n].server.relays, net'.nodes[n].server.relays;
    assert Relay(r, n, net.next, room) in rs';
    assert Relay(r, n, net.next, room) in OfRouter(rs', r);
    forall k | k in net'.h.first && k.1 == n && OfRouter(rs', k.0) == []
      ensures k in net.h.first && OfRouter(rs, k.0) == []
    {
      OfRouterStays(rs, rs', k.0);
    }
  }

  lemma AnswerLabelled(net: Net, net': Net, n: Node, room: Room, r: RouterId, q: RouterId)
    requires NewAnswer(net, net', n, room, r, q) && Labelled(net, n) && GroupsAtHome(net, n)
    ensures NewLabelled(net, net', n)
  {
    var s, s' := net.nodes[n].server, net'.nodes[n].server;
    assert RoomOf(net, r, room) && RoomOf(net, q, room);
    assert forall x :: x in s'.relays ==> x in s.relays || x == Relay(r, n, net.next, room);
  }

  /** The answer is the first one for its router and connected, or the router is on its way out. */
  lemma AnswerIsGood(net: Net, net': Net, n: Node, room: Room, r: RouterId, q: RouterId)
    requires NewAnswer(net, net', n, room, r, q) && Extends(net, net', n)
    requires EgressOk(net, n) && Relayed(net, n) && Awaited(net, n)
    ensures Closing(net', r) || Good(net', r, n, net.next)
  {
    var pending := net.nodes[n].server.pending;
    if (r, n) in net.h.first || r !in pending {
      ClosingStays(net, net', n, r);
    } else {
      assert net'.h.connects == net.h.connects + [Connect(n, net.next, pending[r])];
      assert Connect(n, net.next, pending[r]) in net'.h.connects;
    }
  }

  lemma AnswerNews(net: Net, net': Net, n: Node, room: Room, r: RouterId, q: RouterId)
    requires NewAnswer(net, net', n, room, r, q)
    requires NewLabelled(net, net', n) && NewRelayed(net, net', n)
    requires Closing(net', r) || Good(net', r, n, net.next)
    ensures NewsTidy(net, net', {n})
  {
    forall x | Told(net'.nodes[n].down, x, net'.nodes[n].read) ensures Told(net.nodes[n].down, x, net.nodes[n].read) {
      ToldBefore(net.nodes[n].down, x, net.nodes[n].read);
    }
    assert NewAwaited(net, net', n);
    assert NewAnswersLeave(net, net', n);
  }

  lemma AnswerPairs(net: Net, net': Net, n: Node, room: Room, r: RouterId, q: RouterId)
    requires NewAnswer(net, net', n, room, r, q) && Extends(net, net', n)
    requires ConnectsOk(net) && Paired(net)
    ensures Paired(net')
  {
    forall i | 0 <= i < |net.h.connects|
      ensures PairOk(net', net.h.connects[i])
      ensures ByIngress(net', net.h.connects[i]) == ByIngress(net, net.h.connects[i])
    {
      PairStays(net, net', n, net.h.connects[i]);
    }
    forall i | |net.h.connects| <= i < |net'.h.connects| ensures !ByIngress(net', net'.h.connects[i]) {
    }
  }

  lemma AnswerTidy(net: Net, net': Net, n: Node, room: Room, r: RouterId, q: RouterId)
    requires Inv(net) && Tidy(net) && NewAnswer(net, net', n, room, r, q) && Extends(net, net', n)
    ensures Tidy(net')
  {
    assert NodeOk(net, n) && NodeTidy(net, n);
    AnswerLabelled(net, net', n, room, r, q);
    AnswerRelayed(net, net', n, room, r, q);
    AnswerIsGood(net, net', n, room, r, q);
    AnswerNews(net, net', n, room, r, q);
    ServedNews(net, net', n);
    AnswerPairs(net, net', n, room, r, q);
    StepTidy(net, net', n);
  }

  // ---------------------------------------------------------------- an ingress server connects

  /** A pipe that can be connected belongs to a router whose room was not destroyed yet. */
  lemma TargetIsLive(net: Net, n: Node, r: RouterId, e: Node)
    requires n < |net.nodes| && net.nodes[n].ingress && Valid(net.nodes[n].server)
    requires IngressOk(net, n) && GroupsAtHome(net, n)
    requires ConnectTarget(net.nodes[n].server, r, e).Some?
    ensures r in net.h.home && !Destroyed(net.nodes[n].down, net.h.home[r].room, net.h.home[r].born, net.nodes[n].read)
  {
    var s := net.nodes[n].server;
    var x := OfPair(s.relays, r, e)[0];
    assert x in OfPair(s.relays, r, e) && x in s.relays;
    assert r in s.rooms[x.room];
  }

  /** Ingress server `n` reads an answer and connects its pipe `t`. */
  ghost predicate Connecting(net: Net, net': Net, n: Node, t: TransportId) {
    && n < |net.nodes| && net.nodes[n].read < |net.nodes[n].down| && net.nodes[n].ingress
    && var m := net.nodes[n].down[net.nodes[n].read];
    && m.ConnectPipeRelay? && ConnectTarget(net.nodes[n].server, m.route, m.egress) == Some(t)
    && DownMsgOk(net, n, net.nodes[n].read)
    && net' == ServeConnect(net, n, m.route, m.egress, m.remote)
    && Extends(net, net', n)
  }

  lemma ConnectNews(net: Net, net': Net, n: Node, t: TransportId)
    requires Connecting(net, net', n, t)
    ensures NewsTidy(net, net', {n})
  {
  }

  lemma ConnectIsGood(net: Net, net': Net, n: Node, t: TransportId)
    requires Connecting(net, net', n, t) && NodeOk(net, n) && AnswersArrive(net, n)
    ensures PairOk(net', Connect(n, t, net.nodes[n].down[net.nodes[n].read].remote))
  {
    var m := net.nodes[n].down[net.nodes[n].read];
    TargetIsLive(net, n, m.route, m.egress);
    if !Late(net, net.nodes[n].down, net.nodes[n].read) {
      GoodStays(net, net', n, m.route, m.egress, m.remote);
    }
  }

  /** An answer is read only once. */
  lemma ConnectIsNew(net: Net, net': Net, n: Node, t: TransportId)
    requires Connecting(net, net', n, t) && ConnectsOk(net) && DownOk(net, n)
    ensures forall i :: 0 <= i < |net.h.connects| && ByIngress(net, net.h.connects[i]) ==>
      net.h.connects[i].remote != net.nodes[n].down[net.nodes[n].read].remote
  {
    forall i | 0 <= i < |net.h.connects| && ByIngress(net, net.h.connects[i])
      ensures net.h.connects[i].remote != net.nodes[n].down[net.nodes[n].read].remote
    {
      assert ConnectOk(net, net.h.connects[i]);
    }
  }

  lemma ConnectPairs(net: Net, net': Net, n: Node, c: Connect)
    requires Extends(net, net', n) && ConnectsOk(net) && Paired(net)
    requires net'.h.connects == net.h.connects + [c] && PairOk(net', c)
    requires forall i :: 0 <= i < |net.h.connects| && ByIngress(net, net.h.connects[i]) ==>
      net.h.connects[i].remote != c.remote
    ensures Paired(net')
  {
    forall i | 0 <= i < |net.h.connects|
      ensures PairOk(net', net.h.connects[i])
      ensures ByIngress(net', net.h.connects[i]) == ByIngress(net, net.h.connects[i])
    {
      PairStays(net, net', n, net.h.connects[i]);
    }
  }

  lemma ConnectPaired(net: Net, net': Net, n: Node, t: TransportId)
    requires Connecting(net, net', n, t) && AllOk(net, {n}) && AllTidy(net, {n})
    requires ConnectsOk(net) && Paired(net)
    ensures Paired(net')
  {
    assert n in {n};
    ConnectIsGood(net, net', n, t);
    ConnectIsNew(net, net', n, t);
    ConnectPairs(net, net', n, Connect(n, t, net.nodes[n].down[net.nodes[n].read].remote));
  }

  lemma ServerOk(net: Net, n: Node)
    requires Inv(net) && n < |net.nodes|
    ensures AllOk(net, {n})
  {
    assert NodeOk(net, n);
  }

  lemma ServerTidy(net: Net, n: Node)
    requires Tidy(net) && n < |net.nodes|
    ensures AllTidy(net, {n})
  {
    assert NodeTidy(net, n);
  }

  lemma ConnectTidy(net: Net, net': Net, n: Node, t: TransportId)
    requires Inv(net) && Tidy(net) && Connecting(net, net', n, t)
    ensures Tidy(net')
  {
    ConnectNews(net, net', n, t);
    ServedNews(net, net', n);
    ServerOk(net, n);
    ServerTidy(net, n);
    ConnectPaired(net, net', n, t);
    StepTidy(net, net', n);
  }

  // ---------------------------------------------------------------- any message

  lemma ServeDestroyTidy(net: Net, n: Node, room: Room, gone: set<RouterId>)
    requires Inv(net) && Tidy(net) && Enabled(net, ServeAction(n, gone))
      && Extends(net, ServeDestroy(net, n, room, gone), n)
    requires net.nodes[n].down[net.nodes[n].read] == DestroyRouterGroup(room)
    ensures Tidy(ServeDestroy(net, n, room, gone))
  {
    var net' := ServeDestroy(net, n, room, gone);
    if net.nodes[n].ingress || room !in net.nodes[n].server.rooms {
      DestroyCalm(net, n, room, gone);
      CalmTidy(net, net', n);
    } else {
      DestroyTidy(net, net', n, room, gone);
    }
  }

  lemma ServeRelayTidy(net: Net, n: Node, room: Room, r: RouterId, e: Node)
    requires Inv(net) && Tidy(net) && n < |net.nodes| && net.nodes[n].read < |net.nodes[n].down|
    requires net.nodes[n].down[net.nodes[n].read] == CreateRelayProducer(room, r, e)
    requires Extends(net, ServeRelay(net, n, room, r), n)
    ensures Tidy(ServeRelay(net, n, room, r))
  {
    NextMsgOk(net, n);
    match AnswerOf(net.nodes[n].server, room, r)
    case Answered(q) => AnswerTidy(net, ServeRelay(net, n, room, r), n, room, r, q);
    case _ => UnansweredCalm(net, n, room, r); CalmTidy(net, ServeRelay(net, n, room, r), n);
  }

  lemma ServeConnectTidy(net: Net, n: Node, r: RouterId, q: RouterId, e: Node, remote: TransportId)
    requires Inv(net) && Tidy(net) && n < |net.nodes| && net.nodes[n].read < |net.nodes[n].down|
    requires net.nodes[n].down[net.nodes[n].read] == ConnectPipeRelay(r, q, e, remote)
    requires Extends(net, ServeConnect(net, n, r, e, remote), n)
    ensures Tidy(ServeConnect(net, n, r, e, remote))
  {
    match ConnectTarget(net.nodes[n].server, r, e)
    case None => UnconnectedCalm(net, n, r, e, remote); CalmTidy(net, ServeConnect(net, n, r, e, remote), n);
    case Some(t) =>
      NextMsgOk(net, n);
      ConnectTidy(net, ServeConnect(net, n, r, e, remote), n, t);
  }

  lemma ServeTidy(net: Net, n: Node, gone: set<RouterId>)
    requires Inv(net) && Tidy(net) && Enabled(net, ServeAction(n, gone)) && Disciplined(net, ServeAction(n, gone))
    ensures Tidy(Serve(net, n, gone))
  {
    var net' := Serve(net, n, gone);
    ServeKeeps(net, n, gone);
    match net.nodes[n].down[net.nodes[n].read]
    case CreateRouterGroup(room) => GroupCalm(net, n, room); CalmTidy(net, net', n);
    case CreateWebRTCIngress(peer, room, es) =>
      NextMsgOk(net, n);
      IngressCalm(net, n, peer, room, es);
      CalmTidy(net, net', n);
    case CreateProducer(peer, room, e) => ProducerCalm(net, n, peer, room, e); CalmTidy(net, net', n);
    case DisconnectTransport(peer) => DisconnectCalm(net, n, peer); CalmTidy(net, net', n);
    case DestroyRouterGroup(room) => ServeDestroyTidy(net, n, room, gone);
    case StorePipeRelay(r, e, remote) => StoreCalm(net, n, r, e, remote); CalmTidy(net, net', n);
    case CreateRelayProducer(room, r, e) => ServeRelayTidy(net, n, room, r, e);
    case ConnectPipeRelay(r, q, e, remote) => ServeConnectTidy(net, n, r, q, e, remote);
  }

  // ---------------------------------------------------------------- the signaling server

  /** Nothing that is sent or taken matters to a server whose link does not change. */
  lemma UntoldTidy(net: Net, net': Net, n: Node)
    requires Routed(net, net') && n < |net.nodes| && net'.nodes[n].down == net.nodes[n].down
    ensures NewsTidy(net, net', {n})
  {
    assert Delivered(net.nodes[n], net'.nodes[n]);
  }

  /** One message more on the link to server `n`. */
  lemma ToldTidy(net: Net, net': Net, n: Node, m: Msg)
    requires Routed(net, net') && n < |net.nodes| && net'.nodes[n].down == net.nodes[n].down + [m]
    requires m.CreateRelayProducer? ==> RoomOf(net, m.route, m.room)
    requires m.ConnectPipeRelay? ==>
      Late(net', net'.nodes[n].down, |net.nodes[n].down|) || Good(net, m.route, m.egress, m.remote)
    requires m.DestroyRouterGroup? ==>
      forall j :: 0 <= j < |net.nodes[n].down| && Crossing(net', net'.nodes[n].down, j, |net.nodes[n].down|) ==>
        Closing(net', net.nodes[n].down[j].route)
    ensures NewsTidy(net, net', {n})
  {
    var nd, nd' := net.nodes[n], net'.nodes[n];
    assert Delivered(nd, nd');
    forall r | Told(nd'.down, r, nd'.read) ensures Told(nd.down, r, nd.read) {
      var j :| 0 <= j < nd'.read && j < |nd'.down| && nd'.down[j].StorePipeRelay? && nd'.down[j].route == r;
      assert nd.down[j] == nd'.down[j];
    }
    ToldOrdered(net, net', n, m);
    assert NewAwaited(net, net', n);
  }

  lemma ToldOrdered(net: Net, net': Net, n: Node, m: Msg)
    requires n < |net.nodes| == |net'.nodes| && net'.nodes[n].down == net.nodes[n].down + [m]
    requires m.DestroyRouterGroup? ==>
      forall j :: 0 <= j < |net.nodes[n].down| && Crossing(net', net'.nodes[n].down, j, |net.nodes[n].down|) ==>
        Closing(net', net.nodes[n].down[j].route)
    ensures NewOrdered(net, net', n)
  {
  }

  lemma SendTidy(net: Net, net': Net, n: Node, m: Msg)
    requires Inv(net) && Tidy(net) && Routed(net, net') && n < |net.nodes|
    requires m.CreateRouterGroup? || m.CreateWebRTCIngress? || m.CreateProducer? || m.DisconnectTransport?
    requires net'.nodes == Send(net, n, m).nodes
    ensures Tidy(net')
  {
    RoutedExtends(net, net');
    forall k | 0 <= k < |net.nodes| ensures NewsTidy(net, net', {k}) {
      if k == n {
        ToldTidy(net, net', n, m);
      } else {
        UntoldTidy(net, net', k);
      }
    }
    SamePairs(net, net', 0);
    StepTidy(net, net', 0);
  }

  /** A router whose room is to be destroyed is told so, unless it was before, or is out of reach. */
  lemma CloseCloses(net: Net, net': Net, room: Room, r: RouterId)
    requires TableOk(net) && ToldToDestroy(net, net', room) && Extends(net, net', 0)
    requires Rooted(net, r) && RoomOf(net, r, room)
    ensures Closing(net', r)
  {
    var home := net.h.home[r];
    var log, log' := net.nodes[home.node].down, net'.nodes[home.node].down;
    RootedStays(net, net', 0, r);
    assert Listed(net, home.node, home.born);
    if Destroyed(log, room, home.born, |log|) {
      DestroyedStays(log, log', room, home.born, |log|, |log'|);
    } else if room !in net.h.lost {
      assert log'[|log|] == DestroyRouterGroup(room);
    }
  }

  lemma CloseCrosses(net: Net, net': Net, room: Room, n: Node, j: nat)
    requires HistoryOk(net) && TableOk(net) && ToldToDestroy(net, net', room) && Extends(net, net', 0)
    requires n < |net.nodes| && j < |net.nodes[n].down| < |net'.nodes[n].down| && DownMsgOk(net, n, j)
    requires net'.nodes[n].down == net.nodes[n].down + [DestroyRouterGroup(room)]
    ensures Crossing(net', net'.nodes[n].down, j, |net.nodes[n].down|) ==> Closing(net', net.nodes[n].down[j].route)
  {
    var log, log' := net.nodes[n].down, net'.nodes[n].down;
    if Crossing(net', log', j, |log|) {
      OfferedBelow(net, log[j].route, n, log[j].remote);
      CloseCloses(net, net', room, log[j].route);
    }
  }

  lemma CloseNews(net: Net, net': Net, room: Room, n: Node)
    requires HistoryOk(net) && TableOk(net) && ToldToDestroy(net, net', room)
    requires Routed(net, net') && Extends(net, net', 0) && n < |net.nodes| && DownOk(net, n)
    ensures NewsTidy(net, net', {n})
  {
    if net'.nodes[n].down == net.nodes[n].down {
      UntoldTidy(net, net', n);
    } else {
      forall j | 0 <= j < |net.nodes[n].down|
        ensures Crossing(net', net'.nodes[n].down, j, |net.nodes[n].down|) ==>
          Closing(net', net.nodes[n].down[j].route)
      {
        CloseCrosses(net, net', room, n, j);
      }
      ToldTidy(net, net', n, DestroyRouterGroup(room));
    }
  }

  lemma CloseTidy(net: Net, net': Net, room: Room)
    requires Inv(net) && Tidy(net) && ToldToDestroy(net, net', room)
    ensures Tidy(net')
  {
    CloseKeeps(net, net', room);
    WithinLinks(net);
    CloseRoutes(net, net', room);
    AllDownOk(net);
    forall n | 0 <= n < |net.nodes| ensures NewsTidy(net, net', {n}) {
      CloseNews(net, net', room, n);
    }
    SamePairs(net, net', 0);
    StepTidy(net, net', 0);
  }

  /** What the signaling server drops from its tables leaves everything tidy, and every router of a room
      that is dropped out of reach. */
  lemma DropTidy(net: Net, a: Action)
    requires Inv(net) && Tidy(net) && Enabled(net, a) && Drops(a)
    ensures Tidy(Apply(net, a))
  {
    var net', nobody := Apply(net, a), |net.nodes|;
    WithinLinks(net);
    RestingExtends(net, net', nobody);
    forall n | 0 <= n < |net.nodes| ensures NewsTidy(net, net', {n}) {
      BystanderTidy(net, net', nobody, n);
    }
    SamePairs(net, net', nobody);
    StepTidy(net, net', nobody);
  }

  lemma ForwardNews(net: Net, n: Node, k: Node)
    requires n < |net.nodes| && net.nodes[n].taken < |net.nodes[n].up| && k < |net.nodes|
    requires Routed(net, Forward(net, n)) && Extends(net, Forward(net, n), 0)
    requires UpMsgOk(net, n, net.nodes[n].taken) && DownOk(Forward(net, n), k)
    requires Labelled(net, n) && AnswersLeave(net, n)
    ensures NewsTidy(net, Forward(net, n), {k})
  {
    var net' := Forward(net, n);
    var m := net.nodes[n].up[net.nodes[n].taken];
    if net'.nodes[k].down == net.nodes[k].down {
      UntoldTidy(net, net', k);
    } else {
      assert net'.nodes[k].down == net.nodes[k].down + [m];
      if m.ConnectPipeRelay? {
        assert DownMsgOk(net', k, |net.nodes[k].down|);
        PassedAnswerGood(net, net', n, k, m);
      }
      ToldTidy(net, net', k, m);
    }
  }

  /** An answer reaches the server that owns the router; if the room is closing, after the order
      to destroy it. */
  lemma PassedAnswerGood(net: Net, net': Net, n: Node, k: Node, m: Msg)
    requires Extends(net, net', 0) && k < |net.nodes| && n < |net.nodes| && m.ConnectPipeRelay?
    requires net'.nodes[k].down == net.nodes[k].down + [m] && net'.h == net.h
    requires m.route in net.h.home && net.h.home[m.route].node == k && m.egress == n
    requires Closing(net, m.route) || Good(net, m.route, n, m.remote)
    ensures Late(net', net'.nodes[k].down, |net.nodes[k].down|) || Good(net, m.route, m.egress, m.remote)
  {
    if Closing(net, m.route) {
      var home, log := net.h.home[m.route], net.nodes[k].down;
      DestroyedStays(log, net'.nodes[k].down, home.room, home.born, |log|, |log|);
    }
  }

  lemma ForwardNewsTidy(net: Net, n: Node)
    requires n < |net.nodes| && net.nodes[n].taken < |net.nodes[n].up|
    requires Routed(net, Forward(net, n)) && Extends(net, Forward(net, n), 0)
    requires UpMsgOk(net, n, net.nodes[n].taken) && AllTidy(net, {n})
    requires forall k :: 0 <= k < |net.nodes| ==> DownOk(Forward(net, n), k)
    ensures forall k :: 0 <= k < |net.nodes| ==> NewsTidy(net, Forward(net, n), {k})
  {
    assert n in {n};
    forall k | 0 <= k < |net.nodes| ensures NewsTidy(net, Forward(net, n), {k}) {
      ForwardNews(net, n, k);
    }
  }

  lemma ForwardTidy(net: Net, n: Node)
    requires Inv(net) && Tidy(net) && Enabled(net, ForwardAction(n))
    ensures Tidy(Forward(net, n))
  {
    var net' := Forward(net, n);
    ForwardKeeps(net, n);
    NextUpOk(net, n);
    ForwardRoutes(net, n);
    AllDownOk(net');
    ServerTidy(net, n);
    ForwardNewsTidy(net, n);
    SamePairs(net, net', 0);
    StepTidy(net, net', 0);
  }

  // ---------------------------------------------------------------- a router is lost

  lemma RouterGoneRelayed(net: Net, n: Node, q: RouterId, t: TransportId)
    requires HistoryOk(net) && Enabled(net, RouterGoneAction(n, q, t))
    ensures NewRelayed(net, RouterGone(net, n, q, t), n)
  {
    var rs, rs' := net.nodes[n].server.relays, RouterGone(net, n, q, t).nodes[n].server.relays;
    forall k | k in net.h.first && k.1 == n && OfRouter(rs', k.0) == [] ensures OfRouter(rs, k.0) == [] {
      assert IngressRouter(net, net.h.answered[net.h.first[k]].0);
      OfRouterStays(rs, rs', k.0);
    }
  }

  lemma RouterGoneTidy(net: Net, n: Node, q: RouterId, t: TransportId)
    requires Inv(net) && Tidy(net) && Enabled(net, RouterGoneAction(n, q, t))
    ensures Tidy(RouterGone(net, n, q, t))
  {
    var net' := RouterGone(net, n, q, t);
    RouterGoneKeeps(net, n, q, t);
    RouterGoneRelayed(net, n, q, t);
    RouterGoneNews(net, n, q, t);
    ServedNews(net, net', n);
    SamePairs(net, net', n);
    StepTidy(net, net', n);
  }

  lemma RouterGoneNews(net: Net, n: Node, q: RouterId, t: TransportId)
    requires n < |net.nodes| && NewRelayed(net, RouterGone(net, n, q, t), n)
    ensures NewsTidy(net, RouterGone(net, n, q, t), {n})
  {
  }

  // ---------------------------------------------------------------- every action, and whole runs

  lemma ActionTidy(net: Net, a: Action)
    requires Inv(net) && Tidy(net) && Enabled(net, a) && Disciplined(net, a)
    ensures Tidy(Apply(net, a))
  {
    WithinLinks(net);
    match a
    case JoinAction(room, n) =>
      SendRoutes(net, n, CreateRouterGroup(room));
      assert Routed(net, RequestJoin(net, room, n));
      SendTidy(net, RequestJoin(net, room, n), n, CreateRouterGroup(room));
    case ApiAction(n, m) =>
      SendRoutes(net, n, m);
      SendTidy(net, Send(net, n, m), n, m);
    case CloseAction(room) => CloseTidy(net, CloseRoom(net, room), room);
    case DestroyAction(room) => CloseTidy(net, DestroyRoom(net, room), room);
    case DropAction(_) => DropTidy(net, a);
    case UnpipeAction(_, _) => DropTidy(net, a);
    case SweepAction(_) => DropTidy(net, a);
    case ServeAction(n, gone) => ServeTidy(net, n, gone);
    case ForwardAction(n) => ForwardTidy(net, n);
    case RouterGoneAction(n, q, t) => RouterGoneTidy(net, n, q, t);
  }

  ghost predicate DisciplinedRun(trace: seq<Net>, actions: seq<Action>) {
    Run(trace, actions) && forall k :: 0 <= k < |actions| ==> Disciplined(trace[k], actions[k])
  }

  lemma {:induction false} RunTidy(trace: seq<Net>, actions: seq<Action>, k: nat)
    requires DisciplinedRun(trace, actions) && k < |trace|
    ensures Tidy(trace[k])
  {
    if k == 0 {
      assert forall n :: 0 <= n < |trace[0].nodes| ==> trace[0].nodes[n].server == Fresh;
    } else {
      RunTidy(trace, actions, k - 1);
      RunKeeps(trace, actions, k - 1);
      ActionTidy(trace[k - 1], actions[k - 1]);
      assert trace[(k - 1) + 1] == Apply(trace[k - 1], actions[k - 1]);
    }
  }

  // ---------------------------------------------------------------- the two ends match

  /** Whatever clients ask for: each pipe that is connected is connected to a pipe made for it. */
  lemma EndsWereMadeForEachOther(trace: seq<Net>, actions: seq<Action>, k: nat, c: Connect)
    requires Run(trace, actions) && k < |trace| && c in trace[k].h.connects
    ensures c.node < |trace[k].nodes|
    ensures trace[k].nodes[c.node].ingress ==>
      && c.remote in trace[k].h.answered
      && var (r, e) := trace[k].h.answered[c.remote];
      && (r, e) in trace[k].h.offered && trace[k].h.offered[(r, e)] == c.transport
      && r in trace[k].h.home && trace[k].h.home[r].node == c.node
    ensures !trace[k].nodes[c.node].ingress ==>
      && c.transport in trace[k].h.answered
      && var (r, e) := trace[k].h.answered[c.transport];
      && e == c.node && (r, e) in trace[k].h.offered && trace[k].h.offered[(r, e)] == c.remote
  {
    RunKeeps(trace, actions, k);
    var i :| 0 <= i < |trace[k].h.connects| && trace[k].h.connects[i] == c;
    assert ConnectOk(trace[k], trace[k].h.connects[i]);
  }

  /** Whatever clients ask for: an answer is delivered to the server that owns the router only. */
  lemma AnswersReachTheOwner(trace: seq<Net>, actions: seq<Action>, k: nat, n: Node, m: Msg)
    requires Run(trace, actions) && k < |trace| && n < |trace[k].nodes| && m in trace[k].nodes[n].down
      && m.ConnectPipeRelay?
    ensures trace[k].nodes[n].ingress && m.route in trace[k].h.home && trace[k].h.home[m.route].node == n
  {
    RunKeeps(trace, actions, k);
    var j :| 0 <= j < |trace[k].nodes[n].down| && trace[k].nodes[n].down[j] == m;
    assert NodeOk(trace[k], n) && DownMsgOk(trace[k], n, j);
  }

  /** The pipe is one of an ingress server, made for a room that was once dropped with nobody told. */
  ghost predicate OutOfReach(net: Net, c: Connect) {
    ByIngress(net, c) && c.remote in net.h.answered && Abandoned(net, net.h.answered[c.remote].0)
  }

  /** In disciplined runs a connected ingress pipe and the egress pipe it is connected to are each
      other's remote end, in every room that was never dropped with nobody told. */
  lemma HandshakeAgreement(trace: seq<Net>, actions: seq<Action>, k: nat, c: Connect)
    requires DisciplinedRun(trace, actions) && k < |trace|
    requires c in trace[k].h.connects && c.node < |trace[k].nodes| && trace[k].nodes[c.node].ingress
    requires !OutOfReach(trace[k], c)
    ensures c.remote in trace[k].h.answered
    ensures Connect(trace[k].h.answered[c.remote].1, c.remote, c.transport) in trace[k].h.connects
  {
    EndsWereMadeForEachOther(trace, actions, k, c);
    RunTidy(trace, actions, k);
    var i :| 0 <= i < |trace[k].h.connects| && trace[k].h.connects[i] == c;
    assert PairOk(trace[k], trace[k].h.connects[i]);
  }

  /** In disciplined runs every pipe transport is connected at most once, on either side, in every room
      that was never dropped with nobody told. */
  lemma ConnectAtMostOnce(trace: seq<Net>, actions: seq<Action>, k: nat, i: nat, j: nat)
    requires DisciplinedRun(trace, actions) && k < |trace| && i < j < |trace[k].h.connects|
    requires !OutOfReach(trace[k], trace[k].h.connects[i])
    ensures trace[k].h.connects[i].transport != trace[k].h.connects[j].transport
  {
    var net := trace[k];
    var c, d := net.h.connects[i], net.h.connects[j];
    RunKeeps(trace, actions, k);
    RunTidy(trace, actions, k);
    OnceByState(net, i, j);
  }

  lemma OnceByState(net: Net, i: nat, j: nat)
    requires HistoryOk(net) && ConnectsOk(net) && Paired(net) && i < j < |net.h.connects|
    requires !OutOfReach(net, net.h.connects[i])
    ensures net.h.connects[i].transport != net.h.connects[j].transport
  {
    var c, d := net.h.connects[i], net.h.connects[j];
    assert ConnectOk(net, c) && ConnectOk(net, d) && PairOk(net, c) && PairOk(net, d);
  }
}
