/** Every action of the handshake keeps its invariant. */
module HandshakeSteps {
  import opened Sfu
  import opened Handshake
  import opened HandshakeInvariant
  import Rooms

  // ---------------------------------------------------------------- a media server handles a message

  /** `net'` is `net` after server `n` read one message and perhaps sent some. */
  ghost predicate Handled(net: Net, net': Net, n: Node) {
    && n < |net.nodes| && net.nodes[n].read < |net.nodes[n].down|
    && Extends(net, net', n)
    && net'.rooms == net.rooms && net'.table == net.table && net'.pipes == net.pipes
    && (forall m :: 0 <= m < |net.nodes| && m != n ==> net'.nodes[m] == net.nodes[m])
    && net'.nodes[n].down == net.nodes[n].down
    && net'.nodes[n].read == net.nodes[n].read + 1
    && net'.nodes[n].taken == net.nodes[n].taken
    && net'.nodes[n].workers == net.nodes[n].workers
  }

  lemma WithinLinks(net: Net)
    requires Inv(net)
    ensures Linked(net)
  {
    forall m | 0 <= m < |net.nodes|
      ensures net.nodes[m].read <= |net.nodes[m].down| && net.nodes[m].taken <= |net.nodes[m].up|
    {
      assert NodeOk(net, m);
    }
  }

  lemma HandledKeeps(net: Net, net': Net, n: Node)
    requires Inv(net) && Settled(net, net', n)
    ensures Inv(net')
  {
    forall m | 0 <= m < |net'.nodes| ensures NodeOk(net', m) {
      assert NodeOk(net, m);
      if m != n {
        BystanderKeeps(net, net', n, m);
        assert m in {m};
      } else {
        assert n in {n};
      }
    }
    forall p | p in net'.pipes
      ensures p.ingress < |net'.nodes| && net'.nodes[p.ingress].ingress
      ensures p.route in net'.h.home && net'.h.home[p.route].node == p.ingress
    {
      assert NodeExtends(net.nodes[p.ingress], net'.nodes[p.ingress]);
    }
    forall m, c | 0 <= m < |net'.nodes| && 0 <= c < |net'.nodes[m].down| ensures Listed(net', m, c) {
      assert net'.nodes[m].down == net.nodes[m].down;
      assert Listed(net, m, c);
    }
  }

  lemma ActorLinksKeep(net: Net, net': Net, n: Node)
    requires Handled(net, net', n) && DownOk(net, n) && UpOk(net, n)
    requires forall j :: |net.nodes[n].up| <= j < |net'.nodes[n].up| ==> UpMsgOk(net', n, j)
    requires DistinctAnswers(net'.nodes[n].up)
    ensures DownOk(net', n) && UpOk(net', n)
  {
    forall j | 0 <= j < |net'.nodes[n].down| ensures DownMsgOk(net', n, j) {
      DownMsgStays(net, net', n, n, j);
    }
    forall j | 0 <= j < |net'.nodes[n].up| ensures UpMsgOk(net', n, j) {
      if j < |net.nodes[n].up| {
        UpMsgStays(net, net', n, n, j);
      }
    }
  }

  lemma SameConnects(net: Net, net': Net, n: Node)
    requires ConnectsOk(net) && Extends(net, net', n) && net'.h.connects == net.h.connects
    ensures ConnectsOk(net')
  {
    forall i | 0 <= i < |net'.h.connects| ensures ConnectOk(net', net'.h.connects[i]) {
      ConnectStays(net, net', n, net.h.connects[i]);
    }
    forall i | 0 <= i < |net.h.connects|
      ensures net'.nodes[net.h.connects[i].node].ingress == net.nodes[net.h.connects[i].node].ingress
    {
      assert NodeExtends(net.nodes[net.h.connects[i].node], net'.nodes[net.h.connects[i].node]);
    }
  }

  lemma SameHistory(net: Net, net': Net, n: Node)
    requires HistoryOk(net) && Extends(net, net', n)
    requires net'.h.home == net.h.home && net'.h.offered == net.h.offered
    requires net'.h.answered == net.h.answered && net'.h.first == net.h.first
    ensures HistoryOk(net')
  {
    forall r | r in net'.h.home ensures Rooted(net', r) && (IngressRouter(net, r) ==> IngressRouter(net', r)) {
      RootedStays(net, net', n, r);
    }
    forall k | k in net'.h.offered ensures IngressRouter(net', k.0) {
      assert IngressRouter(net, k.0);
    }
    forall u | u in net'.h.answered ensures IngressRouter(net', net'.h.answered[u].0) {
      assert IngressRouter(net, net.h.answered[u].0);
    }
  }

  lemma DestroyedNext(log: seq<Msg>, room: Room, from: nat, read: nat)
    requires read < |log| && log[read] != DestroyRouterGroup(room)
    ensures Destroyed(log, room, from, read + 1) ==> Destroyed(log, room, from, read)
  {
  }

  lemma AdvancedGroups(net: Net, net': Net, n: Node)
    requires n < |net.nodes| && n < |net'.nodes| && GroupsAtHome(net, n)
    requires Extended(net.h.home, net'.h.home)
    requires net.nodes[n].read < |net.nodes[n].down|
    requires net'.nodes[n].down == net.nodes[n].down && net'.nodes[n].read == net.nodes[n].read + 1
    requires net'.nodes[n].taken <= |net'.nodes[n].up|
    requires forall m :: m in net'.nodes[n].server.rooms ==>
      m in net.nodes[n].server.rooms && net'.nodes[n].server.rooms[m] == net.nodes[n].server.rooms[m]
    requires forall m :: m in net'.nodes[n].server.rooms ==>
      net.nodes[n].down[net.nodes[n].read] != DestroyRouterGroup(m)
    requires net'.nodes[n].server.routers <= net.nodes[n].server.routers
    ensures GroupsAtHome(net', n)
  {
    var nd, nd' := net.nodes[n], net'.nodes[n];
    forall m, q | m in nd'.server.rooms && q in nd'.server.rooms[m]
      ensures q in net'.h.home && net'.h.home[q].node == n && net'.h.home[q].room == m
      ensures !Destroyed(nd'.down, m, net'.h.home[q].born, nd'.read)
    {
      DestroyedNext(nd.down, m, net.h.home[q].born, nd.read);
    }
  }

  lemma ToldNext(net: Net, net': Net, n: Node)
    requires n < |net.nodes| && n < |net'.nodes| && EgressOk(net, n)
    requires net'.nodes[n].down == net.nodes[n].down && net'.nodes[n].read == net.nodes[n].read + 1
    ensures !net.nodes[n].ingress ==>
      forall k :: k in net.h.first && k.1 == n ==> Told(net'.nodes[n].down, k.0, net'.nodes[n].read)
  {
    if !net.nodes[n].ingress {
      forall k | k in net.h.first && k.1 == n ensures Told(net'.nodes[n].down, k.0, net'.nodes[n].read) {
        ToldStays(net.nodes[n].down, net'.nodes[n].down, k.0, net.nodes[n].read, net'.nodes[n].read);
      }
    }
  }

  /** The parts that a handler has to establish about its own server and the history. */
  ghost predicate Settled(net: Net, net': Net, n: Node) {
    && Handled(net, net', n)
    && HistoryOk(net') && ConnectsOk(net')
    && AllOk(net', {n})
  }

  ghost predicate Linked(net: Net) {
    forall m :: 0 <= m < |net.nodes| ==>
      net.nodes[m].read <= |net.nodes[m].down| && net.nodes[m].taken <= |net.nodes[m].up|
  }

  /** The message is read and nothing but the routes of the peers changes. */
  ghost predicate Quiet(net: Net, net': Net, n: Node) {
    && n < |net.nodes| == |net'.nodes| && net.nodes[n].read < |net.nodes[n].down|
    && var nd, nd' := net.nodes[n], net'.nodes[n];
    && nd' == Advance(nd).(routes := nd'.routes)
    && (forall p :: p in nd'.routes ==> p in nd.routes && nd'.routes[p] == nd.routes[p])
    && net' == net.(nodes := net.nodes[n := nd'])
    && (forall m :: m in nd.server.rooms ==> nd.down[nd.read] != DestroyRouterGroup(m))
  }

  lemma QuietSides(net: Net, net': Net, n: Node)
    requires Quiet(net, net', n) && IngressOk(net, n) && EgressOk(net, n)
    ensures IngressOk(net', n) && EgressOk(net', n)
  {
    ToldNext(net, net', n);
  }

  lemma QuietNode(net: Net, net': Net, n: Node)
    requires Quiet(net, net', n) && Handled(net, net', n) && AllOk(net, {n})
    ensures AllOk(net', {n})
  {
    assert n in {n};
    AdvancedGroups(net, net', n);
    QuietSides(net, net', n);
    ActorLinksKeep(net, net', n);
    Assemble(net', n);
  }

  lemma QuietHandled(net: Net, net': Net, n: Node)
    requires Quiet(net, net', n) && Linked(net)
    ensures Handled(net, net', n)
  {
  }

  /** A handler that leaves the history alone only has to see to its own server. */
  lemma SameHistorySettles(net: Net, net': Net, n: Node)
    requires Handled(net, net', n) && net'.h == net.h && HistoryOk(net) && ConnectsOk(net)
    requires AllOk(net', {n})
    ensures Settled(net, net', n)
  {
    SameHistory(net, net', n);
    SameConnects(net, net', n);
  }

  lemma NextMsgOk(net: Net, n: Node)
    requires Inv(net) && n < |net.nodes| && net.nodes[n].read < |net.nodes[n].down|
    ensures DownMsgOk(net, n, net.nodes[n].read)
    ensures Linked(net) && AllOk(net, {n})
  {
    WithinLinks(net);
    assert NodeOk(net, n);
  }

  lemma QuietKeeps(net: Net, net': Net, n: Node)
    requires Inv(net) && Quiet(net, net', n)
    ensures Inv(net') && Extends(net, net', n)
  {
    NextMsgOk(net, n);
    QuietHandled(net, net', n);
    QuietNode(net, net', n);
    SameHistorySettles(net, net', n);
    HandledKeeps(net, net', n);
  }

  // ---------------------------------------------------------------- storePipeRelay

  lemma OfferedBelow(net: Net, r: RouterId, e: Node, t: TransportId)
    requires HistoryOk(net) && Offered(net, r, e, t)
    ensures IngressRouter(net, r) && r < net.next && t < net.next
  {
    assert IngressRouter(net, (r, e).0);
  }

  lemma StoreSides(net: Net, net': Net, n: Node, r: RouterId, remote: TransportId)
    requires n < |net.nodes| && net.nodes[n].read < |net.nodes[n].down|
    requires !net.nodes[n].ingress && EgressOk(net, n) && Offered(net, r, n, remote)
    requires net' == ServeStore(net, n, r, remote)
    ensures IngressOk(net', n) && EgressOk(net', n)
  {
    ToldNext(net, net', n);
  }

  lemma StoreNode(net: Net, net': Net, n: Node, r: RouterId, remote: TransportId)
    requires n < |net.nodes| && AllOk(net, {n}) && Handled(net, net', n)
    requires !net.nodes[n].ingress && Offered(net, r, n, remote) && HistoryOk(net)
    requires net.nodes[n].down[net.nodes[n].read].StorePipeRelay?
    requires net' == ServeStore(net, n, r, remote)
    ensures AllOk(net', {n})
  {
    assert n in {n};
    OfferedBelow(net, r, n, remote);
    Rooms.StoreKeeps(net.nodes[n].server, r, remote, net.next);
    AdvancedGroups(net, net', n);
    StoreSides(net, net', n, r, remote);
    ActorLinksKeep(net, net', n);
    Assemble(net', n);
  }

  lemma StoreHandled(net: Net, n: Node, r: RouterId, remote: TransportId)
    requires n < |net.nodes| && net.nodes[n].read < |net.nodes[n].down| && Linked(net)
    ensures Handled(net, ServeStore(net, n, r, remote), n)
  {
  }

  lemma StoreKeeps(net: Net, n: Node, r: RouterId, e: Node, remote: TransportId)
    requires Inv(net) && n < |net.nodes| && net.nodes[n].read < |net.nodes[n].down|
    requires net.nodes[n].down[net.nodes[n].read] == StorePipeRelay(r, e, remote)
    ensures Inv(ServeStore(net, n, r, remote)) && Extends(net, ServeStore(net, n, r, remote), n)
  {
    NextMsgOk(net, n);
    StoreHandled(net, n, r, remote);
    StoreNode(net, ServeStore(net, n, r, remote), n, r, remote);
    SameHistorySettles(net, ServeStore(net, n, r, remote), n);
    HandledKeeps(net, ServeStore(net, n, r, remote), n);
  }

  // ---------------------------------------------------------------- createMediaProducer, createDataProducer

  lemma ProducerSides(net: Net, net': Net, n: Node, peer: Peer, room: Room, e: Node)
    requires n < |net.nodes| && net.nodes[n].read < |net.nodes[n].down|
    requires net.nodes[n].ingress && IngressOk(net, n)
    requires net' == ServeProducer(net, n, peer, room, e)
    ensures IngressOk(net', n) && EgressOk(net', n)
  {
    var r := if peer in net.nodes[n].routes then net.nodes[n].routes[peer] else 0;
    var up, up' := net.nodes[n].up, net'.nodes[n].up;
    assert up' == up || up' == up + [CreateRelayProducer(room, r, e)];
    SaidMore(net, net', n);
  }

  /** A server that only reads on and sends more is in order still. */
  lemma SaidMore(net: Net, net': Net, n: Node)
    requires n < |net.nodes| == |net'.nodes| && net.nodes[n].ingress && IngressOk(net, n) && net'.h == net.h
    requires net'.nodes[n].ingress && net'.nodes[n].server == net.nodes[n].server
    requires net'.nodes[n].routes == net.nodes[n].routes && net.nodes[n].up <= net'.nodes[n].up
    ensures IngressOk(net', n) && EgressOk(net', n)
  {
    assert forall m :: m in net.nodes[n].up ==> m in net'.nodes[n].up;
  }

  lemma DistinctWith(log: seq<Msg>, m: Msg)
    requires DistinctAnswers(log)
    requires m.ConnectPipeRelay? ==> forall j :: 0 <= j < |log| && log[j].ConnectPipeRelay? ==>
      log[j].remote != m.remote
    ensures DistinctAnswers(log + [m])
  {
  }

  lemma ProducerLinks(net: Net, net': Net, n: Node, peer: Peer, room: Room, e: Node)
    requires n < |net.nodes| && net.nodes[n].read < |net.nodes[n].down|
    requires net.nodes[n].ingress && IngressOk(net, n)
    requires net' == ServeProducer(net, n, peer, room, e)
    ensures forall j :: |net.nodes[n].up| <= j < |net'.nodes[n].up| ==> UpMsgOk(net', n, j)
    ensures DistinctAnswers(net.nodes[n].up) ==> DistinctAnswers(net'.nodes[n].up)
  {
    var nd, nd' := net.nodes[n], net'.nodes[n];
    if |nd'.up| > |nd.up| {
      var r := nd.routes[peer];
      assert nd'.up == nd.up + [CreateRelayProducer(room, r, e)];
      var k := RelayWasOffered(net, n, r, e);
      assert nd'.up[k] == nd.up[k];
      if DistinctAnswers(nd.up) {
        DistinctWith(nd.up, CreateRelayProducer(room, r, e));
      }
    }
  }

  /** What an ingress server has a relay for it has offered. */
  lemma RelayWasOffered(net: Net, n: Node, r: RouterId, e: Node) returns (k: nat)
    requires n < |net.nodes| && net.nodes[n].ingress && IngressOk(net, n)
    requires OfPair(net.nodes[n].server.relays, r, e) != []
    ensures k < |net.nodes[n].up|
    ensures var m := net.nodes[n].up[k]; m.StorePipeRelay? && m.route == r && m.egress == e
  {
    var nd := net.nodes[n];
    var x := OfPair(nd.server.relays, r, e)[0];
    assert x in OfPair(nd.server.relays, r, e);
    assert Offered(net, r, e, x.transport);
    k :| 0 <= k < |nd.up| && nd.up[k] == StorePipeRelay(r, e, net.h.offered[(r, e)]);
  }

  lemma ProducerNode(net: Net, net': Net, n: Node, peer: Peer, room: Room, e: Node)
    requires n < |net.nodes| && AllOk(net, {n}) && Handled(net, net', n)
    requires net.nodes[n].ingress && net.nodes[n].down[net.nodes[n].read].CreateProducer?
    requires net' == ServeProducer(net, n, peer, room, e)
    ensures AllOk(net', {n})
  {
    assert n in {n};
    AdvancedGroups(net, net', n);
    ProducerSides(net, net', n, peer, room, e);
    ProducerLinks(net, net', n, peer, room, e);
    ActorLinksKeep(net, net', n);
    Assemble(net', n);
  }

  lemma ProducerHandled(net: Net, n: Node, peer: Peer, room: Room, e: Node)
    requires n < |net.nodes| && net.nodes[n].read < |net.nodes[n].down| && Linked(net)
    ensures Handled(net, ServeProducer(net, n, peer, room, e), n)
  {
  }

  lemma ProducerKeeps(net: Net, n: Node, peer: Peer, room: Room, e: Node)
    requires Inv(net) && n < |net.nodes| && net.nodes[n].read < |net.nodes[n].down|
    requires net.nodes[n].down[net.nodes[n].read] == CreateProducer(peer, room, e)
    ensures Inv(ServeProducer(net, n, peer, room, e)) && Extends(net, ServeProducer(net, n, peer, room, e), n)
  {
    NextMsgOk(net, n);
    ProducerHandled(net, n, peer, room, e);
    ProducerNode(net, ServeProducer(net, n, peer, room, e), n, peer, room, e);
    SameHistorySettles(net, ServeProducer(net, n, peer, room, e), n);
    HandledKeeps(net, ServeProducer(net, n, peer, room, e), n);
  }

  // ---------------------------------------------------------------- destroyRouterGroup

  lemma DestroySides(net: Net, net': Net, n: Node, room: Room, gone: set<RouterId>)
    requires n < |net.nodes| && Valid(net.nodes[n].server) && IngressOk(net, n) && EgressOk(net, n)
    requires net.nodes[n].read < |net.nodes[n].down| && room in net.nodes[n].server.rooms
    requires net' == ServeDestroy(net, n, room, gone)
    ensures IngressOk(net', n) && EgressOk(net', n)
  {
    var s, s' := net.nodes[n].server, net'.nodes[n].server;
    ToldNext(net, net', n);
    if net.nodes[n].ingress {
      forall k | k in net.h.offered && k.0 in net.h.home && net.h.home[k.0].node == n && k.0 in s'.routers
        ensures OfPair(s'.relays, k.0, k.1) != []
      {
        var x := OfPair(s.relays, k.0, k.1)[0];
        assert x in OfPair(s.relays, k.0, k.1);
        assert x in s'.relays;
        assert x in OfPair(s'.relays, k.0, k.1);
      }
    }
  }

  lemma DestroyNode(net: Net, net': Net, n: Node, room: Room, gone: set<RouterId>)
    requires n < |net.nodes| && AllOk(net, {n}) && Handled(net, net', n)
    requires room in net.nodes[n].server.rooms
    requires net.nodes[n].down[net.nodes[n].read] == DestroyRouterGroup(room)
    requires OnePerRouter(net.nodes[n].server.relayRouters, Elems(net.nodes[n].server.rooms[room]), gone)
    requires net' == ServeDestroy(net, n, room, gone)
    ensures AllOk(net', {n})
  {
    assert n in {n};
    Rooms.TeardownKeeps(net.nodes[n].server, room, gone, net.next);
    AdvancedGroups(net, net', n);
    DestroySides(net, net', n, room, gone);
    ActorLinksKeep(net, net', n);
    Assemble(net', n);
  }

  lemma DestroyHandled(net: Net, n: Node, room: Room, gone: set<RouterId>)
    requires n < |net.nodes| && net.nodes[n].read < |net.nodes[n].down| && Linked(net)
    ensures Handled(net, ServeDestroy(net, n, room, gone), n)
  {
  }

  lemma DestroyKeeps(net: Net, n: Node, room: Room, gone: set<RouterId>)
    requires Inv(net) && Enabled(net, ServeAction(n, gone))
    requires net.nodes[n].down[net.nodes[n].read] == DestroyRouterGroup(room)
    ensures Inv(ServeDestroy(net, n, room, gone)) && Extends(net, ServeDestroy(net, n, room, gone), n)
  {
    if room !in net.nodes[n].server.rooms {
      QuietKeeps(net, ServeDestroy(net, n, room, gone), n);
    } else {
      NextMsgOk(net, n);
      DestroyHandled(net, n, room, gone);
      DestroyNode(net, ServeDestroy(net, n, room, gone), n, room, gone);
      SameHistorySettles(net, ServeDestroy(net, n, room, gone), n);
      HandledKeeps(net, ServeDestroy(net, n, room, gone), n);
    }
  }

  // ---------------------------------------------------------------- createRouterGroup

  ghost predicate NewGroup(net: Net, net': Net, n: Node, room: Room, ids: seq<RouterId>) {
    && n < |net.nodes| && net.nodes[n].read < |net.nodes[n].down|
    && var nd := net.nodes[n];
    && nd.down[nd.read] == CreateRouterGroup(room)
    && room !in nd.server.rooms && ids != []
    && ids == NewRouters(net.next, |nd.workers|)
    && net' == ServeGroup(net, n, room)
  }

  lemma GroupHandled(net: Net, net': Net, n: Node, room: Room, ids: seq<RouterId>)
    requires NewGroup(net, net', n, room, ids) && Linked(net)
    ensures Handled(net, net', n)
  {
  }

  lemma GroupHistory(net: Net, net': Net, n: Node, room: Room, ids: seq<RouterId>)
    requires NewGroup(net, net', n, room, ids) && Handled(net, net', n) && HistoryOk(net)
    ensures HistoryOk(net')
  {
    forall r | r in net'.h.home ensures Rooted(net', r) && (IngressRouter(net, r) ==> IngressRouter(net', r)) {
      if r in net.h.home {
        RootedStays(net, net', n, r);
      } else {
        assert r in ids;
      }
    }
    forall k | k in net'.h.offered ensures IngressRouter(net', k.0) {
      assert IngressRouter(net, k.0);
    }
    forall u | u in net'.h.answered ensures IngressRouter(net', net'.h.answered[u].0) {
      assert IngressRouter(net, net.h.answered[u].0);
    }
  }

  lemma GroupHomes(net: Net, net': Net, n: Node, room: Room, ids: seq<RouterId>)
    requires NewGroup(net, net', n, room, ids) && GroupsAtHome(net, n)
    requires forall r :: r in net.h.home ==> r < net.next
    ensures GroupsAtHome(net', n)
  {
    var nd, nd' := net.nodes[n], net'.nodes[n];
    forall m, q | m in nd'.server.rooms && q in nd'.server.rooms[m]
      ensures q in net'.h.home && net'.h.home[q].node == n && net'.h.home[q].room == m
      ensures !Destroyed(nd'.down, m, net'.h.home[q].born, nd'.read)
    {
      if m == room {
        assert q in ids && q !in net.h.home;
      } else {
        DestroyedNext(nd.down, m, net.h.home[q].born, nd.read);
      }
    }
  }

  lemma GroupSides(net: Net, net': Net, n: Node, room: Room, ids: seq<RouterId>)
    requires NewGroup(net, net', n, room, ids) && IngressOk(net, n) && EgressOk(net, n)
    requires forall k :: k in net.h.offered ==> k.0 in net.h.home && k.0 < net.next
    ensures IngressOk(net', n) && EgressOk(net', n)
  {
    ToldNext(net, net', n);
  }

  lemma GroupTables(net: Net, net': Net, n: Node, room: Room, ids: seq<RouterId>)
    requires NewGroup(net, net', n, room, ids) && TablesOk(net, n)
    ensures TablesOk(net', n)
  {
    Rooms.CreateGroupKeeps(net.nodes[n].server, room, ids, net.nodes[n].workers, net.next);
  }

  lemma GroupNode(net: Net, net': Net, n: Node, room: Room, ids: seq<RouterId>)
    requires NewGroup(net, net', n, room, ids) && Handled(net, net', n)
    requires AllOk(net, {n})
    requires forall r :: r in net.h.home ==> r < net.next
    requires forall k :: k in net.h.offered ==> k.0 in net.h.home
    ensures AllOk(net', {n})
  {
    assert n in {n};
    GroupTables(net, net', n, room, ids);
    GroupHomes(net, net', n, room, ids);
    GroupSides(net, net', n, room, ids);
    ActorLinksKeep(net, net', n);
    Assemble(net', n);
  }

  lemma HomesBelow(net: Net)
    requires HistoryOk(net)
    ensures forall r :: r in net.h.home ==> r < net.next
    ensures forall k :: k in net.h.offered ==> k.0 in net.h.home
  {
    forall k | k in net.h.offered ensures k.0 in net.h.home {
      assert IngressRouter(net, k.0);
    }
  }

  lemma GroupSettles(net: Net, net': Net, n: Node, room: Room, ids: seq<RouterId>)
    requires NewGroup(net, net', n, room, ids) && Handled(net, net', n)
    requires HistoryOk(net) && ConnectsOk(net) && AllOk(net', {n})
    ensures Settled(net, net', n)
  {
    GroupHistory(net, net', n, room, ids);
    SameConnects(net, net', n);
  }

  lemma GroupKeeps(net: Net, n: Node, room: Room)
    requires Inv(net) && n < |net.nodes| && net.nodes[n].read < |net.nodes[n].down|
    requires net.nodes[n].down[net.nodes[n].read] == CreateRouterGroup(room)
    ensures Inv(ServeGroup(net, n, room)) && Extends(net, ServeGroup(net, n, room), n)
  {
    var net' := ServeGroup(net, n, room);
    if room in net.nodes[n].server.rooms || net.nodes[n].workers == [] {
      QuietKeeps(net, net', n);
    } else {
      var ids := NewRouters(net.next, |net.nodes[n].workers|);
      NextMsgOk(net, n);
      HomesBelow(net);
      GroupHandled(net, net', n, room, ids);
      GroupNode(net, net', n, room, ids);
      GroupSettles(net, net', n, room, ids);
      HandledKeeps(net, net', n);
    }
  }

  // ---------------------------------------------------------------- createWebRTCIngress

  lemma {:induction false} RecordsOffers(offered: map<(RouterId, Node), TransportId>, r: RouterId, offers: seq<Offer>)
    requires forall j, k :: 0 <= j < k < |offers| ==> offers[j].egress != offers[k].egress
    ensures var m := RecordOffers(offered, r, offers);
      && (forall o :: o in offers ==> (r, o.egress) in m && m[(r, o.egress)] == o.transport)
      && (forall e :: e in offered ==> e in m && (m[e] == offered[e] || (e.0 == r && Offer(e.1, m[e]) in offers)))
      && (forall e :: e in m ==> e in offered || (e.0 == r && Offer(e.1, m[e]) in offers))
    decreases |offers|
  {
    if offers != [] {
      var n := |offers| - 1;
      RecordsOffers(offered, r, offers[..n]);
      assert offers == offers[..n] + [offers[n]];
    }
  }

  /** Reading a transport request made offers from router `r`. */
  ghost predicate NewOffers(net: Net, net': Net, n: Node, peer: Peer, room: Room, es: seq<Option<Node>>,
                            r: RouterId, offers: seq<Offer>) {
    && n < |net.nodes| && net.nodes[n].read < |net.nodes[n].down|
    && var nd := net.nodes[n];
    && nd.down[nd.read] == CreateWebRTCIngress(peer, room, es)
    && nd.ingress
    && Selected(nd.server, room) == Some(r) && r in nd.server.routers
    && offers == OfferAll(AfterSelect(nd.server, room), r, room, es, net.next).1
    && net' == ServeIngress(net, n, peer, room, es)
  }

  /** What the rest needs to know about those offers. */
  ghost predicate OffersNew(net: Net, net': Net, r: RouterId, offers: seq<Offer>) {
    && (forall k :: 0 <= k < |offers| ==>
          && offers[k].transport == net.next + k
          && (r, offers[k].egress) !in net.h.offered
          && Offered(net', r, offers[k].egress, offers[k].transport))
    && (forall k :: k in net.h.offered ==> k in net'.h.offered && net'.h.offered[k] == net.h.offered[k])
    && (forall k :: k in net'.h.offered ==>
          k in net.h.offered || (k.0 == r && Offer(k.1, net'.h.offered[k]) in offers))
    && net'.next == net.next + |offers|
  }

  lemma OffersAreNew(net: Net, net': Net, n: Node, peer: Peer, room: Room, es: seq<Option<Node>>, r: RouterId,
      offers: seq<Offer>)
    requires NewOffers(net, net', n, peer, room, es, r, offers) && IngressOk(net, n)
    requires r in net.h.home && net.h.home[r].node == n
    ensures OffersNew(net, net', r, offers)
  {
    var s1 := AfterSelect(net.nodes[n].server, room);
    Rooms.OfferAllOnce(s1, r, room, es, net.next);
    RecordsOffers(net.h.offered, r, offers);
    forall i | 0 <= i < |offers|
      ensures (r, offers[i].egress) !in net.h.offered
      ensures Offered(net', r, offers[i].egress, offers[i].transport)
    {
      assert offers[i] in offers;
    }
  }

  /** What the message changed, whatever was offered. */
  lemma OffersShape(net: Net, net': Net, n: Node, peer: Peer, room: Room, es: seq<Option<Node>>, r: RouterId,
      offers: seq<Offer>)
    requires NewOffers(net, net', n, peer, room, es, r, offers)
    ensures |net'.nodes| == |net.nodes|
      && net' == net.(nodes := net.nodes[n := net'.nodes[n]], next := net'.next, h := net'.h)
    ensures var nd, nd' := net.nodes[n], net'.nodes[n];
      && nd' == nd.(read := nd.read + 1, up := nd.up + OfferMessages(r, offers), server := nd'.server,
        routes := nd'.routes)
      && net'.h == net.h.(offered := net'.h.offered)
  {
  }

  lemma OffersHandled(net: Net, net': Net, n: Node, peer: Peer, room: Room, es: seq<Option<Node>>, r: RouterId,
      offers: seq<Offer>)
    requires NewOffers(net, net', n, peer, room, es, r, offers) && OffersNew(net, net', r, offers) && Linked(net)
    requires r in net.h.home && net.h.home[r].node == n
    ensures Handled(net, net', n)
  {
    OffersShape(net, net', n, peer, room, es, r, offers);
    ShapeHandled(net, net', n, r, offers);
  }

  lemma ShapeHandled(net: Net, net': Net, n: Node, r: RouterId, offers: seq<Offer>)
    requires Linked(net) && n < |net.nodes| && net.nodes[n].read < |net.nodes[n].down|
      && OffersNew(net, net', r, offers)
    requires |net'.nodes| == |net.nodes|
      && net' == net.(nodes := net.nodes[n := net'.nodes[n]], next := net'.next, h := net'.h)
    requires var nd, nd' := net.nodes[n], net'.nodes[n];
      && nd' == nd.(read := nd.read + 1, up := nd.up + OfferMessages(r, offers), server := nd'.server,
        routes := nd'.routes)
      && net'.h == net.h.(offered := net'.h.offered)
    requires r in net.h.home && net.h.home[r].node == n
    ensures Handled(net, net', n)
  {
  }

  lemma OffersHistory(net: Net, net': Net, n: Node, r: RouterId, offers: seq<Offer>)
    requires HistoryOk(net) && Extends(net, net', n) && OffersNew(net, net', r, offers)
    requires n < |net.nodes| && net.nodes[n].ingress && r in net.h.home && net.h.home[r].node == n
    requires net'.h == net.h.(offered := net'.h.offered)
    ensures HistoryOk(net')
  {
    forall q | q in net'.h.home ensures Rooted(net', q) && (IngressRouter(net, q) ==> IngressRouter(net', q)) {
      RootedStays(net, net', n, q);
    }
    forall k | k in net'.h.offered
      ensures IngressRouter(net', k.0) && net'.h.offered[k] < net'.next && net'.h.offered[k] !in net'.h.answered
      ensures k !in net.h.offered ==> net.next <= net'.h.offered[k]
    {
      if k in net.h.offered {
        assert IngressRouter(net, k.0);
      } else {
        assert Offer(k.1, net'.h.offered[k]) in offers;
        assert Rooted(net, r);
      }
    }
    OffersDistinct(net, net', r, offers);
    forall u | u in net'.h.answered ensures IngressRouter(net', net'.h.answered[u].0) {
      assert IngressRouter(net, net.h.answered[u].0);
    }
  }

  lemma OffersDistinct(net: Net, net': Net, r: RouterId, offers: seq<Offer>)
    requires OffersNew(net, net', r, offers)
    requires forall k :: k in net.h.offered ==> net.h.offered[k] < net.next
    requires forall k, k' :: k in net.h.offered && k' in net.h.offered && net.h.offered[k] == net.h.offered[k'] ==>
      k == k'
    ensures forall k, k' :: k in net'.h.offered && k' in net'.h.offered && net'.h.offered[k] == net'.h.offered[k'] ==>
      k == k'
  {
    forall k | k in net'.h.offered ensures k in net.h.offered <==> net'.h.offered[k] < net.next {
      if k !in net.h.offered {
        assert Offer(k.1, net'.h.offered[k]) in offers;
      }
    }
    forall k, k' | k in net'.h.offered && k' in net'.h.offered && net'.h.offered[k] == net'.h.offered[k']
      ensures k == k'
    {
      if k !in net.h.offered {
        assert Offer(k.1, net'.h.offered[k]) in offers && Offer(k'.1, net'.h.offered[k']) in offers;
      }
    }
  }

  lemma OffersSides(net: Net, net': Net, n: Node, peer: Peer, room: Room, es: seq<Option<Node>>, r: RouterId,
      offers: seq<Offer>)
    requires NewOffers(net, net', n, peer, room, es, r, offers) && OffersNew(net, net', r, offers)
    requires IngressOk(net, n) && r in net.h.home && net.h.home[r].node == n
    ensures IngressOk(net', n) && EgressOk(net', n)
  {
    var nd, nd' := net.nodes[n], net'.nodes[n];
    var s1 := AfterSelect(nd.server, room);
    Rooms.OfferAllRecords(s1, r, room, es, net.next);
    Rooms.OfferAllFrame(s1, r, room, es, net.next);
    forall x | x in nd'.server.relays
      ensures x.router in net'.h.home && net'.h.home[x.router].node == n
      ensures Offered(net', x.router, x.egress, x.transport)
    {
      if x !in nd.server.relays {
        var k :| 0 <= k < |offers| && offers[k] == Offer(x.egress, x.transport);
      }
    }
    forall k | k in net'.h.offered && k.0 in net'.h.home && net'.h.home[k.0].node == n
      ensures k.0 in nd'.server.routers ==> OfPair(nd'.server.relays, k.0, k.1) != []
      ensures StorePipeRelay(k.0, k.1, net'.h.offered[k]) in nd'.up
    {
      if k in net.h.offered {
        Rooms.PairStays(nd.server.relays, nd'.server.relays, k.0, k.1);
        var i :| 0 <= i < |nd.up| && nd.up[i] == StorePipeRelay(k.0, k.1, net.h.offered[k]);
        assert nd'.up[i] == nd.up[i];
      } else {
        var i :| 0 <= i < |offers| && offers[i] == Offer(k.1, net'.h.offered[k]);
        assert nd'.up[|nd.up| + i] == StorePipeRelay(r, offers[i].egress, offers[i].transport);
        assert Relay(r, k.1, net'.h.offered[k], room) in OfPair(nd'.server.relays, k.0, k.1);
      }
    }
  }

  lemma OffersLinks(net: Net, net': Net, n: Node, peer: Peer, room: Room, es: seq<Option<Node>>, r: RouterId,
      offers: seq<Offer>)
    requires NewOffers(net, net', n, peer, room, es, r, offers) && OffersNew(net, net', r, offers)
    requires r in net.h.home && net.h.home[r].node == n
    requires net.nodes[n].taken <= |net.nodes[n].up| && DistinctAnswers(net.nodes[n].up)
    ensures forall j :: |net.nodes[n].up| <= j < |net'.nodes[n].up| ==> UpMsgOk(net', n, j)
    ensures DistinctAnswers(net'.nodes[n].up)
  {
    var nd, nd' := net.nodes[n], net'.nodes[n];
    assert nd'.up == nd.up + OfferMessages(r, offers);
    forall j | |nd.up| <= j < |nd'.up|
      ensures nd'.up[j] == StorePipeRelay(r, offers[j - |nd.up|].egress, offers[j - |nd.up|].transport)
    {
    }
    DistinctWithOffers(nd.up, r, offers);
  }

  lemma DistinctWithOffers(up: seq<Msg>, r: RouterId, offers: seq<Offer>)
    requires DistinctAnswers(up)
    ensures DistinctAnswers(up + OfferMessages(r, offers))
  {
  }

  lemma OffersTables(net: Net, net': Net, n: Node, peer: Peer, room: Room, es: seq<Option<Node>>, r: RouterId,
      offers: seq<Offer>)
    requires NewOffers(net, net', n, peer, room, es, r, offers) && TablesOk(net, n) && r < net.next
    ensures TablesOk(net', n)
    ensures net'.nodes[n].server.rooms == net.nodes[n].server.rooms
    ensures net'.nodes[n].server.routers == net.nodes[n].server.routers
  {
    var s1 := AfterSelect(net.nodes[n].server, room);
    Rooms.SelectKeeps(net.nodes[n].server, room);
    Rooms.OfferAllKeeps(s1, r, room, es, net.next);
    Rooms.OfferAllBelow(s1, r, room, es, net.next);
    Rooms.OfferAllFrame(s1, r, room, es, net.next);
  }

  lemma OffersNode(net: Net, net': Net, n: Node, peer: Peer, room: Room, es: seq<Option<Node>>, r: RouterId,
      offers: seq<Offer>)
    requires NewOffers(net, net', n, peer, room, es, r, offers) && OffersNew(net, net', r, offers)
    requires Handled(net, net', n) && AllOk(net, {n})
    requires r in net.h.home && net.h.home[r].node == n && r < net.next
    ensures AllOk(net', {n})
  {
    assert n in {n};
    OffersTables(net, net', n, peer, room, es, r, offers);
    AdvancedGroups(net, net', n);
    OffersSides(net, net', n, peer, room, es, r, offers);
    OffersLinks(net, net', n, peer, room, es, r, offers);
    ActorLinksKeep(net, net', n);
    Assemble(net', n);
  }

  lemma OffersSettle(net: Net, net': Net, n: Node, peer: Peer, room: Room, es: seq<Option<Node>>, r: RouterId,
      offers: seq<Offer>)
    requires NewOffers(net, net', n, peer, room, es, r, offers) && OffersNew(net, net', r, offers)
    requires Handled(net, net', n) && HistoryOk(net) && ConnectsOk(net) && AllOk(net', {n})
    requires r in net.h.home && net.h.home[r].node == n
    ensures Settled(net, net', n)
  {
    OffersHistory(net, net', n, r, offers);
    SameConnects(net, net', n);
  }

  lemma SelectedAtHome(net: Net, n: Node, room: Room)
    requires n < |net.nodes| && AllOk(net, {n}) && HistoryOk(net)
    ensures Selected(net.nodes[n].server, room).Some? ==>
      && var r := Selected(net.nodes[n].server, room).value;
      && r in net.nodes[n].server.routers && r in net.h.home && r < net.next
      && net.h.home[r].node == n && net.h.home[r].room == room
  {
    assert n in {n};
    if Selected(net.nodes[n].server, room).Some? {
      assert Rooted(net, Selected(net.nodes[n].server, room).value);
    }
  }

  lemma IngressKeeps(net: Net, n: Node, peer: Peer, room: Room, es: seq<Option<Node>>)
    requires Inv(net) && n < |net.nodes| && net.nodes[n].read < |net.nodes[n].down|
    requires net.nodes[n].down[net.nodes[n].read] == CreateWebRTCIngress(peer, room, es)
    ensures Inv(ServeIngress(net, n, peer, room, es)) && Extends(net, ServeIngress(net, n, peer, room, es), n)
  {
    var net' := ServeIngress(net, n, peer, room, es);
    NextMsgOk(net, n);
    SelectedAtHome(net, n, room);
    match Selected(net.nodes[n].server, room)
    case None => QuietKeeps(net, net', n);
    case Some(r) =>
      var offers := OfferAll(AfterSelect(net.nodes[n].server, room), r, room, es, net.next).1;
      OffersFromInv(net, net', n, peer, room, es, r, offers);
      OffersHandled(net, net', n, peer, room, es, r, offers);
      OffersNode(net, net', n, peer, room, es, r, offers);
      OffersSettle(net, net', n, peer, room, es, r, offers);
      HandledKeeps(net, net', n);
  }

  lemma OffersFromInv(net: Net, net': Net, n: Node, peer: Peer, room: Room, es: seq<Option<Node>>, r: RouterId,
      offers: seq<Offer>)
    requires NewOffers(net, net', n, peer, room, es, r, offers) && AllOk(net, {n})
    requires r in net.h.home && net.h.home[r].node == n
    ensures OffersNew(net, net', r, offers)
  {
    assert n in {n};
    OffersAreNew(net, net', n, peer, room, es, r, offers);
  }

  // ---------------------------------------------------------------- createRelayProducer

  /** Reading a relay request made a pipe for ingress router `r` on router `q`. */
  ghost predicate NewAnswer(net: Net, net': Net, n: Node, room: Room, r: RouterId, q: RouterId) {
    && n < |net.nodes| && net.nodes[n].read < |net.nodes[n].down|
    && var nd := net.nodes[n];
    && nd.down[nd.read] == CreateRelayProducer(room, r, n)
    && !nd.ingress && Told(nd.down, r, nd.read)
    && AnswerOf(nd.server, room, r) == Answered(q)
    && net' == ServeRelay(net, n, room, r)
  }

  lemma AnswerHandled(net: Net, net': Net, n: Node, room: Room, r: RouterId, q: RouterId)
    requires NewAnswer(net, net', n, room, r, q) && Linked(net)
    requires forall u :: u in net.h.answered ==> u < net.next
    ensures Handled(net, net', n)
  {
  }

  lemma HomesStay(net: Net, net': Net, n: Node)
    requires Extends(net, net', n) && net'.h.home == net.h.home
    requires forall x :: x in net.h.home ==> Rooted(net, x)
    ensures forall x :: x in net'.h.home ==> Rooted(net', x)
  {
    forall x | x in net'.h.home ensures Rooted(net', x) {
      RootedStays(net, net', n, x);
    }
  }

  /** The history after egress server `n` answered for router `r`, for the first time or again. */
  lemma AnswerHistory(net: Net, net': Net, n: Node, r: RouterId)
    requires HistoryOk(net) && Extends(net, net', n) && IngressRouter(net, r) && net'.next == net.next + 1
    requires net'.h.home == net.h.home && net'.h.offered == net.h.offered
    requires net'.h.answered == net.h.answered[net.next := (r, n)]
    requires net'.h.first == if (r, n) in net.h.first then net.h.first else net.h.first[(r, n) := net.next]
    ensures HistoryOk(net')
  {
    HomesStay(net, net', n);
    AnswerOffers(net, net', n);
    OffersStayDistinct(net, net');
    AnswerAnswers(net, net', n, r);
    AnswerFirsts(net, net', n, r);
  }

  lemma OffersStayDistinct(net: Net, net': Net)
    requires forall k, k' :: k in net.h.offered && k' in net.h.offered && net.h.offered[k] == net.h.offered[k'] ==>
      k == k'
    requires net'.h.offered == net.h.offered
    ensures forall k, k' :: k in net'.h.offered && k' in net'.h.offered && net'.h.offered[k] == net'.h.offered[k'] ==>
      k == k'
  {
  }

  lemma AnswerFirsts(net: Net, net': Net, n: Node, r: RouterId)
    requires forall u :: u in net.h.answered ==> u < net.next
    requires forall k :: k in net.h.first ==> net.h.first[k] in net.h.answered && net.h.answered[net.h.first[k]] == k
    requires net'.h.answered == net.h.answered[net.next := (r, n)]
    requires net'.h.first == if (r, n) in net.h.first then net.h.first else net.h.first[(r, n) := net.next]
    ensures forall k :: k in net'.h.first ==>
      net'.h.first[k] in net'.h.answered && net'.h.answered[net'.h.first[k]] == k
  {
  }

  lemma AnswerOffers(net: Net, net': Net, n: Node)
    requires HistoryOk(net) && Extends(net, net', n) && net'.h.offered == net.h.offered
    requires forall u :: u in net'.h.answered && u !in net.h.answered ==> u >= net.next
    ensures forall k :: k in net'.h.offered ==>
      IngressRouter(net', k.0) && net'.h.offered[k] < net'.next && net'.h.offered[k] !in net'.h.answered
  {
    forall k | k in net'.h.offered ensures IngressRouter(net', k.0) {
      assert IngressRouter(net, k.0);
      RootedStays(net, net', n, k.0);
    }
  }

  lemma AnswerAnswers(net: Net, net': Net, n: Node, r: RouterId)
    requires HistoryOk(net) && Extends(net, net', n) && net'.next == net.next + 1 && IngressRouter(net, r)
    requires net'.h.answered == net.h.answered[net.next := (r, n)] && (r, n) in net'.h.first
    ensures forall u :: u in net'.h.answered ==>
      u < net'.next && IngressRouter(net', net'.h.answered[u].0) && net'.h.answered[u] in net'.h.first
  {
    forall u | u in net'.h.answered
      ensures u < net'.next && IngressRouter(net', net'.h.answered[u].0) && net'.h.answered[u] in net'.h.first
    {
      RootedStays(net, net', n, net'.h.answered[u].0);
    }
  }

  lemma OneMoreConnect(net: Net, net': Net, n: Node, c: Connect)
    requires ConnectsOk(net) && Extends(net, net', n) && net'.h.connects == net.h.connects + [c]
    requires ConnectOk(net', c)
    requires forall i :: 0 <= i < |net.h.connects| && !net.nodes[net.h.connects[i].node].ingress ==>
      net.h.connects[i].transport != c.transport
    ensures ConnectsOk(net')
  {
    forall i | 0 <= i < |net.h.connects|
      ensures ConnectOk(net', net.h.connects[i])
      ensures net'.nodes[net.h.connects[i].node].ingress == net.nodes[net.h.connects[i].node].ingress
    {
      ConnectStays(net, net', n, net.h.connects[i]);
      assert NodeExtends(net.nodes[net.h.connects[i].node], net'.nodes[net.h.connects[i].node]);
    }
  }

  /** An egress server connects a pipe that it has just made; an ingress server connects pipes of
      its own. */
  lemma NotYetConnected(net: Net, c: Connect)
    requires ConnectsOk(net) && c.transport !in net.h.answered
    ensures forall i :: 0 <= i < |net.h.connects| && !net.nodes[net.h.connects[i].node].ingress ==>
      net.h.connects[i].transport != c.transport
  {
    forall i | 0 <= i < |net.h.connects| && !net.nodes[net.h.connects[i].node].ingress
      ensures net.h.connects[i].transport != c.transport
    {
      assert ConnectOk(net, net.h.connects[i]);
    }
  }

  lemma AnswerConnects(net: Net, net': Net, n: Node, room: Room, r: RouterId, q: RouterId)
    requires NewAnswer(net, net', n, room, r, q) && Handled(net, net', n) && ConnectsOk(net)
    requires EgressOk(net, n)
    requires forall u :: u in net.h.answered ==> u < net.next
    requires forall k :: k in net.h.offered ==> net.h.offered[k] < net.next
    ensures ConnectsOk(net')
  {
    var pending := net.nodes[n].server.pending;
    if r in pending {
      NotYetConnected(net, Connect(n, net.next, pending[r]));
      OneMoreConnect(net, net', n, Connect(n, net.next, pending[r]));
    } else {
      SameConnects(net, net', n);
    }
  }

  lemma AnswerSides(net: Net, net': Net, n: Node, room: Room, r: RouterId, q: RouterId)
    requires NewAnswer(net, net', n, room, r, q) && EgressOk(net, n)
    ensures IngressOk(net', n) && EgressOk(net', n)
  {
    ToldNext(net, net', n);
    ToldStays(net.nodes[n].down, net'.nodes[n].down, r, net.nodes[n].read, net'.nodes[n].read);
    assert (r, n) in net'.h.first;
  }

  lemma AnswerLinks(net: Net, net': Net, n: Node, room: Room, r: RouterId, q: RouterId)
    requires NewAnswer(net, net', n, room, r, q) && UpOk(net, n)
    requires forall u :: u in net.h.answered ==> u < net.next
    ensures forall j :: |net.nodes[n].up| <= j < |net'.nodes[n].up| ==> UpMsgOk(net', n, j)
    ensures DistinctAnswers(net'.nodes[n].up)
  {
    var nd := net.nodes[n];
    forall j | 0 <= j < |nd.up| && nd.up[j].ConnectPipeRelay? ensures nd.up[j].remote < net.next {
      assert UpMsgOk(net, n, j);
    }
    DistinctWith(nd.up, ConnectPipeRelay(r, q, n, net.next));
  }

  lemma AnswerTables(net: Net, net': Net, n: Node, room: Room, r: RouterId, q: RouterId)
    requires NewAnswer(net, net', n, room, r, q) && TablesOk(net, n) && r < net.next
      && r !in net.nodes[n].server.routers
    ensures TablesOk(net', n)
  {
    Rooms.AnswerKeeps(net.nodes[n].server, n, room, r, net.next);
    Rooms.AnswerBelow(net.nodes[n].server, n, room, r, net.next);
  }

  lemma AnswerNode(net: Net, net': Net, n: Node, room: Room, r: RouterId, q: RouterId)
    requires NewAnswer(net, net', n, room, r, q) && Handled(net, net', n) && AllOk(net, {n})
    requires IngressRouter(net, r)
    requires forall u :: u in net.h.answered ==> u < net.next
    ensures AllOk(net', {n})
  {
    assert n in {n};
    AnswerTables(net, net', n, room, r, q);
    AdvancedGroups(net, net', n);
    AnswerSides(net, net', n, room, r, q);
    AnswerLinks(net, net', n, room, r, q);
    ActorLinksKeep(net, net', n);
    Assemble(net', n);
  }

  /** A relay request is about an ingress router that was offered along the same link. */
  lemma ToldAbout(net: Net, n: Node, r: RouterId, to: nat)
    requires n < |net.nodes| && AllOk(net, {n}) && HistoryOk(net) && Told(net.nodes[n].down, r, to)
    ensures IngressRouter(net, r) && (r, n) in net.h.offered
  {
    assert n in {n};
    var log := net.nodes[n].down;
    var j :| 0 <= j < to && j < |log| && log[j].StorePipeRelay? && log[j].route == r;
    assert DownMsgOk(net, n, j);
    OfferedBelow(net, r, n, log[j].remote);
  }

  lemma AnswerSettles(net: Net, net': Net, n: Node, room: Room, r: RouterId, q: RouterId)
    requires NewAnswer(net, net', n, room, r, q) && Handled(net, net', n)
    requires HistoryOk(net) && ConnectsOk(net) && AllOk(net, {n}) && AllOk(net', {n}) && IngressRouter(net, r)
    ensures Settled(net, net', n)
  {
    AnswerHistory(net, net', n, r);
    assert n in {n};
    AnswerConnects(net, net', n, room, r, q);
  }

  /** The relay request was refused or there was a relay already: at most the round robin moved. */
  lemma UnansweredNode(net: Net, net': Net, n: Node, room: Room, r: RouterId)
    requires n < |net.nodes| && AllOk(net, {n}) && Handled(net, net', n)
    requires net.nodes[n].down[net.nodes[n].read].CreateRelayProducer? && !net.nodes[n].ingress
    requires !AnswerOf(net.nodes[n].server, room, r).Answered? && net' == ServeRelay(net, n, room, r)
    ensures AllOk(net', {n})
  {
    assert n in {n};
    UnansweredTables(net, net', n, room, r);
    AdvancedGroups(net, net', n);
    UnansweredSides(net, net', n, room, r);
    ActorLinksKeep(net, net', n);
    Assemble(net', n);
  }

  lemma UnansweredTables(net: Net, net': Net, n: Node, room: Room, r: RouterId)
    requires n < |net.nodes| && TablesOk(net, n)
    requires !AnswerOf(net.nodes[n].server, room, r).Answered? && net' == ServeRelay(net, n, room, r)
    ensures TablesOk(net', n) && net'.nodes[n].up == net.nodes[n].up
    ensures net'.nodes[n].server.rooms == net.nodes[n].server.rooms
    ensures net'.nodes[n].server.routers == net.nodes[n].server.routers
  {
    Rooms.SelectKeeps(net.nodes[n].server, room);
  }

  lemma UnansweredSides(net: Net, net': Net, n: Node, room: Room, r: RouterId)
    requires n < |net.nodes| && net.nodes[n].read < |net.nodes[n].down|
    requires IngressOk(net, n) && EgressOk(net, n) && !net.nodes[n].ingress
    requires !AnswerOf(net.nodes[n].server, room, r).Answered? && net' == ServeRelay(net, n, room, r)
    ensures IngressOk(net', n) && EgressOk(net', n)
  {
    ToldNext(net, net', n);
  }

  lemma UnansweredHandled(net: Net, n: Node, room: Room, r: RouterId)
    requires n < |net.nodes| && net.nodes[n].read < |net.nodes[n].down| && Linked(net)
    requires !AnswerOf(net.nodes[n].server, room, r).Answered?
    ensures Handled(net, ServeRelay(net, n, room, r), n)
  {
  }

  lemma RelayKeeps(net: Net, n: Node, room: Room, r: RouterId, e: Node)
    requires Inv(net) && n < |net.nodes| && net.nodes[n].read < |net.nodes[n].down|
    requires net.nodes[n].down[net.nodes[n].read] == CreateRelayProducer(room, r, e)
    ensures Inv(ServeRelay(net, n, room, r)) && Extends(net, ServeRelay(net, n, room, r), n)
  {
    var net' := ServeRelay(net, n, room, r);
    NextMsgOk(net, n);
    ToldAbout(net, n, r, net.nodes[n].read);
    match AnswerOf(net.nodes[n].server, room, r)
    case Answered(q) =>
      AnswerHandled(net, net', n, room, r, q);
      AnswerNode(net, net', n, room, r, q);
      AnswerSettles(net, net', n, room, r, q);
      HandledKeeps(net, net', n);
    case _ =>
      UnansweredHandled(net, n, room, r);
      UnansweredNode(net, net', n, room, r);
      SameHistorySettles(net, net', n);
      HandledKeeps(net, net', n);
  }

  // ---------------------------------------------------------------- connectPipeRelay

  lemma ReadHandled(net: Net, n: Node, connects: seq<Connect>)
    requires n < |net.nodes| && net.nodes[n].read < |net.nodes[n].down| && Linked(net) && net.h.connects <= connects
    ensures
      Handled(net, net.(nodes := net.nodes[n := Advance(net.nodes[n])], h := net.h.(connects := connects)), n)
  {
  }

  lemma ConnectHandled(net: Net, n: Node, r: RouterId, e: Node, remote: TransportId)
    requires n < |net.nodes| && net.nodes[n].read < |net.nodes[n].down| && Linked(net)
    ensures Handled(net, ServeConnect(net, n, r, e, remote), n)
  {
    ReadHandled(net, n, ServeConnect(net, n, r, e, remote).h.connects);
  }

  lemma ConnectSides(net: Net, net': Net, n: Node, r: RouterId, e: Node, remote: TransportId)
    requires n < |net.nodes| && net.nodes[n].read < |net.nodes[n].down|
    requires net' == ServeConnect(net, n, r, e, remote) && IngressOk(net, n) && EgressOk(net, n)
    ensures IngressOk(net', n) && EgressOk(net', n)
  {
    ToldNext(net, net', n);
  }

  lemma ConnectNode(net: Net, net': Net, n: Node, r: RouterId, e: Node, remote: TransportId)
    requires n < |net.nodes| && AllOk(net, {n}) && Handled(net, net', n)
    requires net.nodes[n].down[net.nodes[n].read].ConnectPipeRelay?
    requires net' == ServeConnect(net, n, r, e, remote)
    ensures AllOk(net', {n})
  {
    assert n in {n};
    AdvancedGroups(net, net', n);
    ConnectSides(net, net', n, r, e, remote);
    ActorLinksKeep(net, net', n);
    Assemble(net', n);
  }

  /** What `connect_pipe_relay` connects is the pipe that this server offered for the pair. */
  lemma TargetIsOffered(net: Net, n: Node, r: RouterId, e: Node)
    requires n < |net.nodes| && net.nodes[n].ingress && IngressOk(net, n)
    ensures ConnectTarget(net.nodes[n].server, r, e).Some? ==>
      Offered(net, r, e, ConnectTarget(net.nodes[n].server, r, e).value)
  {
    var found := OfPair(net.nodes[n].server.relays, r, e);
    if found != [] {
      assert found[0] in found;
    }
  }

  lemma TargetConnects(net: Net, net': Net, n: Node, r: RouterId, q: RouterId, e: Node, remote: TransportId,
      t: TransportId)
    requires n < |net.nodes| == |net'.nodes| && net.nodes[n].read < |net.nodes[n].down|
    requires net.nodes[n].down[net.nodes[n].read] == ConnectPipeRelay(r, q, e, remote)
    requires DownMsgOk(net, n, net.nodes[n].read) && Offered(net, r, e, t) && remote < net.next
    requires net'.nodes[n].ingress == net.nodes[n].ingress
    requires net'.nodes[n].down == net.nodes[n].down && net'.nodes[n].read == net.nodes[n].read + 1
    requires net'.next == net.next && net'.h.home == net.h.home
    requires net'.h.offered == net.h.offered && net'.h.answered == net.h.answered
    ensures ConnectOk(net', Connect(n, t, remote))
  {
    assert net'.nodes[n].down[net.nodes[n].read].remote == remote;
  }

  lemma ConnectConnects(net: Net, net': Net, n: Node, r: RouterId, q: RouterId, e: Node, remote: TransportId)
    requires n < |net.nodes| && net.nodes[n].read < |net.nodes[n].down|
    requires net' == ServeConnect(net, n, r, e, remote) && Handled(net, net', n) && ConnectsOk(net) && HistoryOk(net)
    requires net.nodes[n].down[net.nodes[n].read] == ConnectPipeRelay(r, q, e, remote)
    requires DownMsgOk(net, n, net.nodes[n].read) && IngressOk(net, n)
    ensures ConnectsOk(net')
  {
    TargetIsOffered(net, n, r, e);
    match ConnectTarget(net.nodes[n].server, r, e)
    case None => SameConnects(net, net', n);
    case Some(t) =>
      TargetConnects(net, net', n, r, q, e, remote, t);
      NotYetConnected(net, Connect(n, t, remote));
      OneMoreConnect(net, net', n, Connect(n, t, remote));
  }

  lemma ConnectSettles(net: Net, net': Net, n: Node, r: RouterId, q: RouterId, e: Node, remote: TransportId)
    requires n < |net.nodes| && net.nodes[n].read < |net.nodes[n].down|
    requires net' == ServeConnect(net, n, r, e, remote) && Handled(net, net', n) && ConnectsOk(net) && HistoryOk(net)
    requires net.nodes[n].down[net.nodes[n].read] == ConnectPipeRelay(r, q, e, remote)
    requires DownMsgOk(net, n, net.nodes[n].read) && AllOk(net, {n}) && AllOk(net', {n})
    ensures Settled(net, net', n)
  {
    assert n in {n};
    ConnectConnects(net, net', n, r, q, e, remote);
    SameHistory(net, net', n);
  }

  lemma ConnectKeeps(net: Net, n: Node, r: RouterId, q: RouterId, e: Node, remote: TransportId)
    requires Inv(net) && n < |net.nodes| && net.nodes[n].read < |net.nodes[n].down|
    requires net.nodes[n].down[net.nodes[n].read] == ConnectPipeRelay(r, q, e, remote)
    ensures Inv(ServeConnect(net, n, r, e, remote)) && Extends(net, ServeConnect(net, n, r, e, remote), n)
  {
    var net' := ServeConnect(net, n, r, e, remote);
    NextMsgOk(net, n);
    ConnectHandled(net, n, r, e, remote);
    ConnectNode(net, net', n, r, e, remote);
    ConnectSettles(net, net', n, r, q, e, remote);
    HandledKeeps(net, net', n);
  }

  lemma ServeOwnKeeps(net: Net, net': Net, n: Node, gone: set<RouterId>)
    requires Inv(net) && Enabled(net, ServeAction(n, gone)) && net' == Serve(net, n, gone)
    requires var m := net.nodes[n].down[net.nodes[n].read];
      m.CreateRouterGroup? || m.CreateWebRTCIngress? || m.CreateProducer? || m.DisconnectTransport?
    ensures Inv(net') && Extends(net, net', n)
  {
    match net.nodes[n].down[net.nodes[n].read]
    case CreateRouterGroup(room) => GroupKeeps(net, n, room);
    case CreateWebRTCIngress(peer, room, es) => IngressKeeps(net, n, peer, room, es);
    case CreateProducer(peer, room, e) => ProducerKeeps(net, n, peer, room, e);
    case DisconnectTransport(peer) => QuietKeeps(net, net', n);
  }

  lemma ServeSetupKeeps(net: Net, net': Net, n: Node, gone: set<RouterId>)
    requires Inv(net) && Enabled(net, ServeAction(n, gone)) && net' == Serve(net, n, gone)
    requires var m := net.nodes[n].down[net.nodes[n].read]; m.DestroyRouterGroup? || m.StorePipeRelay?
    ensures Inv(net') && Extends(net, net', n)
  {
    match net.nodes[n].down[net.nodes[n].read]
    case DestroyRouterGroup(room) => DestroyKeeps(net, n, room, gone);
    case StorePipeRelay(r, e, remote) => StoreKeeps(net, n, r, e, remote);
  }

  lemma ServeRelayedKeeps(net: Net, net': Net, n: Node, gone: set<RouterId>)
    requires Inv(net) && Enabled(net, ServeAction(n, gone)) && net' == Serve(net, n, gone)
    requires var m := net.nodes[n].down[net.nodes[n].read]; m.CreateRelayProducer? || m.ConnectPipeRelay?
    ensures Inv(net') && Extends(net, net', n)
  {
    if net.nodes[n].down[net.nodes[n].read].CreateRelayProducer? {
      ServeRelayKeeps(net, net', n, gone);
    } else {
      ServeConnectKeeps(net, net', n, gone);
    }
  }

  lemma ServeRelayKeeps(net: Net, net': Net, n: Node, gone: set<RouterId>)
    requires Inv(net) && Enabled(net, ServeAction(n, gone)) && net' == Serve(net, n, gone)
    requires net.nodes[n].down[net.nodes[n].read].CreateRelayProducer?
    ensures Inv(net') && Extends(net, net', n)
  {
    var m := net.nodes[n].down[net.nodes[n].read];
    RelayKeeps(net, n, m.room, m.route, m.egress);
  }

  lemma ServeConnectKeeps(net: Net, net': Net, n: Node, gone: set<RouterId>)
    requires Inv(net) && Enabled(net, ServeAction(n, gone)) && net' == Serve(net, n, gone)
    requires net.nodes[n].down[net.nodes[n].read].ConnectPipeRelay?
    ensures Inv(net') && Extends(net, net', n)
  {
    var m := net.nodes[n].down[net.nodes[n].read];
    ConnectKeeps(net, n, m.route, m.egressRoute, m.egress, m.remote);
  }

  lemma ServeKeeps(net: Net, n: Node, gone: set<RouterId>)
    requires Inv(net) && Enabled(net, ServeAction(n, gone))
    ensures Inv(Serve(net, n, gone)) && Extends(net, Serve(net, n, gone), n)
  {
    var m := net.nodes[n].down[net.nodes[n].read];
    if m.CreateRouterGroup? || m.CreateWebRTCIngress? || m.CreateProducer? || m.DisconnectTransport? {
      ServeOwnKeeps(net, Serve(net, n, gone), n, gone);
    } else if m.DestroyRouterGroup? || m.StorePipeRelay? {
      ServeSetupKeeps(net, Serve(net, n, gone), n, gone);
    } else {
      ServeRelayedKeeps(net, Serve(net, n, gone), n, gone);
    }
  }
}
