/** The signaling server's actions, the loss of a router, and whole runs keep the invariant. */
module HandshakeRouting {
  import opened Sfu
  import opened Handshake
  import opened HandshakeInvariant
  import opened HandshakeSteps
  import Rooms

  /** At most the links to the servers grow and messages from them are taken. */
  ghost predicate Routed(net: Net, net': Net) {
    && |net'.nodes| == |net.nodes|
    && net'.next == net.next && net'.h == net.h
    && (forall n :: 0 <= n < |net.nodes| ==> Delivered(net.nodes[n], net'.nodes[n]))
  }

  ghost predicate Delivered(nd: NodeState, nd': NodeState) {
    && nd' == nd.(down := nd'.down, taken := nd'.taken)
    && nd.down <= nd'.down
    && nd.taken <= nd'.taken <= |nd.up|
    && nd.read <= |nd.down|
  }

  lemma RoutedExtends(net: Net, net': Net)
    requires Routed(net, net')
    ensures Extends(net, net', 0)
  {
    forall n | 0 <= n < |net.nodes| ensures NodeExtends(net.nodes[n], net'.nodes[n]) {
      assert Delivered(net.nodes[n], net'.nodes[n]);
    }
  }

  /** The messages that were added to links or taken from them are in order. */
  ghost predicate FreshOk(net: Net, net': Net, n: Node)
    requires n < |net.nodes| == |net'.nodes|
  {
    && (forall j :: |net.nodes[n].down| <= j < |net'.nodes[n].down| ==> DownMsgOk(net', n, j))
    && DistinctAnswers(net'.nodes[n].down)
    && (forall j :: net.nodes[n].taken <= j < net'.nodes[n].taken && j < |net'.nodes[n].up| ==> UpMsgOk(net', n, j))
  }

  lemma RoutedLinks(net: Net, net': Net, n: Node)
    requires Routed(net, net') && n < |net.nodes| && Extends(net, net', 0)
    requires DownOk(net, n) && UpOk(net, n) && FreshOk(net, net', n)
    ensures DownOk(net', n) && UpOk(net', n)
  {
    assert Delivered(net.nodes[n], net'.nodes[n]);
    forall j | 0 <= j < |net'.nodes[n].down| ensures DownMsgOk(net', n, j) {
      if j < |net.nodes[n].down| {
        DownMsgStays(net, net', 0, n, j);
      }
    }
    forall j | 0 <= j < |net'.nodes[n].up| ensures UpMsgOk(net', n, j) {
      if !(net.nodes[n].taken <= j < net'.nodes[n].taken) {
        UpMsgStays(net, net', 0, n, j);
      }
    }
  }

  lemma RoutedGroups(net: Net, net': Net, n: Node)
    requires n < |net.nodes| == |net'.nodes| && Delivered(net.nodes[n], net'.nodes[n]) && net'.h == net.h
    requires GroupsAtHome(net, n)
    ensures GroupsAtHome(net', n)
  {
    var nd, nd' := net.nodes[n], net'.nodes[n];
    forall m, q | m in nd'.server.rooms && q in nd'.server.rooms[m]
      ensures !Destroyed(nd'.down, m, net'.h.home[q].born, nd'.read)
    {
      DestroyedStays(nd.down, nd'.down, m, net.h.home[q].born, nd.read, nd.read);
    }
  }

  lemma RoutedSides(net: Net, net': Net, n: Node)
    requires n < |net.nodes| == |net'.nodes| && Delivered(net.nodes[n], net'.nodes[n]) && net'.h == net.h
    requires IngressOk(net, n) && EgressOk(net, n)
    ensures IngressOk(net', n) && EgressOk(net', n)
  {
    var nd, nd' := net.nodes[n], net'.nodes[n];
    if !nd.ingress {
      forall k | k in net.h.first && k.1 == n ensures Told(nd'.down, k.0, nd'.read) {
        ToldStays(nd.down, nd'.down, k.0, nd.read, nd.read);
      }
    }
  }

  lemma RoutedNode(net: Net, net': Net, n: Node)
    requires Routed(net, net') && n < |net.nodes| && Extends(net, net', 0)
    requires NodeOk(net, n) && FreshOk(net, net', n)
    ensures AllOk(net', {n})
  {
    assert Delivered(net.nodes[n], net'.nodes[n]);
    RoutedLinks(net, net', n);
    RoutedGroups(net, net', n);
    RoutedSides(net, net', n);
    Assemble(net', n);
  }

  lemma RoutedKeeps(net: Net, net': Net)
    requires Inv(net) && Routed(net, net')
    requires forall n :: 0 <= n < |net.nodes| ==> FreshOk(net, net', n)
    requires RecordsOk(net') && TableOk(net')
    ensures Inv(net') && Extends(net, net', 0)
  {
    RoutedExtends(net, net');
    forall n | 0 <= n < |net'.nodes| ensures NodeOk(net', n) {
      assert NodeOk(net, n);
      RoutedNode(net, net', n);
      assert n in {n};
    }
    SameHistory(net, net', 0);
    SameConnects(net, net', 0);
  }

  /** Servers that are listed for a room stay listed while rooms stay open. */
  lemma TableStays(net: Net, net': Net)
    requires TableOk(net) && Routed(net, net')
    requires forall m :: m in net'.rooms ==> m in net'.table && net'.table[m] == net'.rooms[m]
    requires forall m :: m in net.rooms ==> m in net'.rooms && net.rooms[m] <= net'.rooms[m]
    requires forall n, c :: 0 <= n < |net.nodes| && |net.nodes[n].down| <= c < |net'.nodes[n].down| ==>
      Listed(net', n, c)
    ensures TableOk(net')
  {
    forall n, c | 0 <= n < |net'.nodes| && 0 <= c < |net'.nodes[n].down| ensures Listed(net', n, c) {
      if c < |net.nodes[n].down| {
        ListedStays(net, net', n, c);
      }
    }
  }

  lemma ListedStays(net: Net, net': Net, n: Node, c: nat)
    requires n < |net.nodes| == |net'.nodes| && Delivered(net.nodes[n], net'.nodes[n])
    requires c < |net.nodes[n].down| && Listed(net, n, c) && net.h.lost <= net'.h.lost
    requires forall m :: m in net.rooms ==> m in net'.rooms && net.rooms[m] <= net'.rooms[m]
    ensures Listed(net', n, c)
  {
    var log, log' := net.nodes[n].down, net'.nodes[n].down;
    assert log'[c] == log[c];
    if log[c].CreateRouterGroup? {
      DestroyedStays(log, log', log[c].room, c, |log|, |log'|);
    }
  }

  // ---------------------------------------------------------------- sending one message

  lemma SendRoutes(net: Net, n: Node, m: Msg)
    requires Linked(net) && n < |net.nodes|
    ensures Routed(net, Send(net, n, m))
  {
  }

  /** Requests that clients cause and orders to create rooms may be sent at any time. */
  lemma SendFresh(net: Net, net': Net, n: Node, m: Msg)
    requires n < |net.nodes| && net'.nodes == Send(net, n, m).nodes
    requires forall k :: 0 <= k < |net.nodes| ==> DownOk(net, k)
    requires m.CreateRouterGroup? || (net.nodes[n].ingress && (m.CreateWebRTCIngress? || m.CreateProducer?))
      || m.DisconnectTransport?
    ensures forall k :: 0 <= k < |net.nodes| ==> FreshOk(net, net', k)
  {
    forall k | 0 <= k < |net.nodes| ensures FreshOk(net, net', k) {
      assert DownOk(net, k);
      if k == n {
        DistinctWith(net.nodes[n].down, m);
      }
    }
  }

  lemma AllDownOk(net: Net)
    requires Inv(net)
    ensures forall k :: 0 <= k < |net.nodes| ==> DownOk(net, k)
  {
    forall k | 0 <= k < |net.nodes| ensures DownOk(net, k) {
      assert NodeOk(net, k);
    }
  }

  lemma ApiKeeps(net: Net, n: Node, m: Msg)
    requires Inv(net) && Enabled(net, ApiAction(n, m))
    ensures Inv(Send(net, n, m)) && Extends(net, Send(net, n, m), 0)
  {
    WithinLinks(net);
    AllDownOk(net);
    SendRoutes(net, n, m);
    SendFresh(net, Send(net, n, m), n, m);
    TableStays(net, Send(net, n, m));
    RoutedKeeps(net, Send(net, n, m));
  }

  lemma JoinKeeps(net: Net, room: Room, n: Node)
    requires Inv(net) && n < |net.nodes|
    ensures Inv(RequestJoin(net, room, n)) && Extends(net, RequestJoin(net, room, n), 0)
  {
    var net' := RequestJoin(net, room, n);
    WithinLinks(net);
    AllDownOk(net);
    SendRoutes(net, n, CreateRouterGroup(room));
    assert Routed(net, net');
    SendFresh(net, net', n, CreateRouterGroup(room));
    TableStays(net, net');
    RoutedKeeps(net, net');
  }

  // ---------------------------------------------------------------- closing a room

  /** The servers listed for the room are told to destroy it; it may be dropped from `rooms`. */
  ghost predicate ToldToDestroy(net: Net, net': Net, room: Room) {
    net' == CloseRoom(net, room) || net' == DestroyRoom(net, room)
  }

  lemma CloseRoutes(net: Net, net': Net, room: Room)
    requires Linked(net) && ToldToDestroy(net, net', room)
    ensures Routed(net, net')
  {
  }

  lemma CloseFresh(net: Net, net': Net, room: Room)
    requires ToldToDestroy(net, net', room) && forall k :: 0 <= k < |net.nodes| ==> DownOk(net, k)
    ensures forall k :: 0 <= k < |net.nodes| ==> FreshOk(net, net', k)
  {
    forall k | 0 <= k < |net.nodes| ensures FreshOk(net, net', k) {
      assert DownOk(net, k);
      DistinctWith(net.nodes[k].down, DestroyRouterGroup(room));
    }
  }

  /** Whoever is listed for the room is told to destroy it, so nobody else has it. */
  lemma CloseListed(net: Net, net': Net, room: Room, n: Node, c: nat)
    requires TableOk(net) && ToldToDestroy(net, net', room) && n < |net.nodes| && c < |net'.nodes[n].down|
    ensures Listed(net', n, c)
  {
    var log, log' := net.nodes[n].down, net'.nodes[n].down;
    if c < |log| {
      assert Listed(net, n, c);
      assert log'[c] == log[c];
      if log[c].CreateRouterGroup? {
        DestroyedStays(log, log', log[c].room, c, |log|, |log'|);
        if log[c].room == room && !Destroyed(log, room, c, |log|) && room !in net.h.lost {
          assert log'[|log|] == DestroyRouterGroup(room);
        }
      }
    }
  }

  lemma CloseTable(net: Net, net': Net, room: Room)
    requires TableOk(net) && ToldToDestroy(net, net', room)
    ensures TableOk(net')
  {
    forall n, c | 0 <= n < |net.nodes| && 0 <= c < |net'.nodes[n].down| ensures Listed(net', n, c) {
      CloseListed(net, net', room, n, c);
    }
  }

  /** An order to destroy a room goes to every server listed for it, whether or not the room is dropped. */
  lemma CloseKeeps(net: Net, net': Net, room: Room)
    requires Inv(net) && ToldToDestroy(net, net', room)
    ensures Inv(net') && Extends(net, net', 0)
  {
    WithinLinks(net);
    AllDownOk(net);
    CloseRoutes(net, net', room);
    CloseFresh(net, net', room);
    CloseTable(net, net', room);
    RoutedKeeps(net, net');
  }

  // ---------------------------------------------------------------- rooms, routes and pipes that are dropped

  /** The servers and their links stay as they are. */
  ghost predicate Resting(net: Net, net': Net) {
    && net'.nodes == net.nodes && net'.next == net.next
    && net'.h == net.h.(lost := net'.h.lost) && net.h.lost <= net'.h.lost
  }

  lemma RestingExtends(net: Net, net': Net, actor: Node)
    requires Linked(net) && Resting(net, net')
    ensures Extends(net, net', actor)
  {
  }

  lemma RestingKeeps(net: Net, net': Net)
    requires Inv(net) && Resting(net, net') && RecordsOk(net') && TableOk(net')
    ensures Inv(net') && Extends(net, net', 0)
  {
    var nobody := |net.nodes|;
    WithinLinks(net);
    RestingExtends(net, net', 0);
    RestingExtends(net, net', nobody);
    forall n | 0 <= n < |net'.nodes| ensures NodeOk(net', n) {
      assert NodeOk(net, n);
      BystanderKeeps(net, net', nobody, n);
      assert n in {n};
    }
    SameHistory(net, net', 0);
    SameConnects(net, net', 0);
  }

  /** What `rooms`, the routing table or the pipes lose. */
  predicate Drops(a: Action) {
    a.DropAction? || a.UnpipeAction? || a.SweepAction?
  }

  lemma DropTable(net: Net, a: Action)
    requires TableOk(net) && Enabled(net, a) && Drops(a)
    ensures TableOk(Apply(net, a))
  {
    var net' := Apply(net, a);
    forall n, c | 0 <= n < |net'.nodes| && 0 <= c < |net'.nodes[n].down| ensures Listed(net', n, c) {
      assert Listed(net, n, c);
    }
  }

  /** Nobody hears of a room, a route or a pipe that is dropped. */
  lemma DropKeeps(net: Net, a: Action)
    requires Inv(net) && Enabled(net, a) && Drops(a)
    ensures Inv(Apply(net, a)) && Extends(net, Apply(net, a), 0)
  {
    DropTable(net, a);
    RestingKeeps(net, Apply(net, a));
  }

  // ---------------------------------------------------------------- forwarding

  lemma TakenRoutes(net: Net, n: Node)
    requires Linked(net) && n < |net.nodes| && net.nodes[n].taken < |net.nodes[n].up|
    ensures Routed(net, Taken(net, n)) && Linked(Taken(net, n))
  {
  }

  lemma RoutedTwice(net: Net, net1: Net, net2: Net)
    requires Routed(net, net1) && Routed(net1, net2)
    ensures Routed(net, net2)
  {
    forall n | 0 <= n < |net.nodes| ensures Delivered(net.nodes[n], net2.nodes[n]) {
      assert Delivered(net.nodes[n], net1.nodes[n]) && Delivered(net1.nodes[n], net2.nodes[n]);
    }
  }

  /** A message is taken from the link of server `n` and perhaps put on the link to `to`. */
  lemma PassRoutes(net: Net, net': Net, n: Node, to: Node, m: Msg)
    requires Linked(net) && n < |net.nodes| && net.nodes[n].taken < |net.nodes[n].up| && to < |net.nodes|
    requires net'.h == net.h && net'.next == net.next
    requires net'.nodes == Taken(net, n).nodes || net'.nodes == Send(Taken(net, n), to, m).nodes
    ensures Routed(net, net')
  {
    TakenRoutes(net, n);
    SendRoutes(Taken(net, n), to, m);
    RoutedTwice(net, Taken(net, n), Send(Taken(net, n), to, m));
  }

  lemma ForwardRoutes(net: Net, n: Node)
    requires Linked(net) && n < |net.nodes| && net.nodes[n].taken < |net.nodes[n].up|
    ensures Routed(net, Forward(net, n))
  {
    var m := net.nodes[n].up[net.nodes[n].taken];
    var to := match m
      case StorePipeRelay(_, e, _) => e
      case CreateRelayProducer(_, _, e) => e
      case ConnectPipeRelay(r, _, _, _) =>
        if FindIngress(net.pipes, n, r).Some? then FindIngress(net.pipes, n, r).value else n
      case _ => n;
    PassRoutes(net, Forward(net, n), n, if to < |net.nodes| then to else n, m);
  }

  /** What a message has to satisfy to be put at the end of the link to server `n`. */
  ghost predicate Deliverable(net: Net, net': Net, n: Node, m: Msg)
    requires n < |net.nodes| == |net'.nodes|
  {
    && net'.nodes[n].down == net.nodes[n].down + [m]
    && DownMsgOk(net', n, |net.nodes[n].down|)
    && (m.ConnectPipeRelay? ==>
          forall j :: 0 <= j < |net.nodes[n].down| && net.nodes[n].down[j].ConnectPipeRelay? ==>
            net.nodes[n].down[j].remote != m.remote)
  }

  lemma ForwardFresh(net: Net, net': Net, n: Node, k: Node)
    requires n < |net.nodes| == |net'.nodes| && k < |net.nodes| && DownOk(net, k)
    requires net.nodes[n].taken < |net.nodes[n].up| && net'.nodes[n].taken == net.nodes[n].taken + 1
    requires net'.nodes[n].up == net.nodes[n].up && UpMsgOk(net', n, net.nodes[n].taken)
    requires k != n ==> net'.nodes[k].taken == net.nodes[k].taken
    requires net'.nodes[k].down == net.nodes[k].down || Deliverable(net, net', k, net.nodes[n].up[net.nodes[n].taken])
    ensures |net'.nodes[k].up| == |net.nodes[k].up| ==> FreshOk(net, net', k)
  {
    if net'.nodes[k].down != net.nodes[k].down {
      DistinctWith(net.nodes[k].down, net.nodes[n].up[net.nodes[n].taken]);
    }
  }

  /** The signaling server took the next message `m` of server `n`, and passed it to `to` if at all. */
  ghost predicate Passed(net: Net, net': Net, n: Node, m: Msg) {
    && n < |net.nodes| && net.nodes[n].taken < |net.nodes[n].up| && net.nodes[n].up[net.nodes[n].taken] == m
    && net' == Forward(net, n)
    && Routed(net, net')
  }

  lemma PassedFresh(net: Net, net': Net, n: Node, m: Msg)
    requires Passed(net, net', n, m) && UpMsgOk(net', n, net.nodes[n].taken)
    requires forall k :: 0 <= k < |net.nodes| ==> DownOk(net, k)
    requires forall k :: 0 <= k < |net.nodes| ==>
      net'.nodes[k].down == net.nodes[k].down || Deliverable(net, net', k, m)
    ensures forall k :: 0 <= k < |net.nodes| ==> FreshOk(net, net', k)
  {
    forall k | 0 <= k < |net.nodes| ensures FreshOk(net, net', k) {
      assert Delivered(net.nodes[k], net'.nodes[k]);
      assert DownOk(net, k);
      ForwardFresh(net, net', n, k);
    }
  }

  lemma PassedTable(net: Net, net': Net, n: Node, m: Msg)
    requires TableOk(net) && Passed(net, net', n, m) && !m.CreateRouterGroup?
    ensures TableOk(net')
  {
    TableStays(net, net');
  }

  lemma PassedKeeps(net: Net, net': Net, n: Node, m: Msg)
    requires Inv(net) && Passed(net, net', n, m)
    requires UpMsgOk(net', n, net.nodes[n].taken)
    requires forall k :: 0 <= k < |net.nodes| ==>
      net'.nodes[k].down == net.nodes[k].down || Deliverable(net, net', k, m)
    requires RecordsOk(net') && !m.CreateRouterGroup?
    ensures Inv(net') && Extends(net, net', 0)
  {
    AllDownOk(net);
    PassedFresh(net, net', n, m);
    PassedTable(net, net', n, m);
    RoutedKeeps(net, net');
  }

  lemma SameRecords(net: Net, net': Net)
    requires RecordsOk(net) && Routed(net, net') && net'.pipes == net.pipes
    ensures RecordsOk(net')
  {
    forall p | p in net'.pipes ensures p.ingress < |net'.nodes| && net'.nodes[p.ingress].ingress {
      assert Delivered(net.nodes[p.ingress], net'.nodes[p.ingress]);
    }
  }

  lemma NextUpOk(net: Net, n: Node)
    requires Inv(net) && n < |net.nodes| && net.nodes[n].taken < |net.nodes[n].up|
    ensures UpOk(net, n) && UpMsgOk(net, n, net.nodes[n].taken) && Linked(net)
  {
    WithinLinks(net);
    assert NodeOk(net, n);
  }

  lemma ForwardOfferKeeps(net: Net, n: Node, r: RouterId, e: Node, t: TransportId)
    requires Inv(net) && n < |net.nodes| && net.nodes[n].taken < |net.nodes[n].up|
    requires net.nodes[n].up[net.nodes[n].taken] == StorePipeRelay(r, e, t)
    ensures Inv(Forward(net, n)) && Extends(net, Forward(net, n), 0)
  {
    var net' := Forward(net, n);
    NextUpOk(net, n);
    ForwardRoutes(net, n);
    OfferPasses(net, net', n, r, e, t);
    OfferRecorded(net, net', n, r, e, t);
    PassedKeeps(net, net', n, StorePipeRelay(r, e, t));
  }

  lemma OfferPasses(net: Net, net': Net, n: Node, r: RouterId, e: Node, t: TransportId)
    requires Passed(net, net', n, StorePipeRelay(r, e, t)) && UpMsgOk(net, n, net.nodes[n].taken)
    ensures UpMsgOk(net', n, net.nodes[n].taken)
    ensures forall k :: 0 <= k < |net.nodes| ==>
      net'.nodes[k].down == net.nodes[k].down || Deliverable(net, net', k, StorePipeRelay(r, e, t))
  {
  }

  lemma OfferRecorded(net: Net, net': Net, n: Node, r: RouterId, e: Node, t: TransportId)
    requires Passed(net, net', n, StorePipeRelay(r, e, t)) && UpMsgOk(net, n, net.nodes[n].taken)
    requires RecordsOk(net)
    ensures RecordsOk(net')
  {
    forall p | p in net'.pipes
      ensures p.ingress < |net'.nodes| && net'.nodes[p.ingress].ingress
      ensures p.route in net'.h.home && net'.h.home[p.route].node == p.ingress
    {
      if p in net.pipes {
        assert Delivered(net.nodes[p.ingress], net'.nodes[p.ingress]);
      } else {
        assert p == Record(n, e, r) && Delivered(net.nodes[n], net'.nodes[n]);
      }
    }
  }

  /** An offer that the signaling server took before reached the egress server. */
  lemma RequestFollowsOffer(net: Net, n: Node, room: Room, r: RouterId, e: Node)
    requires n < |net.nodes| && net.nodes[n].taken < |net.nodes[n].up| && UpOk(net, n)
    requires net.nodes[n].up[net.nodes[n].taken] == CreateRelayProducer(room, r, e)
    ensures IsEgress(net, e) ==> Told(net.nodes[e].down, r, |net.nodes[e].down|)
  {
    var nd := net.nodes[n];
    assert UpMsgOk(net, n, nd.taken);
    var k :| 0 <= k < nd.taken && nd.up[k].StorePipeRelay? && nd.up[k].route == r && nd.up[k].egress == e;
    assert UpMsgOk(net, n, k);
    if IsEgress(net, e) {
      var j :| 0 <= j < |net.nodes[e].down| && net.nodes[e].down[j] == nd.up[k];
      assert net.nodes[e].down[j].StorePipeRelay? && net.nodes[e].down[j].route == r;
    }
  }

  lemma RequestPasses(net: Net, net': Net, n: Node, room: Room, r: RouterId, e: Node)
    requires Passed(net, net', n, CreateRelayProducer(room, r, e)) && UpMsgOk(net, n, net.nodes[n].taken)
    requires IsEgress(net, e) ==> Told(net.nodes[e].down, r, |net.nodes[e].down|)
    ensures UpMsgOk(net', n, net.nodes[n].taken)
    ensures forall k :: 0 <= k < |net.nodes| ==>
      net'.nodes[k].down == net.nodes[k].down || Deliverable(net, net', k, CreateRelayProducer(room, r, e))
  {
    var nd := net.nodes[n];
    var k :| 0 <= k < nd.taken && nd.up[k].StorePipeRelay? && nd.up[k].route == r && nd.up[k].egress == e;
    assert net'.nodes[n].up[k] == nd.up[k];
  }

  lemma ForwardRequestKeeps(net: Net, n: Node, room: Room, r: RouterId, e: Node)
    requires Inv(net) && n < |net.nodes| && net.nodes[n].taken < |net.nodes[n].up|
    requires net.nodes[n].up[net.nodes[n].taken] == CreateRelayProducer(room, r, e)
    ensures Inv(Forward(net, n)) && Extends(net, Forward(net, n), 0)
  {
    var net' := Forward(net, n);
    NextUpOk(net, n);
    ForwardRoutes(net, n);
    RequestFollowsOffer(net, n, room, r, e);
    RequestPasses(net, net', n, room, r, e);
    SameRecords(net, net');
    PassedKeeps(net, net', n, CreateRelayProducer(room, r, e));
  }

  /** An answer on its way to the signaling server is on no link to a media server yet. */
  lemma AnswerIsNew(net: Net, n: Node, m: Msg, i: Node)
    requires n < |net.nodes| && net.nodes[n].taken < |net.nodes[n].up| && UpOk(net, n)
    requires m == net.nodes[n].up[net.nodes[n].taken] && m.ConnectPipeRelay?
    requires i < |net.nodes| && DownOk(net, i)
    ensures forall j :: 0 <= j < |net.nodes[i].down| && net.nodes[i].down[j].ConnectPipeRelay? ==>
      net.nodes[i].down[j].remote != m.remote
  {
    assert UpMsgOk(net, n, net.nodes[n].taken);
    forall j | 0 <= j < |net.nodes[i].down| && net.nodes[i].down[j].ConnectPipeRelay?
      ensures net.nodes[i].down[j].remote != m.remote
    {
      assert DownMsgOk(net, i, j);
    }
  }

  lemma AnswerPasses(net: Net, net': Net, n: Node, m: Msg)
    requires Passed(net, net', n, m) && m.ConnectPipeRelay? && UpMsgOk(net, n, net.nodes[n].taken) && RecordsOk(net)
    requires forall i, j ::
      0 <= i < |net.nodes| && 0 <= j < |net.nodes[i].down| && net.nodes[i].down[j].ConnectPipeRelay? ==>
        net.nodes[i].down[j].remote != m.remote
    ensures UpMsgOk(net', n, net.nodes[n].taken)
    ensures forall k :: 0 <= k < |net.nodes| ==> net'.nodes[k].down == net.nodes[k].down || Deliverable(net, net', k, m)
  {
    assert net'.nodes[n].up[net.nodes[n].taken] == m;
  }

  lemma ForwardAnswerKeeps(net: Net, n: Node)
    requires Inv(net) && n < |net.nodes| && net.nodes[n].taken < |net.nodes[n].up|
    requires net.nodes[n].up[net.nodes[n].taken].ConnectPipeRelay?
    ensures Inv(Forward(net, n)) && Extends(net, Forward(net, n), 0)
  {
    var net', m := Forward(net, n), net.nodes[n].up[net.nodes[n].taken];
    NextUpOk(net, n);
    AllDownOk(net);
    ForwardRoutes(net, n);
    forall i | 0 <= i < |net.nodes|
      ensures forall j :: 0 <= j < |net.nodes[i].down| && net.nodes[i].down[j].ConnectPipeRelay? ==>
        net.nodes[i].down[j].remote != m.remote
    {
      AnswerIsNew(net, n, m, i);
    }
    AnswerPasses(net, net', n, m);
    SameRecords(net, net');
    PassedKeeps(net, net', n, m);
  }

  lemma ForwardKeeps(net: Net, n: Node)
    requires Inv(net) && Enabled(net, ForwardAction(n))
    ensures Inv(Forward(net, n)) && Extends(net, Forward(net, n), 0)
  {
    NextUpOk(net, n);
    match net.nodes[n].up[net.nodes[n].taken]
    case StorePipeRelay(r, e, t) => ForwardOfferKeeps(net, n, r, e, t);
    case CreateRelayProducer(room, r, e) => ForwardRequestKeeps(net, n, room, r, e);
    case ConnectPipeRelay(_, _, _, _) => ForwardAnswerKeeps(net, n);
  }

  // ---------------------------------------------------------------- a router is lost

  lemma RouterGoneNode(net: Net, n: Node, q: RouterId, t: TransportId)
    requires n < |net.nodes| && NodeOk(net, n) && !net.nodes[n].ingress
    ensures AllOk(RouterGone(net, n, q, t), {n})
  {
    var net' := RouterGone(net, n, q, t);
    Rooms.RouterClosedKeeps(net.nodes[n].server, q, t, net.next);
    forall j | 0 <= j < |net.nodes[n].down| ensures DownMsgOk(net', n, j) {
      assert DownMsgOk(net, n, j);
    }
    forall j | 0 <= j < |net.nodes[n].up| ensures UpMsgOk(net', n, j) {
      assert UpMsgOk(net, n, j);
    }
    Assemble(net', n);
  }

  lemma RouterGoneExtends(net: Net, n: Node, q: RouterId, t: TransportId)
    requires Linked(net) && n < |net.nodes|
    ensures Extends(net, RouterGone(net, n, q, t), n)
  {
  }

  lemma RouterGoneKeeps(net: Net, n: Node, q: RouterId, t: TransportId)
    requires Inv(net) && Enabled(net, RouterGoneAction(n, q, t))
    ensures Inv(RouterGone(net, n, q, t)) && Extends(net, RouterGone(net, n, q, t), n)
  {
    var net' := RouterGone(net, n, q, t);
    WithinLinks(net);
    RouterGoneExtends(net, n, q, t);
    forall m | 0 <= m < |net'.nodes| ensures NodeOk(net', m) {
      assert NodeOk(net, m);
      if m == n {
        RouterGoneNode(net, n, q, t);
      } else {
        BystanderKeeps(net, net', n, m);
      }
      assert m in {m};
    }
    SameHistory(net, net', n);
    SameConnects(net, net', n);
    forall m, c | 0 <= m < |net'.nodes| && 0 <= c < |net'.nodes[m].down| ensures Listed(net', m, c) {
      assert Listed(net, m, c);
    }
  }

  // ---------------------------------------------------------------- every action, and whole runs

  function Actor(a: Action): Node {
    match a
    case ServeAction(n, _) => n
    case RouterGoneAction(n, _, _) => n
    case _ => 0
  }

  lemma StepKeeps(net: Net, a: Action)
    requires Inv(net) && Enabled(net, a)
    ensures Inv(Apply(net, a)) && Extends(net, Apply(net, a), Actor(a))
  {
    match a
    case JoinAction(room, n) => JoinKeeps(net, room, n);
    case ApiAction(n, m) => ApiKeeps(net, n, m);
    case CloseAction(room) => CloseKeeps(net, CloseRoom(net, room), room);
    case DestroyAction(room) => CloseKeeps(net, DestroyRoom(net, room), room);
    case DropAction(_) => DropKeeps(net, a);
    case UnpipeAction(_, _) => DropKeeps(net, a);
    case SweepAction(_) => DropKeeps(net, a);
    case ServeAction(n, gone) => ServeKeeps(net, n, gone);
    case ForwardAction(n) => ForwardKeeps(net, n);
    case RouterGoneAction(n, q, t) => RouterGoneKeeps(net, n, q, t);
  }

  lemma InitialOk(net: Net)
    requires Initial(net)
    ensures Inv(net)
  {
    forall n | 0 <= n < |net.nodes| ensures NodeOk(net, n) {
      assert net.nodes[n].server == Fresh;
    }
  }

  lemma {:induction false} RunKeeps(trace: seq<Net>, actions: seq<Action>, k: nat)
    requires Run(trace, actions) && k < |trace|
    ensures Inv(trace[k])
  {
    if k == 0 {
      InitialOk(trace[0]);
    } else {
      RunKeeps(trace, actions, k - 1);
      StepKeeps(trace[k - 1], actions[k - 1]);
      assert trace[(k - 1) + 1] == Apply(trace[k - 1], actions[k - 1]);
    }
  }
}
