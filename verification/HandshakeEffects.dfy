/** What single steps of the handshake do, said of the links, the pipes and the tables of the servers. */
module HandshakeEffects {
  import opened Sfu
  import opened Handshake
  import Rooms

  /** Server `to` gets one more message, if any, and all else stays as it is. */
  ghost predicate Delivers(net: Net, net': Net, to: Option<Node>, m: Msg) {
    && |net'.nodes| == |net.nodes|
    && net' == net.(nodes := net'.nodes)
    && forall n :: 0 <= n < |net.nodes| ==>
         net'.nodes[n] == if to == Some(n) then net.nodes[n].(down := net.nodes[n].down + [m]) else net.nodes[n]
  }

  lemma SendDelivers(net: Net, n: Node, m: Msg)
    requires n < |net.nodes|
    ensures Delivers(net, Send(net, n, m), Some(n), m)
  {
  }

  /** The first pipe from a router to the egress server. */
  ghost predicate IsRecord(pipes: seq<Record>, egress: Node, route: RouterId, k: nat) {
    && k < |pipes| && pipes[k].egress == egress && pipes[k].route == route
    && forall j :: 0 <= j < k ==> pipes[j].egress != egress || pipes[j].route != route
  }

  lemma {:induction false} FirstRecord(pipes: seq<Record>, egress: Node, route: RouterId, k: nat)
    requires IsRecord(pipes, egress, route, k)
    ensures FindIngress(pipes, egress, route) == Some(pipes[k].ingress)
  {
    if k > 0 {
      assert forall j :: 0 <= j < k ==> pipes[1..][j] == pipes[j + 1];
      FirstRecord(pipes[1..], egress, route, k - 1);
    }
  }

  lemma {:induction false} NoRecord(pipes: seq<Record>, egress: Node, route: RouterId)
    requires forall p :: p in pipes ==> p.egress != egress || p.route != route
    ensures FindIngress(pipes, egress, route) == None
  {
    if pipes != [] {
      assert pipes[0] in pipes;
      NoRecord(pipes[1..], egress, route);
    }
  }

  /** The message that the signaling server reads next from server `n`. */
  function Next(net: Net, n: Node): Msg
    requires n < |net.nodes| && net.nodes[n].taken < |net.nodes[n].up|
  {
    net.nodes[n].up[net.nodes[n].taken]
  }

  /** An offer is recorded as a pipe from its server, and goes on, like a request for a producer, to the
      egress server that it names, if that is one. */
  lemma ForwardsDown(net: Net, n: Node)
    requires n < |net.nodes| && net.nodes[n].taken < |net.nodes[n].up|
    requires Next(net, n).StorePipeRelay? || Next(net, n).CreateRelayProducer?
    ensures var m := Next(net, n);
      var read := Taken(net, n).(pipes := if m.StorePipeRelay? then net.pipes + [Record(n, m.egress, m.route)]
                                          else net.pipes);
      Delivers(read, Forward(net, n),
               if m.egress < |net.nodes| && !net.nodes[m.egress].ingress then Some(m.egress) else None, m)
  {
    var m := Next(net, n);
    var read := Taken(net, n).(pipes := if m.StorePipeRelay? then net.pipes + [Record(n, m.egress, m.route)]
                                        else net.pipes);
    if m.egress < |net.nodes| && !net.nodes[m.egress].ingress {
      SendDelivers(read, m.egress, m);
    }
  }

  /** An answer goes back to the ingress server of the first pipe from that router to the server it came
      from. */
  lemma ForwardsBack(net: Net, n: Node)
    requires n < |net.nodes| && net.nodes[n].taken < |net.nodes[n].up| && Next(net, n).ConnectPipeRelay?
    ensures var m := Next(net, n);
      && (forall k: nat :: IsRecord(net.pipes, n, m.route, k) ==>
            var i := net.pipes[k].ingress;
            Delivers(Taken(net, n), Forward(net, n),
                     if i < |net.nodes| && net.nodes[i].ingress then Some(i) else None, m))
      && ((forall p :: p in net.pipes ==> p.egress != n || p.route != m.route) ==> Forward(net, n) == Taken(net, n))
  {
    var m, read := Next(net, n), Taken(net, n);
    forall k: nat | IsRecord(net.pipes, n, m.route, k)
      ensures var i := net.pipes[k].ingress;
        Delivers(read, Forward(net, n), if i < |net.nodes| && net.nodes[i].ingress then Some(i) else None, m)
    {
      FirstRecord(net.pipes, n, m.route, k);
      if net.pipes[k].ingress < |net.nodes| {
        SendDelivers(read, net.pipes[k].ingress, m);
      }
    }
    if forall p :: p in net.pipes ==> p.egress != n || p.route != m.route {
      NoRecord(net.pipes, n, m.route);
    }
  }

  /** Server `n` has read its message, sends these, and nothing else changes outside of it. */
  ghost predicate Answers(net: Net, net': Net, n: Node, sent: seq<Msg>)
    requires n < |net.nodes|
  {
    && |net'.nodes| == |net.nodes| && net'.rooms == net.rooms && net'.table == net.table && net'.pipes == net.pipes
    && (forall m :: 0 <= m < |net.nodes| && m != n ==> net'.nodes[m] == net.nodes[m])
    && net'.nodes[n].read == net.nodes[n].read + 1 && net'.nodes[n].up == net.nodes[n].up + sent
    && net'.nodes[n].down == net.nodes[n].down && net'.nodes[n].taken == net.nodes[n].taken
  }

  /** A producer is relayed exactly if the peer has a router here, that router a relay to the peer's egress
      server, and its first such relay a pipe; the request names the room and the router. */
  lemma ProducerAsks(net: Net, n: Node, peer: Peer, room: Room, e: Node, k: nat)
    requires n < |net.nodes| && peer in net.nodes[n].routes
    requires Rooms.IsFirst(net.nodes[n].server.relays, net.nodes[n].routes[peer], Some(e), k)
    ensures var nd, net' := net.nodes[n], ServeProducer(net, n, peer, room, e);
      && net'.nodes[n].server == nd.server && net'.nodes[n].routes == nd.routes
      && Answers(net, net', n,
                 if exists p :: p in nd.server.pipes && p.transport == nd.server.relays[k].transport
                 then [CreateRelayProducer(room, nd.routes[peer], e)] else [])
  {
    var nd := net.nodes[n];
    assert nd.up + [] == nd.up;
    Rooms.FirstOfPair(nd.server.relays, nd.routes[peer], e, k);
  }

  lemma NothingToAsk(net: Net, n: Node, peer: Peer, room: Room, e: Node)
    requires n < |net.nodes|
    requires peer in net.nodes[n].routes ==>
      forall x :: x in net.nodes[n].server.relays ==> x.router != net.nodes[n].routes[peer] || x.egress != e
    ensures var nd, net' := net.nodes[n], ServeProducer(net, n, peer, room, e);
      && net'.nodes[n].server == nd.server && net'.nodes[n].routes == nd.routes && Answers(net, net', n, [])
  {
    var nd := net.nodes[n];
    assert nd.up + [] == nd.up;
    if peer in nd.routes {
      var found := OfPair(nd.server.relays, nd.routes[peer], e);
      assert found != [] ==> found[0] in found;
    }
  }

  /** A client's ingress transport is put on a selected router of the room, which is remembered for the
      client, and the offers for the egress servers are sent. */
  lemma IngressOffers(net: Net, n: Node, peer: Peer, room: Room, es: seq<Option<Node>>)
    requires n < |net.nodes|
    ensures var nd, net' := net.nodes[n], ServeIngress(net, n, peer, room, es);
      var selected, counted := Selected(nd.server, room), AfterSelect(nd.server, room);
      if selected.None? then
        Answers(net, net', n, []) && net'.nodes[n].server == nd.server && net'.nodes[n].routes == nd.routes
      else if selected.value !in nd.server.routers then
        Answers(net, net', n, []) && net'.nodes[n].server == counted && net'.nodes[n].routes == nd.routes
      else
        var (server, offers) := OfferAll(counted, selected.value, room, es, net.next);
        && Answers(net, net', n, OfferMessages(selected.value, offers))
        && net'.nodes[n].server == server && net'.nodes[n].routes == nd.routes[peer := selected.value]
  {
    assert net.nodes[n].up + [] == net.nodes[n].up;
  }

  /** An egress server that answers sends one message, with the router that it selected; its new pipe is
      connected if the offer is there. */
  lemma RelayAnswers(net: Net, n: Node, room: Room, r: RouterId)
    requires n < |net.nodes|
    ensures var nd, net', answer := net.nodes[n], ServeRelay(net, n, room, r), AnswerOf(net.nodes[n].server, room, r);
      && Answers(net, net', n,
                 if answer.Answered? then [ConnectPipeRelay(r, answer.router, n, net.next)] else [])
      && net'.nodes[n].server == AnswerRelay(nd.server, n, room, r, net.next)
      && net'.h.connects == net.h.connects
           + if answer.Answered? && r in nd.server.pending then [Connect(n, net.next, nd.server.pending[r])] else []
  {
    assert net.nodes[n].up + [] == net.nodes[n].up && net.h.connects + [] == net.h.connects;
  }

  /** A room is destroyed on exactly the servers that the routing table has for it. */
  lemma DestroyTells(net: Net, room: Room, n: Node)
    requires n < |net.nodes|
    ensures var net' := CloseRoom(net, room);
      && net'.rooms == net.rooms - {room} && net'.table == net.table && net'.pipes == net.pipes
      && |net'.nodes| == |net.nodes|
      && net'.nodes[n] ==
           if room in net.table && n in net.table[room]
           then net.nodes[n].(down := net.nodes[n].down + [DestroyRouterGroup(room)]) else net.nodes[n]
  {
  }
}
