/** Clients that join a room only from outside all rooms.  Whatever an ingress server is asked for by
    such a client, up to the client's goodbye, names one room; so producer requests name the room of
    the transport, and pipes are connected at most once and to one another, in every room that was
    never dropped with nobody told. */
module JointSessions {
  import opened Sfu
  import opened Signaling
  import opened Handshake
  import opened HandshakeInvariant
  import opened HandshakeRouting
  import opened HandshakeDiscipline
  import opened HandshakeAgreements
  import opened HandshakeCondition
  import opened JointRuns
  import MeshRuns
  import RelayProducers

  // ---------------------------------------------------------------- what the links say of a client

  predicate IsAsk(m: Msg) {
    m.CreateWebRTCIngress? || m.CreateProducer?
  }

  /** The peer said goodbye between messages `from` and `to`. */
  ghost predicate Ended(log: seq<Msg>, p: PeerId, from: nat, to: nat) {
    exists k :: from < k < to && k < |log| && log[k] == DisconnectTransport(p)
  }

  /** Two requests of a peer with no goodbye in between are for the same room. */
  ghost predicate OneRoom(log: seq<Msg>) {
    forall j, k :: 0 <= j < k < |log| && IsAsk(log[j]) && IsAsk(log[k]) && log[j].peer == log[k].peer ==>
      Ended(log, log[j].peer, j, k) || log[j].room == log[k].room
  }

  /** A request with no goodbye after it is for the room that the peer is in, on its own server. */
  ghost predicate Current(s: State, n: Node, log: seq<Msg>) {
    forall j :: 0 <= j < |log| && IsAsk(log[j]) ==> Ended(log, log[j].peer, j, |log|) || Fits(s, n, log[j])
  }

  predicate Fits(s: State, n: Node, m: Msg)
    requires IsAsk(m)
  {
    m.peer in s.peers && s.peers[m.peer].ingress == Some(n) && s.peers[m.peer].room == Some(m.room)
  }

  /** A peer's transport is in the room that it was last asked for. */
  ghost predicate RouteOk(net: Net, n: Node, p: PeerId)
    requires n < |net.nodes| && p in net.nodes[n].routes
  {
    var nd := net.nodes[n];
    exists j :: 0 <= j < nd.read && j < |nd.down| && nd.down[j].CreateWebRTCIngress? && nd.down[j].peer == p
             && RoomOf(net, nd.routes[p], nd.down[j].room) && !Ended(nd.down, p, j, nd.read)
  }

  ghost predicate RoutesOk(net: Net, n: Node)
    requires n < |net.nodes|
  {
    forall p :: p in net.nodes[n].routes ==> RouteOk(net, n, p)
  }

  ghost predicate SessionsAt(s: State, net: Net, n: Node)
    requires n < |net.nodes|
  {
    OneRoom(net.nodes[n].down) && Current(s, n, net.nodes[n].down) && RoutesOk(net, n)
  }

  ghost predicate Sessions(s: State, net: Net) {
    forall n :: 0 <= n < |net.nodes| ==> SessionsAt(s, net, n)
  }

  /** What discipline asks for. */
  lemma SessionsDiscipline(s: State, net: Net, a: Action)
    requires Sessions(s, net) && Enabled(net, a)
    ensures Disciplined(net, a)
  {
    if a.ServeAction? {
      var nd := net.nodes[a.n];
      var m := nd.down[nd.read];
      if m.CreateProducer? && m.peer in nd.routes {
        assert SessionsAt(s, net, a.n) && RouteOk(net, a.n, m.peer);
        var j :| 0 <= j < nd.read && j < |nd.down| && nd.down[j].CreateWebRTCIngress? && nd.down[j].peer == m.peer
              && RoomOf(net, nd.routes[m.peer], nd.down[j].room) && !Ended(nd.down, m.peer, j, nd.read);
        assert IsAsk(nd.down[j]) && IsAsk(nd.down[nd.read]);
      }
    }
  }

  // ---------------------------------------------------------------- what handling a message leaves alone

  ghost predicate RoutesRead(nd: NodeState, nd': NodeState, m: Msg) {
    match m
    case DisconnectTransport(p) => nd'.routes == nd.routes - {p}
    case CreateWebRTCIngress(p, room, _) =>
      nd'.routes == nd.routes
      || (Selected(nd.server, room).Some? && nd'.routes == nd.routes[p := Selected(nd.server, room).value])
    case _ => nd'.routes == nd.routes
  }

  /** Server `n` read message `m`: its link and all other servers stay as they are. */
  ghost predicate Handled(net: Net, net': Net, n: Node, m: Msg) {
    && n < |net.nodes| == |net'.nodes|
    && (forall k :: 0 <= k < |net.nodes| && k != n ==> net'.nodes[k] == net.nodes[k])
    && var nd, nd' := net.nodes[n], net'.nodes[n];
    && nd'.down == nd.down && nd'.read == nd.read + 1 && RoutesRead(nd, nd', m)
  }

  lemma GroupHandled(net: Net, n: Node, room: Room)
    requires n < |net.nodes|
    ensures Handled(net, ServeGroup(net, n, room), n, CreateRouterGroup(room))
  {
  }

  lemma IngressHandled(net: Net, n: Node, peer: PeerId, room: Room, es: seq<Option<Node>>)
    requires n < |net.nodes|
    ensures Handled(net, ServeIngress(net, n, peer, room, es), n, CreateWebRTCIngress(peer, room, es))
  {
  }

  lemma ProducerHandled(net: Net, n: Node, peer: PeerId, room: Room, e: Node)
    requires n < |net.nodes|
    ensures Handled(net, ServeProducer(net, n, peer, room, e), n, CreateProducer(peer, room, e))
  {
  }

  lemma DestroyHandled(net: Net, n: Node, room: Room, gone: set<RouterId>)
    requires n < |net.nodes|
    ensures Handled(net, ServeDestroy(net, n, room, gone), n, DestroyRouterGroup(room))
  {
  }

  lemma RelayHandled(net: Net, n: Node, room: Room, r: RouterId, e: Node)
    requires n < |net.nodes|
    ensures Handled(net, ServeRelay(net, n, room, r), n, CreateRelayProducer(room, r, e))
  {
  }

  lemma ConnectHandled(net: Net, n: Node, r: RouterId, q: RouterId, e: Node, remote: TransportId)
    requires n < |net.nodes|
    ensures Handled(net, ServeConnect(net, n, r, e, remote), n, ConnectPipeRelay(r, q, e, remote))
  {
  }

  lemma ServeHandled(net: Net, n: Node, gone: set<RouterId>)
    requires Enabled(net, ServeAction(n, gone))
    ensures Handled(net, Serve(net, n, gone), n, net.nodes[n].down[net.nodes[n].read])
  {
    match net.nodes[n].down[net.nodes[n].read]
    case CreateRouterGroup(room) => GroupHandled(net, n, room);
    case CreateWebRTCIngress(peer, room, es) => IngressHandled(net, n, peer, room, es);
    case CreateProducer(peer, room, e) => ProducerHandled(net, n, peer, room, e);
    case DestroyRouterGroup(room) => DestroyHandled(net, n, room, gone);
    case CreateRelayProducer(room, r, e) => RelayHandled(net, n, room, r, e);
    case ConnectPipeRelay(r, q, e, remote) => ConnectHandled(net, n, r, q, e, remote);
    case _ =>
  }

  // ---------------------------------------------------------------- one more message on a link

  lemma EndedStays(log: seq<Msg>, log': seq<Msg>, p: PeerId, from: nat, to: nat, to': nat)
    requires log <= log' && to <= |log|
    ensures Ended(log, p, from, to) && to <= to' ==> Ended(log', p, from, to')
    ensures Ended(log', p, from, to) ==> Ended(log, p, from, to)
  {
    if Ended(log, p, from, to) {
      var k :| from < k < to && k < |log| && log[k] == DisconnectTransport(p);
      assert log'[k] == log[k];
    }
    if Ended(log', p, from, to) {
      var k :| from < k < to && k < |log'| && log'[k] == DisconnectTransport(p);
      assert log'[k] == log[k];
    }
  }

  /** Only a client's request puts a request on a link. */
  lemma LinkGrows(net: Net, a: Action, n: Node)
    requires Enabled(net, a) && n < |net.nodes|
    ensures var log, net' := net.nodes[n].down, Apply(net, a);
      && |net'.nodes| == |net.nodes|
      && (net'.nodes[n].down == log
          || exists m :: net'.nodes[n].down == log + [m] && (IsAsk(m) ==> a == ApiAction(n, m)))
  {
    var log, net' := net.nodes[n].down, Apply(net, a);
    match a
    case JoinAction(r, k) => assert net'.nodes[n].down == if k == n then log + [CreateRouterGroup(r)] else log;
    case ApiAction(k, m) => assert net'.nodes[n].down == if k == n then log + [m] else log;
    case CloseAction(r) =>
      assert net'.nodes[n].down == if r in net.table && n in net.table[r] then log + [DestroyRouterGroup(r)] else log;
    case DestroyAction(r) =>
      assert net'.nodes[n].down == if r in net.table && n in net.table[r] then log + [DestroyRouterGroup(r)] else log;
    case ServeAction(k, gone) => ServeHandled(net, k, gone);
    case ForwardAction(k) => ForwardLinks(net, k, n);
    case _ =>
  }

  lemma ForwardLinks(net: Net, k: Node, n: Node)
    requires Enabled(net, ForwardAction(k)) && n < |net.nodes|
    ensures var net', m := Forward(net, k), net.nodes[k].up[net.nodes[k].taken];
      && |net'.nodes| == |net.nodes|
      && (net'.nodes[n].down == net.nodes[n].down || (net'.nodes[n].down == net.nodes[n].down + [m] && !IsAsk(m)))
  {
  }

  lemma LinkKeeps(s: State, n: Node, log: seq<Msg>, m: Msg)
    requires OneRoom(log) && Current(s, n, log) && (IsAsk(m) ==> Fits(s, n, m))
    ensures OneRoom(log + [m]) && Current(s, n, log + [m])
  {
    var log' := log + [m];
    forall j, k | 0 <= j < k < |log'| && IsAsk(log'[j]) && IsAsk(log'[k]) && log'[j].peer == log'[k].peer
      ensures Ended(log', log'[j].peer, j, k) || log'[j].room == log'[k].room
    {
      assert log'[j] == log[j];
      EndedStays(log, log', log[j].peer, j, k, k);
    }
    forall j | 0 <= j < |log'| && IsAsk(log'[j]) ensures Ended(log', log'[j].peer, j, |log'|) || Fits(s, n, log'[j]) {
      if j < |log| {
        assert log'[j] == log[j];
        EndedStays(log, log', log[j].peer, j, |log|, |log'|);
      }
    }
  }

  // ---------------------------------------------------------------- routes

  lemma RouteStays(net: Net, net': Net, actor: Node, n: Node, p: PeerId)
    requires Extends(net, net', actor) && n < |net.nodes| && p in net.nodes[n].routes && RouteOk(net, n, p)
    requires p in net'.nodes[n].routes && net'.nodes[n].routes[p] == net.nodes[n].routes[p]
    requires net.nodes[n].read <= |net.nodes[n].down| && net'.nodes[n].read <= net.nodes[n].read + 1
    requires net'.nodes[n].read == net.nodes[n].read
      || (net.nodes[n].read < |net.nodes[n].down| && net.nodes[n].down[net.nodes[n].read] != DisconnectTransport(p))
    ensures RouteOk(net', n, p)
  {
    var nd, nd' := net.nodes[n], net'.nodes[n];
    assert NodeExtends(nd, nd');
    var j :| 0 <= j < nd.read && j < |nd.down| && nd.down[j].CreateWebRTCIngress? && nd.down[j].peer == p
          && RoomOf(net, nd.routes[p], nd.down[j].room) && !Ended(nd.down, p, j, nd.read);
    assert nd'.down[j] == nd.down[j] && RoomOf(net', nd.routes[p], nd.down[j].room);
  }

  /** What a server's routes look like after an action. */
  ghost predicate RoutesStep(net: Net, net': Net, n: Node)
    requires n < |net.nodes| == |net'.nodes|
  {
    var nd, nd' := net.nodes[n], net'.nodes[n];
    (nd'.routes == nd.routes && nd'.read == nd.read)
    || (nd.read < |nd.down| && nd'.read == nd.read + 1 && RoutesRead(nd, nd', nd.down[nd.read]))
  }

  lemma ForwardRoutes(net: Net, k: Node, n: Node)
    requires Enabled(net, ForwardAction(k)) && n < |net.nodes|
    ensures var net' := Forward(net, k);
      && |net'.nodes| == |net.nodes|
      && net'.nodes[n].routes == net.nodes[n].routes && net'.nodes[n].read == net.nodes[n].read
  {
    var m := net.nodes[k].up[net.nodes[k].taken];
    match m
    case ConnectPipeRelay(r, _, _, _) =>
      if FindIngress(net.pipes, k, r).Some? && FindIngress(net.pipes, k, r).value < |net.nodes| {
        PassedRoutes(net, k, FindIngress(net.pipes, k, r).value, m, n);
      }
    case StorePipeRelay(_, e, _) =>
      if e < |net.nodes| {
        PassedRoutes(net, k, e, m, n);
      }
    case CreateRelayProducer(_, _, e) =>
      if e < |net.nodes| {
        PassedRoutes(net, k, e, m, n);
      }
    case _ =>
  }

  lemma PassedRoutes(net: Net, k: Node, to: Node, m: Msg, n: Node)
    requires k < |net.nodes| && to < |net.nodes| && n < |net.nodes|
    ensures var nd' := Send(Taken(net, k), to, m).nodes[n];
      nd'.routes == net.nodes[n].routes && nd'.read == net.nodes[n].read
  {
  }

  lemma RoutesChange(net: Net, a: Action, n: Node)
    requires Enabled(net, a) && n < |net.nodes|
    ensures |Apply(net, a).nodes| == |net.nodes| && RoutesStep(net, Apply(net, a), n)
  {
    match a
    case ServeAction(k, gone) => ServeHandled(net, k, gone);
    case ForwardAction(k) => ForwardRoutes(net, k, n);
    case _ =>
  }

  lemma NewRoute(net: Net, net': Net, actor: Node, n: Node, p: PeerId, room: Room)
    requires Extends(net, net', actor) && n < |net.nodes| && GroupsAtHome(net, n)
    requires net.nodes[n].read < |net.nodes[n].down| && net'.nodes[n].read == net.nodes[n].read + 1
    requires var m := net.nodes[n].down[net.nodes[n].read]; m.CreateWebRTCIngress? && m.peer == p && m.room == room
    requires Selected(net.nodes[n].server, room).Some?
    requires p in net'.nodes[n].routes && net'.nodes[n].routes[p] == Selected(net.nodes[n].server, room).value
    ensures RouteOk(net', n, p)
  {
    var nd, nd' := net.nodes[n], net'.nodes[n];
    assert NodeExtends(nd, nd');
    assert nd'.down[nd.read] == nd.down[nd.read];
    assert RoomOf(net', nd'.routes[p], room);
    assert !Ended(nd'.down, p, nd.read, nd'.read);
  }

  lemma RoutesKeep(net: Net, net': Net, actor: Node, n: Node)
    requires Extends(net, net', actor) && n < |net.nodes| && GroupsAtHome(net, n) && RoutesOk(net, n)
      && RoutesStep(net, net', n)
    ensures RoutesOk(net', n)
  {
    var nd, nd' := net.nodes[n], net'.nodes[n];
    forall p | p in nd'.routes ensures RouteOk(net', n, p) {
      if p in nd.routes && nd'.routes[p] == nd.routes[p]
        && (nd'.read == nd.read || nd.down[nd.read] != DisconnectTransport(p)) {
        RouteStays(net, net', actor, n, p);
      } else {
        NewRoute(net, net', actor, n, p, nd.down[nd.read].room);
      }
    }
  }

  // ---------------------------------------------------------------- every action

  lemma ActionSessions(s: State, net: Net, a: Action)
    requires Inv(net) && Sessions(s, net) && Enabled(net, a)
    requires a.ApiAction? && IsAsk(a.msg) ==> Fits(s, a.n, a.msg)
    ensures Sessions(s, Apply(net, a))
  {
    var net' := Apply(net, a);
    StepKeeps(net, a);
    forall n | 0 <= n < |net'.nodes| ensures SessionsAt(s, net', n) {
      assert SessionsAt(s, net, n) && NodeOk(net, n);
      LinkGrows(net, a, n);
      if net'.nodes[n].down != net.nodes[n].down {
        var m :| net'.nodes[n].down == net.nodes[n].down + [m] && (IsAsk(m) ==> a == ApiAction(n, m));
        LinkKeeps(s, n, net.nodes[n].down, m);
      }
      RoutesChange(net, a, n);
      RoutesKeep(net, net', Actor(a), n);
    }
  }

  /** Orders that the signaling server gives while the peers are as in `s`. */
  predicate Fitting(s: State, a: Action) {
    a.ApiAction? && IsAsk(a.msg) ==> Fits(s, a.n, a.msg)
  }

  predicate Fit(s: State, actions: seq<Action>) {
    forall a :: a in actions ==> Fitting(s, a)
  }

  lemma {:induction false} AllSessions(s: State, net: Net, actions: seq<Action>)
    requires Inv(net) && Sessions(s, net) && AllEnabled(net, actions) && Fit(s, actions)
    ensures Inv(ApplyAll(net, actions)) && Sessions(s, ApplyAll(net, actions))
    decreases |actions|
  {
    if actions != [] {
      assert actions[0] in actions && forall a :: a in actions[1..] ==> a in actions;
      StepKeeps(net, actions[0]);
      ActionSessions(s, net, actions[0]);
      AllSessions(s, Apply(net, actions[0]), actions[1..]);
    }
  }

  // ---------------------------------------------------------------- what a move makes of the peers

  /** No server has a request of the peer with no goodbye after it. */
  ghost predicate NoAsk(net: Net, p: PeerId) {
    forall n: nat, j: nat :: AskAt(net, n, j, p) ==> Ended(net.nodes[n].down, p, j, |net.nodes[n].down|)
  }

  predicate AskAt(net: Net, n: Node, j: nat, p: PeerId) {
    n < |net.nodes| && j < |net.nodes[n].down| && IsAsk(net.nodes[n].down[j]) && net.nodes[n].down[j].peer == p
  }

  predicate SamePlace(s: State, s': State, p: PeerId)
    requires p in s.peers
  {
    p in s'.peers && s'.peers[p].ingress == s.peers[p].ingress && s'.peers[p].room == s.peers[p].room
  }

  lemma Resettle(s: State, s': State, net: Net)
    requires Sessions(s, net)
    requires forall p :: p in s.peers ==> SamePlace(s, s', p) || NoAsk(net, p)
    ensures Sessions(s', net)
  {
    forall n | 0 <= n < |net.nodes| ensures SessionsAt(s', net, n) {
      assert SessionsAt(s, net, n);
    }
  }

  /** Whoever is in no room has nothing open. */
  lemma OutsideHasNoAsk(s: State, net: Net, p: PeerId)
    requires Sessions(s, net) && (p in s.peers ==> s.peers[p].room.None?)
    ensures NoAsk(net, p)
  {
    forall n: nat, j: nat | AskAt(net, n, j, p) ensures Ended(net.nodes[n].down, p, j, |net.nodes[n].down|)
    {
      assert SessionsAt(s, net, n) && !Fits(s, n, net.nodes[n].down[j]);
    }
  }

  lemma NoAskStep(net: Net, a: Action, p: PeerId)
    requires NoAsk(net, p) && Enabled(net, a) && (a.ApiAction? && IsAsk(a.msg) ==> a.msg.peer != p)
    ensures NoAsk(Apply(net, a), p)
  {
    var net' := Apply(net, a);
    forall n: nat, j: nat | AskAt(net', n, j, p) ensures Ended(net'.nodes[n].down, p, j, |net'.nodes[n].down|)
    {
      LinkGrows(net, a, n);
      EndedStays(net.nodes[n].down, net'.nodes[n].down, p, j, |net.nodes[n].down|, |net'.nodes[n].down|);
    }
  }

  lemma {:induction false} NoAskStays(net: Net, actions: seq<Action>, p: PeerId)
    requires NoAsk(net, p) && AllEnabled(net, actions)
    requires forall a :: a in actions ==> a.ApiAction? ==> !IsAsk(a.msg)
    ensures NoAsk(ApplyAll(net, actions), p)
    decreases |actions|
  {
    if actions != [] {
      assert actions[0] in actions && forall a :: a in actions[1..] ==> a in actions;
      NoAskStep(net, actions[0], p);
      NoAskStays(Apply(net, actions[0]), actions[1..], p);
    }
  }

  /** The goodbye to the peer's own ingress server ends whatever it has open. */
  lemma GoodbyeEnds(s: State, net: Net, p: PeerId)
    requires Sessions(s, net) && p in s.peers && AllEnabled(net, Goodbye(s.peers[p].ingress, p))
    ensures NoAsk(ApplyAll(net, Goodbye(s.peers[p].ingress, p)), p)
  {
    var i := s.peers[p].ingress;
    var net' := ApplyAll(net, Goodbye(i, p));
    if i.Some? {
      OneOrder(net, ApiAction(i.value, DisconnectTransport(p)));
      assert net' == Send(net, i.value, DisconnectTransport(p));
    }
    forall n: nat, j: nat | AskAt(net', n, j, p) ensures Ended(net'.nodes[n].down, p, j, |net'.nodes[n].down|)
    {
      assert SessionsAt(s, net, n);
      var log, log' := net.nodes[n].down, net'.nodes[n].down;
      if i == Some(n) {
        assert log' == log + [DisconnectTransport(p)] && log'[|log|] == DisconnectTransport(p);
      } else {
        assert log' == log && !Fits(s, n, log[j]);
      }
    }
  }

  lemma {:induction false} JoinsOnly(r: Room, ns: seq<Node>)
    ensures forall a :: a in EachJoin(r, ns) ==> a.JoinAction?
  {
    if ns != [] {
      JoinsOnly(r, ns[1..]);
    }
  }

  /** Orders that open nothing. */
  predicate Idle(a: Action) {
    !a.ServeAction? && (a.ApiAction? ==> !IsAsk(a.msg))
  }

  lemma FarewellOnly(s: State, p: PeerId, r: Option<Room>, last: seq<Action>)
    requires p in s.peers && forall a :: a in last ==> Idle(a)
    ensures forall a :: a in Farewell(s, p, r, last) ==> Idle(a)
  {
    if r.Some? && r.value in s.rooms {
      GoodbyesOnly(s.rooms[r.value].egress, p);
    }
  }

  lemma GoneOnly(s: State, p: PeerId)
    ensures forall a :: a in GoneOrders(s, p) ==> Idle(a)
  {
    if p in s.peers {
      FarewellOnly(s, p, s.peers[p].room, GoneLast(s, p));
    }
  }

  lemma LeaveOnly(s: State, p: PeerId, r: Room)
    ensures forall a :: a in LeaveOrders(s, p, r) ==> Idle(a)
  {
    if p in s.peers {
      FarewellOnly(s, p, Some(r), LeaveLast(s, p, r));
    }
  }

  lemma {:induction false} DropOnly(s: State, order: seq<PeerId>, n: Node)
    ensures forall a :: a in DropOrders(s, order, n) ==> Idle(a)
  {
    if order != [] {
      var rest, last := order[..|order| - 1], order[|order| - 1];
      DropOnly(s, rest, n);
      if DropPeers(s, rest, n).Done? {
        GoneOnly(DropPeers(s, rest, n).state, last);
      }
    }
  }

  /** All that goodbyes, joins and closes have in common. */
  lemma MovesOnly(s: State, m: Move)
    requires m.Request? && !Staying(m)
    ensures forall a :: a in Orders(s, m) ==> Idle(a)
  {
    match m.op
    case Join(p, r, i, e) => JoinsOnly(r, Joining(s, p, r, i, e));
    case Leave(p, r) => LeaveOnly(s, p, r);
    case Gone(p) => GoneOnly(s, p);
    case Close(order, n, _, _) => DropOnly(s, order, n);
  }

  lemma OrdersFit(j: Joint, m: Move)
    requires Allowed(j, m)
    ensures Fit(j.s, Orders(j.s, m))
    ensures !m.Media? ==> forall a :: a in Orders(j.s, m) ==> !a.ServeAction?
  {
    if m.Request? && !Staying(m) {
      MovesOnly(j.s, m);
    }
  }

  /** Who says goodbye has nothing open afterwards. */
  lemma FarewellEnds(s: State, net: Net, p: PeerId, r: Option<Room>, last: seq<Action>)
    requires Sessions(s, net) && p in s.peers && AllEnabled(net, Farewell(s, p, r, last))
    requires forall a :: a in last ==> Idle(a)
    ensures NoAsk(ApplyAll(net, Farewell(s, p, r, last)), p)
  {
    var first, all := Goodbye(s.peers[p].ingress, p), Farewell(s, p, r, last);
    var rest := all[|first|..];
    assert all == first + rest;
    FarewellOnly(s, p, r, last);
    assert forall a :: a in rest ==> a in all;
    AllEnabledSplit(net, first, rest);
    GoodbyeEnds(s, net, p);
    NoAskStays(ApplyAll(net, first), rest, p);
  }

  /** Orders that open nothing, for a peer that says goodbye or while nobody moves. */
  lemma IdleSessions(s: State, s': State, net: Net, actions: seq<Action>)
    requires Inv(net) && Sessions(s, net) && AllEnabled(net, actions) && forall a :: a in actions ==> Idle(a)
    requires forall p :: p in s.peers ==> SamePlace(s, s', p) || NoAsk(ApplyAll(net, actions), p)
    ensures Inv(ApplyAll(net, actions)) && Sessions(s', ApplyAll(net, actions))
  {
    AllSessions(s, net, actions);
    Resettle(s, s', ApplyAll(net, actions));
  }

  lemma GoneSessions(s: State, net: Net, p: PeerId)
    requires Inv(net) && Sessions(s, net) && AllEnabled(net, GoneOrders(s, p))
    ensures var net' := ApplyAll(net, GoneOrders(s, p));
      Inv(net') && Sessions(Disconnect(s, p).state, net')
  {
    GoneOnly(s, p);
    if p in s.peers {
      FarewellEnds(s, net, p, s.peers[p].room, GoneLast(s, p));
    }
    IdleSessions(s, Disconnect(s, p).state, net, GoneOrders(s, p));
  }

  lemma LeaveSessions(s: State, net: Net, p: PeerId, r: Room)
    requires Inv(net) && Sessions(s, net) && AllEnabled(net, LeaveOrders(s, p, r))
    ensures var net' := ApplyAll(net, LeaveOrders(s, p, r));
      Inv(net') && Sessions(LeaveRoom(s, p, r), net')
  {
    LeaveOnly(s, p, r);
    if p in s.peers {
      FarewellEnds(s, net, p, Some(r), LeaveLast(s, p, r));
    }
    IdleSessions(s, LeaveRoom(s, p, r), net, LeaveOrders(s, p, r));
  }

  lemma {:induction false} DropSessions(s: State, net: Net, order: seq<PeerId>, n: Node)
    requires Inv(net) && Sessions(s, net) && AllEnabled(net, DropOrders(s, order, n))
    ensures var net' := ApplyAll(net, DropOrders(s, order, n));
      Inv(net') && Sessions(DropPeers(s, order, n).state, net')
  {
    if order != [] {
      var rest, last := order[..|order| - 1], order[|order| - 1];
      var first, all := DropOrders(s, rest, n), DropOrders(s, order, n);
      assert all == first + all[|first|..];
      AllEnabledSplit(net, first, all[|first|..]);
      DropSessions(s, net, rest, n);
      var x := DropPeers(s, rest, n);
      if x.Done? && last in x.state.peers && On(x.state.peers[last], n) {
        assert all[|first|..] == GoneOrders(x.state, last);
        GoneSessions(x.state, ApplyAll(net, first), last);
      }
    }
  }

  lemma CloseSessions(s: State, net: Net, order: seq<PeerId>, n: Node, isEgress: bool, swept: bool)
    requires Inv(net) && Sessions(s, net) && AllEnabled(net, CloseOrders(s, order, n, isEgress, swept))
    ensures var net' := ApplyAll(net, CloseOrders(s, order, n, isEgress, swept));
      Inv(net') && Sessions(MeshRuns.AfterClose(s, order, n, isEgress, swept), net')
  {
    var first, last := DropOrders(s, order, n), CloseLast(s, order, n, isEgress, swept);
    AllEnabledSplit(net, first, last);
    DropSessions(s, net, order, n);
    IdleSessions(DropPeers(s, order, n).state, MeshRuns.AfterClose(s, order, n, isEgress, swept),
                 ApplyAll(net, first), last);
  }

  lemma OthersStay(s: State, m: Move, p: PeerId)
    requires p in s.peers && m.Request? && (Staying(m) || (m.op.Join? && m.op.peer != p))
    ensures SamePlace(s, MeshRuns.Next(s, m.op), p)
  {
  }

  /** A peer joins from no room, or the move is something else. */
  predicate FromOutside(s: State, m: Move) {
    m.Request? && m.op.Join? && m.op.peer in s.peers ==> s.peers[m.op.peer].room.None?
  }

  lemma JoinSessions(s: State, net: Net, m: Move)
    requires Inv(net) && Sessions(s, net) && m.Request? && m.op.Join? && FromOutside(s, m)
    requires AllEnabled(net, Orders(s, m))
    ensures Inv(ApplyAll(net, Orders(s, m))) && Sessions(MeshRuns.Next(s, m.op), ApplyAll(net, Orders(s, m)))
  {
    MovesOnly(s, m);
    forall p | p in s.peers ensures SamePlace(s, MeshRuns.Next(s, m.op), p) || NoAsk(ApplyAll(net, Orders(s, m)), p) {
      if m.op.peer == p {
        OutsideHasNoAsk(s, net, p);
        NoAskStays(net, Orders(s, m), p);
      } else {
        OthersStay(s, m, p);
      }
    }
    IdleSessions(s, MeshRuns.Next(s, m.op), net, Orders(s, m));
  }

  lemma StaySessions(j: Joint, m: Move)
    requires Inv(j.net) && Sessions(j.s, j.net) && Allowed(j, m) && Staying(m)
    ensures Inv(After(j, m).net) && Sessions(After(j, m).s, After(j, m).net)
  {
    OrdersFit(j, m);
    AllSessions(j.s, j.net, Orders(j.s, m));
    if m.Request? {
      forall p | p in j.s.peers ensures SamePlace(j.s, After(j, m).s, p) {
        OthersStay(j.s, m, p);
      }
      Resettle(j.s, After(j, m).s, After(j, m).net);
    }
  }

  /** Every move keeps what the links say of clients, as long as these join from outside only. */
  lemma MoveSessions(j: Joint, m: Move)
    requires Inv(j.net) && Sessions(j.s, j.net) && Allowed(j, m) && FromOutside(j.s, m)
    ensures Inv(After(j, m).net) && Sessions(After(j, m).s, After(j, m).net)
  {
    if Staying(m) {
      StaySessions(j, m);
    } else {
      match m.op
      case Join(_, _, _, _) => JoinSessions(j.s, j.net, m);
      case Leave(p, r) => LeaveSessions(j.s, j.net, p, r);
      case Gone(p) => GoneSessions(j.s, j.net, p);
      case Close(order, n, isEgress, swept) => CloseSessions(j.s, j.net, order, n, isEgress, swept);
    }
  }

  // ---------------------------------------------------------------- safety

  lemma {:induction false} AllTidyStays(net: Net, actions: seq<Action>)
    requires Inv(net) && Tidy(net) && AllEnabled(net, actions)
    requires forall a :: a in actions ==> !a.ServeAction?
    ensures Tidy(ApplyAll(net, actions))
    decreases |actions|
  {
    if actions != [] {
      assert actions[0] in actions && forall a :: a in actions[1..] ==> a in actions;
      StepKeeps(net, actions[0]);
      ActionTidy(net, actions[0]);
      AllTidyStays(Apply(net, actions[0]), actions[1..]);
    }
  }

  ghost predicate DisciplinedMove(j: Joint, m: Move)
    requires Allowed(j, m)
  {
    m.Media? && Enabled(j.net, m.action) ==> Disciplined(j.net, m.action)
  }

  lemma MoveTidy(j: Joint, m: Move)
    requires Inv(j.net) && Tidy(j.net) && Allowed(j, m) && DisciplinedMove(j, m)
    ensures Tidy(After(j, m).net)
  {
    if m.Media? {
      OneOrder(j.net, m.action);
      ActionTidy(j.net, m.action);
    } else {
      OrdersFit(j, m);
      AllTidyStays(j.net, Orders(j.s, m));
    }
  }

  /** What discipline keeps, it keeps in joint runs as well. */
  lemma {:induction false} JointTidy(trace: seq<Joint>, moves: seq<Move>, k: nat)
    requires JointRun(trace, moves) && k < |trace|
    requires forall i :: 0 <= i < k ==> DisciplinedMove(trace[i], moves[i])
    ensures Tidy(trace[k].net)
  {
    if k == 0 {
      InitiallyTidy(trace[0].net);
    } else {
      JointTidy(trace, moves, k - 1);
      JointKeeps(trace, moves, k - 1);
      MoveTidy(trace[k - 1], moves[k - 1]);
      assert trace[(k - 1) + 1] == After(trace[k - 1], moves[k - 1]);
    }
  }

  lemma InitiallyTidy(net: Net)
    requires Initial(net)
    ensures Tidy(net)
  {
    assert forall n :: 0 <= n < |net.nodes| ==> net.nodes[n].server == Fresh;
  }

  lemma {:induction false} JointSessions(trace: seq<Joint>, moves: seq<Move>, k: nat)
    requires JointRun(trace, moves) && k < |trace|
    requires forall i :: 0 <= i < k ==> FromOutside(trace[i].s, moves[i])
    ensures Sessions(trace[k].s, trace[k].net)
  {
    if k > 0 {
      JointSessions(trace, moves, k - 1);
      JointKeeps(trace, moves, k - 1);
      MoveSessions(trace[k - 1], moves[k - 1]);
      assert trace[(k - 1) + 1] == After(trace[k - 1], moves[k - 1]);
    }
  }

  /** As long as peers join from no room only, every producer request names the room of the peer's
      transport, whenever and wherever it is handled. */
  lemma OutsidersAreDisciplined(trace: seq<Joint>, moves: seq<Move>, k: nat)
    requires JointRun(trace, moves) && k < |moves|
    requires forall i :: 0 <= i < k ==> FromOutside(trace[i].s, moves[i])
    ensures DisciplinedMove(trace[k], moves[k])
  {
    if moves[k].Media? {
      JointSessions(trace, moves, k);
      OneOrder(trace[k].net, moves[k].action);
      SessionsDiscipline(trace[k].s, trace[k].net, moves[k].action);
    }
  }

  /** So in every state of such a run, whatever rooms peers leave and whichever servers close, each pipe
      of a room that was never dropped untold was connected at most once, and what an ingress server
      connected there is connected on the other side as well. */
  lemma OutsidersAreSafe(trace: seq<Joint>, moves: seq<Move>, k: nat)
    requires JointRun(trace, moves) && k < |trace|
    requires forall i :: 0 <= i < k ==> FromOutside(trace[i].s, moves[i])
    ensures SafeInReach(trace[k].net)
  {
    forall i | 0 <= i < k ensures DisciplinedMove(trace[i], moves[i]) {
      OutsidersAreDisciplined(trace, moves, i);
    }
    JointKeeps(trace, moves, k);
    JointTidy(trace, moves, k);
    TidyIsSafe(trace[k].net);
  }

  /** And whoever produces is heard in the whole room: every relay request on the way to an egress
      server that has the relay and the room will reach exactly the room's routers. */
  lemma OutsidersReachRooms(trace: seq<Joint>, moves: seq<Move>, k: nat, n: Node, j: nat)
    requires JointRun(trace, moves) && k < |trace|
    requires forall i :: 0 <= i < k ==> FromOutside(trace[i].s, moves[i])
    requires var net := trace[k].net;
      n < |net.nodes| && j < |net.nodes[n].down| && net.nodes[n].down[j].CreateRelayProducer?
    ensures var s, m := trace[k].net.nodes[n].server, trace[k].net.nodes[n].down[j];
      m.room in s.rooms && OfRouter(s.relays, m.route) != [] ==>
        && m.route in s.relayRouters
        && {s.relayRouters[m.route]} + Elems(RelayProducers.Targets(s, m.room, m.route)) == Elems(s.rooms[m.room])
  {
    forall i | 0 <= i < k ensures DisciplinedMove(trace[i], moves[i]) {
      OutsidersAreDisciplined(trace, moves, i);
    }
    JointKeeps(trace, moves, k);
    JointTidy(trace, moves, k);
    ServerOk(trace[k].net, n);
    ServerTidy(trace[k].net, n);
    RelayProducers.ReachesRoom(trace[k].net, n, j);
  }
}
