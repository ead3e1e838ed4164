/** Runs in which every producer request names the room that its peer's transport was made in.
    What such runs keep besides the invariant is that whatever an egress server has forgotten
    about a router is on its way to being forgotten by the router's own server. */
module HandshakeDiscipline {
  import opened Sfu
  import opened Handshake
  import opened HandshakeInvariant
  import opened HandshakeRouting

  /** The condition on one action, on what the ingress server can see when it handles it. */
  ghost predicate Disciplined(net: Net, a: Action)
    requires Enabled(net, a)
  {
    a.ServeAction? ==>
      var nd := net.nodes[a.n];
      var m := nd.down[nd.read];
      m.CreateProducer? && m.peer in nd.routes ==> RoomOf(net, nd.routes[m.peer], m.room)
  }

  // ---------------------------------------------------------------- the invariant of such runs

  ghost predicate RoomOf(net: Net, r: RouterId, room: Room) {
    r in net.h.home && net.h.home[r].room == room
  }

  /** The router's room was once dropped with nobody told. */
  ghost predicate Abandoned(net: Net, r: RouterId) {
    r in net.h.home && net.h.home[r].room in net.h.lost
  }

  /** The router's server has been ordered to destroy its room, or the room was once dropped with nobody
      told. */
  ghost predicate Closing(net: Net, r: RouterId) {
    Rooted(net, r) && (Doomed(net, r) || Abandoned(net, r))
  }

  /** `u` is the only pipe that egress server `e` ever made for router `r`, and it is connected
      to the pipe that was offered. */
  ghost predicate Good(net: Net, r: RouterId, e: Node, u: TransportId) {
    && (r, e) in net.h.first && net.h.first[(r, e)] == u
    && (r, e) in net.h.offered && Connect(e, u, net.h.offered[(r, e)]) in net.h.connects
  }

  /** Every relay request is for the room of its router, and so is what it led to. */
  ghost predicate Labelled(net: Net, n: Node)
    requires n < |net.nodes|
  {
    var nd := net.nodes[n];
    && (forall j :: 0 <= j < |nd.up| && nd.up[j].CreateRelayProducer? ==> RoomOf(net, nd.up[j].route, nd.up[j].room))
    && (forall j :: 0 <= j < |nd.down| && nd.down[j].CreateRelayProducer? ==>
      RoomOf(net, nd.down[j].route, nd.down[j].room))
    && (!nd.ingress ==>
          && (forall x :: x in nd.server.relays ==> RoomOf(net, x.router, x.room))
          && (forall r :: r in nd.server.relayRouters ==> SameRoom(net, r, nd.server.relayRouters[r])))
  }

  ghost predicate SameRoom(net: Net, r: RouterId, q: RouterId) {
    r in net.h.home && RoomOf(net, q, net.h.home[r].room)
  }

  /** An egress server that answered for a router and has no relay for it any more. */
  ghost predicate Relayed(net: Net, n: Node)
    requires n < |net.nodes|
  {
    !net.nodes[n].ingress ==>
      forall k :: k in net.h.first && k.1 == n && OfRouter(net.nodes[n].server.relays, k.0) == [] ==> Closing(net, k.0)
  }

  /** An egress server that read an offer and does not have it any more. */
  ghost predicate Awaited(net: Net, n: Node)
    requires n < |net.nodes|
  {
    !net.nodes[n].ingress ==>
      forall r :: Told(net.nodes[n].down, r, net.nodes[n].read) && r !in net.nodes[n].server.pending ==> Closing(net, r)
  }

  /** An egress server that is sent an offer and then told to destroy the room of the router. */
  ghost predicate Ordered(net: Net, n: Node)
    requires n < |net.nodes|
  {
    var log := net.nodes[n].down;
    forall j, k :: 0 <= j < k < |log| && Crossing(net, log, j, k) ==> Closing(net, log[j].route)
  }

  ghost predicate Crossing(net: Net, log: seq<Msg>, j: nat, k: nat)
    requires j < |log| && k < |log|
  {
    log[j].StorePipeRelay? && log[k].DestroyRouterGroup? && RoomOf(net, log[j].route, log[k].room)
  }

  ghost predicate AnswersLeave(net: Net, n: Node)
    requires n < |net.nodes|
  {
    var nd := net.nodes[n];
    forall j :: nd.taken <= j < |nd.up| && nd.up[j].ConnectPipeRelay? ==>
      Closing(net, nd.up[j].route) || Good(net, nd.up[j].route, n, nd.up[j].remote)
  }

  ghost predicate AnswersArrive(net: Net, n: Node)
    requires n < |net.nodes|
  {
    var nd := net.nodes[n];
    forall j :: 0 <= j < |nd.down| && nd.down[j].ConnectPipeRelay? ==>
      Late(net, nd.down, j) || Good(net, nd.down[j].route, nd.down[j].egress, nd.down[j].remote)
  }

  /** The answer comes after the order to destroy the room it is for, or the room was once dropped with
      nobody told. */
  ghost predicate Late(net: Net, log: seq<Msg>, j: nat)
    requires j < |log| && log[j].ConnectPipeRelay?
  {
    && log[j].route in net.h.home
    && (Abandoned(net, log[j].route)
        || Destroyed(log, net.h.home[log[j].route].room, net.h.home[log[j].route].born, j))
  }

  /** Every pipe that an ingress server connected is connected to a different pipe each time; and this
      is connected on the other side as well, unless the room was once dropped with nobody told. */
  ghost predicate Paired(net: Net) {
    && (forall i :: 0 <= i < |net.h.connects| ==> PairOk(net, net.h.connects[i]))
    && (forall i, j ::
          0 <= i < j < |net.h.connects| && ByIngress(net, net.h.connects[i]) && ByIngress(net, net.h.connects[j]) ==>
          net.h.connects[i].remote != net.h.connects[j].remote)
  }

  ghost predicate ByIngress(net: Net, c: Connect) {
    c.node < |net.nodes| && net.nodes[c.node].ingress
  }

  ghost predicate PairOk(net: Net, c: Connect) {
    ByIngress(net, c) && c.remote in net.h.answered && !Abandoned(net, net.h.answered[c.remote].0) ==>
      Good(net, net.h.answered[c.remote].0, net.h.answered[c.remote].1, c.remote)
  }

  ghost predicate NodeTidy(net: Net, n: Node)
    requires n < |net.nodes|
  {
    Labelled(net, n) && Relayed(net, n) && Awaited(net, n) && Ordered(net, n) && AnswersLeave(net, n)
      && AnswersArrive(net, n)
  }

  ghost predicate AllTidy(net: Net, who: set<Node>) {
    forall n :: n in who && n < |net.nodes| ==> NodeTidy(net, n)
  }

  ghost predicate Tidy(net: Net) {
    (forall n :: 0 <= n < |net.nodes| ==> NodeTidy(net, n)) && Paired(net)
  }

  // ---------------------------------------------------------------- what a step has to add

  lemma ClosingStays(net: Net, net': Net, actor: Node, r: RouterId)
    requires Extends(net, net', actor) && Closing(net, r)
    ensures Closing(net', r)
  {
    RootedStays(net, net', actor, r);
    var home := net.h.home[r];
    var log, log' := net.nodes[home.node].down, net'.nodes[home.node].down;
    assert NodeExtends(net.nodes[home.node], net'.nodes[home.node]);
    DestroyedStays(log, log', home.room, home.born, |log|, |log'|);
  }

  lemma GoodStays(net: Net, net': Net, actor: Node, r: RouterId, e: Node, u: TransportId)
    requires Extends(net, net', actor) && Good(net, r, e, u)
    ensures Good(net', r, e, u)
  {
    var k :| 0 <= k < |net.h.connects| && net.h.connects[k] == Connect(e, u, net.h.offered[(r, e)]);
    assert net'.h.connects[k] == net.h.connects[k];
  }

  /** New messages and new relays are labelled. */
  ghost predicate NewLabelled(net: Net, net': Net, n: Node)
    requires n < |net.nodes| == |net'.nodes|
  {
    var nd, nd' := net.nodes[n], net'.nodes[n];
    && (forall j :: |nd.up| <= j < |nd'.up| && nd'.up[j].CreateRelayProducer? ==>
      RoomOf(net', nd'.up[j].route, nd'.up[j].room))
    && (forall j :: |nd.down| <= j < |nd'.down| && nd'.down[j].CreateRelayProducer? ==>
      RoomOf(net', nd'.down[j].route, nd'.down[j].room))
    && (!nd.ingress ==>
          && (forall x :: x in nd'.server.relays ==> x in nd.server.relays || RoomOf(net', x.router, x.room))
          && (forall r :: r in nd'.server.relayRouters ==>
                || (r in nd.server.relayRouters && nd.server.relayRouters[r] == nd'.server.relayRouters[r])
                || SameRoom(net', r, nd'.server.relayRouters[r])))
  }

  lemma LabelledStays(net: Net, net': Net, actor: Node, n: Node)
    requires Extends(net, net', actor) && n < |net.nodes| && Labelled(net, n) && NewLabelled(net, net', n)
    ensures Labelled(net', n)
  {
    assert NodeExtends(net.nodes[n], net'.nodes[n]);
  }

  ghost predicate NewRelayed(net: Net, net': Net, n: Node)
    requires n < |net.nodes| == |net'.nodes|
  {
    !net.nodes[n].ingress ==>
      forall k :: k in net'.h.first && k.1 == n && OfRouter(net'.nodes[n].server.relays, k.0) == [] ==>
        (k in net.h.first && OfRouter(net.nodes[n].server.relays, k.0) == []) || Closing(net', k.0)
  }

  lemma RelayedStays(net: Net, net': Net, actor: Node, n: Node)
    requires Extends(net, net', actor) && n < |net.nodes| && Relayed(net, n) && NewRelayed(net, net', n)
    ensures Relayed(net', n)
  {
    assert NodeExtends(net.nodes[n], net'.nodes[n]);
    if !net.nodes[n].ingress {
      forall k | k in net'.h.first && k.1 == n && OfRouter(net'.nodes[n].server.relays, k.0) == []
        ensures Closing(net', k.0)
      {
        if !Closing(net', k.0) {
          ClosingStays(net, net', actor, k.0);
        }
      }
    }
  }

  ghost predicate NewAwaited(net: Net, net': Net, n: Node)
    requires n < |net.nodes| == |net'.nodes|
  {
    var nd, nd' := net.nodes[n], net'.nodes[n];
    !nd.ingress ==>
      forall r :: Told(nd'.down, r, nd'.read) && r !in nd'.server.pending ==>
        (Told(nd.down, r, nd.read) && r !in nd.server.pending) || Closing(net', r)
  }

  lemma AwaitedStays(net: Net, net': Net, actor: Node, n: Node)
    requires Extends(net, net', actor) && n < |net.nodes| && Awaited(net, n) && NewAwaited(net, net', n)
    ensures Awaited(net', n)
  {
    var nd, nd' := net.nodes[n], net'.nodes[n];
    assert NodeExtends(nd, nd');
    if !nd.ingress {
      forall r | Told(nd'.down, r, nd'.read) && r !in nd'.server.pending ensures Closing(net', r) {
        if !Closing(net', r) {
          ClosingStays(net, net', actor, r);
        }
      }
    }
  }

  ghost predicate NewOrdered(net: Net, net': Net, n: Node)
    requires n < |net.nodes| == |net'.nodes|
  {
    var log' := net'.nodes[n].down;
    forall j, k :: 0 <= j < k < |log'| && |net.nodes[n].down| <= k && Crossing(net', log', j, k) ==>
      Closing(net', log'[j].route)
  }

  lemma OrderedStays(net: Net, net': Net, actor: Node, n: Node)
    requires Extends(net, net', actor) && n < |net.nodes| && Ordered(net, n) && NewOrdered(net, net', n)
    requires DownOk(net, n) && HistoryOk(net)
    ensures Ordered(net', n)
  {
    var log, log' := net.nodes[n].down, net'.nodes[n].down;
    assert NodeExtends(net.nodes[n], net'.nodes[n]);
    forall j, k | 0 <= j < k < |log'| && Crossing(net', log', j, k) ensures Closing(net', log'[j].route) {
      if k < |log| {
        assert log'[j] == log[j] && log'[k] == log[k];
        assert DownMsgOk(net, n, j);
        assert IngressRouter(net, (log[j].route, n).0);
        assert Crossing(net, log, j, k);
        ClosingStays(net, net', actor, log[j].route);
      }
    }
  }

  ghost predicate NewAnswersLeave(net: Net, net': Net, n: Node)
    requires n < |net.nodes| == |net'.nodes|
  {
    var nd, nd' := net.nodes[n], net'.nodes[n];
    forall j :: |nd.up| <= j < |nd'.up| && nd'.up[j].ConnectPipeRelay? ==>
      Closing(net', nd'.up[j].route) || Good(net', nd'.up[j].route, n, nd'.up[j].remote)
  }

  lemma AnswersLeaveStay(net: Net, net': Net, actor: Node, n: Node)
    requires Extends(net, net', actor) && n < |net.nodes| && AnswersLeave(net, n) && NewAnswersLeave(net, net', n)
    ensures AnswersLeave(net', n)
  {
    var nd, nd' := net.nodes[n], net'.nodes[n];
    assert NodeExtends(nd, nd');
    forall j | nd'.taken <= j < |nd'.up| && nd'.up[j].ConnectPipeRelay?
      ensures Closing(net', nd'.up[j].route) || Good(net', nd'.up[j].route, n, nd'.up[j].remote)
    {
      if j < |nd.up| {
        assert nd'.up[j] == nd.up[j];
        if Closing(net, nd.up[j].route) {
          ClosingStays(net, net', actor, nd.up[j].route);
        } else {
          GoodStays(net, net', actor, nd.up[j].route, n, nd.up[j].remote);
        }
      }
    }
  }

  ghost predicate NewAnswersArrive(net: Net, net': Net, n: Node)
    requires n < |net.nodes| == |net'.nodes|
  {
    var nd, nd' := net.nodes[n], net'.nodes[n];
    forall j :: |nd.down| <= j < |nd'.down| && nd'.down[j].ConnectPipeRelay? ==>
      Late(net', nd'.down, j) || Good(net', nd'.down[j].route, nd'.down[j].egress, nd'.down[j].remote)
  }

  lemma AnswersArriveStay(net: Net, net': Net, actor: Node, n: Node)
    requires Extends(net, net', actor) && n < |net.nodes| && AnswersArrive(net, n) && NewAnswersArrive(net, net', n)
    ensures AnswersArrive(net', n)
  {
    var nd, nd' := net.nodes[n], net'.nodes[n];
    assert NodeExtends(nd, nd');
    forall j | 0 <= j < |nd'.down| && nd'.down[j].ConnectPipeRelay?
      ensures Late(net', nd'.down, j) || Good(net', nd'.down[j].route, nd'.down[j].egress, nd'.down[j].remote)
    {
      if j < |nd.down| {
        assert nd'.down[j] == nd.down[j];
        if Late(net, nd.down, j) {
          var home := net.h.home[nd.down[j].route];
          DestroyedStays(nd.down, nd'.down, home.room, home.born, j, j);
        } else {
          GoodStays(net, net', actor, nd.down[j].route, nd.down[j].egress, nd.down[j].remote);
        }
      }
    }
  }

  ghost predicate NewTidy(net: Net, net': Net, n: Node)
    requires n < |net.nodes| == |net'.nodes|
  {
    && NewLabelled(net, net', n) && NewRelayed(net, net', n) && NewAwaited(net, net', n)
    && NewOrdered(net, net', n) && NewAnswersLeave(net, net', n) && NewAnswersArrive(net, net', n)
  }

  /** What is new on the servers in `who` is tidy. */
  ghost predicate NewsTidy(net: Net, net': Net, who: set<Node>)
    requires |net.nodes| == |net'.nodes|
  {
    forall n :: n in who && n < |net.nodes| ==> NewTidy(net, net', n)
  }

  lemma TidyStays(net: Net, net': Net, actor: Node, n: Node)
    requires Extends(net, net', actor) && n < |net.nodes| && NodeTidy(net, n) && NewTidy(net, net', n)
    requires DownOk(net, n) && HistoryOk(net)
    ensures AllTidy(net', {n})
  {
    LabelledStays(net, net', actor, n);
    RelayedStays(net, net', actor, n);
    AwaitedStays(net, net', actor, n);
    OrderedStays(net, net', actor, n);
    AnswersLeaveStay(net, net', actor, n);
    AnswersArriveStay(net, net', actor, n);
  }

  /** Every server has to see to what is new to it, and the net to the pipes newly connected. */
  lemma StepTidy(net: Net, net': Net, actor: Node)
    requires Inv(net) && Tidy(net) && Extends(net, net', actor) && Paired(net')
    requires forall n :: 0 <= n < |net.nodes| ==> NewsTidy(net, net', {n})
    ensures Tidy(net')
  {
    AllDownOk(net);
    forall n | 0 <= n < |net'.nodes| ensures NodeTidy(net', n) {
      assert n in {n};
      assert NewsTidy(net, net', {n});
      assert DownOk(net, n);
      TidyStays(net, net', actor, n);
    }
  }

  lemma BystanderTidy(net: Net, net': Net, actor: Node, n: Node)
    requires Extends(net, net', actor) && n < |net.nodes| && n != actor && net'.nodes[n] == net.nodes[n]
    ensures NewsTidy(net, net', {n})
  {
  }

  lemma SamePairs(net: Net, net': Net, actor: Node)
    requires Extends(net, net', actor) && ConnectsOk(net) && Paired(net) && net'.h.connects == net.h.connects
    ensures Paired(net')
  {
    forall i | 0 <= i < |net.h.connects|
      ensures PairOk(net', net.h.connects[i])
      ensures ByIngress(net', net.h.connects[i]) == ByIngress(net, net.h.connects[i])
    {
      PairStays(net, net', actor, net.h.connects[i]);
    }
  }

  lemma PairStays(net: Net, net': Net, actor: Node, c: Connect)
    requires Extends(net, net', actor) && ConnectOk(net, c) && PairOk(net, c)
    ensures PairOk(net', c) && ByIngress(net', c) == ByIngress(net, c)
  {
    assert NodeExtends(net.nodes[c.node], net'.nodes[c.node]);
    if ByIngress(net, c) && !Abandoned(net', net.h.answered[c.remote].0) {
      var (r, e) := net.h.answered[c.remote];
      GoodStays(net, net', actor, r, e, c.remote);
    }
  }
}
