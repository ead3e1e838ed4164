/** When requests are safe: pipes are connected at most once, and to one another, in all runs in which
    every producer request names the room that its transport is in, and no room that requests name is
    dropped without telling the servers listed for it. */
module HandshakeCondition {
  import opened Sfu
  import opened Handshake
  import opened HandshakeInvariant
  import opened HandshakeSteps
  import opened HandshakeRouting
  import opened HandshakeDiscipline
  import opened HandshakeAgreements

  // ---------------------------------------------------------------- the condition

  /** The room of the peer's transport, and the room that its producer request names. */
  type Naming = (Room, Room)

  ghost predicate Obeys(net: Net, a: Action, allowed: set<Naming>)
    requires Enabled(net, a)
  {
    a.ServeAction? ==>
      var nd := net.nodes[a.n];
      var m := nd.down[nd.read];
      m.CreateProducer? && m.peer in nd.routes ==> RoomNamed(net, nd.routes[m.peer], m.room, allowed)
  }

  ghost predicate RoomNamed(net: Net, r: RouterId, room: Room, allowed: set<Naming>) {
    r in net.h.home && (net.h.home[r].room, room) in allowed
  }

  ghost predicate ObedientRun(trace: seq<Net>, actions: seq<Action>, allowed: set<Naming>) {
    Run(trace, actions) && forall k :: 0 <= k < |actions| ==> Obeys(trace[k], actions[k], allowed)
  }

  ghost predicate OwnRoomOnly(allowed: set<Naming>) {
    forall p :: p in allowed ==> p.0 == p.1
  }

  /** No room in which requests name their own room is among `drops`. */
  ghost predicate Spared(allowed: set<Naming>, drops: set<Room>) {
    forall room :: room in drops ==> (room, room) !in allowed
  }

  /** No pipe transport was connected twice. */
  ghost predicate ConnectedOnce(net: Net) {
    forall i, j :: 0 <= i < j < |net.h.connects| ==> net.h.connects[i].transport != net.h.connects[j].transport
  }

  /** Whatever pipe an ingress server connected, its remote end is connected to it as well. */
  ghost predicate EndsAgree(net: Net) {
    forall c :: c in net.h.connects && c.node < |net.nodes| && net.nodes[c.node].ingress ==> Answering(net, c)
  }

  ghost predicate Answering(net: Net, c: Connect) {
    exists d :: d in net.h.connects && d.transport == c.remote && d.remote == c.transport
  }

  /** Both hold for all pipes of rooms that were never dropped with nobody told. */
  ghost predicate SafeInReach(net: Net) {
    && (forall i, j :: 0 <= i < j < |net.h.connects| && !OutOfReach(net, net.h.connects[i]) ==>
          net.h.connects[i].transport != net.h.connects[j].transport)
    && (forall c :: c in net.h.connects && ByIngress(net, c) && !OutOfReach(net, c) ==> Answering(net, c))
  }

  lemma TidyIsSafe(net: Net)
    requires Inv(net) && Tidy(net)
    ensures SafeInReach(net)
  {
    forall i, j | 0 <= i < j < |net.h.connects| && !OutOfReach(net, net.h.connects[i])
      ensures net.h.connects[i].transport != net.h.connects[j].transport
    {
      OnceByState(net, i, j);
    }
    forall c | c in net.h.connects && ByIngress(net, c) && !OutOfReach(net, c) ensures Answering(net, c) {
      var i :| 0 <= i < |net.h.connects| && net.h.connects[i] == c;
      assert ConnectOk(net, net.h.connects[i]) && PairOk(net, net.h.connects[i]);
      assert Connect(net.h.answered[c.remote].1, c.remote, c.transport) in net.h.connects;
    }
  }

  /** If no pipe is out of reach, all are safe. */
  lemma ReachIsAll(net: Net)
    requires SafeInReach(net) && forall c :: c in net.h.connects ==> !OutOfReach(net, c)
    ensures ConnectedOnce(net) && EndsAgree(net)
  {
    forall i, j | 0 <= i < j < |net.h.connects|
      ensures net.h.connects[i].transport != net.h.connects[j].transport
    {
      assert net.h.connects[i] in net.h.connects;
    }
  }

  lemma ObedientIsDisciplined(trace: seq<Net>, actions: seq<Action>, allowed: set<Naming>)
    requires ObedientRun(trace, actions, allowed) && OwnRoomOnly(allowed)
    ensures DisciplinedRun(trace, actions)
  {
    forall k | 0 <= k < |actions| ensures Disciplined(trace[k], actions[k]) {
      assert Obeys(trace[k], actions[k], allowed);
    }
  }

  // ---------------------------------------------------------------- which rooms pipes are connected for

  /** Requests name some room for transports in this router's room. */
  ghost predicate Nameable(net: Net, r: RouterId, allowed: set<Naming>) {
    r in net.h.home && exists p :: p in allowed && p.0 == net.h.home[r].room
  }

  /** Relay requests, and what they led to, are for such routers only. */
  ghost predicate AskedFor(net: Net, allowed: set<Naming>) {
    && (forall n: nat, j: nat :: RelayUp(net, n, j) ==> Nameable(net, net.nodes[n].up[j].route, allowed))
    && (forall n: nat, j: nat :: RelayDown(net, n, j) ==> Nameable(net, net.nodes[n].down[j].route, allowed))
    && (forall u :: u in net.h.answered ==> Nameable(net, net.h.answered[u].0, allowed))
  }

  predicate RelayUp(net: Net, n: Node, j: nat) {
    n < |net.nodes| && j < |net.nodes[n].up| && net.nodes[n].up[j].CreateRelayProducer?
  }

  predicate RelayDown(net: Net, n: Node, j: nat) {
    n < |net.nodes| && j < |net.nodes[n].down| && net.nodes[n].down[j].CreateRelayProducer?
  }

  /** What is new after an action. */
  ghost predicate NewAsked(net: Net, net': Net, allowed: set<Naming>) {
    && (forall n: nat, j: nat :: RelayUp(net', n, j) ==>
          (RelayUp(net, n, j) && net'.nodes[n].up[j] == net.nodes[n].up[j])
          || Nameable(net', net'.nodes[n].up[j].route, allowed))
    && (forall n: nat, j: nat :: RelayDown(net', n, j) ==>
          (RelayDown(net, n, j) && net'.nodes[n].down[j] == net.nodes[n].down[j])
          || Nameable(net', net'.nodes[n].down[j].route, allowed))
    && (forall u :: u in net'.h.answered ==>
          (u in net.h.answered && net'.h.answered[u] == net.h.answered[u])
          || Nameable(net', net'.h.answered[u].0, allowed))
  }

  lemma AskedStays(net: Net, net': Net, actor: Node, allowed: set<Naming>)
    requires AskedFor(net, allowed) && Extends(net, net', actor) && NewsAsked(net, {net'}, allowed)
    ensures AskedFor(net', allowed)
  {
    assert net' in {net'};
  }

  /** Quantified so that a proof can carry it along as one fact. */
  ghost predicate NewsAsked(net: Net, nets: set<Net>, allowed: set<Naming>) {
    forall net' :: net' in nets ==> NewAsked(net, net', allowed)
  }

  /** Only a producer request makes a server send a relay request, and only a relay request makes one answer. */
  ghost predicate Unasked(net: Net, net': Net, n: Node) {
    && n < |net.nodes| == |net'.nodes| && net'.h.answered == net.h.answered
    && (forall k :: 0 <= k < |net.nodes| && k != n ==> net'.nodes[k] == net.nodes[k])
    && net'.nodes[n].down == net.nodes[n].down && net.nodes[n].up <= net'.nodes[n].up
    && (forall j :: |net.nodes[n].up| <= j < |net'.nodes[n].up| ==> !net'.nodes[n].up[j].CreateRelayProducer?)
  }

  lemma UnaskedNews(net: Net, net': Net, n: Node, allowed: set<Naming>)
    requires Unasked(net, net', n)
    ensures NewsAsked(net, {net'}, allowed)
  {
  }

  /** The message `m` is put on some links, or nothing is. */
  ghost predicate Passes(net: Net, net': Net, m: Msg) {
    && |net'.nodes| == |net.nodes| && net'.h.answered == net.h.answered
    && (forall n :: 0 <= n < |net.nodes| ==>
          && net'.nodes[n].up == net.nodes[n].up
          && (net'.nodes[n].down == net.nodes[n].down || net'.nodes[n].down == net.nodes[n].down + [m]))
  }

  lemma PassedNews(net: Net, net': Net, m: Msg, allowed: set<Naming>)
    requires Passes(net, net', m) && (m.CreateRelayProducer? ==> Nameable(net', m.route, allowed))
    ensures NewsAsked(net, {net'}, allowed)
  {
  }

  lemma GroupUnasked(net: Net, n: Node, room: Room)
    requires n < |net.nodes|
    ensures Unasked(net, ServeGroup(net, n, room), n)
  {
  }

  lemma IngressUnasked(net: Net, n: Node, peer: Peer, room: Room, es: seq<Option<Node>>)
    requires n < |net.nodes|
    ensures Unasked(net, ServeIngress(net, n, peer, room, es), n)
  {
  }

  lemma DestroyUnasked(net: Net, n: Node, room: Room, gone: set<RouterId>)
    requires n < |net.nodes|
    ensures Unasked(net, ServeDestroy(net, n, room, gone), n)
  {
  }

  lemma ConnectUnasked(net: Net, n: Node, r: RouterId, e: Node, remote: TransportId)
    requires n < |net.nodes|
    ensures Unasked(net, ServeConnect(net, n, r, e, remote), n)
  {
  }

  lemma ProducerAsked(net: Net, n: Node, peer: Peer, room: Room, e: Node, allowed: set<Naming>)
    requires n < |net.nodes|
    requires peer in net.nodes[n].routes ==> RoomNamed(net, net.nodes[n].routes[peer], room, allowed)
    ensures NewsAsked(net, {ServeProducer(net, n, peer, room, e)}, allowed)
  {
    var net' := ServeProducer(net, n, peer, room, e);
    if peer in net.nodes[n].routes {
      assert Nameable(net', net.nodes[n].routes[peer], allowed);
    }
  }

  lemma RelayAsked(net: Net, n: Node, room: Room, r: RouterId, allowed: set<Naming>)
    requires n < |net.nodes| && Nameable(net, r, allowed)
    ensures NewsAsked(net, {ServeRelay(net, n, room, r)}, allowed)
  {
    assert Nameable(ServeRelay(net, n, room, r), r, allowed);
  }

  lemma ServeUnasked(net: Net, n: Node, gone: set<RouterId>)
    requires Enabled(net, ServeAction(n, gone))
    requires var m := net.nodes[n].down[net.nodes[n].read]; !m.CreateProducer? && !m.CreateRelayProducer?
    ensures Unasked(net, Serve(net, n, gone), n)
  {
    match net.nodes[n].down[net.nodes[n].read]
    case CreateRouterGroup(room) => GroupUnasked(net, n, room);
    case CreateWebRTCIngress(peer, room, es) => IngressUnasked(net, n, peer, room, es);
    case DestroyRouterGroup(room) => DestroyUnasked(net, n, room, gone);
    case ConnectPipeRelay(r, _, e, remote) => ConnectUnasked(net, n, r, e, remote);
    case _ =>
  }

  lemma ServeAsked(net: Net, n: Node, gone: set<RouterId>, allowed: set<Naming>)
    requires AskedFor(net, allowed) && Enabled(net, ServeAction(n, gone)) && Obeys(net, ServeAction(n, gone), allowed)
    ensures NewsAsked(net, {Serve(net, n, gone)}, allowed)
  {
    match net.nodes[n].down[net.nodes[n].read]
    case CreateProducer(peer, room, e) => ProducerAsked(net, n, peer, room, e, allowed);
    case CreateRelayProducer(room, r, _) =>
      assert RelayDown(net, n, net.nodes[n].read);
      RelayAsked(net, n, room, r, allowed);
    case _ =>
      ServeUnasked(net, n, gone);
      UnaskedNews(net, Serve(net, n, gone), n, allowed);
  }

  lemma TakenPasses(net: Net, n: Node, to: Node, m: Msg)
    requires n < |net.nodes| && to < |net.nodes|
    ensures Passes(net, Taken(net, n), m) && Passes(net, Send(Taken(net, n), to, m), m)
  {
  }

  lemma ForwardPasses(net: Net, n: Node)
    requires Enabled(net, ForwardAction(n))
    ensures Passes(net, Forward(net, n), net.nodes[n].up[net.nodes[n].taken])
  {
    var m := net.nodes[n].up[net.nodes[n].taken];
    TakenPasses(net, n, n, m);
    match m
    case StorePipeRelay(_, e, _) => if e < |net.nodes| { TakenPasses(net, n, e, m); }
    case CreateRelayProducer(_, _, e) => if e < |net.nodes| { TakenPasses(net, n, e, m); }
    case ConnectPipeRelay(r, _, _, _) =>
      var i := FindIngress(net.pipes, n, r);
      if i.Some? && i.value < |net.nodes| { TakenPasses(net, n, i.value, m); }
    case _ =>
  }

  lemma ForwardAsked(net: Net, n: Node, allowed: set<Naming>)
    requires AskedFor(net, allowed) && Enabled(net, ForwardAction(n)) && Forward(net, n).h == net.h
    ensures NewsAsked(net, {Forward(net, n)}, allowed)
  {
    var m := net.nodes[n].up[net.nodes[n].taken];
    if m.CreateRelayProducer? {
      assert RelayUp(net, n, net.nodes[n].taken) && Nameable(net, m.route, allowed);
    }
    ForwardPasses(net, n);
    PassedNews(net, Forward(net, n), m, allowed);
  }

  /** What the signaling server sends of its own accord is no relay request. */
  lemma OrderPasses(net: Net, a: Action) returns (m: Msg)
    requires Enabled(net, a) && !a.ServeAction? && !a.ForwardAction?
    ensures Passes(net, Apply(net, a), m) && !m.CreateRelayProducer?
  {
    m := DestroyRouterGroup(0);
    match a
    case JoinAction(room, _) => m := CreateRouterGroup(room);
    case ApiAction(_, api) => m := api;
    case CloseAction(room) => m := DestroyRouterGroup(room);
    case DestroyAction(room) => m := DestroyRouterGroup(room);
    case _ =>
  }

  lemma ActionAsked(net: Net, a: Action, allowed: set<Naming>)
    requires Inv(net) && AskedFor(net, allowed) && Enabled(net, a) && Obeys(net, a, allowed)
    ensures AskedFor(Apply(net, a), allowed)
  {
    StepKeeps(net, a);
    match a {
      case ServeAction(n, gone) => ServeAsked(net, n, gone, allowed);
      case ForwardAction(n) =>
        WithinLinks(net);
        ForwardRoutes(net, n);
        ForwardAsked(net, n, allowed);
      case _ =>
        var m := OrderPasses(net, a);
        PassedNews(net, Apply(net, a), m, allowed);
    }
    AskedStays(net, Apply(net, a), Actor(a), allowed);
  }

  lemma {:induction false} RunAsked(trace: seq<Net>, actions: seq<Action>, allowed: set<Naming>, k: nat)
    requires ObedientRun(trace, actions, allowed) && k < |trace|
    ensures AskedFor(trace[k], allowed)
  {
    if k > 0 {
      RunAsked(trace, actions, allowed, k - 1);
      RunKeeps(trace, actions, k - 1);
      ActionAsked(trace[k - 1], actions[k - 1], allowed);
      assert trace[(k - 1) + 1] == Apply(trace[k - 1], actions[k - 1]);
    }
  }

  lemma NameableInReach(net: Net, r: RouterId, allowed: set<Naming>)
    requires Nameable(net, r, allowed) && OwnRoomOnly(allowed) && Spared(allowed, net.h.lost)
    ensures !Abandoned(net, r)
  {
    var p :| p in allowed && p.0 == net.h.home[r].room;
    assert p == (p.0, p.0);
  }

  /** Where requests name own rooms only, and none of these was dropped, no pipe is out of reach. */
  lemma SparedInReach(net: Net, allowed: set<Naming>)
    requires AskedFor(net, allowed) && OwnRoomOnly(allowed) && Spared(allowed, net.h.lost)
    ensures forall c :: !OutOfReach(net, c)
  {
    forall c: Connect | c.remote in net.h.answered ensures !Abandoned(net, net.h.answered[c.remote].0) {
      NameableInReach(net, net.h.answered[c.remote].0, allowed);
    }
  }

  /** In every state of a run in which requests name own rooms only, all pipes of the rooms that were
      never dropped untold are safe; and all pipes are, if no room that requests name was dropped. */
  lemma ObedientIsSafe(trace: seq<Net>, actions: seq<Action>, allowed: set<Naming>, k: nat)
    requires ObedientRun(trace, actions, allowed) && OwnRoomOnly(allowed) && k < |trace|
    ensures SafeInReach(trace[k])
    ensures Spared(allowed, trace[k].h.lost) ==> ConnectedOnce(trace[k]) && EndsAgree(trace[k])
  {
    ObedientIsDisciplined(trace, actions, allowed);
    RunKeeps(trace, actions, k);
    RunTidy(trace, actions, k);
    TidyIsSafe(trace[k]);
    if Spared(allowed, trace[k].h.lost) {
      RunAsked(trace, actions, allowed, k);
      SparedInReach(trace[k], allowed);
      ReachIsAll(trace[k]);
    }
  }

  // ---------------------------------------------------------------- all runs under a restriction

  ghost predicate Reachable(net: Net, allowed: set<Naming>) {
    exists trace, actions :: ObedientRun(trace, actions, allowed) && trace[|actions|] == net
  }

  lemma ReachNext(net: Net, a: Action, allowed: set<Naming>)
    requires Reachable(net, allowed) && Enabled(net, a) && Obeys(net, a, allowed)
    ensures Reachable(Apply(net, a), allowed)
  {
    var trace, actions :| ObedientRun(trace, actions, allowed) && trace[|actions|] == net;
    ObeysOn(trace, actions, a, allowed);
    assert (trace + [Apply(net, a)])[|actions + [a]|] == Apply(net, a);
  }

  lemma ObeysOn(trace: seq<Net>, actions: seq<Action>, a: Action, allowed: set<Naming>)
    requires ObedientRun(trace, actions, allowed)
    requires Enabled(trace[|actions|], a) && Obeys(trace[|actions|], a, allowed)
    ensures ObedientRun(trace + [Apply(trace[|actions|], a)], actions + [a], allowed)
  {
    var trace', actions' := trace + [Apply(trace[|actions|], a)], actions + [a];
    RunGoesOn(trace, actions, a);
    forall k | 0 <= k < |actions'| ensures Obeys(trace'[k], actions'[k], allowed) {
      assert k < |actions| ==> trace'[k] == trace[k] && actions'[k] == actions[k];
    }
  }

  lemma RunGoesOn(trace: seq<Net>, actions: seq<Action>, a: Action)
    requires Run(trace, actions) && Enabled(trace[|actions|], a)
    ensures Run(trace + [Apply(trace[|actions|], a)], actions + [a])
  {
    var trace', actions' := trace + [Apply(trace[|actions|], a)], actions + [a];
    forall k | 0 <= k < |actions'|
      ensures Enabled(trace'[k], actions'[k]) && trace'[k + 1] == Apply(trace'[k], actions'[k])
    {
      assert k < |actions| ==> trace'[k] == trace[k] && trace'[k + 1] == trace[k + 1] && actions'[k] == actions[k];
    }
  }

  lemma OwnRoomsAreSafe(net: Net, allowed: set<Naming>)
    requires Reachable(net, allowed) && OwnRoomOnly(allowed) && Spared(allowed, net.h.lost)
    ensures ConnectedOnce(net) && EndsAgree(net)
  {
    var trace, actions :| ObedientRun(trace, actions, allowed) && trace[|actions|] == net;
    ObedientIsSafe(trace, actions, allowed, |actions|);
  }

  /** In all runs with such requests in which no other rooms than `drops` are dropped untold. */
  ghost predicate AlwaysConnectedOnce(allowed: set<Naming>, drops: set<Room>) {
    forall net :: Reachable(net, allowed) && net.h.lost <= drops ==> ConnectedOnce(net)
  }

  ghost predicate AlwaysAgree(allowed: set<Naming>, drops: set<Room>) {
    forall net :: Reachable(net, allowed) && net.h.lost <= drops ==> EndsAgree(net)
  }
}
