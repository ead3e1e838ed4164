/** What runs of clients and servers look like in which a pipe is connected twice, and the steps that
    such runs take.  Servers 0, 2 and 4 are ingress servers and servers 1 and 3 are egress servers, with
    one worker each.  Peer 0 has its transport on server 0, in room `home`, and asks for room `other`,
    which may be the same one. */
module JointScene {
  import opened Sfu
  import opened Signaling
  import opened Handshake
  import opened HandshakeInvariant
  import opened HandshakeCondition
  import opened JointRuns
  import opened JointLosses
  import opened JointOrders
  import opened JointSessions

  // ---------------------------------------------------------------- runs under restrictions

  /** From the room that the peer is in, to the room that it joins. */
  type Switch = (Room, Room)

  /** The room that the peer is in, if any, and the room that it asks to leave. */
  type Desertion = (Option<Room>, Room)

  /** Which switches there may be, which leaves that name another room than the peer's own, and servers
      of which roles may close and strand a room. */
  datatype Rules = Rules(switches: set<Switch>, leaves: set<Desertion>, closes: set<bool>)

  predicate Follows(s: State, m: Move, rules: Rules) {
    && (m.Request? && m.op.Join? && m.op.peer in s.peers && s.peers[m.op.peer].room.Some? ==>
          (s.peers[m.op.peer].room.value, m.op.room) in rules.switches)
    && (m.Request? && m.op.Leave? && m.op.peer in s.peers && s.peers[m.op.peer].room != Some(m.op.room) ==>
          (s.peers[m.op.peer].room, m.op.room) in rules.leaves)
    && (m.Request? && m.op.Close? && CloseForsakes(s, m.op.order, m.op.server) != {} ==> m.op.isEgress in rules.closes)
  }

  ghost predicate ObeysMove(net: Net, m: Move, namings: set<Naming>) {
    m.Media? && Enabled(net, m.action) ==> Obeys(net, m.action, namings)
  }

  ghost predicate RuledRun(trace: seq<Joint>, moves: seq<Move>, rules: Rules) {
    JointRun(trace, moves) && forall k :: 0 <= k < |moves| ==> Follows(trace[k].s, moves[k], rules)
  }

  ghost predicate NamingRun(trace: seq<Joint>, moves: seq<Move>, namings: set<Naming>) {
    JointRun(trace, moves) && forall k :: 0 <= k < |moves| ==> ObeysMove(trace[k].net, moves[k], namings)
  }

  ghost predicate Ends(trace: seq<Joint>, moves: seq<Move>, j: Joint) {
    |trace| == |moves| + 1 && trace[|moves|] == j
  }

  ghost predicate Reaches(j: Joint, rules: Rules, namings: set<Naming>) {
    exists trace, moves :: RuledRun(trace, moves, rules) && NamingRun(trace, moves, namings) && Ends(trace, moves, j)
  }

  lemma RunMore(trace: seq<Joint>, moves: seq<Move>, m: Move, rules: Rules, namings: set<Naming>)
    requires RuledRun(trace, moves, rules) && NamingRun(trace, moves, namings) && Allowed(trace[|moves|], m)
    requires Follows(trace[|moves|].s, m, rules) && ObeysMove(trace[|moves|].net, m, namings)
    ensures var trace', moves' := trace + [After(trace[|moves|], m)], moves + [m];
      RuledRun(trace', moves', rules) && NamingRun(trace', moves', namings)
  {
    var trace', moves' := trace + [After(trace[|moves|], m)], moves + [m];
    RunNext(trace, moves, m);
    forall k | 0 <= k < |moves'|
      ensures Follows(trace'[k].s, moves'[k], rules) && ObeysMove(trace'[k].net, moves'[k], namings)
    {
      assert k < |moves| ==> trace'[k] == trace[k] && moves'[k] == moves[k];
    }
  }

  lemma ReachMove(j: Joint, m: Move, rules: Rules, namings: set<Naming>)
    requires Reaches(j, rules, namings) && Allowed(j, m)
    requires Follows(j.s, m, rules) && ObeysMove(j.net, m, namings)
    ensures Reaches(After(j, m), rules, namings)
  {
    var trace, moves :| RuledRun(trace, moves, rules) && NamingRun(trace, moves, namings) && Ends(trace, moves, j);
    RunMore(trace, moves, m, rules, namings);
    assert Ends(trace + [After(j, m)], moves + [m], After(j, m));
  }

  lemma ReachOk(j: Joint, rules: Rules, namings: set<Naming>)
    requires Reaches(j, rules, namings)
    ensures Inv(j.net) && Coupled(j)
  {
    var trace, moves :| RuledRun(trace, moves, rules) && NamingRun(trace, moves, namings) && Ends(trace, moves, j);
    JointKeeps(trace, moves, |moves|);
    AlwaysCoupled(trace, moves, |moves|);
  }

  lemma ReachServed(j: Joint, m: Move, rules: Rules, namings: set<Naming>)
    requires Reaches(j, rules, namings) && Proper(j, m) && !m.Media?
    ensures Allowed(j, m)
  {
    var trace, moves :| RuledRun(trace, moves, rules) && NamingRun(trace, moves, namings) && Ends(trace, moves, j);
    RequestsAreServed(trace, moves, |moves|, m);
  }

  // ---------------------------------------------------------------- what the run looks like

  /** What is still unread on a link, either way. */
  datatype Wire = Wire(down: seq<Msg>, up: seq<Msg>)

  /** What matters of the network: the links of servers 0 and 1; whether server 0 has a router `r` for
      `home`, and a pipe `t` from it to server 1; the router of server 1 for `other`, whether it has
      a relay for `r`, and whether the offer of `t` waits there.  Only rooms in `lost` were ever dropped
      untold. */
  datatype Scene = Scene(
    home: Room, other: Room, rules: Rules, lost: set<Room>, closed: set<Node>, r: RouterId, t: TransportId,
    a: Wire, b: Wire, made: bool, piped: bool,
    q: Option<RouterId>, relayed: bool, offered: bool,
    pipes: seq<Record>, connects: seq<Connect>)

  ghost predicate LinkLooks(nd: NodeState, k: Wire) {
    && nd.read <= |nd.down| && nd.taken <= |nd.up| && nd.workers == [0]
    && nd.down[nd.read..] == k.down && nd.up[nd.taken..] == k.up
  }

  ghost predicate IngressLooks(nd: NodeState, c: Scene) {
    && (if c.made then c.home in nd.server.rooms && nd.server.rooms[c.home] == [c.r] && c.r in nd.server.routers
        else c.home !in nd.server.rooms)
    && nd.server.relays == (if c.piped then [Relay(c.r, 1, c.t, c.home)] else [])
    && nd.server.pipes == (if c.piped then [Pipe(c.home, c.t, false)] else [])
    && nd.server.relayRouters == map[]
    && (c.piped ==> c.made && 0 in nd.routes && nd.routes[0] == c.r)
  }

  ghost predicate EgressLooks(s: Server, c: Scene) {
    && (if c.q.Some? then c.other in s.rooms && s.rooms[c.other] == [c.q.value] && c.q.value in s.routers
        else c.other !in s.rooms)
    && (if c.relayed then |s.relays| == 1 && s.relays[0].router == c.r && s.relays[0].room == c.other
      else s.relays == [])
    && s.relayRouters == (if c.relayed && c.q.Some? then map[c.r := c.q.value] else map[])
    && s.pending == (if c.offered then map[c.r := c.t] else map[])
  }

  ghost predicate NetLooks(net: Net, c: Scene) {
    && |net.nodes| == 5 && net.nodes[0].ingress && !net.nodes[1].ingress
    && net.nodes[2].ingress && !net.nodes[3].ingress && net.nodes[4].ingress
    && LinkLooks(net.nodes[0], c.a) && LinkLooks(net.nodes[1], c.b)
    && IngressLooks(net.nodes[0], c) && EgressLooks(net.nodes[1].server, c)
    && net.pipes == c.pipes && net.h.connects == c.connects && net.h.lost <= c.lost
  }

  /** Quantified so that a proof can carry it along as one fact. */
  ghost predicate Shows(nets: set<Net>, c: Scene) {
    forall net :: net in nets ==> NetLooks(net, c)
  }

  /** Quantified for the same reason. */
  ghost predicate Looks(j: Joint, c: Scene) {
    forall it :: it in {j} ==>
      Reaches(it, c.rules, {(c.home, c.other)}) && NetLooks(it.net, c) && it.closed == c.closed && 0 !in c.closed
      && 1 !in c.closed
  }

  lemma See(j: Joint, c: Scene)
    requires Looks(j, c)
    ensures Reaches(j, c.rules, {(c.home, c.other)}) && NetLooks(j.net, c)
    ensures j.closed == c.closed && 0 !in c.closed && 1 !in c.closed
  {
    assert j in {j};
  }

  lemma IngressGroups(j: Joint, c: Scene)
    requires Looks(j, c)
    ensures |j.net.nodes| == 5 && GroupsOk(j.net.nodes[0].server) && GroupsAtHome(j.net, 0)
  {
    See(j, c);
    ReachOk(j, c.rules, {(c.home, c.other)});
    assert NodeOk(j.net, 0);
  }

  // ---------------------------------------------------------------- orders of the signaling server

  function To(c: Scene, n: Node, m: Msg): Scene {
    if n == 0 then c.(a := c.a.(down := c.a.down + [m]))
    else if n == 1 then c.(b := c.b.(down := c.b.down + [m]))
    else c
  }

  function Tell(c: Scene, a: Action): Scene
    requires Simple(c, a)
  {
    match a
    case JoinAction(room, n) => To(c, n, CreateRouterGroup(room))
    case ApiAction(n, m) => To(c, n, m)
    case _ => c
  }

  /** Joins, requests and goodbyes, and drops that leave the pipes and the kept rooms alone. */
  predicate Simple(c: Scene, a: Action) {
    match a
    case JoinAction(_, n) => n < 5
    case ApiAction(n, m) => n < 5 && (m.DisconnectTransport? || (IsAsk(m) && n in {0, 2, 4}))
    case DropAction(gone) => gone <= c.lost
    case UnpipeAction(n, isEgress) => PipesWithoutNode(c.pipes, n, isEgress) == c.pipes
    case SweepAction(_) => true
    case _ => false
  }

  predicate AllSimple(c: Scene, actions: seq<Action>) {
    forall a :: a in actions ==> Simple(c, a)
  }

  lemma StillSimple(c: Scene, a: Action, actions: seq<Action>)
    requires Simple(c, a) && AllSimple(c, actions)
    ensures AllSimple(Tell(c, a), actions)
  {
  }

  function TellAll(c: Scene, actions: seq<Action>): Scene
    requires AllSimple(c, actions)
    decreases |actions|
  {
    if actions == [] then c
    else
      assert actions[0] in actions && forall a :: a in actions[1..] ==> a in actions;
      StillSimple(c, actions[0], actions[1..]);
      TellAll(Tell(c, actions[0]), actions[1..])
  }

  lemma LinkSent(nd: NodeState, k: Wire, m: Msg)
    requires LinkLooks(nd, k)
    ensures LinkLooks(nd.(down := nd.down + [m]), k.(down := k.down + [m]))
  {
    assert (nd.down + [m])[nd.read..] == nd.down[nd.read..] + [m];
  }

  lemma Sent(net: Net, c: Scene, net': Net, n: Node, m: Msg)
    requires NetLooks(net, c) && n < 5 && net'.nodes == Send(net, n, m).nodes && net'.pipes == net.pipes
      && net'.h == net.h
    ensures NetLooks(net', To(c, n, m))
  {
    if n == 0 {
      LinkSent(net.nodes[0], c.a, m);
    } else if n == 1 {
      LinkSent(net.nodes[1], c.b, m);
    }
  }

  lemma Tells(net: Net, c: Scene, a: Action)
    requires NetLooks(net, c) && Simple(c, a) && Enabled(net, a)
    ensures NetLooks(Apply(net, a), Tell(c, a))
  {
    if a.JoinAction? {
      Sent(net, c, Apply(net, a), a.n, CreateRouterGroup(a.room));
    } else if a.ApiAction? {
      Sent(net, c, Apply(net, a), a.n, a.msg);
    }
  }

  lemma {:induction false} TellsAll(net: Net, c: Scene, actions: seq<Action>)
    requires NetLooks(net, c) && AllSimple(c, actions) && AllEnabled(net, actions)
    ensures Shows({ApplyAll(net, actions)}, TellAll(c, actions))
    decreases |actions|
  {
    if actions != [] {
      assert actions[0] in actions && forall x :: x in actions[1..] ==> x in actions;
      StillSimple(c, actions[0], actions[1..]);
      Tells(net, c, actions[0]);
      TellsAll(Apply(net, actions[0]), Tell(c, actions[0]), actions[1..]);
    }
  }

  /** The scenes are of the same run. */
  predicate Alike(c: Scene, c': Scene) {
    c'.rules == c.rules && c'.home == c.home && c'.other == c.other && c'.lost == c.lost
  }

  /** A request whose orders make the scene another one. */
  lemma Moved(j: Joint, c: Scene, m: Move, c': Scene)
    requires Looks(j, c) && !m.Media? && Proper(j, m) && Follows(j.s, m, c.rules)
    requires AllEnabled(j.net, Orders(j.s, m)) ==> Shows({ApplyAll(j.net, Orders(j.s, m))}, c')
    requires Alike(c, c') && c'.closed == if m.Request? && m.op.Close? then c.closed + {m.op.server} else c.closed
    requires 0 !in c'.closed && 1 !in c'.closed
    ensures Allowed(j, m) && Looks(After(j, m), c')
  {
    See(j, c);
    ReachServed(j, m, c.rules, {(c.home, c.other)});
    ReachMove(j, m, c.rules, {(c.home, c.other)});
    assert After(j, m).net in {ApplyAll(j.net, Orders(j.s, m))};
  }

  /** Servers of the scene that a join may name. */
  predicate Cast(m: Move) {
    m.Request? && m.op.Join? ==> m.op.ingress in {Some(0), Some(2), Some(4)} && m.op.egress in {Some(1), Some(3)}
  }

  /** Requests that give simple orders only. */
  lemma Ordered(j: Joint, c: Scene, m: Move)
    requires Looks(j, c) && !m.Media? && AllSimple(c, Orders(j.s, m))
    requires (m.Request? ==> !m.op.Close?) && Cast(m) && Follows(j.s, m, c.rules)
    ensures Allowed(j, m) && Looks(After(j, m), TellAll(c, Orders(j.s, m)))
  {
    See(j, c);
    if AllEnabled(j.net, Orders(j.s, m)) {
      TellsAll(j.net, c, Orders(j.s, m));
    }
    TellsSame(c, Orders(j.s, m));
    Moved(j, c, m, TellAll(c, Orders(j.s, m)));
  }

  lemma {:induction false} TellsSame(c: Scene, actions: seq<Action>)
    requires AllSimple(c, actions)
    ensures Alike(c, TellAll(c, actions)) && TellAll(c, actions).closed == c.closed
    decreases |actions|
  {
    if actions != [] {
      assert actions[0] in actions && forall x :: x in actions[1..] ==> x in actions;
      StillSimple(c, actions[0], actions[1..]);
      TellsSame(Tell(c, actions[0]), actions[1..]);
    }
  }

  // ---------------------------------------------------------------- what the media servers do

  lemma Step(j: Joint, c: Scene, a: Action, c': Scene) returns (j': Joint)
    requires Looks(j, c) && Enabled(j.net, a) && (a.ServeAction? || a.ForwardAction?)
      && Obeys(j.net, a, {(c.home, c.other)})
    requires NetLooks(Apply(j.net, a), c') && Alike(c, c') && c'.closed == c.closed && a.n in {0, 1}
    ensures j' == Joint(j.s, Apply(j.net, a), j.closed) && Looks(j', c')
  {
    See(j, c);
    OneOrder(j.net, a);
    ReachMove(j, Media(a), c.rules, {(c.home, c.other)});
    j' := Joint(j.s, Apply(j.net, a), j.closed);
    assert After(j, Media(a)) == j';
  }

  function Read(k: Wire, sent: seq<Msg>): Wire
    requires k.down != []
  {
    Wire(k.down[1..], k.up + sent)
  }

  predicate Reads(k: Wire, m: Msg) {
    k.down != [] && k.down[0] == m
  }

  /** A server whose link looks like `k` reads a message and sends others. */
  lemma LinkRead(nd: NodeState, k: Wire, nd': NodeState, sent: seq<Msg>)
    requires LinkLooks(nd, k) && k.down != []
    requires nd'.down == nd.down && nd'.read == nd.read + 1 && nd'.up == nd.up + sent && nd'.taken == nd.taken
      && nd'.workers == nd.workers
    ensures nd.read < |nd.down| && nd.down[nd.read] == k.down[0] && LinkLooks(nd', Read(k, sent))
  {
    assert nd.down[nd.read + 1..] == nd.down[nd.read..][1..];
    assert (nd.up + sent)[nd.taken..] == nd.up[nd.taken..] + sent;
  }

  lemma IngressOpens(j: Joint, c: Scene) returns (j': Joint, c': Scene)
    requires Looks(j, c) && Reads(c.a, CreateRouterGroup(c.home)) && !c.made && !c.piped && !c.relayed && !c.offered
    ensures j'.s == j.s && Looks(j', c') && c' == c.(a := Read(c.a, []), made := true, r := c'.r)
  {
    See(j, c);
    var nd := j.net.nodes[0];
    LinkRead(nd, c.a, Advance(nd), []);
    assert NewRouters(j.net.next, 1) == [j.net.next];
    c' := c.(a := Read(c.a, []), made := true, r := j.net.next);
    var net' := Apply(j.net, ServeAction(0, {}));
    LinkRead(nd, c.a, net'.nodes[0], []);
    j' := Step(j, c, ServeAction(0, {}), c');
  }

  /** Messages that leave alone what matters of the ingress server. */
  predicate IngressIdle(c: Scene, m: Msg) {
    || (m.CreateRouterGroup? && (m.room != c.home || c.made))
    || (m.DisconnectTransport? && m.peer != 0)
    || (m.DestroyRouterGroup? && m.room != c.home)
  }

  /** Server `n` reads a message that makes it send and connect nothing. */
  ghost predicate Quiet(net: Net, net': Net, n: Node) {
    && n < |net.nodes| == |net'.nodes| && net'.pipes == net.pipes && net'.h.connects == net.h.connects
    && net'.h.lost == net.h.lost && (forall k :: 0 <= k < |net.nodes| && k != n ==> net'.nodes[k] == net.nodes[k])
    && var nd, nd' := net.nodes[n], net'.nodes[n];
    && nd'.ingress == nd.ingress && nd'.workers == nd.workers && nd'.down == nd.down && nd'.read == nd.read + 1
    && nd'.up == nd.up && nd'.taken == nd.taken
  }

  lemma QuietGroup(net: Net, n: Node, room: Room)
    requires n < |net.nodes|
    ensures Quiet(net, ServeGroup(net, n, room), n)
  {
  }

  lemma QuietDestroy(net: Net, n: Node, room: Room, gone: set<RouterId>)
    requires n < |net.nodes|
    ensures Quiet(net, ServeDestroy(net, n, room, gone), n)
  {
  }

  lemma QuietDisconnect(net: Net, n: Node, peer: PeerId)
    requires n < |net.nodes|
    ensures Quiet(net, ServeDisconnect(net, n, peer), n)
  {
  }

  lemma IngressQuiet(net: Net, c: Scene, net': Net)
    requires NetLooks(net, c) && Quiet(net, net', 0) && c.a.down != [] && IngressLooks(net'.nodes[0], c)
    ensures NetLooks(net', c.(a := Read(c.a, [])))
  {
    LinkRead(net.nodes[0], c.a, net'.nodes[0], []);
  }

  lemma EgressQuiet(net: Net, c: Scene, net': Net, c': Scene)
    requires NetLooks(net, c) && Quiet(net, net', 1) && c.b.down != [] && EgressLooks(net'.nodes[1].server, c')
    requires c' == c.(b := Read(c.b, []), q := c'.q, relayed := c'.relayed, offered := c'.offered)
    ensures NetLooks(net', c')
  {
    LinkRead(net.nodes[1], c.b, net'.nodes[1], []);
  }

  lemma IngressIdles(j: Joint, c: Scene) returns (j': Joint, c': Scene)
    requires Looks(j, c) && c.a.down != [] && IngressIdle(c, c.a.down[0])
    ensures j'.s == j.s && Looks(j', c') && c' == c.(a := Read(c.a, []))
  {
    See(j, c);
    IngressGroups(j, c);
    var nd := j.net.nodes[0];
    LinkRead(nd, c.a, Advance(nd), []);
    assert OnePerRouter(nd.server.relayRouters, {}, {});
    IdleLooks(j.net, c, c.a.down[0]);
    IngressQuiet(j.net, c, Serve(j.net, 0, {}));
    c' := c.(a := Read(c.a, []));
    j' := Step(j, c, ServeAction(0, {}), c');
  }

  lemma IdleLooks(net: Net, c: Scene, m: Msg)
    requires NetLooks(net, c) && GroupsOk(net.nodes[0].server) && IngressIdle(c, m)
    requires net.nodes[0].read < |net.nodes[0].down| && m == net.nodes[0].down[net.nodes[0].read]
    ensures Quiet(net, Serve(net, 0, {}), 0) && IngressLooks(Serve(net, 0, {}).nodes[0], c)
  {
    match m
    case DestroyRouterGroup(room) =>
      QuietDestroy(net, 0, room, {});
      OtherDestroyed(net, c, room);
    case CreateRouterGroup(room) =>
      QuietGroup(net, 0, room);
      OtherMade(net, c, room);
    case DisconnectTransport(peer) => QuietDisconnect(net, 0, peer);
  }

  lemma OtherMade(net: Net, c: Scene, room: Room)
    requires NetLooks(net, c) && (room != c.home || c.made)
    ensures IngressLooks(ServeGroup(net, 0, room).nodes[0], c)
  {
    var nd := net.nodes[0];
    if room !in nd.server.rooms {
      GroupMade(nd, c, room, NewRouters(net.next, 1));
    }
  }

  lemma GroupMade(nd: NodeState, c: Scene, room: Room, ids: seq<RouterId>)
    requires IngressLooks(nd, c) && nd.workers == [0] && |ids| == 1 && (room != c.home || c.made)
      && room !in nd.server.rooms
    ensures IngressLooks(Advance(nd).(server := CreateGroup(nd.server, room, ids, nd.workers)), c)
  {
  }

  lemma OtherDestroyed(net: Net, c: Scene, room: Room)
    requires NetLooks(net, c) && GroupsOk(net.nodes[0].server) && room != c.home
    ensures IngressLooks(ServeDestroy(net, 0, room, {}).nodes[0], c)
  {
    var s := net.nodes[0].server;
    if room in s.rooms {
      assert c.made ==> c.r in s.rooms[c.home] && c.r !in s.rooms[room];
      assert OutsideRoom(s.relays, room) == s.relays && PipesOutsideRoom(s.pipes, room) == s.pipes;
    }
  }

  /** The ingress server makes a pipe for its router and offers it to server 1. */
  lemma IngressOffers(j: Joint, c: Scene) returns (j': Joint, c': Scene)
    requires Looks(j, c) && Reads(c.a, CreateWebRTCIngress(0, c.home, [Some(1)])) && c.made && !c.piped && !c.offered
    ensures j'.s == j.s && Looks(j', c')
    ensures c' == c.(a := Read(c.a, [StorePipeRelay(c.r, 1, c'.t)]), piped := true, t := c'.t)
  {
    See(j, c);
    var nd, t := j.net.nodes[0], j.net.next;
    LinkRead(nd, c.a, Advance(nd), []);
    OneOffer(nd.server, c.home, c.r, t);
    c' := c.(a := Read(c.a, [StorePipeRelay(c.r, 1, t)]), piped := true, t := t);
    var net' := Apply(j.net, ServeAction(0, {}));
    LinkRead(nd, c.a, net'.nodes[0], [StorePipeRelay(c.r, 1, t)]);
    j' := Step(j, c, ServeAction(0, {}), c');
  }

  lemma OneOffer(s: Server, home: Room, r: RouterId, t: TransportId)
    requires home in s.rooms && s.rooms[home] == [r] && r in s.routers && s.relays == [] && s.pipes == []
    ensures Selected(s, home) == Some(r)
    ensures OfferAll(AfterSelect(s, home), r, home, [Some(1)], t) ==
      (AddPipe(AfterSelect(s, home), r, 1, t, home), [Offer(1, t)])
    ensures OfferMessages(r, [Offer(1, t)]) == [StorePipeRelay(r, 1, t)]
  {
    var s1 := AfterSelect(s, home);
    assert [Some(1)][1..] == [] && OfPair(s1.relays, r, 1) == [] && [Offer(1, t)] + [] == [Offer(1, t)];
    assert OfferAll(AddPipe(s1, r, 1, t, home), r, home, [], t + 1) == (AddPipe(s1, r, 1, t, home), []);
  }

  lemma ProducerServed(net: Net, c: Scene)
    requires NetLooks(net, c) && c.piped
    ensures ServeProducer(net, 0, 0, c.other, 1) ==
      var nd' := Advance(net.nodes[0]).(up := net.nodes[0].up + [CreateRelayProducer(c.other, c.r, 1)]);
      net.(nodes := net.nodes[0 := nd'])
  {
    assert OfPair(net.nodes[0].server.relays, c.r, 1) == net.nodes[0].server.relays;
  }

  /** A producer request for the other room is passed on, since the pipe is there. */
  lemma IngressRelays(j: Joint, c: Scene) returns (j': Joint, c': Scene)
    requires Looks(j, c) && Reads(c.a, CreateProducer(0, c.other, 1)) && c.piped
    ensures j'.s == j.s && Looks(j', c') && c' == c.(a := Read(c.a, [CreateRelayProducer(c.other, c.r, 1)]))
  {
    See(j, c);
    var nd := j.net.nodes[0];
    LinkRead(nd, c.a, Advance(nd), []);
    RoomIsNamed(j, c);
    ProducerServed(j.net, c);
    c' := c.(a := Read(c.a, [CreateRelayProducer(c.other, c.r, 1)]));
    LinkRead(nd, c.a, Serve(j.net, 0, {}).nodes[0], [CreateRelayProducer(c.other, c.r, 1)]);
    j' := Step(j, c, ServeAction(0, {}), c');
  }

  lemma RoomIsNamed(j: Joint, c: Scene)
    requires Looks(j, c) && c.piped
    ensures RoomNamed(j.net, c.r, c.other, {(c.home, c.other)})
  {
    See(j, c);
    IngressGroups(j, c);
    assert c.r in j.net.nodes[0].server.rooms[c.home];
  }

  lemma ConnectServed(net: Net, c: Scene, q: RouterId, u: TransportId)
    requires NetLooks(net, c) && c.piped
    ensures ServeConnect(net, 0, c.r, 1, u) ==
      net.(nodes := net.nodes[0 := Advance(net.nodes[0])],
           h := net.h.(connects := net.h.connects + [Connect(0, c.t, u)]))
  {
    assert OfPair(net.nodes[0].server.relays, c.r, 1) == net.nodes[0].server.relays;
  }

  lemma IngressConnects(j: Joint, c: Scene, q: RouterId, u: TransportId) returns (j': Joint, c': Scene)
    requires Looks(j, c) && Reads(c.a, ConnectPipeRelay(c.r, q, 1, u)) && c.piped
    ensures j'.s == j.s && Looks(j', c') && c' == c.(a := Read(c.a, []), connects := c.connects + [Connect(0, c.t, u)])
  {
    See(j, c);
    LinkRead(j.net.nodes[0], c.a, Advance(j.net.nodes[0]), []);
    ConnectServed(j.net, c, q, u);
    c' := c.(a := Read(c.a, []), connects := c.connects + [Connect(0, c.t, u)]);
    j' := Step(j, c, ServeAction(0, {}), c');
  }

  lemma WireTaken(nd: NodeState, k: Wire)
    requires LinkLooks(nd, k) && k.up != []
    ensures nd.taken < |nd.up| && nd.up[nd.taken] == k.up[0]
    ensures LinkLooks(nd.(taken := nd.taken + 1), k.(up := k.up[1..]))
  {
    assert nd.up[nd.taken + 1..] == nd.up[nd.taken..][1..];
  }

  /** A message of server 0 goes to server 1. */
  lemma Up(j: Joint, c: Scene) returns (j': Joint, c': Scene)
    requires Looks(j, c) && c.a.up != []
    requires c.a.up[0] == StorePipeRelay(c.r, 1, c.t) || c.a.up[0] == CreateRelayProducer(c.other, c.r, 1)
    ensures j'.s == j.s && Looks(j', c')
    ensures c' == c.(a := c.a.(up := c.a.up[1..]), b := c.b.(down := c.b.down + [c.a.up[0]]),
                     pipes := if c.a.up[0].StorePipeRelay? then c.pipes + [Record(0, 1, c.r)] else c.pipes)
  {
    See(j, c);
    var m := c.a.up[0];
    WireTaken(j.net.nodes[0], c.a);
    LinkSent(j.net.nodes[1], c.b, m);
    c' := c.(a := c.a.(up := c.a.up[1..]), b := c.b.(down := c.b.down + [m]),
             pipes := if m.StorePipeRelay? then c.pipes + [Record(0, 1, c.r)] else c.pipes);
    j' := Step(j, c, ForwardAction(0), c');
  }

  /** An answer of server 1 goes to server 0, since the pipe is recorded. */
  lemma Back(j: Joint, c: Scene, q: RouterId, u: TransportId) returns (j': Joint, c': Scene)
    requires Looks(j, c) && c.b.up != [] && c.b.up[0] == ConnectPipeRelay(c.r, q, 1, u)
      && c.pipes == [Record(0, 1, c.r)]
    ensures j'.s == j.s && Looks(j', c')
    ensures c' == c.(b := c.b.(up := c.b.up[1..]), a := c.a.(down := c.a.down + [c.b.up[0]]))
  {
    See(j, c);
    WireTaken(j.net.nodes[1], c.b);
    c' := c.(b := c.b.(up := c.b.up[1..]), a := c.a.(down := c.a.down + [c.b.up[0]]));
    BackLooks(j.net, c, q, u);
    j' := Step(j, c, ForwardAction(1), c');
  }

  lemma BackLooks(net: Net, c: Scene, q: RouterId, u: TransportId)
    requires NetLooks(net, c) && c.b.up != [] && c.b.up[0] == ConnectPipeRelay(c.r, q, 1, u)
      && c.pipes == [Record(0, 1, c.r)] && net.nodes[1].taken < |net.nodes[1].up|
    ensures NetLooks(Forward(net, 1), c.(b := c.b.(up := c.b.up[1..]), a := c.a.(down := c.a.down + [c.b.up[0]])))
  {
    WireTaken(net.nodes[1], c.b);
    LinkSent(net.nodes[0], c.a, c.b.up[0]);
    assert FindIngress(c.pipes, 1, c.r) == Some(0);
  }

  lemma EgressHears(net: Net, c: Scene, m: Msg)
    requires NetLooks(net, c) && net.nodes[1].read < |net.nodes[1].down| && m == net.nodes[1].down[net.nodes[1].read]
    requires m.DisconnectTransport? || (m.CreateRouterGroup? && (m.room != c.other || c.q.Some?))
    ensures Quiet(net, Serve(net, 1, {}), 1) && EgressLooks(Serve(net, 1, {}).nodes[1].server, c)
  {
    match m
    case CreateRouterGroup(room) => QuietGroup(net, 1, room);
    case DisconnectTransport(peer) => QuietDisconnect(net, 1, peer);
  }

  lemma EgressIdles(j: Joint, c: Scene) returns (j': Joint, c': Scene)
    requires Looks(j, c) && c.b.down != []
    requires var m := c.b.down[0]; m.DisconnectTransport? || (m.CreateRouterGroup? && (m.room != c.other || c.q.Some?))
    ensures j'.s == j.s && Looks(j', c') && c' == c.(b := Read(c.b, []))
  {
    See(j, c);
    var nd := j.net.nodes[1];
    LinkRead(nd, c.b, Advance(nd), []);
    c' := c.(b := Read(c.b, []));
    EgressHears(j.net, c, c.b.down[0]);
    EgressQuiet(j.net, c, Serve(j.net, 1, {}), c');
    j' := Step(j, c, ServeAction(1, {}), c');
  }

  lemma EgressOpens(j: Joint, c: Scene) returns (j': Joint, c': Scene)
    requires Looks(j, c) && Reads(c.b, CreateRouterGroup(c.other)) && c.q.None? && !c.relayed
    ensures j'.s == j.s && Looks(j', c') && c'.q.Some? && c' == c.(b := Read(c.b, []), q := c'.q)
  {
    See(j, c);
    var nd, q := j.net.nodes[1], j.net.next;
    LinkRead(nd, c.b, Advance(nd), []);
    assert NewRouters(q, 1) == [q];
    c' := c.(b := Read(c.b, []), q := Some(q));
    var net' := Apply(j.net, ServeAction(1, {}));
    LinkRead(nd, c.b, net'.nodes[1], []);
    j' := Step(j, c, ServeAction(1, {}), c');
  }

  lemma EgressStores(j: Joint, c: Scene) returns (j': Joint, c': Scene)
    requires Looks(j, c) && Reads(c.b, StorePipeRelay(c.r, 1, c.t)) && !c.offered
    ensures j'.s == j.s && Looks(j', c') && c' == c.(b := Read(c.b, []), offered := true)
  {
    See(j, c);
    var nd := j.net.nodes[1];
    LinkRead(nd, c.b, Advance(nd), []);
    c' := c.(b := Read(c.b, []), offered := true);
    var net' := Apply(j.net, ServeAction(1, {}));
    LinkRead(nd, c.b, net'.nodes[1], []);
    j' := Step(j, c, ServeAction(1, {}), c');
  }

  /** The egress server answers, whatever it once knew of the router, and connects if the offer waits. */
  lemma EgressAnswers(j: Joint, c: Scene) returns (j': Joint, c': Scene, u: TransportId)
    requires Looks(j, c) && Reads(c.b, CreateRelayProducer(c.other, c.r, 1)) && c.q.Some? && !c.relayed
    ensures j'.s == j.s && Looks(j', c') && u == j.net.next
    ensures c' == c.(b := Read(c.b, [ConnectPipeRelay(c.r, c.q.value, 1, u)]), relayed := true,
                     connects := if c.offered then c.connects + [Connect(1, u, c.t)] else c.connects)
  {
    See(j, c);
    var nd := j.net.nodes[1];
    u := j.net.next;
    LinkRead(nd, c.b, Advance(nd), []);
    assert AnswerOf(nd.server, c.other, c.r) == Answered(c.q.value);
    c' := c.(b := Read(c.b, [ConnectPipeRelay(c.r, c.q.value, 1, u)]), relayed := true,
             connects := if c.offered then c.connects + [Connect(1, u, c.t)] else c.connects);
    var net' := Apply(j.net, ServeAction(1, {}));
    LinkRead(nd, c.b, net'.nodes[1], [ConnectPipeRelay(c.r, c.q.value, 1, u)]);
    j' := Step(j, c, ServeAction(1, {}), c');
  }

  lemma TornDown(s: Server, c: Scene)
    requires EgressLooks(s, c) && c.q.Some? && c.relayed
    ensures EgressLooks(Teardown(s, c.other, {c.r}), c.(q := None, relayed := false, offered := false))
    ensures OnePerRouter(s.relayRouters, Elems(s.rooms[c.other]), {c.r})
  {
    assert Covered(s.relayRouters, c.q.value, {c.r});
    assert s.relays[1..] == [] && OutsideRoom(s.relays, c.other) == [];
    assert s.pending - {c.r} == map[] && s.relayRouters - {c.r} == map[];
  }

  lemma EgressDestroys(j: Joint, c: Scene) returns (j': Joint, c': Scene)
    requires Looks(j, c) && Reads(c.b, DestroyRouterGroup(c.other)) && c.q.Some? && c.relayed
    ensures j'.s == j.s && Looks(j', c') && c' == c.(b := Read(c.b, []), q := None, relayed := false, offered := false)
  {
    See(j, c);
    var nd := j.net.nodes[1];
    LinkRead(nd, c.b, Advance(nd), []);
    TornDown(nd.server, c);
    QuietDestroy(j.net, 1, c.other, {c.r});
    c' := c.(b := Read(c.b, []), q := None, relayed := false, offered := false);
    EgressQuiet(j.net, c, Serve(j.net, 1, {c.r}), c');
    j' := Step(j, c, ServeAction(1, {c.r}), c');
  }
}
