/** The pipe-relay handshake between ingress servers, the signaling server and egress servers.

    Every link is first-in first-out: it is the sequence of all messages ever written to it and
    the number read from it so far.  Handlers run to completion, one message at a time.  The
    `History` is kept for the statements only: where each router was created, which pipe
    transport was created for what, every call that connected a pipe transport, and the rooms that
    the signaling server ever dropped without telling the servers listed for them. */
module Handshake {
  import opened Sfu

  type Peer = nat

  datatype Msg =
    | CreateRouterGroup(room: Room)
    | CreateWebRTCIngress(peer: Peer, room: Room, pipes: seq<Option<Node>>)
    | CreateProducer(peer: Peer, room: Room, egress: Node)
    | DisconnectTransport(peer: Peer)
    | DestroyRouterGroup(room: Room)
    | StorePipeRelay(route: RouterId, egress: Node, remote: TransportId)
    | CreateRelayProducer(room: Room, route: RouterId, egress: Node)
    | ConnectPipeRelay(route: RouterId, egressRoute: RouterId, egress: Node, remote: TransportId)

  /** A media server and its link to and from the signaling server. */
  datatype NodeState = NodeState(
    ingress: bool,
    workers: seq<WorkerId>,
    down: seq<Msg>, read: nat,
    up: seq<Msg>, taken: nat,
    server: Server,
    routes: map<Peer, RouterId>)

  /** An entry of the signaling server's `pipes`. */
  datatype Record = Record(ingress: Node, egress: Node, route: RouterId)

  /** Router created by server `node` for `room` on reading message number `born`. */
  datatype Home = Home(node: Node, room: Room, born: nat)

  /** Server `node` connected its pipe `transport` to the remote pipe `remote`. */
  datatype Connect = Connect(node: Node, transport: TransportId, remote: TransportId)

  datatype History = History(
    home: map<RouterId, Home>,
    offered: map<(RouterId, Node), TransportId>,
    answered: map<TransportId, (RouterId, Node)>,
    first: map<(RouterId, Node), TransportId>,
    connects: seq<Connect>,
    lost: set<Room>)

  datatype Net = Net(
    nodes: seq<NodeState>,
    rooms: map<Room, set<Node>>,
    table: map<Room, set<Node>>,
    pipes: seq<Record>,
    next: nat,
    h: History)

  // ---------------------------------------------------------------- what each party does

  function Send(net: Net, n: Node, m: Msg): Net
    requires n < |net.nodes|
  {
    var nd := net.nodes[n];
    net.(nodes := net.nodes[n := nd.(down := nd.down + [m])])
  }

  /** `requestJoin`, as `joinRoom` calls it: the server is listed for the room. */
  function RequestJoin(net: Net, room: Room, n: Node): Net
    requires n < |net.nodes|
  {
    var members := (if room in net.rooms then net.rooms[room] else {}) + {n};
    Send(net.(rooms := net.rooms[room := members], table := net.table[room := members]), n, CreateRouterGroup(room))
  }

  function Broadcast(nodes: seq<NodeState>, to: set<Node>, m: Msg): (b: seq<NodeState>)
    ensures |b| == |nodes|
    ensures forall n :: 0 <= n < |nodes| ==>
      b[n] == if n in to then nodes[n].(down := nodes[n].down + [m]) else nodes[n]
  {
    seq(|nodes|, n requires 0 <= n < |nodes| => if n in to then nodes[n].(down := nodes[n].down + [m]) else nodes[n])
  }

  /** `closeRoom`: every server in the room's route is told to destroy it. */
  function DestroyRoom(net: Net, room: Room): Net {
    if room in net.table
    then net.(nodes := Broadcast(net.nodes, net.table[room], DestroyRouterGroup(room)))
    else net
  }

  /** A room is dropped from `rooms` and its servers are told. */
  function CloseRoom(net: Net, room: Room): Net {
    DestroyRoom(net.(rooms := net.rooms - {room}), room)
  }

  /** Rooms are dropped from `rooms` and nobody is told. */
  function DropRooms(net: Net, gone: set<Room>): Net {
    net.(rooms := net.rooms - gone, h := net.h.(lost := net.h.lost + gone * net.rooms.Keys))
  }

  /** The pipe ends at server `n`, on the side of its role. */
  predicate EndsAt(p: Record, n: Node, isEgress: bool) {
    if isEgress then p.egress == n else p.ingress == n
  }

  function PipesWithoutNode(ps: seq<Record>, n: Node, isEgress: bool): (f: seq<Record>)
    ensures forall x :: x in f <==> x in ps && !EndsAt(x, n, isEgress)
  {
    if ps == [] then []
    else (if !EndsAt(ps[0], n, isEgress) then [ps[0]] else []) + PipesWithoutNode(ps[1..], n, isEgress)
  }

  function OfferMessages(r: RouterId, offers: seq<Offer>): (ms: seq<Msg>)
    ensures |ms| == |offers|
    ensures forall k :: 0 <= k < |offers| ==> ms[k] == StorePipeRelay(r, offers[k].egress, offers[k].transport)
  {
    seq(|offers|, k requires 0 <= k < |offers| => StorePipeRelay(r, offers[k].egress, offers[k].transport))
  }

  function RecordOffers(offered: map<(RouterId, Node), TransportId>, r: RouterId, offers: seq<Offer>)
    : (m: map<(RouterId, Node), TransportId>)
    decreases |offers|
  {
    if offers == [] then offered
    else
      var o := offers[|offers| - 1];
      RecordOffers(offered, r, offers[..|offers| - 1])[(r, o.egress) := o.transport]
  }

  function NewRouters(next: nat, count: nat): (ids: seq<RouterId>)
    ensures |ids| == count && forall k :: 0 <= k < count ==> ids[k] == next + k
  {
    seq(count, k requires 0 <= k < count => next + k)
  }

  function SettleHomes(home: map<RouterId, Home>, ids: seq<RouterId>, where: Home): map<RouterId, Home> {
    map r | r in home.Keys + Elems(ids) :: if r in home then home[r] else where
  }

  /** The server's node once it has read the message at hand. */
  function Advance(nd: NodeState): NodeState {
    nd.(read := nd.read + 1)
  }

  function ServeGroup(net: Net, n: Node, room: Room): Net
    requires n < |net.nodes|
  {
    var nd := net.nodes[n];
    if room in nd.server.rooms || nd.workers == [] then net.(nodes := net.nodes[n := Advance(nd)])
    else
      var ids := NewRouters(net.next, |nd.workers|);
      net.(nodes := net.nodes[n := Advance(nd).(server := CreateGroup(nd.server, room, ids, nd.workers))],
           next := net.next + |ids|,
           h := net.h.(home := SettleHomes(net.h.home, ids, Home(n, room, nd.read))))
  }

  function ServeIngress(net: Net, n: Node, peer: Peer, room: Room, es: seq<Option<Node>>): Net
    requires n < |net.nodes|
  {
    var nd := net.nodes[n];
    match Selected(nd.server, room)
    case None => net.(nodes := net.nodes[n := Advance(nd)])
    case Some(r) =>
      var s1 := AfterSelect(nd.server, room);
      if r !in s1.routers then net.(nodes := net.nodes[n := Advance(nd).(server := s1)])
      else
        var (s2, offers) := OfferAll(s1, r, room, es, net.next);
        net.(nodes := net.nodes[n := Advance(nd).(server := s2, routes := nd.routes[peer := r],
                                                  up := nd.up + OfferMessages(r, offers))],
             next := net.next + |offers|,
             h := net.h.(offered := RecordOffers(net.h.offered, r, offers)))
  }

  function ServeProducer(net: Net, n: Node, peer: Peer, room: Room, e: Node): Net
    requires n < |net.nodes|
  {
    var nd := net.nodes[n];
    if peer !in nd.routes then net.(nodes := net.nodes[n := Advance(nd)])
    else
      var r := nd.routes[peer];
      var found := OfPair(nd.server.relays, r, e);
      if found == [] || FindPipe(nd.server.pipes, found[0].transport).None? then
        net.(nodes := net.nodes[n := Advance(nd)])
      else
        net.(nodes := net.nodes[n := Advance(nd).(up := nd.up + [CreateRelayProducer(room, r, e)])])
  }

  function ServeDisconnect(net: Net, n: Node, peer: Peer): Net
    requires n < |net.nodes|
  {
    var nd := net.nodes[n];
    net.(nodes := net.nodes[n := Advance(nd).(routes := nd.routes - {peer})])
  }

  function ServeDestroy(net: Net, n: Node, room: Room, gone: set<RouterId>): Net
    requires n < |net.nodes|
  {
    var nd := net.nodes[n];
    if room !in nd.server.rooms then net.(nodes := net.nodes[n := Advance(nd)])
    else net.(nodes := net.nodes[n := Advance(nd).(server := Teardown(nd.server, room, gone))])
  }

  function ServeStore(net: Net, n: Node, r: RouterId, remote: TransportId): Net
    requires n < |net.nodes|
  {
    var nd := net.nodes[n];
    net.(nodes := net.nodes[n := Advance(nd).(server := nd.server.(pending := nd.server.pending[r := remote]))])
  }

  function ServeRelay(net: Net, n: Node, room: Room, r: RouterId): Net
    requires n < |net.nodes|
  {
    var nd := net.nodes[n];
    var t := net.next;
    var nd' := Advance(nd).(server := AnswerRelay(nd.server, n, room, r, t));
    match AnswerOf(nd.server, room, r)
    case Answered(q) =>
      net.(nodes := net.nodes[n := nd'.(up := nd.up + [ConnectPipeRelay(r, q, n, t)])],
           next := t + 1,
           h := net.h.(
             answered := net.h.answered[t := (r, n)],
             first := if (r, n) in net.h.first then net.h.first else net.h.first[(r, n) := t],
             connects := if r in nd.server.pending
                         then net.h.connects + [Connect(n, t, nd.server.pending[r])]
                         else net.h.connects))
    case _ => net.(nodes := net.nodes[n := nd'])
  }

  function ServeConnect(net: Net, n: Node, r: RouterId, e: Node, remote: TransportId): Net
    requires n < |net.nodes|
  {
    var nd := net.nodes[n];
    var net1 := net.(nodes := net.nodes[n := Advance(nd)]);
    match ConnectTarget(nd.server, r, e)
    case None => net1
    case Some(t) => net1.(h := net.h.(connects := net.h.connects + [Connect(n, t, remote)]))
  }

  /** A media server handles the next message on its link.  Where the teardown may choose which
      relayed router to forget, `gone` is its choice. */
  function Serve(net: Net, n: Node, gone: set<RouterId>): Net
    requires n < |net.nodes| && net.nodes[n].read < |net.nodes[n].down|
  {
    var nd := net.nodes[n];
    match nd.down[nd.read]
    case CreateRouterGroup(room) => ServeGroup(net, n, room)
    case CreateWebRTCIngress(peer, room, es) => ServeIngress(net, n, peer, room, es)
    case CreateProducer(peer, room, e) => ServeProducer(net, n, peer, room, e)
    case DisconnectTransport(peer) => ServeDisconnect(net, n, peer)
    case DestroyRouterGroup(room) => ServeDestroy(net, n, room, gone)
    case StorePipeRelay(r, _, remote) => ServeStore(net, n, r, remote)
    case CreateRelayProducer(room, r, _) => ServeRelay(net, n, room, r)
    case ConnectPipeRelay(r, _, e, remote) => ServeConnect(net, n, r, e, remote)
  }

  predicate IsEgress(net: Net, n: Node) {
    n < |net.nodes| && !net.nodes[n].ingress
  }

  /** `findIndex` over `pipes`: the ingress server of the first pipe from `route` to `egress`. */
  function FindIngress(pipes: seq<Record>, egress: Node, route: RouterId): (i: Option<Node>)
    ensures i.Some? ==> Record(i.value, egress, route) in pipes
  {
    if pipes == [] then None
    else if pipes[0].egress == egress && pipes[0].route == route then Some(pipes[0].ingress)
    else FindIngress(pipes[1..], egress, route)
  }

  function Taken(net: Net, n: Node): Net
    requires n < |net.nodes|
  {
    net.(nodes := net.nodes[n := net.nodes[n].(taken := net.nodes[n].taken + 1)])
  }

  /** The signaling server routes the next message of media server `n`. */
  function Forward(net: Net, n: Node): Net
    requires n < |net.nodes| && net.nodes[n].taken < |net.nodes[n].up|
  {
    var m := net.nodes[n].up[net.nodes[n].taken];
    var net1 := Taken(net, n);
    match m
    case StorePipeRelay(r, e, _) =>
      var net2 := net1.(pipes := net1.pipes + [Record(n, e, r)]);
      if IsEgress(net2, e) then Send(net2, e, m) else net2
    case CreateRelayProducer(_, _, e) =>
      if IsEgress(net1, e) then Send(net1, e, m) else net1
    case ConnectPipeRelay(r, _, _, _) =>
      (match FindIngress(net1.pipes, n, r)
       case Some(i) => if i < |net1.nodes| && net1.nodes[i].ingress then Send(net1, i, m) else net1
       case None => net1)
    case _ => net1
  }

  function RouterGone(net: Net, n: Node, q: RouterId, t: TransportId): Net
    requires n < |net.nodes|
  {
    var nd := net.nodes[n];
    net.(nodes := net.nodes[n := nd.(server := RouterClosed(nd.server, q, t))])
  }

  datatype Action =
    | JoinAction(room: Room, n: Node)
    | ApiAction(n: Node, msg: Msg)
    | CloseAction(room: Room)
    | DestroyAction(room: Room)
    | DropAction(gone: set<Room>)
    | UnpipeAction(n: Node, isEgress: bool)
    | SweepAction(gone: set<Room>)
    | ServeAction(n: Node, gone: set<RouterId>)
    | ForwardAction(n: Node)
    | RouterGoneAction(n: Node, q: RouterId, t: TransportId)

  /** When an action can happen, in the widest sense: transport and producer requests reach any
      ingress server with any contents. */
  predicate Enabled(net: Net, a: Action) {
    match a
    case JoinAction(_, n) => n < |net.nodes|
    case ApiAction(n, m) =>
      && n < |net.nodes|
      && (m.DisconnectTransport?
          || (net.nodes[n].ingress && (m.CreateWebRTCIngress? || m.CreateProducer?)))
    case SweepAction(gone) => gone !! net.rooms.Keys
    case CloseAction(_) => true
    case DestroyAction(_) => true
    case DropAction(_) => true
    case UnpipeAction(_, _) => true
    case ServeAction(n, gone) =>
      && n < |net.nodes|
      && var nd := net.nodes[n];
      && nd.read < |nd.down|
      && (nd.down[nd.read].DestroyRouterGroup? && nd.down[nd.read].room in nd.server.rooms ==>
            OnePerRouter(nd.server.relayRouters, Elems(nd.server.rooms[nd.down[nd.read].room]), gone))
    case ForwardAction(n) => n < |net.nodes| && net.nodes[n].taken < |net.nodes[n].up|
    case RouterGoneAction(n, q, t) =>
      n < |net.nodes| && !net.nodes[n].ingress && q in net.h.home && net.h.home[q].node == n
  }

  function Apply(net: Net, a: Action): Net
    requires Enabled(net, a)
  {
    match a
    case JoinAction(room, n) => RequestJoin(net, room, n)
    case ApiAction(n, m) => Send(net, n, m)
    case CloseAction(room) => CloseRoom(net, room)
    case DestroyAction(room) => DestroyRoom(net, room)
    case DropAction(gone) => DropRooms(net, gone)
    case UnpipeAction(n, isEgress) => net.(pipes := PipesWithoutNode(net.pipes, n, isEgress))
    case SweepAction(gone) => net.(table := net.table - gone)
    case ServeAction(n, gone) => Serve(net, n, gone)
    case ForwardAction(n) => Forward(net, n)
    case RouterGoneAction(n, q, t) => RouterGone(net, n, q, t)
  }

  predicate Initial(net: Net) {
    && net.rooms == map[] && net.table == map[] && net.pipes == []
    && net.h == History(map[], map[], map[], map[], [], {})
    && (forall n :: 0 <= n < |net.nodes| ==>
          net.nodes[n] == NodeState(net.nodes[n].ingress, net.nodes[n].workers, [], 0, [], 0, Fresh, map[]))
  }

  /** `trace` is a run: consecutive states of a net that starts from nothing. */
  predicate Run(trace: seq<Net>, actions: seq<Action>) {
    && |trace| == |actions| + 1
    && Initial(trace[0])
    && (forall k :: 0 <= k < |actions| ==> Enabled(trace[k], actions[k]) && trace[k + 1] == Apply(trace[k], actions[k]))
  }
}
