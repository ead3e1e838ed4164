/** The signaling server and the media servers together.  Clients make requests; the signaling server
    changes its peers, rooms and counters and gives orders; media servers handle what is on their links
    in their own time, until their connection closes. */
module JointRuns {
  import opened Sfu
  import opened Signaling
  import opened Handshake
  import opened HandshakeInvariant
  import opened HandshakeRouting
  import MeshRuns
  import ServerClose

  /** `closed` are the media servers whose connection has closed. */
  datatype Joint = Joint(s: State, net: Net, closed: set<Node>)

  /** A request of a client, a producer request, or a step of a media server or of its link. */
  datatype Move = Request(op: MeshRuns.Operation) | Produce(peer: PeerId) | Media(action: Action)

  // ---------------------------------------------------------------- what the signaling server orders

  function EachJoin(r: Room, ns: seq<Node>): seq<Action> {
    if ns == [] then [] else [JoinAction(r, ns[0])] + EachJoin(r, ns[1..])
  }

  function Repeated(n: Node, count: nat): (ns: seq<Node>)
    ensures |ns| == count && forall x :: x in ns ==> x == n
  {
    seq(count, _ => n)
  }

  /** The peers of the room that have not joined egress server `e` on their own account. */
  function Others(s: State, p: PeerId, r: Room, e: Node): set<PeerId> {
    set q | q in s.peers && q != p && s.peers[q].room == Some(r) && s.peers[q].egress != Some(e)
  }

  /** The servers that `joinRoom` sends a join to, in order. */
  function Joining(s: State, p: PeerId, r: Room, i: Option<Node>, e: Option<Node>): seq<Node> {
    var egress := ListsOf(s, r).egress;
    if i.None? || e.None? then egress
    else egress + ([i.value] + (if e.value in egress then [] else Repeated(e.value, 1 + |Others(s, p, r, e.value)|)))
  }

  /** `getRouteEgress`. */
  function Pipes(s: State, r: Room): (pipes: seq<Option<Node>>)
    ensures pipes == if r in s.table then Somes(s.table[r].egress) else []
  {
    if r in s.table then Somes(s.table[r].egress) else []
  }

  function Somes(ns: seq<Node>): (os: seq<Option<Node>>)
    ensures |os| == |ns| && forall k :: 0 <= k < |ns| ==> os[k] == Some(ns[k])
  {
    seq(|ns|, k requires 0 <= k < |ns| => Some(ns[k]))
  }

  function Goodbye(x: Option<Node>, p: PeerId): seq<Action> {
    match x
    case None => []
    case Some(n) => [ApiAction(n, DisconnectTransport(p))]
  }

  function Goodbyes(ns: seq<Node>, p: PeerId): seq<Action> {
    if ns == [] then [] else [ApiAction(ns[0], DisconnectTransport(p))] + Goodbyes(ns[1..], p)
  }

  /** The peer's ingress server is told first, then the egress servers of the room, and if the room
      closes, `last` happens. */
  function Farewell(s: State, p: PeerId, r: Option<Room>, last: seq<Action>): seq<Action>
    requires p in s.peers
  {
    Goodbye(s.peers[p].ingress, p)
    + (if r.None? || r.value !in s.rooms then [] else Goodbyes(s.rooms[r.value].egress, p) + last)
  }

  /** `leaveRoom` drops the room that it is asked to leave, and has the room destroyed that the peer is
      in. */
  function LeaveLast(s: State, p: PeerId, r: Room): seq<Action>
    requires p in s.peers
  {
    if r !in s.counts || !Closes(Less(s.counts[r], s.peers[p])) then []
    else match s.peers[p].room
      case None => [DropAction({r})]
      case Some(own) => if own == r then [CloseAction(r)] else [DropAction({r}), DestroyAction(own)]
  }

  function LeaveOrders(s: State, p: PeerId, r: Room): seq<Action> {
    if p in s.peers then Farewell(s, p, Some(r), LeaveLast(s, p, r)) else []
  }

  function GoneLast(s: State, p: PeerId): seq<Action>
    requires p in s.peers
  {
    match s.peers[p].room
    case Some(r) => if r in s.counts && !Occupied(s.peers - {p}, r) then [CloseAction(r)] else []
    case None => []
  }

  function GoneOrders(s: State, p: PeerId): seq<Action> {
    if p in s.peers then Farewell(s, p, s.peers[p].room, GoneLast(s, p)) else []
  }

  /** `dropRoute` says the goodbyes of the server's peers, one by one. */
  function DropOrders(s: State, order: seq<PeerId>, n: Node): seq<Action> {
    if order == [] then []
    else
      var last := order[|order| - 1];
      DropOrders(s, order[..|order| - 1], n)
      + match DropPeers(s, order[..|order| - 1], n)
        case Threw(_) => []
        case Done(x) => if last in x.peers && On(x.peers[last], n) then GoneOrders(x, last) else []
  }

  /** The rooms that still name the server when its peers are gone: they are dropped. */
  function Stranded(t: State, n: Node): (rooms: set<Room>)
    ensures forall r :: r in rooms <==> r in t.rooms && Names(t.rooms[r], n)
  {
    set r | r in t.rooms && Names(t.rooms[r], n)
  }

  /** The routes that list the server for its role. */
  function Routes(t: State, n: Node, isEgress: bool): (rooms: set<Room>)
    ensures forall r :: r in rooms <==> r in t.table && ServerClose.ListsAs(t.table[r], n, isEgress)
  {
    set r | r in t.table && ServerClose.ListsAs(t.table[r], n, isEgress)
  }

  function CloseLast(s: State, order: seq<PeerId>, n: Node, isEgress: bool, swept: bool): seq<Action> {
    match DropPeers(s, order, n)
    case Threw(_) => []
    case Done(t) =>
      [DropAction(Stranded(t, n))]
      + if swept then [UnpipeAction(n, isEgress), SweepAction(Routes(t, n, isEgress))] else []
  }

  function CloseOrders(s: State, order: seq<PeerId>, n: Node, isEgress: bool, swept: bool): seq<Action> {
    DropOrders(s, order, n) + CloseLast(s, order, n, isEgress, swept)
  }

  function Orders(s: State, m: Move): seq<Action> {
    match m
    case Media(a) => [a]
    case Produce(p) => ProduceOrders(s, p)
    case Request(op) =>
      match op
      case Join(p, r, i, e) => if p in s.peers then EachJoin(r, Joining(s, p, r, i, e)) else []
      case Ingress(p) => IngressOrders(s, p)
      case Leave(p, r) => LeaveOrders(s, p, r)
      case Gone(p) => GoneOrders(s, p)
      case Close(order, n, isEgress, swept) => CloseOrders(s, order, n, isEgress, swept)
      case _ => []
  }

  /** All that a producer request says is where the signaling server has the peer now. */
  function ProduceOrders(s: State, p: PeerId): seq<Action> {
    if p in s.peers && s.peers[p].room.Some? && s.peers[p].ingress.Some? && s.peers[p].egress.Some?
    then [ApiAction(s.peers[p].ingress.value, CreateProducer(p, s.peers[p].room.value, s.peers[p].egress.value))]
    else []
  }

  function IngressOrders(s: State, p: PeerId): seq<Action> {
    if p in s.peers && s.peers[p].room.Some? && s.peers[p].ingress.Some?
    then
      var r := s.peers[p].room.value;
      [ApiAction(s.peers[p].ingress.value, CreateWebRTCIngress(p, r, Pipes(s, r)))]
    else []
  }

  function StateAfter(s: State, m: Move): State {
    if m.Request? then MeshRuns.Next(s, m.op) else s
  }

  predicate AllEnabled(net: Net, actions: seq<Action>)
    decreases |actions|
  {
    actions == [] || (Enabled(net, actions[0]) && AllEnabled(Apply(net, actions[0]), actions[1..]))
  }

  function ApplyAll(net: Net, actions: seq<Action>): Net
    requires AllEnabled(net, actions)
    decreases |actions|
  {
    if actions == [] then net else ApplyAll(Apply(net, actions[0]), actions[1..])
  }

  lemma OneOrder(net: Net, a: Action)
    ensures AllEnabled(net, [a]) <==> Enabled(net, a)
    ensures Enabled(net, a) ==> ApplyAll(net, [a]) == Apply(net, a)
  {
    assert [a][1..] == [];
    if Enabled(net, a) {
      assert ApplyAll(net, [a]) == ApplyAll(Apply(net, a), [a][1..]);
    }
  }

  predicate OfRole(net: Net, n: Option<Node>, ingress: bool) {
    n.Some? ==> n.value < |net.nodes| && net.nodes[n.value].ingress == ingress
  }

  /** The manager's peers, each once. */
  predicate ListsPeers(s: State, order: seq<PeerId>) {
    && (set p | p in order) == s.peers.Keys
    && (forall i, j :: 0 <= i < j < |order| ==> order[i] != order[j])
  }

  /** Servers are selected by their role, have one connection that may close once, and stop then. */
  predicate Proper(j: Joint, m: Move) {
    match m
    case Media(a) => (a.ServeAction? || a.ForwardAction? || a.RouterGoneAction?) && a.n !in j.closed
    case Produce(_) => true
    case Request(op) =>
      && (op.Join? ==> OfRole(j.net, op.ingress, true) && OfRole(j.net, op.egress, false))
      && (op.Close? ==>
            OfRole(j.net, Some(op.server), !op.isEgress) && op.server !in j.closed && ListsPeers(j.s, op.order))
  }

  predicate Allowed(j: Joint, m: Move) {
    Proper(j, m) && AllEnabled(j.net, Orders(j.s, m))
  }

  function After(j: Joint, m: Move): Joint
    requires Allowed(j, m)
  {
    Joint(StateAfter(j.s, m), ApplyAll(j.net, Orders(j.s, m)),
          if m.Request? && m.op.Close? then j.closed + {m.op.server} else j.closed)
  }

  predicate Start(j: Joint) {
    j.s == EMPTY && Initial(j.net) && j.closed == {}
  }

  predicate JointRun(trace: seq<Joint>, moves: seq<Move>) {
    && |trace| == |moves| + 1 && Start(trace[0])
    && (forall k :: 0 <= k < |moves| ==> Allowed(trace[k], moves[k]) && trace[k + 1] == After(trace[k], moves[k]))
  }

  lemma RunNext(trace: seq<Joint>, moves: seq<Move>, m: Move)
    requires JointRun(trace, moves) && Allowed(trace[|moves|], m)
    ensures JointRun(trace + [After(trace[|moves|], m)], moves + [m])
  {
    var trace', moves' := trace + [After(trace[|moves|], m)], moves + [m];
    forall k | 0 <= k < |moves'| ensures Allowed(trace'[k], moves'[k]) && trace'[k + 1] == After(trace'[k], moves'[k]) {
      assert trace'[k] == trace[k];
      if k < |moves| {
        assert trace'[k + 1] == trace[k + 1] && moves'[k] == moves[k];
      }
    }
  }

  // ---------------------------------------------------------------- the two sides agree

  function Members(l: Lists): set<Node> {
    Elements(l.ingress) + Elements(l.egress)
  }

  ghost predicate SameRooms(m: map<Room, Lists>, sets: map<Room, set<Node>>) {
    m.Keys == sets.Keys && forall r :: r in m ==> sets[r] == Members(m[r])
  }

  /** What the network knows of rooms and routes is what the signaling server's tables say. */
  ghost predicate Coupled(j: Joint) {
    SameRooms(j.s.rooms, j.net.rooms) && SameRooms(j.s.table, j.net.table) && TablesAgree(j.s)
  }

  function Roster(net: Net, r: Room): set<Node> {
    if r in net.rooms then net.rooms[r] else {}
  }

  lemma PutTwice(m: map<Room, set<Node>>, r: Room, x: set<Node>, y: set<Node>)
    ensures m[r := x][r := y] == m[r := y]
  {
  }

  lemma {:induction false} JoinsRooms(net: Net, r: Room, ns: seq<Node>)
    requires AllEnabled(net, EachJoin(r, ns)) && (r in net.rooms ==> r in net.table && net.table[r] == net.rooms[r])
    ensures var net', all := ApplyAll(net, EachJoin(r, ns)), Roster(net, r) + Elements(ns);
      if ns == [] then net' == net else net'.rooms == net.rooms[r := all] && net'.table == net.table[r := all]
    decreases |ns|
  {
    if ns != [] {
      var net1 := Apply(net, JoinAction(r, ns[0]));
      var all := Roster(net, r) + Elements(ns);
      assert EachJoin(r, ns)[1..] == EachJoin(r, ns[1..])
        && ApplyAll(net, EachJoin(r, ns)) == ApplyAll(net1, EachJoin(r, ns[1..]));
      JoinsRooms(net1, r, ns[1..]);
      assert Elements(ns) == {ns[0]} + Elements(ns[1..]);
      assert Roster(net1, r) + Elements(ns[1..]) == all;
      assert ns[1..] == [] ==> Roster(net1, r) == all;
      PutTwice(net.rooms, r, Roster(net1, r), all);
      PutTwice(net.table, r, Roster(net1, r), all);
    }
  }

  /** Orders that change the rooms or the routes. */
  predicate Tabular(a: Action) {
    a.JoinAction? || a.CloseAction? || a.DropAction? || a.SweepAction?
  }

  /** All others leave them alone. */
  lemma {:induction false} SameTables(net: Net, actions: seq<Action>)
    requires AllEnabled(net, actions) && forall a :: a in actions ==> !Tabular(a)
    ensures ApplyAll(net, actions).rooms == net.rooms && ApplyAll(net, actions).table == net.table
    decreases |actions|
  {
    if actions != [] {
      assert actions[0] in actions;
      assert forall a :: a in actions[1..] ==> a in actions;
      ActionTables(net, actions[0]);
      SameTables(Apply(net, actions[0]), actions[1..]);
    }
  }

  lemma ActionTables(net: Net, a: Action)
    requires Enabled(net, a) && !Tabular(a)
    ensures Apply(net, a).rooms == net.rooms && Apply(net, a).table == net.table
  {
    match a
    case ServeAction(n, gone) => ServeTables(net, n, gone);
    case _ =>
  }

  /** What a media server reads is nothing to the signaling server. */
  ghost predicate SameBooks(net: Net, net': Net) {
    net'.rooms == net.rooms && net'.table == net.table && net'.h.lost == net.h.lost
  }

  lemma SetupTables(net: Net, n: Node, peer: PeerId, room: Room, es: seq<Option<Node>>)
    requires n < |net.nodes|
    ensures SameBooks(net, ServeGroup(net, n, room)) && SameBooks(net, ServeIngress(net, n, peer, room, es))
  {
  }

  lemma RelayTables(net: Net, n: Node, room: Room, r: RouterId, e: Node, remote: TransportId)
    requires n < |net.nodes|
    ensures SameBooks(net, ServeRelay(net, n, room, r)) && SameBooks(net, ServeConnect(net, n, r, e, remote))
  {
  }

  lemma OtherTables(net: Net, n: Node, peer: PeerId, room: Room, e: Node, gone: set<RouterId>)
    requires n < |net.nodes|
    ensures SameBooks(net, ServeProducer(net, n, peer, room, e)) && SameBooks(net, ServeDisconnect(net, n, peer))
    ensures SameBooks(net, ServeDestroy(net, n, room, gone))
  {
  }

  lemma ServeTables(net: Net, n: Node, gone: set<RouterId>)
    requires Enabled(net, ServeAction(n, gone))
    ensures SameBooks(net, Serve(net, n, gone))
  {
    match net.nodes[n].down[net.nodes[n].read]
    case CreateRouterGroup(room) => SetupTables(net, n, 0, room, []);
    case CreateWebRTCIngress(peer, room, es) => SetupTables(net, n, peer, room, es);
    case CreateProducer(peer, room, e) => OtherTables(net, n, peer, room, e, gone);
    case DisconnectTransport(peer) => OtherTables(net, n, peer, 0, n, gone);
    case DestroyRouterGroup(room) => OtherTables(net, n, 0, room, n, gone);
    case StorePipeRelay(_, _, _) =>
    case CreateRelayProducer(room, r, e) => RelayTables(net, n, room, r, e, 0);
    case ConnectPipeRelay(r, _, e, remote) => RelayTables(net, n, 0, r, e, remote);
  }

  lemma {:induction false} AllEnabledSplit(net: Net, a: seq<Action>, b: seq<Action>)
    requires AllEnabled(net, a + b)
    ensures AllEnabled(net, a) && AllEnabled(ApplyAll(net, a), b)
      && ApplyAll(net, a + b) == ApplyAll(ApplyAll(net, a), b)
    decreases |a|
  {
    if a == [] {
      assert a + b == b;
    } else {
      assert (a + b)[0] == a[0] && (a + b)[1..] == a[1..] + b;
      AllEnabledSplit(Apply(net, a[0]), a[1..], b);
    }
  }

  lemma {:induction false} AllEnabledJoin(net: Net, a: seq<Action>, b: seq<Action>)
    requires AllEnabled(net, a) && AllEnabled(ApplyAll(net, a), b)
    ensures AllEnabled(net, a + b) && ApplyAll(net, a + b) == ApplyAll(ApplyAll(net, a), b)
    decreases |a|
  {
    if a == [] {
      assert a + b == b;
    } else {
      assert (a + b)[0] == a[0] && (a + b)[1..] == a[1..] + b;
      AllEnabledJoin(Apply(net, a[0]), a[1..], b);
    }
  }

  lemma {:induction false} GoodbyesOnly(ns: seq<Node>, p: PeerId)
    ensures forall a :: a in Goodbyes(ns, p) ==> a.ApiAction? && a.msg == DisconnectTransport(p)
  {
    if ns != [] {
      GoodbyesOnly(ns[1..], p);
    }
  }

  /** What closes a room. */
  predicate Parting(r: Room, last: seq<Action>) {
    || last == [] || last == [CloseAction(r)] || last == [DropAction({r})]
    || (|last| == 2 && last[0] == DropAction({r}) && last[1].DestroyAction?)
  }

  lemma FarewellTables(net: Net, s: State, p: PeerId, r: Option<Room>, last: seq<Action>)
    requires p in s.peers && AllEnabled(net, Farewell(s, p, r, last)) && (r.Some? ==> Parting(r.value, last))
    ensures var net' := ApplyAll(net, Farewell(s, p, r, last));
      && net'.table == net.table
      && net'.rooms == if r.Some? && r.value in s.rooms && last != [] then net.rooms - {r.value} else net.rooms
  {
    var first := Goodbye(s.peers[p].ingress, p);
    if r.None? || r.value !in s.rooms {
      assert first + [] == first;
      SameTables(net, first);
    } else {
      var second := Goodbyes(s.rooms[r.value].egress, p);
      GoodbyesOnly(s.rooms[r.value].egress, p);
      AllEnabledSplit(net, first, second + last);
      SameTables(net, first);
      AllEnabledSplit(ApplyAll(net, first), second, last);
      SameTables(ApplyAll(net, first), second);
      LastTables(ApplyAll(ApplyAll(net, first), second), r.value, last);
    }
  }

  lemma LastTables(net: Net, r: Room, last: seq<Action>)
    requires AllEnabled(net, last) && Parting(r, last)
    ensures var net' := ApplyAll(net, last);
      net'.table == net.table && net'.rooms == if last != [] then net.rooms - {r} else net.rooms
  {
    if |last| == 1 {
      OneOrder(net, last[0]);
      assert last == [last[0]];
    } else if |last| == 2 {
      OneOrder(Apply(net, last[0]), last[1]);
      assert last[1..] == [last[1]];
    }
  }

  lemma ElementsOf(a: seq<Node>, b: seq<Node>)
    ensures Elements(a + b) == Elements(a) + Elements(b)
  {
  }

  lemma AllMembers(ingress: set<Node>, egress: set<Node>, i: Node, e: Node, more: set<Node>)
    requires more == if e in egress then {} else {e}
    ensures (ingress + egress) + (egress + ({i} + more)) == (ingress + {i}) + (egress + {e})
  {
  }

  lemma JoiningElements(s: State, p: PeerId, r: Room, i: Node, e: Node)
    ensures var egress := ListsOf(s, r).egress;
      Elements(Joining(s, p, r, Some(i), Some(e))) == Elements(egress) + ({i} + if e in egress then {} else {e})
  {
    var egress := ListsOf(s, r).egress;
    var more := if e in egress then [] else Repeated(e, 1 + |Others(s, p, r, e)|);
    assert Elements(more) == if e in egress then {} else {e} by {
      if e !in egress {
        assert more[0] == e;
      }
    }
    assert Elements([i]) == {i};
    ElementsOf([i], more);
    ElementsOf(egress, [i] + more);
  }

  lemma JoiningMembers(s: State, p: PeerId, r: Room, i: Node, e: Node)
    ensures (if r in s.rooms then Members(s.rooms[r]) else {}) + Elements(Joining(s, p, r, Some(i), Some(e)))
         == Members(Lists(With(ListsOf(s, r).ingress, i), With(ListsOf(s, r).egress, e)))
    ensures Joining(s, p, r, Some(i), Some(e)) != []
  {
    var lists := ListsOf(s, r);
    WithElements(lists.ingress, i);
    WithElements(lists.egress, e);
    JoiningElements(s, p, r, i, e);
    AllMembers(Elements(lists.ingress), Elements(lists.egress), i, e, if e in lists.egress then {} else {e});
    assert (if r in s.rooms then Members(s.rooms[r]) else {}) == Elements(lists.ingress) + Elements(lists.egress);
  }

  lemma RoomPut(m: map<Room, Lists>, sets: map<Room, set<Node>>, r: Room, l: Lists)
    requires SameRooms(m, sets)
    ensures SameRooms(m[r := l], sets[r := Members(l)])
  {
  }

  lemma RoomSame(m: map<Room, Lists>, sets: map<Room, set<Node>>, r: Room, all: set<Node>)
    requires SameRooms(m, sets) && r in m && all == Members(m[r])
    ensures SameRooms(m, sets[r := all])
  {
  }

  /** What a join with servers, or one without, makes of the signaling server's tables. */
  lemma JoinTables(s: State, p: PeerId, r: Room, i: Option<Node>, e: Option<Node>)
    requires p in s.peers
    ensures var s' := JoinRoom(s, p, r, i, e);
      if i.None? || e.None? then s'.rooms == s.rooms && s'.table == s.table
      else
        var lists := Lists(With(ListsOf(s, r).ingress, i.value), With(ListsOf(s, r).egress, e.value));
        s'.rooms == s.rooms[r := lists] && s'.table == s.table[r := lists]
  {
  }

  lemma PairJoined(j: Joint, p: PeerId, r: Room, i: Node, e: Node)
    requires Coupled(j) && p in j.s.peers && AllEnabled(j.net, EachJoin(r, Joining(j.s, p, r, Some(i), Some(e))))
    ensures
      var s' := JoinRoom(j.s, p, r, Some(i), Some(e));
      var net' := ApplyAll(j.net, EachJoin(r, Joining(j.s, p, r, Some(i), Some(e))));
      SameRooms(s'.rooms, net'.rooms) && SameRooms(s'.table, net'.table)
  {
    var lists := Lists(With(ListsOf(j.s, r).ingress, i), With(ListsOf(j.s, r).egress, e));
    JoinsRooms(j.net, r, Joining(j.s, p, r, Some(i), Some(e)));
    JoiningMembers(j.s, p, r, i, e);
    JoinTables(j.s, p, r, Some(i), Some(e));
    RoomPut(j.s.rooms, j.net.rooms, r, lists);
    RoomPut(j.s.table, j.net.table, r, lists);
  }

  lemma NoPairJoined(j: Joint, p: PeerId, r: Room, i: Option<Node>, e: Option<Node>)
    requires Coupled(j) && p in j.s.peers && AllEnabled(j.net, EachJoin(r, Joining(j.s, p, r, i, e)))
    requires i.None? || e.None?
    ensures var s', net' := JoinRoom(j.s, p, r, i, e), ApplyAll(j.net, EachJoin(r, Joining(j.s, p, r, i, e)));
      SameRooms(s'.rooms, net'.rooms) && SameRooms(s'.table, net'.table)
  {
    var egress := ListsOf(j.s, r).egress;
    JoinsRooms(j.net, r, egress);
    JoinTables(j.s, p, r, i, e);
    if egress != [] {
      var all := Roster(j.net, r) + Elements(egress);
      assert all == Members(j.s.rooms[r]);
      RoomSame(j.s.rooms, j.net.rooms, r, all);
      RoomSame(j.s.table, j.net.table, r, all);
    }
  }

  lemma JoinCoupled(j: Joint, p: PeerId, r: Room, i: Option<Node>, e: Option<Node>)
    requires Coupled(j) && p in j.s.peers && AllEnabled(j.net, EachJoin(r, Joining(j.s, p, r, i, e)))
    ensures
      Coupled(Joint(JoinRoom(j.s, p, r, i, e), ApplyAll(j.net, EachJoin(r, Joining(j.s, p, r, i, e))), j.closed))
  {
    JoinKeepsTables(j.s, p, r, i, e);
    if i.Some? && e.Some? {
      PairJoined(j, p, r, i.value, e.value);
    } else {
      NoPairJoined(j, p, r, i, e);
    }
  }

  lemma JoinMoveCoupled(j: Joint, m: Move)
    requires Coupled(j) && Allowed(j, m) && m.Request? && m.op.Join?
    ensures Coupled(After(j, m))
  {
    if m.op.peer in j.s.peers {
      JoinCoupled(j, m.op.peer, m.op.room, m.op.ingress, m.op.egress);
    }
  }

  lemma LeaveMoveCoupled(j: Joint, m: Move)
    requires Coupled(j) && Allowed(j, m) && m.Request? && m.op.Leave?
    ensures Coupled(After(j, m))
  {
    MeshRuns.OperationKeepsTables(j.s, m.op);
    if m.op.peer in j.s.peers {
      FarewellTables(j.net, j.s, m.op.peer, Some(m.op.room), LeaveLast(j.s, m.op.peer, m.op.room));
    }
  }

  /** The two sides agree after a peer is gone. */
  lemma GoneCoupled(s: State, net: Net, p: PeerId)
    requires SameRooms(s.rooms, net.rooms) && SameRooms(s.table, net.table) && AllEnabled(net, GoneOrders(s, p))
    ensures var s', net' := Disconnect(s, p).state, ApplyAll(net, GoneOrders(s, p));
      SameRooms(s'.rooms, net'.rooms) && SameRooms(s'.table, net'.table)
  {
    if p in s.peers {
      FarewellTables(net, s, p, s.peers[p].room, GoneLast(s, p));
    }
  }

  lemma GoneMoveCoupled(j: Joint, m: Move)
    requires Coupled(j) && Allowed(j, m) && m.Request? && m.op.Gone?
    ensures Coupled(After(j, m))
  {
    MeshRuns.OperationKeepsTables(j.s, m.op);
    GoneCoupled(j.s, j.net, m.op.peer);
  }

  lemma {:induction false} DropCoupled(s: State, net: Net, order: seq<PeerId>, n: Node)
    requires SameRooms(s.rooms, net.rooms) && SameRooms(s.table, net.table) && AllEnabled(net, DropOrders(s, order, n))
    ensures var t, net' := DropPeers(s, order, n).state, ApplyAll(net, DropOrders(s, order, n));
      SameRooms(t.rooms, net'.rooms) && SameRooms(t.table, net'.table)
  {
    if order != [] {
      var rest, last := order[..|order| - 1], order[|order| - 1];
      var first := DropOrders(s, rest, n);
      var all := DropOrders(s, order, n);
      assert all == first + all[|first|..];
      AllEnabledSplit(net, first, all[|first|..]);
      DropCoupled(s, net, rest, n);
      var x := DropPeers(s, rest, n);
      if x.Done? && last in x.state.peers && On(x.state.peers[last], n) {
        assert all[|first|..] == GoneOrders(x.state, last);
        GoneCoupled(x.state, ApplyAll(net, first), last);
      }
    }
  }

  lemma CloseLastCoupled(t: State, net: Net, n: Node, isEgress: bool, swept: bool, last: seq<Action>)
    requires SameRooms(t.rooms, net.rooms) && SameRooms(t.table, net.table) && AllEnabled(net, last)
    requires last == [DropAction(Stranded(t, n))]
      + if swept then [UnpipeAction(n, isEgress), SweepAction(Routes(t, n, isEgress))] else []
    ensures
      var net', table := ApplyAll(net, last), if swept then ServerClose.Unrouted(t.table, n, isEgress) else t.table;
      SameRooms(Unnamed(t.rooms, n), net'.rooms) && SameRooms(table, net'.table)
  {
    var net1 := Apply(net, last[0]);
    if swept {
      var net2 := Apply(net1, last[1]);
      assert last[1..][1..] == [last[2]];
      OneOrder(net2, last[2]);
      assert ApplyAll(net, last) == ApplyAll(net1, last[1..]) == ApplyAll(net2, last[1..][1..]);
    } else {
      assert last == [last[0]];
      OneOrder(net, last[0]);
    }
  }

  lemma CloseMoveCoupled(j: Joint, m: Move)
    requires Coupled(j) && Allowed(j, m) && m.Request? && m.op.Close?
    ensures Coupled(After(j, m))
  {
    var (order, n, isEgress, swept) := (m.op.order, m.op.server, m.op.isEgress, m.op.swept);
    MeshRuns.OperationKeepsTables(j.s, m.op);
    var last := CloseLast(j.s, order, n, isEgress, swept);
    AllEnabledSplit(j.net, DropOrders(j.s, order, n), last);
    DropCoupled(j.s, j.net, order, n);
    if DropPeers(j.s, order, n).Done? {
      var net' := ApplyAll(j.net, DropOrders(j.s, order, n));
      CloseLastCoupled(DropPeers(j.s, order, n).state, net', n, isEgress, swept, last);
    }
  }

  lemma QuietState(s: State, a: MeshRuns.Operation)
    requires !a.Join? && !a.Leave? && !a.Gone? && !a.Close?
    ensures MeshRuns.Next(s, a).rooms == s.rooms && MeshRuns.Next(s, a).table == s.table
  {
  }

  /** A request that puts nobody into a room or out of it, or something else. */
  predicate Staying(m: Move) {
    m.Request? ==> !m.op.Join? && !m.op.Leave? && !m.op.Gone? && !m.op.Close?
  }

  lemma QuietOrders(j: Joint, m: Move)
    requires Allowed(j, m) && Staying(m)
    ensures forall a :: a in Orders(j.s, m) ==> !Tabular(a)
  {
  }

  lemma QuietCoupled(j: Joint, m: Move)
    requires Coupled(j) && Allowed(j, m) && Staying(m)
    ensures Coupled(After(j, m))
  {
    if m.Request? {
      QuietState(j.s, m.op);
    }
    QuietOrders(j, m);
    SameTables(j.net, Orders(j.s, m));
  }

  lemma MoveCoupled(j: Joint, m: Move)
    requires Coupled(j) && Allowed(j, m)
    ensures Coupled(After(j, m))
  {
    if m.Request? && m.op.Join? {
      JoinMoveCoupled(j, m);
    } else if m.Request? && m.op.Leave? {
      LeaveMoveCoupled(j, m);
    } else if m.Request? && m.op.Gone? {
      GoneMoveCoupled(j, m);
    } else if m.Request? && m.op.Close? {
      CloseMoveCoupled(j, m);
    } else {
      QuietCoupled(j, m);
    }
  }

  /** In every state of every joint run the two sides know the same servers for every room and route. */
  lemma {:induction false} AlwaysCoupled(trace: seq<Joint>, moves: seq<Move>, k: nat)
    requires JointRun(trace, moves) && k < |trace|
    ensures Coupled(trace[k])
  {
    if k > 0 {
      AlwaysCoupled(trace, moves, k - 1);
      MoveCoupled(trace[k - 1], moves[k - 1]);
      assert trace[(k - 1) + 1] == After(trace[k - 1], moves[k - 1]);
    }
  }

  lemma {:induction false} AllKeep(net: Net, actions: seq<Action>)
    requires Inv(net) && AllEnabled(net, actions)
    ensures Inv(ApplyAll(net, actions))
    decreases |actions|
  {
    if actions != [] {
      StepKeeps(net, actions[0]);
      AllKeep(Apply(net, actions[0]), actions[1..]);
    }
  }

  /** The invariant of the network holds in every state of every joint run. */
  lemma {:induction false} JointKeeps(trace: seq<Joint>, moves: seq<Move>, k: nat)
    requires JointRun(trace, moves) && k < |trace|
    ensures Inv(trace[k].net)
  {
    if k == 0 {
      InitialOk(trace[0].net);
    } else {
      JointKeeps(trace, moves, k - 1);
      AllKeep(trace[k - 1].net, Orders(trace[k - 1].s, moves[k - 1]));
      assert trace[(k - 1) + 1] == After(trace[k - 1], moves[k - 1]);
    }
  }
}
