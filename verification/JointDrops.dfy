/** Runs in which all requests name the peer's own room and nobody switches rooms, but the room of peer 0
    is dropped from `rooms` with nobody told: because peer 1 leaves it from no room or another one, or
    because another server listed for it closes.  Then a pipe is connected twice all the same. */
module JointDrops {
  import opened Sfu
  import opened Signaling
  import opened Handshake
  import opened HandshakeCondition
  import opened JointRuns
  import opened JointLosses
  import opened JointScene
  import opened JointWitnesses
  import MeshRuns

  // ---------------------------------------------------------------- a pipe that is connected

  /** Peer 0 alone is in its room, on servers 0 and 1. */
  predicate Settled(s: State, room: Room) {
    && Three(s) && In(s, 0, room, 0) && Waiting(s, 0) && Out(s, 1) && Out(s, 2)
    && s.rooms == map[room := Lists([0], [1])]
    && s.counts == map[room := Counter(1, 1, 0, 0)]
  }

  lemma Opens(j: Joint, c: Scene) returns (j': Joint, c': Scene)
    requires Looks(j, c) && c.home == c.other && c == Empty(c.home, c.home, c.rules, c.lost)
    requires j.s == EMPTY.(peers := map[0 := NOBODY, 1 := NOBODY, 2 := NOBODY])
    ensures Looks(j', c') && c'.q.Some? && c' == c.(made := true, r := c'.r, q := c'.q)
    ensures Joined(j.s, j'.s, 0, c.home, 0, 1, Lists([0], [1]))
  {
    ReadOnly(CreateRouterGroup(c.home), []);
    j', c' := JoinsFirst(j, c, 0, c.home, 0, 1);
    j', c' := IngressOpens(j', c');
    j', c' := EgressOpens(j', c');
  }

  /** Peer 0 has joined. */
  predicate Entered(s: State, room: Room) {
    && Three(s) && In(s, 0, room, 0) && Waiting(s, 0) && Out(s, 1) && Out(s, 2)
    && s.rooms == map[room := Lists([0], [1])] && s.counts == map[]
  }

  lemma EnteredThen(s: State, s': State, room: Room)
    requires s == EMPTY.(peers := map[0 := NOBODY, 1 := NOBODY, 2 := NOBODY])
    requires Joined(s, s', 0, room, 0, 1, Lists([0], [1]))
    ensures Entered(s', room)
  {
    Unmoved(s, s', 0, room, 0, 1, 1);
    Unmoved(s, s', 0, room, 0, 1, 2);
  }

  lemma Enters(room: Room, rules: Rules) returns (j: Joint, c: Scene)
    ensures Looks(j, c) && Entered(j.s, room) && c.made && c.q.Some?
    ensures c == Empty(room, room, rules, {room}).(made := true, r := c.r, q := c.q)
  {
    j, c := Begin(room, room, rules, {room});
    var s := j.s;
    j, c := Opens(j, c);
    EnteredThen(s, j.s, room);
  }

  lemma Counted(s: State, room: Room)
    requires Entered(s, room)
    ensures Settled(CreateIngress(s, 0), room)
  {
  }

  /** It makes its transport. */
  lemma Connects(j: Joint, c: Scene) returns (j': Joint, c': Scene)
    requires Looks(j, c) && Entered(j.s, c.home) && c.q.Some?
    requires c == Empty(c.home, c.home, c.rules, c.lost).(made := true, r := c.r, q := c.q)
    ensures Looks(j', c') && Calm(c') && Settled(j'.s, c.home)
    ensures c' == c.(a := c'.a, piped := true, t := c'.t, offered := true, pipes := [Record(0, 1, c.r)])
  {
    Counted(j.s, c.home);
    j', c' := AsksFirst(j, c);
    j', c' := PipeOffered(j', c');
  }

  /** And produces. */
  lemma Settles(room: Room, rules: Rules) returns (j: Joint, c: Scene, u: TransportId)
    ensures Looks(j, c) && Produced(c, u) && Settled(j.s, room)
    ensures c.home == room && c.other == room && c.rules == rules && c.lost == {room} && c.closed == {}
  {
    j, c := Enters(room, rules);
    j, c := Connects(j, c);
    j, c, u := Produces(j, c);
    assert c.connects == [Connect(1, u, c.t), Connect(0, c.t, u)];
  }

  // ---------------------------------------------------------------- a leave from elsewhere

  /** Peer 0 is in a room that is gone, and peer 2 in none. */
  predicate Adrift(s: State, room: Room) {
    Astray(s, room, 2) && room !in s.rooms
  }

  /** Peer 1 leaves the room from no room. */
  lemma DesertOrders(s: State, room: Room)
    requires Settled(s, room)
    ensures Orders(s, Request(MeshRuns.Leave(1, room))) ==
      [ApiAction(1, DisconnectTransport(1)), DropAction({room})]
    ensures Adrift(LeaveRoom(s, 1, room), room)
  {
    assert Goodbyes([1], 1) == [ApiAction(1, DisconnectTransport(1))] by {
      assert [1][1..] == [];
    }
  }

  lemma Deserts(j: Joint, c: Scene) returns (j': Joint)
    requires Looks(j, c) && Calm(c) && Settled(j.s, c.home) && c.lost == {c.home} && (None, c.home) in c.rules.leaves
    ensures Looks(j', c) && Adrift(j'.s, c.home)
  {
    var m, goodbye := Request(MeshRuns.Leave(1, c.home)), DisconnectTransport(1);
    DesertOrders(j.s, c.home);
    TellTwo(c, ApiAction(1, goodbye), DropAction({c.home}));
    Ordered(j, c, m);
    HeardBy1(c, goodbye);
    var c';
    j', c' := EgressIdles(After(j, m), To(c, 1, goodbye));
  }

  /** Peer 1 is in room `away`, on servers 2 and 3, which peer 0 has nothing to do with. */
  predicate Away(s: State, room: Room, away: Room) {
    && Three(s) && In(s, 0, room, 0) && Waiting(s, 0) && At(s, 1, away, 2, 3) && Waiting(s, 1) && Out(s, 2)
    && away != room && s.rooms == map[room := Lists([0], [1]), away := Lists([2], [3])]
    && s.counts == map[room := Counter(1, 1, 0, 0)]
  }

  lemma AwayThen(s: State, s': State, room: Room, away: Room)
    requires Settled(s, room) && away != room && Joined(s, s', 1, away, 2, 3, Lists([2], [3]))
    ensures Away(s', room, away)
  {
    Unmoved(s, s', 1, away, 2, 3, 0);
    Unmoved(s, s', 1, away, 2, 3, 2);
  }

  lemma GoesAway(j: Joint, c: Scene, away: Room) returns (j': Joint)
    requires Looks(j, c) && Calm(c) && Settled(j.s, c.home) && away != c.home
    ensures Looks(j', c) && Away(j'.s, c.home, away)
  {
    var c';
    j', c' := JoinsFirst(j, c, 1, away, 2, 3);
    AwayThen(j.s, j'.s, c.home, away);
  }

  /** And leaves the room of peer 0 from there. */
  lemma AwayOrders(s: State, room: Room, away: Room)
    requires Away(s, room, away)
    ensures Orders(s, Request(MeshRuns.Leave(1, room))) ==
      [ApiAction(2, DisconnectTransport(1)), ApiAction(1, DisconnectTransport(1))]
      + [DropAction({room}), DestroyAction(away)]
    ensures Adrift(LeaveRoom(s, 1, room), room)
  {
    assert Goodbyes([1], 1) == [ApiAction(1, DisconnectTransport(1))] by {
      assert [1][1..] == [];
    }
  }

  /** Servers 0 and 1 do not hear that the other room is to be destroyed. */
  lemma AwayUnheard(net: Net, c: Scene, away: Room)
    requires NetLooks(net, c) && away in net.table && net.table[away] == {2, 3}
    ensures Shows({DestroyRoom(net, away)}, c)
  {
    SomeHear(net, DestroyRoom(net, away), c, DestroyRouterGroup(away));
  }

  lemma DropsAndDestroys(net: Net, room: Room, away: Room)
    ensures var all := [DropAction({room}), DestroyAction(away)];
      AllEnabled(net, all) && ApplyAll(net, all) == DestroyRoom(DropRooms(net, {room}), away)
  {
    assert [DropAction({room}), DestroyAction(away)][1..] == [DestroyAction(away)];
    OneOrder(DropRooms(net, {room}), DestroyAction(away));
  }

  lemma AwayTold(net: Net, c: Scene, goodbyes: seq<Action>, away: Room)
    requires NetLooks(net, c) && away in net.table && net.table[away] == {2, 3} && c.lost == {c.home}
    requires AllSimple(c, goodbyes) && forall a :: a in goodbyes ==> a.ApiAction?
    requires AllEnabled(net, goodbyes + [DropAction({c.home}), DestroyAction(away)])
    ensures Shows({ApplyAll(net, goodbyes + [DropAction({c.home}), DestroyAction(away)])}, TellAll(c, goodbyes))
  {
    AllEnabledSplit(net, goodbyes, [DropAction({c.home}), DestroyAction(away)]);
    TellsAll(net, c, goodbyes);
    TellsSame(c, goodbyes);
    SameTables(net, goodbyes);
    var net' := ApplyAll(net, goodbyes);
    assert net' in {net'} && NetLooks(DropRooms(net', {c.home}), TellAll(c, goodbyes));
    DropsAndDestroys(net', c.home, away);
    AwayUnheard(DropRooms(net', {c.home}), TellAll(c, goodbyes), away);
  }

  lemma DesertsFromAway(j: Joint, c: Scene, away: Room) returns (j': Joint)
    requires Looks(j, c) && Calm(c) && Away(j.s, c.home, away) && c.lost == {c.home}
    requires (Some(away), c.home) in c.rules.leaves
    ensures Looks(j', c) && Adrift(j'.s, c.home)
  {
    var m, goodbye := Request(MeshRuns.Leave(1, c.home)), DisconnectTransport(1);
    var goodbyes := [ApiAction(2, goodbye), ApiAction(1, goodbye)];
    See(j, c);
    RoutesAgree(j, c, away);
    AwayOrders(j.s, c.home, away);
    TellTwo(c, goodbyes[0], goodbyes[1]);
    if AllEnabled(j.net, Orders(j.s, m)) {
      AwayTold(j.net, c, goodbyes, away);
    }
    Moved(j, c, m, To(c, 1, goodbye));
    HeardBy1(c, goodbye);
    var c';
    j', c' := EgressIdles(After(j, m), To(c, 1, goodbye));
  }

  /** A leave that names another room than the peer's own lets server 0 connect a pipe twice. */
  lemma LeaveIsUnsafe(d: Desertion, rules: Rules) returns (j: Joint)
    requires d in rules.leaves && d.0 != Some(d.1)
    ensures Reaches(j, rules, {(d.1, d.1)}) && j.net.h.lost <= {d.1}
    ensures !ConnectedOnce(j.net) && !EndsAgree(j.net)
  {
    var c, u;
    j, c, u := Settles(d.1, rules);
    match d.0 {
      case None => j := Deserts(j, c);
      case Some(away) =>
        j := GoesAway(j, c, away);
        j := DesertsFromAway(j, c, away);
    }
    j := ProducesAgain(j, c, u, 2);
  }

  // ---------------------------------------------------------------- a server that closes

  /** Peer 1 is in the room of peer 0, on servers 4 and 3. */
  predicate Shared(s: State, room: Room) {
    && Three(s) && In(s, 0, room, 0) && Waiting(s, 0) && At(s, 1, room, 4, 3) && Waiting(s, 1) && Out(s, 2)
    && s.rooms == map[room := Lists([0, 4], [1, 3])] && s.counts == map[room := Counter(1, 1, 0, 0)]
  }

  lemma FarJoin(s: State, room: Room)
    requires Settled(s, room)
    ensures Orders(s, JoinOf(1, room, 4, 3)) == EachJoin(room, [1] + ([4] + Repeated(3, 1 + |Others(s, 1, room, 3)|)))
    ensures Shared(JoinRoom(s, 1, room, Some(4), Some(3)), room)
  {
    assert With([0], 4) == [0, 4] && With([1], 3) == [1, 3];
  }

  /** Servers 0 and 1 do not hear of it. */
  predicate Mute(c: Scene, a: Action) {
    Simple(c, a) && Tell(c, a) == c
  }

  lemma {:induction false} MuteAll(c: Scene, actions: seq<Action>)
    requires forall a :: a in actions ==> Mute(c, a)
    ensures AllSimple(c, actions) && TellAll(c, actions) == c
  {
    if actions != [] {
      assert actions[0] in actions && forall a :: a in actions[1..] ==> a in actions;
      MuteAll(c, actions[1..]);
    }
  }

  /** They hear of one order in between. */
  lemma OneHeard(c: Scene, a: Action, rest: seq<Action>)
    requires Simple(c, a) && forall x :: x in rest ==> Mute(Tell(c, a), x)
    ensures AllSimple(c, [a] + rest) && TellAll(c, [a] + rest) == Tell(c, a)
  {
    var all := [a] + rest;
    assert all[1..] == rest;
    assert forall x :: x in rest ==> Mute(Tell(c, a), x) ==> Simple(c, x);
    MuteAll(Tell(c, a), rest);
  }

  lemma {:induction false} FarMute(c: Scene, room: Room, ns: seq<Node>)
    requires forall n :: n in ns ==> 1 < n < 5
    ensures forall a :: a in EachJoin(room, ns) ==> Mute(c, a)
  {
    if ns != [] {
      assert ns[0] in ns && forall n :: n in ns[1..] ==> n in ns;
      FarMute(c, room, ns[1..]);
    }
  }

  lemma OneTold(c: Scene, room: Room, ns: seq<Node>)
    requires forall n :: n in ns ==> 1 < n < 5
    ensures var joins := EachJoin(room, [1] + ns);
      AllSimple(c, joins) && TellAll(c, joins) == To(c, 1, CreateRouterGroup(room))
  {
    assert ([1] + ns)[1..] == ns;
    FarMute(Tell(c, JoinAction(room, 1)), room, ns);
    OneHeard(c, JoinAction(room, 1), EachJoin(room, ns));
  }

  lemma Shares(j: Joint, c: Scene) returns (j': Joint)
    requires Looks(j, c) && Calm(c) && Settled(j.s, c.home) && c.other == c.home && c.q.Some?
    ensures Looks(j', c) && Shared(j'.s, c.home)
  {
    HeardBy1(c, CreateRouterGroup(c.home));
    j' := JoinsFar(j, c);
    var c';
    j', c' := EgressIdles(j', To(c, 1, CreateRouterGroup(c.home)));
  }

  lemma JoinsFar(j: Joint, c: Scene) returns (j': Joint)
    requires Looks(j, c) && Settled(j.s, c.home)
    ensures Looks(j', To(c, 1, CreateRouterGroup(c.home))) && Shared(j'.s, c.home)
  {
    var m := JoinOf(1, c.home, 4, 3);
    FarJoin(j.s, c.home);
    OneTold(c, c.home, [4] + Repeated(3, 1 + |Others(j.s, 1, c.home, 3)|));
    Ordered(j, c, m);
    j' := After(j, m);
  }

  lemma GoneFrom(s: State, room: Room)
    requires Shared(s, room)
    ensures var goodbye := DisconnectTransport(1);
      GoneOrders(s, 1) == [ApiAction(4, goodbye), ApiAction(1, goodbye), ApiAction(3, goodbye)]
    ensures Disconnect(s, 1).Done? && Disconnect(s, 1).state.rooms == s.rooms
    ensures Astray(Disconnect(s, 1).state.(rooms := map[]), room, 2)
  {
    assert [1, 3][1..] == [3] && [3][1..] == [];
    assert Goodbyes([3], 1) == [ApiAction(3, DisconnectTransport(1))];
    assert 0 in s.peers - {1} && Occupied(s.peers - {1}, room);
  }

  /** Only peer 1 is on server 3 or 4. */
  lemma DropsOne(s: State, room: Room, order: seq<PeerId>, n: Node)
    requires Shared(s, room) && n in {3, 4} && order == [0, 1, 2]
    ensures DropPeers(s, order, n) == Disconnect(s, 1) && DropOrders(s, order, n) == GoneOrders(s, 1)
  {
    GoneFrom(s, room);
    assert [0, 1, 2][..2] == [0, 1] && [0, 1][..1] == [0] && [0][..0] == [];
    assert DropPeers(s, [], n) == Done(s) && DropOrders(s, [], n) == [];
    assert DropPeers(s, [0], n) == Done(s) && DropOrders(s, [0], n) == [];
    assert DropPeers(s, [0, 1], n) == Disconnect(s, 1) && DropOrders(s, [0, 1], n) == [] + GoneOrders(s, 1);
  }

  lemma RoomStranded(t: State, room: Room, n: Node)
    requires t.rooms == map[room := Lists([0, 4], [1, 3])] && n in {3, 4}
    ensures Stranded(t, n) == {room} && Unnamed(t.rooms, n) == map[]
  {
    assert Names(t.rooms[room], n);
  }

  /** What the close of server 3 or 4 has the signaling server do. */
  lemma CloseOrdersAre(s: State, room: Room, order: seq<PeerId>, n: Node, isEgress: bool) returns (routes: set<Room>)
    requires Shared(s, room) && n in {3, 4} && order == [0, 1, 2]
    ensures var goodbye := DisconnectTransport(1);
      CloseOrders(s, order, n, isEgress, true) ==
        [ApiAction(4, goodbye), ApiAction(1, goodbye), ApiAction(3, goodbye)]
        + [DropAction({room}), UnpipeAction(n, isEgress), SweepAction(routes)]
    ensures CloseForsakes(s, order, n) == {room}
    ensures Adrift(MeshRuns.AfterClose(s, order, n, isEgress, true), room)
  {
    GoneFrom(s, room);
    DropsOne(s, room, order, n);
    var t := Disconnect(s, 1).state;
    RoomStranded(t, room, n);
    routes := JointRuns.Routes(t, n, isEgress);
    assert CloseLast(s, order, n, isEgress, true) ==
      [DropAction({room}), UnpipeAction(n, isEgress), SweepAction(routes)];
  }

  lemma CloseHeard(c: Scene, room: Room, n: Node, isEgress: bool, routes: set<Room>)
    requires c.lost == {room} && c.pipes == [Record(0, 1, c.r)] && n == if isEgress then 3 else 4
    ensures var goodbye := DisconnectTransport(1);
      var all := [ApiAction(4, goodbye), ApiAction(1, goodbye), ApiAction(3, goodbye)]
                 + [DropAction({room}), UnpipeAction(n, isEgress), SweepAction(routes)];
      AllSimple(c, all) && TellAll(c, all) == To(c, 1, goodbye)
  {
    var goodbye := DisconnectTransport(1);
    var c1 := To(c, 1, goodbye);
    var rest := [ApiAction(3, goodbye), DropAction({room}), UnpipeAction(n, isEgress), SweepAction(routes)];
    var all := [ApiAction(4, goodbye), ApiAction(1, goodbye)] + rest;
    assert PipesWithoutNode(c1.pipes[1..], n, isEgress) == [] && PipesWithoutNode(c1.pipes, n, isEgress) == c1.pipes;
    OneHeard(c, ApiAction(1, goodbye), rest);
    assert all == [ApiAction(4, goodbye)] + ([ApiAction(1, goodbye)] + rest);
    assert all[1..] == [ApiAction(1, goodbye)] + rest;
    assert all == [ApiAction(4, goodbye), ApiAction(1, goodbye), ApiAction(3, goodbye)]
      + [DropAction({room}), UnpipeAction(n, isEgress), SweepAction(routes)];
  }

  lemma Closes(j: Joint, c: Scene, isEgress: bool) returns (j': Joint, c': Scene)
    requires Looks(j, c) && Calm(c) && Shared(j.s, c.home) && c.lost == {c.home} && c.closed == {}
    requires c.pipes == [Record(0, 1, c.r)] && isEgress in c.rules.closes
    ensures Looks(j', c') && c' == c.(closed := c'.closed) && Adrift(j'.s, c.home)
  {
    var n: Node := if isEgress then 3 else 4;
    var c1 := c.(closed := {n});
    HeardBy1(c1, DisconnectTransport(1));
    j' := CloseMoves(j, c, [0, 1, 2], n, isEgress);
    j', c' := EgressIdles(j', To(c1, 1, DisconnectTransport(1)));
  }

  lemma CloseMoves(j: Joint, c: Scene, order: seq<PeerId>, n: Node, isEgress: bool) returns (j': Joint)
    requires Looks(j, c) && Shared(j.s, c.home) && c.lost == {c.home} && c.closed == {} && order == [0, 1, 2]
    requires c.pipes == [Record(0, 1, c.r)] && isEgress in c.rules.closes && n == if isEgress then 3 else 4
    ensures Looks(j', To(c.(closed := {n}), 1, DisconnectTransport(1))) && Adrift(j'.s, c.home)
  {
    var m := Request(MeshRuns.Close(order, n, isEgress, true));
    CloseProper(j, c, order, n, isEgress);
    CloseSimple(j.s, c, m);
    CloseAllowed(j.s, c, m);
    CloseSeen(j, c, m, To(c.(closed := {n}), 1, DisconnectTransport(1)));
    j' := After(j, m);
  }

  lemma CloseAllowed(s: State, c: Scene, m: Move)
    requires Shared(s, c.home)
    requires m.Request? && m.op.Close? && m.op.order == [0, 1, 2] && m.op.swept && m.op.isEgress in c.rules.closes
      && m.op.server == if m.op.isEgress then 3 else 4
    ensures Follows(s, m, c.rules) && Adrift(StateAfter(s, m), c.home)
  {
    var routes := CloseOrdersAre(s, c.home, m.op.order, m.op.server, m.op.isEgress);
    assert StateAfter(s, m) == MeshRuns.AfterClose(s, m.op.order, m.op.server, m.op.isEgress, true);
  }

  lemma CloseSimple(s: State, c: Scene, m: Move)
    requires Shared(s, c.home) && c.lost == {c.home} && c.pipes == [Record(0, 1, c.r)]
    requires m.Request? && m.op.Close? && m.op.order == [0, 1, 2] && m.op.swept
      && m.op.server == if m.op.isEgress then 3 else 4
    ensures AllSimple(c, Orders(s, m)) && TellAll(c, Orders(s, m)) == To(c, 1, DisconnectTransport(1))
  {
    CloseReady(s, c, m.op.order, m.op.server, m.op.isEgress);
  }

  lemma CloseReady(s: State, c: Scene, order: seq<PeerId>, n: Node, isEgress: bool)
    requires Shared(s, c.home) && c.lost == {c.home} && c.pipes == [Record(0, 1, c.r)]
    requires order == [0, 1, 2] && n == if isEgress then 3 else 4
    ensures var all := CloseOrders(s, order, n, isEgress, true);
      AllSimple(c, all) && TellAll(c, all) == To(c, 1, DisconnectTransport(1))
  {
    var routes := CloseOrdersAre(s, c.home, order, n, isEgress);
    CloseHeard(c, c.home, n, isEgress, routes);
  }

  lemma CloseProper(j: Joint, c: Scene, order: seq<PeerId>, n: Node, isEgress: bool)
    requires Looks(j, c) && Three(j.s) && c.closed == {} && order == [0, 1, 2] && n == if isEgress then 3 else 4
    ensures Proper(j, Request(MeshRuns.Close(order, n, isEgress, true)))
  {
    See(j, c);
    assert (set p | p in [0, 1, 2]) == {0, 1, 2};
  }

  lemma ClosedShows(nets: set<Net>, c: Scene, closed: set<Node>)
    requires Shows(nets, c)
    ensures Shows(nets, c.(closed := closed))
  {
  }

  lemma CloseSeen(j: Joint, c: Scene, m: Move, c': Scene)
    requires Looks(j, c) && AllSimple(c, Orders(j.s, m)) && m.Request? && m.op.Close? && 1 < m.op.server
    requires Proper(j, m) && Follows(j.s, m, c.rules)
    requires c' == TellAll(c, Orders(j.s, m)).(closed := {m.op.server}) && c.closed == {}
    ensures Allowed(j, m) && Looks(After(j, m), c')
  {
    See(j, c);
    TellsSame(c, Orders(j.s, m));
    if AllEnabled(j.net, Orders(j.s, m)) {
      TellsAll(j.net, c, Orders(j.s, m));
      ClosedShows({ApplyAll(j.net, Orders(j.s, m))}, TellAll(c, Orders(j.s, m)), {m.op.server});
    }
    Moved(j, c, m, c');
  }

  /** The close of a server with a room that others still have lets server 0 connect a pipe twice. */
  lemma CloseIsUnsafe(room: Room, isEgress: bool, rules: Rules) returns (j: Joint)
    requires isEgress in rules.closes
    ensures Reaches(j, rules, {(room, room)}) && j.net.h.lost <= {room}
    ensures !ConnectedOnce(j.net) && !EndsAgree(j.net)
  {
    var c, u;
    j, c, u := Settles(room, rules);
    j := Shares(j, c);
    j, c := Closes(j, c, isEgress);
    j := ProducesAgain(j, c, u, 2);
  }
}
