/** Bringing a producer from its pipe to every router of the room.

    The answers of the media library are parameters: whether the producer could be made on the
    pipe, and the routers to which piping fails. */
module RelayProducers {
  import opened Sfu
  import opened Handshake
  import opened HandshakeInvariant
  import opened HandshakeSteps
  import opened HandshakeRouting
  import opened HandshakeDiscipline
  import opened HandshakeAgreements
  import opened Ledger
  import Rooms

  /** The pipe that the producer is made on: that of the first relay of the ingress router. */
  function Source(s: Server, r: RouterId): Option<Pipe> {
    var found := OfRouter(s.relays, r);
    if found == [] then None else FindPipe(s.pipes, found[0].transport)
  }

  /** The routers that a producer of ingress router `r` is to be piped to. */
  function Targets(s: Server, room: Room, r: RouterId): seq<RouterId> {
    if room in s.rooms && r in s.relayRouters then Others(s.rooms[room], s.relayRouters[r]) else []
  }

  function Others(group: seq<RouterId>, q: RouterId): (others: seq<RouterId>)
    ensures forall x :: x in others <==> x in group && x != q
  {
    if group == [] then []
    else
      var n := |group| - 1;
      Others(group[..n], q) + (if group[n] != q then [group[n]] else [])
  }

  predicate Fails(s: Server, room: Room, r: RouterId, fails: set<RouterId>) {
    exists x :: x in Targets(s, room, r) && x in fails
  }

  lemma {:induction false} OthersAre(group: seq<RouterId>, k: nat)
    requires k < |group| && forall j :: 0 <= j < |group| && j != k ==> group[j] != group[k]
    ensures Others(group, group[k]) == group[..k] + group[k + 1..]
  {
    var n := |group| - 1;
    assert group == group[..n] + [group[n]];
    if k < n {
      OthersAre(group[..n], k);
      assert group[..n][..k] == group[..k];
      assert group[k + 1..] == group[..n][k + 1..] + [group[n]];
    } else {
      OthersWithout(group[..n], group[k]);
    }
  }

  lemma {:induction false} OthersWithout(group: seq<RouterId>, q: RouterId)
    requires q !in group
    ensures Others(group, q) == group
  {
    if group != [] {
      var n := |group| - 1;
      OthersWithout(group[..n], q);
      assert group == group[..n] + [group[n]];
    }
  }

  /** A producer is made on the pipe of the first relay of its ingress router and piped, in order, to the
      routers of the room but the one that this pipe is on. */
  lemma SourceAndTargets(s: Server, room: Room, r: RouterId, i: nat, j: nat, k: nat)
    requires Rooms.IsFirst(s.relays, r, None, i) && Rooms.IsPipe(s.pipes, s.relays[i].transport, j)
    requires Valid(s) && r in s.relayRouters && room in s.rooms
    requires k < |s.rooms[room]| && s.rooms[room][k] == s.relayRouters[r]
    ensures Source(s, r) == Some(s.pipes[j])
    ensures Targets(s, room, r) == s.rooms[room][..k] + s.rooms[room][k + 1..]
  {
    Rooms.FirstOfRouter(s.relays, r, i);
    Rooms.FirstPipe(s.pipes, s.relays[i].transport, j);
    OthersAre(s.rooms[room], k);
  }

  /** The loop of both relay producer handlers; `fails` are routers that cannot be piped to. */
  method PipeToRoom(s: Server, room: Room, r: RouterId, fails: set<RouterId>) returns (ok: bool, piped: seq<RouterId>)
    ensures piped <= Targets(s, room, r)
    ensures ok <==> piped == Targets(s, room, r)
    ensures !ok ==>
      var next := Targets(s, room, r)[|piped|];
      next in fails || next !in s.routers || s.relayRouters[r] !in s.routers
    ensures forall x :: x in piped ==> x !in fails && x in s.routers && s.relayRouters[r] in s.routers
  {
    piped := [];
    if room !in s.rooms || r !in s.relayRouters {
      return true, piped;
    }
    var group, q := s.rooms[room], s.relayRouters[r];
    for i := 0 to |group|
      invariant piped == Others(group[..i], q)
      invariant forall x :: x in piped ==> x !in fails && x in s.routers && q in s.routers
    {
      assert group[..i + 1][..i] == group[..i];
      if group[i] == q {
        continue;
      }
      if group[i] !in s.routers || q !in s.routers || group[i] in fails {
        OthersPrefix(group, q, i);
        return false, piped;
      }
      piped := piped + [group[i]];
    }
    assert group[..|group|] == group;
    ok := true;
  }

  lemma {:induction false} OthersPrefix(group: seq<RouterId>, q: RouterId, i: nat)
    requires i < |group| && group[i] != q
    ensures Others(group[..i], q) + [group[i]] <= Others(group, q)
  {
    var n := |group| - 1;
    if i == n {
      assert group[..i] == group[..n];
    } else {
      OthersPrefix(group[..n], q, i);
      assert group[..n][..i] == group[..i];
    }
  }

  /** `create_relay_producer`: whether it succeeds, and the routers it piped the producer to. */
  method RelayMediaProducer(s: Server, room: Room, r: RouterId, produced: bool, fails: set<RouterId>)
    returns (ok: bool, piped: seq<RouterId>)
    requires Valid(s) && r !in s.routers
    ensures ok <==> Source(s, r).Some? && produced && !Fails(s, room, r, fails)
    ensures ok ==> piped == Targets(s, room, r)
    ensures piped <= Targets(s, room, r)
  {
    var found := OfRouter(s.relays, r);
    if found == [] {
      return false, [];
    }
    var pipe := FindPipe(s.pipes, found[0].transport);
    if pipe.None? || !produced {
      return false, [];
    }
    ok, piped := PipeToRoom(s, room, r, fails);
    TargetsExist(s, room, r);
    if !ok {
      assert Targets(s, room, r)[|piped|] in Targets(s, room, r);
    }
  }

  /** `create_relay_datachannel_producer`: with an event producer the peer can relay no other data
      producer, whatever its label; a label that is not known is refused only after piping. */
  method RelayDataProducer(s: Server, room: Room, r: RouterId, hasEvents: bool, channel: Label,
                                 produced: bool, fails: set<RouterId>)
    returns (ok: bool, piped: seq<RouterId>)
    requires Valid(s) && r !in s.routers
    ensures ok <==> !hasEvents && channel != Other
                    && Source(s, r).Some? && produced && !Fails(s, room, r, fails)
    ensures hasEvents ==> piped == []
    ensures ok ==> piped == Targets(s, room, r)
    ensures !hasEvents && channel == Other && Source(s, r).Some? && produced && !Fails(s, room, r, fails) ==>
      piped == Targets(s, room, r)
  {
    if hasEvents {
      return false, [];
    }
    ok, piped := RelayMediaProducer(s, room, r, produced, fails);
    if ok && channel == Other {
      return false, piped;
    }
  }

  lemma TargetsExist(s: Server, room: Room, r: RouterId)
    requires Valid(s) && r !in s.routers && OfRouter(s.relays, r) != []
    ensures r in s.relayRouters && s.relayRouters[r] in s.routers
    ensures forall x :: x in Targets(s, room, r) ==> x in s.routers
  {
    var x := OfRouter(s.relays, r)[0];
    assert x in OfRouter(s.relays, r);
  }

  /** On a live room the routers that carry the producer in the end - the one its pipe is on and
      those it was piped to - are the routers of the room, exactly if the relay is for that room. */
  lemma WholeRoomIff(s: Server, room: Room, r: RouterId)
    requires Valid(s) && r !in s.routers && room in s.rooms && OfRouter(s.relays, r) != []
    ensures r in s.relayRouters
    ensures {s.relayRouters[r]} + Elems(Targets(s, room, r)) == Elems(s.rooms[room]) <==>
      OfRouter(s.relays, r)[0].room == room
  {
    var x := OfRouter(s.relays, r)[0];
    assert x in OfRouter(s.relays, r);
    RelayedInRoom(s, x);
    WholeGroupIff(s.rooms[room], s.relayRouters[r]);
  }

  lemma WholeGroupIff(group: seq<RouterId>, q: RouterId)
    ensures {q} + Elems(Others(group, q)) == Elems(group) <==> q in group
  {
    assert q in {q} + Elems(Others(group, q));
  }

  lemma RelayedInRoom(s: Server, x: Relay)
    requires Valid(s) && x in s.relays && x.router !in s.routers
    ensures x.router in s.relayRouters && x.room in s.rooms && s.relayRouters[x.router] in s.rooms[x.room]
    ensures forall m :: m in s.rooms && m != x.room ==> s.relayRouters[x.router] !in s.rooms[m]
  {
  }

  /** The request that makes the relay reaches the whole room. */
  lemma FirstRequestReachesRoom(s: Server, self: Node, room: Room, r: RouterId, t: TransportId)
    requires Valid(s) && Below(s, t) && r < t && r !in s.routers && AnswerOf(s, room, r).Answered?
    ensures var s' := AnswerRelay(s, self, room, r, t);
      && Source(s', r) == Some(Pipe(room, t, false))
      && {s'.relayRouters[r]} + Elems(Targets(s', room, r)) == Elems(s'.rooms[room])
  {
    var s' := AnswerRelay(s, self, room, r, t);
    Rooms.AnswerKeeps(s, self, room, r, t);
    assert forall y :: y in s.relays && y.router == r ==> y in OfRouter(s.relays, r);
    OnlyRelay(s.relays, Relay(r, self, t, room));
    NewPipe(s.pipes, Pipe(room, t, false));
    WholeRoomIff(s', room, r);
  }

  lemma {:induction false} OnlyRelay(rs: seq<Relay>, x: Relay)
    requires forall y :: y in rs ==> y.router != x.router
    ensures OfRouter(rs + [x], x.router) == [x]
  {
    if rs == [] {
      assert [x][1..] == [] && rs + [x] == [x] && [x] + [] == [x];
    } else {
      OnlyRelay(rs[1..], x);
      assert rs[0] in rs && (rs + [x])[1..] == rs[1..] + [x] && [] + [x] == [x];
    }
  }

  lemma {:induction false} NewPipe(ps: seq<Pipe>, p: Pipe)
    requires forall x :: x in ps ==> x.transport != p.transport
    ensures FindPipe(ps + [p], p.transport) == Some(p)
  {
    if ps != [] {
      NewPipe(ps[1..], p);
      assert (ps + [p])[1..] == ps[1..] + [p];
      assert ps[0] in ps;
    }
  }

  /** In runs of disciplined requests the producer of every relay request - message `j` of the
      link to the egress server - reaches the whole room, as long as the room is live and the
      server has a relay for the router. */
  lemma MediaReachesRoom(trace: seq<Net>, actions: seq<Action>, k: nat, n: Node, j: nat)
    requires DisciplinedRun(trace, actions) && k < |trace|
    requires n < |trace[k].nodes| && j < |trace[k].nodes[n].down| && trace[k].nodes[n].down[j].CreateRelayProducer?
    ensures var s, m := trace[k].nodes[n].server, trace[k].nodes[n].down[j];
      m.room in s.rooms && OfRouter(s.relays, m.route) != [] ==>
        && m.route in s.relayRouters
        && {s.relayRouters[m.route]} + Elems(Targets(s, m.room, m.route)) == Elems(s.rooms[m.room])
  {
    RunKeeps(trace, actions, k);
    RunTidy(trace, actions, k);
    ServerOk(trace[k], n);
    ServerTidy(trace[k], n);
    ReachesRoom(trace[k], n, j);
  }

  lemma ReachesRoom(net: Net, n: Node, j: nat)
    requires HistoryOk(net) && n < |net.nodes| && AllOk(net, {n}) && AllTidy(net, {n})
    requires j < |net.nodes[n].down| && net.nodes[n].down[j].CreateRelayProducer?
    ensures var s, m := net.nodes[n].server, net.nodes[n].down[j];
      m.room in s.rooms && OfRouter(s.relays, m.route) != [] ==>
        && m.route in s.relayRouters
        && {s.relayRouters[m.route]} + Elems(Targets(s, m.room, m.route)) == Elems(s.rooms[m.room])
  {
    var s, m := net.nodes[n].server, net.nodes[n].down[j];
    if m.room in s.rooms && OfRouter(s.relays, m.route) != [] {
      IngressRouterElsewhere(net, n, j);
      RelayIsForRoom(net, n, j);
      WholeRoomIff(s, m.room, m.route);
    }
  }

  lemma IngressRouterElsewhere(net: Net, n: Node, j: nat)
    requires HistoryOk(net) && n < |net.nodes| && AllOk(net, {n})
    requires j < |net.nodes[n].down| && net.nodes[n].down[j].CreateRelayProducer?
    ensures Valid(net.nodes[n].server) && !net.nodes[n].ingress
    ensures net.nodes[n].down[j].route !in net.nodes[n].server.routers
  {
    assert n in {n};
    assert DownMsgOk(net, n, j);
    ToldAbout(net, n, net.nodes[n].down[j].route, j);
  }

  lemma RelayIsForRoom(net: Net, n: Node, j: nat)
    requires n < |net.nodes| && AllTidy(net, {n}) && !net.nodes[n].ingress
    requires j < |net.nodes[n].down| && net.nodes[n].down[j].CreateRelayProducer?
    requires OfRouter(net.nodes[n].server.relays, net.nodes[n].down[j].route) != []
    ensures OfRouter(net.nodes[n].server.relays, net.nodes[n].down[j].route)[0].room == net.nodes[n].down[j].room
  {
    assert n in {n};
    var x := OfRouter(net.nodes[n].server.relays, net.nodes[n].down[j].route)[0];
    assert x in OfRouter(net.nodes[n].server.relays, net.nodes[n].down[j].route);
  }
}
