/** What the signaling server orders when a peer gets a transport, produces, leaves or is gone: to which
    servers, how often, and what becomes of the room. */
module JointEffects {
  import opened Sfu
  import opened Signaling
  import opened Handshake
  import opened JointRuns
  import opened JointOrders
  import MeshRuns

  /** The peer's ingress server is asked for a transport in the peer's room, with offers for exactly the
      egress servers that the route has. */
  lemma IngressAsks(s: State, p: PeerId)
    ensures var orders := Orders(s, Request(MeshRuns.Ingress(p)));
      if p in s.peers && s.peers[p].room.Some? && s.peers[p].ingress.Some? then
        && |orders| == 1 && orders[0].ApiAction? && orders[0].n == s.peers[p].ingress.value
        && var m, r := orders[0].msg, s.peers[p].room.value;
        && m.CreateWebRTCIngress? && m.peer == p && m.room == r
        && (forall e :: Some(e) in m.pipes <==> r in s.table && e in s.table[r].egress)
        && None !in m.pipes
      else orders == []
  {
    if p in s.peers && s.peers[p].room.Some? && s.peers[p].room.value in s.table {
      SomesHave(s.table[s.peers[p].room.value].egress);
    }
  }

  lemma SomesHave(ns: seq<Node>)
    ensures forall n :: Some(n) in Somes(ns) <==> n in ns
    ensures None !in Somes(ns)
  {
    forall n | n in ns ensures Some(n) in Somes(ns) {
      var k :| 0 <= k < |ns| && ns[k] == n;
      assert Somes(ns)[k] == Some(n);
    }
  }

  /** A producer request goes to the peer's ingress server and names its room and its egress server. */
  lemma ProduceAsks(s: State, p: PeerId)
    ensures var orders := Orders(s, Produce(p));
      if p in s.peers && s.peers[p].room.Some? && s.peers[p].ingress.Some? && s.peers[p].egress.Some? then
        exists i, r, e :: s.peers[p].ingress == Some(i) && s.peers[p].room == Some(r) && s.peers[p].egress == Some(e)
                          && orders == [ApiAction(i, CreateProducer(p, r, e))]
      else orders == []
  {
  }

  // ---------------------------------------------------------------- goodbyes

  function OneIf(b: bool): nat {
    if b then 1 else 0
  }

  lemma ActionsSum(a: seq<Action>, b: seq<Action>, x: Action)
    ensures multiset(a + b)[x] == multiset(a)[x] + multiset(b)[x]
  {
  }

  lemma {:induction false} GoodbyesTimes(ns: seq<Node>, p: PeerId, n: Node)
    ensures multiset(Goodbyes(ns, p))[ApiAction(n, DisconnectTransport(p))] == multiset(ns)[n]
  {
    if ns != [] {
      GoodbyesTimes(ns[1..], p, n);
      assert ns == [ns[0]] + ns[1..];
      var x := ApiAction(n, DisconnectTransport(p));
      ActionsSum([ApiAction(ns[0], DisconnectTransport(p))], Goodbyes(ns[1..], p), x);
    }
  }

  lemma {:induction false} NotAmong(actions: seq<Action>, x: Action)
    requires x !in actions
    ensures multiset(actions)[x] == 0
  {
  }

  lemma FarewellTimes(s: State, p: PeerId, r: Option<Room>, last: seq<Action>, n: Node)
    requires p in s.peers && TablesAgree(s) && forall a :: a in last ==> !a.ApiAction?
    ensures multiset(Farewell(s, p, r, last))[ApiAction(n, DisconnectTransport(p))] ==
      OneIf(s.peers[p].ingress == Some(n))
      + OneIf(r.Some? && r.value in s.rooms && n in s.rooms[r.value].egress)
  {
    var x, first := ApiAction(n, DisconnectTransport(p)), Goodbye(s.peers[p].ingress, p);
    if r.Some? && r.value in s.rooms {
      var egress := s.rooms[r.value].egress;
      OnceIn(egress, n);
      GoodbyesTimes(egress, p, n);
      NotAmong(last, x);
      ActionsSum(Goodbyes(egress, p), last, x);
      ActionsSum(first, Goodbyes(egress, p) + last, x);
    } else {
      ActionsSum(first, [], x);
    }
  }

  /** A leave says one goodbye to the peer's ingress server and one to each egress server of the room that
      it names. */
  lemma LeaveSaysGoodbye(s: State, p: PeerId, r: Room, n: Node)
    requires p in s.peers && TablesAgree(s)
    ensures multiset(Orders(s, Request(MeshRuns.Leave(p, r))))[ApiAction(n, DisconnectTransport(p))] ==
      OneIf(s.peers[p].ingress == Some(n)) + OneIf(r in s.rooms && n in s.rooms[r].egress)
  {
    FarewellTimes(s, p, Some(r), LeaveLast(s, p, r), n);
  }

  /** A disconnect says one to the peer's ingress server and one to each egress server of its room. */
  lemma GoneSaysGoodbye(s: State, p: PeerId, n: Node)
    requires p in s.peers && TablesAgree(s)
    ensures multiset(Orders(s, Request(MeshRuns.Gone(p))))[ApiAction(n, DisconnectTransport(p))] ==
      OneIf(s.peers[p].ingress == Some(n))
      + OneIf(exists r :: s.peers[p].room == Some(r) && r in s.rooms && n in s.rooms[r].egress)
  {
    FarewellTimes(s, p, s.peers[p].room, GoneLast(s, p), n);
  }

  // ---------------------------------------------------------------- the end of a room

  /** Without the peer, nobody takes part in the room and nobody is in its lobby, by its counter. */
  ghost predicate Deserts(s: State, p: PeerId, r: Room)
    requires p in s.peers
  {
    && r in s.rooms && r in s.counts
    && s.counts[r].participants == OneIf(s.peers[p].participant)
    && (s.counts[r].lobby == 0 || (s.peers[p].lobby && s.counts[r].lobby == 1))
  }

  lemma AmongFarewell(s: State, p: PeerId, r: Option<Room>, last: seq<Action>, a: Action)
    requires p in s.peers && !a.ApiAction?
    ensures a in Farewell(s, p, r, last) <==> r.Some? && r.value in s.rooms && a in last
  {
    if r.Some? && r.value in s.rooms {
      GoodbyesOnly(s.rooms[r.value].egress, p);
    }
  }

  /** A leave that deserts the room it names ends that room if it is the peer's own; else it drops the room
      with nobody told, and has the peer's own destroyed, if there is one. */
  lemma LeaveEnds(s: State, p: PeerId, r: Room, q: Room)
    requires p in s.peers
    ensures var orders := Orders(s, Request(MeshRuns.Leave(p, r)));
      && (CloseAction(q) in orders <==> Deserts(s, p, r) && q == r && s.peers[p].room == Some(r))
      && (DestroyAction(q) in orders <==> Deserts(s, p, r) && q != r && s.peers[p].room == Some(q))
      && (DropAction({q}) in orders <==> Deserts(s, p, r) && q == r && s.peers[p].room != Some(r))
  {
    AmongFarewell(s, p, Some(r), LeaveLast(s, p, r), CloseAction(q));
    AmongFarewell(s, p, Some(r), LeaveLast(s, p, r), DestroyAction(q));
    AmongFarewell(s, p, Some(r), LeaveLast(s, p, r), DropAction({q}));
    assert q != r ==> {q} != {r} by { assert q in {q}; }
  }

  /** A disconnect ends the peer's room exactly if it is there, has a counter, and nobody else is in it. */
  lemma GoneEnds(s: State, p: PeerId, q: Room)
    requires p in s.peers
    ensures CloseAction(q) in Orders(s, Request(MeshRuns.Gone(p))) <==>
      && s.peers[p].room == Some(q) && q in s.rooms && q in s.counts
      && forall x :: x in s.peers && x != p ==> s.peers[x].room != Some(q)
  {
    AmongFarewell(s, p, s.peers[p].room, GoneLast(s, p), CloseAction(q));
    if x :| x in s.peers && x != p && s.peers[x].room == Some(q) {
      assert x in s.peers - {p} && (s.peers - {p})[x].room == Some(q);
    }
  }

  /** And what happens to the room's lists is what happens to its servers: a room that a leave or a
      disconnect takes out of `rooms` is ended or dropped by its orders, and no other. */
  lemma RoomsGoTogether(s: State, p: PeerId, r: Room, q: Room)
    requires p in s.peers
    ensures q in s.rooms && q !in LeaveRoom(s, p, r).rooms <==>
      exists a :: a in Orders(s, Request(MeshRuns.Leave(p, r))) && (a == CloseAction(q) || a == DropAction({q}))
    ensures q in s.rooms && q !in Disconnect(s, p).state.rooms <==>
      CloseAction(q) in Orders(s, Request(MeshRuns.Gone(p)))
  {
    LeaveEnds(s, p, r, q);
    GoneEnds(s, p, q);
    if Occupied(s.peers - {p}, q) {
      var x :| x in s.peers - {p} && (s.peers - {p})[x].room == Some(q);
      assert x in s.peers && x != p && s.peers[x].room == Some(q);
    }
  }
}
