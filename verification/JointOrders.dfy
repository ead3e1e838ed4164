/** The orders that the signaling server gives can always be given: it knows every media server by its
    role, and sweeps no route of a room that it still has.  So a joint run leaves out no request. */
module JointOrders {
  import opened Sfu
  import opened Signaling
  import opened Handshake
  import opened HandshakeInvariant
  import opened HandshakeRouting
  import opened JointRuns
  import MeshRuns
  import MessageRuns

  // ---------------------------------------------------------------- joins

  lemma {:induction false} EachJoinOnce(r: Room, ns: seq<Node>, n: Node)
    ensures multiset(EachJoin(r, ns))[JoinAction(r, n)] == multiset(ns)[n]
  {
    if ns != [] {
      EachJoinOnce(r, ns[1..], n);
      assert ns == [ns[0]] + ns[1..];
    }
  }

  lemma {:induction false} OnceIn(ns: seq<Node>, n: Node)
    requires NoRepeats(ns)
    ensures multiset(ns)[n] == if n in ns then 1 else 0
  {
    if ns != [] {
      assert ns == [ns[0]] + ns[1..];
      assert forall j :: 0 <= j < |ns[1..]| ==> ns[1..][j] == ns[j + 1];
      OnceIn(ns[1..], n);
    }
  }

  lemma {:induction false} RepeatedTimes(m: Node, count: nat, n: Node)
    ensures multiset(Repeated(m, count))[n] == if n == m then count else 0
  {
    if count > 0 {
      RepeatedTimes(m, count - 1, n);
      assert Repeated(m, count) == [m] + Repeated(m, count - 1);
    } else {
      assert Repeated(m, 0) == [];
    }
  }

  function SentTo(s: State, a: MeshRuns.Operation, n: Node): set<PeerId> {
    set q | q in s.peers && MessageRuns.Sends(s, a, q, n)
  }

  lemma SentToIs(s: State, p: PeerId, r: Room, i: Option<Node>, e: Option<Node>, n: Node)
    requires p in s.peers
    ensures var all, listed := SentTo(s, MeshRuns.Join(p, r, i, e), n), n in ListsOf(s, r).egress;
      |all| == if listed then 1 else if i.Some? && e == Some(n) then 1 + |Others(s, p, r, n)| else 0
  {
    var all := SentTo(s, MeshRuns.Join(p, r, i, e), n);
    if n in ListsOf(s, r).egress {
      assert all == {p};
    } else if i.Some? && e == Some(n) {
      assert all == {p} + Others(s, p, r, n) && p !in Others(s, p, r, n);
    } else {
      assert all == {};
    }
  }

  /** A media server is ordered to join the room as often as there are peers who are due a join for it,
      and once more as the ingress server. */
  lemma JoinsMatch(s: State, p: PeerId, r: Room, i: Option<Node>, e: Option<Node>, n: Node)
    requires p in s.peers && TablesAgree(s)
    ensures var a := MeshRuns.Join(p, r, i, e);
      multiset(Orders(s, Request(a)))[JoinAction(r, n)] ==
        |SentTo(s, a, n)| + if i == Some(n) && e.Some? then 1 else 0
  {
    EachJoinOnce(r, Joining(s, p, r, i, e), n);
    SentToIs(s, p, r, i, e, n);
    JoiningTimes(s, p, r, i, e, n);
  }

  lemma TimesSum(a: seq<Node>, b: seq<Node>, n: Node)
    ensures multiset(a + b)[n] == multiset(a)[n] + multiset(b)[n]
  {
  }

  lemma BothTimes(egress: seq<Node>, i: Node, e: Node, count: nat, n: Node)
    requires NoRepeats(egress)
    ensures multiset(egress + ([i] + (if e in egress then [] else Repeated(e, count))))[n] ==
      (if n in egress then 1 else if n == e then count else 0) + if n == i then 1 else 0
  {
    var more := if e in egress then [] else Repeated(e, count);
    OnceIn(egress, n);
    RepeatedTimes(e, count, n);
    TimesSum(egress, [i] + more, n);
    TimesSum([i], more, n);
  }

  lemma JoiningTimes(s: State, p: PeerId, r: Room, i: Option<Node>, e: Option<Node>, n: Node)
    requires NoRepeats(ListsOf(s, r).egress)
    ensures var listed := n in ListsOf(s, r).egress;
      multiset(Joining(s, p, r, i, e))[n] ==
        (if listed then 1 else if i.Some? && e == Some(n) then 1 + |Others(s, p, r, n)| else 0)
        + if i == Some(n) && e.Some? then 1 else 0
  {
    if i.Some? && e.Some? {
      BothTimes(ListsOf(s, r).egress, i.value, e.value, 1 + |Others(s, p, r, e.value)|, n);
    } else {
      OnceIn(ListsOf(s, r).egress, n);
    }
  }

  // ---------------------------------------------------------------- roles

  ghost predicate SameRoles(net: Net, net': Net) {
    && |net'.nodes| == |net.nodes|
    && forall n :: 0 <= n < |net.nodes| ==> net'.nodes[n].ingress == net.nodes[n].ingress
  }

  ghost predicate Manned(net: Net, l: Lists) {
    (forall n :: n in l.ingress ==> OfRole(net, Some(n), true))
    && (forall n :: n in l.egress ==> OfRole(net, Some(n), false))
  }

  ghost predicate Staffed(net: Net, x: Signaling.Peer) {
    OfRole(net, x.ingress, true) && OfRole(net, x.egress, false)
  }

  /** The signaling server knows every media server by its role. */
  ghost predicate Roled(s: State, net: Net) {
    && (forall r :: r in s.rooms ==> Manned(net, s.rooms[r]))
    && (forall r :: r in s.table ==> Manned(net, s.table[r]))
    && (forall p :: p in s.peers ==> Staffed(net, s.peers[p]))
  }

  lemma RolesStay(s: State, net: Net, net': Net)
    requires Roled(s, net) && SameRoles(net, net')
    ensures Roled(s, net')
  {
  }

  lemma StepRoles(net: Net, a: Action)
    requires Inv(net) && Enabled(net, a)
    ensures Inv(Apply(net, a)) && SameRoles(net, Apply(net, a))
  {
    StepKeeps(net, a);
    forall n | 0 <= n < |net.nodes| ensures Apply(net, a).nodes[n].ingress == net.nodes[n].ingress {
      assert NodeExtends(net.nodes[n], Apply(net, a).nodes[n]);
    }
  }

  lemma {:induction false} AllRoles(net: Net, actions: seq<Action>)
    requires Inv(net) && AllEnabled(net, actions)
    ensures SameRoles(net, ApplyAll(net, actions))
    decreases |actions|
  {
    if actions != [] {
      StepRoles(net, actions[0]);
      AllRoles(Apply(net, actions[0]), actions[1..]);
    }
  }

  // ---------------------------------------------------------------- orders that only need a server of a role

  predicate Steady(net: Net, a: Action) {
    (a.JoinAction? || a.ApiAction? || a.CloseAction? || a.DestroyAction? || a.DropAction? || a.UnpipeAction?)
    && Enabled(net, a)
  }

  lemma {:induction false} SteadyEnabled(net: Net, actions: seq<Action>)
    requires Inv(net) && forall a :: a in actions ==> Steady(net, a)
    ensures AllEnabled(net, actions)
    decreases |actions|
  {
    if actions != [] {
      assert actions[0] in actions;
      StepRoles(net, actions[0]);
      forall a | a in actions[1..] ensures Steady(Apply(net, actions[0]), a) {
        assert a in actions && Steady(net, a);
      }
      SteadyEnabled(Apply(net, actions[0]), actions[1..]);
    }
  }

  lemma {:induction false} JoinsSteady(net: Net, r: Room, ns: seq<Node>)
    requires forall n :: n in ns ==> n < |net.nodes|
    ensures forall a :: a in EachJoin(r, ns) ==> Steady(net, a)
  {
    if ns != [] {
      assert ns[0] in ns && forall n :: n in ns[1..] ==> n in ns;
      JoinsSteady(net, r, ns[1..]);
    }
  }

  lemma {:induction false} GoodbyesSteady(net: Net, ns: seq<Node>, p: PeerId)
    requires forall n :: n in ns ==> OfRole(net, Some(n), false)
    ensures forall a :: a in Goodbyes(ns, p) ==> Steady(net, a)
  {
    if ns != [] {
      assert ns[0] in ns && forall n :: n in ns[1..] ==> n in ns;
      GoodbyesSteady(net, ns[1..], p);
    }
  }

  lemma FarewellSteady(s: State, net: Net, p: PeerId, r: Option<Room>, last: seq<Action>)
    requires Roled(s, net) && p in s.peers && forall a :: a in last ==> Steady(net, a)
    ensures forall a :: a in Farewell(s, p, r, last) ==> Steady(net, a)
  {
    assert Staffed(net, s.peers[p]);
    if r.Some? && r.value in s.rooms {
      assert Manned(net, s.rooms[r.value]);
      GoodbyesSteady(net, s.rooms[r.value].egress, p);
    }
  }

  lemma GoneSteady(s: State, net: Net, p: PeerId)
    requires Roled(s, net)
    ensures forall a :: a in GoneOrders(s, p) ==> Steady(net, a)
  {
    if p in s.peers {
      FarewellSteady(s, net, p, s.peers[p].room, GoneLast(s, p));
    }
  }

  lemma LeaveSteady(s: State, net: Net, p: PeerId, r: Room)
    requires Roled(s, net)
    ensures forall a :: a in LeaveOrders(s, p, r) ==> Steady(net, a)
  {
    if p in s.peers {
      FarewellSteady(s, net, p, Some(r), LeaveLast(s, p, r));
    }
  }

  lemma JoiningSteady(s: State, net: Net, p: PeerId, r: Room, i: Option<Node>, e: Option<Node>)
    requires Roled(s, net) && OfRole(net, i, true) && OfRole(net, e, false)
    ensures forall a :: a in EachJoin(r, Joining(s, p, r, i, e)) ==> Steady(net, a)
  {
    assert Manned(net, ListsOf(s, r));
    JoinsSteady(net, r, Joining(s, p, r, i, e));
  }

  lemma GoneRoles(s: State, net: Net, p: PeerId)
    requires Roled(s, net)
    ensures Roled(Disconnect(s, p).state, net)
  {
  }

  lemma {:induction false} DropRoles(s: State, net: Net, order: seq<PeerId>, n: Node)
    requires Roled(s, net)
    ensures Roled(DropPeers(s, order, n).state, net)
  {
    if order != [] {
      var rest := order[..|order| - 1];
      DropRoles(s, net, rest, n);
      GoneRoles(DropPeers(s, rest, n).state, net, order[|order| - 1]);
    }
  }

  lemma {:induction false} DropSteady(s: State, net: Net, order: seq<PeerId>, n: Node)
    requires Roled(s, net)
    ensures forall a :: a in DropOrders(s, order, n) ==> Steady(net, a)
  {
    if order != [] {
      var rest := order[..|order| - 1];
      DropSteady(s, net, rest, n);
      DropRoles(s, net, rest, n);
      GoneSteady(DropPeers(s, rest, n).state, net, order[|order| - 1]);
    }
  }

  // ---------------------------------------------------------------- the sweep

  /** Rooms that list the server were dropped before. */
  lemma SweepEnabled(t: State, net: Net, n: Node, isEgress: bool)
    requires SameRooms(t.rooms, net.rooms) && forall r :: r in t.rooms ==> r in t.table && t.table[r] == t.rooms[r]
    ensures AllEnabled(net,
      [DropAction(Stranded(t, n)), UnpipeAction(n, isEgress), SweepAction(Routes(t, n, isEgress))])
  {
    var net1 := Apply(net, DropAction(Stranded(t, n)));
    var net2 := Apply(net1, UnpipeAction(n, isEgress));
    var unpipe, sweep := UnpipeAction(n, isEgress), SweepAction(Routes(t, n, isEgress));
    assert Enabled(net2, sweep);
    OneOrder(net2, sweep);
    assert [unpipe, sweep][1..] == [sweep] && AllEnabled(net1, [unpipe, sweep]);
    assert [DropAction(Stranded(t, n)), unpipe, sweep][1..] == [unpipe, sweep];
  }

  lemma CloseEnabled(j: Joint, order: seq<PeerId>, n: Node, isEgress: bool, swept: bool)
    requires Inv(j.net) && Coupled(j) && Roled(j.s, j.net)
    ensures AllEnabled(j.net, CloseOrders(j.s, order, n, isEgress, swept))
  {
    var first, last := DropOrders(j.s, order, n), CloseLast(j.s, order, n, isEgress, swept);
    DropSteady(j.s, j.net, order, n);
    SteadyEnabled(j.net, first);
    var net1, t := ApplyAll(j.net, first), DropPeers(j.s, order, n);
    DropCoupled(j.s, j.net, order, n);
    MeshRuns.DropSpares(j.s, order, n);
    if t.Done? {
      if swept {
        SweepEnabled(t.state, net1, n, isEgress);
        assert last ==
          [DropAction(Stranded(t.state, n)), UnpipeAction(n, isEgress), SweepAction(Routes(t.state, n, isEgress))];
      } else {
        OneOrder(net1, DropAction(Stranded(t.state, n)));
        assert last == [DropAction(Stranded(t.state, n))];
      }
    }
    AllEnabledJoin(j.net, first, last);
  }

  // ---------------------------------------------------------------- every request

  lemma AskSteady(s: State, net: Net, m: Move)
    requires Roled(s, net) && !m.Media? && Staying(m)
    ensures forall a :: a in Orders(s, m) ==> Steady(net, a)
  {
    forall p | p in s.peers ensures OfRole(net, s.peers[p].ingress, true) {
      assert Staffed(net, s.peers[p]);
    }
  }

  /** Whatever a client asks for, its orders can be given. */
  lemma RequestEnabled(j: Joint, m: Move)
    requires Inv(j.net) && Coupled(j) && Roled(j.s, j.net) && Proper(j, m) && !m.Media?
    ensures Allowed(j, m)
  {
    if Staying(m) {
      AskSteady(j.s, j.net, m);
      SteadyEnabled(j.net, Orders(j.s, m));
    } else {
      match m.op {
        case Join(p, r, i, e) => JoiningSteady(j.s, j.net, p, r, i, e);
        case Leave(p, r) => LeaveSteady(j.s, j.net, p, r);
        case Gone(p) => GoneSteady(j.s, j.net, p);
        case Close(order, n, isEgress, swept) => CloseEnabled(j, order, n, isEgress, swept);
      }
      if !m.op.Close? {
        SteadyEnabled(j.net, Orders(j.s, m));
      }
    }
  }

  lemma JoinRoles(s: State, net: Net, p: PeerId, r: Room, i: Option<Node>, e: Option<Node>)
    requires Roled(s, net) && OfRole(net, i, true) && OfRole(net, e, false)
    ensures Roled(JoinRoom(s, p, r, i, e), net)
  {
    var s' := JoinRoom(s, p, r, i, e);
    assert Manned(net, ListsOf(s, r));
    forall q | q in s'.peers ensures Staffed(net, s'.peers[q]) {
      assert q in s.peers && Staffed(net, s.peers[q]);
    }
  }

  lemma MovementRoles(s: State, net: Net, p: PeerId, spectator: bool)
    requires Roled(s, net)
    ensures Roled(ConsumeAllMovement(s, p, spectator).state, net)
  {
    if p in s.peers {
      assert Staffed(net, s.peers[p]) && Roled(LeaveLobby(s, p, spectator).state, net);
    }
  }

  lemma LeaveRoles(s: State, net: Net, p: PeerId, r: Room)
    requires Roled(s, net)
    ensures Roled(LeaveRoom(s, p, r), net)
  {
  }

  lemma AskRoles(s: State, net: Net, a: MeshRuns.Operation)
    requires Roled(s, net) && (a.Create? || a.Ingress? || a.Send? || a.Announced? || a.Count?)
    ensures Roled(MeshRuns.Next(s, a), net)
  {
  }

  lemma OperationRoles(s: State, net: Net, a: MeshRuns.Operation)
    requires Roled(s, net) && (a.Join? ==> OfRole(net, a.ingress, true) && OfRole(net, a.egress, false))
    ensures Roled(MeshRuns.Next(s, a), net)
  {
    match a
    case Join(p, r, i, e) => JoinRoles(s, net, p, r, i, e);
    case Movement(p, spectator) => MovementRoles(s, net, p, spectator);
    case Gone(p) => GoneRoles(s, net, p);
    case Leave(p, r) => LeaveRoles(s, net, p, r);
    case Close(order, n, isEgress, swept) => DropRoles(s, net, order, n);
    case _ => AskRoles(s, net, a);
  }

  lemma {:induction false} AlwaysRoled(trace: seq<Joint>, moves: seq<Move>, k: nat)
    requires JointRun(trace, moves) && k < |trace|
    ensures Roled(trace[k].s, trace[k].net)
  {
    if k > 0 {
      var j, m := trace[k - 1], moves[k - 1];
      AlwaysRoled(trace, moves, k - 1);
      JointKeeps(trace, moves, k - 1);
      if m.Request? {
        OperationRoles(j.s, j.net, m.op);
      }
      AllRoles(j.net, Orders(j.s, m));
      RolesStay(StateAfter(j.s, m), j.net, ApplyAll(j.net, Orders(j.s, m)));
      assert trace[(k - 1) + 1] == After(j, m);
    }
  }

  /** In every state of every joint run a request is carried out, whoever makes it and whatever it names. */
  lemma RequestsAreServed(trace: seq<Joint>, moves: seq<Move>, k: nat, m: Move)
    requires JointRun(trace, moves) && k < |trace| && Proper(trace[k], m) && !m.Media?
    ensures Allowed(trace[k], m)
  {
    JointKeeps(trace, moves, k);
    AlwaysCoupled(trace, moves, k);
    AlwaysRoled(trace, moves, k);
    RequestEnabled(trace[k], m);
  }
}
