/** Which rooms the signaling server drops without telling the servers listed for them: those that a
    peer leaves that is not in them, and those that still name a server when its peers are gone. */
module JointLosses {
  import opened Sfu
  import opened Signaling
  import opened Handshake
  import opened JointRuns

  /** The rooms that a move drops with nobody told. */
  function Forsakes(s: State, m: Move): set<Room> {
    if m.Request? && m.op.Leave? then LeaveForsakes(s, m.op.peer, m.op.room)
    else if m.Request? && m.op.Close? then CloseForsakes(s, m.op.order, m.op.server)
    else {}
  }

  function LeaveForsakes(s: State, p: PeerId, r: Room): set<Room> {
    if p in s.peers && s.peers[p].room != Some(r) && r in s.rooms && r in s.counts
      && Closes(Less(s.counts[r], s.peers[p]))
    then {r}
    else {}
  }

  function CloseForsakes(s: State, order: seq<PeerId>, n: Node): set<Room> {
    if DropPeers(s, order, n).Done? then Stranded(DropPeers(s, order, n).state, n) else {}
  }

  lemma ActionLoses(net: Net, a: Action)
    requires Enabled(net, a) && !a.DropAction?
    ensures Apply(net, a).h.lost == net.h.lost
  {
    match a
    case ServeAction(n, gone) => ServeTables(net, n, gone);
    case _ =>
  }

  lemma {:induction false} OrdersLose(net: Net, actions: seq<Action>)
    requires AllEnabled(net, actions) && forall a :: a in actions ==> !a.DropAction?
    ensures ApplyAll(net, actions).h.lost == net.h.lost
    decreases |actions|
  {
    if actions != [] {
      assert actions[0] in actions && forall a :: a in actions[1..] ==> a in actions;
      ActionLoses(net, actions[0]);
      OrdersLose(Apply(net, actions[0]), actions[1..]);
    }
  }

  lemma LastLoses(net: Net, gone: set<Room>, rest: seq<Action>)
    requires AllEnabled(net, [DropAction(gone)] + rest) && gone <= net.rooms.Keys
    requires forall a :: a in rest ==> !a.DropAction?
    ensures ApplyAll(net, [DropAction(gone)] + rest).h.lost == net.h.lost + gone
  {
    assert ([DropAction(gone)] + rest)[1..] == rest;
    OrdersLose(Apply(net, DropAction(gone)), rest);
  }

  lemma GoodbyesLose(net: Net, s: State, p: PeerId, r: Room)
    requires p in s.peers && r in s.rooms && AllEnabled(net, LeaveOrders(s, p, r))
    ensures var first := Goodbye(s.peers[p].ingress, p) + Goodbyes(s.rooms[r].egress, p);
      && LeaveOrders(s, p, r) == first + LeaveLast(s, p, r)
      && AllEnabled(net, first)
      && ApplyAll(net, first).h.lost == net.h.lost && ApplyAll(net, first).rooms == net.rooms
  {
    var first := Goodbye(s.peers[p].ingress, p) + Goodbyes(s.rooms[r].egress, p);
    GoodbyesOnly(s.rooms[r].egress, p);
    assert LeaveOrders(s, p, r) == first + LeaveLast(s, p, r);
    AllEnabledSplit(net, first, LeaveLast(s, p, r));
    OrdersLose(net, first);
    SameTables(net, first);
  }

  lemma LeaveLastLoses(net: Net, s: State, p: PeerId, r: Room)
    requires p in s.peers && r in s.rooms && r in net.rooms && AllEnabled(net, LeaveLast(s, p, r))
    ensures ApplyAll(net, LeaveLast(s, p, r)).h.lost == net.h.lost + LeaveForsakes(s, p, r)
  {
    var last := LeaveLast(s, p, r);
    if LeaveForsakes(s, p, r) == {} {
      OrdersLose(net, last);
    } else {
      assert last == [DropAction({r})] + last[1..];
      LastLoses(net, {r}, last[1..]);
    }
  }

  lemma LeaveLoses(j: Joint, p: PeerId, r: Room)
    requires Coupled(j) && p in j.s.peers && AllEnabled(j.net, LeaveOrders(j.s, p, r))
    ensures ApplyAll(j.net, LeaveOrders(j.s, p, r)).h.lost ==
      j.net.h.lost + LeaveForsakes(j.s, p, r)
  {
    var first := Goodbye(j.s.peers[p].ingress, p);
    if r in j.s.rooms {
      var goodbyes := first + Goodbyes(j.s.rooms[r].egress, p);
      GoodbyesLose(j.net, j.s, p, r);
      AllEnabledSplit(j.net, goodbyes, LeaveLast(j.s, p, r));
      LeaveLastLoses(ApplyAll(j.net, goodbyes), j.s, p, r);
    } else {
      assert LeaveOrders(j.s, p, r) == first;
      OrdersLose(j.net, first);
    }
  }

  lemma GoneLoses(s: State, net: Net, p: PeerId)
    requires AllEnabled(net, GoneOrders(s, p))
    ensures forall a :: a in GoneOrders(s, p) ==> !a.DropAction?
    ensures ApplyAll(net, GoneOrders(s, p)).h.lost == net.h.lost
  {
    GoneKeepsRooms(s, p);
    OrdersLose(net, GoneOrders(s, p));
  }

  lemma GoneKeepsRooms(s: State, p: PeerId)
    ensures forall a :: a in GoneOrders(s, p) ==> !a.DropAction?
  {
    if p in s.peers && s.peers[p].room.Some? && s.peers[p].room.value in s.rooms {
      GoodbyesOnly(s.rooms[s.peers[p].room.value].egress, p);
    }
  }

  lemma {:induction false} DropKeepsRooms(s: State, order: seq<PeerId>, n: Node)
    ensures forall a :: a in DropOrders(s, order, n) ==> !a.DropAction?
  {
    if order != [] {
      var rest, last := order[..|order| - 1], order[|order| - 1];
      DropKeepsRooms(s, rest, n);
      if DropPeers(s, rest, n).Done? {
        GoneKeepsRooms(DropPeers(s, rest, n).state, last);
      }
    }
  }

  lemma CloseLastLoses(s: State, net: Net, order: seq<PeerId>, n: Node, isEgress: bool, swept: bool)
    requires DropPeers(s, order, n).Done? && SameRooms(DropPeers(s, order, n).state.rooms, net.rooms)
    requires AllEnabled(net, CloseLast(s, order, n, isEgress, swept))
    ensures ApplyAll(net, CloseLast(s, order, n, isEgress, swept)).h.lost ==
      net.h.lost + Stranded(DropPeers(s, order, n).state, n)
  {
    var last, gone := CloseLast(s, order, n, isEgress, swept), Stranded(DropPeers(s, order, n).state, n);
    assert last == [DropAction(gone)] + last[1..];
    LastLoses(net, gone, last[1..]);
  }

  lemma DropLoses(s: State, net: Net, order: seq<PeerId>, n: Node)
    requires AllEnabled(net, DropOrders(s, order, n))
    ensures ApplyAll(net, DropOrders(s, order, n)).h.lost == net.h.lost
  {
    DropKeepsRooms(s, order, n);
    OrdersLose(net, DropOrders(s, order, n));
  }

  lemma CloseLoses(j: Joint, order: seq<PeerId>, n: Node, isEgress: bool, swept: bool)
    requires Coupled(j) && AllEnabled(j.net, CloseOrders(j.s, order, n, isEgress, swept))
    ensures ApplyAll(j.net, CloseOrders(j.s, order, n, isEgress, swept)).h.lost ==
      j.net.h.lost + CloseForsakes(j.s, order, n)
  {
    var first, last := DropOrders(j.s, order, n), CloseLast(j.s, order, n, isEgress, swept);
    AllEnabledSplit(j.net, first, last);
    DropLoses(j.s, j.net, order, n);
    if DropPeers(j.s, order, n).Done? {
      DropCoupled(j.s, j.net, order, n);
      CloseLastLoses(j.s, ApplyAll(j.net, first), order, n, isEgress, swept);
    } else {
      assert last == [];
    }
  }

  lemma {:induction false} JoinsKeepRooms(r: Room, ns: seq<Node>)
    ensures forall a :: a in EachJoin(r, ns) ==> !a.DropAction?
  {
    if ns != [] {
      JoinsKeepRooms(r, ns[1..]);
    }
  }

  /** A move puts these rooms out of reach and no others. */
  lemma MoveLoses(j: Joint, m: Move)
    requires Coupled(j) && Allowed(j, m)
    ensures After(j, m).net.h.lost == j.net.h.lost + Forsakes(j.s, m)
  {
    if m.Request? && m.op.Leave? && m.op.peer in j.s.peers {
      LeaveLoses(j, m.op.peer, m.op.room);
    } else if m.Request? && m.op.Close? {
      CloseLoses(j, m.op.order, m.op.server, m.op.isEgress, m.op.swept);
    } else if m.Request? && m.op.Gone? {
      GoneLoses(j.s, j.net, m.op.peer);
    } else {
      if m.Request? && m.op.Join? {
        JoinsKeepRooms(m.op.room, Joining(j.s, m.op.peer, m.op.room, m.op.ingress, m.op.egress));
      }
      OrdersLose(j.net, Orders(j.s, m));
    }
  }

  lemma LostNext(trace: seq<Joint>, moves: seq<Move>, k: nat)
    requires JointRun(trace, moves) && k < |moves|
    ensures trace[k + 1].net.h.lost == trace[k].net.h.lost + Forsakes(trace[k].s, moves[k])
  {
    AlwaysCoupled(trace, moves, k);
    MoveLoses(trace[k], moves[k]);
  }

  /** In every state of every joint run exactly those rooms were dropped untold that some move forsook. */
  lemma {:induction false} LostIff(trace: seq<Joint>, moves: seq<Move>, k: nat, r: Room)
    requires JointRun(trace, moves) && k < |trace|
    ensures r in trace[k].net.h.lost <==> exists i :: 0 <= i < k && r in Forsakes(trace[i].s, moves[i])
  {
    if k > 0 {
      LostIff(trace, moves, k - 1, r);
      LostNext(trace, moves, k - 1);
    }
  }
}
