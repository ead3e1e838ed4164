/** Runs of any operations of the signaling server, and what becomes of the movement that egress
    servers announce: which operations lose some to a peer out of the lobby, and runs that lose none. */
module MovementRuns {
  import opened Sfu
  import opened Signaling
  import opened ServerClose
  import opened MeshRuns

  /** A request for all movement that goes through, by a peer for whom something was announced by an
      egress server that is not routed; or a join into a room, or out of the lobby, with something
      announced and unheard. */
  ghost predicate Loses(s: State, a: Operation) {
    match a
    case Movement(p, _) => p in s.peers && GoesThrough(s, p) && !AllRouted(s, p)
    case Join(p, r, _, _) => p in s.peers && JoinMisses(s, p, r)
    case _ => false
  }

  predicate GoesThrough(s: State, p: PeerId)
    requires p in s.peers
  {
    s.peers[p].room.Some? && (s.peers[p].lobby ==> s.peers[p].room.value in s.counts)
  }

  // ---------------------------------------------------------------- one operation

  /** Who is left is where it was, in the lobby or not, with the same movement. */
  ghost predicate Quiet(s: State, t: State) {
    forall p :: p in t.peers ==>
      p in s.peers && t.peers[p].room == s.peers[p].room && t.peers[p].lobby == s.peers[p].lobby
      && t.peers[p].announced == s.peers[p].announced && t.peers[p].asked == s.peers[p].asked
  }

  lemma QuietLosesNone(s: State, t: State)
    requires NoneLost(s) && Quiet(s, t)
    ensures NoneLost(t)
  {
    forall a, b | a in t.peers && b in t.peers && Listener(t, a, b) ensures Heard(t, a, b) {
      assert Listener(s, a, b) && Heard(s, a, b);
    }
  }

  lemma {:induction false} DropIsQuiet(s: State, order: seq<PeerId>, n: Node)
    ensures Quiet(s, DropPeers(s, order, n).state)
  {
    if order != [] {
      DropIsQuiet(s, order[..|order| - 1], n);
    }
  }

  lemma OthersAreQuiet(s: State, a: Operation)
    requires a.Ingress? || a.Send? || a.Count? || a.Gone? || a.Close?
    ensures Quiet(s, Next(s, a))
  {
    if a.Close? {
      DropIsQuiet(s, a.order, a.server);
    }
  }

  lemma CreateLosesNone(s: State, p: PeerId)
    requires NoneLost(s)
    ensures NoneLost(CreatePeer(s, p))
  {
    var t := CreatePeer(s, p);
    forall a, b | a in t.peers && b in t.peers && Listener(t, a, b) ensures Heard(t, a, b) {
      assert Listener(s, a, b) && Heard(s, a, b);
    }
  }

  lemma MovementLosesIff(s: State, p: PeerId, spectator: bool)
    requires NoneLost(s)
    ensures NoneLost(ConsumeAllMovement(s, p, spectator).state) <==> !Loses(s, Movement(p, spectator))
  {
    if p in s.peers {
      if GoesThrough(s, p) {
        PullLosesNoneIff(s, p, spectator);
      } else if s.peers[p].room.None? {
        QuietLosesNone(s, ConsumeAllMovement(s, p, spectator).state);
      }
    }
  }

  /** Every operation, on every state that has lost no movement yet: it loses some exactly if it is one
      of those two. */
  lemma OperationLosesIff(s: State, a: Operation)
    requires NoneLost(s)
    ensures NoneLost(Next(s, a)) <==> !Loses(s, a)
  {
    match a
    case Create(p) => CreateLosesNone(s, p);
    case Join(p, r, i, e) =>
      if p in s.peers {
        JoinLosesNoneIff(s, p, r, i, e);
      }
    case Leave(p, r) => LeaveLosesNone(s, p, r);
    case Movement(p, spectator) => MovementLosesIff(s, p, spectator);
    case Announced(p, e) => AnnounceLosesNone(s, p, e);
    case _ =>
      OthersAreQuiet(s, a);
      QuietLosesNone(s, Next(s, a));
  }

  /** Up to the first operation that loses movement, none is lost in any state of any run; and that
      one does lose some. */
  lemma {:induction false} NoneLostUntil(trace: seq<State>, operations: seq<Operation>, k: nat)
    requires Run(trace, operations) && k < |trace|
    requires forall j :: 0 <= j < k - 1 ==> !Loses(trace[j], operations[j])
    ensures NoneLost(trace[k]) <==> k == 0 || !Loses(trace[k - 1], operations[k - 1])
  {
    if k > 0 {
      NoneLostUntil(trace, operations, k - 1);
      OperationLosesIff(trace[k - 1], operations[k - 1]);
      assert trace[(k - 1) + 1] == Next(trace[k - 1], operations[k - 1]);
    }
  }

  // ---------------------------------------------------------------- runs that lose nothing

  /** Peers join from no room; announcements come from egress servers that the peer's room lists; a
      leave that closes its room leaves nobody in it; and when a server closes, the rooms that name it
      hold only its own peers. */
  ghost predicate Orderly(s: State, a: Operation) {
    match a
    case Join(p, _, _, _) => p in s.peers ==> s.peers[p].room.None?
    case Announced(p, e) => p in s.peers ==> s.peers[p].room.Some? && ListedFor(s, s.peers[p].room.value, {e})
    case Leave(p, r) =>
      p in s.peers && r in s.rooms && r in s.counts && Closes(Less(s.counts[r], s.peers[p])) ==>
        !Occupied(s.peers - {p}, r)
    case Close(order, n, _, _) =>
      && (forall p :: p in s.peers ==> p in order)
      && (forall p, r :: p in s.peers && r in s.rooms && s.peers[p].room == Some(r) && Names(s.rooms[r], n) ==>
        On(s.peers[p], n))
    case _ => true
  }

  ghost predicate ListedFor(s: State, r: Room, servers: set<Node>) {
    r in s.rooms && servers <= Elements(s.rooms[r].egress)
  }

  /** Whoever is in no room is in the lobby with nothing announced; whatever was announced in a room
      came from egress servers that the room still lists. */
  ghost predicate Located(s: State) {
    forall p :: p in s.peers ==> LocatedPeer(s, p)
  }

  ghost predicate LocatedPeer(s: State, p: PeerId)
    requires p in s.peers
  {
    match s.peers[p].room
    case None => s.peers[p].lobby && s.peers[p].announced == {}
    case Some(r) => s.peers[p].announced == {} || ListedFor(s, r, s.peers[p].announced)
  }

  lemma LocatedLosesNone(s: State, a: Operation)
    requires Located(s) && TablesAgree(s) && Orderly(s, a)
    ensures !Loses(s, a)
  {
    match a
    case Join(p, r, i, e) =>
      if p in s.peers {
        assert LocatedPeer(s, p);
      }
    case Movement(p, spectator) =>
      if p in s.peers && GoesThrough(s, p) {
        LocatedIsRouted(s, p);
      }
    case _ =>
  }

  lemma LocatedIsRouted(s: State, p: PeerId)
    requires Located(s) && TablesAgree(s) && p in s.peers && s.peers[p].room.Some?
    ensures AllRouted(s, p)
  {
    forall q, e | q in s.peers && q != p && s.peers[q].room == s.peers[p].room && e in s.peers[q].announced
      ensures (q, e) in s.peers[p].asked + AllMovement(s, p)
    {
      assert LocatedPeer(s, q);
    }
  }

  /** Rooms that somebody is in keep what they list. */
  ghost predicate Settled(s: State, t: State) {
    && (forall p :: p in t.peers ==>
          p in s.peers && t.peers[p].room == s.peers[p].room && t.peers[p].announced == s.peers[p].announced
          && (s.peers[p].lobby ==> t.peers[p].lobby || t.peers[p].room.Some?))
    && (forall p, r :: p in t.peers && t.peers[p].room == Some(r) && r in s.rooms ==>
      r in t.rooms && t.rooms[r] == s.rooms[r])
  }

  lemma SettledIsLocated(s: State, t: State)
    requires Located(s) && Settled(s, t)
    ensures Located(t)
  {
    forall p | p in t.peers ensures LocatedPeer(t, p) {
      assert LocatedPeer(s, p);
    }
  }

  lemma DisconnectSettles(s: State, t: State, p: PeerId)
    requires Settled(s, t)
    ensures Settled(s, Disconnect(t, p).state)
  {
  }

  lemma {:induction false} DropSettles(s: State, order: seq<PeerId>, n: Node)
    ensures Settled(s, DropPeers(s, order, n).state)
  {
    if order != [] {
      var m := |order| - 1;
      DropSettles(s, order[..m], n);
      DisconnectSettles(s, DropPeers(s, order[..m], n).state, order[m]);
    }
  }

  /** Whoever is left after a close is in a room that does not name the server, or in none. */
  lemma CloseSettles(s: State, order: seq<PeerId>, n: Node, isEgress: bool, swept: bool)
    requires Placed(s) && Orderly(s, Close(order, n, isEgress, swept))
    ensures Settled(s, AfterClose(s, order, n, isEgress, swept))
  {
    DropSettles(s, order, n);
    if DropRoute(s, order, n).Done? {
      DropLeavesNone(s, order, n);
      DropFewer(s, order, n);
      var t, u := DropPeers(s, order, n).state, AfterClose(s, order, n, isEgress, swept);
      forall p, r | p in u.peers && u.peers[p].room == Some(r) && r in s.rooms
        ensures r in u.rooms && u.rooms[r] == s.rooms[r]
      {
        assert p in order && !On(t.peers[p], n);
        assert !Names(s.rooms[r], n);
      }
    }
  }

  lemma JoinLocated(s: State, p: PeerId, r: Room, i: Option<Node>, e: Option<Node>)
    requires Located(s) && Orderly(s, Join(p, r, i, e))
    ensures Located(JoinRoom(s, p, r, i, e))
  {
    if p in s.peers {
      var t := JoinRoom(s, p, r, i, e);
      JoinSpares(s, p, r, i, e);
      if i.Some? && e.Some? {
        WithElements(ListsOf(s, r).egress, e.value);
      }
      forall q | q in t.peers ensures LocatedPeer(t, q) {
        assert LocatedPeer(s, q);
      }
    }
  }

  lemma LeaveLocated(s: State, p: PeerId, r: Room)
    requires Located(s) && Orderly(s, Leave(p, r))
    ensures Located(LeaveRoom(s, p, r))
  {
    var t := LeaveRoom(s, p, r);
    forall q | q in t.peers ensures LocatedPeer(t, q) {
      assert LocatedPeer(s, q);
      assert q != p && s.peers[q].room == Some(r) ==> q in s.peers - {p} && (s.peers - {p})[q].room == Some(r);
    }
  }

  lemma AnnouncedLocated(s: State, p: PeerId, e: Node)
    requires Located(s) && Orderly(s, Announced(p, e))
    ensures Located(Announce(s, p, e))
  {
    var t := Announce(s, p, e);
    forall q | q in t.peers ensures LocatedPeer(t, q) {
      assert LocatedPeer(s, q);
    }
  }

  lemma CreateLocated(s: State, p: PeerId)
    requires Located(s)
    ensures Located(CreatePeer(s, p))
  {
    var t := CreatePeer(s, p);
    forall q | q in t.peers ensures LocatedPeer(t, q) {
      assert q in s.peers ==> LocatedPeer(s, q);
    }
  }

  lemma MovementSettles(s: State, p: PeerId, spectator: bool)
    ensures Settled(s, ConsumeAllMovement(s, p, spectator).state)
  {
  }

  lemma OthersSettle(s: State, a: Operation)
    requires a.Ingress? || a.Send? || a.Count?
    ensures Settled(s, Next(s, a))
  {
  }

  lemma OperationLocated(s: State, a: Operation)
    requires Located(s) && Placed(s) && Orderly(s, a)
    ensures Located(Next(s, a))
  {
    match a
    case Create(p) => CreateLocated(s, p);
    case Join(p, r, i, e) => JoinLocated(s, p, r, i, e);
    case Leave(p, r) => LeaveLocated(s, p, r);
    case Announced(p, e) => AnnouncedLocated(s, p, e);
    case Movement(p, spectator) =>
      MovementSettles(s, p, spectator);
      SettledIsLocated(s, Next(s, a));
    case Close(order, n, isEgress, swept) =>
      CloseSettles(s, order, n, isEgress, swept);
      SettledIsLocated(s, Next(s, a));
    case Gone(p) =>
      DisconnectSettles(s, s, p);
      SettledIsLocated(s, Next(s, a));
    case _ =>
      OthersSettle(s, a);
      SettledIsLocated(s, Next(s, a));
  }

  lemma {:induction false} AlwaysLocated(trace: seq<State>, operations: seq<Operation>, k: nat)
    requires Run(trace, operations) && k < |trace|
    requires forall j :: 0 <= j < k ==> Orderly(trace[j], operations[j])
    ensures Located(trace[k])
  {
    if k > 0 {
      AlwaysLocated(trace, operations, k - 1);
      AlwaysPlaced(trace, operations, k - 1);
      OperationLocated(trace[k - 1], operations[k - 1]);
      assert trace[(k - 1) + 1] == Next(trace[k - 1], operations[k - 1]);
    }
  }

  /** No movement is lost in any state of an orderly run - with spectators, without send or ingress
      transports, with failed selections, exceptions and the close of servers. */
  lemma {:induction false} OrderlyRunsLoseNone(trace: seq<State>, operations: seq<Operation>, k: nat)
    requires Run(trace, operations) && k < |trace|
    requires forall j :: 0 <= j < k ==> Orderly(trace[j], operations[j])
    ensures NoneLost(trace[k])
  {
    if k > 0 {
      OrderlyRunsLoseNone(trace, operations, k - 1);
      AlwaysLocated(trace, operations, k - 1);
      TablesAlwaysAgree(trace, operations, k - 1);
      LocatedLosesNone(trace[k - 1], operations[k - 1]);
      OperationLosesIff(trace[k - 1], operations[k - 1]);
      assert trace[(k - 1) + 1] == Next(trace[k - 1], operations[k - 1]);
    }
  }

  // ---------------------------------------------------------------- a close that does lose some

  ghost predicate Reachable(s: State) {
    exists trace, operations :: Run(trace, operations) && trace[|operations|] == s
  }

  lemma ReachNext(s: State, a: Operation)
    requires Reachable(s)
    ensures Reachable(Next(s, a))
  {
    var trace, operations :| Run(trace, operations) && trace[|operations|] == s;
    var trace', operations' := trace + [Next(s, a)], operations + [a];
    forall k | 0 <= k < |operations'| ensures trace'[k + 1] == Next(trace'[k], operations'[k]) {
      assert k < |operations| ==>
        trace'[k] == trace[k] && trace'[k + 1] == trace[k + 1] && operations'[k] == operations[k];
    }
    assert Run(trace', operations') && trace'[|operations'|] == Next(s, a);
  }

  /** Peer `p` is in room 5 on egress server `e`, in the lobby, asked for nothing. */
  ghost predicate Waits(s: State, p: PeerId, e: Node, announced: set<Node>) {
    && p in s.peers && s.peers[p].room == Some(5) && s.peers[p].ingress == Some(10) && s.peers[p].egress == Some(e)
    && s.peers[p].lobby && s.peers[p].asked == {} && s.peers[p].announced == announced
  }

  /** Peers 0, 1 and 2 are in room 5, which lists egress servers 20 and 21; peer 2 is on 21. */
  ghost predicate Together(s: State, announced: set<Node>) {
    && Reachable(s) && s.peers.Keys == {0, 1, 2}
    && Waits(s, 0, 20, announced) && Waits(s, 1, 20, {}) && Waits(s, 2, 21, {})
    && s.rooms == map[5 := Lists([10], [20, 21])] && s.table == s.rooms
  }

  lemma Created() returns (s: State)
    ensures Reachable(s) && s.peers == map[0 := NOBODY, 1 := NOBODY, 2 := NOBODY]
    ensures s.rooms == map[] && s.table == map[]
  {
    s := EMPTY;
    assert Run([EMPTY], []) && [EMPTY][0] == EMPTY;
    ReachNext(s, Create(0));
    s := Next(s, Create(0));
    ReachNext(s, Create(1));
    s := Next(s, Create(1));
    ReachNext(s, Create(2));
    s := Next(s, Create(2));
  }

  /** A peer joins room 5. */
  lemma JoinsFive(s: State, p: PeerId, e: Node) returns (t: State)
    requires Reachable(s) && p in s.peers && s.peers[p] == NOBODY
    ensures Reachable(t) && t.peers.Keys == s.peers.Keys && Waits(t, p, e, {})
    ensures forall q, x, y :: q != p && Waits(s, q, x, y) ==> Waits(t, q, x, y)
    ensures forall q :: q in s.peers && q != p && s.peers[q] == NOBODY ==> t.peers[q] == NOBODY
    ensures var lists := ListsOf(s, 5); var lists' := Lists(With(lists.ingress, 10), With(lists.egress, e));
      s.rooms.Keys <= {5} && s.table == s.rooms ==> t.rooms == map[5 := lists'] && t.table == t.rooms
  {
    ReachNext(s, Join(p, 5, Some(10), Some(e)));
    t := Next(s, Join(p, 5, Some(10), Some(e)));
  }

  lemma Servers()
    ensures With([], 10) == [10] && With([10], 10) == [10]
    ensures With([], 20) == [20] && With([20], 20) == [20] && With([20], 21) == [20, 21]
  {
  }

  lemma Joined() returns (s: State)
    ensures Together(s, {})
  {
    Servers();
    s := Created();
    s := JoinsFive(s, 0, 20);
    assert s.rooms[5] == Lists([10], [20]);
    s := JoinsFive(s, 1, 20);
    assert s.rooms[5] == Lists([10], [20]);
    s := JoinsFive(s, 2, 21);
  }

  /** Peers 0 and 1 have ingress transports, peer 0 sends, and its movement was announced. */
  lemma Announcing() returns (s: State)
    ensures Together(s, {20}) && 5 in s.counts
  {
    s := Joined();
    s := Counted(s);
    ReachNext(s, Announced(0, 20));
    assert {} + {20} == {20};
    s := Next(s, Announced(0, 20));
  }

  lemma Counted(s: State) returns (t: State)
    requires Together(s, {})
    ensures Together(t, {}) && 5 in t.counts
  {
    t := CountedIn(s, 1);
    t := CountedIn(t, 0);
    ReachNext(t, Send(0));
    t := Next(t, Send(0));
  }

  lemma CountedIn(s: State, p: PeerId) returns (t: State)
    requires Together(s, {}) && p in {0, 1}
    ensures Together(t, {}) && 5 in t.counts
  {
    ReachNext(s, Ingress(p));
    t := Next(s, Ingress(p));
  }

  lemma CloseOf21(s: State)
    requires Together(s, {20}) && 5 in s.counts
    ensures var t := Next(s, Close([0, 1, 2], 21, true, true));
      && t.peers == s.peers - {2} && t.table == map[] && 5 in t.counts
  {
    var order := [0, 1, 2];
    assert order[..2] == [0, 1] && [0, 1][..1] == [0] && [0][..0] == [];
    assert DropPeers(s, [], 21) == Done(s);
    assert DropPeers(s, [0], 21) == Done(s);
    assert DropPeers(s, [0, 1], 21) == Done(s);
    assert Occupied(s.peers - {2}, 5) by { assert 0 in s.peers - {2}; }
    assert DropPeers(s, order, 21) == Disconnect(s, 2);
  }

  /** An egress server closes that other peers of the room are on; the room goes from both tables,
      though peers 0 and 1 stay in it, and peer 1 leaves the lobby without the movement of peer 0,
      which server 20 had announced. */
  lemma CloseLosesMovement() returns (s: State)
    ensures Reachable(s) && !Orderly(s, Close([0, 1, 2], 21, true, true))
    ensures var t := Next(s, Close([0, 1, 2], 21, true, true));
      Reachable(t) && NoneLost(t) && Loses(t, Movement(1, false)) && !NoneLost(Next(t, Movement(1, false)))
  {
    s := Announcing();
    var a := Close([0, 1, 2], 21, true, true);
    var t := Next(s, a);
    ReachNext(s, a);
    CloseOf21(s);
    assert 1 in t.peers && 0 in t.peers;
    assert AllMovement(t, 1) == {};
    assert 20 in t.peers[0].announced && !AllRouted(t, 1);
    OperationLosesIff(t, Movement(1, false));
    assert Names(s.rooms[5], 21) && !On(s.peers[0], 21);
  }
}
