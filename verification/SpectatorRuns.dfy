/** Runs of any operations of the signaling server and what the room counters say of spectators, and
    of the lobby once a counter is wrong. */
module SpectatorRuns {
  import opened Sfu
  import opened Signaling
  import opened ServerClose
  import opened MeshRuns
  import opened Counters

  predicate Watches(x: Peer, r: Room) {
    x.room == Some(r) && x.spectator
  }

  function Watchers(peers: map<PeerId, Peer>, r: Room): set<PeerId> {
    set p | p in peers && Watches(peers[p], r)
  }

  /** The counter of room `r` has its spectators; a room without a counter has none. */
  ghost predicate Seen(s: State, r: Room) {
    if r in s.counts then s.counts[r].spectators == |Watchers(s.peers, r)| else Watchers(s.peers, r) == {}
  }

  ghost predicate AllSeen(s: State) {
    forall r :: Seen(s, r)
  }

  lemma WatchersPut(peers: map<PeerId, Peer>, p: PeerId, x: Peer, r: Room)
    requires p in peers
    ensures |Watchers(peers[p := x], r)| == |Watchers(peers, r)| - OneIf(Watches(peers[p], r)) + OneIf(Watches(x, r))
    ensures Watchers(peers[p := x], r) - {p} == Watchers(peers, r) - {p}
  {
    var before, after := Watchers(peers, r), Watchers(peers[p := x], r);
    assert after - {p} == before - {p};
    CardinalityOf(before, p);
    CardinalityOf(after, p);
  }

  lemma WatchersDrop(peers: map<PeerId, Peer>, p: PeerId, r: Room)
    requires p in peers
    ensures |Watchers(peers - {p}, r)| == |Watchers(peers, r)| - OneIf(Watches(peers[p], r))
    ensures Watchers(peers - {p}, r) == Watchers(peers, r) - {p}
  {
    var before := Watchers(peers, r);
    assert Watchers(peers - {p}, r) == before - {p};
    CardinalityOf(before, p);
  }

  // ---------------------------------------------------------------- operations that miscount

  /** A spectator that joins another room, leaves a room that it is not in, asks for movement as a
      spectator again from the lobby, or is disconnected from a room that is gone; and a leave that closes
      a room with other spectators in it. */
  ghost predicate Overlooks(s: State, a: Operation) {
    match a
    case Join(p, r, _, _) => p in s.peers && s.peers[p].spectator && s.peers[p].room != Some(r)
    case Leave(p, r) => p in s.peers && r in s.rooms && r in s.counts && LeaveOverlooks(s, p, r)
    case Movement(p, spectator) =>
      && p in s.peers && spectator && s.peers[p].spectator && s.peers[p].lobby
      && s.peers[p].room.Some? && s.peers[p].room.value in s.counts
    case Gone(p) =>
      p in s.peers && s.peers[p].spectator && s.peers[p].room.Some? && s.peers[p].room.value !in s.rooms
    case Close(order, n, _, _) => exists p :: LostWith(s, DropPeers(s, order, n).state, p)
    case _ => false
  }

  ghost predicate LeaveOverlooks(s: State, p: PeerId, r: Room)
    requires p in s.peers && r in s.counts
  {
    var closes := Closes(Less(s.counts[r], s.peers[p])) && s.peers[p].room.Some?;
    if s.peers[p].room == Some(r) then closes && Watchers(s.peers, r) - {p} != {}
    else s.peers[p].spectator || (closes && Watchers(s.peers, r) != {})
  }

  /** A spectator that went with a server, out of a room that was gone before. */
  ghost predicate LostWith(s: State, t: State, p: PeerId) {
    p in s.peers && p !in t.peers && s.peers[p].spectator && s.peers[p].room.Some?
    && s.peers[p].room.value !in s.rooms
  }

  /** Neither spectators nor their counts change; new counters have none. */
  ghost predicate Blind(s: State, t: State) {
    && (forall r :: Watchers(t.peers, r) == Watchers(s.peers, r))
    && (forall r :: r in s.counts ==> r in t.counts && t.counts[r].spectators == s.counts[r].spectators)
    && (forall r :: r in t.counts && r !in s.counts ==> t.counts[r].spectators == 0)
  }

  lemma BlindSees(s: State, t: State)
    requires AllSeen(s) && Blind(s, t)
    ensures AllSeen(t)
  {
    forall r ensures Seen(t, r) {
      assert Seen(s, r);
    }
  }

  lemma PlainIsBlind(s: State, a: Operation)
    requires a.Create? || a.Ingress? || a.Send? || a.Count?
    ensures Blind(s, Next(s, a))
  {
    forall r ensures Watchers(Next(s, a).peers, r) == Watchers(s.peers, r) {
    }
  }

  lemma AnnouncedIsBlind(s: State, p: PeerId, e: Node)
    ensures Blind(s, Announce(s, p, e))
  {
    var t := Announce(s, p, e);
    assert t.peers.Keys == s.peers.Keys;
    forall q, r | q in s.peers ensures Watches(t.peers[q], r) == Watches(s.peers[q], r) {
    }
  }

  /** Only the rooms that the peer is in, before or after, and room `r` are affected. */
  lemma Elsewhere(s: State, t: State, p: PeerId, r: Room, q: Room)
    requires p in s.peers && p in t.peers && t.peers == s.peers[p := t.peers[p]] && Seen(s, q) && q != r
    requires q in t.counts <==> q in s.counts
    requires q in s.counts ==> t.counts[q] == s.counts[q]
    ensures Seen(t, q) <==> Watches(t.peers[p], q) == Watches(s.peers[p], q)
  {
    WatchersPut(s.peers, p, t.peers[p], q);
    if q !in s.counts && Watches(t.peers[p], q) {
      assert p in Watchers(t.peers, q);
    }
  }

  lemma LeaveSees(s: State, p: PeerId, r: Room)
    requires AllSeen(s) && p in s.peers && r in s.rooms && r in s.counts
    ensures Seen(LeaveRoom(s, p, r), r) <==>
      var closes := Closes(Less(s.counts[r], s.peers[p])) && s.peers[p].room.Some?;
      if closes then Watchers(s.peers, r) - {p} == {} else s.peers[p].room == Some(r) || !s.peers[p].spectator
  {
    var t := LeaveRoom(s, p, r);
    assert Seen(s, r);
    WatchersPut(s.peers, p, t.peers[p], r);
    assert Watchers(t.peers, r) == Watchers(s.peers, r) - {p};
  }

  lemma LeaveSeesIff(s: State, p: PeerId, r: Room)
    requires AllSeen(s) && p in s.peers && r in s.rooms && r in s.counts
    ensures AllSeen(LeaveRoom(s, p, r)) <==> !LeaveOverlooks(s, p, r)
  {
    var t := LeaveRoom(s, p, r);
    LeaveSees(s, p, r);
    forall q | q != r ensures Seen(t, q) <==> !Watches(s.peers[p], q) {
      assert Seen(s, q);
      Elsewhere(s, t, p, r, q);
    }
    if s.peers[p].room.Some? && s.peers[p].room != Some(r) {
      assert Seen(t, s.peers[p].room.value) <==> !s.peers[p].spectator;
      assert p !in Watchers(s.peers, r);
    }
    assert AllSeen(t) <==> Seen(t, r) && forall q :: q != r ==> Seen(t, q);
  }

  lemma JoinSeesIff(s: State, p: PeerId, r: Room, i: Option<Node>, e: Option<Node>)
    requires AllSeen(s) && p in s.peers
    ensures AllSeen(JoinRoom(s, p, r, i, e)) <==> !(s.peers[p].spectator && s.peers[p].room != Some(r))
  {
    var t, moved := JoinRoom(s, p, r, i, e), s.peers[p := s.peers[p].(room := Some(r))];
    forall q ensures Watchers(t.peers, q) == Watchers(moved, q) {
      assert forall x :: x in s.peers ==> x in t.peers && Watches(t.peers[x], q) == Watches(moved[x], q);
    }
    forall q ensures Seen(t, q) <==> Watches(moved[p], q) == Watches(s.peers[p], q) {
      assert Seen(s, q);
      WatchersPut(s.peers, p, moved[p], q);
      if q !in s.counts && Watches(moved[p], q) {
        assert p in Watchers(moved, q);
      }
    }
    assert Watches(moved[p], r) <==> s.peers[p].spectator;
    assert s.peers[p].spectator && s.peers[p].room != Some(r) ==> !Seen(t, r);
  }

  lemma MovementSeesIff(s: State, p: PeerId, spectator: bool)
    requires AllSeen(s)
    ensures AllSeen(ConsumeAllMovement(s, p, spectator).state) <==> !Overlooks(s, Movement(p, spectator))
  {
    if p in s.peers && s.peers[p].lobby && s.peers[p].room.Some? && s.peers[p].room.value in s.counts {
      LobbySeesIff(s, p, spectator, s.peers[p].room.value);
    } else if p in s.peers {
      MovementIsBlind(s, p, spectator);
      BlindSees(s, ConsumeAllMovement(s, p, spectator).state);
    }
  }

  /** Who is out of the lobby, in no room, or in one without a counter. */
  lemma MovementIsBlind(s: State, p: PeerId, spectator: bool)
    requires p in s.peers
    requires !s.peers[p].lobby || s.peers[p].room.None? || s.peers[p].room.value !in s.counts
    ensures Blind(s, ConsumeAllMovement(s, p, spectator).state)
  {
    var t := ConsumeAllMovement(s, p, spectator).state;
    forall r ensures Watchers(t.peers, r) == Watchers(s.peers, r) {
    }
  }

  /** And who leaves the lobby. */
  lemma LobbySeesIff(s: State, p: PeerId, spectator: bool, r: Room)
    requires AllSeen(s) && p in s.peers && s.peers[p].lobby && s.peers[p].room == Some(r) && r in s.counts
    ensures AllSeen(ConsumeAllMovement(s, p, spectator).state) <==> !(spectator && s.peers[p].spectator)
  {
    LobbyChanges(s, p, spectator, r);
    LobbyCountedIff(s, ConsumeAllMovement(s, p, spectator).state, p, spectator, r);
  }

  /** The peer is a spectator from now on if it asks as one, and is counted as one more. */
  ghost predicate LobbyChange(s: State, t: State, p: PeerId, spectator: bool, r: Room)
    requires p in s.peers && r in s.counts
  {
    && p in t.peers && t.peers == s.peers[p := t.peers[p]]
    && t.peers[p].room == s.peers[p].room && t.peers[p].spectator == (s.peers[p].spectator || spectator)
    && r in t.counts && t.counts == s.counts[r := t.counts[r]]
    && t.counts[r].spectators == s.counts[r].spectators + OneIf(spectator)
  }

  lemma LobbyChanges(s: State, p: PeerId, spectator: bool, r: Room)
    requires p in s.peers && s.peers[p].lobby && s.peers[p].room == Some(r) && r in s.counts
    ensures LobbyChange(s, ConsumeAllMovement(s, p, spectator).state, p, spectator, r)
  {
  }

  lemma LobbyCountedIff(s: State, t: State, p: PeerId, spectator: bool, r: Room)
    requires AllSeen(s) && p in s.peers && s.peers[p].room == Some(r) && r in s.counts
    requires LobbyChange(s, t, p, spectator, r)
    ensures AllSeen(t) <==> !(spectator && s.peers[p].spectator)
  {
    assert Seen(s, r);
    WatchersPut(s.peers, p, t.peers[p], r);
    forall q | q != r ensures Seen(t, q) {
      assert Seen(s, q);
      Elsewhere(s, t, p, r, q);
    }
    assert AllSeen(t) <==> Seen(t, r);
  }

  // ---------------------------------------------------------------- disconnects

  /** What disconnects have made of a room: one that there was at the start has its spectators counted,
      and is there while somebody is in it; others keep their counters. */
  ghost predicate Watched(s: State, t: State, r: Room) {
    if r in s.rooms then Seen(t, r) && (Occupied(t.peers, r) ==> r in t.rooms)
    else
      r !in t.rooms && (r in t.counts <==> r in s.counts) && (r in s.counts ==> t.counts[r] == s.counts[r])
  }

  lemma OccupiedBefore(peers: map<PeerId, Peer>, p: PeerId, r: Room)
    ensures Occupied(peers - {p}, r) ==> Occupied(peers, r)
    ensures !Occupied(peers, r) ==> Watchers(peers, r) == {}
  {
    if Occupied(peers - {p}, r) {
      var q :| q in peers - {p} && (peers - {p})[q].room == Some(r);
      assert q in peers && peers[q].room == Some(r);
    }
  }

  /** The peer that is disconnected is in the room. */
  lemma WatchedHere(s: State, t: State, p: PeerId, r: Room)
    requires Watched(s, t, r) && p in t.peers && t.peers[p].room == Some(r) && Disconnect(t, p).Done?
    ensures Watched(s, Disconnect(t, p).state, r)
  {
    WatchersDrop(t.peers, p, r);
    OccupiedBefore(t.peers, p, r);
    OccupiedBefore(t.peers - {p}, p, r);
    assert Occupied(t.peers, r);
  }

  /** Or it is elsewhere. */
  lemma WatchedElsewhere(s: State, t: State, p: PeerId, r: Room)
    requires Watched(s, t, r) && p in t.peers && t.peers[p].room != Some(r) && Disconnect(t, p).Done?
    ensures Watched(s, Disconnect(t, p).state, r)
  {
    WatchersDrop(t.peers, p, r);
    OccupiedBefore(t.peers, p, r);
  }

  lemma DisconnectWatched(s: State, t: State, p: PeerId, r: Room)
    requires Watched(s, t, r)
    ensures Watched(s, Disconnect(t, p).state, r)
  {
    if p in t.peers && Disconnect(t, p).Done? {
      if t.peers[p].room == Some(r) {
        WatchedHere(s, t, p, r);
      } else {
        WatchedElsewhere(s, t, p, r);
      }
    }
  }

  lemma {:induction false} DropWatched(s: State, order: seq<PeerId>, n: Node, r: Room)
    requires Seen(s, r)
    ensures Watched(s, DropPeers(s, order, n).state, r)
  {
    if order != [] {
      var m := |order| - 1;
      DropWatched(s, order[..m], n, r);
      DisconnectWatched(s, DropPeers(s, order[..m], n).state, order[m], r);
    }
  }

  /** A room keeps its spectators counted exactly if it was there or none of them went. */
  lemma WatchedIff(s: State, t: State, r: Room)
    requires Seen(s, r) && Watched(s, t, r)
    requires forall p :: p in t.peers ==> p in s.peers && t.peers[p] == s.peers[p]
    ensures Seen(t, r) <==> !exists p :: LostWith(s, t, p) && s.peers[p].room == Some(r)
  {
    var before, after := Watchers(s.peers, r), Watchers(t.peers, r);
    assert after <= before;
    if r !in s.rooms {
      if p :| LostWith(s, t, p) && s.peers[p].room == Some(r) {
        assert p in before;
        assert p !in after;
        SmallerSet(after, before, p);
      } else {
        forall p | p in before ensures p in after {
          assert p !in t.peers ==> LostWith(s, t, p);
        }
        assert before == after;
      }
    }
  }

  lemma SmallerSet(a: set<PeerId>, b: set<PeerId>, p: PeerId)
    requires a <= b && p in b && p !in a
    ensures |a| < |b|
  {
    assert b == a + (b - a) && p in b - a;
    assert |b| == |a| + |b - a|;
  }

  lemma LossesSeenIff(s: State, t: State, u: State)
    requires AllSeen(s) && (forall r :: Watched(s, t, r)) && u.peers == t.peers && u.counts == t.counts
    requires forall p :: p in t.peers ==> p in s.peers && t.peers[p] == s.peers[p]
    ensures AllSeen(u) <==> !exists p :: LostWith(s, t, p)
  {
    forall r: Room ensures Seen(u, r) <==> !exists p :: LostWith(s, t, p) && s.peers[p].room == Some(r) {
      assert Seen(s, r) && Watched(s, t, r);
      WatchedIff(s, t, r);
    }
    if p :| LostWith(s, t, p) {
      assert !Seen(u, s.peers[p].room.value);
    }
  }

  lemma GoneSeesIff(s: State, p: PeerId)
    requires AllSeen(s)
    ensures AllSeen(Disconnect(s, p).state) <==> !Overlooks(s, Gone(p))
  {
    var t := Disconnect(s, p).state;
    forall r ensures Watched(s, t, r) {
      assert Seen(s, r) && (r in s.rooms ==> Watched(s, s, r));
      DisconnectWatched(s, s, p, r);
    }
    LossesSeenIff(s, t, t);
    if Overlooks(s, Gone(p)) {
      assert LostWith(s, t, p);
    }
  }

  lemma CloseSeesIff(s: State, order: seq<PeerId>, n: Node, isEgress: bool, swept: bool)
    requires AllSeen(s)
    ensures AllSeen(AfterClose(s, order, n, isEgress, swept)) <==> !Overlooks(s, Close(order, n, isEgress, swept))
  {
    var t := DropPeers(s, order, n).state;
    DropFewer(s, order, n);
    forall r ensures Watched(s, t, r) {
      assert Seen(s, r);
      DropWatched(s, order, n, r);
    }
    LossesSeenIff(s, t, AfterClose(s, order, n, isEgress, swept));
  }

  // ---------------------------------------------------------------- any operation, and runs

  /** An operation keeps the spectators counted exactly if it is not one of those. */
  lemma OperationSeesIff(s: State, a: Operation)
    requires AllSeen(s)
    ensures AllSeen(Next(s, a)) <==> !Overlooks(s, a)
  {
    match a
    case Join(p, r, i, e) =>
      if p in s.peers {
        JoinSeesIff(s, p, r, i, e);
      }
    case Leave(p, r) =>
      if p in s.peers && r in s.rooms && r in s.counts {
        LeaveSeesIff(s, p, r);
      }
    case Movement(p, spectator) => MovementSeesIff(s, p, spectator);
    case Gone(p) => GoneSeesIff(s, p);
    case Close(order, n, isEgress, swept) => CloseSeesIff(s, order, n, isEgress, swept);
    case Announced(p, e) =>
      AnnouncedIsBlind(s, p, e);
      BlindSees(s, Next(s, a));
    case _ =>
      PlainIsBlind(s, a);
      BlindSees(s, Next(s, a));
  }

  /** In every state of every run the spectators are counted right up to the first operation that
      overlooks one, and that one makes a counter wrong. */
  lemma {:induction false} SeenUntil(trace: seq<State>, operations: seq<Operation>, k: nat)
    requires Run(trace, operations) && k < |trace|
    requires forall j :: 0 <= j < k - 1 ==> !Overlooks(trace[j], operations[j])
    ensures AllSeen(trace[k]) <==> k == 0 || !Overlooks(trace[k - 1], operations[k - 1])
  {
    if k == 0 {
      assert forall r :: Watchers(EMPTY.peers, r) == {};
    } else {
      SeenUntil(trace, operations, k - 1);
      OperationSeesIff(trace[k - 1], operations[k - 1]);
      assert trace[(k - 1) + 1] == Next(trace[k - 1], operations[k - 1]);
    }
  }

  // ---------------------------------------------------------------- the guard on the lobby

  ghost predicate LobbyNatural(s: State) {
    forall r :: r in s.counts ==> s.counts[r].lobby >= 0
  }

  lemma {:induction false} DropKeepsLobby(s: State, order: seq<PeerId>, n: Node)
    requires LobbyNatural(s)
    ensures LobbyNatural(DropPeers(s, order, n).state)
  {
    if order != [] {
      DropKeepsLobby(s, order[..|order| - 1], n);
    }
  }

  lemma OperationKeepsLobby(s: State, a: Operation)
    requires LobbyNatural(s)
    ensures LobbyNatural(Next(s, a))
  {
    match a
    case Close(order, n, _, _) => DropKeepsLobby(s, order, n);
    case _ =>
  }

  /** Whatever is miscounted, no lobby is ever counted below zero, in any state of any run. */
  lemma {:induction false} LobbyNeverNegative(trace: seq<State>, operations: seq<Operation>, k: nat)
    requires Run(trace, operations) && k < |trace|
    ensures LobbyNatural(trace[k])
  {
    if k > 0 {
      LobbyNeverNegative(trace, operations, k - 1);
      OperationKeepsLobby(trace[k - 1], operations[k - 1]);
      assert trace[(k - 1) + 1] == Next(trace[k - 1], operations[k - 1]);
    }
  }
}
