/** Runs of any operations of the signaling server, and whether its counters stay right: which
    operations miscount, and runs until the first of them. */
module CounterRuns {
  import opened Sfu
  import opened Signaling
  import opened Counters
  import opened MeshRuns

  // ---------------------------------------------------------------- what miscounts

  predicate Counted(x: Peer) {
    x.counted || x.participant
  }

  /** The peers that a close disconnects. */
  function Dropped(s: State, order: seq<PeerId>, n: Node): set<PeerId> {
    s.peers.Keys - DropPeers(s, order, n).state.peers.Keys
  }

  /** The close of a server miscounts in room `r`: it disconnects a peer there that was not counted and
      leaves somebody in the room, or the room was gone before and the peer was counted. */
  predicate DropMiscounts(s: State, t: State, p: PeerId)
    requires p in s.peers && s.peers[p].room.Some?
  {
    var r := s.peers[p].room.value;
    if r in s.rooms then !s.peers[p].counted && Occupied(t.peers, r) else Counted(s.peers[p])
  }

  predicate CloseMiscounts(s: State, order: seq<PeerId>, n: Node) {
    exists p :: p in Dropped(s, order, n) && s.peers[p].room.Some? && DropMiscounts(s, DropPeers(s, order, n).state, p)
  }

  predicate LeaveMiscounts(s: State, p: PeerId, r: Room)
    requires p in s.peers
  {
    && r in s.rooms && r in s.counts
    && if s.peers[p].room == Some(r) then
         if Closes(Less(s.counts[r], s.peers[p])) then OthersCounted(s, p, r) != {} else !s.peers[p].counted
       else
         s.peers[p].room.None? || Counted(s.peers[p]) || !NobodyCounted(s.peers, r)
  }

  predicate GoneMiscounts(s: State, p: PeerId, r: Room)
    requires p in s.peers
  {
    if r !in s.rooms then Counted(s.peers[p])
    else r in s.counts && Occupied(s.peers - {p}, r) && !s.peers[p].counted
  }

  predicate MovementMiscounts(s: State, p: PeerId, r: Room)
    requires p in s.peers
  {
    s.peers[p].lobby && !s.peers[p].counted && r in s.counts && s.counts[r].lobby > 0
  }

  /** When an operation makes counters wrong that were right. */
  predicate Miscounts(s: State, a: Operation) {
    match a
    case Join(p, r, _, _) => p in s.peers && s.peers[p].room != Some(r) && Counted(s.peers[p])
    case Leave(p, r) => p in s.peers && LeaveMiscounts(s, p, r)
    case Ingress(p) => p in s.peers && s.peers[p].room.Some? && (s.peers[p].counted || !s.peers[p].lobby)
    case Send(p) =>
      p in s.peers && s.peers[p].room.Some? && (s.peers[p].participant || s.peers[p].room.value !in s.counts)
    case Movement(p, _) => p in s.peers && s.peers[p].room.Some? && MovementMiscounts(s, p, s.peers[p].room.value)
    case Gone(p) => p in s.peers && s.peers[p].room.Some? && GoneMiscounts(s, p, s.peers[p].room.value)
    case Close(order, n, _, _) => CloseMiscounts(s, order, n)
    case _ => false
  }

  // ---------------------------------------------------------------- operations of one peer

  /** Nothing that is counted changes. */
  ghost predicate Uncounting(s: State, t: State) {
    && t.counts == s.counts && t.peers.Keys == s.peers.Keys
    && forall p :: p in s.peers ==>
         t.peers[p].room == s.peers[p].room && t.peers[p].lobby == s.peers[p].lobby
         && t.peers[p].counted == s.peers[p].counted && t.peers[p].participant == s.peers[p].participant
  }

  lemma UncountingKeeps(s: State, t: State)
    requires AllCount(s) && Uncounting(s, t)
    ensures AllCount(t)
  {
    forall r ensures Counts(t, r) {
      assert Counts(s, r);
      assert forall k :: Where(t.peers, r, k) == Where(s.peers, r, k);
    }
  }

  lemma CreateCounts(s: State, p: PeerId)
    requires AllCount(s)
    ensures AllCount(CreatePeer(s, p))
  {
    var t := CreatePeer(s, p);
    forall r ensures Counts(t, r) {
      assert Counts(s, r);
      assert forall k :: Where(t.peers, r, k) == Where(s.peers, r, k);
    }
  }

  /** A send transport of a peer whose room has no counter is not counted at all. */
  lemma SendUncounted(s: State, p: PeerId, r: Room)
    requires p in s.peers && s.peers[p].room == Some(r) && r !in s.counts
    ensures !AllCount(ConnectSend(s, p).state)
  {
    var t := ConnectSend(s, p).state;
    assert p in Where(t.peers, r, Participants);
    assert !Counts(t, r);
  }

  lemma SendCountsIff(s: State, p: PeerId)
    requires AllCount(s)
    ensures AllCount(ConnectSend(s, p).state) <==> !Miscounts(s, Send(p))
  {
    if p in s.peers && s.peers[p].room.Some? {
      var r := s.peers[p].room.value;
      if r in s.counts {
        ConnectCountsIff(s, p, r);
      } else {
        SendUncounted(s, p, r);
      }
    }
  }

  lemma MovementCountsIff(s: State, p: PeerId, spectator: bool)
    requires AllCount(s)
    ensures AllCount(ConsumeAllMovement(s, p, spectator).state) <==> !Miscounts(s, Movement(p, spectator))
  {
    if p in s.peers {
      if s.peers[p].room.Some? && s.peers[p].room.value in s.counts {
        assert Counts(s, s.peers[p].room.value);
        ConsumeCountsIff(s, p, s.peers[p].room.value, spectator);
      } else {
        UncountingKeeps(s, ConsumeAllMovement(s, p, spectator).state);
      }
    }
  }

  /** A peer whose room is gone takes its count with it, which the counter does not see. */
  lemma GoneUnroomed(s: State, p: PeerId, r: Room)
    requires AllCount(s) && p in s.peers && s.peers[p].room == Some(r) && r !in s.rooms
    ensures AllCount(Disconnect(s, p).state) <==> !Counted(s.peers[p])
  {
    var t := Disconnect(s, p).state;
    assert Counts(s, r);
    TallyDrop(s.peers, p, r, All);
    TallyDrop(s.peers, p, r, Lobby);
    TallyDrop(s.peers, p, r, Participants);
    NoneTallied(s.peers, r, All);
    NoneTallied(s.peers, r, Participants);
    NoneTallied(t.peers, r, All);
    NoneTallied(t.peers, r, Participants);
    OtherRooms(s, t, p, r);
    assert AllCount(t) <==> Counts(t, r);
  }

  lemma GoneCountsIff(s: State, p: PeerId)
    requires AllCount(s)
    ensures AllCount(Disconnect(s, p).state) <==> !Miscounts(s, Gone(p))
  {
    if p in s.peers && s.peers[p].room.Some? {
      var r := s.peers[p].room.value;
      if r !in s.rooms {
        GoneUnroomed(s, p, r);
      } else if r in s.counts {
        DisconnectCountsIff(s, p, r);
      }
    }
  }

  // ---------------------------------------------------------------- the close of a server

  /** Those of room `r` that are gone in `t`. */
  function GoneFrom(s: State, t: State, r: Room): set<PeerId> {
    set p | p in s.peers && p !in t.peers && s.peers[p].room == Some(r)
  }

  function Uncounted(s: State, t: State, r: Room): set<PeerId> {
    set p | p in GoneFrom(s, t, r) && !s.peers[p].counted
  }

  /** Whoever is left is as before. */
  predicate Fewer(s: State, t: State) {
    forall p :: p in t.peers ==> p in s.peers && t.peers[p] == s.peers[p]
  }

  /** A room with a counter: one that is still open has lost one in the counter for each peer that is
      gone, counted or not; an empty one has no counter left. */
  ghost predicate OpenRoom(s: State, t: State, r: Room) {
    if r in t.counts then
      && r in t.rooms && t.counts[r].peers == Tally(t.peers, r, All) - |Uncounted(s, t, r)|
      && (Uncounted(s, t, r) == {} ==> Counts(t, r)) && (GoneFrom(s, t, r) != {} ==> Occupied(t.peers, r))
    else
      r !in t.rooms && !Occupied(t.peers, r)
  }

  /** What a close has made of room `r` so far. */
  ghost predicate RoomSoFar(s: State, t: State, r: Room) {
    && (r in s.rooms && r in s.counts ==> OpenRoom(s, t, r))
    && (r in s.rooms && r !in s.counts ==> r in t.rooms && r !in t.counts && GoneFrom(s, t, r) == {})
    && (r !in s.rooms ==>
      r !in t.rooms && (r in t.counts <==> r in s.counts) && (r in s.counts ==> t.counts[r] == s.counts[r]))
  }

  lemma NoneSoFar(s: State, r: Room)
    requires Counts(s, r)
    ensures RoomSoFar(s, s, r)
  {
    assert GoneFrom(s, s, r) == {} && Uncounted(s, s, r) == {};
  }

  lemma OneGone(s: State, t: State, t': State, p: PeerId, r: Room)
    requires Fewer(s, t) && p in t.peers && t'.peers == t.peers - {p}
    ensures GoneFrom(s, t', r) == GoneFrom(s, t, r) + if s.peers[p].room == Some(r) then {p} else {}
    ensures Uncounted(s, t', r)
         == Uncounted(s, t, r) + if s.peers[p].room == Some(r) && !s.peers[p].counted then {p} else {}
    ensures p !in Uncounted(s, t, r)
  {
  }

  /** The peer that is disconnected is elsewhere. */
  lemma ElsewhereSoFar(s: State, t: State, p: PeerId, r: Room)
    requires Fewer(s, t) && RoomSoFar(s, t, r) && p in t.peers && t.peers[p].room != Some(r) && Disconnect(t, p).Done?
    ensures RoomSoFar(s, Disconnect(t, p).state, r)
  {
    var t' := Disconnect(t, p).state;
    if t' != t {
      OneGone(s, t, t', p, r);
      SameWhere(t.peers, t'.peers, p, r, All);
      SameWhere(t.peers, t'.peers, p, r, Lobby);
      SameWhere(t.peers, t'.peers, p, r, Participants);
      assert Occupied(t.peers, r) ==> Occupied(t'.peers, r) by {
        if Occupied(t.peers, r) {
          var q :| q in t.peers && t.peers[q].room == Some(r);
          assert q in t'.peers;
        }
      }
    }
  }

  /** Or the room is open and somebody stays. */
  lemma StillOpen(s: State, t: State, p: PeerId, r: Room)
    requires Fewer(s, t) && OpenRoom(s, t, r) && p in t.peers && t.peers[p].room == Some(r)
    requires r in t.rooms && r in t.counts && Occupied(t.peers - {p}, r)
    ensures OpenRoom(s, Disconnect(t, p).state, r)
  {
    var t' := Disconnect(t, p).state;
    OneGone(s, t, t', p, r);
    TallyDrop(t.peers, p, r, All);
    TallyDrop(t.peers, p, r, Lobby);
    TallyDrop(t.peers, p, r, Participants);
    if t.peers[p].counted && t.peers[p].lobby && Uncounted(s, t, r) == {} {
      LobbyCounted(t, p, r);
    }
  }

  lemma HereSoFar(s: State, t: State, p: PeerId, r: Room)
    requires Fewer(s, t) && RoomSoFar(s, t, r) && p in t.peers && t.peers[p].room == Some(r) && Disconnect(t, p).Done?
    ensures RoomSoFar(s, Disconnect(t, p).state, r)
  {
    if r in s.rooms && r in s.counts {
      if r in t.counts && Occupied(t.peers - {p}, r) {
        StillOpen(s, t, p, r);
      } else {
        assert Occupied(t.peers, r);
      }
    }
  }

  lemma {:induction false} SoFar(s: State, order: seq<PeerId>, n: Node, r: Room)
    requires Counts(s, r)
    ensures var t := DropPeers(s, order, n).state; Fewer(s, t) && RoomSoFar(s, t, r)
  {
    if order == [] {
      NoneSoFar(s, r);
    } else {
      var last := order[|order| - 1];
      SoFar(s, order[..|order| - 1], n, r);
      var o := DropPeers(s, order[..|order| - 1], n);
      if o.Done? && last in o.state.peers && On(o.state.peers[last], n) {
        DisconnectSoFar(s, o.state, last, r);
      }
    }
  }

  lemma DisconnectSoFar(s: State, t: State, p: PeerId, r: Room)
    requires Fewer(s, t) && RoomSoFar(s, t, r) && p in t.peers
    ensures Fewer(s, Disconnect(t, p).state) && RoomSoFar(s, Disconnect(t, p).state, r)
  {
    if Disconnect(t, p).Done? {
      if t.peers[p].room == Some(r) {
        HereSoFar(s, t, p, r);
      } else {
        ElsewhereSoFar(s, t, p, r);
      }
    }
  }

  predicate RoomMiscounts(s: State, t: State, r: Room) {
    exists p :: p in GoneFrom(s, t, r) && DropMiscounts(s, t, p)
  }

  lemma OpenRoomIff(s: State, t: State, r: Room)
    requires Fewer(s, t) && OpenRoom(s, t, r) && r in s.rooms
    ensures Counts(t, r) <==> !RoomMiscounts(s, t, r)
  {
    if r !in t.counts {
      EmptyRoom(t.peers, r);
    } else if Uncounted(s, t, r) != {} {
      var p :| p in Uncounted(s, t, r);
      assert p in GoneFrom(s, t, r) && DropMiscounts(s, t, p);
      assert |Uncounted(s, t, r)| > 0;
    } else {
      forall p | p in GoneFrom(s, t, r) ensures !DropMiscounts(s, t, p) {
        assert p !in Uncounted(s, t, r);
      }
    }
  }

  lemma GoneRoomIff(s: State, t: State, r: Room)
    requires Fewer(s, t) && Counts(s, r) && RoomSoFar(s, t, r) && r !in s.rooms
    ensures Counts(t, r) <==> !RoomMiscounts(s, t, r)
  {
    if RoomMiscounts(s, t, r) {
      var p :| p in GoneFrom(s, t, r) && DropMiscounts(s, t, p);
      var k := if s.peers[p].counted then All else Participants;
      assert p in Where(s.peers, r, k) - Where(t.peers, r, k);
      FewerTallied(s, t, r, k);
    } else {
      forall k ensures Where(t.peers, r, k) == Where(s.peers, r, k) {
        forall p | p in Where(s.peers, r, k) ensures p in t.peers {
          assert p !in t.peers ==> p in GoneFrom(s, t, r) && DropMiscounts(s, t, p);
        }
      }
    }
  }

  lemma FewerTallied(s: State, t: State, r: Room, k: Kind)
    requires Fewer(s, t) && Where(s.peers, r, k) - Where(t.peers, r, k) != {}
    ensures Tally(t.peers, r, k) < Tally(s.peers, r, k)
  {
    var before, after := Where(s.peers, r, k), Where(t.peers, r, k);
    assert after <= before && before == after + (before - after);
    assert |before| == |after| + |before - after|;
  }

  lemma UncountedRoomIff(s: State, t: State, r: Room)
    requires Fewer(s, t) && Counts(s, r) && RoomSoFar(s, t, r) && r in s.rooms && r !in s.counts
    ensures Counts(t, r) && !RoomMiscounts(s, t, r)
  {
    forall k ensures Where(t.peers, r, k) == Where(s.peers, r, k) {
      forall p | p in Where(s.peers, r, k) ensures p in t.peers {
        assert p !in t.peers ==> p in GoneFrom(s, t, r);
      }
    }
  }

  lemma RoomIff(s: State, order: seq<PeerId>, n: Node, r: Room)
    requires Counts(s, r)
    ensures var t := DropPeers(s, order, n).state; Counts(t, r) <==> !RoomMiscounts(s, t, r)
  {
    var t := DropPeers(s, order, n).state;
    SoFar(s, order, n, r);
    if r !in s.rooms {
      GoneRoomIff(s, t, r);
    } else if r in s.counts {
      OpenRoomIff(s, t, r);
    } else {
      UncountedRoomIff(s, t, r);
    }
  }

  /** The close of a server keeps the counts exactly if everyone it disconnects was counted, unless the
      room is empty then, or gone before, where nobody may have been. */
  lemma CloseCountsIff(s: State, order: seq<PeerId>, n: Node, isEgress: bool, swept: bool)
    requires AllCount(s)
    ensures AllCount(AfterClose(s, order, n, isEgress, swept)) <==> !CloseMiscounts(s, order, n)
  {
    var t, t' := DropPeers(s, order, n).state, AfterClose(s, order, n, isEgress, swept);
    assert t'.peers == t.peers && t'.counts == t.counts;
    forall r ensures Counts(t', r) <==> !RoomMiscounts(s, t, r) {
      assert Counts(s, r);
      RoomIff(s, order, n, r);
    }
    if CloseMiscounts(s, order, n) {
      var p :| p in Dropped(s, order, n) && s.peers[p].room.Some? && DropMiscounts(s, t, p);
      assert p in GoneFrom(s, t, s.peers[p].room.value);
      assert !Counts(t', s.peers[p].room.value);
    } else {
      forall r ensures Counts(t', r) {
        assert forall p :: p in GoneFrom(s, t, r) ==> p in Dropped(s, order, n);
      }
    }
  }

  // ---------------------------------------------------------------- any operation, and runs

  lemma IngressKeepsIff(s: State, p: PeerId)
    requires AllCount(s)
    ensures AllCount(CreateIngress(s, p)) <==> !Miscounts(s, Ingress(p))
  {
    if p in s.peers && s.peers[p].room.Some? {
      IngressCountsIff(s, p, s.peers[p].room.value);
    }
  }

  lemma AnnouncedCounts(s: State, p: PeerId, e: Node)
    requires AllCount(s)
    ensures AllCount(Announce(s, p, e))
  {
    AnnouncedUncounting(s, p, e);
    UncountingKeeps(s, Announce(s, p, e));
  }

  lemma AnnouncedUncounting(s: State, p: PeerId, e: Node)
    ensures Uncounting(s, Announce(s, p, e))
  {
    if p in s.peers {
      assert Announce(s, p, e).peers.Keys == s.peers.Keys;
      forall q | q in s.peers ensures AskedBy(s, p, e)[q] == s.peers[q].(asked := AskedBy(s, p, e)[q].asked) {
      }
    }
  }

  /** An operation keeps right counters right exactly if it is not a miscounting one. */
  lemma OperationCountsIff(s: State, a: Operation)
    requires AllCount(s)
    ensures AllCount(Next(s, a)) <==> !Miscounts(s, a)
  {
    match a
    case Create(p) => CreateCounts(s, p);
    case Join(p, r, i, e) =>
      if p in s.peers {
        JoinCountsIff(s, p, r, i, e);
      }
    case Leave(p, r) =>
      if p in s.peers && r in s.rooms && r in s.counts {
        LeaveCountsIff(s, p, r);
      }
    case Ingress(p) => IngressKeepsIff(s, p);
    case Send(p) => SendCountsIff(s, p);
    case Movement(p, spectator) => MovementCountsIff(s, p, spectator);
    case Announced(p, e) => AnnouncedCounts(s, p, e);
    case Count(p, rooms) => AskingKeepsCounts(s, p, rooms);
    case Gone(p) => GoneCountsIff(s, p);
    case Close(order, n, isEgress, swept) => CloseCountsIff(s, order, n, isEgress, swept);
  }

  /** In every state of a run without miscounting operations all counters are right; the first
      miscounting operation makes one wrong. */
  lemma {:induction false} CountsUntil(trace: seq<State>, operations: seq<Operation>, k: nat)
    requires Run(trace, operations) && k < |trace|
    requires forall j :: 0 <= j < k - 1 ==> !Miscounts(trace[j], operations[j])
    ensures AllCount(trace[k]) <==> k == 0 || !Miscounts(trace[k - 1], operations[k - 1])
  {
    if k == 0 {
      assert forall r, x :: Where(EMPTY.peers, r, x) == {};
    } else {
      CountsUntil(trace, operations, k - 1);
      OperationCountsIff(trace[k - 1], operations[k - 1]);
      assert trace[(k - 1) + 1] == Next(trace[k - 1], operations[k - 1]);
    }
  }
}
