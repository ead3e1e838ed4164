/** The room counters against the peers that they count. */
module Counters {
  import opened Sfu
  import opened Signaling

  /** What a counter counts: peers with an ingress transport, those of them still in the lobby, and
      peers that send. */
  datatype Kind = All | Lobby | Participants

  predicate Is(x: Peer, r: Room, k: Kind) {
    && x.room == Some(r)
    && match k
       case All => x.counted
       case Lobby => x.counted && x.lobby
       case Participants => x.participant
  }

  function Where(peers: map<PeerId, Peer>, r: Room, k: Kind): set<PeerId> {
    set p | p in peers && Is(peers[p], r, k)
  }

  function Tally(peers: map<PeerId, Peer>, r: Room, k: Kind): nat {
    |Where(peers, r, k)|
  }

  /** The counter of room `r` is right; a room without a counter has nobody to count. */
  ghost predicate Counts(s: State, r: Room) {
    if r in s.counts then
      && s.counts[r].peers == Tally(s.peers, r, All) && s.counts[r].lobby == Tally(s.peers, r, Lobby)
      && s.counts[r].participants == Tally(s.peers, r, Participants)
    else
      Where(s.peers, r, All) == {} && Where(s.peers, r, Participants) == {}
  }

  ghost predicate AllCount(s: State) {
    forall r :: Counts(s, r)
  }

  function OneIf(b: bool): nat {
    if b then 1 else 0
  }

  lemma TallyPut(peers: map<PeerId, Peer>, p: PeerId, x: Peer, r: Room, k: Kind)
    requires p in peers
    ensures Tally(peers[p := x], r, k) == Tally(peers, r, k) - OneIf(Is(peers[p], r, k)) + OneIf(Is(x, r, k))
  {
    var before, after := Where(peers, r, k), Where(peers[p := x], r, k);
    assert after - {p} == before - {p};
    CardinalityOf(before, p);
    CardinalityOf(after, p);
  }

  lemma TallyDrop(peers: map<PeerId, Peer>, p: PeerId, r: Room, k: Kind)
    requires p in peers
    ensures Tally(peers - {p}, r, k) == Tally(peers, r, k) - OneIf(Is(peers[p], r, k))
  {
    var before, after := Where(peers, r, k), Where(peers - {p}, r, k);
    assert after == before - {p};
    CardinalityOf(before, p);
  }

  lemma CardinalityOf(s: set<PeerId>, p: PeerId)
    ensures |s| == |s - {p}| + OneIf(p in s)
  {
    if p in s {
      assert s == (s - {p}) + {p};
    } else {
      assert s == s - {p};
    }
  }

  lemma NoneTallied(peers: map<PeerId, Peer>, r: Room, k: Kind)
    ensures Tally(peers, r, k) == 0 <==> Where(peers, r, k) == {}
  {
  }

  /** The lobby is part of all, so the guards against negative counts never matter. */
  lemma LobbyCounted(s: State, p: PeerId, r: Room)
    requires Counts(s, r) && r in s.counts && p in s.peers && Is(s.peers[p], r, Lobby)
    ensures s.counts[r].lobby > 0
  {
    assert p in Where(s.peers, r, Lobby);
  }

  /** Only room `r` is affected. */
  lemma OtherRooms(s: State, s': State, p: PeerId, r: Room)
    requires AllCount(s) && p in s.peers
    requires s'.peers == s.peers - {p} || (p in s'.peers && s'.peers == s.peers[p := s'.peers[p]])
    requires s.peers[p].room == None || s.peers[p].room == Some(r)
    requires p in s'.peers ==> s'.peers[p].room == None || s'.peers[p].room == Some(r)
    requires forall r' :: r' != r ==>
      (r' in s'.counts <==> r' in s.counts) && (r' in s.counts ==> s'.counts[r'] == s.counts[r'])
    ensures forall r' :: r' != r ==> Counts(s', r')
  {
    forall r' | r' != r ensures Counts(s', r') {
      assert Counts(s, r');
      SameWhere(s.peers, s'.peers, p, r', All);
      SameWhere(s.peers, s'.peers, p, r', Lobby);
      SameWhere(s.peers, s'.peers, p, r', Participants);
    }
  }

  lemma SameWhere(peers: map<PeerId, Peer>, peers': map<PeerId, Peer>, p: PeerId, r: Room, k: Kind)
    requires p in peers && (peers' == peers - {p} || (p in peers' && peers' == peers[p := peers'[p]]))
    requires peers[p].room != Some(r) && (p in peers' ==> peers'[p].room != Some(r))
    ensures Where(peers', r, k) == Where(peers, r, k)
  {
  }

  // ---------------------------------------------------------------- when each operation keeps the counts

  /** An ingress transport is counted right exactly if it is the peer's first one since it joined and
      the peer is still in the lobby. */
  lemma IngressCountsIff(s: State, p: PeerId, r: Room)
    requires AllCount(s) && p in s.peers && s.peers[p].room == Some(r)
    ensures AllCount(CreateIngress(s, p)) <==> !s.peers[p].counted && s.peers[p].lobby
  {
    var s' := CreateIngress(s, p);
    var x := s'.peers[p];
    assert Counts(s, r);
    TallyPut(s.peers, p, x, r, All);
    TallyPut(s.peers, p, x, r, Lobby);
    TallyPut(s.peers, p, x, r, Participants);
    LobbyAmongAll(s.peers, r);
    OtherRooms(s, s', p, r);
    assert AllCount(s') <==> Counts(s', r);
  }

  lemma LobbyAmongAll(peers: map<PeerId, Peer>, r: Room)
    ensures Where(peers, r, Lobby) <= Where(peers, r, All)
    ensures Where(peers, r, All) == {} ==> Tally(peers, r, Lobby) == 0
  {
  }

  /** A send transport is counted right exactly if it is the peer's first one since it joined. */
  lemma ConnectCountsIff(s: State, p: PeerId, r: Room)
    requires AllCount(s) && p in s.peers && s.peers[p].room == Some(r) && r in s.counts
    ensures ConnectSend(s, p).Done?
    ensures AllCount(ConnectSend(s, p).state) <==> !s.peers[p].participant
  {
    var s' := ConnectSend(s, p).state;
    var x := s'.peers[p];
    assert Counts(s, r);
    TallyPut(s.peers, p, x, r, All);
    TallyPut(s.peers, p, x, r, Lobby);
    TallyPut(s.peers, p, x, r, Participants);
    OtherRooms(s, s', p, r);
    assert AllCount(s') <==> Counts(s', r);
  }

  lemma ConsumeElsewhere(s: State, p: PeerId, r: Room, spectator: bool)
    requires AllCount(s) && p in s.peers && s.peers[p].room == Some(r) && r in s.counts
    ensures var o := ConsumeAllMovement(s, p, spectator);
      o.Done? && p in o.state.peers && (AllCount(o.state) <==> Counts(o.state, r))
  {
    var s' := ConsumeAllMovement(s, p, spectator).state;
    assert s'.peers == s.peers[p := s'.peers[p]];
    OtherRooms(s, s', p, r);
  }

  /** Peer `p` is out of the lobby, and the counter of its room has lost one if it could. */
  ghost predicate LobbyLeft(s: State, s': State, p: PeerId, r: Room) {
    && p in s.peers && p in s'.peers && s'.peers == s.peers[p := s'.peers[p]] && r in s.counts && r in s'.counts
    && var x, x' := s.peers[p], s'.peers[p];
    && x.room == Some(r) && x'.room == Some(r)
    && x'.counted == x.counted && x'.participant == x.participant && !x'.lobby
    && s'.counts[r].peers == s.counts[r].peers && s'.counts[r].participants == s.counts[r].participants
    && s'.counts[r].lobby == if x.lobby && s.counts[r].lobby > 0 then s.counts[r].lobby - 1 else s.counts[r].lobby
  }

  lemma ConsumeLeavesLobby(s: State, p: PeerId, r: Room, spectator: bool)
    requires p in s.peers && s.peers[p].room == Some(r) && r in s.counts
    ensures LobbyLeft(s, ConsumeAllMovement(s, p, spectator).state, p, r)
  {
  }

  lemma LobbyLeftCounts(s: State, s': State, p: PeerId, r: Room)
    requires Counts(s, r) && LobbyLeft(s, s', p, r)
    ensures Counts(s', r) <==> !s.peers[p].lobby || s.peers[p].counted || s.counts[r].lobby == 0
  {
    var x := s'.peers[p];
    TallyPut(s.peers, p, x, r, All);
    TallyPut(s.peers, p, x, r, Lobby);
    TallyPut(s.peers, p, x, r, Participants);
    if s.peers[p].counted && s.peers[p].lobby {
      LobbyCounted(s, p, r);
    }
  }

  /** Asking for movement keeps the counts exactly if the peer is out of the lobby already, or was
      counted, or nobody is. */
  lemma ConsumeCountsIff(s: State, p: PeerId, r: Room, spectator: bool)
    requires AllCount(s) && p in s.peers && s.peers[p].room == Some(r) && r in s.counts
    ensures ConsumeAllMovement(s, p, spectator).Done?
    ensures AllCount(ConsumeAllMovement(s, p, spectator).state) <==>
      !s.peers[p].lobby || s.peers[p].counted || s.counts[r].lobby == 0
  {
    ConsumeElsewhere(s, p, r, spectator);
    assert Counts(s, r);
    ConsumeLeavesLobby(s, p, r, spectator);
    LobbyLeftCounts(s, ConsumeAllMovement(s, p, spectator).state, p, r);
  }

  /** The other peers that the room's counter counts. */
  function OthersCounted(s: State, p: PeerId, r: Room): set<PeerId> {
    Where(s.peers, r, All) - {p}
  }

  lemma LeaveElsewhere(s: State, p: PeerId, r: Room)
    requires AllCount(s) && p in s.peers && s.peers[p].room == Some(r) && r in s.rooms && r in s.counts
    ensures AllCount(LeaveRoom(s, p, r)) <==> Counts(LeaveRoom(s, p, r), r)
  {
    OtherRooms(s, LeaveRoom(s, p, r), p, r);
  }

  lemma LeaveHere(s: State, p: PeerId, r: Room)
    requires Counts(s, r) && p in s.peers && s.peers[p].room == Some(r) && r in s.rooms && r in s.counts
    ensures Counts(LeaveRoom(s, p, r), r) <==>
      if Closes(Less(s.counts[r], s.peers[p])) then OthersCounted(s, p, r) == {} else s.peers[p].counted
  {
    var s' := LeaveRoom(s, p, r);
    var x, x' := s.peers[p], s'.peers[p];
    TallyPut(s.peers, p, x', r, All);
    TallyPut(s.peers, p, x', r, Lobby);
    TallyPut(s.peers, p, x', r, Participants);
    NoneTallied(s'.peers, r, Participants);
    if x.counted && x.lobby {
      LobbyCounted(s, p, r);
    }
    assert Where(s'.peers, r, All) == OthersCounted(s, p, r);
  }

  predicate NobodyCounted(peers: map<PeerId, Peer>, r: Room) {
    Where(peers, r, All) == {} && Where(peers, r, Participants) == {}
  }

  /** Leaving keeps the counts exactly if, in the own room, the peer was counted - or, where the room
      closes on it, no other counted peer is left behind, as spectators are - and, in another room, if
      the peer is in some room, counted in none, and nobody is counted in the room that it names. */
  lemma LeaveCountsIff(s: State, p: PeerId, r: Room)
    requires AllCount(s) && p in s.peers && r in s.rooms && r in s.counts
    ensures AllCount(LeaveRoom(s, p, r)) <==>
      if s.peers[p].room == Some(r) then
        if Closes(Less(s.counts[r], s.peers[p])) then OthersCounted(s, p, r) == {} else s.peers[p].counted
      else
        s.peers[p].room.Some? && !s.peers[p].counted && !s.peers[p].participant && NobodyCounted(s.peers, r)
  {
    if s.peers[p].room == Some(r) {
      LeaveElsewhere(s, p, r);
      assert Counts(s, r);
      LeaveHere(s, p, r);
    } else {
      LeaveOther(s, p, r);
    }
  }

  /** The room that the peer names, but is not in. */
  lemma LeaveNamed(s: State, p: PeerId, r: Room)
    requires Counts(s, r) && p in s.peers && s.peers[p].room != Some(r) && r in s.rooms && r in s.counts
    ensures Counts(LeaveRoom(s, p, r), r) <==>
      Closes(Less(s.counts[r], s.peers[p])) && s.peers[p].room.Some? && NobodyCounted(s.peers, r)
    ensures NobodyCounted(s.peers, r) && !s.peers[p].participant ==> Closes(Less(s.counts[r], s.peers[p]))
  {
    var s' := LeaveRoom(s, p, r);
    SameWhere(s.peers, s'.peers, p, r, All);
    SameWhere(s.peers, s'.peers, p, r, Lobby);
    SameWhere(s.peers, s'.peers, p, r, Participants);
    LobbyAmongAll(s.peers, r);
    NoneTallied(s.peers, r, Participants);
  }

  /** The room that the peer is in, but does not name. */
  lemma LeaveOwn(s: State, p: PeerId, r: Room, q: Room)
    requires Counts(s, q) && p in s.peers && s.peers[p].room == Some(q) && q != r && r in s.rooms && r in s.counts
    ensures Counts(LeaveRoom(s, p, r), q) <==> !s.peers[p].counted && !s.peers[p].participant
  {
    var s' := LeaveRoom(s, p, r);
    TallyPut(s.peers, p, s'.peers[p], q, All);
    TallyPut(s.peers, p, s'.peers[p], q, Lobby);
    TallyPut(s.peers, p, s'.peers[p], q, Participants);
    NoneTallied(s.peers, q, All);
    NoneTallied(s.peers, q, Participants);
    NoneTallied(s'.peers, q, All);
    NoneTallied(s'.peers, q, Participants);
  }

  lemma LeaveOther(s: State, p: PeerId, r: Room)
    requires AllCount(s) && p in s.peers && s.peers[p].room != Some(r) && r in s.rooms && r in s.counts
    ensures AllCount(LeaveRoom(s, p, r)) <==>
      s.peers[p].room.Some? && !s.peers[p].counted && !s.peers[p].participant && NobodyCounted(s.peers, r)
  {
    var s' := LeaveRoom(s, p, r);
    assert Counts(s, r);
    LeaveNamed(s, p, r);
    if s.peers[p].room.Some? {
      var q := s.peers[p].room.value;
      assert Counts(s, q);
      LeaveOwn(s, p, r, q);
      forall r' | r' != r && r' != q ensures Counts(s', r') {
        assert Counts(s, r');
        SameWhere(s.peers, s'.peers, p, r', All);
        SameWhere(s.peers, s'.peers, p, r', Lobby);
        SameWhere(s.peers, s'.peers, p, r', Participants);
      }
      assert AllCount(s') <==> Counts(s', r) && Counts(s', q);
    }
  }

  /** A disconnect keeps the counts exactly if it empties the room, or the peer was counted. */
  lemma DisconnectCountsIff(s: State, p: PeerId, r: Room)
    requires AllCount(s) && p in s.peers && s.peers[p].room == Some(r) && r in s.rooms && r in s.counts
    ensures Disconnect(s, p).Done?
    ensures AllCount(Disconnect(s, p).state) <==> !Occupied(s.peers - {p}, r) || s.peers[p].counted
  {
    var s' := Disconnect(s, p).state;
    var x := s.peers[p];
    assert Counts(s, r);
    TallyDrop(s.peers, p, r, All);
    TallyDrop(s.peers, p, r, Lobby);
    TallyDrop(s.peers, p, r, Participants);
    if x.counted && x.lobby {
      LobbyCounted(s, p, r);
    }
    OtherRooms(s, s', p, r);
    assert AllCount(s') <==> Counts(s', r);
    EmptyRoom(s'.peers, r);
  }

  lemma EmptyRoom(peers: map<PeerId, Peer>, r: Room)
    ensures !Occupied(peers, r) ==> Where(peers, r, All) == {} && Where(peers, r, Participants) == {}
  {
  }

  /** Joining touches no more of the counts than the room of the peer that joins. */
  lemma JoinWhere(s: State, p: PeerId, r: Room, i: Option<Node>, e: Option<Node>, q: Room, k: Kind)
    requires p in s.peers
    ensures Where(JoinRoom(s, p, r, i, e).peers, q, k) == Where(s.peers[p := s.peers[p].(room := Some(r))], q, k)
  {
    var peers := JoinRoom(s, p, r, i, e).peers;
    forall x | x in s.peers ensures x in peers && (x != p ==> Is(peers[x], q, k) == Is(s.peers[x], q, k)) {
    }
  }

  /** Joining a room keeps the counts exactly if the peer is in it already, or is not counted where it
      was. */
  lemma JoinCountsIff(s: State, p: PeerId, r: Room, i: Option<Node>, e: Option<Node>)
    requires AllCount(s) && p in s.peers
    ensures AllCount(JoinRoom(s, p, r, i, e)) <==>
      s.peers[p].room == Some(r) || (!s.peers[p].counted && !s.peers[p].participant)
  {
    var s' := JoinRoom(s, p, r, i, e);
    var x := s.peers[p];
    if x.room == Some(r) || (!x.counted && !x.participant) {
      forall q ensures Counts(s', q) {
        assert Counts(s, q);
        JoinTally(s, p, r, i, e, q);
      }
    } else {
      assert Counts(s, r);
      JoinTally(s, p, r, i, e, r);
      assert !Counts(s', r);
    }
  }

  lemma JoinTally(s: State, p: PeerId, r: Room, i: Option<Node>, e: Option<Node>, q: Room)
    requires p in s.peers
    ensures var s', x, x' := JoinRoom(s, p, r, i, e), s.peers[p], s.peers[p].(room := Some(r));
      forall k :: Tally(s'.peers, q, k) == Tally(s.peers, q, k) - OneIf(Is(x, q, k)) + OneIf(Is(x', q, k))
              && (Tally(s'.peers, q, k) == 0 <==> Where(s'.peers, q, k) == {})
              && (Tally(s.peers, q, k) == 0 <==> Where(s.peers, q, k) == {})
  {
    forall k: Kind ensures Tally(JoinRoom(s, p, r, i, e).peers, q, k)
        == Tally(s.peers, q, k) - OneIf(Is(s.peers[p], q, k)) + OneIf(Is(s.peers[p].(room := Some(r)), q, k))
    {
      JoinWhere(s, p, r, i, e, q, k);
      TallyPut(s.peers, p, s.peers[p].(room := Some(r)), q, k);
    }
    forall k: Kind
      ensures Tally(JoinRoom(s, p, r, i, e).peers, q, k) == 0 <==> Where(JoinRoom(s, p, r, i, e).peers, q, k) == {}
    {
      NoneTallied(JoinRoom(s, p, r, i, e).peers, q, k);
    }
    forall k: Kind ensures Tally(s.peers, q, k) == 0 <==> Where(s.peers, q, k) == {} {
      NoneTallied(s.peers, q, k);
    }
  }

  /** Asking for counts makes counters, but none that is wrong. */
  lemma AskingKeepsCounts(s: State, p: PeerId, rooms: seq<Room>)
    requires AllCount(s)
    ensures AllCount(GetPeerCount(s, p, rooms))
  {
    var s' := GetPeerCount(s, p, rooms);
    forall r ensures Counts(s', r) {
      assert Counts(s, r);
      LobbyAmongAll(s.peers, r);
    }
  }

  /** And it keeps a disconnect from throwing exactly if it asks for the room of that peer. */
  lemma AskingMendsIff(s: State, p: PeerId, rooms: seq<Room>, q: PeerId)
    requires Disconnect(s, q).Threw? && p in s.peers
    ensures Disconnect(GetPeerCount(s, p, rooms), q).Done? <==> s.peers[q].room.value in rooms
  {
    DisconnectThrowsIff(s, q);
    DisconnectThrowsIff(GetPeerCount(s, p, rooms), q);
  }

  /** A disconnect from a room without a counter throws, and the peer stays. */
  lemma DisconnectThrowsIff(s: State, p: PeerId)
    ensures Disconnect(s, p).Threw? <==>
      p in s.peers && s.peers[p].room.Some? && s.peers[p].room.value in s.rooms && s.peers[p].room.value !in s.counts
    ensures Disconnect(s, p).Threw? ==> Disconnect(s, p).state == s
  {
  }

  /** A peer that stays behind keeps the room as its own, but the room is gone for it exactly if no
      participant and nobody in the lobby was left: spectators are stranded. */
  lemma StrandedIff(s: State, p: PeerId, q: PeerId, r: Room)
    requires AllCount(s) && p in s.peers && q in s.peers && p != q && r in s.rooms && r in s.counts
    requires s.peers[p].room == Some(r) && s.peers[q].room == Some(r) && s.peers[p].counted
    ensures LeaveRoom(s, p, r).peers[q].room == Some(r)
    ensures r !in LeaveRoom(s, p, r).rooms <==>
      Where(s.peers, r, Participants) <= {p} && Where(s.peers, r, Lobby) <= {p}
  {
    assert Counts(s, r);
    OnlyOne(s.peers, p, r, Participants);
    OnlyOne(s.peers, p, r, Lobby);
    if s.peers[p].lobby {
      LobbyCounted(s, p, r);
    }
  }

  lemma OnlyOne(peers: map<PeerId, Peer>, p: PeerId, r: Room, k: Kind)
    requires p in peers
    ensures Tally(peers, r, k) == OneIf(Is(peers[p], r, k)) <==> Where(peers, r, k) <= {p}
  {
    var w := Where(peers, r, k);
    CardinalityOf(w, p);
    assert w - {p} == {} <==> w <= {p};
  }
}
