/** Runs in which clients keep to the documented order: join, one ingress transport, one send
    transport, then the room's movement, and leave the own room.  Servers can be selected, egress
    servers announce movement for rooms that they are listed for, nobody spectates, and no room is
    torn down while somebody is between a join and an ingress transport. */
module SignalingRuns {
  import opened Sfu
  import opened Signaling
  import opened Counters

  datatype Action =
    | Create(peer: PeerId)
    | Join(peer: PeerId, room: Room, ingress: Node, egress: Node)
    | Ingress(peer: PeerId)
    | Connect(peer: PeerId)
    | Movement(peer: PeerId)
    | Announced(peer: PeerId, server: Node)
    | Count(peer: PeerId, rooms: seq<Room>)
    | Leave(peer: PeerId)
    | Gone(peer: PeerId)

  /** Where the client is in the documented order, as it knows itself. */
  predicate Allowed(s: State, a: Action) {
    a.Create? || (a.peer in s.peers && var x := s.peers[a.peer];
      match a
      case Join(_, _, _, _) => x.room.None?
      case Ingress(_) => x.room.Some? && !x.counted
      case Connect(_) => x.room.Some? && x.counted && !x.participant
      case Movement(_) => x.room.Some? && x.participant
      case Announced(_, e) => x.room.Some? && x.room.value in s.table && e in s.table[x.room.value].egress
      case Leave(_) =>
        && x.room.Some? && x.counted
        && (x.room.value in s.counts && Closes(Less(s.counts[x.room.value], x)) ==>
          !Occupied(s.peers - {a.peer}, x.room.value))
      case Gone(_) => x.room.Some? ==> x.counted
      case Count(_, _) => true
      case Create(_) => true)
  }

  function Next(s: State, a: Action): Outcome {
    match a
    case Create(p) => Done(CreatePeer(s, p))
    case Join(p, r, i, e) => Done(JoinRoom(s, p, r, Some(i), Some(e)))
    case Ingress(p) => Done(CreateIngress(s, p))
    case Connect(p) => ConnectSend(s, p)
    case Movement(p) => ConsumeAllMovement(s, p, false)
    case Announced(p, e) => Done(Announce(s, p, e))
    case Count(p, rooms) => Done(GetPeerCount(s, p, rooms))
    case Leave(p) => Done(if p in s.peers && s.peers[p].room.Some? then LeaveRoom(s, p, s.peers[p].room.value) else s)
    case Gone(p) => Disconnect(s, p)
  }

  // ---------------------------------------------------------------- where peers can be

  /** A peer in no room is as new; one in a room is in one of the stages of the documented order,
      and its movement was announced by servers of that room. */
  ghost predicate InOrder(s: State, p: PeerId)
    requires p in s.peers
  {
    var x := s.peers[p];
    && (x.room.None? ==> x == NOBODY.(told := x.told, asked := x.asked))
    && (x.room.Some? ==> x.room.value in s.rooms && x.announced <= Elements(s.rooms[x.room.value].egress))
    && (x.participant ==> x.counted) && (!x.lobby ==> x.participant)
  }

  ghost predicate AllInOrder(s: State) {
    forall p :: p in s.peers ==> InOrder(s, p)
  }

  ghost predicate Healthy(s: State) {
    TablesAgree(s) && Mesh(s) && NoneLost(s) && AllCount(s) && AllInOrder(s)
  }

  lemma CreateHealthy(s: State, p: PeerId)
    requires Healthy(s)
    ensures Healthy(CreatePeer(s, p))
  {
    var s' := CreatePeer(s, p);
    if p !in s.peers {
      forall q | q in s'.peers ensures Meshed(s', q) && InOrder(s', q) {
        assert q != p ==> Meshed(s, q) && InOrder(s, q);
      }
      forall a, b | a in s'.peers && b in s'.peers && Listener(s', a, b) ensures Heard(s', a, b) {
        assert Listener(s, a, b) && Heard(s, a, b);
      }
      forall r ensures Counts(s', r) {
        assert Counts(s, r);
        forall k: Kind ensures Where(s'.peers, r, k) == Where(s.peers, r, k) {
        }
      }
    }
  }

  lemma JoinInOrder(s: State, p: PeerId, r: Room, i: Node, e: Node)
    requires AllInOrder(s) && p in s.peers && s.peers[p].room.None?
    ensures AllInOrder(JoinRoom(s, p, r, Some(i), Some(e)))
  {
    var s' := JoinRoom(s, p, r, Some(i), Some(e));
    WithElements(ListsOf(s, r).egress, e);
    forall q | q in s'.peers ensures InOrder(s', q) {
      assert InOrder(s, q);
    }
  }

  lemma JoinHealthy(s: State, p: PeerId, r: Room, i: Node, e: Node)
    requires Healthy(s) && p in s.peers && s.peers[p].room.None?
    ensures Healthy(JoinRoom(s, p, r, Some(i), Some(e)))
  {
    assert InOrder(s, p);
    JoinKeepsTables(s, p, r, Some(i), Some(e));
    JoinKeepsMeshIff(s, p, r, Some(i), Some(e));
    JoinLosesNone(s, p, r, Some(i), Some(e));
    JoinCountsIff(s, p, r, Some(i), Some(e));
    JoinInOrder(s, p, r, i, e);
  }

  /** Changes to one peer that leave its place, its joins and its movement alone. */
  lemma Apart(s: State, s': State, p: PeerId)
    requires TablesAgree(s) && Mesh(s) && AllInOrder(s) && p in s.peers
    requires s'.rooms == s.rooms && s'.table == s.table && p in s'.peers && s'.peers == s.peers[p := s'.peers[p]]
    requires var x, x' := s.peers[p], s'.peers[p];
      x' == x.(counted := x'.counted, participant := x'.participant, lobby := x'.lobby, asked := x'.asked)
    requires InOrder(s', p)
    ensures TablesAgree(s') && Mesh(s') && AllInOrder(s')
  {
    forall q | q in s'.peers ensures Meshed(s', q) && InOrder(s', q) {
      assert Meshed(s, q) && InOrder(s, q);
    }
  }

  lemma SameListeners(s: State, s': State, p: PeerId)
    requires NoneLost(s) && p in s.peers && p in s'.peers && s'.peers == s.peers[p := s'.peers[p]]
    requires var x, x' := s.peers[p], s'.peers[p]; x' == x.(counted := x'.counted, participant := x'.participant)
    ensures NoneLost(s')
  {
    forall a, b | a in s'.peers && b in s'.peers && Listener(s', a, b) ensures Heard(s', a, b) {
      assert Listener(s, a, b) && Heard(s, a, b);
    }
  }

  lemma IngressHealthy(s: State, p: PeerId)
    requires Healthy(s) && Allowed(s, Ingress(p))
    ensures Healthy(CreateIngress(s, p))
  {
    assert InOrder(s, p);
    IngressCountsIff(s, p, s.peers[p].room.value);
    Apart(s, CreateIngress(s, p), p);
    SameListeners(s, CreateIngress(s, p), p);
  }

  /** A counted peer's room has a counter. */
  lemma CounterExists(s: State, p: PeerId)
    requires AllCount(s) && p in s.peers && s.peers[p].room.Some? && s.peers[p].counted
    ensures s.peers[p].room.value in s.counts
  {
    assert Counts(s, s.peers[p].room.value);
    assert p in Where(s.peers, s.peers[p].room.value, All);
  }

  lemma ConnectHealthy(s: State, p: PeerId)
    requires Healthy(s) && Allowed(s, Connect(p))
    ensures ConnectSend(s, p).Done? && Healthy(ConnectSend(s, p).state)
  {
    assert InOrder(s, p);
    CounterExists(s, p);
    ConnectCountsIff(s, p, s.peers[p].room.value);
    Apart(s, ConnectSend(s, p).state, p);
    SameListeners(s, ConnectSend(s, p).state, p);
  }

  lemma MovementHealthy(s: State, p: PeerId)
    requires Healthy(s) && Allowed(s, Movement(p))
    ensures ConsumeAllMovement(s, p, false).Done? && Healthy(ConsumeAllMovement(s, p, false).state)
  {
    var r := s.peers[p].room.value;
    assert InOrder(s, p);
    CounterExists(s, p);
    ConsumeCountsIff(s, p, r, false);
    forall q | q in s.peers && s.peers[q].room == Some(r) ensures s.peers[q].announced <= Elements(s.table[r].egress) {
      assert InOrder(s, q);
    }
    RoutedAnnouncements(s, p);
    PullLosesNoneIff(s, p, false);
    Apart(s, ConsumeAllMovement(s, p, false).state, p);
  }

  lemma CountHealthy(s: State, p: PeerId, rooms: seq<Room>)
    requires Healthy(s)
    ensures Healthy(GetPeerCount(s, p, rooms))
  {
    var s' := GetPeerCount(s, p, rooms);
    AskingKeepsCounts(s, p, rooms);
    forall q | q in s'.peers ensures Meshed(s', q) && InOrder(s', q) {
      assert Meshed(s, q) && InOrder(s, q);
    }
    forall a, b | a in s'.peers && b in s'.peers && Listener(s', a, b) ensures Heard(s', a, b) {
      assert Listener(s, a, b) && Heard(s, a, b);
    }
  }

  lemma AnnounceInOrder(s: State, q: PeerId, e: Node)
    requires TablesAgree(s) && Mesh(s) && AllInOrder(s) && Allowed(s, Announced(q, e))
    ensures TablesAgree(Announce(s, q, e)) && Mesh(Announce(s, q, e)) && AllInOrder(Announce(s, q, e))
  {
    var s' := Announce(s, q, e);
    forall p | p in s'.peers ensures Meshed(s', p) && InOrder(s', p) {
      assert Meshed(s, p) && InOrder(s, p);
    }
  }

  lemma AnnounceHealthy(s: State, q: PeerId, e: Node)
    requires Healthy(s) && Allowed(s, Announced(q, e))
    ensures Healthy(Announce(s, q, e))
  {
    var s' := Announce(s, q, e);
    AnnounceInOrder(s, q, e);
    AnnounceLosesNone(s, q, e);
    forall r ensures Counts(s', r) {
      assert Counts(s, r);
      forall k: Kind ensures Where(s'.peers, r, k) == Where(s.peers, r, k) {
        assert forall p :: p in s.peers ==> Is(s'.peers[p], r, k) == Is(s.peers[p], r, k);
      }
    }
  }

  lemma LeaveInOrder(s: State, p: PeerId, r: Room)
    requires AllInOrder(s) && TablesAgree(s) && p in s.peers && s.peers[p].room == Some(r) && r in s.rooms
      && r in s.counts
    requires Closes(Less(s.counts[r], s.peers[p])) ==> !Occupied(s.peers - {p}, r)
    ensures AllInOrder(LeaveRoom(s, p, r)) && TablesAgree(LeaveRoom(s, p, r))
  {
    var s' := LeaveRoom(s, p, r);
    forall q | q in s'.peers ensures InOrder(s', q) {
      assert InOrder(s, q);
      assert q != p && s.peers[q].room == Some(r) ==> q in s.peers - {p} && (s.peers - {p})[q].room == Some(r);
    }
  }

  lemma LeaveHealthy(s: State, p: PeerId)
    requires Healthy(s) && Allowed(s, Leave(p))
    ensures Healthy(LeaveRoom(s, p, s.peers[p].room.value))
  {
    var r := s.peers[p].room.value;
    assert InOrder(s, p);
    CounterExists(s, p);
    LeaveCountsIff(s, p, r);
    if !Occupied(s.peers - {p}, r) {
      EmptyRoom(s.peers - {p}, r);
      assert Where(s.peers - {p}, r, All) == OthersCounted(s, p, r);
    }
    LeaveKeepsMesh(s, p, r);
    LeaveLosesNone(s, p, r);
    LeaveInOrder(s, p, r);
  }

  lemma GoneInOrder(s: State, p: PeerId)
    requires AllInOrder(s) && TablesAgree(s)
    ensures AllInOrder(Disconnect(s, p).state) && TablesAgree(Disconnect(s, p).state)
  {
    var s' := Disconnect(s, p).state;
    forall q | q in s'.peers ensures InOrder(s', q) {
      assert InOrder(s, q);
      if p in s.peers && s.peers[p].room.Some? && q != p && s.peers[q].room == s.peers[p].room {
        assert q in s.peers - {p} && (s.peers - {p})[q].room == s.peers[p].room;
      }
    }
  }

  lemma GoneHealthy(s: State, p: PeerId)
    requires Healthy(s) && Allowed(s, Gone(p))
    ensures Disconnect(s, p).Done? && Healthy(Disconnect(s, p).state)
  {
    if s.peers[p].room.Some? {
      assert InOrder(s, p);
      CounterExists(s, p);
      DisconnectCountsIff(s, p, s.peers[p].room.value);
    }
    DisconnectKeepsMesh(s, p);
    DisconnectLosesNone(s, p);
    GoneInOrder(s, p);
  }

  lemma ActionHealthy(s: State, a: Action)
    requires Healthy(s) && Allowed(s, a)
    ensures Next(s, a).Done? && Healthy(Next(s, a).state)
  {
    match a
    case Create(p) => CreateHealthy(s, p);
    case Join(p, r, i, e) => JoinHealthy(s, p, r, i, e);
    case Ingress(p) => IngressHealthy(s, p);
    case Connect(p) => ConnectHealthy(s, p);
    case Movement(p) => MovementHealthy(s, p);
    case Announced(p, e) => AnnounceHealthy(s, p, e);
    case Count(p, rooms) => CountHealthy(s, p, rooms);
    case Leave(p) => LeaveHealthy(s, p);
    case Gone(p) => GoneHealthy(s, p);
  }

  ghost predicate Run(trace: seq<State>, actions: seq<Action>) {
    && |trace| == |actions| + 1 && trace[0] == EMPTY
    && (forall k :: 0 <= k < |actions| ==>
      Allowed(trace[k], actions[k]) && trace[k + 1] == Next(trace[k], actions[k]).state)
  }

  /** In every state of such a run the counters are right, every peer is joined to all egress servers
      of its room, no announced movement is lost, and nothing ever throws. */
  lemma {:induction false} DocumentedOrderIsHealthy(trace: seq<State>, actions: seq<Action>, k: nat)
    requires Run(trace, actions) && k < |trace|
    ensures Healthy(trace[k])
    ensures k < |actions| ==> Next(trace[k], actions[k]).Done?
  {
    if k == 0 {
      EmptyHealthy();
    } else {
      DocumentedOrderIsHealthy(trace, actions, k - 1);
      ActionHealthy(trace[k - 1], actions[k - 1]);
      assert trace[(k - 1) + 1] == Next(trace[k - 1], actions[k - 1]).state;
    }
    if k < |actions| {
      ActionHealthy(trace[k], actions[k]);
    }
  }

  lemma EmptyHealthy()
    ensures Healthy(EMPTY)
  {
    forall r ensures Counts(EMPTY, r) {
      forall k: Kind ensures Where(EMPTY.peers, r, k) == {} {
      }
    }
  }
}
