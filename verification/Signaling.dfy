/** Peers, rooms and counters of the signaling server, as values.

    Besides what the server stores, a peer carries what has happened to it since it joined: whether
    it was counted, which egress servers it was sent a join for, by which egress servers its movement
    was announced, and which movement it was requested for. */
module Signaling {
  import opened Sfu

  type PeerId = nat

  datatype Peer = Peer(
    room: Option<Room>, ingress: Option<Node>, egress: Option<Node>,
    lobby: bool, participant: bool, spectator: bool,
    counted: bool, told: set<Node>, announced: set<Node>, asked: set<(PeerId, Node)>)

  datatype Lists = Lists(ingress: seq<Node>, egress: seq<Node>)

  datatype Counter = Counter(lobby: int, peers: int, participants: int, spectators: int)

  datatype State = State(peers: map<PeerId, Peer>, rooms: map<Room, Lists>, table: map<Room, Lists>,
      counts: map<Room, Counter>)

  /** An exception leaves the state as it was when it was thrown. */
  datatype Outcome = Done(state: State) | Threw(state: State)

  const NOBODY := Peer(None, None, None, true, false, false, false, {}, {}, {})
  const NOTHING := Counter(0, 0, 0, 0)
  const EMPTY := State(map[], map[], map[], map[])

  function Elements(ns: seq<Node>): set<Node> {
    set n | n in ns
  }

  function With(ns: seq<Node>, n: Node): seq<Node> {
    if n in ns then ns else ns + [n]
  }

  function ListsOf(s: State, r: Room): Lists {
    if r in s.rooms then s.rooms[r] else Lists([], [])
  }

  function CreatePeer(s: State, p: PeerId): State {
    if p in s.peers then s else s.(peers := s.peers[p := NOBODY])
  }

  /** Every peer of the room that is not on egress server `e` is sent a join for it. */
  function Told(peers: map<PeerId, Peer>, r: Room, e: Node): map<PeerId, Peer> {
    map p | p in peers ::
      if peers[p].room == Some(r) && peers[p].egress != Some(e)
      then peers[p].(told := peers[p].told + {e})
      else peers[p]
  }

  /** `joinRoom`, when these servers are selected. */
  function JoinRoom(s: State, p: PeerId, r: Room, i: Option<Node>, e: Option<Node>): State {
    if p !in s.peers then s
    else
      var lists := ListsOf(s, r);
      var joining := s.peers[p].(room := Some(r), told := Elements(lists.egress));
      if i.None? || e.None? then s.(peers := s.peers[p := joining])
      else
        var placed := joining.(ingress := i, egress := e);
        var lists' := Lists(With(lists.ingress, i.value), With(lists.egress, e.value));
        var peers := if e.value in lists.egress then s.peers[p := placed]
                     else Told(s.peers, r, e.value)[p := placed.(told := placed.told + {e.value})];
        s.(peers := peers, rooms := s.rooms[r := lists'], table := s.table[r := lists'])
  }

  function Less(c: Counter, x: Peer): Counter {
    Counter(if x.lobby && c.lobby > 0 then c.lobby - 1 else c.lobby, c.peers - 1,
            if x.participant then c.participants - 1 else c.participants,
            if x.spectator then c.spectators - 1 else c.spectators)
  }

  /** Leaving makes a room close when only spectators are left. */
  predicate Closes(c: Counter) {
    c.participants == 0 && c.lobby == 0
  }

  function LeaveRoom(s: State, p: PeerId, r: Room): State {
    if p !in s.peers || r !in s.rooms || r !in s.counts then s
    else
      var x := s.peers[p];
      var c := Less(s.counts[r], x);
      var left := s.peers[p := x.(
        room := None, ingress := None, egress := None, lobby := true, participant := false, spectator := false,
        counted := false, told := {}, announced := {}, asked := {})];
      if Closes(c) then
        State(left, s.rooms - {r}, s.table, if x.room.Some? then s.counts - {r} else s.counts[r := c])
      else s.(peers := left, counts := s.counts[r := c])
  }

  function CreateIngress(s: State, p: PeerId): State {
    if p !in s.peers || s.peers[p].room.None? then s
    else
      var r := s.peers[p].room.value;
      var c := if r in s.counts then s.counts[r] else NOTHING;
      s.(peers := s.peers[p := s.peers[p].(counted := true)],
        counts := s.counts[r := c.(lobby := c.lobby + 1, peers := c.peers + 1)])
  }

  function ConnectSend(s: State, p: PeerId): Outcome {
    if p !in s.peers || s.peers[p].room.None? then Done(s)
    else
      var r := s.peers[p].room.value;
      var s1 := s.(peers := s.peers[p := s.peers[p].(participant := true)]);
      if r !in s.counts then Threw(s1)
      else Done(s1.(counts := s.counts[r := s.counts[r].(participants := s.counts[r].participants + 1)]))
  }

  /** `getPeerCount`: every room asked for gets a counter if it has none. */
  function GetPeerCount(s: State, p: PeerId, rooms: seq<Room>): State {
    if p !in s.peers then s else s.(counts := WithCounters(s.counts, rooms))
  }

  function WithCounters(counts: map<Room, Counter>, rooms: seq<Room>): map<Room, Counter> {
    map r | r in counts.Keys + (set x | x in rooms) :: if r in counts then counts[r] else NOTHING
  }

  /** What a peer is requested for when it asks for all movement of its room. */
  function AllMovement(s: State, p: PeerId): set<(PeerId, Node)>
    requires p in s.peers
  {
    if s.peers[p].room.None? || s.peers[p].room.value !in s.table then {}
    else
      set q, e | q in s.peers && e in Elements(s.table[s.peers[p].room.value].egress)
                 && q != p && s.peers[q].room == s.peers[p].room :: (q, e)
  }

  /** The part of `consumeAllMovement` that takes a peer out of the lobby. */
  function LeaveLobby(s: State, p: PeerId, spectator: bool): Outcome
    requires p in s.peers
  {
    var x := s.peers[p];
    if !x.lobby || x.room.None? then Done(s)
    else if x.room.value !in s.counts then Threw(s)
    else
      var c := s.counts[x.room.value];
      Done(s.(peers := s.peers[p := x.(lobby := false, spectator := x.spectator || spectator)],
              counts := s.counts[x.room.value := c.(lobby := if c.lobby > 0 then c.lobby - 1 else c.lobby,
                                                    spectators := c.spectators + if spectator then 1 else 0)]))
  }

  function ConsumeAllMovement(s: State, p: PeerId, spectator: bool): Outcome {
    if p !in s.peers then Done(s)
    else match LeaveLobby(s, p, spectator)
      case Threw(t) => Threw(t)
      case Done(t) => Done(t.(peers := t.peers[p := t.peers[p].(asked := t.peers[p].asked + AllMovement(s, p))]))
  }

  /** Everyone else in the room who has left the lobby is requested for the movement of `q`. */
  function AskedBy(s: State, q: PeerId, e: Node): map<PeerId, Peer>
    requires q in s.peers
  {
    map p | p in s.peers :: if Listens(s, p, q) then s.peers[p].(asked := s.peers[p].asked + {(q, e)}) else s.peers[p]
  }

  /** Egress server `e` announces the movement of peer `q`. */
  function Announce(s: State, q: PeerId, e: Node): State {
    if q !in s.peers then s
    else
      var peers := AskedBy(s, q, e);
      s.(peers := peers[q := peers[q].(announced := peers[q].announced + {e})])
  }

  predicate Listens(s: State, p: PeerId, q: PeerId)
    requires p in s.peers && q in s.peers
  {
    s.peers[p].room == s.peers[q].room && p != q && !s.peers[p].lobby && s.peers[p].room.Some?
  }

  predicate Occupied(peers: map<PeerId, Peer>, r: Room) {
    exists q :: q in peers && peers[q].room == Some(r)
  }

  function Disconnect(s: State, p: PeerId): Outcome {
    if p !in s.peers || s.peers[p].room.None? then Done(s)
    else
      var x := s.peers[p];
      var r := x.room.value;
      var peers := s.peers - {p};
      if r !in s.rooms then Done(s.(peers := peers))
      else if r !in s.counts then Threw(s)
      else if Occupied(peers, r) then Done(s.(peers := peers, counts := s.counts[r := Less(s.counts[r], x)]))
      else Done(State(peers, s.rooms - {r}, s.table, s.counts - {r}))
  }

  predicate Names(l: Lists, server: Node) {
    server in l.egress || server in l.ingress
  }

  function Unnamed(m: map<Room, Lists>, server: Node): map<Room, Lists> {
    map r | r in m && !Names(m[r], server) :: m[r]
  }

  /** `dropRoute` disconnects the peers of the server one by one; an exception ends it. */
  function DropPeers(s: State, order: seq<PeerId>, n: Node): Outcome {
    if order == [] then Done(s)
    else
      var last := order[|order| - 1];
      match DropPeers(s, order[..|order| - 1], n)
      case Threw(x) => Threw(x)
      case Done(x) => if last in x.peers && On(x.peers[last], n) then Disconnect(x, last) else Done(x)
  }

  predicate On(x: Peer, n: Node) {
    x.egress == Some(n) || x.ingress == Some(n)
  }

  function DropRoute(s: State, order: seq<PeerId>, n: Node): Outcome {
    match DropPeers(s, order, n)
    case Threw(x) => Threw(x)
    case Done(x) => Done(x.(rooms := Unnamed(x.rooms, n)))
  }

  // ---------------------------------------------------------------- the mesh

  predicate NoRepeats(ns: seq<Node>) {
    forall i, j :: 0 <= i < j < |ns| ==> ns[i] != ns[j]
  }

  /** The two tables agree on every room that both have, and list no server twice. */
  ghost predicate TablesAgree(s: State) {
    && (forall r :: r in s.rooms ==> r in s.table && s.table[r] == s.rooms[r])
    && (forall r :: r in s.table ==> NoRepeats(s.table[r].ingress) && NoRepeats(s.table[r].egress))
  }

  /** A peer has been sent a join for every egress server of its room, and for its own. */
  ghost predicate Meshed(s: State, p: PeerId)
    requires p in s.peers
  {
    s.peers[p].room.Some? ==>
      && Elements(ListsOf(s, s.peers[p].room.value).egress) <= s.peers[p].told
      && (s.peers[p].egress.Some? ==> s.peers[p].egress.value in s.peers[p].told)
  }

  ghost predicate Mesh(s: State) {
    forall p :: p in s.peers ==> Meshed(s, p)
  }

  lemma WithElements(ns: seq<Node>, n: Node)
    ensures Elements(With(ns, n)) == Elements(ns) + {n}
    ensures NoRepeats(ns) ==> NoRepeats(With(ns, n))
  {
  }

  lemma JoinKeepsTables(s: State, p: PeerId, r: Room, i: Option<Node>, e: Option<Node>)
    requires TablesAgree(s)
    ensures TablesAgree(JoinRoom(s, p, r, i, e))
  {
    var lists := ListsOf(s, r);
    assert NoRepeats(lists.ingress) && NoRepeats(lists.egress);
    if i.Some? && e.Some? {
      WithElements(lists.ingress, i.value);
      WithElements(lists.egress, e.value);
    }
  }

  lemma JoinMeshes(s: State, p: PeerId, r: Room, i: Node, e: Node, q: PeerId)
    requires Mesh(s) && p in s.peers && q in s.peers
    ensures Meshed(JoinRoom(s, p, r, Some(i), Some(e)), q)
  {
    assert Meshed(s, q);
    WithElements(ListsOf(s, r).egress, e);
  }

  /** A join keeps the mesh exactly if servers could be selected, or the peer has no egress server
      from before that is foreign to the room. */
  lemma JoinKeepsMeshIff(s: State, p: PeerId, r: Room, i: Option<Node>, e: Option<Node>)
    requires Mesh(s) && p in s.peers
    ensures Mesh(JoinRoom(s, p, r, i, e)) <==>
      || (i.Some? && e.Some?) || s.peers[p].egress.None? || s.peers[p].egress.value in ListsOf(s, r).egress
  {
    var s' := JoinRoom(s, p, r, i, e);
    if i.Some? && e.Some? {
      forall q | q in s'.peers ensures Meshed(s', q) {
        JoinMeshes(s, p, r, i.value, e.value, q);
      }
    } else {
      forall q | q in s'.peers && q != p ensures Meshed(s', q) {
        assert Meshed(s, q);
      }
      assert Meshed(s', p) <==> s.peers[p].egress.None? || s.peers[p].egress.value in Elements(ListsOf(s, r).egress);
    }
  }

  lemma LeaveKeepsMesh(s: State, p: PeerId, r: Room)
    requires Mesh(s)
    ensures Mesh(LeaveRoom(s, p, r))
  {
    var s' := LeaveRoom(s, p, r);
    forall q | q in s'.peers ensures Meshed(s', q) {
      assert Meshed(s, q);
    }
  }

  lemma DisconnectKeepsMesh(s: State, p: PeerId)
    requires Mesh(s)
    ensures Mesh(Disconnect(s, p).state)
  {
    var s' := Disconnect(s, p).state;
    forall q | q in s'.peers ensures Meshed(s', q) {
      assert Meshed(s, q);
    }
  }

  // ---------------------------------------------------------------- movement

  /** Movement of `q` that egress server `e` announced, and peer `p` was requested for. */
  ghost predicate Heard(s: State, p: PeerId, q: PeerId)
    requires p in s.peers && q in s.peers
  {
    forall e :: e in s.peers[q].announced ==> (q, e) in s.peers[p].asked
  }

  ghost predicate Listener(s: State, p: PeerId, q: PeerId)
    requires p in s.peers && q in s.peers
  {
    p != q && !s.peers[p].lobby && s.peers[p].room.Some? && s.peers[q].room == s.peers[p].room
  }

  /** No movement is lost to a peer that has left the lobby. */
  ghost predicate NoneLost(s: State) {
    forall p, q :: p in s.peers && q in s.peers && Listener(s, p, q) ==> Heard(s, p, q)
  }

  lemma AnnounceLosesNone(s: State, q: PeerId, e: Node)
    requires NoneLost(s)
    ensures NoneLost(Announce(s, q, e))
  {
    var s' := Announce(s, q, e);
    forall a, b | a in s'.peers && b in s'.peers && Listener(s', a, b) ensures Heard(s', a, b) {
      assert Listener(s, a, b) && Heard(s, a, b);
    }
  }

  /** The egress servers that announced movement in the peer's room are in the routing table. */
  ghost predicate AllRouted(s: State, p: PeerId)
    requires p in s.peers
  {
    forall q, e :: q in s.peers && q != p && s.peers[q].room == s.peers[p].room && e in s.peers[q].announced ==>
      (q, e) in s.peers[p].asked + AllMovement(s, p)
  }

  /** Leaving the lobby loses no movement exactly if each announcement in the room came from an
      egress server that the routing table has, or was answered before. */
  lemma PullLosesNoneIff(s: State, p: PeerId, spectator: bool)
    requires NoneLost(s) && p in s.peers && s.peers[p].room.Some? && ConsumeAllMovement(s, p, spectator).Done?
    ensures NoneLost(ConsumeAllMovement(s, p, spectator).state) <==> AllRouted(s, p)
  {
    var s' := ConsumeAllMovement(s, p, spectator).state;
    assert s'.peers[p].asked == s.peers[p].asked + AllMovement(s, p);
    if AllRouted(s, p) {
      forall a, b | a in s'.peers && b in s'.peers && Listener(s', a, b) ensures Heard(s', a, b) {
        assert a != p ==> Listener(s, a, b) && Heard(s, a, b);
      }
    }
    if NoneLost(s') {
      forall q, e | q in s.peers && q != p && s.peers[q].room == s.peers[p].room && e in s.peers[q].announced
        ensures (q, e) in s.peers[p].asked + AllMovement(s, p)
      {
        assert Listener(s', p, q) && Heard(s', p, q);
      }
    }
  }

  /** When all announcing servers are routed, the pull covers everything by itself. */
  lemma RoutedAnnouncements(s: State, p: PeerId)
    requires p in s.peers && s.peers[p].room.Some? && s.peers[p].room.value in s.table
    requires forall q :: q in s.peers && s.peers[q].room == s.peers[p].room ==>
      s.peers[q].announced <= Elements(s.table[s.peers[p].room.value].egress)
    ensures AllRouted(s, p)
  {
  }

  lemma LeaveLosesNone(s: State, p: PeerId, r: Room)
    requires NoneLost(s)
    ensures NoneLost(LeaveRoom(s, p, r))
  {
    var s' := LeaveRoom(s, p, r);
    forall a, b | a in s'.peers && b in s'.peers && Listener(s', a, b) ensures Heard(s', a, b) {
      assert s' != s ==> a != p && b != p;
      assert Listener(s, a, b) && Heard(s, a, b);
    }
  }

  lemma DisconnectLosesNone(s: State, p: PeerId)
    requires NoneLost(s)
    ensures NoneLost(Disconnect(s, p).state)
  {
    var s' := Disconnect(s, p).state;
    forall a, b | a in s'.peers && b in s'.peers && Listener(s', a, b) ensures Heard(s', a, b) {
      assert Listener(s, a, b) && Heard(s, a, b);
    }
  }

  /** The peer that joins and somebody in the room, one of them out of the lobby and not asked for
      what the other one has announced. */
  ghost predicate JoinMisses(s: State, p: PeerId, r: Room)
    requires p in s.peers
  {
    exists q :: q in s.peers && q != p && s.peers[q].room == Some(r) && Unheard(s, p, q)
  }

  ghost predicate Unheard(s: State, p: PeerId, q: PeerId)
    requires p in s.peers && q in s.peers
  {
    (!s.peers[p].lobby && !Heard(s, p, q)) || (!s.peers[q].lobby && !Heard(s, q, p))
  }

  /** Joining loses no movement exactly if nothing that was announced is unheard between the peer
      that joins and the peers of the room. */
  lemma JoinLosesNoneIff(s: State, p: PeerId, r: Room, i: Option<Node>, e: Option<Node>)
    requires NoneLost(s) && p in s.peers
    ensures NoneLost(JoinRoom(s, p, r, i, e)) <==> !JoinMisses(s, p, r)
  {
    var s' := JoinRoom(s, p, r, i, e);
    JoinSpares(s, p, r, i, e);
    if JoinMisses(s, p, r) {
      var q :| q in s.peers && q != p && s.peers[q].room == Some(r) && Unheard(s, p, q);
      assert !s.peers[p].lobby && !Heard(s, p, q) ==> Listener(s', p, q) && !Heard(s', p, q);
      assert !s.peers[q].lobby && !Heard(s, q, p) ==> Listener(s', q, p) && !Heard(s', q, p);
    } else {
      forall a, b | a in s'.peers && b in s'.peers && Listener(s', a, b) ensures Heard(s', a, b) {
        if a != p && b != p {
          assert Listener(s, a, b) && Heard(s, a, b);
        } else {
          var q := if a == p then b else a;
          assert !Unheard(s, p, q);
        }
      }
    }
  }

  /** Joining changes where the peer is and who is told, but nobody's movement. */
  lemma JoinSpares(s: State, p: PeerId, r: Room, i: Option<Node>, e: Option<Node>)
    requires p in s.peers
    ensures var s' := JoinRoom(s, p, r, i, e);
      s'.peers.Keys == s.peers.Keys && forall q :: q in s.peers ==>
        && s'.peers[q].room == (if q == p then Some(r) else s.peers[q].room)
        && s'.peers[q].lobby == s.peers[q].lobby && s'.peers[q].announced == s.peers[q].announced
        && s'.peers[q].asked == s.peers[q].asked
  {
  }

  /** So a peer that is still in the lobby, with nothing announced, loses nothing by joining. */
  lemma JoinLosesNone(s: State, p: PeerId, r: Room, i: Option<Node>, e: Option<Node>)
    requires NoneLost(s) && p in s.peers && s.peers[p].lobby && s.peers[p].announced == {}
    ensures NoneLost(JoinRoom(s, p, r, i, e))
  {
    JoinLosesNoneIff(s, p, r, i, e);
  }
}
