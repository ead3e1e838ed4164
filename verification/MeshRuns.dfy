/** Runs of any operations of the signaling server, in any order and with any arguments: peers stay
    joined to all egress servers of their rooms, and the two tables stay in agreement. */
module MeshRuns {
  import opened Sfu
  import opened Signaling
  import opened ServerClose

  /** `Close` is the close of a server's connection: it drops the route, and unless something throws
      before, the routing table is swept. */
  datatype Operation =
    | Create(peer: PeerId)
    | Join(peer: PeerId, room: Room, ingress: Option<Node>, egress: Option<Node>)
    | Leave(peer: PeerId, room: Room)
    | Ingress(peer: PeerId)
    | Send(peer: PeerId)
    | Movement(peer: PeerId, spectator: bool)
    | Announced(peer: PeerId, server: Node)
    | Count(peer: PeerId, rooms: seq<Room>)
    | Gone(peer: PeerId)
    | Close(order: seq<PeerId>, server: Node, isEgress: bool, swept: bool)

  function AfterClose(s: State, order: seq<PeerId>, n: Node, isEgress: bool, swept: bool): State {
    match DropRoute(s, order, n)
    case Threw(t) => t
    case Done(t) => if swept then t.(table := Unrouted(t.table, n, isEgress)) else t
  }

  /** The state after an operation, whether it throws or not. */
  function Next(s: State, a: Operation): State {
    match a
    case Create(p) => CreatePeer(s, p)
    case Join(p, r, i, e) => JoinRoom(s, p, r, i, e)
    case Leave(p, r) => LeaveRoom(s, p, r)
    case Ingress(p) => CreateIngress(s, p)
    case Send(p) => ConnectSend(s, p).state
    case Movement(p, spectator) => ConsumeAllMovement(s, p, spectator).state
    case Announced(p, e) => Announce(s, p, e)
    case Count(p, rooms) => GetPeerCount(s, p, rooms)
    case Gone(p) => Disconnect(s, p).state
    case Close(order, n, isEgress, swept) => AfterClose(s, order, n, isEgress, swept)
  }

  /** A join for which no servers are to be had, by a peer that still has an egress server which is
      foreign to the room. */
  predicate Stale(s: State, a: Operation) {
    && a.Join? && a.peer in s.peers && (a.ingress.None? || a.egress.None?)
    && s.peers[a.peer].egress.Some? && s.peers[a.peer].egress.value !in ListsOf(s, a.room).egress
  }

  /** Peers keep their places and joins, and rooms go or stay as they are. */
  ghost predicate Sparing(s: State, t: State) {
    && (forall p :: p in t.peers ==>
          p in s.peers && t.peers[p].room == s.peers[p].room && t.peers[p].egress == s.peers[p].egress
            && t.peers[p].told == s.peers[p].told)
    && (forall r :: r in t.rooms ==> r in s.rooms && t.rooms[r] == s.rooms[r])
  }

  lemma SparingKeepsMesh(s: State, t: State)
    requires Mesh(s) && Sparing(s, t)
    ensures Mesh(t)
  {
    forall p | p in t.peers ensures Meshed(t, p) {
      assert Meshed(s, p);
    }
  }

  lemma {:induction false} DropSpares(s: State, order: seq<PeerId>, n: Node)
    ensures Sparing(s, DropPeers(s, order, n).state)
    ensures DropPeers(s, order, n).state.table == s.table
  {
    if order != [] {
      DropSpares(s, order[..|order| - 1], n);
    }
  }

  lemma ClosedSpares(s: State, order: seq<PeerId>, n: Node, isEgress: bool, swept: bool)
    ensures Sparing(s, AfterClose(s, order, n, isEgress, swept))
  {
    DropSpares(s, order, n);
  }

  /** The sweep of the routing table takes no room that `rooms` still has. */
  lemma ClosedAgrees(s: State, order: seq<PeerId>, n: Node, isEgress: bool, swept: bool)
    requires TablesAgree(s)
    ensures TablesAgree(AfterClose(s, order, n, isEgress, swept))
  {
    DropSpares(s, order, n);
  }

  lemma CreateKeepsMesh(s: State, p: PeerId)
    requires Mesh(s)
    ensures Mesh(CreatePeer(s, p))
  {
    var t := CreatePeer(s, p);
    forall q | q in t.peers ensures Meshed(t, q) {
      assert q in s.peers ==> Meshed(s, q);
    }
  }

  lemma MovementSpares(s: State, p: PeerId, spectator: bool)
    ensures Sparing(s, ConsumeAllMovement(s, p, spectator).state)
  {
    if p in s.peers {
      LobbySpares(s, p, spectator);
    }
  }

  lemma LobbySpares(s: State, p: PeerId, spectator: bool)
    requires p in s.peers
    ensures Sparing(s, LeaveLobby(s, p, spectator).state) && p in LeaveLobby(s, p, spectator).state.peers
  {
  }

  lemma AnnouncementSpares(s: State, p: PeerId, e: Node)
    ensures Sparing(s, Announce(s, p, e))
  {
  }

  lemma TransportSpares(s: State, a: Operation)
    requires a.Ingress? || a.Send? || a.Count?
    ensures Sparing(s, Next(s, a))
  {
  }

  lemma OthersSpare(s: State, a: Operation)
    requires !a.Create? && !a.Join? && !a.Leave? && !a.Gone?
    ensures Sparing(s, Next(s, a))
  {
    match a
    case Movement(p, spectator) => MovementSpares(s, p, spectator);
    case Announced(p, e) => AnnouncementSpares(s, p, e);
    case Close(order, n, isEgress, swept) => ClosedSpares(s, order, n, isEgress, swept);
    case _ => TransportSpares(s, a);
  }

  lemma OtherKeepsMesh(s: State, a: Operation)
    requires Mesh(s) && !a.Create? && !a.Join? && !a.Leave? && !a.Gone?
    ensures Mesh(Next(s, a))
  {
    OthersSpare(s, a);
    SparingKeepsMesh(s, Next(s, a));
  }

  lemma AnyJoinKeepsMeshIff(s: State, a: Operation)
    requires Mesh(s) && a.Join?
    ensures Mesh(Next(s, a)) <==> !Stale(s, a)
  {
    if a.peer in s.peers {
      JoinKeepsMeshIff(s, a.peer, a.room, a.ingress, a.egress);
    }
  }

  lemma KeepsMesh(s: State, a: Operation)
    requires Mesh(s) && !a.Join?
    ensures Mesh(Next(s, a))
  {
    match a
    case Create(p) => CreateKeepsMesh(s, p);
    case Leave(p, r) => LeaveKeepsMesh(s, p, r);
    case Gone(p) => DisconnectKeepsMesh(s, p);
    case _ => OtherKeepsMesh(s, a);
  }

  /** An operation keeps every peer joined to all egress servers of its room exactly if it is not a
      stale join. */
  lemma OperationKeepsMeshIff(s: State, a: Operation)
    requires Mesh(s)
    ensures Mesh(Next(s, a)) <==> !Stale(s, a)
  {
    if a.Join? {
      AnyJoinKeepsMeshIff(s, a);
    } else {
      KeepsMesh(s, a);
    }
  }

  lemma OperationKeepsTables(s: State, a: Operation)
    requires TablesAgree(s)
    ensures TablesAgree(Next(s, a))
  {
    match a
    case Join(p, r, i, e) => JoinKeepsTables(s, p, r, i, e);
    case Close(order, n, isEgress, swept) => ClosedAgrees(s, order, n, isEgress, swept);
    case _ =>
  }

  ghost predicate Run(trace: seq<State>, operations: seq<Operation>) {
    && |trace| == |operations| + 1 && trace[0] == EMPTY
    && (forall k :: 0 <= k < |operations| ==> trace[k + 1] == Next(trace[k], operations[k]))
  }

  /** In every state of every run `rooms` and the routing table agree. */
  lemma {:induction false} TablesAlwaysAgree(trace: seq<State>, operations: seq<Operation>, k: nat)
    requires Run(trace, operations) && k < |trace|
    ensures TablesAgree(trace[k])
  {
    if k > 0 {
      TablesAlwaysAgree(trace, operations, k - 1);
      OperationKeepsTables(trace[k - 1], operations[k - 1]);
      assert trace[(k - 1) + 1] == Next(trace[k - 1], operations[k - 1]);
    }
  }

  /** In every state of a run without stale joins each peer has been sent a join for all egress
      servers of its room and for its own; the first stale join breaks that. */
  lemma {:induction false} MeshUntilStale(trace: seq<State>, operations: seq<Operation>, k: nat)
    requires Run(trace, operations) && k < |trace|
    requires forall j :: 0 <= j < k - 1 ==> !Stale(trace[j], operations[j])
    ensures Mesh(trace[k]) <==> k == 0 || !Stale(trace[k - 1], operations[k - 1])
  {
    if k > 0 {
      MeshUntilStale(trace, operations, k - 1);
      OperationKeepsMeshIff(trace[k - 1], operations[k - 1]);
      assert trace[(k - 1) + 1] == Next(trace[k - 1], operations[k - 1]);
    }
  }

  // ---------------------------------------------------------------- peers with servers are in rooms

  lemma {:induction false} DropKeepsPlaced(s: State, order: seq<PeerId>, n: Node)
    requires Placed(s)
    ensures Placed(DropPeers(s, order, n).state)
  {
    if order != [] {
      DropKeepsPlaced(s, order[..|order| - 1], n);
    }
  }

  lemma JoinKeepsPlaced(s: State, p: PeerId, r: Room, i: Option<Node>, e: Option<Node>)
    requires Placed(s)
    ensures Placed(JoinRoom(s, p, r, i, e))
  {
  }

  lemma MovementKeepsPlaced(s: State, p: PeerId, spectator: bool)
    requires Placed(s)
    ensures Placed(ConsumeAllMovement(s, p, spectator).state)
  {
    if p in s.peers {
      var t := LeaveLobby(s, p, spectator).state;
      assert t.peers.Keys == s.peers.Keys;
      assert forall q :: q in s.peers ==> t.peers[q].room == s.peers[q].room;
    }
  }

  lemma OperationKeepsPlaced(s: State, a: Operation)
    requires Placed(s)
    ensures Placed(Next(s, a))
  {
    match a
    case Join(p, r, i, e) => JoinKeepsPlaced(s, p, r, i, e);
    case Movement(p, spectator) => MovementKeepsPlaced(s, p, spectator);
    case Close(order, n, isEgress, swept) => DropKeepsPlaced(s, order, n);
    case _ =>
  }

  /** In every state of every run, whoever has servers is in a room. */
  lemma {:induction false} AlwaysPlaced(trace: seq<State>, operations: seq<Operation>, k: nat)
    requires Run(trace, operations) && k < |trace|
    ensures Placed(trace[k])
  {
    if k > 0 {
      AlwaysPlaced(trace, operations, k - 1);
      OperationKeepsPlaced(trace[k - 1], operations[k - 1]);
      assert trace[(k - 1) + 1] == Next(trace[k - 1], operations[k - 1]);
    }
  }
}
