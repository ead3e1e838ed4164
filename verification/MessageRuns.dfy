/** Runs of any operations of the signaling server, and what it sends: which egress servers a peer is
    sent a join for, and whose movement it is requested for - no more and no less than is due. */
module MessageRuns {
  import opened Sfu
  import opened Signaling
  import opened MeshRuns

  // ---------------------------------------------------------------- joins that are sent

  /** A join is sent to `p` for egress server `n` when the peer joins a room that lists it or joins on
      it itself, and when another peer brings it to the room that `p` is in, unless `p` is on it. */
  predicate Sends(s: State, a: Operation, p: PeerId, n: Node) {
    && a.Join? && p in s.peers && a.peer in s.peers
    && var brought := a.ingress.Some? && a.egress == Some(n);
       var listed := a.room in s.rooms && n in s.rooms[a.room].egress;
       if p == a.peer then listed || brought
       else brought && !listed && s.peers[p].room == Some(a.room) && s.peers[p].egress != Some(n)
  }

  /** The peer joins anew or leaves, so that what it was sent before is forgotten. */
  predicate Renews(s: State, a: Operation, p: PeerId) {
    (a.Join? && a.peer == p) || Leaves(s, a, p)
  }

  predicate Leaves(s: State, a: Operation, p: PeerId) {
    a.Leave? && a.peer == p && a.room in s.rooms && a.room in s.counts
  }

  /** A join tells whom it concerns, puts the peer into the room, on its servers if both could be had,
      and changes no other peer. */
  lemma JoinTells(s: State, p: PeerId, r: Room, i: Option<Node>, e: Option<Node>)
    requires p in s.peers
    ensures var t := JoinRoom(s, p, r, i, e);
      && t.peers.Keys == s.peers.Keys && t.counts == s.counts
      && (forall q, n :: q in s.peers ==>
        (n in t.peers[q].told <==> Sends(s, Join(p, r, i, e), q, n) || (q != p && n in s.peers[q].told)))
  {
  }

  lemma JoinPlaces(s: State, p: PeerId, r: Room, i: Option<Node>, e: Option<Node>, q: PeerId)
    requires p in s.peers && q in s.peers
    ensures var t := JoinRoom(s, p, r, i, e);
      && q in t.peers
      && t.peers[q] ==
           if q != p then s.peers[q].(told := t.peers[q].told)
           else if i.None? || e.None? then s.peers[p].(room := Some(r), told := t.peers[p].told)
           else s.peers[p].(room := Some(r), told := t.peers[p].told, ingress := i, egress := e)
  {
  }

  /** `ns` is extended by `n`, at its end, unless it has it. */
  ghost predicate Extends(ns: seq<Node>, n: Node, ns': seq<Node>) {
    ns' == if n in ns then ns else ns + [n]
  }

  /** Both tables list the servers of a join for its room, and other rooms stay as they are. */
  lemma JoinLists(s: State, p: PeerId, r: Room, i: Option<Node>, e: Option<Node>)
    ensures var t := JoinRoom(s, p, r, i, e);
      if p in s.peers && i.Some? && e.Some? then
        && r in t.rooms && t.rooms == s.rooms[r := t.rooms[r]] && t.table == s.table[r := t.rooms[r]]
        && Extends(if r in s.rooms then s.rooms[r].ingress else [], i.value, t.rooms[r].ingress)
        && Extends(if r in s.rooms then s.rooms[r].egress else [], e.value, t.rooms[r].egress)
      else t.rooms == s.rooms && t.table == s.table
  {
  }

  /** Every operation but a join leaves the joins sent to a peer as they are, or forgets them. */
  lemma OthersTell(s: State, a: Operation, p: PeerId)
    requires !a.Join? && p in Next(s, a).peers
    ensures Next(s, a).peers[p].told == if p in s.peers && !Leaves(s, a, p) then s.peers[p].told else {}
  {
    match a
    case Create(_) =>
    case Leave(_, _) =>
    case Gone(_) =>
    case _ => OthersSpare(s, a);
  }

  lemma ToldAfter(s: State, a: Operation, p: PeerId, n: Node)
    requires p in Next(s, a).peers
    ensures n in Next(s, a).peers[p].told <==>
      Sends(s, a, p, n) || (p in s.peers && n in s.peers[p].told && !Renews(s, a, p))
  {
    if a.Join? {
      if a.peer in s.peers {
        JoinTells(s, a.peer, a.room, a.ingress, a.egress);
      }
    } else {
      OthersTell(s, a, p);
    }
  }

  /** Between states `j` and `k` the peer stays, and neither joins nor leaves. */
  ghost predicate Stays(trace: seq<State>, operations: seq<Operation>, j: nat, k: nat, p: PeerId)
    requires |trace| == |operations| + 1 && k < |trace|
  {
    forall m :: j <= m < k ==> p in trace[m].peers && !Renews(trace[m], operations[m], p)
  }

  ghost predicate SentAt(trace: seq<State>, operations: seq<Operation>, j: nat, k: nat, p: PeerId, n: Node)
    requires |trace| == |operations| + 1 && k < |trace|
  {
    j < k && Sends(trace[j], operations[j], p, n) && Stays(trace, operations, j + 1, k, p)
  }

  lemma SentNext(trace: seq<State>, operations: seq<Operation>, i: nat, k: nat, p: PeerId, n: Node)
    requires |trace| == |operations| + 1 && i < |operations| && k == i + 1
    ensures (exists j: nat :: SentAt(trace, operations, j, k, p, n)) <==>
      || Sends(trace[i], operations[i], p, n)
      || (p in trace[i].peers && !Renews(trace[i], operations[i], p)
          && exists j: nat :: SentAt(trace, operations, j, i, p, n))
  {
    if j: nat :| SentAt(trace, operations, j, i, p, n) {
      assert p in trace[i].peers && !Renews(trace[i], operations[i], p) ==> SentAt(trace, operations, j, k, p, n);
    }
    if Sends(trace[i], operations[i], p, n) {
      assert SentAt(trace, operations, i, k, p, n);
    }
    if j: nat :| SentAt(trace, operations, j, k, p, n) {
      assert j < i ==> SentAt(trace, operations, j, i, p, n);
    }
  }

  /** In every state of every run, what a peer counts as joined to are exactly the egress servers for
      which it was due a join since it last joined or left. */
  lemma {:induction false} ToldIff(trace: seq<State>, operations: seq<Operation>, k: nat, p: PeerId, n: Node)
    requires Run(trace, operations) && k < |trace| && p in trace[k].peers
    ensures n in trace[k].peers[p].told <==> exists j: nat :: SentAt(trace, operations, j, k, p, n)
  {
    if k > 0 {
      var i := k - 1;
      assert trace[i + 1] == Next(trace[i], operations[i]);
      ToldAfter(trace[i], operations[i], p, n);
      SentNext(trace, operations, i, k, p, n);
      if p in trace[i].peers {
        ToldIff(trace, operations, i, p, n);
      }
    }
  }

  /** A peer that neither joins nor leaves stays in its room. */
  lemma RoomAfter(s: State, a: Operation, p: PeerId)
    requires p in s.peers && p in Next(s, a).peers && !Renews(s, a, p)
    ensures Next(s, a).peers[p].room == s.peers[p].room
  {
    if !a.Create? && !a.Join? && !a.Leave? && !a.Gone? {
      OthersSpare(s, a);
    }
  }

  lemma {:induction false} RoomStays(trace: seq<State>, operations: seq<Operation>, j: nat, k: nat, p: PeerId)
    requires Run(trace, operations) && j <= k < |trace| && Stays(trace, operations, j, k, p) && p in trace[k].peers
    ensures p in trace[j].peers && trace[j].peers[p].room == trace[k].peers[p].room
    decreases k
  {
    if j < k {
      var i := k - 1;
      assert p in trace[i].peers && !Renews(trace[i], operations[i], p);
      assert trace[i + 1] == Next(trace[i], operations[i]);
      RoomAfter(trace[i], operations[i], p);
      RoomStays(trace, operations, j, i, p);
    }
  }

  /** So a peer was sent joins only for egress servers that its own room listed, while it was in it. */
  lemma ToldWasListed(trace: seq<State>, operations: seq<Operation>, k: nat, p: PeerId, n: Node)
    requires Run(trace, operations) && k < |trace| && p in trace[k].peers && n in trace[k].peers[p].told
    ensures exists m: nat :: m <= k && Stays(trace, operations, m, k, p) && ListedFor(trace[m], p, n)
                             && trace[m].peers[p].room == trace[k].peers[p].room
  {
    ToldIff(trace, operations, k, p, n);
    var j: nat :| SentAt(trace, operations, j, k, p, n);
    assert trace[j + 1] == Next(trace[j], operations[j]);
    RoomStays(trace, operations, j + 1, k, p);
    SentIsListed(trace[j], operations[j], p, n);
  }

  ghost predicate ListedFor(s: State, p: PeerId, n: Node) {
    p in s.peers && s.peers[p].room.Some? && s.peers[p].room.value in s.rooms
    && n in s.rooms[s.peers[p].room.value].egress
  }

  lemma SentIsListed(s: State, a: Operation, p: PeerId, n: Node)
    requires Sends(s, a, p, n)
    ensures ListedFor(Next(s, a), p, n)
  {
  }

  // ---------------------------------------------------------------- movement that is requested

  /** Peer `p` is requested for the movement of `q` by egress server `e` when that is announced to its
      room and it has left the lobby, and when it asks for all movement and the route lists `e`. */
  predicate Requests(s: State, a: Operation, p: PeerId, q: PeerId, e: Node) {
    && p in s.peers && q in s.peers && p != q && s.peers[p].room.Some? && s.peers[q].room == s.peers[p].room
    && var r := s.peers[p].room.value;
       match a
       case Announced(x, n) => x == q && n == e && !s.peers[p].lobby
       case Movement(x, _) =>
         x == p && (s.peers[p].lobby ==> r in s.counts) && r in s.table && e in s.table[r].egress
       case _ => false
  }

  /** An announcement asks the listeners and is noted for its peer, and changes nothing else. */
  lemma AnnounceAsks(s: State, q: PeerId, e: Node)
    ensures var t := Announce(s, q, e);
      && t == s.(peers := t.peers) && t.peers.Keys == s.peers.Keys
      && (forall p, x: PeerId, n: Node :: p in s.peers ==>
        ((x, n) in t.peers[p].asked <==> Requests(s, Announced(q, e), p, x, n) || (x, n) in s.peers[p].asked))
  {
  }

  lemma AnnounceNotes(s: State, q: PeerId, e: Node, p: PeerId)
    requires p in s.peers
    ensures var t := Announce(s, q, e);
      && p in t.peers
      && t.peers[p] == s.peers[p].(asked := t.peers[p].asked,
                                   announced := s.peers[p].announced + if p == q then {e} else {})
  {
    if q in s.peers {
      var x := AskedBy(s, q, e)[p];
      assert x == s.peers[p].(asked := x.asked);
      if p != q {
        assert s.peers[p].announced + {} == s.peers[p].announced;
      }
    }
  }

  lemma PullAsks(s: State, p: PeerId, spectator: bool)
    ensures var t := ConsumeAllMovement(s, p, spectator).state;
      && t.peers.Keys == s.peers.Keys
      && forall x, q: PeerId, e: Node :: x in s.peers ==>
        ((q, e) in t.peers[x].asked <==> Requests(s, Movement(p, spectator), x, q, e) || (q, e) in s.peers[x].asked)
  {
    if p in s.peers {
      LobbyAsks(s, p, spectator);
    }
  }

  lemma LobbyAsks(s: State, p: PeerId, spectator: bool)
    requires p in s.peers
    ensures var t := LeaveLobby(s, p, spectator).state;
      t.peers.Keys == s.peers.Keys && forall x :: x in s.peers ==> t.peers[x].asked == s.peers[x].asked
    ensures LeaveLobby(s, p, spectator).Threw? <==>
      s.peers[p].lobby && s.peers[p].room.Some? && s.peers[p].room.value !in s.counts
  {
  }

  lemma {:induction false} DropAsks(s: State, order: seq<PeerId>, n: Node)
    ensures var t := DropPeers(s, order, n).state;
      forall p :: p in t.peers ==> p in s.peers && t.peers[p].asked == s.peers[p].asked
  {
    if order != [] {
      DropAsks(s, order[..|order| - 1], n);
    }
  }

  lemma OthersAsk(s: State, a: Operation, p: PeerId)
    requires !a.Announced? && !a.Movement? && p in Next(s, a).peers
    ensures Next(s, a).peers[p].asked == if p in s.peers && !Leaves(s, a, p) then s.peers[p].asked else {}
  {
    match a
    case Join(x, r, i, e) =>
      if x in s.peers {
        JoinSpares(s, x, r, i, e);
      }
    case Close(order, n, _, _) => DropAsks(s, order, n);
    case _ =>
  }

  lemma AskedAfter(s: State, a: Operation, p: PeerId, q: PeerId, e: Node)
    requires p in Next(s, a).peers
    ensures (q, e) in Next(s, a).peers[p].asked <==>
      Requests(s, a, p, q, e) || (p in s.peers && (q, e) in s.peers[p].asked && !Leaves(s, a, p))
  {
    match a
    case Announced(x, n) => AnnounceAsks(s, x, n);
    case Movement(x, spectator) => PullAsks(s, x, spectator);
    case _ => OthersAsk(s, a, p);
  }

  /** From state `j` to state `k` the peer is there and does not leave. */
  ghost predicate Remains(trace: seq<State>, operations: seq<Operation>, j: nat, k: nat, p: PeerId)
    requires |trace| == |operations| + 1 && k < |trace|
  {
    forall m :: j <= m < k ==> p in trace[m].peers && !Leaves(trace[m], operations[m], p)
  }

  ghost predicate RequestedAt(trace: seq<State>, operations: seq<Operation>, j: nat, k: nat, p: PeerId, q: PeerId,
      e: Node)
    requires |trace| == |operations| + 1 && k < |trace|
  {
    j < k && Requests(trace[j], operations[j], p, q, e) && Remains(trace, operations, j + 1, k, p)
  }

  lemma RequestedNext(trace: seq<State>, operations: seq<Operation>, i: nat, k: nat, p: PeerId, q: PeerId, e: Node)
    requires |trace| == |operations| + 1 && i < |operations| && k == i + 1
    ensures (exists j: nat :: RequestedAt(trace, operations, j, k, p, q, e)) <==>
      || Requests(trace[i], operations[i], p, q, e)
      || (p in trace[i].peers && !Leaves(trace[i], operations[i], p)
          && exists j: nat :: RequestedAt(trace, operations, j, i, p, q, e))
  {
    if j: nat :| RequestedAt(trace, operations, j, i, p, q, e) {
      assert p in trace[i].peers && !Leaves(trace[i], operations[i], p) ==>
        RequestedAt(trace, operations, j, k, p, q, e);
    }
    if Requests(trace[i], operations[i], p, q, e) {
      assert RequestedAt(trace, operations, i, k, p, q, e);
    }
    if j: nat :| RequestedAt(trace, operations, j, k, p, q, e) {
      assert j < i ==> RequestedAt(trace, operations, j, i, p, q, e);
    }
  }

  /** In every state of every run, the movement that a peer has been requested for is exactly what was
      due: announced to its room, or routed there when it asked for all, since it last left a room. */
  lemma {:induction false} AskedIff(trace: seq<State>, operations: seq<Operation>, k: nat, p: PeerId, q: PeerId,
      e: Node)
    requires Run(trace, operations) && k < |trace| && p in trace[k].peers
    ensures (q, e) in trace[k].peers[p].asked <==>
      exists j: nat :: RequestedAt(trace, operations, j, k, p, q, e)
  {
    if k > 0 {
      var i := k - 1;
      assert trace[i + 1] == Next(trace[i], operations[i]);
      AskedAfter(trace[i], operations[i], p, q, e);
      RequestedNext(trace, operations, i, k, p, q, e);
      if p in trace[i].peers {
        AskedIff(trace, operations, i, p, q, e);
      }
    }
  }
}
