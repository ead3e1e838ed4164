/** The signaling server's operations step by step, with the loops over peers and servers. */
module PeerManager {
  import opened Sfu
  import opened Signaling

  class PeerConnectionManager {
    var s: State

    constructor ()
      ensures s == EMPTY
    {
      s := EMPTY;
    }

    /** `joinRoom`: first a join for every egress server of the room, then the selected servers, and
        where the egress server is new to the room a join for it to everyone who is not on it. */
    method JoinRoom(p: PeerId, r: Room, i: Option<Node>, e: Option<Node>)
      modifies this
      ensures s == Signaling.JoinRoom(old(s), p, r, i, e)
    {
      if p !in s.peers {
        return;
      }
      var lists := ListsOf(s, r);
      var told: set<Node> := {};
      for k := 0 to |lists.egress|
        invariant told == Elements(lists.egress[..k])
      {
        assert lists.egress[..k + 1] == lists.egress[..k] + [lists.egress[k]];
        told := told + {lists.egress[k]};
      }
      assert lists.egress[..|lists.egress|] == lists.egress;
      var joining := s.peers[p].(room := Some(r), told := told);
      if i.None? || e.None? {
        s := s.(peers := s.peers[p := joining]);
        return;
      }
      joining := joining.(ingress := i, egress := e);
      var peers := s.peers;
      if e.value !in lists.egress {
        peers := TellOthers(peers, r, e.value);
        joining := joining.(told := joining.told + {e.value});
      }
      lists := Lists(With(lists.ingress, i.value), With(lists.egress, e.value));
      s := s.(peers := peers[p := joining], rooms := s.rooms[r := lists], table := s.table[r := lists]);
    }

    method LeaveRoom(p: PeerId, r: Room)
      modifies this
      ensures s == Signaling.LeaveRoom(old(s), p, r)
    {
      if p !in s.peers || r !in s.rooms || r !in s.counts {
        return;
      }
      var x := s.peers[p];
      var c := s.counts[r];
      c := c.(peers := c.peers - 1);
      if x.participant {
        c := c.(participants := c.participants - 1);
      }
      if x.spectator {
        c := c.(spectators := c.spectators - 1);
      }
      if x.lobby && c.lobby > 0 {
        c := c.(lobby := c.lobby - 1);
      }
      s := s.(counts := s.counts[r := c]);
      if c.participants == 0 && c.lobby == 0 {
        if x.room.Some? {
          s := s.(counts := s.counts - {r});
        }
        s := s.(rooms := s.rooms - {r});
      }
      s := s.(peers := s.peers[p := NOBODY]);
    }

    method ConnectSend(p: PeerId) returns (threw: bool)
      modifies this
      ensures Signaling.ConnectSend(old(s), p) == if threw then Threw(s) else Done(s)
    {
      if p !in s.peers || s.peers[p].room.None? {
        return false;
      }
      var r := s.peers[p].room.value;
      s := s.(peers := s.peers[p := s.peers[p].(participant := true)]);
      if r !in s.counts {
        return true;
      }
      s := s.(counts := s.counts[r := s.counts[r].(participants := s.counts[r].participants + 1)]);
      return false;
    }

    method CreateIngress(p: PeerId)
      modifies this
      ensures s == Signaling.CreateIngress(old(s), p)
    {
      if p !in s.peers || s.peers[p].room.None? {
        return;
      }
      var r := s.peers[p].room.value;
      var c := NOTHING;
      if r in s.counts {
        c := s.counts[r];
      }
      c := c.(lobby := c.lobby + 1);
      c := c.(peers := c.peers + 1);
      s := s.(peers := s.peers[p := s.peers[p].(counted := true)], counts := s.counts[r := c]);
    }

    /** The part of `consumeAllMovement` that takes a peer out of the lobby. */
    method LeaveLobby(p: PeerId, spectator: bool) returns (threw: bool)
      requires p in s.peers
      modifies this
      ensures Signaling.LeaveLobby(old(s), p, spectator) == if threw then Threw(s) else Done(s)
    {
      var x := s.peers[p];
      if !x.lobby || x.room.None? {
        return false;
      }
      var r := x.room.value;
      if r !in s.counts {
        return true;
      }
      var c := s.counts[r];
      if c.lobby > 0 {
        c := c.(lobby := c.lobby - 1);
      }
      x := x.(lobby := false);
      if spectator {
        x := x.(spectator := true);
        c := c.(spectators := c.spectators + 1);
      }
      s := s.(peers := s.peers[p := x], counts := s.counts[r := c]);
      return false;
    }

    /** `consumeAllMovement`: the peer leaves the lobby before the producers are collected. */
    method ConsumeAllMovement(p: PeerId, spectator: bool) returns (threw: bool)
      modifies this
      ensures Signaling.ConsumeAllMovement(old(s), p, spectator) == if threw then Threw(s) else Done(s)
    {
      if p !in s.peers {
        return false;
      }
      threw := LeaveLobby(p, spectator);
      if threw {
        return true;
      }
      SameMovement(old(s), s, p);
      var asked := RequestAllMovement(s, p);
      s := s.(peers := s.peers[p := s.peers[p].(asked := s.peers[p].asked + asked)]);
      return false;
    }

    /** `createConsumerMessages` for movement, and its delivery to the announcing server. */
    method Announce(q: PeerId, e: Node)
      modifies this
      ensures s == Signaling.Announce(old(s), q, e)
    {
      if q !in s.peers {
        return;
      }
      var peers := AskListeners(s, q, e);
      s := s.(peers := peers[q := peers[q].(announced := peers[q].announced + {e})]);
    }

    /** `getPeerCount`. */
    method GetPeerCount(p: PeerId, rooms: seq<Room>)
      modifies this
      ensures s == Signaling.GetPeerCount(old(s), p, rooms)
    {
      if p !in s.peers {
        return;
      }
      var counts := s.counts;
      for k := 0 to |rooms|
        invariant counts == WithCounters(s.counts, rooms[..k])
      {
        assert rooms[..k + 1] == rooms[..k] + [rooms[k]];
        if rooms[k] !in counts {
          counts := counts[rooms[k] := NOTHING];
        }
      }
      assert rooms[..|rooms|] == rooms;
      s := s.(counts := counts);
    }

    method Disconnect(p: PeerId) returns (threw: bool)
      modifies this
      ensures Signaling.Disconnect(old(s), p) == if threw then Threw(s) else Done(s)
    {
      if p !in s.peers || s.peers[p].room.None? {
        return false;
      }
      var x := s.peers[p];
      var r := x.room.value;
      if r !in s.rooms {
        s := s.(peers := s.peers - {p});
        return false;
      }
      if r !in s.counts {
        return true;
      }
      var peers := s.peers - {p};
      var number := CountPeers(peers, r);
      if number == 0 {
        s := State(peers, s.rooms - {r}, s.table, s.counts - {r});
      } else {
        s := s.(peers := peers, counts := s.counts[r := Less(s.counts[r], x)]);
      }
      return false;
    }

    /** `dropRoute`: the peers are looked at in the manager's order. */
    method DropRoute(order: seq<PeerId>, n: Node) returns (threw: bool)
      modifies this
      ensures Signaling.DropRoute(old(s), order, n) == if threw then Threw(s) else Done(s)
    {
      for k := 0 to |order|
        invariant DropPeers(old(s), order[..k], n) == Done(s)
      {
        assert order[..k + 1][..k] == order[..k];
        if order[k] in s.peers {
          var x := s.peers[order[k]];
          if x.egress == Some(n) || x.ingress == Some(n) {
            threw := Disconnect(order[k]);
            if threw {
              DropStops(old(s), order, n, k + 1);
              return true;
            }
          }
        }
      }
      assert order[..|order|] == order;
      s := s.(rooms := Unnamed(s.rooms, n));
      return false;
    }
  }

  lemma {:induction false} DropStops(s: State, order: seq<PeerId>, n: Node, k: nat)
    requires k <= |order| && DropPeers(s, order[..k], n).Threw?
    ensures DropPeers(s, order, n) == DropPeers(s, order[..k], n)
    decreases |order| - k
  {
    if k == |order| {
      assert order[..k] == order;
    } else {
      assert order[..k + 1][..k] == order[..k];
      DropStops(s, order, n, k + 1);
    }
  }

  method AskListeners(s: State, q: PeerId, e: Node) returns (peers: map<PeerId, Peer>)
    requires q in s.peers
    ensures peers == AskedBy(s, q, e)
  {
    peers := s.peers;
    var left := s.peers.Keys;
    while left != {}
      invariant left <= s.peers.Keys && peers.Keys == s.peers.Keys
      invariant forall p :: p in s.peers ==> peers[p] == if p in left then s.peers[p] else AskedBy(s, q, e)[p]
      decreases |left|
    {
      var p :| p in left;
      left := left - {p};
      var x := peers[p];
      if x.room != s.peers[q].room || p == q || x.lobby || x.room.None? {
        continue;
      }
      peers := peers[p := x.(asked := x.asked + {(q, e)})];
    }
  }

  method TellOthers(peers: map<PeerId, Peer>, r: Room, e: Node) returns (peers': map<PeerId, Peer>)
    ensures peers' == Told(peers, r, e)
  {
    peers' := peers;
    var left := peers.Keys;
    while left != {}
      invariant left <= peers.Keys && peers'.Keys == peers.Keys
      invariant forall q :: q in peers ==> peers'[q] == if q in left then peers[q] else Told(peers, r, e)[q]
      decreases |left|
    {
      var q :| q in left;
      left := left - {q};
      if peers[q].room != Some(r) || peers[q].egress == Some(e) {
        continue;
      }
      peers' := peers'[q := peers[q].(told := peers[q].told + {e})];
    }
  }

  lemma SameMovement(s: State, s': State, p: PeerId)
    requires p in s.peers && s'.table == s.table && s'.peers.Keys == s.peers.Keys
    requires forall q :: q in s.peers ==> s'.peers[q].room == s.peers[q].room
    ensures AllMovement(s', p) == AllMovement(s, p)
  {
  }

  /** `requestAllMovement`: one message to each egress server of the room, about everyone else. */
  method RequestAllMovement(s: State, p: PeerId) returns (asked: set<(PeerId, Node)>)
    requires p in s.peers
    ensures asked == AllMovement(s, p)
  {
    var producing := Producing(s.peers, p);
    asked := {};
    if s.peers[p].room.Some? && s.peers[p].room.value in s.table {
      var egress := s.table[s.peers[p].room.value].egress;
      for k := 0 to |egress|
        invariant asked == set q, e | q in producing && e in Elements(egress[..k]) :: (q, e)
      {
        assert egress[..k + 1] == egress[..k] + [egress[k]];
        asked := asked + set q | q in producing :: (q, egress[k]);
      }
      assert egress[..|egress|] == egress;
    }
  }

  /** The other peers of the same room. */
  method Producing(peers: map<PeerId, Peer>, p: PeerId) returns (producing: set<PeerId>)
    requires p in peers
    ensures producing == set q | q in peers && q != p && peers[q].room == peers[p].room
  {
    producing := {};
    var left := peers.Keys;
    while left != {}
      invariant left <= peers.Keys
      invariant producing == set q | q in peers && q !in left && q != p && peers[q].room == peers[p].room
      decreases |left|
    {
      var q :| q in left;
      left := left - {q};
      if peers[q].room != peers[p].room || q == p {
        continue;
      }
      producing := producing + {q};
    }
  }

  method CountPeers(peers: map<PeerId, Peer>, r: Room) returns (number: nat)
    ensures number == 0 <==> !Occupied(peers, r)
  {
    number := 0;
    var left := peers.Keys;
    while left != {}
      invariant left <= peers.Keys
      invariant number == 0 <==> forall q :: q in peers && q !in left ==> peers[q].room != Some(r)
      decreases |left|
    {
      var q :| q in left;
      left := left - {q};
      if peers[q].room == Some(r) {
        number := number + 1;
      }
    }
  }
}
