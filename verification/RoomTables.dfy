/** The room objects of the signaling server: what `joinRoom` changes through one table it changes in
    the other, because both hold the same object. */
module RoomTables {
  import opened Sfu
  import opened Signaling
  import opened ServerClose

  class RoomObject {
    var ingress: seq<Node>
    var egress: seq<Node>

    constructor ()
      ensures ingress == [] && egress == []
    {
      ingress, egress := [], [];
    }

    function AsLists(): Lists
      reads this
    {
      Lists(ingress, egress)
    }

    method Add(i: Node, e: Node)
      modifies this
      ensures AsLists() == Lists(With(old(ingress), i), With(old(egress), e))
    {
      if i !in ingress {
        ingress := ingress + [i];
      }
      if e !in egress {
        egress := egress + [e];
      }
    }
  }

  class Tables {
    var rooms: map<Room, RoomObject>
    var routingTable: map<Room, RoomObject>

    /** Whatever both tables have under one name is one object; different names have different ones. */
    ghost predicate Valid()
      reads this
    {
      && (forall r :: r in rooms ==> r in routingTable && routingTable[r] == rooms[r])
      && (forall r, r' :: r in routingTable && r' in routingTable && routingTable[r] == routingTable[r'] ==> r == r')
    }

    ghost function Rooms(): map<Room, Lists>
      reads this, rooms.Values
    {
      map r | r in rooms :: rooms[r].AsLists()
    }

    ghost function Table(): map<Room, Lists>
      reads this, routingTable.Values
    {
      map r | r in routingTable :: routingTable[r].AsLists()
    }

    constructor ()
      ensures Valid() && Rooms() == map[] && Table() == map[]
    {
      rooms, routingTable := map[], map[];
    }

    /** The part of `joinRoom` that changes the room; the object is changed in place. */
    method Join(r: Room, i: Node, e: Node)
      requires Valid()
      modifies this, rooms.Values
      ensures Valid()
      ensures Rooms() == old(Rooms())[r := Joined(old(Rooms()), r, i, e)]
      ensures Table() == old(Table())[r := Joined(old(Rooms()), r, i, e)]
    {
      ghost var before, beforeTable, joined := Rooms(), Table(), Joined(Rooms(), r, i, e);
      var room := FindOrMake(r);
      room.Add(i, e);
      assert room.AsLists() == joined;
      assert forall x :: x in rooms && x != r ==> rooms[x].AsLists() == old(rooms[x].AsLists());
      assert forall x :: x in routingTable && x != r ==> routingTable[x].AsLists() == old(routingTable[x].AsLists());
      PutAgrees(before, Rooms(), r, joined);
      PutAgrees(beforeTable, Table(), r, joined);
      Put(r, room);
    }

    method FindOrMake(r: Room) returns (room: RoomObject)
      requires Valid()
      ensures if r in rooms then room == rooms[r] && room in rooms.Values
        else fresh(room) && room.AsLists() == Lists([], [])
    {
      if r in rooms {
        return rooms[r];
      }
      room := new RoomObject();
    }

    /** `rooms.set` and `setRoute`, with the same object. */
    method Put(r: Room, room: RoomObject)
      requires Valid() && forall x :: x in routingTable && x != r ==> routingTable[x] != room
      modifies this
      ensures Valid()
      ensures Rooms() == old(Rooms())[r := room.AsLists()] && Table() == old(Table())[r := room.AsLists()]
    {
      rooms := rooms[r := room];
      routingTable := routingTable[r := room];
    }

    /** `rooms.delete`: the object stays in the routing table. */
    method Delete(r: Room)
      requires Valid()
      modifies this`rooms
      ensures Valid() && Rooms() == old(Rooms()) - {r} && Table() == old(Table())
    {
      rooms := rooms - {r};
    }

    /** The end of `dropRoute`: `rooms` loses the rooms that name the server. */
    method DropServer(server: Node)
      requires Valid()
      modifies this`rooms
      ensures Valid()
      ensures Rooms() == Unnamed(old(Rooms()), server) && Table() == old(Table())
    {
      rooms := Keep(rooms, server);
    }

    /** The end of the connection's close handler: the routing table loses the rooms that list the
        server for its role, which `rooms` has lost already. */
    method DropRoutes(server: Node, isEgress: bool)
      requires Valid() && forall r :: r in rooms ==> !Names(rooms[r].AsLists(), server)
      modifies this`routingTable
      ensures Valid()
      ensures Rooms() == old(Rooms()) && Table() == Unrouted(old(Table()), server, isEgress)
    {
      routingTable := KeepRoutes(routingTable, server, isEgress);
    }
  }

  /** The lists of a room, or of a new one, with the servers of a peer that joins. */
  function Joined(m: map<Room, Lists>, r: Room, i: Node, e: Node): Lists {
    var lists := if r in m then m[r] else Lists([], []);
    Lists(With(lists.ingress, i), With(lists.egress, e))
  }

  /** The object changed in place has what `joinRoom` makes of the room in both tables. */
  lemma JoinedIs(s: State, p: PeerId, r: Room, i: Node, e: Node)
    requires p in s.peers
    ensures JoinRoom(s, p, r, Some(i), Some(e)).rooms == s.rooms[r := Joined(s.rooms, r, i, e)]
    ensures JoinRoom(s, p, r, Some(i), Some(e)).table == s.table[r := Joined(s.rooms, r, i, e)]
  {
  }

  lemma PutAgrees(m: map<Room, Lists>, m': map<Room, Lists>, r: Room, l: Lists)
    requires m'.Keys == m.Keys && forall x :: x in m && x != r ==> m'[x] == m[x]
    ensures m'[r := l] == m[r := l]
  {
  }

  function Keep(m: map<Room, RoomObject>, server: Node): map<Room, RoomObject>
    reads m.Values
  {
    map r | r in m && !Names(m[r].AsLists(), server) :: m[r]
  }

  function KeepRoutes(m: map<Room, RoomObject>, server: Node, isEgress: bool): map<Room, RoomObject>
    reads m.Values
  {
    map r | r in m && !ListsAs(m[r].AsLists(), server, isEgress) :: m[r]
  }
}
