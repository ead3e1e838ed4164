/** The room side of one media server, as values: the vectors and maps that the relay handlers
    read and change, one function for each handler's effect, and the invariant that ties the
    indexes to one another.  Names and ids are compared only for equality, so they are numbers. */
module Sfu {

  datatype Option<+T> = None | Some(value: T)

  type Room = nat
  type Node = nat          // the id of an ingress or egress server
  type RouterId = nat
  type TransportId = nat   // also stands for the ip, port and srtp keys of that transport
  type WorkerId = nat

  /** One entry of `relays`: the pipe of ingress router `router` towards `egress`. */
  datatype Relay = Relay(router: RouterId, egress: Node, transport: TransportId, room: Room)

  /** One entry of `pipetransports`. */
  datatype Pipe = Pipe(room: Room, transport: TransportId, connected: bool)

  datatype Server = Server(
    rooms: map<Room, seq<RouterId>>,
    routers: set<RouterId>,
    workerOf: map<RouterId, WorkerId>,
    relays: seq<Relay>,
    pipes: seq<Pipe>,
    pending: map<RouterId, TransportId>,
    relayRouters: map<RouterId, RouterId>,
    loads: map<WorkerId, nat>,
    index: nat)

  const Fresh := Server(map[], {}, map[], [], [], map[], map[], map[], 0)

  // ---------------------------------------------------------------- queries and deletions on vectors

  function OfRouter(rs: seq<Relay>, r: RouterId): (f: seq<Relay>)
    ensures forall x :: x in f <==> x in rs && x.router == r
  {
    if rs == [] then [] else (if rs[0].router == r then [rs[0]] else []) + OfRouter(rs[1..], r)
  }

  function OfPair(rs: seq<Relay>, r: RouterId, e: Node): (f: seq<Relay>)
    ensures forall x :: x in f <==> x in rs && x.router == r && x.egress == e
  {
    if rs == [] then []
    else (if rs[0].router == r && rs[0].egress == e then [rs[0]] else []) + OfPair(rs[1..], r, e)
  }

  /** The relays left when every relay of a router in `gone` has been deleted. */
  function Without(rs: seq<Relay>, gone: set<RouterId>): (f: seq<Relay>)
    ensures forall x :: x in f <==> x in rs && x.router !in gone
  {
    if rs == [] then [] else (if rs[0].router !in gone then [rs[0]] else []) + Without(rs[1..], gone)
  }

  function OutsideRoom(rs: seq<Relay>, room: Room): (f: seq<Relay>)
    ensures forall x :: x in f <==> x in rs && x.room != room
  {
    if rs == [] then [] else (if rs[0].room != room then [rs[0]] else []) + OutsideRoom(rs[1..], room)
  }

  function InRoom(rs: seq<Relay>, room: Room): (f: seq<Relay>)
    ensures forall x :: x in f <==> x in rs && x.room == room
  {
    if rs == [] then [] else (if rs[0].room == room then [rs[0]] else []) + InRoom(rs[1..], room)
  }

  function PipesWithout(ps: seq<Pipe>, gone: set<TransportId>): (f: seq<Pipe>)
    ensures forall x :: x in f <==> x in ps && x.transport !in gone
  {
    if ps == [] then [] else (if ps[0].transport !in gone then [ps[0]] else []) + PipesWithout(ps[1..], gone)
  }

  function PipesOutsideRoom(ps: seq<Pipe>, room: Room): (f: seq<Pipe>)
    ensures forall x :: x in f <==> x in ps && x.room != room
  {
    if ps == [] then [] else (if ps[0].room != room then [ps[0]] else []) + PipesOutsideRoom(ps[1..], room)
  }

  function PipesInRoom(ps: seq<Pipe>, room: Room): (f: seq<Pipe>)
    ensures forall x :: x in f <==> x in ps && x.room == room
  {
    if ps == [] then [] else (if ps[0].room == room then [ps[0]] else []) + PipesInRoom(ps[1..], room)
  }

  function FindPipe(ps: seq<Pipe>, t: TransportId): (p: Option<Pipe>)
    ensures p.Some? ==> p.value in ps && p.value.transport == t
    ensures p.None? ==> forall x :: x in ps ==> x.transport != t
  {
    if ps == [] then None else if ps[0].transport == t then Some(ps[0]) else FindPipe(ps[1..], t)
  }

  function RoutersOf(rs: seq<Relay>): set<RouterId> {
    set x | x in rs :: x.router
  }

  function TransportsOf(ps: seq<Pipe>): set<TransportId> {
    set p | p in ps :: p.transport
  }

  lemma RoutersOfNext(rs: seq<Relay>, i: nat)
    requires i < |rs|
    ensures RoutersOf(rs[..i + 1]) == RoutersOf(rs[..i]) + {rs[i].router}
  {
    assert rs[..i + 1] == rs[..i] + [rs[i]];
  }

  lemma TransportsOfNext(ps: seq<Pipe>, i: nat)
    requires i < |ps|
    ensures TransportsOf(ps[..i + 1]) == TransportsOf(ps[..i]) + {ps[i].transport}
  {
    assert ps[..i + 1] == ps[..i] + [ps[i]];
  }

  lemma {:induction false} WithoutTwice(rs: seq<Relay>, a: set<RouterId>, b: set<RouterId>)
    ensures Without(Without(rs, a), b) == Without(rs, a + b)
  {
    if rs != [] {
      WithoutTwice(rs[1..], a, b);
      var rest := Without(rs[1..], a);
      if rs[0].router !in a {
        assert ([rs[0]] + rest)[1..] == rest;
      } else {
        assert [] + rest == rest;
      }
    }
  }

  lemma {:induction false} WithoutNothing(rs: seq<Relay>)
    ensures Without(rs, {}) == rs
  {
    if rs != [] {
      WithoutNothing(rs[1..]);
    }
  }

  /** Deleting by router deletes by room once the routers deleted are exactly that room's. */
  lemma {:induction false} WithoutIsOutsideRoom(rs: seq<Relay>, gone: set<RouterId>, room: Room)
    requires forall x :: x in rs ==> (x.router in gone <==> x.room == room)
    ensures Without(rs, gone) == OutsideRoom(rs, room)
  {
    if rs != [] {
      assert rs[0] in rs;
      WithoutIsOutsideRoom(rs[1..], gone, room);
    }
  }

  lemma {:induction false} PipesWithoutTwice(ps: seq<Pipe>, a: set<TransportId>, b: set<TransportId>)
    ensures PipesWithout(PipesWithout(ps, a), b) == PipesWithout(ps, a + b)
  {
    if ps != [] {
      PipesWithoutTwice(ps[1..], a, b);
      var rest := PipesWithout(ps[1..], a);
      if ps[0].transport !in a {
        assert ([ps[0]] + rest)[1..] == rest;
      } else {
        assert [] + rest == rest;
      }
    }
  }

  lemma {:induction false} PipesWithoutNothing(ps: seq<Pipe>)
    ensures PipesWithout(ps, {}) == ps
  {
    if ps != [] {
      PipesWithoutNothing(ps[1..]);
    }
  }

  lemma {:induction false} PipesWithoutIsOutsideRoom(ps: seq<Pipe>, gone: set<TransportId>, room: Room)
    requires forall x :: x in ps ==> (x.transport in gone <==> x.room == room)
    ensures PipesWithout(ps, gone) == PipesOutsideRoom(ps, room)
  {
    if ps != [] {
      assert ps[0] in ps;
      PipesWithoutIsOutsideRoom(ps[1..], gone, room);
    }
  }

  // ---------------------------------------------------------------- the handlers

  const USIZE_MODULUS: nat := 0x1_0000_0000_0000_0000
  const U32_MODULUS: nat := 0x1_0000_0000

  function LoadAdd(loads: map<WorkerId, nat>, w: WorkerId): map<WorkerId, nat> {
    loads[w := if w in loads then (loads[w] + 1) % U32_MODULUS else 1]
  }

  function LoadRemove(loads: map<WorkerId, nat>, w: WorkerId): map<WorkerId, nat> {
    if w in loads && loads[w] > 0 then loads[w := loads[w] - 1] else loads
  }

  /** The router that the round robin hands out next for `room`. */
  function Selected(s: Server, room: Room): (r: Option<RouterId>)
    ensures r.Some? ==> room in s.rooms && r.value in s.rooms[room]
  {
    if room in s.rooms && |s.rooms[room]| > 0
    then Some(s.rooms[room][s.index % |s.rooms[room]|])
    else None
  }

  function AfterSelect(s: Server, room: Room): Server {
    match Selected(s, room)
    case None => s
    case Some(r) =>
      s.(index := (s.index + 1) % USIZE_MODULUS,
         loads := if r in s.workerOf then LoadAdd(s.loads, s.workerOf[r]) else s.loads)
  }

  function Bind(m: map<RouterId, WorkerId>, ids: seq<RouterId>, workers: seq<WorkerId>): (b: map<RouterId, WorkerId>)
    requires |ids| == |workers|
    ensures b.Keys == m.Keys + Elems(ids)
    decreases |ids|
  {
    if ids == [] then m
    else
      var n := |ids| - 1;
      assert ids == ids[..n] + [ids[n]];
      Bind(m, ids[..n], workers[..n])[ids[n] := workers[n]]
  }

  function Elems(ids: seq<RouterId>): set<RouterId> {
    set x | x in ids
  }

  /** `create_router_group`: one new router for each worker, unless the room has routers. */
  function CreateGroup(s: Server, room: Room, ids: seq<RouterId>, workers: seq<WorkerId>): Server
    requires |ids| == |workers|
  {
    if room in s.rooms || ids == [] then s
    else s.(rooms := s.rooms[room := ids],
            routers := s.routers + Elems(ids),
            workerOf := Bind(s.workerOf, ids, workers))
  }

  function AddPipe(s: Server, r: RouterId, e: Node, t: TransportId, room: Room): Server {
    s.(relays := s.relays + [Relay(r, e, t, room)], pipes := s.pipes + [Pipe(room, t, false)])
  }

  /** A `storePipeRelay` message: the pipe `transport` listens for `egress`. */
  datatype Offer = Offer(egress: Node, transport: TransportId)

  /** The loop of `create_ingress_relay`; new pipe transports are numbered from `next`. */
  function OfferAll(s: Server, r: RouterId, room: Room, es: seq<Option<Node>>, next: nat): (Server, seq<Offer>)
    decreases |es|
  {
    if es == [] then (s, [])
    else if es[0].None? || OfPair(s.relays, r, es[0].value) != [] || r !in s.routers then
      OfferAll(s, r, room, es[1..], next)
    else
      var (s', offers) := OfferAll(AddPipe(s, r, es[0].value, next, room), r, room, es[1..], next + 1);
      (s', [Offer(es[0].value, next)] + offers)
  }

  /** `create_egress_relay`: nothing to do, refused, or answered from router `router`. */
  datatype Answer = Kept | Refused | Answered(router: RouterId)

  function AnswerOf(s: Server, room: Room, r: RouterId): Answer {
    if OfRouter(s.relays, r) != [] then Kept
    else match Selected(s, room)
      case None => Refused
      case Some(q) => if q in s.routers then Answered(q) else Refused
  }

  function AnswerRelay(s: Server, self: Node, room: Room, r: RouterId, t: TransportId): Server {
    match AnswerOf(s, room, r)
    case Kept => s
    case Refused => AfterSelect(s, room)
    case Answered(q) =>
      var s1 := AfterSelect(s, room);
      AddPipe(s1.(relayRouters := s1.relayRouters[r := q]), r, self, t, room)
  }

  /** The pipe that `connect_pipe_relay` connects, if it gets that far. */
  function ConnectTarget(s: Server, r: RouterId, e: Node): Option<TransportId> {
    var found := OfPair(s.relays, r, e);
    if found == [] then None
    else match FindPipe(s.pipes, found[0].transport)
      case None => None
      case Some(p) => if p.connected then None else Some(p.transport)
  }

  /** The `on_close` callback that `create_egress_relay` leaves on the router it picked. */
  function RouterClosed(s: Server, q: RouterId, t: TransportId): Server {
    s.(pipes := PipesWithout(s.pipes, {t}), relays := Without(s.relays, {q}))
  }

  /** `destroyRouterGroup`, when `gone` are the ingress routers whose entries were dropped from
      `pendingRelays` and `relayRouters`. */
  function Teardown(s: Server, room: Room, gone: set<RouterId>): Server
    requires room in s.rooms
  {
    var group := Elems(s.rooms[room]);
    s.(rooms := s.rooms - {room},
       routers := s.routers - group,
       workerOf := s.workerOf - group,
       relays := OutsideRoom(s.relays, room),
       pipes := PipesOutsideRoom(s.pipes, room),
       pending := s.pending - gone,
       relayRouters := s.relayRouters - gone,
       loads := Unload(s.loads, s.workerOf, s.rooms[room]))
  }

  function Unload(loads: map<WorkerId, nat>, workerOf: map<RouterId, WorkerId>, group: seq<RouterId>)
    : map<WorkerId, nat>
  {
    if group == [] then loads
    else
      var q := group[|group| - 1];
      var before := Unload(loads, workerOf, group[..|group| - 1]);
      if q in workerOf then LoadRemove(before, workerOf[q]) else before
  }

  /** For each router of the group one ingress router relayed onto it, if there is one at all. */
  predicate OnePerRouter(relayRouters: map<RouterId, RouterId>, group: set<RouterId>, gone: set<RouterId>) {
    && (forall r :: r in gone ==> r in relayRouters && relayRouters[r] in group)
    && (forall r, r' :: r in gone && r' in gone && relayRouters[r] == relayRouters[r'] ==> r == r')
    && (forall r :: r in relayRouters && relayRouters[r] in group ==> Covered(relayRouters, relayRouters[r], gone))
  }

  predicate Covered(relayRouters: map<RouterId, RouterId>, q: RouterId, gone: set<RouterId>) {
    exists r :: r in gone && r in relayRouters && relayRouters[r] == q
  }

  // ---------------------------------------------------------------- the invariant

  predicate Distinct<T(==)>(xs: seq<T>) {
    forall i, j :: 0 <= i < j < |xs| ==> xs[i] != xs[j]
  }

  /** Rooms own disjoint groups of registered routers, each on a worker. */
  predicate GroupsOk(s: Server) {
    && (forall m :: m in s.rooms ==> Distinct(s.rooms[m]) && s.rooms[m] != [])
    && (forall m, q :: m in s.rooms && q in s.rooms[m] ==> q in s.routers)
    && (forall m, m', q :: m in s.rooms && m' in s.rooms && q in s.rooms[m] && q in s.rooms[m'] ==> m == m')
    && s.workerOf.Keys == s.routers
  }

  /** Relays carry live rooms.  A relay of one of this server's own routers belongs to that
      router's room; any other was answered from a router of the relay's room. */
  predicate RelaysOk(s: Server) {
    && (forall x :: x in s.relays ==> x.room in s.rooms)
    && (forall x :: x in s.relays && x.router in s.routers ==> x.router in s.rooms[x.room])
    && (forall x :: x in s.relays && x.router !in s.routers ==>
          x.router in s.relayRouters && s.relayRouters[x.router] in s.rooms[x.room])
    && (forall x, y :: x in s.relays && y in s.relays && x.router == y.router ==> x.room == y.room)
    && (forall r :: r in s.relayRouters ==> r !in s.routers)
  }

  predicate PipesOk(s: Server) {
    && (forall p, p' :: p in s.pipes && p' in s.pipes && p.transport == p'.transport ==> p.room == p'.room)
    && (forall x, p :: x in s.relays && p in s.pipes && x.transport == p.transport ==> x.room == p.room)
    && (forall p :: p in s.pipes ==> !p.connected)
  }

  predicate Valid(s: Server) {
    GroupsOk(s) && RelaysOk(s) && PipesOk(s)
  }

  /** No id at or above `next` is in use. */
  predicate Below(s: Server, next: nat) {
    && (forall q :: q in s.routers ==> q < next)
    && (forall x :: x in s.relays ==> x.router < next && x.transport < next)
    && (forall p :: p in s.pipes ==> p.transport < next)
    && (forall r :: r in s.relayRouters ==> r < next && s.relayRouters[r] < next)
    && (forall r :: r in s.pending ==> r < next && s.pending[r] < next)
  }
}
