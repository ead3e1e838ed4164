/** The handlers of one media server on its shared tables, each run to completion.  Ids of new
    routers and pipe transports come from the media library, so they are parameters. */
module MediaServers {
  import opened Sfu
  import Rooms

  class MediaServer {
    var rooms: map<Room, seq<RouterId>>
    var routers: set<RouterId>
    var workerOf: map<RouterId, WorkerId>
    var relays: seq<Relay>
    var pipes: seq<Pipe>
    var pending: map<RouterId, TransportId>
    var relayRouters: map<RouterId, RouterId>
    var loads: map<WorkerId, nat>
    var index: nat

    function State(): Server
      reads this
    {
      Server(rooms, routers, workerOf, relays, pipes, pending, relayRouters, loads, index)
    }

    constructor ()
      ensures State() == Fresh
    {
      rooms, routers, workerOf := map[], {}, map[];
      relays, pipes, pending, relayRouters := [], [], map[], map[];
      loads, index := map[], 0;
    }

    method GetLessLoadedRouter(room: Room) returns (router: Option<RouterId>)
      modifies this
      ensures router == Selected(old(State()), room)
      ensures State() == AfterSelect(old(State()), room)
    {
      if room !in rooms || |rooms[room]| == 0 {
        return None;
      }
      var group := rooms[room];
      var r := group[index % |group|];
      if r in workerOf {
        loads := LoadAdd(loads, workerOf[r]);
      }
      index := (index + 1) % USIZE_MODULUS;
      return Some(r);
    }

    method CreateRouterGroup(room: Room, ids: seq<RouterId>, workers: seq<WorkerId>)
      requires |ids| == |workers|
      modifies this`rooms, this`routers, this`workerOf
      ensures State() == CreateGroup(old(State()), room, ids, workers)
    {
      if room in rooms {
        return;
      }
      for i := 0 to |ids|
        invariant State() == CreateGroup(old(State()), room, ids[..i], workers[..i])
        modifies this`rooms, this`routers, this`workerOf
      {
        CreateGroupNext(old(State()), room, ids, workers, i);
        rooms := rooms[room := (if room in rooms then rooms[room] else []) + [ids[i]]];
        routers := routers + {ids[i]};
        workerOf := workerOf[ids[i] := workers[i]];
      }
      assert ids[..|ids|] == ids && workers[..|ids|] == workers;
    }

    method CreateIngressRelay(r: RouterId, room: Room, es: seq<Option<Node>>, next: nat) returns (offers: seq<Offer>)
      modifies this`relays, this`pipes
      ensures (State(), offers) == OfferAll(old(State()), r, room, es, next)
    {
      offers := [];
      assert es[0..] == es;
      assert OfferAll(State(), r, room, es, next).1 == [] + OfferAll(State(), r, room, es, next).1;
      for i := 0 to |es|
        modifies this`relays, this`pipes
        invariant var (s, rest) := OfferAll(State(), r, room, es[i..], next + |offers|);
          (s, offers + rest) == OfferAll(old(State()), r, room, es, next)
      {
        ghost var before := State();
        assert es[i..][0] == es[i] && es[i..][1..] == es[i + 1..];
        if es[i].Some? {
          var e := es[i].value;
          if OfPair(relays, r, e) == [] {
            if r in routers {
              var t := next + |offers|;
              relays := relays + [Relay(r, e, t, room)];
              pipes := pipes + [Pipe(room, t, false)];
              assert State() == AddPipe(before, r, e, t, room);
              ghost var rest := OfferAll(State(), r, room, es[i + 1..], t + 1).1;
              assert offers + ([Offer(e, t)] + rest) == (offers + [Offer(e, t)]) + rest;
              offers := offers + [Offer(e, t)];
            }
          }
        }
      }
      assert offers + [] == offers;
    }

    method StorePipeRelay(r: RouterId, remote: TransportId)
      modifies this`pending
      ensures State() == old(State()).(pending := old(pending)[r := remote])
    {
      pending := pending[r := remote];
    }

    /** `remote` is what the new pipe is connected to, when an offer is pending. */
    method CreateEgressRelay(self: Node, room: Room, r: RouterId, t: TransportId)
      returns (answer: Answer, remote: Option<TransportId>)
      modifies this
      ensures answer == AnswerOf(old(State()), room, r)
      ensures State() == AnswerRelay(old(State()), self, room, r, t)
      ensures remote ==
        if answer.Answered? && r in old(pending) then Some(old(pending)[r]) else None
    {
      if OfRouter(relays, r) != [] {
        return Kept, None;
      }
      var selected := GetLessLoadedRouter(room);
      if selected.None? || selected.value !in routers {
        return Refused, None;
      }
      relayRouters := relayRouters[r := selected.value];
      relays := relays + [Relay(r, self, t, room)];
      pipes := pipes + [Pipe(room, t, false)];
      return Answered(selected.value), if r in pending then Some(pending[r]) else None;
    }

    /** The flag is raised on a copy, so the tables do not change. */
    method ConnectPipeRelay(r: RouterId, e: Node) returns (target: Option<TransportId>)
      ensures target == ConnectTarget(State(), r, e)
    {
      var found := OfPair(relays, r, e);
      if found == [] {
        return None;
      }
      var pipe := FindPipe(pipes, found[0].transport);
      if pipe.None? || pipe.value.connected {
        return None;
      }
      target := Some(pipe.value.transport);
      UpdateConnectedState(pipe.value.transport);
    }

    method UpdateConnectedState(t: TransportId)
    {
      var copy := FindPipe(pipes, t);
      if copy.Some? {
        copy := Some(copy.value.(connected := true));
      }
    }

    /** The egress half of `destroyRouterGroup` for one router: one ingress router relayed onto it
        is forgotten, with its relays and the pipe of the first. */
    method DropRelayedOnto(q: RouterId) returns (ghost picked: set<RouterId>, ghost shut: set<TransportId>)
      modifies this`relays, this`pipes, this`pending, this`relayRouters
      ensures relays == Without(old(relays), picked)
      ensures pipes == PipesWithout(old(pipes), shut)
      ensures forall t :: t in shut ==> exists x :: x in old(relays) && x.transport == t && x.router in picked
      ensures relayRouters == old(relayRouters) - picked && pending == old(pending) - picked
      ensures OnePerRouter(old(relayRouters), {q}, picked)
    {
      Rooms.WithoutNothings(relays, pipes);
      if exists r :: r in relayRouters && relayRouters[r] == q {
        var r :| r in relayRouters && relayRouters[r] == q;
        relayRouters := relayRouters - {r};
        pending := pending - {r};
        var found := OfRouter(relays, r);
        picked, shut := {r}, {};
        if found != [] {
          assert found[0] in found && found[0] in old(relays);
          pipes := PipesWithout(pipes, {found[0].transport});
          shut := {found[0].transport};
        }
        relays := Without(relays, {r});
      } else {
        picked, shut := {}, {};
      }
    }

    /** The ingress half: the relays of the router itself, with the pipe of the first. */
    method DropOwnRelays(q: RouterId, snapshot: seq<Pipe>) returns (ghost shut: set<TransportId>)
      requires q !in relayRouters
      modifies this`relays, this`pipes, this`relayRouters
      ensures relays == Without(old(relays), {q})
      ensures pipes == PipesWithout(old(pipes), shut)
      ensures forall t :: t in shut ==> exists x :: x in old(relays) && x.transport == t && x.router == q
      ensures relayRouters == old(relayRouters)
    {
      Rooms.WithoutNothings(relays, pipes);
      shut := {};
      var own := OfRouter(relays, q);
      if own != [] {
        assert own[0] in own && own[0] in old(relays);
        if FindPipe(snapshot, own[0].transport).Some? {
          pipes := PipesWithout(pipes, {own[0].transport});
          shut := {own[0].transport};
        }
        relayRouters := relayRouters - {own[0].router};
        relays := Without(relays, {own[0].router});
      } else {
        Rooms.WithoutAbsent(relays, q);
      }
    }

    method DropRouter(q: RouterId)
      modifies this`routers, this`workerOf, this`loads
      ensures routers == old(routers) - {q} && workerOf == old(workerOf) - {q}
      ensures loads == if q in old(workerOf) then LoadRemove(old(loads), old(workerOf)[q]) else old(loads)
    {
      if q in workerOf {
        loads := LoadRemove(loads, workerOf[q]);
        workerOf := workerOf - {q};
      }
      routers := routers - {q};
    }

    method DropFromGroup(q: RouterId, snapshot: seq<Pipe>)
      returns (ghost picked: set<RouterId>, ghost shut: set<TransportId>)
      requires q !in relayRouters
      modifies this
      ensures Rooms.Dropped(old(State()), State(), q, picked, shut)
    {
      ghost var before, shut' := State(), {};
      picked, shut := DropRelayedOnto(q);
      ghost var between := State();
      shut' := DropOwnRelays(q, snapshot);
      DropRouter(q);
      ghost var after := State();
      Rooms.DroppedTogether(before, between, after, q, picked, shut, shut');
      shut := shut + shut';
    }

    /** The deep clean of the pipes: every pipe of the room is deleted by its transport. */
    method CleanPipes(room: Room) returns (ghost shut: set<TransportId>)
      modifies this`pipes
      ensures pipes == PipesWithout(old(pipes), shut)
      ensures shut == TransportsOf(PipesInRoom(old(pipes), room))
    {
      Rooms.WithoutNothings([], pipes);
      shut := {};
      var stale := PipesInRoom(pipes, room);
      for i := 0 to |stale|
        invariant pipes == PipesWithout(old(pipes), shut)
        invariant shut == TransportsOf(stale[..i])
      {
        TransportsOfNext(stale, i);
        PipesWithoutTwice(old(pipes), shut, {stale[i].transport});
        pipes := PipesWithout(pipes, {stale[i].transport});
        shut := shut + {stale[i].transport};
      }
      assert stale[..|stale|] == stale;
    }

    /** The deep clean of the relays: every relay of the room is deleted by its router. */
    method CleanRelays(room: Room) returns (ghost cut: set<RouterId>)
      modifies this`relays
      ensures relays == Without(old(relays), cut)
      ensures cut == RoutersOf(InRoom(old(relays), room))
    {
      Rooms.WithoutNothings(relays, []);
      cut := {};
      var left := InRoom(relays, room);
      for i := 0 to |left|
        invariant relays == Without(old(relays), cut)
        invariant cut == RoutersOf(left[..i])
      {
        RoutersOfNext(left, i);
        WithoutTwice(old(relays), cut, {left[i].router});
        relays := Without(relays, {left[i].router});
        cut := cut + {left[i].router};
      }
      assert left[..|left|] == left;
    }

    method CleanRoom(room: Room)
      modifies this`relays, this`pipes, this`rooms
      ensures State() == Rooms.Cleaned(old(State()), room)
    {
      ghost var shut := CleanPipes(room);
      ghost var cut := CleanRelays(room);
      rooms := rooms - {room};
    }

    /** `gone` are the ingress routers that the room's routers had relayed for and that were found. */
    method DestroyRouterGroup(room: Room) returns (ghost gone: set<RouterId>)
      requires Valid(State())
      modifies this
      ensures room !in old(rooms) ==> State() == old(State())
      ensures room in old(rooms) ==>
        && OnePerRouter(old(relayRouters), Elems(old(rooms)[room]), gone)
        && State() == Teardown(old(State()), room, gone)
    {
      gone := {};
      if room !in rooms {
        return;
      }
      ghost var s0 := State();
      ghost var cut, shut: set<TransportId> := {}, {};
      var group, snapshot := rooms[room], pipes;
      Rooms.DropStart(s0, room);
      for i := 0 to |group|
        invariant Rooms.Dropping(s0, State(), room, i, gone, cut, shut)
      {
        ghost var s := State();
        assert group[i] in s0.routers;
        ghost var picked, shut' := DropFromGroup(group[i], snapshot);
        Rooms.DropStep(s0, s, State(), room, i, gone, cut, shut, picked, shut');
        gone, cut, shut := gone + picked, cut + (picked + {group[i]}), shut + shut';
      }
      ghost var s := State();
      CleanRoom(room);
      Rooms.DropEnd(s0, s, State(), room, gone, cut, shut);
    }
  }

  /** One more router in the group of a room that had none before. */
  lemma CreateGroupNext(s: Server, room: Room, ids: seq<RouterId>, workers: seq<WorkerId>, i: nat)
    requires |ids| == |workers| && i < |ids| && room !in s.rooms
    ensures CreateGroup(s, room, ids[..i + 1], workers[..i + 1])
         == Enlarged(CreateGroup(s, room, ids[..i], workers[..i]), room, ids[i], workers[i])
  {
    BindNext(s.workerOf, ids, workers, i);
    EnlargedGroup(s, room, ids[..i], workers[..i], ids[..i + 1], workers[..i + 1]);
  }

  function Enlarged(s: Server, room: Room, q: RouterId, w: WorkerId): Server {
    s.(rooms := s.rooms[room := (if room in s.rooms then s.rooms[room] else []) + [q]],
       routers := s.routers + {q}, workerOf := s.workerOf[q := w])
  }

  lemma EnlargedGroup(s: Server, room: Room, ids: seq<RouterId>, workers: seq<WorkerId>,
                      ids': seq<RouterId>, workers': seq<WorkerId>)
    requires |ids| == |workers| && |ids'| == |workers'| && room !in s.rooms
    requires |ids'| == |ids| + 1 && ids' == ids + [ids'[|ids|]] && workers' == workers + [workers'[|ids|]]
    requires Elems(ids') == Elems(ids) + {ids'[|ids|]}
    requires Bind(s.workerOf, ids', workers') == Bind(s.workerOf, ids, workers)[ids'[|ids|] := workers'[|ids|]]
    ensures CreateGroup(s, room, ids', workers') ==
      Enlarged(CreateGroup(s, room, ids, workers), room, ids'[|ids|], workers'[|ids|])
  {
    PutTwice(s.rooms, room, ids, ids');
    assert ids == [] ==> Elems(ids) == {};
  }

  lemma PutTwice<K, V>(m: map<K, V>, k: K, a: V, b: V)
    ensures m[k := a][k := b] == m[k := b]
  {
  }

  lemma BindNext(m: map<RouterId, WorkerId>, ids: seq<RouterId>, workers: seq<WorkerId>, i: nat)
    requires |ids| == |workers| && i < |ids|
    ensures ids[..i + 1] == ids[..i] + [ids[i]]
    ensures Elems(ids[..i + 1]) == Elems(ids[..i]) + {ids[i]}
    ensures Bind(m, ids[..i + 1], workers[..i + 1]) == Bind(m, ids[..i], workers[..i])[ids[i] := workers[i]]
  {
    assert ids[..i + 1][..i] == ids[..i] && workers[..i + 1][..i] == workers[..i];
  }
}
