/** Every handler of the room side keeps the indexes of a media server in agreement, and tearing
    one room down removes all of it and nothing else. */
module Rooms {
  import opened Sfu

  lemma {:induction false} WithoutAbsent(rs: seq<Relay>, r: RouterId)
    requires OfRouter(rs, r) == []
    ensures Without(rs, {r}) == rs
  {
    if rs != [] {
      WithoutAbsent(rs[1..], r);
    }
  }

  lemma WithoutNothings(rs: seq<Relay>, ps: seq<Pipe>)
    ensures Without(rs, {}) == rs && PipesWithout(ps, {}) == ps
  {
    WithoutNothing(rs);
    PipesWithoutNothing(ps);
  }

  lemma BelowLater(s: Server, n: nat, n': nat)
    requires Below(s, n) && n <= n'
    ensures Below(s, n')
  {
  }

  lemma SelectKeeps(s: Server, room: Room)
    requires Valid(s)
    ensures Valid(AfterSelect(s, room))
    ensures Selected(s, room).Some? <==> room in s.rooms
    ensures forall n: nat :: Below(s, n) ==> Below(AfterSelect(s, room), n)
  {
  }

  lemma CreateGroupKeeps(s: Server, room: Room, ids: seq<RouterId>, workers: seq<WorkerId>, next: nat)
    requires Valid(s) && Below(s, next)
    requires |ids| == |workers| && Distinct(ids) && forall q :: q in ids ==> next <= q < next + |ids|
    ensures Valid(CreateGroup(s, room, ids, workers))
    ensures Below(CreateGroup(s, room, ids, workers), next + |ids|)
  {
    CreatedGroups(s, room, ids, workers, next);
    CreatedBelow(s, room, ids, workers, next);
  }

  lemma {:induction false} BindAt(m: map<RouterId, WorkerId>, ids: seq<RouterId>, workers: seq<WorkerId>, k: nat)
    requires |ids| == |workers| && Distinct(ids) && k < |ids|
    ensures Bind(m, ids, workers)[ids[k]] == workers[k]
    ensures forall q :: q in m && q !in ids ==> Bind(m, ids, workers)[q] == m[q]
    decreases |ids|
  {
    var n := |ids| - 1;
    assert ids == ids[..n] + [ids[n]];
    if k < n {
      BindAt(m, ids[..n], workers[..n], k);
    } else if n > 0 {
      BindAt(m, ids[..n], workers[..n], 0);
    }
  }

  /** A room gets one router on each worker, in the order of the workers, unless it has its routers; and
      no other room, router or relay changes. */
  lemma CreateGroupIs(s: Server, room: Room, ids: seq<RouterId>, workers: seq<WorkerId>, k: nat)
    requires |ids| == |workers| && Distinct(ids) && k < |ids| && forall q :: q in ids ==> q !in s.routers
    ensures var s' := CreateGroup(s, room, ids, workers);
      if room in s.rooms then s' == s
      else
        && s' == s.(rooms := s.rooms[room := ids], routers := s'.routers, workerOf := s'.workerOf)
        && ids[k] in s'.workerOf && s'.workerOf[ids[k]] == workers[k]
        && (forall q :: q in s'.routers <==> q in s.routers || q in ids)
        && forall q :: q in s.workerOf && q !in ids ==> q in s'.workerOf && s'.workerOf[q] == s.workerOf[q]
  {
    BindAt(s.workerOf, ids, workers, k);
  }

  lemma CreatedGroups(s: Server, room: Room, ids: seq<RouterId>, workers: seq<WorkerId>, next: nat)
    requires GroupsOk(s) && forall q :: q in s.routers ==> q < next
    requires |ids| == |workers| && Distinct(ids) && forall q :: q in ids ==> next <= q < next + |ids|
    ensures GroupsOk(CreateGroup(s, room, ids, workers))
  {
    var s' := CreateGroup(s, room, ids, workers);
    if room !in s.rooms && ids != [] {
      forall m, m', q | m in s'.rooms && m' in s'.rooms && q in s'.rooms[m] && q in s'.rooms[m'] ensures m == m' {
        if q in ids {
          assert m != room ==> q in s.routers;
          assert m' != room ==> q in s.routers;
        }
      }
    }
  }

  lemma CreatedBelow(s: Server, room: Room, ids: seq<RouterId>, workers: seq<WorkerId>, next: nat)
    requires Below(s, next) && |ids| == |workers| && forall q :: q in ids ==> next <= q < next + |ids|
    ensures Below(CreateGroup(s, room, ids, workers), next + |ids|)
  {
  }

  lemma OfferKeeps(s: Server, r: RouterId, room: Room, e: Node, t: TransportId)
    requires Valid(s) && Below(s, t) && room in s.rooms && r in s.rooms[room]
    ensures Valid(AddPipe(s, r, e, t, room))
  {
    var s' := AddPipe(s, r, e, t, room);
    assert r in s.routers;
    assert forall x :: x in s'.relays ==> x in s.relays || x == Relay(r, e, t, room);
    assert forall p :: p in s'.pipes ==> p in s.pipes || p == Pipe(room, t, false);
  }

  lemma OfferBelow(s: Server, r: RouterId, room: Room, e: Node, t: TransportId)
    requires Below(s, t) && r < t
    ensures Below(AddPipe(s, r, e, t, room), t + 1)
  {
    var s' := AddPipe(s, r, e, t, room);
    assert forall x :: x in s'.relays ==> x in s.relays || x == Relay(r, e, t, room);
    assert forall p :: p in s'.pipes ==> p in s.pipes || p == Pipe(room, t, false);
  }

  lemma {:induction false} OfferAllFrame(s: Server, r: RouterId, room: Room, es: seq<Option<Node>>, next: nat)
    ensures var s' := OfferAll(s, r, room, es, next).0;
      s' == s.(relays := s'.relays, pipes := s'.pipes)
    decreases |es|
  {
    if es != [] {
      if es[0].None? || OfPair(s.relays, r, es[0].value) != [] || r !in s.routers {
        OfferAllFrame(s, r, room, es[1..], next);
      } else {
        OfferAllFrame(AddPipe(s, r, es[0].value, next, room), r, room, es[1..], next + 1);
      }
    }
  }

  lemma {:induction false} OfferAllBelow(s: Server, r: RouterId, room: Room, es: seq<Option<Node>>, next: nat)
    requires Below(s, next) && r < next
    ensures var (s', offers) := OfferAll(s, r, room, es, next);
      Below(s', next + |offers|)
    decreases |es|
  {
    if es != [] {
      if es[0].None? || OfPair(s.relays, r, es[0].value) != [] || r !in s.routers {
        OfferAllBelow(s, r, room, es[1..], next);
      } else {
        OfferBelow(s, r, room, es[0].value, next);
        OfferAllBelow(AddPipe(s, r, es[0].value, next, room), r, room, es[1..], next + 1);
      }
    }
  }

  lemma OneOfferKeeps(s: Server, s1: Server, r: RouterId, room: Room, e: Node, t: TransportId)
    requires Valid(s) && Below(s, t) && room in s.rooms && r in s.rooms[room] && s1 == AddPipe(s, r, e, t, room)
    ensures Valid(s1) && Below(s1, t + 1) && room in s1.rooms && r in s1.rooms[room]
  {
    OfferKeeps(s, r, room, e, t);
    assert r in s.routers;
    OfferBelow(s, r, room, e, t);
  }

  lemma {:induction false} OfferAllKeeps(s: Server, r: RouterId, room: Room, es: seq<Option<Node>>, next: nat)
    requires Valid(s) && Below(s, next) && room in s.rooms && r in s.rooms[room]
    ensures forall s' :: s' == OfferAll(s, r, room, es, next).0 ==> Valid(s')
    decreases |es|
  {
    if es != [] {
      if es[0].None? || OfPair(s.relays, r, es[0].value) != [] || r !in s.routers {
        OfferAllKeeps(s, r, room, es[1..], next);
      } else {
        var s1 := AddPipe(s, r, es[0].value, next, room);
        OneOfferKeeps(s, s1, r, room, es[0].value, next);
        OfferAllKeeps(s1, r, room, es[1..], next + 1);
      }
    }
  }

  lemma PairStays(rs: seq<Relay>, rs': seq<Relay>, r: RouterId, e: Node)
    requires forall x :: x in rs ==> x in rs'
    ensures OfPair(rs, r, e) != [] ==> OfPair(rs', r, e) != []
  {
    if OfPair(rs, r, e) != [] {
      assert OfPair(rs, r, e)[0] in OfPair(rs, r, e);
      assert OfPair(rs, r, e)[0] in OfPair(rs', r, e);
    }
  }

  /** What offering records: the relays grow by exactly the offers made, and every egress server
      asked for ends up with a relay from this router. */
  lemma {:induction false} OfferAllRecords(s: Server, r: RouterId, room: Room, es: seq<Option<Node>>, next: nat)
    requires r in s.routers
    ensures var (s', offers) := OfferAll(s, r, room, es, next);
      && (forall x :: x in s.relays ==> x in s'.relays)
      && (forall x :: x in s'.relays ==>
            x in s.relays || (x.router == r && x.room == room && Offer(x.egress, x.transport) in offers))
      && (forall o :: o in offers ==>
            Relay(r, o.egress, o.transport, room) in s'.relays && Pipe(room, o.transport, false) in s'.pipes)
      && (forall e :: Some(e) in es ==> OfPair(s'.relays, r, e) != [])
    decreases |es|
  {
    if es != [] {
      var (s', offers) := OfferAll(s, r, room, es, next);
      if es[0].None? || OfPair(s.relays, r, es[0].value) != [] {
        OfferAllRecords(s, r, room, es[1..], next);
        if es[0].Some? {
          PairStays(s.relays, s'.relays, r, es[0].value);
        }
      } else {
        var e := es[0].value;
        var s1 := AddPipe(s, r, e, next, room);
        OfferAllRecords(s1, r, room, es[1..], next + 1);
        OfferAllKeepsPipes(s1, r, room, es[1..], next + 1);
        var rest := OfferAll(s1, r, room, es[1..], next + 1).1;
        assert offers == [Offer(e, next)] + rest;
        assert Relay(r, e, next, room) in s1.relays && Pipe(room, next, false) in s1.pipes;
        assert Relay(r, e, next, room) in OfPair(s'.relays, r, e);
        assert forall x :: x in s1.relays ==> x in s.relays || x == Relay(r, e, next, room);
        assert Offer(e, next) == offers[0];
        assert forall o :: o in offers <==> o == Offer(e, next) || o in rest;
      }
    }
  }

  lemma {:induction false} OfferAllKeepsPipes(s: Server, r: RouterId, room: Room, es: seq<Option<Node>>, next: nat)
    ensures forall p :: p in s.pipes ==> p in OfferAll(s, r, room, es, next).0.pipes
    decreases |es|
  {
    if es != [] {
      if es[0].None? || OfPair(s.relays, r, es[0].value) != [] || r !in s.routers {
        OfferAllKeepsPipes(s, r, room, es[1..], next);
      } else {
        OfferAllKeepsPipes(AddPipe(s, r, es[0].value, next, room), r, room, es[1..], next + 1);
      }
    }
  }

  /** Offers numbered from `next` go, one each, to servers that had no relay from this router. */
  predicate OffersOnce(relays: seq<Relay>, r: RouterId, next: nat, offers: seq<Offer>) {
    && (forall k :: 0 <= k < |offers| ==>
          offers[k].transport == next + k && OfPair(relays, r, offers[k].egress) == [])
    && (forall j, k :: 0 <= j < k < |offers| ==> offers[j].egress != offers[k].egress)
  }

  lemma OffersOnceCons(relays: seq<Relay>, r: RouterId, e: Node, next: nat, rest: seq<Offer>, room: Room)
    requires OfPair(relays, r, e) == []
    requires OffersOnce(relays + [Relay(r, e, next, room)], r, next + 1, rest)
    ensures OffersOnce(relays, r, next, [Offer(e, next)] + rest)
  {
    var offers := [Offer(e, next)] + rest;
    var more := relays + [Relay(r, e, next, room)];
    assert Relay(r, e, next, room) in OfPair(more, r, e);
    forall k | 0 < k < |offers|
      ensures offers[k].transport == next + k
      ensures OfPair(relays, r, offers[k].egress) == [] && offers[k].egress != e
    {
      assert offers[k] == rest[k - 1];
      PairStays(relays, more, r, offers[k].egress);
    }
  }

  lemma {:induction false} OfferAllOnce(s: Server, r: RouterId, room: Room, es: seq<Option<Node>>, next: nat)
    ensures OffersOnce(s.relays, r, next, OfferAll(s, r, room, es, next).1)
    decreases |es|
  {
    if es != [] {
      if es[0].None? || OfPair(s.relays, r, es[0].value) != [] || r !in s.routers {
        OfferAllOnce(s, r, room, es[1..], next);
      } else {
        var s1 := AddPipe(s, r, es[0].value, next, room);
        OfferAllOnce(s1, r, room, es[1..], next + 1);
        OffersOnceCons(s.relays, r, es[0].value, next, OfferAll(s1, r, room, es[1..], next + 1).1, room);
      }
    }
  }

  lemma {:induction false} OfferAllAsked(s: Server, r: RouterId, room: Room, es: seq<Option<Node>>, next: nat)
    ensures forall o :: o in OfferAll(s, r, room, es, next).1 ==> Some(o.egress) in es
    decreases |es|
  {
    if es != [] {
      var skip := es[0].None? || OfPair(s.relays, r, es[0].value) != [] || r !in s.routers;
      var s1 := if skip then s else AddPipe(s, r, es[0].value, next, room);
      OfferAllAsked(s1, r, room, es[1..], if skip then next else next + 1);
    }
  }

  /** An egress server is sent an offer exactly if it was asked for and had no relay from the router. */
  lemma OfferedIff(s: Server, r: RouterId, room: Room, es: seq<Option<Node>>, next: nat, e: Node)
    requires r in s.routers
    ensures (exists o :: o in OfferAll(s, r, room, es, next).1 && o.egress == e)
      <==> Some(e) in es && OfPair(s.relays, r, e) == []
  {
    var (s', offers) := OfferAll(s, r, room, es, next);
    OfferAllRecords(s, r, room, es, next);
    OfferAllOnce(s, r, room, es, next);
    OfferAllAsked(s, r, room, es, next);
    if Some(e) in es && OfPair(s.relays, r, e) == [] {
      var x := OfPair(s'.relays, r, e)[0];
      assert x in OfPair(s'.relays, r, e) && x !in OfPair(s.relays, r, e);
      assert Offer(x.egress, x.transport) in offers;
    }
  }

  /** Routing one more ingress router onto this room leaves the relays as they were, for it has none. */
  lemma RoutedRelays(s: Server, room: Room, q: RouterId, r: RouterId)
    requires RelaysOk(s) && r !in s.routers && room in s.rooms && OfRouter(s.relays, r) == []
    ensures RelaysOk(s.(relayRouters := s.relayRouters[r := q]))
  {
    assert forall y :: y in s.relays && y.router == r ==> y in OfRouter(s.relays, r);
  }

  /** One more relay of a router that is relayed onto its room already. */
  lemma AddedRelay(s: Server, x: Relay)
    requires RelaysOk(s) && x.router !in s.routers && x.room in s.rooms
    requires x.router in s.relayRouters && s.relayRouters[x.router] in s.rooms[x.room]
    requires forall y :: y in s.relays ==> y.router != x.router
    ensures RelaysOk(s.(relays := s.relays + [x]))
  {
    assert forall y :: y in s.relays + [x] ==> y in s.relays || y == x;
  }

  lemma AnsweredRelays(s: Server, self: Node, room: Room, q: RouterId, r: RouterId, t: TransportId)
    requires RelaysOk(s) && r !in s.routers
    requires room in s.rooms && q in s.rooms[room] && OfRouter(s.relays, r) == []
    ensures RelaysOk(AddPipe(s.(relayRouters := s.relayRouters[r := q]), r, self, t, room))
  {
    RoutedRelays(s, room, q, r);
    assert forall y :: y in s.relays && y.router == r ==> y in OfRouter(s.relays, r);
    AddedRelay(s.(relayRouters := s.relayRouters[r := q]), Relay(r, self, t, room));
  }

  lemma AnsweredKeeps(s: Server, self: Node, room: Room, q: RouterId, r: RouterId, t: TransportId)
    requires Valid(s) && Below(s, t) && r < t && r !in s.routers
    requires room in s.rooms && q in s.rooms[room] && OfRouter(s.relays, r) == []
    ensures Valid(AddPipe(s.(relayRouters := s.relayRouters[r := q]), r, self, t, room))
  {
    var s' := AddPipe(s.(relayRouters := s.relayRouters[r := q]), r, self, t, room);
    AnsweredRelays(s, self, room, q, r, t);
    assert forall y :: y in s'.relays ==> y in s.relays || y == Relay(r, self, t, room);
    assert forall p :: p in s'.pipes ==> p in s.pipes || p == Pipe(room, t, false);
  }

  lemma AnswerKeeps(s: Server, self: Node, room: Room, r: RouterId, t: TransportId)
    requires Valid(s) && Below(s, t) && r < t && r !in s.routers
    ensures Valid(AnswerRelay(s, self, room, r, t))
  {
    SelectKeeps(s, room);
    match AnswerOf(s, room, r)
    case Answered(q) => AnsweredKeeps(AfterSelect(s, room), self, room, q, r, t);
    case _ =>
  }

  lemma AnswerBelow(s: Server, self: Node, room: Room, r: RouterId, t: TransportId)
    requires Valid(s) && Below(s, t) && r < t
    ensures Below(AnswerRelay(s, self, room, r, t), t + 1)
  {
    SelectKeeps(s, room);
    var s1 := AfterSelect(s, room);
    BelowLater(s, t, t + 1);
    BelowLater(s1, t, t + 1);
    match AnswerOf(s, room, r)
    case Answered(q) =>
      assert q in s.routers;
      OfferBelow(s1.(relayRouters := s1.relayRouters[r := q]), r, room, self, t);
    case _ =>
  }

  // ---------------------------------------------------------------- which relay, which pipe

  ghost predicate IsFirst(rs: seq<Relay>, r: RouterId, e: Option<Node>, k: nat) {
    && k < |rs| && rs[k].router == r && (e.Some? ==> rs[k].egress == e.value)
    && forall j :: 0 <= j < k ==> rs[j].router != r || (e.Some? && rs[j].egress != e.value)
  }

  lemma {:induction false} FirstOfRouter(rs: seq<Relay>, r: RouterId, k: nat)
    requires IsFirst(rs, r, None, k)
    ensures OfRouter(rs, r) != [] && OfRouter(rs, r)[0] == rs[k]
  {
    if k > 0 {
      assert forall j :: 0 <= j < k ==> rs[1..][j] == rs[j + 1];
      FirstOfRouter(rs[1..], r, k - 1);
    }
  }

  lemma {:induction false} FirstOfPair(rs: seq<Relay>, r: RouterId, e: Node, k: nat)
    requires IsFirst(rs, r, Some(e), k)
    ensures OfPair(rs, r, e) != [] && OfPair(rs, r, e)[0] == rs[k]
  {
    if k > 0 {
      assert forall j :: 0 <= j < k ==> rs[1..][j] == rs[j + 1];
      FirstOfPair(rs[1..], r, e, k - 1);
    }
  }

  ghost predicate IsPipe(ps: seq<Pipe>, t: TransportId, k: nat) {
    k < |ps| && ps[k].transport == t && forall j :: 0 <= j < k ==> ps[j].transport != t
  }

  lemma {:induction false} FirstPipe(ps: seq<Pipe>, t: TransportId, k: nat)
    requires IsPipe(ps, t, k)
    ensures FindPipe(ps, t) == Some(ps[k])
  {
    if k > 0 {
      assert forall j :: 0 <= j < k ==> ps[1..][j] == ps[j + 1];
      FirstPipe(ps[1..], t, k - 1);
    }
  }

  /** What is connected is the pipe of the first relay of the router to that server, unless it is
      connected already. */
  lemma ConnectIs(s: Server, r: RouterId, e: Node)
    ensures forall k: nat, m: nat :: IsFirst(s.relays, r, Some(e), k) && IsPipe(s.pipes, s.relays[k].transport, m) ==>
      ConnectTarget(s, r, e) == if s.pipes[m].connected then None else Some(s.relays[k].transport)
    ensures ConnectTarget(s, r, e).Some? ==>
      exists x, p :: x in s.relays && p in s.pipes && x.router == r && x.egress == e && x.transport == p.transport
                     && p.transport == ConnectTarget(s, r, e).value && !p.connected
  {
    forall k: nat, m: nat | IsFirst(s.relays, r, Some(e), k) && IsPipe(s.pipes, s.relays[k].transport, m)
      ensures ConnectTarget(s, r, e) == if s.pipes[m].connected then None else Some(s.relays[k].transport)
    {
      FirstOfPair(s.relays, r, e, k);
      FirstPipe(s.pipes, s.relays[k].transport, m);
    }
    if ConnectTarget(s, r, e).Some? {
      assert OfPair(s.relays, r, e)[0] in OfPair(s.relays, r, e);
    }
  }

  /** A server that has a relay of the router does nothing; else it selects a router for the room, and
      where that is there, a pipe and a relay of the ingress router are added, to this server and for
      this room, and the ingress router is noted for the one selected. */
  lemma AnswerIs(s: Server, self: Node, room: Room, r: RouterId, t: TransportId)
    ensures var s', selected := AnswerRelay(s, self, room, r, t), Selected(s, room);
      if (exists x :: x in s.relays && x.router == r) || selected.None? then
        s' == s && AnswerOf(s, room, r) == if selected.None? && OfRouter(s.relays, r) == [] then Refused else Kept
      else
        && s'.index == (s.index + 1) % USIZE_MODULUS
        && if selected.value !in s.routers then
             AnswerOf(s, room, r) == Refused && s' == s.(index := s'.index, loads := s'.loads)
           else
             && AnswerOf(s, room, r) == Answered(selected.value)
             && s' == s.(index := s'.index, loads := s'.loads,
                         relayRouters := s.relayRouters[r := selected.value],
                         relays := s.relays + [Relay(r, self, t, room)], pipes := s.pipes + [Pipe(room, t, false)])
  {
    if OfRouter(s.relays, r) != [] {
      assert OfRouter(s.relays, r)[0] in OfRouter(s.relays, r);
    } else {
      assert forall x :: x in s.relays && x.router == r ==> x in OfRouter(s.relays, r);
    }
  }

  /** The callback takes away the pipe that it was left for and the relays of the closed router. */
  lemma RouterClosedIs(s: Server, q: RouterId, t: TransportId)
    ensures var s' := RouterClosed(s, q, t);
      && s' == s.(pipes := s'.pipes, relays := s'.relays)
      && (forall p :: p in s'.pipes <==> p in s.pipes && p.transport != t)
      && (forall x :: x in s'.relays <==> x in s.relays && x.router != q)
  {
  }

  /** But the relay that it was left with is of the ingress router: it outlives its pipe, and keeps the
      server from answering for that router again. */
  lemma RelayOutlivesRouter(s: Server, self: Node, room: Room, r: RouterId, t: TransportId)
    requires AnswerOf(s, room, r).Answered? && r !in s.routers
    ensures var s' := RouterClosed(AnswerRelay(s, self, room, r, t), AnswerOf(s, room, r).router, t);
      && Relay(r, self, t, room) in s'.relays && FindPipe(s'.pipes, t) == None
      && AnswerOf(s', room, r) == Kept
  {
    AnswerIs(s, self, room, r, t);
    var s1, q := AnswerRelay(s, self, room, r, t), AnswerOf(s, room, r).router;
    RouterClosedIs(s1, q, t);
    var x, s' := Relay(r, self, t, room), RouterClosed(s1, q, t);
    assert x in s1.relays && x in s'.relays;
    assert x in OfRouter(s'.relays, r);
  }

  lemma StoreKeeps(s: Server, r: RouterId, t: TransportId, next: nat)
    requires Valid(s) && Below(s, next) && r < next && t < next
    ensures Valid(s.(pending := s.pending[r := t])) && Below(s.(pending := s.pending[r := t]), next)
  {
  }

  lemma RouterClosedKeeps(s: Server, q: RouterId, t: TransportId, next: nat)
    requires Valid(s) && Below(s, next)
    ensures Valid(RouterClosed(s, q, t)) && Below(RouterClosed(s, q, t), next)
  {
  }

  lemma TeardownKeeps(s: Server, room: Room, gone: set<RouterId>, next: nat)
    requires Valid(s) && Below(s, next) && room in s.rooms
    requires OnePerRouter(s.relayRouters, Elems(s.rooms[room]), gone)
    ensures Valid(Teardown(s, room, gone)) && Below(Teardown(s, room, gone), next)
  {
    var s' := Teardown(s, room, gone);
    forall x | x in s'.relays
      ensures x.room in s'.rooms
      ensures x.router in s'.routers ==> x.router in s'.rooms[x.room]
      ensures x.router !in s'.routers ==> x.router in s'.relayRouters && s'.relayRouters[x.router] in s'.rooms[x.room]
    {
      assert x in s.relays && x.room != room;
    }
  }

  /** Teardown in progress: `s` is `s0` with the first `i` routers of the room dropped. */
  predicate Dropping(s0: Server, s: Server, room: Room, i: nat,
                     gone: set<RouterId>, cut: set<RouterId>, shut: set<TransportId>)
    requires room in s0.rooms && i <= |s0.rooms[room]|
  {
    var done := s0.rooms[room][..i];
    && s.relays == Without(s0.relays, cut)
    && s.pipes == PipesWithout(s0.pipes, shut)
    && (forall x :: x in s0.relays && x.router in cut ==> x.room == room)
    && (forall p :: p in s0.pipes && p.transport in shut ==> p.room == room)
    && OnePerRouter(s0.relayRouters, Elems(done), gone)
    && s == s0.(routers := s0.routers - Elems(done), workerOf := s0.workerOf - Elems(done),
                relays := s.relays, pipes := s.pipes,
                pending := s0.pending - gone, relayRouters := s0.relayRouters - gone,
                loads := Unload(s0.loads, s0.workerOf, done))
  }

  lemma DropStart(s0: Server, room: Room)
    requires room in s0.rooms
    ensures Dropping(s0, s0, room, 0, {}, {}, {})
  {
    WithoutNothings(s0.relays, s0.pipes);
  }

  /** Whatever is deleted on behalf of router `q` belongs to the room of `q`. */
  lemma DropsOnlyRoom(s0: Server, room: Room, q: RouterId, picked: set<RouterId>)
    requires Valid(s0) && room in s0.rooms && q in s0.rooms[room]
    requires forall r :: r in picked ==> r in s0.relayRouters && s0.relayRouters[r] == q
    ensures forall x :: x in s0.relays && x.router in picked + {q} ==> x.room == room
  {
  }

  lemma OnePerRouterNext(m: map<RouterId, RouterId>, group: set<RouterId>, q: RouterId,
                         gone: set<RouterId>, picked: set<RouterId>)
    requires q !in group && OnePerRouter(m, group, gone) && OnePerRouter(m - gone, {q}, picked)
    ensures OnePerRouter(m, group + {q}, gone + picked)
  {
    forall r | r in m && m[r] in group + {q} ensures Covered(m, m[r], gone + picked) {
      if m[r] == q {
        assert r in m - gone;
        assert Covered(m - gone, q, picked);
        var r' :| r' in picked && r' in m - gone && (m - gone)[r'] == q;
        assert r' in gone + picked && m[r'] == q;
      } else {
        var r' :| r' in gone && r' in m && m[r'] == m[r];
        assert r' in gone + picked;
      }
    }
  }

  /** Dropping one router of the room: what three methods together do to the tables. */
  predicate Dropped(s: Server, s': Server, q: RouterId, picked: set<RouterId>, shut: set<TransportId>) {
    && OnePerRouter(s.relayRouters, {q}, picked)
    && (forall t :: t in shut ==> exists x :: x in s.relays && x.transport == t && x.router in picked + {q})
    && s' == s.(routers := s.routers - {q}, workerOf := s.workerOf - {q},
                relays := Without(s.relays, picked + {q}), pipes := PipesWithout(s.pipes, shut),
                pending := s.pending - picked, relayRouters := s.relayRouters - picked,
                loads := if q in s.workerOf then LoadRemove(s.loads, s.workerOf[q]) else s.loads)
  }

  lemma ShutTogether(rs: seq<Relay>, rs1: seq<Relay>, q: RouterId, picked: set<RouterId>,
                     shut: set<TransportId>, shut': set<TransportId>)
    requires rs1 == Without(rs, picked)
    requires forall t :: t in shut ==> exists x :: x in rs && x.transport == t && x.router in picked
    requires forall t :: t in shut' ==> exists x :: x in rs1 && x.transport == t && x.router == q
    ensures forall t :: t in shut + shut' ==> exists x :: x in rs && x.transport == t && x.router in picked + {q}
  {
    forall t | t in shut + shut' ensures exists x :: x in rs && x.transport == t && x.router in picked + {q} {
      if t in shut' {
        var x :| x in rs1 && x.transport == t && x.router == q;
        assert x in rs;
      }
    }
  }

  lemma DeletedTogether(rs: seq<Relay>, rs1: seq<Relay>, rs2: seq<Relay>, ps: seq<Pipe>, ps1: seq<Pipe>, ps2: seq<Pipe>,
                        q: RouterId, picked: set<RouterId>, shut: set<TransportId>, shut': set<TransportId>)
    requires rs1 == Without(rs, picked) && rs2 == Without(rs1, {q})
    requires ps1 == PipesWithout(ps, shut) && ps2 == PipesWithout(ps1, shut')
    ensures rs2 == Without(rs, picked + {q}) && ps2 == PipesWithout(ps, shut + shut')
  {
    WithoutTwice(rs, picked, {q});
    PipesWithoutTwice(ps, shut, shut');
  }

  lemma DroppedTogether(s: Server, s1: Server, s': Server, q: RouterId, picked: set<RouterId>,
                        shut: set<TransportId>, shut': set<TransportId>)
    requires OnePerRouter(s.relayRouters, {q}, picked)
    requires s1.relays == Without(s.relays, picked) && s'.relays == Without(s1.relays, {q})
    requires s1.pipes == PipesWithout(s.pipes, shut) && s'.pipes == PipesWithout(s1.pipes, shut')
    requires forall t :: t in shut ==> exists x :: x in s.relays && x.transport == t && x.router in picked
    requires forall t :: t in shut' ==> exists x :: x in s1.relays && x.transport == t && x.router == q
    requires s' == s.(routers := s.routers - {q}, workerOf := s.workerOf - {q},
                      relays := s'.relays, pipes := s'.pipes,
                      pending := s.pending - picked, relayRouters := s.relayRouters - picked,
                      loads := if q in s.workerOf then LoadRemove(s.loads, s.workerOf[q]) else s.loads)
    ensures Dropped(s, s', q, picked, shut + shut')
  {
    DeletedTogether(s.relays, s1.relays, s'.relays, s.pipes, s1.pipes, s'.pipes, q, picked, shut, shut');
    ShutTogether(s.relays, s1.relays, q, picked, shut, shut');
  }

  lemma DropStepDeletes(s0: Server, relays: seq<Relay>, room: Room, q: RouterId,
                        cut: set<RouterId>, picked: set<RouterId>, shut: set<TransportId>, shut': set<TransportId>)
    requires Valid(s0) && room in s0.rooms && q in s0.rooms[room]
    requires relays == Without(s0.relays, cut)
    requires forall x :: x in s0.relays && x.router in cut ==> x.room == room
    requires forall p :: p in s0.pipes && p.transport in shut ==> p.room == room
    requires forall r :: r in picked ==> r in s0.relayRouters && s0.relayRouters[r] == q
    requires forall t :: t in shut' ==> exists x :: x in relays && x.transport == t && x.router in picked + {q}
    ensures Without(relays, picked + {q}) == Without(s0.relays, cut + (picked + {q}))
    ensures forall x :: x in s0.relays && x.router in cut + (picked + {q}) ==> x.room == room
    ensures forall p :: p in s0.pipes && p.transport in shut + shut' ==> p.room == room
  {
    WithoutTwice(s0.relays, cut, picked + {q});
    DropsOnlyRoom(s0, room, q, picked);
    forall p | p in s0.pipes && p.transport in shut + shut' ensures p.room == room {
      if p.transport !in shut {
        var x :| x in relays && x.transport == p.transport && x.router in picked + {q};
        assert x in s0.relays;
      }
    }
  }

  lemma GroupNext(group: seq<RouterId>, i: nat)
    requires Distinct(group) && i < |group|
    ensures group[i] !in Elems(group[..i]) && |group[..i + 1]| == i + 1 && group[..i + 1][i] == group[i]
    ensures group[..i + 1][..i] == group[..i]
    ensures Elems(group[..i + 1]) == Elems(group[..i]) + {group[i]}
  {
    assert group[..i + 1] == group[..i] + [group[i]];
  }

  lemma DropStep(s0: Server, s: Server, s': Server, room: Room, i: nat,
                 gone: set<RouterId>, cut: set<RouterId>, shut: set<TransportId>,
                 picked: set<RouterId>, shut': set<TransportId>)
    requires Valid(s0) && room in s0.rooms && i < |s0.rooms[room]|
    requires Dropping(s0, s, room, i, gone, cut, shut)
    requires Dropped(s, s', s0.rooms[room][i], picked, shut')
    ensures Dropping(s0, s', room, i + 1, gone + picked, cut + (picked + {s0.rooms[room][i]}), shut + shut')
  {
    var group := s0.rooms[room];
    var q := group[i];
    GroupNext(group, i);
    PipesWithoutTwice(s0.pipes, shut, shut');
    DropStepDeletes(s0, s.relays, room, q, cut, picked, shut, shut');
    OnePerRouterNext(s0.relayRouters, Elems(group[..i]), q, gone, picked);
    MapMinusTwice(s0.pending, gone, picked);
    MapMinusTwice(s0.relayRouters, gone, picked);
    MapMinusTwice(s0.workerOf, Elems(group[..i]), {q});
    assert s'.routers == s0.routers - Elems(group[..i + 1]);
    assert q in s.workerOf <==> q in s0.workerOf;
  }

  lemma MapMinusTwice<K, V>(m: map<K, V>, a: set<K>, b: set<K>)
    ensures m - a - b == m - (a + b)
  {
  }

  /** The deep clean: pipes of the room go by their transport, relays of the room by their router. */
  function Cleaned(s: Server, room: Room): Server {
    s.(rooms := s.rooms - {room},
       relays := Without(s.relays, RoutersOf(InRoom(s.relays, room))),
       pipes := PipesWithout(s.pipes, TransportsOf(PipesInRoom(s.pipes, room))))
  }

  /** Once the deep clean has been through what is left of the room, exactly the room is gone. */
  lemma DropEnd(s0: Server, s: Server, s': Server, room: Room, gone: set<RouterId>,
                cut: set<RouterId>, shut: set<TransportId>)
    requires Valid(s0) && room in s0.rooms
    requires Dropping(s0, s, room, |s0.rooms[room]|, gone, cut, shut)
    requires s' == Cleaned(s, room)
    ensures s' == Teardown(s0, room, gone) && OnePerRouter(s0.relayRouters, Elems(s0.rooms[room]), gone)
  {
    var group := s0.rooms[room];
    var cut', shut' := RoutersOf(InRoom(s.relays, room)), TransportsOf(PipesInRoom(s.pipes, room));
    assert group[..|group|] == group;
    WithoutTwice(s0.relays, cut, cut');
    PipesWithoutTwice(s0.pipes, shut, shut');
    forall x | x in s0.relays ensures x.router in cut + cut' <==> x.room == room {
      if x.room == room && x.router !in cut {
        assert x in InRoom(s.relays, room);
      }
    }
    forall p | p in s0.pipes ensures p.transport in shut + shut' <==> p.room == room {
      if p.room == room && p.transport !in shut {
        assert p in PipesInRoom(s.pipes, room);
      }
    }
    WithoutIsOutsideRoom(s0.relays, cut + cut', room);
    PipesWithoutIsOutsideRoom(s0.pipes, shut + shut', room);
  }

  /** Teardown is complete: nothing that carries the room, and none of its routers, is left. */
  lemma TeardownComplete(s: Server, room: Room, gone: set<RouterId>)
    requires Valid(s) && room in s.rooms
    ensures var s' := Teardown(s, room, gone);
      && room !in s'.rooms
      && (forall x :: x in s'.relays ==> x.room != room)
      && (forall p :: p in s'.pipes ==> p.room != room)
      && (forall q :: q in s.rooms[room] ==>
            q !in s'.routers && q !in s'.workerOf && forall m :: m in s'.rooms ==> q !in s'.rooms[m])
  {
  }

  /** Teardown is isolated: every other room keeps its routers, its relays and its pipes, in order. */
  lemma TeardownIsolated(s: Server, room: Room, gone: set<RouterId>, other: Room)
    requires Valid(s) && room in s.rooms && other != room
    requires OnePerRouter(s.relayRouters, Elems(s.rooms[room]), gone)
    ensures var s' := Teardown(s, room, gone);
      && InRoom(s'.relays, other) == InRoom(s.relays, other)
      && PipesInRoom(s'.pipes, other) == PipesInRoom(s.pipes, other)
      && (other in s.rooms ==>
            && other in s'.rooms && s'.rooms[other] == s.rooms[other]
            && (forall q :: q in s.rooms[other] ==>
                  q in s'.routers && q in s'.workerOf && s'.workerOf[q] == s.workerOf[q])
            && (forall r :: r in s.relayRouters && s.relayRouters[r] in s.rooms[other] ==>
                  && r in s'.relayRouters && s'.relayRouters[r] == s.relayRouters[r]
                  && (r in s.pending ==> r in s'.pending && s'.pending[r] == s.pending[r])))
  {
    FilterThenFilter(s.relays, room, other);
    PipeFilterThenFilter(s.pipes, room, other);
  }

  lemma {:induction false} FilterThenFilter(rs: seq<Relay>, room: Room, other: Room)
    requires room != other
    ensures InRoom(OutsideRoom(rs, room), other) == InRoom(rs, other)
  {
    if rs != [] {
      FilterThenFilter(rs[1..], room, other);
      var rest := OutsideRoom(rs[1..], room);
      if rs[0].room != room {
        assert ([rs[0]] + rest)[1..] == rest;
      } else {
        assert [] + rest == rest;
      }
    }
  }

  lemma {:induction false} PipeFilterThenFilter(ps: seq<Pipe>, room: Room, other: Room)
    requires room != other
    ensures PipesInRoom(PipesOutsideRoom(ps, room), other) == PipesInRoom(ps, other)
  {
    if ps != [] {
      PipeFilterThenFilter(ps[1..], room, other);
      var rest := PipesOutsideRoom(ps[1..], room);
      if ps[0].room != room {
        assert ([ps[0]] + rest)[1..] == rest;
      } else {
        assert [] + rest == rest;
      }
    }
  }

  /** What teardown can leave behind.  `get_by_egress` names one ingress router for each router of
      the room, so the room's entries in `relayRouters` are all gone exactly when no two ingress
      routers had been relayed onto the same router. */
  lemma TeardownForgetsRelayRouters(s: Server, room: Room, gone: set<RouterId>)
    requires Valid(s) && room in s.rooms
    requires OnePerRouter(s.relayRouters, Elems(s.rooms[room]), gone)
    ensures var s' := Teardown(s, room, gone);
      (forall r :: r in s'.relayRouters ==> s'.relayRouters[r] !in s.rooms[room])
      <==>
      (forall r, r' ::
         r in s.relayRouters && r' in s.relayRouters && s.relayRouters[r] in s.rooms[room]
           && s.relayRouters[r] == s.relayRouters[r']
         ==> r == r')
  {
    var s' := Teardown(s, room, gone);
    if forall r :: r in s'.relayRouters ==> s'.relayRouters[r] !in s.rooms[room] {
      forall r, r' | r in s.relayRouters && r' in s.relayRouters && s.relayRouters[r] in s.rooms[room]
        && s.relayRouters[r] == s.relayRouters[r'] ensures r == r' {
        assert r in gone by { assert r in s'.relayRouters || r in gone; }
        assert r' in gone by { assert r' in s'.relayRouters || r' in gone; }
      }
    }
  }
}
