/** Runs in which media servers register, report loads and disconnect while peers come and go: every
    connected server is in one place, and one whose connection closed is not chosen again before it
    registers again. */
module ServerRuns {
  import opened Sfu
  import opened Signaling
  import opened Handshake
  import opened ServerClose
  import opened MeshRuns

  datatype Event =
    | RegisterServer(node: Node, region: Region, isEgress: bool)
    | ReportLoad(node: Node, region: Region, load: int, isEgress: bool)
    | JoinIn(peer: PeerId, room: Room, region: Region)
    | Serve(operation: Operation)
    | OfferPipe(ingress: Node, egress: Node, route: RouterId)
    | CloseConnection(node: Node, isEgress: bool, order: seq<PeerId>)

  /** The server that a join is given, if any; where the choice throws, the join ends all the same. */
  function Choice(d: Directory, r: Region): Option<Node> {
    match Get(d, r)
    case Chosen(n) => Some(n)
    case _ => None
  }

  function Effect(w: World, e: Event): World {
    match e
    case RegisterServer(n, r, isEgress) => WithDirectory(w, isEgress, Registered(DirectoryOf(w, isEgress), r, n))
    case ReportLoad(n, r, load, isEgress) => WithDirectory(w, isEgress, Loaded(DirectoryOf(w, isEgress), r, n, load))
    case JoinIn(p, room, r) => w.(state := JoinRoom(w.state, p, room, Choice(w.ingress, r), Choice(w.egress, r)))
    case Serve(a) => w.(state := Next(w.state, a))
    case OfferPipe(i, e, route) => w.(pipes := w.pipes + [Record(i, e, route)])
    case CloseConnection(n, isEgress, order) => CloseServer(w, n, isEgress, order).world
  }

  ghost predicate InRegion(es: seq<Entry>, r: Region, n: Node) {
    exists x :: x in es && x.region == r && n in x.servers
  }

  /** The servers in `egresses` are egress servers and all others ingress servers.  A server registers
      in one region, be it there already, reports its load in its own region while it is connected, and
      offers pipes to egress servers. */
  ghost predicate Allowed(w: World, e: Event, egresses: set<Node>) {
    match e
    case RegisterServer(n, r, isEgress) =>
      isEgress == (n in egresses) && RegistersAtHome(DirectoryOf(w, isEgress), r, n)
    case ReportLoad(n, r, _, isEgress) =>
      n in DirectoryOf(w, isEgress).up && InRegion(DirectoryOf(w, isEgress).regions, r, n)
    case JoinIn(_, _, _) => true
    case Serve(a) => !a.Join? && !a.Close?
    case OfferPipe(i, e, _) => i in w.ingress.up && e in egresses
    case CloseConnection(n, isEgress, order) =>
      n in DirectoryOf(w, isEgress).up && forall p :: p in order <==> p in w.state.peers
  }

  /** A server that is listed registers again in its region only, and is listed there twice. */
  ghost predicate RegistersAtHome(d: Directory, r: Region, n: Node) {
    Listed(d.regions, n) ==> InRegion(d.regions, r, n)
  }

  ghost predicate Run(trace: seq<World>, events: seq<Event>, egresses: set<Node>) {
    && |trace| == |events| + 1 && trace[0] == World(EMPTY, Directory({}, [], map[]), Directory({}, [], map[]), [])
    && (forall k :: 0 <= k < |events| ==>
      Allowed(trace[k], events[k], egresses) && trace[k + 1] == Effect(trace[k], events[k]))
  }

  // ---------------------------------------------------------------- what every event keeps

  ghost predicate DistinctRegions(es: seq<Entry>) {
    forall i, j :: 0 <= i < j < |es| ==> es[i].region != es[j].region
  }

  /** Each server of the role is in one region at most, is there while it is connected, and is the only
      one to report there. */
  ghost predicate DirectoryOk(d: Directory, isEgress: bool, egresses: set<Node>) {
    && DistinctRegions(d.regions)
    && (forall r, n :: InRegion(d.regions, r, n) ==> isEgress == (n in egresses))
    && (forall r, r', n :: InRegion(d.regions, r, n) && InRegion(d.regions, r', n) ==> r == r')
    && (forall n :: n in d.up ==> Listed(d.regions, n))
    && (forall r, x :: r in d.loads && x in d.loads[r] ==> InRegion(d.regions, r, x.node))
  }

  ghost predicate ListsOk(m: map<Room, Lists>, egresses: set<Node>) {
    forall r :: r in m ==>
      (forall n :: n in m[r].ingress ==> n !in egresses) && (forall n :: n in m[r].egress ==> n in egresses)
  }

  ghost predicate Sound(w: World, egresses: set<Node>) {
    && DirectoryOk(w.ingress, false, egresses) && DirectoryOk(w.egress, true, egresses)
    && ListsOk(w.state.rooms, egresses) && ListsOk(w.state.table, egresses)
    && (forall p :: p in w.pipes ==> p.ingress !in egresses && p.egress in egresses)
    && Placed(w.state)
  }

  lemma ListedInRegion(es: seq<Entry>, n: Node)
    ensures Listed(es, n) <==> exists r :: InRegion(es, r, n)
  {
    if Listed(es, n) {
      var x :| x in es && n in x.servers;
      assert InRegion(es, x.region, n);
    }
  }

  lemma InRegionCons(e: Entry, es: seq<Entry>, r: Region, n: Node)
    ensures InRegion([e] + es, r, n) <==> (e.region == r && n in e.servers) || InRegion(es, r, n)
  {
    assert forall x :: x in [e] + es <==> x == e || x in es;
  }

  lemma {:induction false} RegisterInRegion(es: seq<Entry>, r: Region, n: Node, q: Region, m: Node)
    ensures InRegion(Register(es, r, n), q, m) <==> InRegion(es, q, m) || (q == r && m == n)
  {
    if es != [] {
      InRegionCons(es[0], es[1..], q, m);
      assert [es[0]] + es[1..] == es;
      if es[0].region == r {
        InRegionCons(Entry(r, es[0].servers + [n]), es[1..], q, m);
      } else {
        RegisterInRegion(es[1..], r, n, q, m);
        InRegionCons(es[0], Register(es[1..], r, n), q, m);
      }
    } else {
      assert [Entry(r, [n])] == [Entry(r, [n])] + [];
      InRegionCons(Entry(r, [n]), [], q, m);
    }
  }

  predicate Named(es: seq<Entry>, r: Region) {
    exists x :: x in es && x.region == r
  }

  lemma NamedCons(e: Entry, es: seq<Entry>, r: Region)
    ensures Named([e] + es, r) <==> e.region == r || Named(es, r)
  {
    assert forall x :: x in [e] + es <==> x == e || x in es;
  }

  lemma DistinctCons(e: Entry, es: seq<Entry>)
    ensures DistinctRegions([e] + es) <==> DistinctRegions(es) && !Named(es, e.region)
  {
    var all := [e] + es;
    if DistinctRegions(all) {
      forall i, j | 0 <= i < j < |es| ensures es[i].region != es[j].region {
        assert all[i + 1].region != all[j + 1].region;
      }
      forall x | x in es ensures x.region != e.region {
        var i :| 0 <= i < |es| && es[i] == x;
        assert all[0].region != all[i + 1].region;
      }
    }
  }

  lemma {:induction false} RegisterDistinct(es: seq<Entry>, r: Region, n: Node)
    requires DistinctRegions(es)
    ensures DistinctRegions(Register(es, r, n))
    ensures forall q :: Named(Register(es, r, n), q) <==> Named(es, q) || q == r
  {
    if es != [] {
      assert [es[0]] + es[1..] == es;
      DistinctCons(es[0], es[1..]);
      forall q ensures Named(es, q) <==> es[0].region == q || Named(es[1..], q) {
        NamedCons(es[0], es[1..], q);
      }
      if es[0].region == r {
        var e := Entry(r, es[0].servers + [n]);
        DistinctCons(e, es[1..]);
        forall q ensures Named([e] + es[1..], q) <==> r == q || Named(es[1..], q) {
          NamedCons(e, es[1..], q);
        }
      } else {
        RegisterDistinct(es[1..], r, n);
        DistinctCons(es[0], Register(es[1..], r, n));
        forall q
          ensures Named([es[0]] + Register(es[1..], r, n), q) <==>
            es[0].region == q || Named(Register(es[1..], r, n), q)
        {
          NamedCons(es[0], Register(es[1..], r, n), q);
        }
      }
    }
  }

  lemma {:induction false} FilteredDistinct(es: seq<Entry>, r: Region, n: Node)
    requires DistinctRegions(es)
    ensures DistinctRegions(Filtered(es, r, n)) && |Filtered(es, r, n)| == |es|
    ensures forall k :: 0 <= k < |es| ==> Filtered(es, r, n)[k].region == es[k].region
  {
    if es != [] {
      var rest := Filtered(es[1..], r, n);
      assert [es[0]] + es[1..] == es;
      DistinctCons(es[0], es[1..]);
      FilteredDistinct(es[1..], r, n);
      SameRegions(es[1..], rest, es[0].region);
      if es[0].region == r {
        DistinctCons(Entry(r, WithoutNode(es[0].servers, n)), es[1..]);
      } else {
        DistinctCons(es[0], rest);
      }
    }
  }

  lemma SameRegions(es: seq<Entry>, es': seq<Entry>, r: Region)
    requires |es| == |es'| && forall k :: 0 <= k < |es| ==> es[k].region == es'[k].region
    ensures Named(es, r) <==> Named(es', r)
  {
    if x :| x in es && x.region == r {
      var k :| 0 <= k < |es| && es[k] == x;
      assert es'[k] in es';
    }
    if x :| x in es' && x.region == r {
      var k :| 0 <= k < |es'| && es'[k] == x;
      assert es[k] in es;
    }
  }

  lemma {:induction false} FilteredInRegion(es: seq<Entry>, r: Region, n: Node, q: Region, m: Node)
    requires DistinctRegions(es)
    ensures InRegion(Filtered(es, r, n), q, m) <==> InRegion(es, q, m) && !(q == r && m == n)
  {
    if es != [] {
      assert [es[0]] + es[1..] == es;
      DistinctCons(es[0], es[1..]);
      InRegionCons(es[0], es[1..], q, m);
      if es[0].region == r {
        InRegionCons(Entry(r, WithoutNode(es[0].servers, n)), es[1..], q, m);
        assert InRegion(es[1..], q, m) ==> Named(es[1..], q);
      } else {
        FilteredInRegion(es[1..], r, n, q, m);
        InRegionCons(es[0], Filtered(es[1..], r, n), q, m);
      }
    }
  }

  lemma {:induction false} ReportedNodes(rs: seq<Report>, n: Node, load: int)
    ensures forall x :: x in Reported(rs, n, load) ==> x.node == n || x in rs
  {
    if rs != [] {
      ReportedNodes(rs[1..], n, load);
      if rs[0].node != n {
        assert forall x :: x in [rs[0]] + Reported(rs[1..], n, load) ==> x == rs[0] || x in Reported(rs[1..], n, load);
      }
    }
  }

  /** A registration keeps each server in one region exactly if the server is in no other. */
  lemma RegistersIff(d: Directory, r: Region, n: Node, isEgress: bool, egresses: set<Node>)
    requires DirectoryOk(d, isEgress, egresses) && isEgress == (n in egresses)
    ensures DirectoryOk(Registered(d, r, n), isEgress, egresses) <==> RegistersAtHome(d, r, n)
  {
    RegisterDistinct(d.regions, r, n);
    ListedInRegion(d.regions, n);
    var es := Register(d.regions, r, n);
    forall q, m ensures InRegion(es, q, m) <==> InRegion(d.regions, q, m) || (q == r && m == n) {
      RegisterInRegion(d.regions, r, n, q, m);
    }
    forall m | m in d.up + {n} ensures Listed(es, m) {
      ListedInRegion(d.regions, m);
      ListedInRegion(es, m);
      assert m == n ==> InRegion(es, r, m);
    }
    assert InRegion(es, r, n);
  }

  /** A server that is in two regions stays listed when it is struck from either. */
  lemma TwiceStaysListed(d: Directory, r: Region, r': Region, q: Region, n: Node)
    requires DistinctRegions(d.regions) && r != r' && InRegion(d.regions, r, n) && InRegion(d.regions, r', n)
    requires q in d.loads
    ensures Listed(Struck(d, q, n).regions, n)
  {
    var stays := if q == r then r' else r;
    FilteredInRegion(d.regions, q, n, stays, n);
    ListedInRegion(Struck(d, q, n).regions, n);
  }

  /** And so does an egress server whose id an ingress region lists, unless that is its own region too. */
  lemma BothRolesStayListed(w: World, n: Node, order: seq<PeerId>, k: nat, q: Region)
    requires ListsFirst(w.ingress.regions, n, k) && q != w.ingress.regions[k].region
    requires DistinctRegions(w.egress.regions) && InRegion(w.egress.regions, q, n)
    ensures Listed(CloseServer(w, n, true, order).world.egress.regions, n)
  {
    var r := w.ingress.regions[k].region;
    ListedInRegion(w.egress.regions, n);
    ListedInRegion(Filtered(w.egress.regions, r, n), n);
    FilteredInRegion(w.egress.regions, r, n, q, n);
    if DropRoute(w.state, order, n).Done? {
      ResolvedIs(Disconnected(w.(state := DropRoute(w.state, order, n).state), n, true), n, k);
    }
  }

  lemma LoadedOk(d: Directory, r: Region, n: Node, load: int, isEgress: bool, egresses: set<Node>)
    requires DirectoryOk(d, isEgress, egresses) && InRegion(d.regions, r, n)
    ensures DirectoryOk(Loaded(d, r, n, load), isEgress, egresses)
  {
    ReportedNodes(if r in d.loads then d.loads[r] else [], n, load);
  }

  lemma StruckOk(d: Directory, r: Region, n: Node, isEgress: bool, egresses: set<Node>)
    requires DirectoryOk(d, isEgress, egresses) && n !in d.up && r in d.loads && InRegion(d.regions, r, n)
    ensures DirectoryOk(Struck(d, r, n), isEgress, egresses)
    ensures DirectoryOk(Unreported(d, r, n), isEgress, egresses)
  {
    FilteredDistinct(d.regions, r, n);
    var es := Filtered(d.regions, r, n);
    forall q, m ensures InRegion(es, q, m) <==> InRegion(d.regions, q, m) && !(q == r && m == n) {
      FilteredInRegion(d.regions, r, n, q, m);
    }
    forall m | m in d.up ensures Listed(es, m) {
      ListedInRegion(d.regions, m);
      ListedInRegion(es, m);
    }
  }

  /** Rooms and routes go or stay as they are, and who has servers has had them. */
  ghost predicate Within(s: State, t: State) {
    && (forall r :: r in t.rooms ==> r in s.rooms && t.rooms[r] == s.rooms[r])
    && (forall r :: r in t.table ==> r in s.table && t.table[r] == s.table[r])
    && (forall p, n :: p in t.peers && On(t.peers[p], n) ==> p in s.peers && On(s.peers[p], n))
  }

  lemma MovementWithin(s: State, p: PeerId, spectator: bool)
    ensures Within(s, ConsumeAllMovement(s, p, spectator).state)
  {
    if p in s.peers {
      var t := LeaveLobby(s, p, spectator).state;
      assert Within(s, t) && t.peers.Keys == s.peers.Keys;
    }
  }

  lemma {:induction false} DropWithin(s: State, order: seq<PeerId>, n: Node)
    ensures Within(s, DropPeers(s, order, n).state)
  {
    if order != [] {
      DropWithin(s, order[..|order| - 1], n);
    }
  }

  lemma AnnounceWithin(s: State, p: PeerId, e: Node)
    ensures Within(s, Announce(s, p, e))
  {
  }

  lemma LeaveWithin(s: State, p: PeerId, r: Room)
    ensures Within(s, LeaveRoom(s, p, r))
  {
  }

  lemma TransportWithin(s: State, a: Operation)
    requires a.Create? || a.Ingress? || a.Send? || a.Count?
    ensures Within(s, Next(s, a))
  {
  }

  lemma GoneWithin(s: State, p: PeerId)
    ensures Within(s, Disconnect(s, p).state)
  {
  }

  lemma NextWithin(s: State, a: Operation)
    requires !a.Join?
    ensures Within(s, Next(s, a))
  {
    match a
    case Movement(p, spectator) => MovementWithin(s, p, spectator);
    case Announced(p, e) => AnnounceWithin(s, p, e);
    case Leave(p, r) => LeaveWithin(s, p, r);
    case Close(order, n, isEgress, swept) => DropWithin(s, order, n);
    case Gone(p) => GoneWithin(s, p);
    case _ => TransportWithin(s, a);
  }

  lemma WithinListsOk(s: State, t: State, egresses: set<Node>)
    requires Within(s, t) && ListsOk(s.rooms, egresses) && ListsOk(s.table, egresses)
    ensures ListsOk(t.rooms, egresses) && ListsOk(t.table, egresses)
  {
  }

  lemma ChoiceListed(d: Directory, r: Region)
    ensures Choice(d, r).Some? ==> Listed(d.regions, Choice(d, r).value)
  {
    ChosenIsRegistered(d, r);
  }

  lemma ChoiceOfRole(d: Directory, r: Region, isEgress: bool, egresses: set<Node>)
    requires DirectoryOk(d, isEgress, egresses)
    ensures Choice(d, r).Some? ==> isEgress == (Choice(d, r).value in egresses)
  {
    ChoiceListed(d, r);
    if Choice(d, r).Some? {
      ListedInRegion(d.regions, Choice(d, r).value);
    }
  }

  lemma JoinListsOk(s: State, p: PeerId, room: Room, i: Option<Node>, e: Option<Node>, egresses: set<Node>)
    requires ListsOk(s.rooms, egresses) && ListsOk(s.table, egresses)
    requires (i.Some? ==> i.value !in egresses) && (e.Some? ==> e.value in egresses)
    ensures ListsOk(JoinRoom(s, p, room, i, e).rooms, egresses) && ListsOk(JoinRoom(s, p, room, i, e).table, egresses)
  {
  }

  /** What the close does to the state is what the operation of that name does. */
  lemma CloseIsOperation(w: World, n: Node, isEgress: bool, order: seq<PeerId>)
    ensures var c := CloseServer(w, n, isEgress, order);
      c.world.state == Next(w.state, Operation.Close(order, n, isEgress, c.Clean?))
  {
  }

  lemma CloseKeepsState(w: World, n: Node, isEgress: bool, order: seq<PeerId>, egresses: set<Node>)
    requires ListsOk(w.state.rooms, egresses) && ListsOk(w.state.table, egresses) && Placed(w.state)
    ensures var t := CloseServer(w, n, isEgress, order).world.state;
      ListsOk(t.rooms, egresses) && ListsOk(t.table, egresses) && Placed(t)
  {
    var a := Operation.Close(order, n, isEgress, CloseServer(w, n, isEgress, order).Clean?);
    CloseIsOperation(w, n, isEgress, order);
    NextWithin(w.state, a);
    WithinListsOk(w.state, Next(w.state, a), egresses);
    OperationKeepsPlaced(w.state, a);
  }

  /** A server that is in one region only is listed by the entries of that region. */
  lemma OnlyRegion(es: seq<Entry>, n: Node, r: Region)
    requires DistinctRegions(es) && InRegion(es, r, n)
    requires forall q :: InRegion(es, q, n) ==> q == r
    ensures forall x :: x in es ==> (n in x.servers <==> x.region == r)
  {
    var y :| y in es && y.region == r && n in y.servers;
    var j :| 0 <= j < |es| && es[j] == y;
    forall x | x in es ensures n in x.servers <==> x.region == r {
      assert n in x.servers ==> InRegion(es, x.region, n);
      var i :| 0 <= i < |es| && es[i] == x;
    }
  }

  lemma ConnectedIsInOnePlace(w: World, n: Node, isEgress: bool, egresses: set<Node>)
    requires Sound(w, egresses) && n in DirectoryOf(w, isEgress).up
    ensures RegionOf(DirectoryOf(w, isEgress).regions, n).Some?
    ensures InOnePlace(w, n, isEgress, RegionOf(DirectoryOf(w, isEgress).regions, n).value)
  {
    var d, other := DirectoryOf(w, isEgress), DirectoryOf(w, !isEgress);
    var r := RegionOf(d.regions, n).value;
    assert InRegion(d.regions, r, n);
    ListedInRegion(other.regions, n);
    OnlyRegion(d.regions, n, r);
  }

  lemma CloseKeepsDirectories(w: World, n: Node, isEgress: bool, order: seq<PeerId>, egresses: set<Node>)
    requires Sound(w, egresses) && n in DirectoryOf(w, isEgress).up
    ensures var w' := CloseServer(w, n, isEgress, order).world;
      DirectoryOk(w'.ingress, false, egresses) && DirectoryOk(w'.egress, true, egresses)
  {
    ConnectedIsInOnePlace(w, n, isEgress, egresses);
    var r := RegionOf(DirectoryOf(w, isEgress).regions, n).value;
    if DropRoute(w.state, order, n).Done? {
      var w1 := Disconnected(w.(state := DropRoute(w.state, order, n).state), n, isEgress);
      var d := DirectoryOf(w1, isEgress);
      assert DirectoryOk(d, isEgress, egresses);
      DropKeepsTable(w.state, order, n);
      ResolvedPlace(w1, n, isEgress, r);
      if r in d.loads {
        assert InRegion(d.regions, r, n);
        StruckOk(d, r, n, isEgress, egresses);
      }
    }
  }

  lemma ClosePipes(w: World, n: Node, isEgress: bool, order: seq<PeerId>)
    ensures forall p :: p in CloseServer(w, n, isEgress, order).world.pipes ==> p in w.pipes
  {
  }

  lemma EventKeepsSound(w: World, e: Event, egresses: set<Node>)
    requires Sound(w, egresses) && Allowed(w, e, egresses)
    ensures Sound(Effect(w, e), egresses)
  {
    match e
    case RegisterServer(n, r, isEgress) => RegistersIff(DirectoryOf(w, isEgress), r, n, isEgress, egresses);
    case ReportLoad(n, r, load, isEgress) => LoadedOk(DirectoryOf(w, isEgress), r, n, load, isEgress, egresses);
    case JoinIn(p, room, r) =>
      ChoiceOfRole(w.ingress, r, false, egresses);
      ChoiceOfRole(w.egress, r, true, egresses);
      JoinListsOk(w.state, p, room, Choice(w.ingress, r), Choice(w.egress, r), egresses);
      JoinKeepsPlaced(w.state, p, room, Choice(w.ingress, r), Choice(w.egress, r));
    case Serve(a) =>
      NextWithin(w.state, a);
      WithinListsOk(w.state, Next(w.state, a), egresses);
      OperationKeepsPlaced(w.state, a);
    case OfferPipe(i, to, route) => OfferKeepsSound(w, i, to, route, egresses);
    case CloseConnection(n, isEgress, order) =>
      CloseKeepsState(w, n, isEgress, order, egresses);
      CloseKeepsDirectories(w, n, isEgress, order, egresses);
      ClosePipes(w, n, isEgress, order);
  }

  lemma OfferKeepsSound(w: World, i: Node, to: Node, route: RouterId, egresses: set<Node>)
    requires Sound(w, egresses) && i in w.ingress.up && to in egresses
    ensures Sound(Effect(w, OfferPipe(i, to, route)), egresses)
  {
    ListedInRegion(w.ingress.regions, i);
    assert forall p :: p in w.pipes + [Record(i, to, route)] ==> p in w.pipes || p == Record(i, to, route);
  }

  lemma {:induction false} AlwaysSound(trace: seq<World>, events: seq<Event>, egresses: set<Node>, k: nat)
    requires Run(trace, events, egresses) && k < |trace|
    ensures Sound(trace[k], egresses)
  {
    if k > 0 {
      AlwaysSound(trace, events, egresses, k - 1);
      EventKeepsSound(trace[k - 1], events[k - 1], egresses);
      assert trace[(k - 1) + 1] == Effect(trace[k - 1], events[k - 1]);
    }
  }

  /** In every state of every run each connected server is registered in one region of its role and
      used in that role only, and whoever has servers is in a room. */
  lemma ConnectedInOnePlace(trace: seq<World>, events: seq<Event>, egresses: set<Node>, k: nat, n: Node, isEgress: bool)
    requires Run(trace, events, egresses) && k < |trace| && n in DirectoryOf(trace[k], isEgress).up
    ensures Placed(trace[k].state)
    ensures RegionOf(DirectoryOf(trace[k], isEgress).regions, n).Some?
    ensures InOnePlace(trace[k], n, isEgress, RegionOf(DirectoryOf(trace[k], isEgress).regions, n).value)
  {
    AlwaysSound(trace, events, egresses, k);
    ConnectedIsInOnePlace(trace[k], n, isEgress, egresses);
  }

  /** Whenever a connection closes in a run, it leaves no trace of its server exactly if no peer of the
      server is in a room that has lost its counter, and a load was reported in its region. */
  lemma CloseInRunIff(trace: seq<World>, events: seq<Event>, egresses: set<Node>, k: nat)
    requires Run(trace, events, egresses) && k < |events| && events[k].CloseConnection?
    ensures var w, n, d := trace[k], events[k].node, DirectoryOf(trace[k], events[k].isEgress);
      && RegionOf(d.regions, n).Some?
      && (NoTrace(trace[k + 1], n) <==> !Stumbles(w.state, n) && RegionOf(d.regions, n).value in d.loads)
      && (NoTrace(trace[k + 1], n) <==> CloseServer(w, n, events[k].isEgress, events[k].order).Clean?)
  {
    var w, n, isEgress, order := trace[k], events[k].node, events[k].isEgress, events[k].order;
    assert Allowed(w, events[k], egresses);
    ConnectedInOnePlace(trace, events, egresses, k, n, isEgress);
    CloseLeavesNoTraceIff(w, n, isEgress, order, RegionOf(DirectoryOf(w, isEgress).regions, n).value);
  }

  // ---------------------------------------------------------------- the load that counts

  function Nodes(rs: seq<Report>): (ns: seq<Node>)
    ensures |ns| == |rs| && forall k :: 0 <= k < |rs| ==> ns[k] == rs[k].node
  {
    seq(|rs|, k requires 0 <= k < |rs| => rs[k].node)
  }

  lemma NodesCons(x: Report, rs: seq<Report>)
    ensures Nodes([x] + rs) == [x.node] + Nodes(rs)
    ensures NoRepeats(Nodes([x] + rs)) <==> x.node !in Nodes(rs) && NoRepeats(Nodes(rs))
  {
    var ns, all := Nodes(rs), Nodes([x] + rs);
    assert all == [x.node] + ns;
    if NoRepeats(all) {
      forall i, j | 0 <= i < j < |ns| ensures ns[i] != ns[j] {
        assert all[i + 1] != all[j + 1];
      }
      forall i | 0 <= i < |ns| ensures ns[i] != x.node {
        assert all[0] != all[i + 1];
      }
    }
  }

  lemma WithCons(m: Node, ns: seq<Node>, n: Node)
    requires m != n
    ensures With([m] + ns, n) == [m] + With(ns, n)
  {
    assert [m] + ns + [n] == [m] + (ns + [n]);
  }

  /** A report takes the place of the server's earlier one, or comes last. */
  lemma {:induction false} ReportedNodesAre(rs: seq<Report>, n: Node, load: int)
    ensures Nodes(Reported(rs, n, load)) == With(Nodes(rs), n)
  {
    if rs == [] {
      assert Nodes([Report(n, load)]) == [n] == [] + [n];
    } else {
      var x, rest := rs[0], rs[1..];
      assert [x] + rest == rs;
      NodesCons(x, rest);
      if x.node == n {
        NodesCons(Report(n, load), rest);
      } else {
        ReportedNodesAre(rest, n, load);
        NodesCons(x, Reported(rest, n, load));
        WithCons(x.node, Nodes(rest), n);
      }
    }
  }

  lemma {:induction false} ReportedIs(rs: seq<Report>, n: Node, load: int, x: Report)
    requires NoRepeats(Nodes(rs))
    ensures x in Reported(rs, n, load) <==> x == Report(n, load) || (x in rs && x.node != n)
  {
    if rs != [] {
      assert [rs[0]] + rs[1..] == rs;
      NodesCons(rs[0], rs[1..]);
      if rs[0].node == n {
        assert x in rs[1..] ==> x.node in Nodes(rs[1..]);
      } else {
        ReportedIs(rs[1..], n, load, x);
      }
    }
  }

  lemma LoadedOnce(d: Directory, q: Region, m: Node, load: int)
    requires OneReportEach(d)
    ensures OneReportEach(Loaded(d, q, m, load))
  {
    var rs := if q in d.loads then d.loads[q] else [];
    ReportedNodesAre(rs, m, load);
    WithElements(Nodes(rs), m);
  }

  lemma LoadedStores(d: Directory, q: Region, m: Node, load: int, r: Region, n: Node, l: int)
    requires OneReportEach(d)
    ensures Stored(Loaded(d, q, m, load), r, n, l) <==>
      (r == q && n == m && l == load) || (Stored(d, r, n, l) && !(r == q && n == m))
  {
    ReportedIs(if q in d.loads then d.loads[q] else [], m, load, Report(n, l));
  }

  lemma {:induction false} WithoutReportNodes(rs: seq<Report>, n: Node)
    requires NoRepeats(Nodes(rs))
    ensures NoRepeats(Nodes(WithoutReport(rs, n)))
    ensures forall m :: m in Nodes(WithoutReport(rs, n)) ==> m in Nodes(rs)
  {
    if rs != [] {
      assert [rs[0]] + rs[1..] == rs;
      NodesCons(rs[0], rs[1..]);
      WithoutReportNodes(rs[1..], n);
      NodesCons(rs[0], WithoutReport(rs[1..], n));
      assert [] + WithoutReport(rs[1..], n) == WithoutReport(rs[1..], n);
    }
  }

  ghost predicate OneReportEach(d: Directory) {
    forall r :: r in d.loads ==> NoRepeats(Nodes(d.loads[r]))
  }

  ghost predicate Stored(d: Directory, r: Region, n: Node, load: int) {
    r in d.loads && Report(n, load) in d.loads[r]
  }

  /** A later report of the server, or a close of its connection that no exception ends. */
  ghost predicate Replaces(w: World, e: Event, r: Region, n: Node, isEgress: bool) {
    || (e.ReportLoad? && e.node == n && e.region == r && e.isEgress == isEgress)
    || (e.CloseConnection? && e.node == n && e.isEgress == isEgress && CloseServer(w, n, isEgress, e.order).Clean?)
  }

  /** A close that no exception ends strikes the server's report from the one region that it is in. */
  lemma CloseStrikes(w: World, n: Node, isEgress: bool, order: seq<PeerId>, r: Region)
    requires InOnePlace(w, n, isEgress, r)
    ensures var d, c := DirectoryOf(w, isEgress), CloseServer(w, n, isEgress, order);
      && (c.Clean? ==> r in d.loads)
      && DirectoryOf(c.world, isEgress).loads ==
           (if c.Clean? then d.loads[r := WithoutReport(d.loads[r], n)] else d.loads)
      && DirectoryOf(c.world, !isEgress).loads == DirectoryOf(w, !isEgress).loads
  {
    if DropRoute(w.state, order, n).Done? {
      DropKeepsTable(w.state, order, n);
      ResolvedPlace(Disconnected(w.(state := DropRoute(w.state, order, n).state), n, isEgress), n, isEgress, r);
    }
  }

  lemma StruckOnce(d: Directory, d': Directory, r: Region, n: Node)
    requires OneReportEach(d) && r in d.loads && d'.loads == d.loads[r := WithoutReport(d.loads[r], n)]
    requires forall q, x :: q in d.loads && x in d.loads[q] && x.node == n ==> q == r
    ensures OneReportEach(d')
    ensures forall q, m, l :: Stored(d', q, m, l) <==> Stored(d, q, m, l) && m != n
  {
    WithoutReportNodes(d.loads[r], n);
    assert forall q, l :: Stored(d, q, n, l) ==> Report(n, l).node == n && q == r;
  }

  lemma ClosedOnce(w: World, e: Event, egresses: set<Node>, isEgress: bool)
    requires Sound(w, egresses) && Allowed(w, e, egresses) && e.CloseConnection?
    requires OneReportEach(DirectoryOf(w, isEgress))
    ensures OneReportEach(DirectoryOf(Effect(w, e), isEgress))
    ensures forall r, n, l :: Stored(DirectoryOf(Effect(w, e), isEgress), r, n, l) <==>
      Stored(DirectoryOf(w, isEgress), r, n, l) && !Replaces(w, e, r, n, isEgress)
  {
    ConnectedIsInOnePlace(w, e.node, e.isEgress, egresses);
    var r := RegionOf(DirectoryOf(w, e.isEgress).regions, e.node).value;
    CloseStrikes(w, e.node, e.isEgress, e.order, r);
    if isEgress == e.isEgress && CloseServer(w, e.node, isEgress, e.order).Clean? {
      StruckOnce(DirectoryOf(w, isEgress), DirectoryOf(Effect(w, e), isEgress), r, e.node);
    }
  }

  /** What an event does to the loads that are stored. */
  lemma StoredAfter(w: World, e: Event, egresses: set<Node>, isEgress: bool, r: Region, n: Node, load: int)
    requires Sound(w, egresses) && Allowed(w, e, egresses) && OneReportEach(DirectoryOf(w, isEgress))
    ensures OneReportEach(DirectoryOf(Effect(w, e), isEgress))
    ensures Stored(DirectoryOf(Effect(w, e), isEgress), r, n, load) <==>
      e == ReportLoad(n, r, load, isEgress)
      || (Stored(DirectoryOf(w, isEgress), r, n, load) && !Replaces(w, e, r, n, isEgress))
  {
    if e.ReportLoad? && e.isEgress == isEgress {
      LoadedOnce(DirectoryOf(w, isEgress), e.region, e.node, e.load);
      LoadedStores(DirectoryOf(w, isEgress), e.region, e.node, e.load, r, n, load);
    } else if e.CloseConnection? {
      ClosedOnce(w, e, egresses, isEgress);
    }
  }

  lemma {:induction false} AlwaysOneReport(trace: seq<World>, events: seq<Event>, egresses: set<Node>, k: nat,
      isEgress: bool)
    requires Run(trace, events, egresses) && k < |trace|
    ensures OneReportEach(DirectoryOf(trace[k], isEgress))
  {
    if k > 0 {
      AlwaysOneReport(trace, events, egresses, k - 1, isEgress);
      AlwaysSound(trace, events, egresses, k - 1);
      StoredAfter(trace[k - 1], events[k - 1], egresses, isEgress, 0, 0, 0);
      assert trace[(k - 1) + 1] == Effect(trace[k - 1], events[k - 1]);
    }
  }

  /** Event `j` is the server's last report before state `k`, and its connection has not closed since. */
  ghost predicate LastReport(trace: seq<World>, events: seq<Event>, j: nat, k: nat, r: Region, n: Node, load: int,
      isEgress: bool)
    requires |trace| == |events| + 1 && k < |trace|
  {
    && j < k && events[j] == ReportLoad(n, r, load, isEgress)
    && forall m :: j < m < k ==> !Replaces(trace[m], events[m], r, n, isEgress)
  }

  lemma LastReportNext(trace: seq<World>, events: seq<Event>, i: nat, k: nat, r: Region, n: Node, load: int,
      isEgress: bool)
    requires |trace| == |events| + 1 && i < |events| && k == i + 1
    ensures (exists j: nat :: LastReport(trace, events, j, k, r, n, load, isEgress)) <==>
      || events[i] == ReportLoad(n, r, load, isEgress)
      || (!Replaces(trace[i], events[i], r, n, isEgress)
          && exists j: nat :: LastReport(trace, events, j, i, r, n, load, isEgress))
  {
    if j: nat :| LastReport(trace, events, j, i, r, n, load, isEgress) {
      assert !Replaces(trace[i], events[i], r, n, isEgress) ==>
        LastReport(trace, events, j, k, r, n, load, isEgress);
    }
    if events[i] == ReportLoad(n, r, load, isEgress) {
      assert LastReport(trace, events, i, k, r, n, load, isEgress);
    }
    if j: nat :| LastReport(trace, events, j, k, r, n, load, isEgress) {
      assert j < i ==> LastReport(trace, events, j, i, r, n, load, isEgress);
    }
  }

  /** In every state of every run the loads stored are the last ones that were reported, by servers whose
      connection has not closed since without an exception. */
  lemma {:induction false} StoredIff(trace: seq<World>, events: seq<Event>, egresses: set<Node>, k: nat, r: Region,
      n: Node, load: int, isEgress: bool)
    requires Run(trace, events, egresses) && k < |trace|
    ensures Stored(DirectoryOf(trace[k], isEgress), r, n, load) <==>
      exists j: nat :: LastReport(trace, events, j, k, r, n, load, isEgress)
  {
    if k > 0 {
      var i := k - 1;
      StoredIff(trace, events, egresses, i, r, n, load, isEgress);
      AlwaysSound(trace, events, egresses, i);
      AlwaysOneReport(trace, events, egresses, i, isEgress);
      StoredAfter(trace[i], events[i], egresses, isEgress, r, n, load);
      assert trace[i + 1] == Effect(trace[i], events[i]);
      LastReportNext(trace, events, i, k, r, n, load, isEgress);
    }
  }

  /** So wherever a load is stored in a region, the server chosen there is one whose last report is the
      least of all. */
  lemma LeastReporterIsChosen(trace: seq<World>, events: seq<Event>, egresses: set<Node>, k: nat, r: Region,
      isEgress: bool)
    requires Run(trace, events, egresses) && k < |trace|
    requires exists n, load :: Stored(DirectoryOf(trace[k], isEgress), r, n, load)
    ensures var d := DirectoryOf(trace[k], isEgress);
      && Get(d, r).Chosen?
      && exists load :: Stored(d, r, Get(d, r).node, load) && forall m, l :: Stored(d, r, m, l) ==> load <= l
  {
    var d := DirectoryOf(trace[k], isEgress);
    AlwaysSound(trace, events, egresses, k);
    var best := d.loads[r][Least(d.loads[r])];
    assert IsLeast(d.loads[r], Least(d.loads[r])) && best in d.loads[r] && InRegion(d.regions, r, best.node);
    InRegionServes(d, r, best.node);
    ChoiceIs(d, r);
    assert Stored(d, r, best.node, best.load);
  }

  lemma InRegionServes(d: Directory, r: Region, n: Node)
    requires DistinctRegions(d.regions) && InRegion(d.regions, r, n)
    ensures Serves(d, r, n)
  {
    var x :| x in d.regions && x.region == r && n in x.servers;
    var k :| 0 <= k < |d.regions| && d.regions[k] == x;
    assert IsEntry(d.regions, r, k);
  }

  // ---------------------------------------------------------------- after a close

  /** Nothing names the server, except perhaps pipes. */
  ghost predicate Unused(w: World, n: Node) {
    && n !in w.ingress.up && n !in w.egress.up
    && !Listed(w.ingress.regions, n) && !Listed(w.egress.regions, n)
    && (forall r, x :: r in w.ingress.loads && x in w.ingress.loads[r] ==> x.node != n)
    && (forall r, x :: r in w.egress.loads && x in w.egress.loads[r] ==> x.node != n)
    && Unmentioned(w.state, n)
  }

  ghost predicate Unmentioned(s: State, n: Node) {
    && (forall r :: r in s.rooms ==> !Names(s.rooms[r], n))
    && (forall r :: r in s.table ==> !Names(s.table[r], n))
    && (forall p :: p in s.peers ==> !On(s.peers[p], n))
  }

  ghost predicate Idle(d: Directory, n: Node) {
    n !in d.up && !Listed(d.regions, n) && forall r, x :: r in d.loads && x in d.loads[r] ==> x.node != n
  }

  lemma RegisterIdle(d: Directory, r: Region, m: Node, n: Node)
    requires Idle(d, n) && m != n
    ensures Idle(Registered(d, r, m), n)
  {
    var es := Register(d.regions, r, m);
    ListedInRegion(d.regions, n);
    ListedInRegion(es, n);
    if q :| InRegion(es, q, n) {
      RegisterInRegion(d.regions, r, m, q, n);
    }
  }

  lemma LoadIdle(d: Directory, r: Region, m: Node, load: int, n: Node)
    requires Idle(d, n) && m != n
    ensures Idle(Loaded(d, r, m, load), n)
  {
    ReportedNodes(if r in d.loads then d.loads[r] else [], m, load);
  }

  lemma StruckIdle(d: Directory, r: Region, m: Node, n: Node)
    requires Idle(d, n) && r in d.loads && DistinctRegions(d.regions)
    ensures Idle(Struck(d, r, m), n) && Idle(Unreported(d, r, m), n)
  {
    var es := Filtered(d.regions, r, m);
    ListedInRegion(d.regions, n);
    ListedInRegion(es, n);
    if q :| InRegion(es, q, n) {
      FilteredInRegion(d.regions, r, m, q, n);
    }
  }

  lemma WithinUnmentioned(s: State, t: State, n: Node)
    requires Within(s, t) && Unmentioned(s, n)
    ensures Unmentioned(t, n)
  {
  }

  lemma JoinUnmentioned(s: State, p: PeerId, room: Room, i: Option<Node>, e: Option<Node>, n: Node)
    requires Unmentioned(s, n) && i != Some(n) && e != Some(n)
    ensures Unmentioned(JoinRoom(s, p, room, i, e), n)
  {
  }

  lemma CloseIdle(w: World, m: Node, isEgress: bool, order: seq<PeerId>, n: Node)
    requires Idle(w.ingress, n) && Idle(w.egress, n)
    requires DistinctRegions(w.ingress.regions) && DistinctRegions(w.egress.regions)
    ensures var w' := CloseServer(w, m, isEgress, order).world; Idle(w'.ingress, n) && Idle(w'.egress, n)
  {
    if DropRoute(w.state, order, m).Done? {
      var w1 := Disconnected(w.(state := DropRoute(w.state, order, m).state), m, isEgress);
      var d := DirectoryOf(w1, isEgress);
      assert Idle(d, n);
      if Resolved(w1, m).Some? && Resolved(w1, m).value in d.loads {
        StruckIdle(d, Resolved(w1, m).value, m, n);
      }
    }
  }

  lemma IdleIs(w: World, n: Node)
    ensures Unused(w, n) <==> Idle(w.ingress, n) && Idle(w.egress, n) && Unmentioned(w.state, n)
  {
  }

  /** Whatever happens but its own registration leaves the server unused. */
  lemma EventKeepsUnused(w: World, e: Event, egresses: set<Node>, n: Node)
    requires Sound(w, egresses) && Allowed(w, e, egresses) && Unused(w, n) && !(e.RegisterServer? && e.node == n)
    ensures Unused(Effect(w, e), n)
  {
    IdleIs(w, n);
    IdleIs(Effect(w, e), n);
    match e
    case RegisterServer(m, r, isEgress) => RegisterIdle(DirectoryOf(w, isEgress), r, m, n);
    case ReportLoad(m, r, load, isEgress) => LoadIdle(DirectoryOf(w, isEgress), r, m, load, n);
    case JoinIn(p, room, r) =>
      ChoiceListed(w.ingress, r);
      ChoiceListed(w.egress, r);
      JoinUnmentioned(w.state, p, room, Choice(w.ingress, r), Choice(w.egress, r), n);
    case Serve(a) =>
      NextWithin(w.state, a);
      WithinUnmentioned(w.state, Next(w.state, a), n);
    case OfferPipe(_, _, _) =>
    case CloseConnection(m, isEgress, order) =>
      CloseIdle(w, m, isEgress, order, n);
      var a := Operation.Close(order, m, isEgress, CloseServer(w, m, isEgress, order).Clean?);
      CloseIsOperation(w, m, isEgress, order);
      NextWithin(w.state, a);
      WithinUnmentioned(w.state, Next(w.state, a), n);
  }

  ghost predicate Unpiped(w: World, n: Node) {
    forall p :: p in w.pipes ==> p.ingress != n && p.egress != n
  }

  lemma TraceIs(w: World, n: Node)
    ensures NoTrace(w, n) <==> Unused(w, n) && Unpiped(w, n)
  {
  }

  lemma EventPipes(w: World, e: Event, egresses: set<Node>, n: Node)
    requires Allowed(w, e, egresses) && Unused(w, n) && Unpiped(w, n)
    ensures Unpiped(Effect(w, e), n) <==> !(e.OfferPipe? && e.egress == n)
  {
    if e.OfferPipe? {
      var pipe := Record(e.ingress, e.egress, e.route);
      assert pipe in w.pipes + [pipe];
      assert forall p :: p in w.pipes + [pipe] ==> p in w.pipes || p == pipe;
    } else if e.CloseConnection? {
      ClosePipes(w, e.node, e.isEgress, e.order);
    }
  }

  /** A server without a trace gets one exactly if it registers, or a pipe is offered to it that was on
      its way when it closed. */
  lemma TraceAgainIff(w: World, e: Event, egresses: set<Node>, n: Node)
    requires Sound(w, egresses) && Allowed(w, e, egresses) && NoTrace(w, n)
    ensures NoTrace(Effect(w, e), n) <==> !(e.RegisterServer? && e.node == n) && !(e.OfferPipe? && e.egress == n)
  {
    TraceIs(w, n);
    TraceIs(Effect(w, e), n);
    EventPipes(w, e, egresses, n);
    if e.RegisterServer? && e.node == n {
      assert n in DirectoryOf(Effect(w, e), e.isEgress).up;
    } else {
      EventKeepsUnused(w, e, egresses, n);
    }
  }

  lemma {:induction false} UnusedUntilRegistered(trace: seq<World>, events: seq<Event>, egresses: set<Node>, k: nat,
      m: nat, n: Node)
    requires Run(trace, events, egresses) && k <= m < |trace| && Unused(trace[k], n)
    requires forall j :: k <= j < m ==> !(events[j].RegisterServer? && events[j].node == n)
    ensures Unused(trace[m], n)
    decreases m
  {
    if k < m {
      UnusedUntilRegistered(trace, events, egresses, k, m - 1, n);
      AlwaysSound(trace, events, egresses, m - 1);
      assert Allowed(trace[m - 1], events[m - 1], egresses);
      EventKeepsUnused(trace[m - 1], events[m - 1], egresses, n);
      assert trace[(m - 1) + 1] == Effect(trace[m - 1], events[m - 1]);
    }
  }

  /** A server whose connection closed cleanly is not chosen in any later state before it registers
      again, in no region and for neither role, and no room, route or peer names it till then. */
  lemma ClosedServerNotChosen(trace: seq<World>, events: seq<Event>, egresses: set<Node>, k: nat, m: nat, r: Region)
    requires Run(trace, events, egresses) && k < m < |trace| && events[k].CloseConnection?
    requires CloseServer(trace[k], events[k].node, events[k].isEgress, events[k].order).Clean?
    requires forall j :: k < j < m ==> !(events[j].RegisterServer? && events[j].node == events[k].node)
    ensures Unused(trace[m], events[k].node)
    ensures Get(trace[m].ingress, r) != Chosen(events[k].node) && Get(trace[m].egress, r) != Chosen(events[k].node)
  {
    CloseInRunIff(trace, events, egresses, k);
    TraceIs(trace[k + 1], events[k].node);
    UnusedUntilRegistered(trace, events, egresses, k + 1, m, events[k].node);
    ChosenIsRegistered(trace[m].ingress, r);
    ChosenIsRegistered(trace[m].egress, r);
  }
}
