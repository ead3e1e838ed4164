/** Media servers: how they register and report their load, how one is chosen, and what is left of
    one whose connection closes. */
module ServerClose {
  import opened Sfu
  import opened Signaling
  import opened Handshake

  type Region = nat

  datatype Entry = Entry(region: Region, servers: seq<Node>)
  datatype Report = Report(node: Node, load: int)

  /** One role's servers: the connected ones, the region lists in the order in which regions came
      up, and the loads reported by region. */
  datatype Directory = Directory(up: set<Node>, regions: seq<Entry>, loads: map<Region, seq<Report>>)

  function ServersOf(es: seq<Entry>, r: Region): Option<seq<Node>> {
    if es == [] then None else if es[0].region == r then Some(es[0].servers) else ServersOf(es[1..], r)
  }

  /** `find` over one role's regions. */
  function RegionOf(es: seq<Entry>, n: Node): (r: Option<Region>)
    ensures r.None? <==> forall x :: x in es ==> n !in x.servers
    ensures r.Some? ==> exists x :: x in es && x.region == r.value && n in x.servers
  {
    if es == [] then None else if n in es[0].servers then Some(es[0].region) else RegionOf(es[1..], n)
  }

  function Register(es: seq<Entry>, r: Region, n: Node): seq<Entry> {
    if es == [] then [Entry(r, [n])]
    else if es[0].region == r then [Entry(r, es[0].servers + [n])] + es[1..]
    else [es[0]] + Register(es[1..], r, n)
  }

  function Reported(rs: seq<Report>, n: Node, load: int): seq<Report> {
    if rs == [] then [Report(n, load)]
    else if rs[0].node == n then [Report(n, load)] + rs[1..]
    else [rs[0]] + Reported(rs[1..], n, load)
  }

  /** `registerMediaServer`: the server goes to the end of its region's list, which is made if need be. */
  function Registered(d: Directory, r: Region, n: Node): Directory {
    d.(up := d.up + {n}, regions := Register(d.regions, r, n))
  }

  /** `serverLoad`: stored under region and server, in place of an earlier one. */
  function Loaded(d: Directory, r: Region, n: Node, load: int): Directory {
    d.(loads := d.loads[r := Reported(if r in d.loads then d.loads[r] else [], n, load)])
  }

  // ---------------------------------------------------------------- choosing a server

  datatype Choice = Chosen(node: Node) | Nobody | Crash

  /** The first of the reports with the least load, as a stable sort puts it. */
  predicate IsLeast(rs: seq<Report>, k: nat) {
    && k < |rs|
    && (forall j :: 0 <= j < |rs| ==> rs[k].load <= rs[j].load)
    && (forall j :: 0 <= j < k ==> rs[k].load < rs[j].load)
  }

  method LeastLoaded(rs: seq<Report>) returns (k: nat)
    requires rs != []
    ensures IsLeast(rs, k)
  {
    k := 0;
    for i := 1 to |rs|
      invariant k < i && forall j :: 0 <= j < i ==> rs[k].load <= rs[j].load
      invariant forall j :: 0 <= j < k ==> rs[k].load < rs[j].load
    {
      if rs[i].load < rs[k].load {
        k := i;
      }
    }
  }

  function Least(rs: seq<Report>): (k: nat)
    requires rs != []
    ensures IsLeast(rs, k)
  {
    if |rs| == 1 then 0
    else
      var k := Least(rs[..|rs| - 1]);
      if rs[|rs| - 1].load < rs[k].load then |rs| - 1 else k
  }

  lemma LeastUnique(rs: seq<Report>, j: nat, k: nat)
    requires IsLeast(rs, j) && IsLeast(rs, k)
    ensures j == k
  {
    assert rs[j].load <= rs[k].load <= rs[j].load;
  }

  function Default(es: seq<Entry>): Choice {
    if es == [] || es[0].servers == [] then Nobody else Chosen(es[0].servers[0])
  }

  /** `getIngress` and `getEgress`.  With servers in the region but no load left to compare, the
      code reads from an undefined entry. */
  function Get(d: Directory, r: Region): Choice {
    match ServersOf(d.regions, r)
    case None => Default(d.regions)
    case Some(servers) =>
      if r !in d.loads then Default(d.regions)
      else if d.loads[r] == [] then if servers == [] then Default(d.regions) else Crash
      else
        var least := d.loads[r][Least(d.loads[r])].node;
        if least in servers then Chosen(least) else Default(d.regions)
  }

  method GetServer(d: Directory, r: Region) returns (c: Choice)
    ensures c == Get(d, r)
  {
    var servers := ServersOf(d.regions, r);
    if servers.Some? && r in d.loads {
      if d.loads[r] == [] {
        if servers.value != [] {
          return Crash;
        }
      } else {
        var k := LeastLoaded(d.loads[r]);
        LeastUnique(d.loads[r], k, Least(d.loads[r]));
        if d.loads[r][k].node in servers.value {
          return Chosen(d.loads[r][k].node);
        }
      }
    }
    return Default(d.regions);
  }

  /** The region's list, which is the first entry under its name. */
  ghost predicate IsEntry(es: seq<Entry>, r: Region, k: nat) {
    k < |es| && es[k].region == r && forall j :: 0 <= j < k ==> es[j].region != r
  }

  lemma {:induction false} ServersAt(es: seq<Entry>, r: Region)
    ensures ServersOf(es, r).None? <==> forall x :: x in es ==> x.region != r
    ensures ServersOf(es, r).Some? ==> exists k: nat :: IsEntry(es, r, k) && es[k].servers == ServersOf(es, r).value
  {
    if es != [] {
      ServersAt(es[1..], r);
      assert es == [es[0]] + es[1..];
      if es[0].region == r {
        assert IsEntry(es, r, 0);
      } else if ServersOf(es[1..], r).Some? {
        var k: nat :| IsEntry(es[1..], r, k) && es[1..][k].servers == ServersOf(es[1..], r).value;
        assert forall j :: 0 < j < |es| ==> es[j] == es[1..][j - 1];
        assert IsEntry(es, r, k + 1);
      }
    }
  }

  /** Where the region's list is, or where it would be put. */
  ghost predicate IsPlace(es: seq<Entry>, r: Region, k: nat) {
    IsEntry(es, r, k) || (k == |es| && forall j :: 0 <= j < k ==> es[j].region != r)
  }

  lemma PlaceAfterFirst(es: seq<Entry>, r: Region, k: nat)
    requires IsPlace(es, r, k) && k > 0
    ensures es[0].region != r && IsPlace(es[1..], r, k - 1) && es == [es[0]] + es[1..]
  {
    forall j | 0 <= j < k - 1 ensures es[1..][j].region != r {
      assert es[1..][j] == es[j + 1];
    }
  }

  /** A server that registers comes last in its region's list, and a new region last of all. */
  lemma {:induction false} RegisterIs(es: seq<Entry>, r: Region, n: Node, k: nat)
    requires IsPlace(es, r, k)
    ensures Register(es, r, n) ==
      if k < |es| then es[k := Entry(r, es[k].servers + [n])] else es + [Entry(r, [n])]
  {
    if k > 0 {
      PlaceAfterFirst(es, r, k);
      RegisterIs(es[1..], r, n, k - 1);
    }
  }

  /** Only the region's own list changes when a server is struck from it. */
  lemma {:induction false} FilteredIs(es: seq<Entry>, r: Region, n: Node, k: nat)
    requires IsPlace(es, r, k)
    ensures Filtered(es, r, n) == if k < |es| then es[k := Entry(r, WithoutNode(es[k].servers, n))] else es
  {
    if k > 0 {
      PlaceAfterFirst(es, r, k);
      FilteredIs(es[1..], r, n, k - 1);
    }
  }

  ghost predicate Serves(d: Directory, r: Region, n: Node) {
    exists k: nat :: IsEntry(d.regions, r, k) && n in d.regions[k].servers
  }

  /** `n` is first among the servers that report the least load in the region. */
  ghost predicate Leads(d: Directory, r: Region, n: Node) {
    r in d.loads && exists k: nat :: IsLeast(d.loads[r], k) && d.loads[r][k].node == n
  }

  /** The region has a load table without entries, and servers. */
  ghost predicate Unreadable(d: Directory, r: Region) {
    r in d.loads && d.loads[r] == [] && exists n :: Serves(d, r, n)
  }

  lemma EntryUnique(es: seq<Entry>, r: Region, j: nat, k: nat)
    requires IsEntry(es, r, j) && IsEntry(es, r, k)
    ensures j == k
  {
  }

  lemma ServesIff(d: Directory, r: Region, n: Node)
    ensures Serves(d, r, n) <==> ServersOf(d.regions, r).Some? && n in ServersOf(d.regions, r).value
  {
    ServersAt(d.regions, r);
    if ServersOf(d.regions, r).Some? {
      var k: nat :| IsEntry(d.regions, r, k) && d.regions[k].servers == ServersOf(d.regions, r).value;
      if Serves(d, r, n) {
        var j: nat :| IsEntry(d.regions, r, j) && n in d.regions[j].servers;
        EntryUnique(d.regions, r, j, k);
      }
    }
  }

  lemma LeadsIff(d: Directory, r: Region, n: Node)
    ensures Leads(d, r, n) <==> r in d.loads && d.loads[r] != [] && d.loads[r][Least(d.loads[r])].node == n
  {
    if Leads(d, r, n) {
      var k: nat :| IsLeast(d.loads[r], k) && d.loads[r][k].node == n;
      LeastUnique(d.loads[r], k, Least(d.loads[r]));
    }
  }

  lemma UnreadableIff(d: Directory, r: Region)
    ensures Unreadable(d, r) <==>
      r in d.loads && d.loads[r] == [] && ServersOf(d.regions, r).Some? && ServersOf(d.regions, r).value != []
  {
    if Unreadable(d, r) {
      var n :| Serves(d, r, n);
      ServesIff(d, r, n);
    } else if ServersOf(d.regions, r).Some? && ServersOf(d.regions, r).value != [] {
      ServesIff(d, r, ServersOf(d.regions, r).value[0]);
    }
  }

  /** The least loaded reporter of the region is chosen exactly where it is in the region's list, and
      else the first server of the first region; the choice throws exactly where the region has servers
      and an empty load table, and there is nobody exactly where the first region would have to give a
      server and has none. */
  lemma ChoiceIs(d: Directory, r: Region)
    ensures forall n :: Serves(d, r, n) && Leads(d, r, n) ==> Get(d, r) == Chosen(n)
    ensures Get(d, r) == Crash <==> Unreadable(d, r)
    ensures (forall n :: !(Serves(d, r, n) && Leads(d, r, n))) && !Unreadable(d, r) ==>
      && (Get(d, r) == Nobody <==> d.regions == [] || d.regions[0].servers == [])
      && (d.regions != [] && d.regions[0].servers != [] ==> Get(d, r) == Chosen(d.regions[0].servers[0]))
  {
    UnreadableIff(d, r);
    forall n ensures Serves(d, r, n) && Leads(d, r, n) ==> Get(d, r) == Chosen(n) {
      ServesIff(d, r, n);
      LeadsIff(d, r, n);
    }
    if r in d.loads && d.loads[r] != [] {
      var least := d.loads[r][Least(d.loads[r])].node;
      ServesIff(d, r, least);
      LeadsIff(d, r, least);
    }
  }

  predicate Listed(es: seq<Entry>, n: Node) {
    exists x :: x in es && n in x.servers
  }

  lemma {:induction false} ServersListed(es: seq<Entry>, r: Region, n: Node)
    ensures ServersOf(es, r).Some? && n in ServersOf(es, r).value ==> Listed(es, n)
  {
    if es != [] {
      ServersListed(es[1..], r, n);
      assert es[0] in es;
    }
  }

  /** Whoever is chosen is registered. */
  lemma ChosenIsRegistered(d: Directory, r: Region)
    ensures Get(d, r).Chosen? ==> Listed(d.regions, Get(d, r).node)
  {
    if Get(d, r).Chosen? {
      ServersListed(d.regions, r, Get(d, r).node);
      if d.regions != [] {
        assert d.regions[0] in d.regions;
      }
    }
  }

  /** Where the least loaded reporter of the region is registered there, it or one that reports just
      as little is chosen. */
  lemma ChosenIsLeastLoaded(d: Directory, r: Region)
    requires ServersOf(d.regions, r).Some? && r in d.loads && d.loads[r] != []
    requires d.loads[r][Least(d.loads[r])].node in ServersOf(d.regions, r).value
    ensures Get(d, r).Chosen?
    ensures exists k :: 0 <= k < |d.loads[r]| && d.loads[r][k].node == Get(d, r).node
              && forall j :: 0 <= j < |d.loads[r]| ==> d.loads[r][k].load <= d.loads[r][j].load
  {
    var k := Least(d.loads[r]);
    assert IsLeast(d.loads[r], k) && d.loads[r][k].node == Get(d, r).node;
  }

  // ---------------------------------------------------------------- the close handler

  datatype World = World(state: State, ingress: Directory, egress: Directory, pipes: seq<Record>)

  function DirectoryOf(w: World, isEgress: bool): Directory {
    if isEgress then w.egress else w.ingress
  }

  function WithDirectory(w: World, isEgress: bool, d: Directory): World {
    if isEgress then w.(egress := d) else w.(ingress := d)
  }

  datatype Closed = Clean(world: World) | Aborted(world: World)

  function WithoutNode(ns: seq<Node>, n: Node): (f: seq<Node>)
    ensures forall x :: x in f <==> x in ns && x != n
  {
    if ns == [] then [] else (if ns[0] != n then [ns[0]] else []) + WithoutNode(ns[1..], n)
  }

  function WithoutReport(rs: seq<Report>, n: Node): (f: seq<Report>)
    ensures forall x :: x in f <==> x in rs && x.node != n
  {
    if rs == [] then [] else (if rs[0].node != n then [rs[0]] else []) + WithoutReport(rs[1..], n)
  }

  lemma SumsAgree<T>(a: seq<T>, b: seq<T>, c: seq<T>)
    ensures a + (b + c) == (a + b) + c
  {
  }

  /** Whatever stays keeps its order. */
  lemma {:induction false} WithoutNodeNext(ns: seq<Node>, x: Node, n: Node)
    ensures WithoutNode(ns + [x], n) == WithoutNode(ns, n) + OneNode(x, n)
  {
    if ns == [] {
      assert [x][1..] == [] && [] + [x] == [x];
    } else {
      WithoutNodeNext(ns[1..], x, n);
      assert (ns + [x])[0] == ns[0] && (ns + [x])[1..] == ns[1..] + [x];
      SumsAgree(OneNode(ns[0], n), WithoutNode(ns[1..], n), OneNode(x, n));
    }
  }

  function OneNode(x: Node, n: Node): seq<Node> {
    if x != n then [x] else []
  }

  lemma {:induction false} WithoutReportNext(rs: seq<Report>, x: Report, n: Node)
    ensures WithoutReport(rs + [x], n) == WithoutReport(rs, n) + OneReport(x, n)
  {
    if rs == [] {
      assert [x][1..] == [] && [] + [x] == [x];
    } else {
      WithoutReportNext(rs[1..], x, n);
      assert (rs + [x])[0] == rs[0] && (rs + [x])[1..] == rs[1..] + [x];
      SumsAgree(OneReport(rs[0], n), WithoutReport(rs[1..], n), OneReport(x, n));
    }
  }

  function OneReport(x: Report, n: Node): seq<Report> {
    if x.node != n then [x] else []
  }

  /** The list of region `r` without `n`. */
  function Filtered(es: seq<Entry>, r: Region, n: Node): seq<Entry> {
    if es == [] then []
    else if es[0].region == r then [Entry(r, WithoutNode(es[0].servers, n))] + es[1..]
    else [es[0]] + Filtered(es[1..], r, n)
  }

  /** The room lists server `n` for its role. */
  predicate ListsAs(l: Lists, n: Node, isEgress: bool) {
    n in if isEgress then l.egress else l.ingress
  }

  function Unrouted(m: map<Room, Lists>, n: Node, isEgress: bool): map<Room, Lists> {
    map r | r in m && !ListsAs(m[r], n, isEgress) :: m[r]
  }

  /** `resolveServerToRegion`: the ingress regions come first. */
  function Resolved(w: World, n: Node): Option<Region> {
    var r := RegionOf(w.ingress.regions, n);
    if r.Some? then r else RegionOf(w.egress.regions, n)
  }

  function Unreported(d: Directory, r: Region, n: Node): Directory
    requires r in d.loads
  {
    d.(loads := d.loads[r := WithoutReport(d.loads[r], n)])
  }

  /** The server's load entry goes, and then its place in its region's list. */
  function Struck(d: Directory, r: Region, n: Node): Directory
    requires r in d.loads
  {
    Unreported(d, r, n).(regions := Filtered(d.regions, r, n))
  }

  /** The end of the handler, which an exception before it skips. */
  function Swept(w: World, n: Node, isEgress: bool): World {
    w.(pipes := PipesWithoutNode(w.pipes, n, isEgress),
       state := w.state.(table := Unrouted(w.state.table, n, isEgress)))
  }

  function Disconnected(w: World, n: Node, isEgress: bool): World {
    var d := DirectoryOf(w, isEgress);
    WithDirectory(w, isEgress, d.(up := d.up - {n}))
  }

  /** The connection of server `n` closes; `order` are the peers as the manager keeps them.  Without
      a load table or a list for the region the deletions throw. */
  function CloseServer(w: World, n: Node, isEgress: bool, order: seq<PeerId>): Closed {
    match DropRoute(w.state, order, n)
    case Threw(s) => Aborted(w.(state := s))
    case Done(s) =>
      var w1 := Disconnected(w.(state := s), n, isEgress);
      var d := DirectoryOf(w1, isEgress);
      match Resolved(w1, n)
      case None => Clean(Swept(w1, n, isEgress))
      case Some(r) =>
        if r !in d.loads then Aborted(w1)
        else if ServersOf(d.regions, r).None? then Aborted(WithDirectory(w1, isEgress, Unreported(d, r, n)))
        else Clean(Swept(WithDirectory(w1, isEgress, Struck(d, r, n)), n, isEgress))
  }

  /** Entry `k` is the first one that lists the server. */
  ghost predicate ListsFirst(es: seq<Entry>, n: Node, k: nat) {
    k < |es| && n in es[k].servers && forall j :: 0 <= j < k ==> n !in es[j].servers
  }

  lemma {:induction false} FirstRegion(es: seq<Entry>, n: Node, k: nat)
    requires ListsFirst(es, n, k)
    ensures RegionOf(es, n) == Some(es[k].region)
  {
    if k > 0 {
      assert forall j :: 0 <= j < k ==> es[1..][j] == es[j + 1];
      FirstRegion(es[1..], n, k - 1);
    }
  }

  /** A server is taken to be in the first ingress region that lists it, and in an egress region only if
      no ingress region does. */
  lemma ResolvedIs(w: World, n: Node, k: nat)
    ensures ListsFirst(w.ingress.regions, n, k) ==> Resolved(w, n) == Some(w.ingress.regions[k].region)
    ensures !Listed(w.ingress.regions, n) && ListsFirst(w.egress.regions, n, k) ==>
      Resolved(w, n) == Some(w.egress.regions[k].region)
    ensures !Listed(w.ingress.regions, n) && !Listed(w.egress.regions, n) ==> Resolved(w, n) == None
  {
    if ListsFirst(w.ingress.regions, n, k) {
      FirstRegion(w.ingress.regions, n, k);
    } else if ListsFirst(w.egress.regions, n, k) {
      FirstRegion(w.egress.regions, n, k);
    }
  }

  // ---------------------------------------------------------------- no trace

  ghost predicate NoTrace(w: World, n: Node) {
    && n !in w.ingress.up && n !in w.egress.up
    && !Listed(w.ingress.regions, n) && !Listed(w.egress.regions, n)
    && (forall r, x :: r in w.ingress.loads && x in w.ingress.loads[r] ==> x.node != n)
    && (forall r, x :: r in w.egress.loads && x in w.egress.loads[r] ==> x.node != n)
    && (forall p :: p in w.pipes ==> p.ingress != n && p.egress != n)
    && (forall r :: r in w.state.rooms ==> !Names(w.state.rooms[r], n))
    && (forall r :: r in w.state.table ==> !Names(w.state.table[r], n))
    && (forall p :: p in w.state.peers ==> !On(w.state.peers[p], n))
  }

  /** Region names occur once, and server `n` is registered in region `r` of its role and nowhere
      else, has reported its load there if at all, and is used in its role only. */
  ghost predicate InOnePlace(w: World, n: Node, isEgress: bool, r: Region) {
    var d, other := DirectoryOf(w, isEgress), DirectoryOf(w, !isEgress);
    && n !in other.up && !Listed(other.regions, n)
    && (forall p :: p in w.pipes ==> !EndsAt(p, n, !isEgress))
    && (forall m :: m in w.state.table ==> !ListsAs(w.state.table[m], n, !isEgress))
    && (forall i, j :: 0 <= i < j < |d.regions| ==> d.regions[i].region != d.regions[j].region)
    && (forall x :: x in d.regions ==> (n in x.servers <==> x.region == r))
    && Listed(d.regions, n)
    && (forall q, x :: q in other.loads && x in other.loads[q] ==> x.node != n)
    && (forall q, x :: q in d.loads && q != r && x in d.loads[q] ==> x.node != n)
  }

  /** A peer that has servers is in a room. */
  ghost predicate Placed(s: State) {
    forall p :: p in s.peers && (s.peers[p].ingress.Some? || s.peers[p].egress.Some?) ==> s.peers[p].room.Some?
  }

  /** A peer of the server whose room has no counter: the manager stumbles over it. */
  ghost predicate Stumbles(s: State, n: Node) {
    exists p :: p in s.peers && StumblesOver(s, p, n)
  }

  ghost predicate StumblesOver(s: State, p: PeerId, n: Node)
    requires p in s.peers
  {
    On(s.peers[p], n) && s.peers[p].room.Some? && s.peers[p].room.value in s.rooms && s.peers[p].room.value !in s.counts
  }

  /** `t` comes from `s` by disconnecting peers. */
  ghost predicate Fewer(s: State, t: State) {
    && (forall p :: p in t.peers ==> p in s.peers && t.peers[p] == s.peers[p])
    && (forall r :: r in t.rooms ==> r in s.rooms)
    && (forall r :: r in s.rooms && r !in s.counts ==> r in t.rooms && r !in t.counts)
    && (forall r :: r in t.rooms && r !in t.counts ==> r in s.rooms && r !in s.counts)
    && t.table == s.table
  }

  lemma DisconnectFewer(s: State, t: State, p: PeerId)
    requires Fewer(s, t)
    ensures Fewer(s, Disconnect(t, p).state)
  {
  }

  lemma {:induction false} DropFewer(s: State, order: seq<PeerId>, n: Node)
    ensures Fewer(s, DropPeers(s, order, n).state)
  {
    if order != [] {
      var m := |order| - 1;
      DropFewer(s, order[..m], n);
      var before := DropPeers(s, order[..m], n);
      if before.Done? {
        DisconnectFewer(s, before.state, order[m]);
      }
    }
  }

  /** Of the peers looked at, none is left on the server. */
  lemma {:induction false} DropLeavesNone(s: State, order: seq<PeerId>, n: Node)
    requires Placed(s) && DropPeers(s, order, n).Done?
    ensures forall p :: p in order && p in DropPeers(s, order, n).state.peers ==>
      !On(DropPeers(s, order, n).state.peers[p], n)
  {
    if order != [] {
      var m := |order| - 1;
      var last := order[m];
      DropLeavesNone(s, order[..m], n);
      DropFewer(s, order[..m], n);
      var t, t' := DropPeers(s, order[..m], n).state, DropPeers(s, order, n).state;
      DisconnectFewer(s, t, last);
      assert order == order[..m] + [last];
      assert forall p :: p in t'.peers ==> p in t.peers && t'.peers[p] == t.peers[p];
    }
  }

  lemma {:induction false} DropStumbles(s: State, order: seq<PeerId>, n: Node)
    requires Placed(s)
    ensures DropPeers(s, order, n).Threw? <==>
      exists k :: 0 <= k < |order| && order[k] in s.peers && StumblesOver(s, order[k], n)
  {
    if order != [] {
      var m := |order| - 1;
      var p := order[m];
      DropStumbles(s, order[..m], n);
      DropFewer(s, order[..m], n);
      var before := DropPeers(s, order[..m], n);
      if before.Done? {
        var t := before.state;
        if p in s.peers && StumblesOver(s, p, n) {
          StillThere(s, order[..m], n, p);
        }
        assert (p in t.peers && On(t.peers[p], n) && Disconnect(t, p).Threw?) <==>
          (p in s.peers && StumblesOver(s, p, n));
      }
      assert order == order[..m] + [p];
    }
  }

  /** Nobody whose room has no counter is disconnected without an exception. */
  lemma {:induction false} StillThere(s: State, order: seq<PeerId>, n: Node, p: PeerId)
    requires p in s.peers && StumblesOver(s, p, n) && DropPeers(s, order, n).Done?
    ensures p in DropPeers(s, order, n).state.peers
  {
    if order != [] {
      var m := |order| - 1;
      StillThere(s, order[..m], n, p);
      DropFewer(s, order[..m], n);
    }
  }

  lemma {:induction false} FilteredLists(es: seq<Entry>, r: Region, n: Node)
    requires forall i, j :: 0 <= i < j < |es| ==> es[i].region != es[j].region
    requires forall x :: x in es && n in x.servers ==> x.region == r
    ensures !Listed(Filtered(es, r, n), n)
  {
    if es != [] {
      assert forall i :: 0 <= i < |es[1..]| ==> es[1..][i] == es[i + 1];
      assert forall x :: x in es[1..] ==> x in es;
      assert es[0] in es;
      if es[0].region == r {
        forall x | x in es[1..] ensures n !in x.servers {
          var i :| 0 <= i < |es[1..]| && es[1..][i] == x;
          assert es[0].region != es[i + 1].region;
        }
      } else {
        FilteredLists(es[1..], r, n);
      }
    }
  }

  lemma {:induction false} ListedRegion(es: seq<Entry>, r: Region, n: Node)
    requires forall x :: x in es ==> (n in x.servers <==> x.region == r)
    requires Listed(es, n)
    ensures RegionOf(es, n) == Some(r) && ServersOf(es, r).Some?
  {
    assert es[0] in es;
    if n !in es[0].servers {
      assert forall x :: x in es[1..] ==> x in es;
      var x :| x in es && n in x.servers;
      assert x in es[1..];
      ListedRegion(es[1..], r, n);
    }
  }

  lemma StruckReports(d: Directory, r: Region, n: Node)
    requires r in d.loads && forall q, x :: q in d.loads && q != r && x in d.loads[q] ==> x.node != n
    ensures forall q, x :: q in Struck(d, r, n).loads && x in Struck(d, r, n).loads[q] ==> x.node != n
  {
  }

  /** What the handler does to the manager's state. */
  lemma RouteDropped(w: World, n: Node, order: seq<PeerId>)
    requires Placed(w.state) && (forall p :: p in order <==> p in w.state.peers)
    ensures DropRoute(w.state, order, n).Threw? <==> Stumbles(w.state, n)
    ensures DropRoute(w.state, order, n).Done? ==>
      var s := DropRoute(w.state, order, n).state;
      && (forall r :: r in s.rooms ==> !Names(s.rooms[r], n))
      && (forall p :: p in s.peers ==> !On(s.peers[p], n))
  {
    DropStumbles(w.state, order, n);
    if DropRoute(w.state, order, n).Done? {
      DropLeavesNone(w.state, order, n);
      DropFewer(w.state, order, n);
    }
    if Stumbles(w.state, n) {
      var p :| p in w.state.peers && StumblesOver(w.state, p, n);
      assert p in order;
    }
  }

  lemma ResolvedPlace(w: World, n: Node, isEgress: bool, r: Region)
    requires InOnePlace(w, n, isEgress, r)
    ensures Resolved(w, n) == Some(r)
    ensures ServersOf(DirectoryOf(w, isEgress).regions, r).Some?
  {
    ListedRegion(DirectoryOf(w, isEgress).regions, r, n);
  }

  lemma SweptTrace(w: World, n: Node, isEgress: bool)
    requires n !in w.ingress.up && n !in w.egress.up && !Listed(w.ingress.regions, n) && !Listed(w.egress.regions, n)
    requires forall r, x :: r in w.ingress.loads && x in w.ingress.loads[r] ==> x.node != n
    requires forall r, x :: r in w.egress.loads && x in w.egress.loads[r] ==> x.node != n
    requires forall r :: r in w.state.rooms ==> !Names(w.state.rooms[r], n)
    requires forall p :: p in w.state.peers ==> !On(w.state.peers[p], n)
    requires forall p :: p in w.pipes ==> !EndsAt(p, n, !isEgress)
    requires forall r :: r in w.state.table ==> !ListsAs(w.state.table[r], n, !isEgress)
    ensures NoTrace(Swept(w, n, isEgress), n)
  {
    var w' := Swept(w, n, isEgress);
    assert forall p :: p in w'.pipes ==> !EndsAt(p, n, isEgress) && !EndsAt(p, n, !isEgress);
    assert forall r :: r in w'.state.table ==>
      !ListsAs(w'.state.table[r], n, isEgress) && !ListsAs(w'.state.table[r], n, !isEgress);
  }

  lemma StruckTrace(w: World, n: Node, isEgress: bool, r: Region)
    requires InOnePlace(w, n, isEgress, r) && n !in DirectoryOf(w, isEgress).up
    requires r in DirectoryOf(w, isEgress).loads
    requires forall q :: q in w.state.rooms ==> !Names(w.state.rooms[q], n)
    requires forall p :: p in w.state.peers ==> !On(w.state.peers[p], n)
    ensures NoTrace(Swept(WithDirectory(w, isEgress, Struck(DirectoryOf(w, isEgress), r, n)), n, isEgress), n)
  {
    var d := DirectoryOf(w, isEgress);
    FilteredLists(d.regions, r, n);
    StruckReports(d, r, n);
    SweptTrace(WithDirectory(w, isEgress, Struck(d, r, n)), n, isEgress);
  }

  /** The table is the router's, so dropping peers does not change it. */
  lemma {:induction false} DropKeepsTable(s: State, order: seq<PeerId>, n: Node)
    ensures DropRoute(s, order, n).state.table == s.table
  {
    DropFewer(s, order, n);
  }

  /** Closing leaves no trace of the server exactly if no peer of it is in a room that has lost its
      counter, and a load was reported in its region; otherwise an exception leaves the server in
      its region's list. */
  lemma CloseLeavesNoTraceIff(w: World, n: Node, isEgress: bool, order: seq<PeerId>, r: Region)
    requires InOnePlace(w, n, isEgress, r) && Placed(w.state) && (forall p :: p in order <==> p in w.state.peers)
    ensures NoTrace(CloseServer(w, n, isEgress, order).world, n) <==>
      !Stumbles(w.state, n) && r in DirectoryOf(w, isEgress).loads
    ensures CloseServer(w, n, isEgress, order).Clean? <==> NoTrace(CloseServer(w, n, isEgress, order).world, n)
  {
    RouteDropped(w, n, order);
    if DropRoute(w.state, order, n).Done? {
      DropKeepsTable(w.state, order, n);
      var w1 := Disconnected(w.(state := DropRoute(w.state, order, n).state), n, isEgress);
      ResolvedPlace(w1, n, isEgress, r);
      if r in DirectoryOf(w, isEgress).loads {
        StruckTrace(w1, n, isEgress, r);
      }
    }
  }
}
