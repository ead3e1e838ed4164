/** What holds in every state of the handshake, whatever the clients ask for. */
module HandshakeInvariant {
  import opened Sfu
  import opened Handshake
  import Rooms

  // ---------------------------------------------------------------- where routers live

  ghost predicate Rooted(net: Net, r: RouterId) {
    && r in net.h.home
    && r < net.next
    && var home := net.h.home[r];
    && home.node < |net.nodes|
    && home.born < net.nodes[home.node].read <= |net.nodes[home.node].down|
    && net.nodes[home.node].down[home.born] == CreateRouterGroup(home.room)
  }

  ghost predicate IngressRouter(net: Net, r: RouterId) {
    Rooted(net, r) && net.nodes[net.h.home[r].node].ingress
  }

  /** Between messages `from` and `to` of a link the room was ordered destroyed. */
  ghost predicate Destroyed(log: seq<Msg>, room: Room, from: nat, to: nat) {
    exists k :: from < k < to && k < |log| && log[k] == DestroyRouterGroup(room)
  }

  /** The order to destroy this router's room is at least on its way to its server. */
  ghost predicate Doomed(net: Net, r: RouterId)
    requires Rooted(net, r)
  {
    var home := net.h.home[r];
    var log := net.nodes[home.node].down;
    Destroyed(log, home.room, home.born, |log|)
  }

  /** Before message `to` of the link an offer for router `r` was sent along it. */
  ghost predicate Told(log: seq<Msg>, r: RouterId, to: nat) {
    exists j :: 0 <= j < to && j < |log| && log[j].StorePipeRelay? && log[j].route == r
  }

  ghost predicate Offered(net: Net, r: RouterId, e: Node, t: TransportId) {
    (r, e) in net.h.offered && net.h.offered[(r, e)] == t
  }

  // ---------------------------------------------------------------- the parts of the invariant

  ghost predicate HistoryOk(net: Net) {
    && (forall r :: r in net.h.home ==> Rooted(net, r))
    && (forall k :: k in net.h.offered ==>
          IngressRouter(net, k.0) && net.h.offered[k] < net.next && net.h.offered[k] !in net.h.answered)
    && (forall k, k' :: k in net.h.offered && k' in net.h.offered && net.h.offered[k] == net.h.offered[k'] ==> k == k')
    && (forall u :: u in net.h.answered ==>
          u < net.next && IngressRouter(net, net.h.answered[u].0) && net.h.answered[u] in net.h.first)
    && (forall k :: k in net.h.first ==> net.h.first[k] in net.h.answered && net.h.answered[net.h.first[k]] == k)
  }

  /** The routers of a room on a server were created there for that room, which no message read
      since then ordered destroyed. */
  ghost predicate GroupsAtHome(net: Net, n: Node)
    requires n < |net.nodes|
  {
    var nd := net.nodes[n];
    && nd.read <= |nd.down| && nd.taken <= |nd.up|
    && (forall m, q :: m in nd.server.rooms && q in nd.server.rooms[m] ==>
          && q in net.h.home && net.h.home[q].node == n && net.h.home[q].room == m
          && !Destroyed(nd.down, m, net.h.home[q].born, nd.read))
    && (forall q :: q in nd.server.routers ==> q in net.h.home && net.h.home[q].node == n)
  }

  ghost predicate IngressOk(net: Net, n: Node)
    requires n < |net.nodes|
  {
    var nd := net.nodes[n];
    nd.ingress ==>
      && nd.server.relayRouters == map[]
      && (forall p :: p in nd.routes ==> nd.routes[p] in net.h.home && net.h.home[nd.routes[p]].node == n)
      && (forall x :: x in nd.server.relays ==>
            x.router in net.h.home && net.h.home[x.router].node == n && Offered(net, x.router, x.egress, x.transport))
      && (forall k :: k in net.h.offered && k.0 in net.h.home && net.h.home[k.0].node == n ==>
            && (k.0 in nd.server.routers ==> OfPair(nd.server.relays, k.0, k.1) != [])
            && StorePipeRelay(k.0, k.1, net.h.offered[k]) in nd.up)
  }

  ghost predicate EgressOk(net: Net, n: Node)
    requires n < |net.nodes|
  {
    var nd := net.nodes[n];
    !nd.ingress ==>
      && (forall x :: x in nd.server.relays ==> x.egress == n && (x.router, n) in net.h.first)
      && (forall r :: r in nd.server.relayRouters ==> (r, n) in net.h.first)
      && (forall r :: r in nd.server.pending ==> Offered(net, r, n, nd.server.pending[r]))
      && (forall k :: k in net.h.first && k.1 == n ==> Told(nd.down, k.0, nd.read))
  }

  ghost predicate DownMsgOk(net: Net, n: Node, j: nat)
    requires n < |net.nodes| && j < |net.nodes[n].down|
  {
    var nd := net.nodes[n];
    match nd.down[j]
    case StorePipeRelay(r, e, t) => !nd.ingress && e == n && Offered(net, r, n, t)
    case CreateRelayProducer(_, r, e) => !nd.ingress && e == n && Told(nd.down, r, j)
    case ConnectPipeRelay(r, _, e, u) =>
      && nd.ingress && r in net.h.home && net.h.home[r].node == n
      && u in net.h.answered && net.h.answered[u] == (r, e)
      && e < |net.nodes|
      && exists k :: 0 <= k < net.nodes[e].taken && k < |net.nodes[e].up| && net.nodes[e].up[k] == nd.down[j]
    case CreateWebRTCIngress(_, _, _) => nd.ingress
    case CreateProducer(_, _, _) => nd.ingress
    case _ => true
  }

  ghost predicate DownOk(net: Net, n: Node)
    requires n < |net.nodes|
  {
    && (forall j :: 0 <= j < |net.nodes[n].down| ==> DownMsgOk(net, n, j))
    && DistinctAnswers(net.nodes[n].down)
  }

  /** No pipe is announced twice on a link. */
  ghost predicate DistinctAnswers(log: seq<Msg>) {
    forall j, k :: 0 <= j < k < |log| && log[j].ConnectPipeRelay? && log[k].ConnectPipeRelay? ==>
      log[j].remote != log[k].remote
  }

  ghost predicate UpMsgOk(net: Net, n: Node, j: nat)
    requires n < |net.nodes| && j < |net.nodes[n].up|
  {
    var nd := net.nodes[n];
    match nd.up[j]
    case StorePipeRelay(r, e, t) =>
      && nd.ingress && r in net.h.home && net.h.home[r].node == n && Offered(net, r, e, t)
      && (j < nd.taken && IsEgress(net, e) ==> nd.up[j] in net.nodes[e].down)
    case CreateRelayProducer(_, r, e) =>
      && nd.ingress
      && exists k :: 0 <= k < j && nd.up[k].StorePipeRelay? && nd.up[k].route == r && nd.up[k].egress == e
    case ConnectPipeRelay(r, _, e, u) =>
      !nd.ingress && e == n && u in net.h.answered && net.h.answered[u] == (r, n)
    case _ => false
  }

  ghost predicate UpOk(net: Net, n: Node)
    requires n < |net.nodes|
  {
    && (forall j :: 0 <= j < |net.nodes[n].up| ==> UpMsgOk(net, n, j))
    && DistinctAnswers(net.nodes[n].up)
  }

  ghost predicate RecordsOk(net: Net) {
    forall p :: p in net.pipes ==>
      && p.ingress < |net.nodes| && net.nodes[p.ingress].ingress
      && p.route in net.h.home && net.h.home[p.route].node == p.ingress
  }

  /** A server that was told to create a room, and not to destroy it since, is listed for it, unless the
      room was ever dropped with nobody told. */
  ghost predicate TableOk(net: Net) {
    && (forall m :: m in net.rooms ==> m in net.table && net.table[m] == net.rooms[m])
    && (forall n, c :: 0 <= n < |net.nodes| && 0 <= c < |net.nodes[n].down| ==> Listed(net, n, c))
  }

  ghost predicate Listed(net: Net, n: Node, c: nat)
    requires n < |net.nodes| && c < |net.nodes[n].down|
  {
    var log := net.nodes[n].down;
    log[c].CreateRouterGroup? && !Destroyed(log, log[c].room, c, |log|) ==>
      log[c].room in net.h.lost || (log[c].room in net.rooms && n in net.rooms[log[c].room])
  }

  ghost predicate ConnectOk(net: Net, c: Connect) {
    && c.node < |net.nodes|
    && c.remote < net.next
    && if net.nodes[c.node].ingress then
         && c.remote in net.h.answered
         && var (r, e) := net.h.answered[c.remote];
         && Offered(net, r, e, c.transport)
         && r in net.h.home && net.h.home[r].node == c.node
         && exists p :: 0 <= p < net.nodes[c.node].read && p < |net.nodes[c.node].down|
              && net.nodes[c.node].down[p].ConnectPipeRelay? && net.nodes[c.node].down[p].remote == c.remote
       else
         && c.transport in net.h.answered
         && net.h.answered[c.transport].1 == c.node
         && Offered(net, net.h.answered[c.transport].0, c.node, c.remote)
  }

  ghost predicate ConnectsOk(net: Net) {
    && (forall i :: 0 <= i < |net.h.connects| ==> ConnectOk(net, net.h.connects[i]))
    && (forall i, j :: 0 <= i < j < |net.h.connects| && !net.nodes[net.h.connects[i].node].ingress
          ==> net.h.connects[i].transport != net.h.connects[j].transport)
  }

  ghost predicate TablesOk(net: Net, n: Node)
    requires n < |net.nodes|
  {
    Valid(net.nodes[n].server) && Below(net.nodes[n].server, net.next)
  }

  ghost predicate NodeOk(net: Net, n: Node)
    requires n < |net.nodes|
  {
    TablesOk(net, n) && GroupsAtHome(net, n) && IngressOk(net, n) && EgressOk(net, n) && DownOk(net, n) && UpOk(net, n)
  }

  /** The servers in `who` are in order. */
  ghost predicate AllOk(net: Net, who: set<Node>) {
    forall n :: n in who && n < |net.nodes| ==> NodeOk(net, n)
  }

  lemma Assemble(net: Net, n: Node)
    requires n < |net.nodes|
    requires TablesOk(net, n) && GroupsAtHome(net, n) && IngressOk(net, n) && EgressOk(net, n)
    requires DownOk(net, n) && UpOk(net, n)
    ensures AllOk(net, {n})
  {
  }

  ghost predicate Inv(net: Net) {
    && HistoryOk(net)
    && (forall n :: 0 <= n < |net.nodes| ==> NodeOk(net, n))
    && RecordsOk(net) && TableOk(net) && ConnectsOk(net)
  }

  // ---------------------------------------------------------------- what every action preserves

  ghost predicate Extended<K, V>(m: map<K, V>, m': map<K, V>) {
    forall k :: k in m ==> k in m' && m'[k] == m[k]
  }

  /** Links and histories only grow.  New offers come from the acting server, and new first
      answers go to it. */
  ghost predicate Extends(net: Net, net': Net, actor: Node) {
    && |net'.nodes| == |net.nodes|
    && net.next <= net'.next
    && (forall n :: 0 <= n < |net.nodes| ==> NodeExtends(net.nodes[n], net'.nodes[n]))
    && Extended(net.h.home, net'.h.home)
    && Extended(net.h.offered, net'.h.offered)
    && Extended(net.h.answered, net'.h.answered)
    && Extended(net.h.first, net'.h.first)
    && net.h.connects <= net'.h.connects
    && net.h.lost <= net'.h.lost
    && (forall k :: k in net'.h.offered && k !in net.h.offered ==> k.0 in net'.h.home && net'.h.home[k.0].node == actor)
    && (forall k :: k in net'.h.first && k !in net.h.first ==> k.1 == actor)
  }

  ghost predicate NodeExtends(nd: NodeState, nd': NodeState) {
    && nd'.ingress == nd.ingress
    && nd.down <= nd'.down && nd.up <= nd'.up
    && nd.read <= nd'.read <= |nd'.down| && nd.taken <= nd'.taken <= |nd'.up|
  }

  lemma RootedStays(net: Net, net': Net, actor: Node, r: RouterId)
    requires Extends(net, net', actor) && Rooted(net, r)
    ensures Rooted(net', r) && (IngressRouter(net, r) ==> IngressRouter(net', r))
  {
    var home := net.h.home[r];
    assert NodeExtends(net.nodes[home.node], net'.nodes[home.node]);
  }

  lemma DownMsgStays(net: Net, net': Net, actor: Node, n: Node, j: nat)
    requires Extends(net, net', actor) && n < |net.nodes| && j < |net.nodes[n].down| && DownMsgOk(net, n, j)
    ensures j < |net'.nodes[n].down| && net'.nodes[n].down[j] == net.nodes[n].down[j] && DownMsgOk(net', n, j)
  {
    assert NodeExtends(net.nodes[n], net'.nodes[n]);
    match net.nodes[n].down[j]
    case ConnectPipeRelay(r, _, e, u) =>
      assert NodeExtends(net.nodes[e], net'.nodes[e]);
      var k :| 0 <= k < net.nodes[e].taken && k < |net.nodes[e].up| && net.nodes[e].up[k] == net.nodes[n].down[j];
      assert net'.nodes[e].up[k] == net.nodes[n].down[j];
    case CreateRelayProducer(_, r, _) =>
      ToldStays(net.nodes[n].down, net'.nodes[n].down, r, j, j);
    case _ =>
  }

  lemma ToldStays(log: seq<Msg>, log': seq<Msg>, r: RouterId, to: nat, to': nat)
    requires log <= log' && to <= to' && Told(log, r, to)
    ensures Told(log', r, to')
  {
    var j :| 0 <= j < to && j < |log| && log[j].StorePipeRelay? && log[j].route == r;
    assert log'[j] == log[j];
  }

  lemma DestroyedStays(log: seq<Msg>, log': seq<Msg>, room: Room, from: nat, to: nat, to': nat)
    requires log <= log' && to <= |log|
    ensures Destroyed(log, room, from, to) && to <= to' ==> Destroyed(log', room, from, to')
    ensures Destroyed(log', room, from, to) ==> Destroyed(log, room, from, to)
  {
    if Destroyed(log, room, from, to) {
      var k :| from < k < to && k < |log| && log[k] == DestroyRouterGroup(room);
      assert log'[k] == log[k];
    }
    if Destroyed(log', room, from, to) {
      var k :| from < k < to && k < |log'| && log'[k] == DestroyRouterGroup(room);
      assert log'[k] == log[k];
    }
  }

  lemma UpMsgStays(net: Net, net': Net, actor: Node, n: Node, j: nat)
    requires Extends(net, net', actor) && n < |net.nodes| && j < |net.nodes[n].up| && UpMsgOk(net, n, j)
    requires net'.nodes[n].taken == net.nodes[n].taken || j < net.nodes[n].taken || net'.nodes[n].taken <= j
    ensures j < |net'.nodes[n].up| && net'.nodes[n].up[j] == net.nodes[n].up[j] && UpMsgOk(net', n, j)
  {
    assert NodeExtends(net.nodes[n], net'.nodes[n]);
    match net.nodes[n].up[j]
    case StorePipeRelay(r, e, t) =>
      if e < |net.nodes| {
        assert NodeExtends(net.nodes[e], net'.nodes[e]);
        if net.nodes[n].up[j] in net.nodes[e].down {
          var k :| 0 <= k < |net.nodes[e].down| && net.nodes[e].down[k] == net.nodes[n].up[j];
          assert net'.nodes[e].down[k] == net.nodes[n].up[j];
        }
      }
    case CreateRelayProducer(_, r, e) =>
      var k :| 0 <= k < j && net.nodes[n].up[k].StorePipeRelay? && net.nodes[n].up[k].route == r
        && net.nodes[n].up[k].egress == e;
      assert net'.nodes[n].up[k] == net.nodes[n].up[k];
    case _ =>
  }

  /** A server that took no part keeps its invariant. */
  lemma BystanderKeeps(net: Net, net': Net, actor: Node, n: Node)
    requires Extends(net, net', actor) && n < |net.nodes| && NodeOk(net, n)
    requires n != actor && net'.nodes[n] == net.nodes[n]
    requires forall k :: k in net.h.offered ==> k.0 in net.h.home
    ensures AllOk(net', {n})
  {
    var nd := net.nodes[n];
    Rooms.BelowLater(nd.server, net.next, net'.next);
    forall j | 0 <= j < |nd.down| ensures DownMsgOk(net', n, j) {
      DownMsgStays(net, net', actor, n, j);
    }
    forall j | 0 <= j < |nd.up| ensures UpMsgOk(net', n, j) {
      UpMsgStays(net, net', actor, n, j);
    }
    BystanderIngress(net, net', actor, n);
    BystanderEgress(net, net', actor, n);
  }

  lemma BystanderIngress(net: Net, net': Net, actor: Node, n: Node)
    requires n < |net.nodes| && |net'.nodes| == |net.nodes| && IngressOk(net, n)
    requires n != actor && net'.nodes[n] == net.nodes[n]
    requires Extended(net.h.home, net'.h.home) && Extended(net.h.offered, net'.h.offered)
    requires forall k :: k in net'.h.offered && k !in net.h.offered ==>
      k.0 in net'.h.home && net'.h.home[k.0].node == actor
    requires forall k :: k in net.h.offered ==> k.0 in net.h.home
    ensures IngressOk(net', n)
  {
    var nd := net.nodes[n];
    if nd.ingress {
      forall k | k in net'.h.offered && k.0 in net'.h.home && net'.h.home[k.0].node == n
        ensures k.0 in nd.server.routers ==> OfPair(nd.server.relays, k.0, k.1) != []
        ensures StorePipeRelay(k.0, k.1, net'.h.offered[k]) in nd.up
      {
        assert k in net.h.offered;
      }
    }
  }

  lemma BystanderEgress(net: Net, net': Net, actor: Node, n: Node)
    requires n < |net.nodes| && |net'.nodes| == |net.nodes| && EgressOk(net, n)
    requires n != actor && net'.nodes[n] == net.nodes[n]
    requires Extended(net.h.offered, net'.h.offered) && Extended(net.h.first, net'.h.first)
    requires forall k :: k in net'.h.first && k !in net.h.first ==> k.1 == actor
    ensures EgressOk(net', n)
  {
  }

  lemma ConnectStays(net: Net, net': Net, actor: Node, c: Connect)
    requires Extends(net, net', actor) && ConnectOk(net, c)
    ensures ConnectOk(net', c)
  {
    assert NodeExtends(net.nodes[c.node], net'.nodes[c.node]);
    if net.nodes[c.node].ingress {
      var nd := net.nodes[c.node];
      var p :| 0 <= p < nd.read && p < |nd.down| && nd.down[p].ConnectPipeRelay? && nd.down[p].remote == c.remote;
      assert net'.nodes[c.node].down[p] == nd.down[p];
    }
  }
}
