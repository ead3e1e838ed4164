/** The signaling server's side of the media servers' connections: registration, loads, the pipes
    between servers, and what happens when a connection closes. */
module SignalRouters {
  import opened Sfu
  import opened Signaling
  import opened Handshake
  import opened ServerClose
  import opened PeerManager

  class SignalRouter {
    const manager: PeerConnectionManager
    var ingress: Directory
    var egress: Directory
    var pipes: seq<Record>

    constructor (m: PeerConnectionManager)
      ensures manager == m && World() == ServerClose.World(m.s, Directory({}, [], map[]), Directory({}, [], map[]), [])
    {
      manager := m;
      ingress, egress, pipes := Directory({}, [], map[]), Directory({}, [], map[]), [];
    }

    function World(): World
      reads this, manager
    {
      ServerClose.World(manager.s, ingress, egress, pipes)
    }

    method Put(isEgress: bool, d: Directory)
      modifies this`ingress, this`egress
      ensures World() == WithDirectory(old(World()), isEgress, d)
    {
      if isEgress {
        egress := d;
      } else {
        ingress := d;
      }
    }

    method Register(node: Node, region: Region, isEgress: bool)
      modifies this`ingress, this`egress
      ensures World() == WithDirectory(old(World()), isEgress,
        Registered(DirectoryOf(old(World()), isEgress), region, node))
    {
      var d := if isEgress then egress else ingress;
      Put(isEgress, d.(up := d.up + {node}, regions := ServerClose.Register(d.regions, region, node)));
    }

    method ReportLoad(node: Node, region: Region, load: int, isEgress: bool)
      modifies this`ingress, this`egress
      ensures World() == WithDirectory(old(World()), isEgress,
        Loaded(DirectoryOf(old(World()), isEgress), region, node, load))
    {
      var d := if isEgress then egress else ingress;
      if region !in d.loads {
        d := d.(loads := d.loads[region := []]);
      }
      Put(isEgress, d.(loads := d.loads[region := Reported(d.loads[region], node, load)]));
    }

    /** `storePipeRelay` is recorded before it is passed on. */
    method StorePipeRelay(node: Node, to: Node, route: RouterId) returns (sent: bool)
      modifies this`pipes
      ensures World() == old(World()).(pipes := old(pipes) + [Record(node, to, route)])
      ensures sent <==> to in egress.up
    {
      pipes := pipes + [Record(node, to, route)];
      sent := to in egress.up;
    }

    /** `connectPipeRelay` goes to the ingress server of the first pipe from that router to the server
        it came from. */
    method ConnectPipeRelay(node: Node, route: RouterId) returns (to: Option<Node>)
      ensures to == FindIngress(pipes, node, route)
    {
      for k := 0 to |pipes|
        invariant FindIngress(pipes, node, route) == FindIngress(pipes[k..], node, route)
      {
        if pipes[k].egress == node && pipes[k].route == route {
          return Some(pipes[k].ingress);
        }
        assert pipes[k..][1..] == pipes[k + 1..];
      }
      return None;
    }

    /** `resolveServerToRegion`. */
    method ResolveServerToRegion(node: Node) returns (region: Option<Region>)
      ensures region == Resolved(World(), node)
    {
      region := FindRegion(ingress.regions, node);
      if region.None? {
        region := FindRegion(egress.regions, node);
      }
    }

    /** The load entry and the region's list; an exception leaves what was done before it. */
    method Strike(region: Region, node: Node, isEgress: bool) returns (threw: bool)
      modifies this`ingress, this`egress
      ensures var w, d := old(World()), DirectoryOf(old(World()), isEgress);
        && (threw <==> region !in d.loads || ServersOf(d.regions, region).None?)
        && World() ==
             if region !in d.loads then w
             else if threw then WithDirectory(w, isEgress, Unreported(d, region, node))
             else WithDirectory(w, isEgress, Struck(d, region, node))
    {
      var d := if isEgress then egress else ingress;
      if region !in d.loads {
        return true;
      }
      d := d.(loads := d.loads[region := WithoutReport(d.loads[region], node)]);
      Put(isEgress, d);
      if ServersOf(d.regions, region).None? {
        return true;
      }
      Put(isEgress, d.(regions := Filtered(d.regions, region, node)));
      return false;
    }

    /** The routing table loses the rooms that list the server, one by one. */
    method SweepTable(node: Node, isEgress: bool)
      modifies manager
      ensures manager.s == old(manager.s).(table := Unrouted(old(manager.s.table), node, isEgress))
    {
      var table := manager.s.table;
      var left := table.Keys;
      while left != {}
        invariant left <= manager.s.table.Keys == old(manager.s.table).Keys
        invariant table ==
          map r | r in manager.s.table && (r in left || !ListsAs(manager.s.table[r], node, isEgress)) ::
            manager.s.table[r]
        decreases |left|
      {
        var room :| room in left;
        left := left - {room};
        if ListsAs(table[room], node, isEgress) {
          table := table - {room};
        }
      }
      manager.s := manager.s.(table := table);
    }

    /** The `close` handler of a media server's connection. */
    method Close(node: Node, isEgress: bool, order: seq<PeerId>) returns (threw: bool)
      modifies this`ingress, this`egress, this`pipes, manager
      ensures CloseServer(old(World()), node, isEgress, order) == if threw then Aborted(World()) else Clean(World())
    {
      threw := manager.DropRoute(order, node);
      if threw {
        return;
      }
      var d := if isEgress then egress else ingress;
      Put(isEgress, d.(up := d.up - {node}));
      var region := ResolveServerToRegion(node);
      if region.Some? {
        threw := Strike(region.value, node, isEgress);
        if threw {
          return;
        }
      }
      pipes := PipesWithoutNode(pipes, node, isEgress);
      SweepTable(node, isEgress);
    }
  }

  method FindRegion(es: seq<Entry>, n: Node) returns (region: Option<Region>)
    ensures region == RegionOf(es, n)
  {
    for k := 0 to |es|
      invariant RegionOf(es, n) == RegionOf(es[k..], n)
    {
      if n in es[k].servers {
        return Some(es[k].region);
      }
      assert es[k..][1..] == es[k + 1..];
    }
    return None;
  }
}
