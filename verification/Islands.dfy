/** The adjacency lists address allocation works on: a NAT gateway and every port
    with a subnet of its own become vertices of their own
    (backend/internal/services/ip_service.go, planIPAM). */
module Islands {
  import opened Graph
  import Searches

  type Id = string

  datatype DeviceType = Router | Firewall | ServerV2 | Vps | Modem | OtherDevice

  /** One entry of a port's settings; hasCidr says whether its address is an IPv4 subnet. */
  datatype PortSettings = PortSettings(role: string, hasCidr: bool)

  datatype Node = Node(
    id: Id, kind: DeviceType, natEnabled: bool, routingEnabled: bool, dhcpEnabled: bool,
    publicIp: string, zone: string, ports: map<string, PortSettings>)

  datatype CableKind = Vpn | Power | Network

  datatype Cable = Cable(source: Id, sourceHandle: string, target: Id, targetHandle: string, kind: CableKind,
                         direction: string)

  /** A device, the LAN side of a NAT gateway, or a port with its own subnet. */
  datatype Vertex = Base(node: Id) | Lan(node: Id) | PortGateway(node: Id, handle: string)

  predicate OpensLan(n: Node) {
    (n.kind.ServerV2? || n.kind.Vps? || n.kind.Firewall?) && (n.natEnabled || (n.routingEnabled && n.dhcpEnabled))
  }

  predicate OpensPort(n: Node, handle: string) {
    && (n.kind.Router? || n.kind.Firewall?)
    && handle in n.ports && n.ports[handle].hasCidr
    && var role := if n.ports[handle].role != "" then n.ports[handle].role else if handle == "target-0" then "wan"
       else "lan";
       role == "lan" || role == "dmz"
  }

  predicate UpstreamAnchor(n: Node) {
    n.kind.Router? || n.kind.Modem? || n.publicIp != "" || n.zone == "wan" || n.zone == "cloud"
  }

  /** The devices by id; a later row would win. */
  function ById(nodes: seq<Node>): map<Id, Node> {
    if nodes == [] then map[]
    else ById(nodes[..|nodes| - 1])[nodes[|nodes| - 1].id := nodes[|nodes| - 1]]
  }

  predicate IsNat(nodes: map<Id, Node>, id: Id) { id in nodes && OpensLan(nodes[id]) }
  predicate IsPortGateway(nodes: map<Id, Node>, id: Id, handle: string) { id in nodes && OpensPort(nodes[id], handle) }
  predicate IsAnchor(nodes: map<Id, Node>, id: Id) { id in nodes && UpstreamAnchor(nodes[id]) }

  predicate AutoLanPort(handle: string, isSource: bool) {
    if handle == "" then isSource else handle != "target-0"
  }

  function OrDefault(value: string, fallback: string): string {
    if value == "" then fallback else value
  }

  /** Whether a cable leaves a NAT gateway on its LAN side. */
  predicate LeavesByLan(nodes: map<Id, Node>, direction: string, handle: string, isSource: bool, other: Id) {
    direction == "lan" || (direction == "auto" && AutoLanPort(handle, isSource) && !IsAnchor(nodes, other))
  }

  /** The two vertices a cable joins. Ports with a subnet come first, then a NAT
      gateway at the source, then one at the target. */
  function Attach(nodes: map<Id, Node>, c: Cable): (Vertex, Vertex) {
    var direction := OrDefault(c.direction, "auto");
    var sourceHandle, targetHandle := OrDefault(c.sourceHandle, "eth0"), OrDefault(c.targetHandle, "target-0");
    var sourcePort, targetPort := IsPortGateway(nodes, c.source, sourceHandle),
      IsPortGateway(nodes, c.target, targetHandle);
    if sourcePort || targetPort then
      (if sourcePort then PortGateway(c.source, sourceHandle) else Base(c.source),
       if targetPort then PortGateway(c.target, targetHandle) else Base(c.target))
    else if IsNat(nodes, c.source) then
      (if LeavesByLan(nodes, direction, c.sourceHandle, true, c.target) then Lan(c.source) else Base(c.source),
       Base(c.target))
    else if IsNat(nodes, c.target) then
      (Base(c.source), if LeavesByLan(nodes, direction, c.targetHandle, false, c.source) then Lan(c.target)
       else Base(c.target))
    else (Base(c.source), Base(c.target))
  }

  predicate CarriesNetwork(c: Cable) { !c.kind.Vpn? && !c.kind.Power? }

  function NetworkCables(cables: seq<Cable>): seq<Cable> {
    if cables == [] then []
    else NetworkCables(cables[..|cables| - 1]) + if CarriesNetwork(cables[|cables| - 1]) then [cables[|cables| - 1]]
      else []
  }

  /** The joined vertices, one pair for each network cable. */
  function Attached(nodes: map<Id, Node>, cables: seq<Cable>): seq<(Vertex, Vertex)> {
    seq(|cables|, i requires 0 <= i < |cables| => Attach(nodes, cables[i]))
  }

  /** The devices joined, before anything is split. */
  function Cabled(cables: seq<Cable>): seq<(Id, Id)> {
    seq(|cables|, i requires 0 <= i < |cables| => (cables[i].source, cables[i].target))
  }

  /** Who a vertex is joined to, once for each cable end. */
  function Neighbours<V(==)>(links: seq<(V, V)>, v: V): seq<V> {
    if links == [] then []
    else
      var (a, b) := links[|links| - 1];
      Neighbours(links[..|links| - 1], v) + (if a == v then [b] else []) + (if b == v then [a] else [])
  }

  method AddConnection(adj: map<Vertex, seq<Vertex>>, from: Vertex, to: Vertex) returns (more: map<Vertex, seq<Vertex>>)
    ensures forall v :: Searches.Next(more, v) == Searches.Next(adj, v) + if v == from then [to] else []
  {
    more := adj[from := Searches.Next(adj, from) + [to]];
  }

  method DevicesById(nodes: seq<Node>) returns (byId: map<Id, Node>)
    ensures byId == ById(nodes)
  {
    byId := map[];
    for n := 0 to |nodes|
      invariant byId == ById(nodes[..n])
    {
      assert nodes[..n + 1][..n] == nodes[..n];
      byId := byId[nodes[n].id := nodes[n]];
    }
    assert nodes[..|nodes|] == nodes;
  }

  lemma NeighboursMore<V>(links: seq<(V, V)>, link: (V, V), v: V)
    ensures Neighbours(links + [link], v) ==
            Neighbours(links, v) + (if link.0 == v then [link.1] else []) + (if link.1 == v then [link.0] else [])
  {
    assert (links + [link])[..|links|] == links;
  }

  lemma AttachedMore(nodes: map<Id, Node>, cables: seq<Cable>, n: nat)
    requires n < |cables|
    ensures NetworkCables(cables[..n + 1]) == NetworkCables(cables[..n])
            + if CarriesNetwork(cables[n]) then [cables[n]] else []
    ensures Attached(nodes, NetworkCables(cables[..n + 1])) ==
            Attached(nodes, NetworkCables(cables[..n])) + if CarriesNetwork(cables[n]) then [Attach(nodes, cables[n])]
              else []
  {
    assert cables[..n + 1][..n] == cables[..n];
  }

  // ---- which copy, said of the cable's own fields ----

  /** The gateway translates addresses, or routes and hands them out. */
  ghost predicate Translating(nodes: map<Id, Node>, id: Id) {
    && id in nodes && nodes[id].kind in {ServerV2, Vps, Firewall}
    && (nodes[id].natEnabled || (nodes[id].routingEnabled && nodes[id].dhcpEnabled))
  }

  /** The device is on the way to the internet, or there. */
  ghost predicate Upstream(nodes: map<Id, Node>, id: Id) {
    && id in nodes
    && (nodes[id].kind in {Router, Modem} || nodes[id].publicIp != "" || nodes[id].zone in {"wan", "cloud"})
  }

  /** A port of a router or firewall with a subnet of its own; a port without a role
      is for the LAN unless it is the one towards the internet. */
  ghost predicate OwnSubnet(nodes: map<Id, Node>, id: Id, handle: string) {
    && id in nodes && nodes[id].kind in {Router, Firewall} && handle in nodes[id].ports
    && nodes[id].ports[handle].hasCidr
    && (nodes[id].ports[handle].role in {"lan", "dmz"} || (nodes[id].ports[handle].role == "" && handle != "target-0"))
  }

  ghost function SourcePort(c: Cable): string { if c.sourceHandle == "" then "eth0" else c.sourceHandle }
  ghost function TargetPort(c: Cable): string { if c.targetHandle == "" then "target-0" else c.targetHandle }

  /** Neither port of the cable has a subnet of its own. */
  ghost predicate Plain(nodes: map<Id, Node>, c: Cable) {
    !OwnSubnet(nodes, c.source, SourcePort(c)) && !OwnSubnet(nodes, c.target, TargetPort(c))
  }

  /** The cable leaves its source on the LAN side: drawn so, or automatic, from another
      port than target-0 and to no upstream device. */
  ghost predicate FromLan(nodes: map<Id, Node>, c: Cable) {
    && Plain(nodes, c) && Translating(nodes, c.source)
    && (c.direction == "lan"
        || (c.direction in {"", "auto"} && c.sourceHandle != "target-0" && !Upstream(nodes, c.target)))
  }

  /** The cable enters its target on the LAN side; here an unnamed port is target-0,
      and a source that translates goes first. */
  ghost predicate IntoLan(nodes: map<Id, Node>, c: Cable) {
    && Plain(nodes, c) && Translating(nodes, c.target) && !Translating(nodes, c.source)
    && (c.direction == "lan"
        || (c.direction in {"", "auto"} && c.targetHandle !in {"", "target-0"} && !Upstream(nodes, c.source)))
  }

  ghost predicate SourceAt(nodes: map<Id, Node>, c: Cable, v: Vertex) {
    match v
    case Base(n) => n == c.source && !OwnSubnet(nodes, n, SourcePort(c)) && !FromLan(nodes, c)
    case Lan(n) => n == c.source && FromLan(nodes, c)
    case PortGateway(n, h) => n == c.source && h == SourcePort(c) && OwnSubnet(nodes, n, h)
  }

  ghost predicate TargetAt(nodes: map<Id, Node>, c: Cable, v: Vertex) {
    match v
    case Base(n) => n == c.target && !OwnSubnet(nodes, n, TargetPort(c)) && !IntoLan(nodes, c)
    case Lan(n) => n == c.target && IntoLan(nodes, c)
    case PortGateway(n, h) => n == c.target && h == TargetPort(c) && OwnSubnet(nodes, n, h)
  }

  ghost predicate Joins(nodes: map<Id, Node>, c: Cable, v: Vertex, w: Vertex) {
    || (SourceAt(nodes, c, v) && TargetAt(nodes, c, w))
    || (SourceAt(nodes, c, w) && TargetAt(nodes, c, v))
  }

  /** A network cable joins the two. */
  ghost predicate Joined(nodes: map<Id, Node>, cables: seq<Cable>, v: Vertex, w: Vertex) {
    exists c <- cables :: c.kind.Network? && Joins(nodes, c, v, w)
  }

  /** The branches of the source put each end at the copy its fields say. */
  lemma AttachedAt(nodes: map<Id, Node>, c: Cable, v: Vertex)
    ensures SourceAt(nodes, c, v) <==> v == Attach(nodes, c).0
    ensures TargetAt(nodes, c, v) <==> v == Attach(nodes, c).1
  {
    KindsAgree(nodes, c.source, SourcePort(c));
    KindsAgree(nodes, c.target, TargetPort(c));
    hide IsNat, IsPortGateway, IsAnchor, Translating, Upstream, OwnSubnet;
  }

  lemma KindsAgree(nodes: map<Id, Node>, id: Id, handle: string)
    ensures IsNat(nodes, id) <==> Translating(nodes, id)
    ensures IsAnchor(nodes, id) <==> Upstream(nodes, id)
    ensures IsPortGateway(nodes, id, handle) <==> OwnSubnet(nodes, id, handle)
  {
  }

  lemma {:induction false} NetworkCablesHold(cables: seq<Cable>)
    ensures forall c :: c in NetworkCables(cables) <==> c in cables && c.kind.Network?
  {
    if cables != [] {
      var front, last := cables[..|cables| - 1], cables[|cables| - 1];
      NetworkCablesHold(front);
      assert cables == front + [last];
    }
  }

  lemma ListedAreJoined(nodes: map<Id, Node>, cables: seq<Cable>, v: Vertex, w: Vertex)
    ensures w in Neighbours(Attached(nodes, NetworkCables(cables)), v) <==> Joined(nodes, cables, v, w)
  {
    var network := NetworkCables(cables);
    var links := Attached(nodes, network);
    hide Attach, NetworkCables, SourceAt, TargetAt, Neighbours;
    NeighboursAreLinked(links, v, w);
    NetworkCablesHold(cables);
    if (v, w) in Links(links) {
      var i :| 0 <= i < |links| && (links[i] == (v, w) || links[i] == (w, v));
      AttachedAt(nodes, network[i], v);
      AttachedAt(nodes, network[i], w);
      assert Joins(nodes, network[i], v, w);
    }
    if Joined(nodes, cables, v, w) {
      var c :| c in cables && c.kind.Network? && Joins(nodes, c, v, w);
      AttachedAt(nodes, c, v);
      AttachedAt(nodes, c, w);
      var i :| 0 <= i < |network| && network[i] == c;
      assert links[i] in links;
    }
  }

  lemma ListsAreJoined(nodes: map<Id, Node>, cables: seq<Cable>, adj: map<Vertex, seq<Vertex>>)
    requires forall v :: Searches.Next(adj, v) == Neighbours(Attached(nodes, NetworkCables(cables)), v)
    ensures forall v, w :: w in Searches.Next(adj, v) <==> Joined(nodes, cables, v, w)
  {
    hide Attached, NetworkCables, Neighbours, Joined;
    forall v, w
      ensures w in Searches.Next(adj, v) <==> Joined(nodes, cables, v, w)
    {
      ListedAreJoined(nodes, cables, v, w);
    }
  }

  ghost predicate IsLast(nodes: seq<Node>, i: nat) {
    i < |nodes| && forall j :: i < j < |nodes| ==> nodes[j].id != nodes[i].id
  }

  /** The device of an id is the last row that has it. */
  ghost predicate LastRows(nodes: seq<Node>, byId: map<Id, Node>) {
    && (forall id :: id in byId <==> exists n <- nodes :: n.id == id)
    && (forall i: nat :: IsLast(nodes, i) ==> nodes[i].id in byId && byId[nodes[i].id] == nodes[i])
  }

  lemma {:induction false} IdsHold(nodes: seq<Node>, id: Id)
    ensures id in ById(nodes) <==> exists n <- nodes :: n.id == id
  {
    if nodes != [] {
      var front, last := nodes[..|nodes| - 1], nodes[|nodes| - 1];
      IdsHold(front, id);
      assert nodes == front + [last];
    }
  }

  lemma {:induction false} LastRowHolds(nodes: seq<Node>, i: nat)
    requires IsLast(nodes, i)
    ensures nodes[i].id in ById(nodes) && ById(nodes)[nodes[i].id] == nodes[i]
  {
    var front, last := nodes[..|nodes| - 1], nodes[|nodes| - 1];
    if i < |front| {
      assert last.id != nodes[i].id;
      assert forall j :: i <= j < |front| ==> front[j] == nodes[j];
      LastRowHolds(front, i);
    }
  }

  lemma LastRowsHold(nodes: seq<Node>)
    ensures LastRows(nodes, ById(nodes))
  {
    hide ById;
    forall id
      ensures id in ById(nodes) <==> exists n <- nodes :: n.id == id
    {
      IdsHold(nodes, id);
    }
    forall i: nat | IsLast(nodes, i)
      ensures i < |nodes| && nodes[i].id in ById(nodes) && ById(nodes)[nodes[i].id] == nodes[i]
    {
      LastRowHolds(nodes, i);
    }
  }

  /** The branches of the source, one cable at a time. */
  method Connect(nodes: map<Id, Node>, adj: map<Vertex, seq<Vertex>>, e: Cable) returns (more: map<Vertex, seq<Vertex>>)
    ensures SourceAt(nodes, e, Attach(nodes, e).0) && TargetAt(nodes, e, Attach(nodes, e).1)
    ensures var (a, b) := Attach(nodes, e);
            forall v :: Searches.Next(more, v) == Searches.Next(adj, v) + (if a == v then [b] else [])
              + (if b == v then [a] else [])
  {
    AttachedAt(nodes, e, Attach(nodes, e).0);
    AttachedAt(nodes, e, Attach(nodes, e).1);
    hide SourceAt, TargetAt;
    var direction := OrDefault(e.direction, "auto");
    var sourceHandle, targetHandle := OrDefault(e.sourceHandle, "eth0"), OrDefault(e.targetHandle, "target-0");
    var from, to := Base(e.source), Base(e.target);
    var sourcePort := IsPortGateway(nodes, e.source, sourceHandle);
    var targetPort := IsPortGateway(nodes, e.target, targetHandle);
    if sourcePort || targetPort {
      if sourcePort {
        from := PortGateway(e.source, sourceHandle);
      }
      if targetPort {
        to := PortGateway(e.target, targetHandle);
      }
    } else if IsNat(nodes, e.source) {
      if direction == "lan" || (direction == "auto" && AutoLanPort(e.sourceHandle, true)
                                && !IsAnchor(nodes, e.target)) {
        from := Lan(e.source);
      }
    } else if IsNat(nodes, e.target) {
      if direction == "lan" || (direction == "auto" && AutoLanPort(e.targetHandle, false)
                                && !IsAnchor(nodes, e.source)) {
        to := Lan(e.target);
      }
    }
    more := AddConnection(adj, from, to);
    more := AddConnection(more, to, from);
  }

  lemma NoCables(nodes: map<Id, Node>)
    ensures Attached(nodes, NetworkCables([])) == [] && forall v: Vertex :: Neighbours([], v) == []
  {
  }

  /** The adjacency lists of a topology: each network cable counts once, at exactly
      one copy of each of its ends. */
  method BuildAdjacency(nodes: seq<Node>, cables: seq<Cable>) returns (adj: map<Vertex, seq<Vertex>>)
    ensures forall v :: Searches.Next(adj, v) == Neighbours(Attached(ById(nodes), NetworkCables(cables)), v)
    ensures LastRows(nodes, ById(nodes))
    ensures forall v, w :: w in Searches.Next(adj, v) <==> Joined(ById(nodes), cables, v, w)
  {
    hide Attach, ById, Neighbours, Joined, LastRows, NetworkCables, Attached;
    var byId := DevicesById(nodes);
    NoCables(byId);
    adj := map[];
    ghost var links: seq<(Vertex, Vertex)> := [];
    for n := 0 to |cables|
      invariant links == Attached(byId, NetworkCables(cables[..n]))
      invariant forall v :: Searches.Next(adj, v) == Neighbours(links, v)
    {
      AttachedMore(byId, cables, n);
      if cables[n].kind.Vpn? || cables[n].kind.Power? {
        continue;
      }
      adj := Connect(byId, adj, cables[n]);
      ghost var link := Attach(byId, cables[n]);
      forall v ensures Searches.Next(adj, v) == Neighbours(links + [link], v) {
        NeighboursMore(links, link, v);
      }
      links := links + [link];
    }
    assert cables[..|cables|] == cables;
    LastRowsHold(nodes);
    ListsAreJoined(byId, cables, adj);
  }

  // ---- symmetry ----

  /** Links carry traffic both ways. */
  ghost function Links<V>(links: seq<(V, V)>): set<(V, V)> {
    (set l | l in links :: (l.0, l.1)) + (set l | l in links :: (l.1, l.0))
  }

  lemma LinksMore<V>(links: seq<(V, V)>, link: (V, V))
    ensures Links(links + [link]) == Links(links) + {(link.0, link.1)} + {(link.1, link.0)}
  {
    assert forall l :: l in links + [link] <==> l in links || l == link;
  }

  lemma {:induction false} NeighboursAreLinked<V>(links: seq<(V, V)>, v: V, w: V)
    ensures w in Neighbours(links, v) <==> (v, w) in Links(links)
  {
    if links != [] {
      var front, last := links[..|links| - 1], links[|links| - 1];
      NeighboursAreLinked(front, v, w);
      LinksMore(front, last);
      assert links == front + [last];
    }
  }

  /** Adjacency is symmetric, counting repetitions. */
  lemma {:induction false} AdjacencySymmetric<V>(links: seq<(V, V)>, v: V, w: V)
    ensures multiset(Neighbours(links, v))[w] == multiset(Neighbours(links, w))[v]
  {
    if links != [] && v != w {
      AdjacencySymmetric(links[..|links| - 1], v, w);
    }
  }

  // ---- islands ----

  lemma {:induction false} ReachesBack<V(!new)>(links: seq<(V, V)>, p: seq<V>)
    requires IsPath(Links(links), p)
    ensures Reaches(Links(links), p[|p| - 1], p[0])
  {
    if |p| == 1 {
      ReachesSelf(Links(links), p[0]);
    } else {
      var front := p[..|p| - 1];
      ReachesBack(links, front);
      assert (p[|p| - 2], p[|p| - 1]) in Links(links);
      assert (p[|p| - 1], p[|p| - 2]) in Links(links);
      ReachesArc(Links(links), p[|p| - 1], p[|p| - 2]);
      ReachesTransitive(Links(links), p[|p| - 1], p[|p| - 2], p[0]);
    }
  }

  lemma ReachesSymmetric<V(!new)>(links: seq<(V, V)>, a: V, b: V)
    requires Reaches(Links(links), a, b)
    ensures Reaches(Links(links), b, a)
  {
    var p :| PathFrom(Links(links), p, a, b);
    ReachesBack(links, p);
  }

  /** One link more joins two components: a walk either does without it or crosses it
      once, one way or the other. */
  lemma ReachesWithLink<V(!new)>(links: seq<(V, V)>, x: V, y: V, a: V, b: V)
    requires Reaches(Links(links + [(x, y)]), a, b)
    ensures var r := Links(links);
            || Reaches(r, a, b)
            || (Reaches(r, a, x) && Reaches(r, y, b))
            || (Reaches(r, a, y) && Reaches(r, x, b))
  {
    var r := Links(links);
    LinksMore(links, (x, y));
    var half := r + {(x, y)};
    var p :| PathFrom(half + {(y, x)}, p, a, b);
    ReachesWithArc(half, y, x, p);
    if Reaches(half, a, b) {
      OneWay(r, x, y, a, b);
    } else {
      OneWay(r, x, y, a, y);
      OneWay(r, x, y, x, b);
      if Reaches(r, a, y) && !Reaches(r, x, b) {
        ReachesTransitive(r, a, y, b);
      } else if !Reaches(r, a, y) && Reaches(r, x, b) {
        ReachesTransitive(r, a, x, b);
      }
    }
  }

  lemma OneWay<V(!new)>(arcs: set<(V, V)>, x: V, y: V, a: V, b: V)
    requires Reaches(arcs + {(x, y)}, a, b)
    ensures Reaches(arcs, a, b) || (Reaches(arcs, a, x) && Reaches(arcs, y, b))
  {
    var p :| PathFrom(arcs + {(x, y)}, p, a, b);
    ReachesWithArc(arcs, x, y, p);
  }

  /** Each cable joins copies of the two devices it was drawn between. */
  lemma ProjectLink(nodes: map<Id, Node>, cables: seq<Cable>, v: Vertex, w: Vertex)
    requires (v, w) in Links(Attached(nodes, cables))
    ensures (v.node, w.node) in Links(Cabled(cables))
  {
    hide IsPortGateway, IsNat, LeavesByLan, OrDefault;
    var split, whole := Attached(nodes, cables), Cabled(cables);
    var i :| 0 <= i < |cables| && (split[i] == (v, w) || split[i] == (w, v));
    assert whole[i] == (split[i].0.node, split[i].1.node);
    assert whole[i] in whole;
  }

  lemma {:induction false} ProjectPath(nodes: map<Id, Node>, cables: seq<Cable>, p: seq<Vertex>)
    requires IsPath(Links(Attached(nodes, cables)), p)
    ensures Reaches(Links(Cabled(cables)), p[0].node, p[|p| - 1].node)
  {
    var split, whole := Attached(nodes, cables), Cabled(cables);
    if |p| == 1 {
      ReachesSelf(Links(whole), p[0].node);
    } else {
      var front, v, w := p[..|p| - 1], p[|p| - 2], p[|p| - 1];
      ProjectPath(nodes, cables, front);
      assert (v, w) in Links(split);
      ProjectLink(nodes, cables, v, w);
      ReachesArc(Links(whole), v.node, w.node);
      ReachesTransitive(Links(whole), p[0].node, v.node, w.node);
    }
  }

  /** The cabling is a forest: without any one cable, its two ends are apart. */
  ghost predicate Forest<V(!new)>(links: seq<(V, V)>) {
    forall k :: 0 <= k < |links| ==> !Reaches(Links(links[..k] + links[k + 1..]), links[k].0, links[k].1)
  }

  lemma EarlierLinks<V(!new)>(links: seq<(V, V)>, k: nat, a: V, b: V)
    requires k < |links| && Reaches(Links(links[..k]), a, b)
    ensures Reaches(Links(links[..k] + links[k + 1..]), a, b)
  {
    var others := links[..k] + links[k + 1..];
    assert forall l :: l in links[..k] ==> l in others;
    ReachesMonotone(Links(links[..k]), Links(others), a, b);
  }

  /** In a forest the ends of a cable are apart before it is drawn. */
  lemma CableJoinsTwo(cables: seq<Cable>, k: nat)
    requires k < |cables| && Forest(Cabled(cables))
    ensures !Reaches(Links(Cabled(cables)[..k]), cables[k].source, cables[k].target)
    ensures !Reaches(Links(Cabled(cables)[..k]), cables[k].target, cables[k].source)
  {
    var whole := Cabled(cables);
    var a, b := cables[k].source, cables[k].target;
    assert whole[k] == (a, b);
    if Reaches(Links(whole[..k]), b, a) {
      ReachesSymmetric(whole[..k], b, a);
    }
    if Reaches(Links(whole[..k]), a, b) {
      EarlierLinks(whole, k, a, b);
    }
  }

  /** One cable more joins no two copies that were apart. */
  lemma CableKeepsApart(nodes: map<Id, Node>, cables: seq<Cable>, k: nat, u: Vertex, v: Vertex)
    requires k < |cables| && Forest(Cabled(cables)) && u.node == v.node
    requires Reaches(Links(Attached(nodes, cables)[..k + 1]), u, v)
    ensures Reaches(Links(Attached(nodes, cables)[..k]), u, v)
  {
    hide Reaches, Forest, Links;
    var split := Attached(nodes, cables)[..k];
    var (x, y) := Attach(nodes, cables[k]);
    assert Attached(nodes, cables)[..k + 1] == split + [(x, y)];
    ReachesWithLink(split, x, y, u, v);
    CableJoinsTwo(cables, k);
    if Reaches(Links(split), u, x) && Reaches(Links(split), y, v) {
      CrossedOnce(nodes, cables, k, u, x, y, v);
    } else if Reaches(Links(split), u, y) && Reaches(Links(split), x, v) {
      CrossedOnce(nodes, cables, k, u, y, x, v);
    }
  }

  /** The first n cables join no two copies of one device. */
  lemma {:induction false} CopiesApart(nodes: map<Id, Node>, cables: seq<Cable>, n: nat, u: Vertex, v: Vertex)
    requires n <= |cables| && Forest(Cabled(cables)) && u.node == v.node
    requires Reaches(Links(Attached(nodes, cables)[..n]), u, v)
    ensures u == v
  {
    if n == 0 {
      ClosedKeepsReach(Links(Attached(nodes, cables)[..0]), {u}, u, v);
    } else {
      CableKeepsApart(nodes, cables, n - 1, u, v);
      CopiesApart(nodes, cables, n - 1, u, v);
    }
  }

  /** Crossing a cable once between two copies of one device means its ends are
      joined already. */
  lemma CrossedOnce(nodes: map<Id, Node>, cables: seq<Cable>, k: nat, u: Vertex, x: Vertex, y: Vertex, v: Vertex)
    requires k <= |cables| && u.node == v.node
    requires Reaches(Links(Attached(nodes, cables)[..k]), u, x) && Reaches(Links(Attached(nodes, cables)[..k]), y, v)
    ensures Reaches(Links(Cabled(cables)[..k]), x.node, y.node)
  {
    assert Attached(nodes, cables)[..k] == Attached(nodes, cables[..k]) && Cabled(cables)[..k] == Cabled(cables[..k]);
    var p :| PathFrom(Links(Attached(nodes, cables[..k])), p, u, x);
    var q :| PathFrom(Links(Attached(nodes, cables[..k])), q, y, v);
    ProjectPath(nodes, cables[..k], p);
    ProjectPath(nodes, cables[..k], q);
    var r := Links(Cabled(cables[..k]));
    ReachesTransitive(r, y.node, v.node, x.node);
    ReachesSymmetric(Cabled(cables[..k]), y.node, x.node);
  }

  lemma AdjacencyArcs(adj: map<Vertex, seq<Vertex>>, links: seq<(Vertex, Vertex)>)
    requires forall v :: Searches.Next(adj, v) == Neighbours(links, v)
    ensures Arcs(adj) == Links(links)
  {
    forall v, w ensures (v, w) in Arcs(adj) <==> (v, w) in Links(links) {
      NeighboursAreLinked(links, v, w);
      assert (v, w) in Arcs(adj) <==> w in Searches.Next(adj, v);
    }
  }

  /** Splitting makes real islands: over a forest of cables no walk through the
      adjacency lists leads from one copy of a device to another. */
  lemma IslandsAreApart(nodes: map<Id, Node>, cables: seq<Cable>, adj: map<Vertex, seq<Vertex>>, u: Vertex, v: Vertex)
    requires Forest(Cabled(NetworkCables(cables)))
    requires forall w :: Searches.Next(adj, w) == Neighbours(Attached(nodes, NetworkCables(cables)), w)
    requires u.node == v.node && u != v
    ensures !Reaches(Arcs(adj), u, v)
  {
    var split := Attached(nodes, NetworkCables(cables));
    AdjacencyArcs(adj, split);
    if Reaches(Arcs(adj), u, v) {
      assert split[..|split|] == split;
      CopiesApart(nodes, NetworkCables(cables), |split|, u, v);
    }
  }

  /** Over a forest, what a cable joins to one copy of a device reaches no other copy of it. */
  lemma NeighbourKeepsSide(nodes: map<Id, Node>, cables: seq<Cable>, adj: map<Vertex, seq<Vertex>>, u: Vertex,
                           d: Vertex, v: Vertex)
    requires Forest(Cabled(NetworkCables(cables)))
    requires forall w :: Searches.Next(adj, w) == Neighbours(Attached(nodes, NetworkCables(cables)), w)
    requires d in Searches.Next(adj, u) && u.node == v.node && u != v
    ensures d !in Searches.Next(adj, v) && !Reaches(Arcs(adj), d, v)
  {
    hide Forest, Attached, Neighbours, NetworkCables;
    IslandsAreApart(nodes, cables, adj, u, v);
    assert (u, d) in Arcs(adj);
    ReachesArc(Arcs(adj), u, d);
    if Reaches(Arcs(adj), d, v) {
      ReachesTransitive(Arcs(adj), u, d, v);
    }
    if d in Searches.Next(adj, v) {
      var links := Attached(nodes, NetworkCables(cables));
      NeighboursAreLinked(links, v, d);
      NeighboursAreLinked(links, d, v);
      assert (d, v) in Arcs(adj);
      ReachesArc(Arcs(adj), d, v);
    }
  }

  /** A device cabled to a LAN port of a gateway takes its addresses from the LAN side:
      it is listed there and, over a forest, reaches no other copy of the gateway. */
  lemma LanPortServesLan(nodes: map<Id, Node>, cables: seq<Cable>, adj: map<Vertex, seq<Vertex>>, c: Cable,
                         gateway: Id, device: Id)
    requires forall w :: Searches.Next(adj, w) == Neighbours(Attached(nodes, NetworkCables(cables)), w)
    requires c in cables && c.kind.Network? && Plain(nodes, c) && Translating(nodes, gateway)
    requires c.direction in {"", "auto"} && !Upstream(nodes, device)
    requires || (c.source == gateway && c.sourceHandle != "target-0" && c.target == device)
             || (c.target == gateway && c.targetHandle !in {"", "target-0"} && c.source == device
                 && !Translating(nodes, device))
    ensures Base(device) in Searches.Next(adj, Lan(gateway))
    ensures Forest(Cabled(NetworkCables(cables))) ==>
              forall v: Vertex :: v.node == gateway && v != Lan(gateway) ==>
                Base(device) !in Searches.Next(adj, v) && !Reaches(Arcs(adj), Base(device), v)
  {
    assert Joins(nodes, c, Lan(gateway), Base(device));
    KeepsSide(nodes, cables, adj, c, Lan(gateway), Base(device));
  }

  /** A device at the port towards the internet, or an upstream device, is joined to
      the gateway itself unless the cable is drawn as a LAN cable, and then to the LAN. */
  lemma UplinkStaysOutside(nodes: map<Id, Node>, cables: seq<Cable>, adj: map<Vertex, seq<Vertex>>, c: Cable,
                           gateway: Id, device: Id)
    requires forall w :: Searches.Next(adj, w) == Neighbours(Attached(nodes, NetworkCables(cables)), w)
    requires c in cables && c.kind.Network? && Plain(nodes, c) && Translating(nodes, gateway)
    requires || (c.source == gateway && c.target == device
                 && (c.sourceHandle == "target-0" || Upstream(nodes, device)))
             || (c.target == gateway && c.source == device && !Translating(nodes, device)
                 && (c.targetHandle in {"", "target-0"} || Upstream(nodes, device)))
    ensures var side := if c.direction == "lan" then Lan(gateway) else Base(gateway);
            && Base(device) in Searches.Next(adj, side)
            && (Forest(Cabled(NetworkCables(cables))) ==>
                  forall v: Vertex :: v.node == gateway && v != side ==>
                    Base(device) !in Searches.Next(adj, v) && !Reaches(Arcs(adj), Base(device), v))
  {
    var side := if c.direction == "lan" then Lan(gateway) else Base(gateway);
    assert Joins(nodes, c, side, Base(device));
    KeepsSide(nodes, cables, adj, c, side, Base(device));
  }

  lemma KeepsSide(nodes: map<Id, Node>, cables: seq<Cable>, adj: map<Vertex, seq<Vertex>>, c: Cable, side: Vertex,
                  d: Vertex)
    requires forall w :: Searches.Next(adj, w) == Neighbours(Attached(nodes, NetworkCables(cables)), w)
    requires c in cables && c.kind.Network? && Joins(nodes, c, side, d)
    ensures d in Searches.Next(adj, side)
    ensures Forest(Cabled(NetworkCables(cables))) ==>
              forall v: Vertex :: v.node == side.node && v != side ==>
                d !in Searches.Next(adj, v) && !Reaches(Arcs(adj), d, v)
  {
    hide Forest, Attached, Neighbours, NetworkCables, Joins, Reaches;
    ListedAreJoined(nodes, cables, side, d);
    if Forest(Cabled(NetworkCables(cables))) {
      forall v: Vertex | v.node == side.node && v != side
        ensures d !in Searches.Next(adj, v) && !Reaches(Arcs(adj), d, v)
      {
        NeighbourKeepsSide(nodes, cables, adj, side, d, v);
      }
    }
  }
}
