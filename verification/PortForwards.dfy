/** Address translation between a host and the internet, the port forwards it
    needs and the conflicts between servers
    (backend/internal/gaming/report.go and report_servers.go). */
module PortForwards {
  import opened Graph
  import opened ShortestPath
  import Searches

  type Id = string

  datatype Exposure = OnLan | OverVpn | OverRelay | Forwarded

  /** A port a server listens on, its offset applied. */
  datatype Port = Port(proto: string, number: nat, forward: bool)

  /** What a guest runs: no game, one whose settings are refused, or a server. */
  datatype Game = NoGame | BadGame | Game(exposure: Exposure, ports: seq<Port>)

  datatype Guest = Guest(id: Id, name: string, isContainer: bool, ip: string, game: Game)

  datatype Device = Device(id: Id, ip: string, isRouter: bool, isNatGateway: bool, isInternetEdge: bool,
                           guests: seq<Guest>)

  datatype LinkKind = Ethernet | Wireless | Vpn | Power
  datatype Link = Link(a: Id, b: Id, kind: LinkKind)

  predicate IsPhysical(link: Link) {
    !link.kind.Power? && !link.kind.Vpn?
  }

  /** Physical links carry traffic both ways. */
  ghost function LinkArcs(links: seq<Link>): set<(Id, Id)> {
    (set l | l in links && IsPhysical(l) :: (l.a, l.b)) + (set l | l in links && IsPhysical(l) :: (l.b, l.a))
  }

  lemma LinkArcsMore(links: seq<Link>, link: Link)
    ensures LinkArcs(links + [link]) ==
            LinkArcs(links) + if link.kind.Power? || link.kind.Vpn? then {} else {(link.a, link.b), (link.b, link.a)}
  {
    var longer := links + [link];
    assert longer[..|links|] == links;
  }

  method BuildGraph(links: seq<Link>) returns (graph: map<Id, seq<Id>>)
    ensures Arcs(graph) == LinkArcs(links)
  {
    graph := map[];
    assert Arcs(graph) == LinkArcs(links[..0]);
    hide Arcs, LinkArcs;
    for i := 0 to |links|
      invariant Arcs(graph) == LinkArcs(links[..i])
    {
      var link := links[i];
      assert links[..i + 1] == links[..i] + [link];
      LinkArcsMore(links[..i], link);
      if link.kind.Power? || link.kind.Vpn? {
        continue;
      }
      ArcAdded(graph, link.a, link.b);
      graph := graph[link.a := Searches.Next(graph, link.a) + [link.b]];
      ArcAdded(graph, link.b, link.a);
      graph := graph[link.b := Searches.Next(graph, link.b) + [link.a]];
    }
    assert links[..|links|] == links;
  }

  lemma ArcAdded(graph: map<Id, seq<Id>>, a: Id, b: Id)
    ensures Arcs(graph[a := Searches.Next(graph, a) + [b]]) == Arcs(graph) + {(a, b)}
  {
  }

  // ---- the chain of translations ----

  predicate Translates(devices: map<Id, Device>, id: Id) {
    id in devices && (devices[id].isRouter || devices[id].isNatGateway)
  }

  /** The translating devices of a path, its far end first, its start left out. */
  function Hops(devices: map<Id, Device>, path: seq<Id>): seq<Device> {
    if |path| <= 1 then []
    else
      var last := path[|path| - 1];
      (if Translates(devices, last) then [devices[last]] else []) + Hops(devices, path[..|path| - 1])
  }

  function AtEdge(devices: map<Id, Device>): Id -> bool {
    id => id in devices && devices[id].isInternetEdge
  }

  function AtRouter(devices: map<Id, Device>): Id -> bool {
    id => id in devices && devices[id].isRouter
  }

  /** A shortest path to the internet edge or, when no edge is within reach, to a router. */
  ghost predicate WayOut(devices: map<Id, Device>, arcs: set<(Id, Id)>, host: Id, path: seq<Id>) {
    || Nearest(arcs, host, AtEdge(devices), path)
    || (OutOfReach(arcs, host, AtEdge(devices)) && Nearest(arcs, host, AtRouter(devices), path))
  }

  /** With no edge within reach, the far end is a nearest router, and it is the first of the chain. */
  ghost predicate RouterHeads(devices: map<Id, Device>, arcs: set<(Id, Id)>, host: Id, chain: seq<Device>) {
    && |chain| > 0
    && exists path :: Nearest(arcs, host, AtRouter(devices), path) && chain[0] == devices[path[|path| - 1]]
  }

  /** What a chain answer means. */
  ghost predicate ChainOf(devices: map<Id, Device>, arcs: set<(Id, Id)>, host: Id, chain: seq<Device>, direct: bool,
                          reachable: bool)
  {
    if host !in devices then chain == [] && !direct && !reachable
    else if devices[host].isInternetEdge then chain == [] && direct && reachable
    else if reachable then
      && (direct <==> chain == [])
      && (exists path :: WayOut(devices, arcs, host, path) && chain == Hops(devices, path))
      && (OutOfReach(arcs, host, AtEdge(devices)) ==> RouterHeads(devices, arcs, host, chain))
    else
      && chain == [] && !direct
      && OutOfReach(arcs, host, AtEdge(devices)) && OutOfReach(arcs, host, AtRouter(devices))
  }

  /** Without a modem or a public address drawn, the first router met is the edge:
      it is the far end of the path and the first of the chain. */
  lemma RouterIsOutermost(devices: map<Id, Device>, arcs: set<(Id, Id)>, host: Id, path: seq<Id>)
    requires Nearest(arcs, host, AtRouter(devices), path)
    ensures Hops(devices, path) != [] && Hops(devices, path)[0] == devices[path[|path| - 1]]
  {
    assert |path| > 1;
  }

  lemma WayOutIsChain(devices: map<Id, Device>, arcs: set<(Id, Id)>, host: Id, path: seq<Id>)
    requires host in devices && !devices[host].isInternetEdge && WayOut(devices, arcs, host, path)
    ensures ChainOf(devices, arcs, host, Hops(devices, path), Hops(devices, path) == [], true)
  {
    if Nearest(arcs, host, AtEdge(devices), path) {
      NearestInReach(arcs, host, AtEdge(devices), path);
    } else {
      RouterIsOutermost(devices, arcs, host, path);
    }
  }

  /** Devices are listed under their ids. */
  ghost predicate NamedById(devices: map<Id, Device>) {
    forall id <- devices :: devices[id].id == id
  }

  ghost predicate AllDifferent(chain: seq<Device>) {
    forall i, j :: 0 <= i < j < |chain| ==> chain[i].id != chain[j].id
  }

  lemma {:induction false} HopsDiffer(devices: map<Id, Device>, path: seq<Id>)
    requires NamedById(devices) && forall i, j :: 0 <= i < j < |path| ==> path[i] != path[j]
    ensures AllDifferent(Hops(devices, path)) && forall d <- Hops(devices, path) :: d.id in path
  {
    if |path| > 1 {
      HopsDiffer(devices, path[..|path| - 1]);
    }
  }

  /** A nearest way out passes no router twice. */
  lemma ChainDiffers(devices: map<Id, Device>, arcs: set<(Id, Id)>, host: Id, chain: seq<Device>, direct: bool,
                     reachable: bool)
    requires NamedById(devices) && ChainOf(devices, arcs, host, chain, direct, reachable)
    ensures AllDifferent(chain)
  {
    if |chain| > 0 {
      var path :| WayOut(devices, arcs, host, path) && chain == Hops(devices, path);
      if Nearest(arcs, host, AtEdge(devices), path) {
        NearestIsSimple(arcs, host, AtEdge(devices), path);
      } else {
        NearestIsSimple(arcs, host, AtRouter(devices), path);
      }
      HopsDiffer(devices, path);
    }
  }

  // The same, said of the devices on the way.

  /** A walk over the links from the host to another device. */
  ghost predicate Walks(arcs: set<(Id, Id)>, host: Id, path: seq<Id>) {
    |path| > 0 && IsPath(arcs, path) && path[0] == host && path[|path| - 1] != host
  }

  ghost predicate EndsAtEdge(devices: map<Id, Device>, path: seq<Id>) {
    |path| > 0 && path[|path| - 1] in devices && devices[path[|path| - 1]].isInternetEdge
  }

  ghost predicate EndsAtRouter(devices: map<Id, Device>, path: seq<Id>) {
    |path| > 0 && path[|path| - 1] in devices && devices[path[|path| - 1]].isRouter
  }

  ghost predicate NoEdgeInReach(devices: map<Id, Device>, arcs: set<(Id, Id)>, host: Id) {
    forall path :: Walks(arcs, host, path) ==> !EndsAtEdge(devices, path)
  }

  ghost predicate NoRouterInReach(devices: map<Id, Device>, arcs: set<(Id, Id)>, host: Id) {
    forall path :: Walks(arcs, host, path) ==> !EndsAtRouter(devices, path)
  }

  /** The shortest walk to the internet edge or, with no edge in reach, to a router. */
  ghost predicate Leaves(devices: map<Id, Device>, arcs: set<(Id, Id)>, host: Id, path: seq<Id>) {
    && Walks(arcs, host, path)
    && if EndsAtEdge(devices, path) then
         forall q :: Walks(arcs, host, q) && EndsAtEdge(devices, q) ==> |path| <= |q|
       else
         && NoEdgeInReach(devices, arcs, host) && EndsAtRouter(devices, path)
         && forall q :: Walks(arcs, host, q) && EndsAtRouter(devices, q) ==> |path| <= |q|
  }

  /** The chain is the routers and NAT gateways of the walk but its start, the one met
      first last. */
  ghost predicate TranslatorsOf(devices: map<Id, Device>, path: seq<Id>, chain: seq<Device>) {
    if |path| <= 1 then chain == []
    else if path[1] in devices && (devices[path[1]].isRouter || devices[path[1]].isNatGateway) then
      && |chain| > 0 && chain[|chain| - 1] == devices[path[1]]
      && TranslatorsOf(devices, path[1..], chain[..|chain| - 1])
    else TranslatorsOf(devices, path[1..], chain)
  }

  lemma {:induction false} HopsFromStart(devices: map<Id, Device>, path: seq<Id>)
    requires |path| > 1
    ensures Hops(devices, path) == Hops(devices, path[1..])
            + if Translates(devices, path[1]) then [devices[path[1]]] else []
  {
    var front, rest, last := path[..|path| - 1], path[1..], path[|path| - 1];
    assert Translates(devices, last) ==> last in devices;
    assert Translates(devices, path[1]) ==> path[1] in devices;
    hide Translates;
    var far := if Translates(devices, last) then [devices[last]] else [];
    assert Hops(devices, path) == far + Hops(devices, front);
    if |path| == 2 {
      assert |front| == 1 && |rest| == 1;
      assert far + [] == far && [] + far == far;
    } else {
      HopsFromStart(devices, front);
      var near := if Translates(devices, path[1]) then [devices[path[1]]] else [];
      assert front[1..] == rest[..|rest| - 1] && rest[|rest| - 1] == last && front[1] == path[1];
      assert Hops(devices, rest) == far + Hops(devices, front[1..]);
      hide Hops;
      assert far + (Hops(devices, front[1..]) + near) == (far + Hops(devices, front[1..])) + near;
    }
  }

  lemma {:induction false} HopsTranslate(devices: map<Id, Device>, path: seq<Id>)
    ensures TranslatorsOf(devices, path, Hops(devices, path))
  {
    if |path| > 1 {
      HopsFromStart(devices, path);
      HopsTranslate(devices, path[1..]);
      var chain := Hops(devices, path);
      hide Hops;
      if Translates(devices, path[1]) {
        assert chain[..|chain| - 1] == Hops(devices, path[1..]);
      } else {
        assert chain == Hops(devices, path[1..]);
      }
    }
  }

  lemma WayOutLeaves(devices: map<Id, Device>, arcs: set<(Id, Id)>, host: Id, path: seq<Id>)
    requires WayOut(devices, arcs, host, path)
    ensures Leaves(devices, arcs, host, path)
  {
    assert forall q :: Walks(arcs, host, q) && EndsAtEdge(devices, q) ==> LeadsToHit(arcs, host, AtEdge(devices), q);
    assert forall q :: Walks(arcs, host, q) && EndsAtRouter(devices, q) ==>
      LeadsToHit(arcs, host, AtRouter(devices), q);
    if OutOfReach(arcs, host, AtEdge(devices)) {
      NoEdgeWalked(devices, arcs, host);
    }
  }

  lemma NoEdgeWalked(devices: map<Id, Device>, arcs: set<(Id, Id)>, host: Id)
    requires OutOfReach(arcs, host, AtEdge(devices))
    ensures NoEdgeInReach(devices, arcs, host)
  {
    forall path | Walks(arcs, host, path)
      ensures !EndsAtEdge(devices, path)
    {
      assert PathFrom(arcs, path, host, path[|path| - 1]);
      assert Reaches(arcs, host, path[|path| - 1]) && !Hit(host, AtEdge(devices), path[|path| - 1]);
    }
  }

  lemma NoRouterWalked(devices: map<Id, Device>, arcs: set<(Id, Id)>, host: Id)
    requires OutOfReach(arcs, host, AtRouter(devices))
    ensures NoRouterInReach(devices, arcs, host)
  {
    forall path | Walks(arcs, host, path)
      ensures !EndsAtRouter(devices, path)
    {
      assert PathFrom(arcs, path, host, path[|path| - 1]);
      assert Reaches(arcs, host, path[|path| - 1]) && !Hit(host, AtRouter(devices), path[|path| - 1]);
    }
  }

  /** The answer names the routers and NAT gateways on a shortest way to the internet,
      outermost first; it is direct when there are none, and there is no way exactly
      when neither an edge nor a router can be walked to. */
  ghost predicate NamesTranslators(devices: map<Id, Device>, arcs: set<(Id, Id)>, host: Id, chain: seq<Device>,
                                   direct: bool, reachable: bool)
  {
    if host !in devices then chain == [] && !direct && !reachable
    else if devices[host].isInternetEdge then chain == [] && direct && reachable
    else if reachable then
      && (direct <==> chain == [])
      && exists path :: Leaves(devices, arcs, host, path) && TranslatorsOf(devices, path, chain)
    else chain == [] && !direct && NoEdgeInReach(devices, arcs, host) && NoRouterInReach(devices, arcs, host)
  }

  lemma ChainNames(devices: map<Id, Device>, arcs: set<(Id, Id)>, host: Id, chain: seq<Device>, direct: bool,
                   reachable: bool)
    requires ChainOf(devices, arcs, host, chain, direct, reachable)
    ensures NamesTranslators(devices, arcs, host, chain, direct, reachable)
  {
    if host in devices && !devices[host].isInternetEdge {
      if reachable {
        var path :| WayOut(devices, arcs, host, path) && chain == Hops(devices, path);
        WayOutLeaves(devices, arcs, host, path);
        HopsTranslate(devices, path);
      } else {
        NoEdgeWalked(devices, arcs, host);
        NoRouterWalked(devices, arcs, host);
      }
    }
  }

  lemma NatChainNames(devices: map<Id, Device>, arcs: set<(Id, Id)>, host: Id)
    ensures forall chain, direct, reachable :: ChainOf(devices, arcs, host, chain, direct, reachable) ==>
              NamesTranslators(devices, arcs, host, chain, direct, reachable)
  {
    forall chain, direct, reachable | ChainOf(devices, arcs, host, chain, direct, reachable)
      ensures NamesTranslators(devices, arcs, host, chain, direct, reachable)
    {
      ChainNames(devices, arcs, host, chain, direct, reachable);
    }
  }

  method NatChain(devices: map<Id, Device>, graph: map<Id, seq<Id>>, host: Id)
    returns (chain: seq<Device>, direct: bool, reachable: bool)
    ensures ChainOf(devices, Arcs(graph), host, chain, direct, reachable)
    ensures NamesTranslators(devices, Arcs(graph), host, chain, direct, reachable)
  {
    NatChainNames(devices, Arcs(graph), host);
    hide NamesTranslators;
    if host !in devices {
      return [], false, false;
    }
    if devices[host].isInternetEdge {
      return [], true, true;
    }
    var path := PathTo(graph, host, AtEdge(devices));
    if path.None? {
      path := PathTo(graph, host, AtRouter(devices));
    }
    if path.None? {
      return [], false, false;
    }
    assert path.value != [] && WayOut(devices, Arcs(graph), host, path.value);
    WayOutIsChain(devices, Arcs(graph), host, path.value);
    hide ChainOf;
    chain := TranslatorsAlong(devices, path.value);
    return chain, chain == [], true;
  }

  lemma HopsMore(devices: map<Id, Device>, path: seq<Id>, i: nat)
    requires 0 < i < |path|
    ensures Hops(devices, path[..i + 1]) == (if Translates(devices, path[i]) then [devices[path[i]]] else [])
            + Hops(devices, path[..i])
  {
    var part := path[..i + 1];
    assert part[..i] == path[..i] && part[|part| - 1] == path[i];
  }

  method TranslatorsAlong(devices: map<Id, Device>, path: seq<Id>) returns (chain: seq<Device>)
    requires path != []
    ensures chain == Hops(devices, path)
  {
    assert Hops(devices, path[..1]) == [];
    hide Hops;
    chain := [];
    var i := |path| - 1;
    assert path[..i + 1] == path;
    while i >= 1
      invariant 0 <= i < |path|
      invariant chain + Hops(devices, path[..i + 1]) == Hops(devices, path)
    {
      HopsMore(devices, path, i);
      if Translates(devices, path[i]) {
        var hop, rest := devices[path[i]], Hops(devices, path[..i]);
        assert chain + ([hop] + rest) == chain + [hop] + rest;
        chain := chain + [devices[path[i]]];
      } else {
        assert [] + Hops(devices, path[..i]) == Hops(devices, path[..i]);
      }
      i := i - 1;
    }
  }

  // ---- rules ----

  datatype PortForward = PortForward(
    router: Id, guest: Id, server: string, proto: string, externalPort: nat, targetIp: string, targetPort: nat,
    hop: nat)

  /** A server reached through its chain of translations. */
  datatype Route = Route(host: Id, guest: Guest, chain: seq<Device>, targetIp: string)

  ghost predicate ValidRoute(r: Route) {
    r.chain != [] && r.guest.game.Game?
  }

  /** The rule on one router of the chain: to the next router inwards, on the
      innermost to the server. */
  function RuleAt(r: Route, port: Port, hop: nat): PortForward
    requires hop < |r.chain|
  {
    PortForward(r.chain[hop].id, r.guest.id, r.guest.name, port.proto, port.number,
                if hop + 1 < |r.chain| then r.chain[hop + 1].ip else r.targetIp, port.number, hop + 1)
  }

  function RulesForPort(r: Route, port: Port): seq<PortForward> {
    seq(|r.chain|, hop requires 0 <= hop < |r.chain| => RuleAt(r, port, hop))
  }

  function RulesForPorts(r: Route, ports: seq<Port>): seq<PortForward> {
    if ports == [] then []
    else
      var last := ports[|ports| - 1];
      RulesForPorts(r, ports[..|ports| - 1]) + if last.forward then RulesForPort(r, last) else []
  }

  function Rules(routes: seq<Route>): seq<PortForward>
    requires forall r <- routes :: r.guest.game.Game?
  {
    if routes == [] then []
    else
      var last := routes[|routes| - 1];
      Rules(routes[..|routes| - 1]) + RulesForPorts(last, last.guest.game.ports)
  }

  // ---- conflicts ----

  /** A port of one device, as a key. */
  datatype Key = Key(device: Id, proto: string, number: nat)

  /** A conflict names the server whose turn it was, the port and the server that held it. */
  datatype Issue =
    | HostPortConflict(host: Id, guest: Id, key: Key, other: string)
    | PortConflict(host: Id, guest: Id, key: Key, other: string)
    | NoWanPath(host: Id, guest: Id)
    | PublicHostDirect(host: Id, guest: Id)
    | ServerNoAddress(host: Id, guest: Id)
    | DoubleNat(host: Id, guest: Id)

  /** A server claims ports of a device: a container those of its host, a forwarded
      server those of the outermost router of its chain. */
  datatype Claim = Claim(device: Id, host: Id, guest: Id, name: string, ports: seq<Port>)

  predicate Has(ports: seq<Port>, key: Key) {
    exists p <- ports :: p.proto == key.proto && p.number == key.number
  }

  predicate Claims(c: Claim, key: Key) {
    c.device == key.device && Has(c.ports, key)
  }

  /** Two servers of different names claim the port. */
  ghost predicate Clash(claims: seq<Claim>, key: Key) {
    exists c, d :: c in claims && d in claims && Claims(c, key) && Claims(d, key) && c.name != d.name
  }

  ghost predicate ClashOn(claims: seq<Claim>, device: Id) {
    exists key: Key :: key.device == device && Clash(claims, key)
  }

  /** The guest of the host claims the port, and so does another server of the given name. */
  ghost predicate Disputed(claims: seq<Claim>, host: Id, guest: Id, key: Key, other: string) {
    exists c, d :: c in claims && d in claims && Claims(c, key) && Claims(d, key)
      && c.host == host && c.guest == guest && d.name == other && c.name != other
  }

  ghost predicate HostReported(issues: seq<Issue>, host: Id) {
    exists i :: i in issues && i.HostPortConflict? && i.host == host
  }

  ghost predicate ForwardReported(issues: seq<Issue>, key: Key) {
    exists i :: i in issues && i.PortConflict? && i.key == key
  }

  /** Every entry of a table of ports was claimed under the name it holds. */
  ghost predicate Known(claims: seq<Claim>, table: map<Key, string>) {
    forall key <- table :: exists c :: c in claims && Claims(c, key) && c.name == table[key]
  }

  /** The loop over a container's ports stops at its first conflict, so the table
      of published ports is complete only on hosts without one. */
  ghost predicate Published(claims: seq<Claim>, table: map<Key, string>, issues: seq<Issue>) {
    forall c, key :: c in claims && Claims(c, key) && !HostReported(issues, c.device) ==>
      key in table && table[key] == c.name
  }

  ghost predicate HostReportsReal(claims: seq<Claim>, issues: seq<Issue>) {
    forall i :: i in issues && i.HostPortConflict? ==>
      i.key.device == i.host && Disputed(claims, i.host, i.guest, i.key, i.other)
  }

  ghost predicate Forwarding(claims: seq<Claim>, table: map<Key, string>, issues: seq<Issue>) {
    forall c, key :: c in claims && Claims(c, key) ==>
      key in table && (!ForwardReported(issues, key) ==> table[key] == c.name)
  }

  ghost predicate ForwardReportsReal(claims: seq<Claim>, issues: seq<Issue>) {
    forall i :: i in issues && i.PortConflict? ==> Disputed(claims, i.host, i.guest, i.key, i.other)
  }

  lemma DisputeIsClash(claims: seq<Claim>, host: Id, guest: Id, key: Key, other: string)
    requires Disputed(claims, host, guest, key, other)
    ensures Clash(claims, key)
  {
  }

  /** A conflict is reported on a host exactly when two of its containers clash,
      although the loop that looks for it stops early. */
  lemma HostConflictsExact(claims: seq<Claim>, table: map<Key, string>, issues: seq<Issue>, host: Id)
    requires Known(claims, table) && Published(claims, table, issues) && HostReportsReal(claims, issues)
    ensures HostReported(issues, host) <==> ClashOn(claims, host)
  {
    if HostReported(issues, host) {
      var i :| i in issues && i.HostPortConflict? && i.host == host;
      DisputeIsClash(claims, i.host, i.guest, i.key, i.other);
    }
  }

  lemma ForwardConflictsExact(claims: seq<Claim>, table: map<Key, string>, issues: seq<Issue>, key: Key)
    requires Known(claims, table) && Forwarding(claims, table, issues) && ForwardReportsReal(claims, issues)
    ensures ForwardReported(issues, key) <==> Clash(claims, key)
  {
    if ForwardReported(issues, key) {
      var i :| i in issues && i.PortConflict? && i.key == key;
      DisputeIsClash(claims, i.host, i.guest, i.key, i.other);
    }
  }

  /** The table after a server's ports were entered under its name. */
  function Entered(table: map<Key, string>, device: Id, name: string, ports: seq<Port>): map<Key, string> {
    if ports == [] then table
    else
      var last := ports[|ports| - 1];
      Entered(table, device, name, ports[..|ports| - 1])[Key(device, last.proto, last.number) := name]
  }

  lemma {:induction false} EnteredHolds(table: map<Key, string>, device: Id, name: string, ports: seq<Port>)
    ensures var entered := Entered(table, device, name, ports);
            forall key :: (key in entered <==> key in table || (key.device == device && Has(ports, key)))
                          && (key in entered ==> entered[key] == if key.device == device
                              && Has(ports, key) then name else table[key])
  {
    if ports != [] {
      var front, last := ports[..|ports| - 1], ports[|ports| - 1];
      EnteredHolds(table, device, name, front);
      forall key
        ensures Has(ports, key) <==> Has(front, key) || (last.proto == key.proto && last.number == key.number)
      {
        assert ports == front + [last];
      }
    }
  }

  /** Another server holds the port in the table. */
  ghost predicate TakenAt(table: map<Key, string>, device: Id, name: string, ports: seq<Port>, key: Key) {
    key in table && key.device == device && Has(ports, key) && table[key] != name
  }

  /** Another server holds one of these ports in the table. */
  ghost predicate Taken(table: map<Key, string>, device: Id, name: string, ports: seq<Port>) {
    exists key :: TakenAt(table, device, name, ports, key)
  }

  lemma EnteredKnown(claims: seq<Claim>, table: map<Key, string>, c: Claim, ports: seq<Port>)
    requires Known(claims, table) && forall p <- ports :: p in c.ports
    ensures Known(claims + [c], Entered(table, c.device, c.name, ports))
  {
    var entered, more := Entered(table, c.device, c.name, ports), claims + [c];
    EnteredHolds(table, c.device, c.name, ports);
    forall key | key in entered ensures exists d :: d in more && Claims(d, key) && d.name == entered[key] {
      if key.device == c.device && Has(ports, key) {
        assert c in more && Claims(c, key);
      } else {
        var d :| d in claims && Claims(d, key) && d.name == table[key];
        assert d in more;
      }
    }
  }

  lemma TakenIsDisputed(claims: seq<Claim>, table: map<Key, string>, c: Claim, key: Key)
    requires Known(claims, table) && TakenAt(table, c.device, c.name, c.ports, key)
    ensures Disputed(claims + [c], c.host, c.guest, key, table[key])
  {
    var d :| d in claims && Claims(d, key) && d.name == table[key];
    assert d in claims + [c] && c in claims + [c] && Claims(c, key);
  }

  lemma DisputeStays(claims: seq<Claim>, c: Claim, host: Id, guest: Id, key: Key, other: string)
    requires Disputed(claims, host, guest, key, other)
    ensures Disputed(claims + [c], host, guest, key, other)
  {
    var d, e :| d in claims && e in claims && Claims(d, key) && Claims(e, key)
                && d.host == host && d.guest == guest && e.name == other && d.name != other;
    assert d in claims + [c] && e in claims + [c];
  }

  lemma ReportsMore(issues: seq<Issue>, issue: Issue)
    ensures forall i :: i in issues + [issue] <==> i in issues || i == issue
    ensures forall host :: HostReported(issues + [issue], host) <==>
                             HostReported(issues, host) || (issue.HostPortConflict? && issue.host == host)
    ensures forall key :: ForwardReported(issues + [issue], key) <==>
                            ForwardReported(issues, key) || (issue.PortConflict? && issue.key == key)
  {
    var more := issues + [issue];
    assert forall i :: i in more <==> i in issues || i == issue;
    assert issue in more;
  }

  lemma HostReportsStayReal(claims: seq<Claim>, c: Claim, issues: seq<Issue>)
    requires HostReportsReal(claims, issues)
    ensures HostReportsReal(claims + [c], issues)
  {
    forall i | i in issues && i.HostPortConflict? ensures Disputed(claims + [c], i.host, i.guest, i.key, i.other) {
      DisputeStays(claims, c, i.host, i.guest, i.key, i.other);
    }
  }

  /** A container all of whose ports could be entered. */
  lemma PublishedMore(claims: seq<Claim>, table: map<Key, string>, issues: seq<Issue>, c: Claim)
    requires Published(claims, table, issues)
    requires !Taken(table, c.device, c.name, c.ports)
    ensures Published(claims + [c], Entered(table, c.device, c.name, c.ports), issues)
  {
    EnteredHolds(table, c.device, c.name, c.ports);
    forall d, key | d in claims + [c] && Claims(d, key) && !HostReported(issues, d.device)
      ensures var entered := Entered(table, c.device, c.name, c.ports); key in entered && entered[key] == d.name
    {
      assert !TakenAt(table, c.device, c.name, c.ports, key);
    }
  }

  /** The early stop: the ports before the conflict are entered, the host is reported. */
  lemma PublishedUntilConflict(claims: seq<Claim>, table: map<Key, string>, issues: seq<Issue>, c: Claim,
                               entered: seq<Port>, key: Key)
    requires Known(claims, table) && Published(claims, table, issues) && HostReportsReal(claims, issues)
    requires TakenAt(table, c.device, c.name, c.ports, key) && c.device == c.host
    ensures var reports := issues + [HostPortConflict(c.host, c.guest, key, table[key])];
            Published(claims + [c], Entered(table, c.device, c.name, entered), reports)
              && HostReportsReal(claims + [c], reports)
  {
    var issue := HostPortConflict(c.host, c.guest, key, table[key]);
    ReportsMore(issues, issue);
    assert HostReportsReal(claims + [c], issues + [issue]) by {
      HostReportsStayReal(claims, c, issues);
      TakenIsDisputed(claims, table, c, key);
    }
    PublishedElsewhere(claims, table, issues, c, entered, issues + [issue]);
  }

  lemma PublishedElsewhere(claims: seq<Claim>, table: map<Key, string>, issues: seq<Issue>, c: Claim,
                           entered: seq<Port>, reports: seq<Issue>)
    requires Published(claims, table, issues)
    requires forall host :: HostReported(reports, host) <==> HostReported(issues, host) || host == c.device
    ensures Published(claims + [c], Entered(table, c.device, c.name, entered), reports)
  {
    hide HostReported, Has;
    EnteredHolds(table, c.device, c.name, entered);
  }

  /** One claim on one port, after a route's ports were entered. */
  lemma ForwardedKey(table: map<Key, string>, c: Claim, d: Claim, key: Key, quiet: bool)
    requires Claims(d, key)
    requires d != c ==> key in table && (quiet ==> table[key] == d.name)
    requires quiet ==> !TakenAt(table, c.device, c.name, c.ports, key)
    ensures var entered := Entered(table, c.device, c.name, c.ports);
            key in entered && (quiet ==> entered[key] == d.name)
  {
    EnteredHolds(table, c.device, c.name, c.ports);
  }

  /** The conflicts of a claim: the ports another server holds in the table, each with that server. */
  ghost predicate ConflictsOf(table: map<Key, string>, c: Claim, found: seq<Issue>) {
    && (forall i :: i in found ==>
          && i.PortConflict? && i.host == c.host && i.guest == c.guest
          && TakenAt(table, c.device, c.name, c.ports, i.key) && i.other == table[i.key])
    && forall key :: TakenAt(table, c.device, c.name, c.ports, key) ==> ForwardReported(found, key)
  }

  /** A route all of whose ports are entered, whoever held them before. */
  lemma ForwardedMore(claims: seq<Claim>, table: map<Key, string>, issues: seq<Issue>, c: Claim, found: seq<Issue>)
    requires Forwarding(claims, table, issues) && ConflictsOf(table, c, found)
    ensures Forwarding(claims + [c], Entered(table, c.device, c.name, c.ports), issues + found)
  {
    forall d, key | d in claims + [c] && Claims(d, key)
      ensures var entered := Entered(table, c.device, c.name, c.ports);
              key in entered && (!ForwardReported(issues + found, key) ==> entered[key] == d.name)
    {
      BothReport(issues, found, key);
      ForwardedKey(table, c, d, key, !ForwardReported(issues + found, key));
    }
  }

  lemma BothReport(issues: seq<Issue>, found: seq<Issue>, key: Key)
    ensures ForwardReported(issues + found, key) <==> ForwardReported(issues, key) || ForwardReported(found, key)
  {
    assert forall i :: i in issues + found <==> i in issues || i in found;
  }

  lemma ForwardReportsStayReal(claims: seq<Claim>, table: map<Key, string>, issues: seq<Issue>, c: Claim,
                               found: seq<Issue>)
    requires Known(claims, table) && ForwardReportsReal(claims, issues) && ConflictsOf(table, c, found)
    ensures ForwardReportsReal(claims + [c], issues + found)
  {
    forall i | i in issues + found && i.PortConflict? ensures Disputed(claims + [c], i.host, i.guest, i.key, i.other) {
      if i in issues {
        DisputeStays(claims, c, i.host, i.guest, i.key, i.other);
      } else {
        TakenIsDisputed(claims, table, c, i.key);
      }
    }
  }

  function ForwardedPorts(ports: seq<Port>): seq<Port> {
    if ports == [] then []
    else ForwardedPorts(ports[..|ports| - 1]) + if ports[|ports| - 1].forward then [ports[|ports| - 1]] else []
  }
}
