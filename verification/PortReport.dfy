/** The pass over all servers that lists port forwards and reports conflicts
    (backend/internal/gaming/report_servers.go, checkServers). */
module PortReport {
  import opened Wrappers
  import opened Graph
  import opened PortForwards

  /** A guest and the host it runs on. */
  datatype Placed = Placed(host: Device, guest: Guest)

  function PlacedOn(host: Device, guests: seq<Guest>): seq<Placed> {
    seq(|guests|, i requires 0 <= i < |guests| => Placed(host, guests[i]))
  }

  function AllPlaced(hosts: seq<Device>): seq<Placed> {
    if hosts == [] then []
    else AllPlaced(hosts[..|hosts| - 1]) + PlacedOn(hosts[|hosts| - 1], hosts[|hosts| - 1].guests)
  }

  function HostClaim(p: Placed): Claim {
    Claim(p.host.id, p.host.id, p.guest.id, p.guest.name, if p.guest.game.Game? then p.guest.game.ports else [])
  }

  /** The ports containers publish on their hosts. */
  function PublishedClaims(placed: seq<Placed>): seq<Claim> {
    if placed == [] then []
    else
      var last := placed[|placed| - 1];
      PublishedClaims(placed[..|placed| - 1])
      + if last.guest.game.Game? && last.guest.isContainer
        then [HostClaim(last)] else []
  }

  /** A container publishes its ports on the host; any other guest has its own address. */
  function TargetIp(host: Device, guest: Guest): string {
    if guest.isContainer || guest.ip == "" then host.ip else guest.ip
  }

  /** The servers set to port forwarding. */
  function Forwarders(placed: seq<Placed>): seq<Placed> {
    if placed == [] then []
    else
      var last := placed[|placed| - 1];
      Forwarders(placed[..|placed| - 1])
      + if last.guest.game.Game? && last.guest.game.exposure.Forwarded? then [last] else []
  }

  /** What the search for a way out said for a server. */
  datatype Answer = Answer(server: Placed, chain: seq<Device>, direct: bool, reachable: bool)

  function Servers(answers: seq<Answer>): seq<Placed> {
    seq(|answers|, i requires 0 <= i < |answers| => answers[i].server)
  }

  /** Rules are made for the servers that are reached through a translation. */
  function Routes(answers: seq<Answer>): seq<Route> {
    if answers == [] then []
    else
      var last := answers[|answers| - 1];
      Routes(answers[..|answers| - 1])
      + if last.reachable && !last.direct
        then [Route(last.server.host.id, last.server.guest, last.chain, TargetIp(last.server.host, last.server.guest))]
          else []
  }

  function RouteClaim(r: Route): Claim {
    Claim(if r.chain == [] then r.host else r.chain[0].id, r.host, r.guest.id, r.guest.name,
          if r.guest.game.Game? then ForwardedPorts(r.guest.game.ports) else [])
  }

  function RouteClaims(routes: seq<Route>): seq<Claim> {
    seq(|routes|, i requires 0 <= i < |routes| => RouteClaim(routes[i]))
  }

  lemma {:induction false} ForwardedPortsHold(ports: seq<Port>)
    ensures forall p :: p in ForwardedPorts(ports) <==> p in ports && p.forward
  {
    if ports != [] {
      var front, last := ports[..|ports| - 1], ports[|ports| - 1];
      ForwardedPortsHold(front);
      assert ports == front + [last];
    }
  }

  // ---- who is who, said of hosts and guests ----

  /** A guest with an address of its own that is no container is reached by it, any
      other by the address of its host. */
  ghost predicate ReachedAt(host: Device, guest: Guest, ip: string) {
    if !guest.isContainer && guest.ip != "" then ip == guest.ip else ip == host.ip
  }

  ghost predicate IsForwarded(guest: Guest) {
    guest.game.Game? && guest.game.exposure == Forwarded
  }

  /** The route leads to this guest of this host, by the routers and gateways in between. */
  ghost predicate LeadsTo(devices: map<Id, Device>, arcs: set<(Id, Id)>, r: Route, host: Device, guest: Guest) {
    && r.host == host.id && r.guest == guest && IsForwarded(guest) && |r.chain| > 0
    && NamesTranslators(devices, arcs, host.id, r.chain, false, true)
    && ReachedAt(host, guest, r.targetIp)
  }

  /** Every route leads to a forwarded server, and every forwarded server has a route
      unless its host is on the internet or cannot reach it, which is then remarked. */
  ghost predicate RoutesLead(devices: map<Id, Device>, arcs: set<(Id, Id)>, hosts: seq<Device>, routes: seq<Route>,
                             issues: seq<Issue>)
  {
    && (forall r <- routes :: exists h, g :: h in hosts && g in h.guests && LeadsTo(devices, arcs, r, h, g))
    && (forall h, g :: h in hosts && g in h.guests && IsForwarded(g) ==>
          || (exists r :: r in routes && LeadsTo(devices, arcs, r, h, g))
          || (PublicHostDirect(h.id, g.id) in issues && NamesTranslators(devices, arcs, h.id, [], true, true))
          || (NoWanPath(h.id, g.id) in issues && NamesTranslators(devices, arcs, h.id, [], false, false)))
  }

  /** A forwarded server that needs no rule, its host being on the internet, or has no way there. */
  ghost predicate Unrouted(devices: map<Id, Device>, arcs: set<(Id, Id)>, hosts: seq<Device>, host: Id, guest: Id,
                           direct: bool)
  {
    exists h, g :: h in hosts && g in h.guests && h.id == host && g.id == guest && IsForwarded(g)
      && NamesTranslators(devices, arcs, h.id, [], direct, direct)
  }

  /** Remarks are made on the servers they are about: two translations in a row and
      a missing address exactly on the routes that have them. */
  ghost predicate RemarksMeant(devices: map<Id, Device>, arcs: set<(Id, Id)>, hosts: seq<Device>, routes: seq<Route>,
                               issues: seq<Issue>)
  {
    && (forall h, g :: NoWanPath(h, g) in issues ==> Unrouted(devices, arcs, hosts, h, g, false))
    && (forall h, g :: PublicHostDirect(h, g) in issues ==> Unrouted(devices, arcs, hosts, h, g, true))
    && (forall h, g :: DoubleNat(h, g) in issues <==>
          exists r <- routes :: r.host == h && r.guest.id == g && |r.chain| > 1)
    && (forall h, g :: ServerNoAddress(h, g) in issues <==>
          exists r <- routes :: r.host == h && r.guest.id == g && r.targetIp == "")
  }

  /** A container of the host publishes the port. */
  ghost predicate Publishes(hosts: seq<Device>, host: Id, guest: Guest, p: Port) {
    && (exists h :: h in hosts && h.id == host && guest in h.guests)
    && guest.isContainer && guest.game.Game? && p in guest.game.ports
  }

  /** Two containers of the host, of different names, publish one port. */
  ghost predicate ContainersClash(hosts: seq<Device>, host: Id) {
    exists a, b, p, q :: Publishes(hosts, host, a, p) && Publishes(hosts, host, b, q)
      && a.name != b.name && p.proto == q.proto && p.number == q.number
  }

  /** The route needs the port forwarded on the edge router. */
  ghost predicate NeedsForward(r: Route, key: Key, p: Port) {
    && |r.chain| > 0 && r.chain[0].id == key.device && r.guest.game.Game?
    && p in r.guest.game.ports && p.forward && p.proto == key.proto && p.number == key.number
  }

  /** Two routes to servers of different names need one port of an edge router. */
  ghost predicate RoutesClash(routes: seq<Route>, key: Key) {
    exists r, s, p, q :: r in routes && s in routes && NeedsForward(r, key, p) && NeedsForward(s, key, q)
      && r.guest.name != s.guest.name
  }

  lemma {:induction false} AllPlacedHolds(hosts: seq<Device>)
    ensures forall p :: p in AllPlaced(hosts) <==> p.host in hosts && p.guest in p.host.guests
  {
    if |hosts| > 0 {
      var front, last := hosts[..|hosts| - 1], hosts[|hosts| - 1];
      AllPlacedHolds(front);
      assert hosts == front + [last];
      forall p
        ensures p in PlacedOn(last, last.guests) <==> p.host == last && p.guest in last.guests
      {
        if p.host == last && p.guest in last.guests {
          var i :| 0 <= i < |last.guests| && last.guests[i] == p.guest;
          assert PlacedOn(last, last.guests)[i] == p;
        }
      }
      hide PlacedOn;
    }
  }

  lemma {:induction false} ForwardersHold(placed: seq<Placed>)
    ensures forall p :: p in Forwarders(placed) <==> p in placed && IsForwarded(p.guest)
  {
    if |placed| > 0 {
      var front, last := placed[..|placed| - 1], placed[|placed| - 1];
      ForwardersHold(front);
      assert placed == front + [last];
    }
  }

  lemma {:induction false} PublishedHolds(placed: seq<Placed>)
    ensures forall c :: c in PublishedClaims(placed) <==>
              exists p <- placed :: p.guest.isContainer && p.guest.game.Game?
                && c == Claim(p.host.id, p.host.id, p.guest.id, p.guest.name, p.guest.game.ports)
  {
    if |placed| > 0 {
      var front, last := placed[..|placed| - 1], placed[|placed| - 1];
      PublishedHolds(front);
      assert placed == front + [last];
    }
  }

  lemma {:induction false} RoutesHold(answers: seq<Answer>)
    ensures forall r <- Routes(answers) :: exists a <- answers :: a.reachable && !a.direct && MadeOf(r, a)
    ensures forall a <- answers :: a.reachable && !a.direct ==> exists r <- Routes(answers) :: MadeOf(r, a)
  {
    if |answers| > 0 {
      var front, last := answers[..|answers| - 1], answers[|answers| - 1];
      RoutesHold(front);
      assert answers == front + [last];
      var r := Route(last.server.host.id, last.server.guest, last.chain, TargetIp(last.server.host, last.server.guest));
      assert MadeOf(r, last);
      assert Routes(answers) == Routes(front) + if last.reachable && !last.direct then [r] else [];
      hide MadeOf, Routes;
      forall s | s in Routes(answers)
        ensures exists a <- answers :: a.reachable && !a.direct && MadeOf(s, a)
      {
        if s in Routes(front) {
          var a :| a in front && a.reachable && !a.direct && MadeOf(s, a);
          assert a in answers;
        } else {
          assert last in answers;
        }
      }
    }
  }

  ghost predicate MadeOf(r: Route, a: Answer) {
    && r.host == a.server.host.id && r.guest == a.server.guest && r.chain == a.chain
    && ReachedAt(a.server.host, a.server.guest, r.targetIp)
  }

  lemma ServersHold(answers: seq<Answer>)
    ensures forall a <- answers :: a.server in Servers(answers)
    ensures forall p <- Servers(answers) :: exists a <- answers :: a.server == p
  {
    forall a | a in answers
      ensures a.server in Servers(answers)
    {
      var i :| 0 <= i < |answers| && answers[i] == a;
      assert Servers(answers)[i] == a.server;
    }
  }

  lemma RoutesLeadThere(devices: map<Id, Device>, arcs: set<(Id, Id)>, hosts: seq<Device>, answers: seq<Answer>,
                        claims: seq<Claim>, routes: seq<Route>, issues: seq<Issue>)
    requires Accounts(devices, arcs, AllPlaced(hosts), answers, claims, routes) && Remarked(answers, issues)
    ensures RoutesLead(devices, arcs, hosts, routes, issues)
  {
    hide AllPlaced, Forwarders, Servers, Routes, NamesTranslators, LeadsTo, PublishedClaims, Answered, TargetIp;
    NatAnswers(devices, arcs, answers);
    forall r | r in routes
      ensures exists h, g :: h in hosts && g in h.guests && LeadsTo(devices, arcs, r, h, g)
    {
      var a := AnswerOfRoute(answers, r);
      PlacedOfAnswer(hosts, answers, a);
      MadeLeads(devices, arcs, a, r);
    }
    forall h, g | h in hosts && g in h.guests && IsForwarded(g)
      ensures || (exists r :: r in routes && LeadsTo(devices, arcs, r, h, g))
              || (PublicHostDirect(h.id, g.id) in issues && NamesTranslators(devices, arcs, h.id, [], true, true))
              || (NoWanPath(h.id, g.id) in issues && NamesTranslators(devices, arcs, h.id, [], false, false))
    {
      var a := AnswerOfServer(hosts, answers, h, g);
      if a.reachable && !a.direct {
        var r := RouteOfAnswer(answers, a);
        MadeLeads(devices, arcs, a, r);
      } else {
        assert RemarkOf(a, if a.direct then PublicHostDirect(h.id, g.id) else NoWanPath(h.id, g.id));
      }
    }
  }

  lemma RemarksMeanThat(devices: map<Id, Device>, arcs: set<(Id, Id)>, hosts: seq<Device>, answers: seq<Answer>,
                        claims: seq<Claim>, routes: seq<Route>, issues: seq<Issue>)
    requires Accounts(devices, arcs, AllPlaced(hosts), answers, claims, routes) && Remarked(answers, issues)
    ensures RemarksMeant(devices, arcs, hosts, routes, issues)
  {
    hide AllPlaced, Forwarders, Servers, Routes, NamesTranslators, PublishedClaims, Answered, TargetIp, RemarkOf,
      Unrouted;
    forall h, g, direct | (if direct then PublicHostDirect(h, g) else NoWanPath(h, g)) in issues
      ensures Unrouted(devices, arcs, hosts, h, g, direct)
    {
      var a :| a in answers && RemarkOf(a, if direct then PublicHostDirect(h, g) else NoWanPath(h, g));
      RemarkUnrouted(devices, arcs, hosts, answers, a, h, g, direct);
    }
    forall h, g
      ensures DoubleNat(h, g) in issues <==> exists r <- routes :: r.host == h && r.guest.id == g && |r.chain| > 1
    {
      RemarkOnRoute(answers, DoubleNat(h, g));
    }
    forall h, g
      ensures ServerNoAddress(h, g) in issues <==>
              exists r <- routes :: r.host == h && r.guest.id == g && r.targetIp == ""
    {
      RemarkOnRoute(answers, ServerNoAddress(h, g));
    }
    assert forall h, g | NoWanPath(h, g) in issues :: Unrouted(devices, arcs, hosts, h, g, false);
    assert forall h, g | PublicHostDirect(h, g) in issues :: Unrouted(devices, arcs, hosts, h, g, true);
  }

  lemma RemarkUnrouted(devices: map<Id, Device>, arcs: set<(Id, Id)>, hosts: seq<Device>, answers: seq<Answer>,
                       a: Answer, host: Id, guest: Id, direct: bool)
    requires Servers(answers) == Forwarders(AllPlaced(hosts)) && a in answers
    requires forall a <- answers :: Answered(devices, arcs, a)
    requires RemarkOf(a, if direct then PublicHostDirect(host, guest) else NoWanPath(host, guest))
    ensures Unrouted(devices, arcs, hosts, host, guest, direct)
  {
    hide AllPlaced, Forwarders, Servers, NamesTranslators, Answered, TargetIp;
    NatAnswers(devices, arcs, answers);
    PlacedOfAnswer(hosts, answers, a);
  }

  lemma RemarkOnRoute(answers: seq<Answer>, i: Issue)
    requires i.DoubleNat? || i.ServerNoAddress?
    ensures (exists a <- answers :: RemarkOf(a, i)) <==>
            exists r <- Routes(answers) :: r.host == i.host && r.guest.id == i.guest
                                           && if i.DoubleNat? then |r.chain| > 1 else r.targetIp == ""
  {
    hide Routes;
    RoutesHold(answers);
  }

  lemma AnswerOfRoute(answers: seq<Answer>, r: Route) returns (a: Answer)
    requires r in Routes(answers)
    ensures a in answers && a.reachable && !a.direct && MadeOf(r, a)
  {
    RoutesHold(answers);
    a :| a in answers && a.reachable && !a.direct && MadeOf(r, a);
  }

  lemma RouteOfAnswer(answers: seq<Answer>, a: Answer) returns (r: Route)
    requires a in answers && a.reachable && !a.direct
    ensures r in Routes(answers) && MadeOf(r, a)
  {
    RoutesHold(answers);
    r :| r in Routes(answers) && MadeOf(r, a);
  }

  lemma PlacedOfAnswer(hosts: seq<Device>, answers: seq<Answer>, a: Answer)
    requires Servers(answers) == Forwarders(AllPlaced(hosts)) && a in answers
    ensures a.server.host in hosts && a.server.guest in a.server.host.guests && IsForwarded(a.server.guest)
  {
    ServersHold(answers);
    hide AllPlaced, Forwarders, Servers;
    ForwardersHold(AllPlaced(hosts));
    AllPlacedHolds(hosts);
  }

  lemma AnswerOfServer(hosts: seq<Device>, answers: seq<Answer>, host: Device, guest: Guest) returns (a: Answer)
    requires Servers(answers) == Forwarders(AllPlaced(hosts))
    requires host in hosts && guest in host.guests && IsForwarded(guest)
    ensures a in answers && a.server == Placed(host, guest)
  {
    hide AllPlaced, Forwarders, Servers;
    AllPlacedHolds(hosts);
    ForwardersHold(AllPlaced(hosts));
    ServersHold(answers);
    assert Placed(host, guest) in Servers(answers);
    a :| a in answers && a.server == Placed(host, guest);
  }

  lemma MadeLeads(devices: map<Id, Device>, arcs: set<(Id, Id)>, a: Answer, r: Route)
    requires MadeOf(r, a) && IsForwarded(a.server.guest) && |a.chain| > 0
    requires NamesTranslators(devices, arcs, a.server.host.id, a.chain, false, true)
    ensures LeadsTo(devices, arcs, r, a.server.host, a.server.guest)
  {
  }

  lemma NatAnswers(devices: map<Id, Device>, arcs: set<(Id, Id)>, answers: seq<Answer>)
    requires forall a <- answers :: Answered(devices, arcs, a)
    ensures forall a <- answers ::
              && NamesTranslators(devices, arcs, a.server.host.id, a.chain, a.direct, a.reachable)
              && (a.direct || !a.reachable ==> a.chain == []) && (a.direct ==> a.reachable)
              && (a.reachable && !a.direct ==> |a.chain| > 0)
  {
    forall a | a in answers
      ensures NamesTranslators(devices, arcs, a.server.host.id, a.chain, a.direct, a.reachable)
    {
      assert Answered(devices, arcs, a);
      ChainNames(devices, arcs, a.server.host.id, a.chain, a.direct, a.reachable);
    }
  }

  lemma HostClashMeans(hosts: seq<Device>, host: Id)
    ensures ClashOn(PublishedClaims(AllPlaced(hosts)), host) <==> ContainersClash(hosts, host)
  {
    var claims := PublishedClaims(AllPlaced(hosts));
    hide AllPlaced, PublishedClaims, Publishes, Claims;
    if ClashOn(claims, host) {
      var key: Key :| key.device == host && Clash(claims, key);
      var c, d :| c in claims && d in claims && Claims(c, key) && Claims(d, key) && c.name != d.name;
      var a, p := GuestOfClaim(hosts, c, key);
      var b, q := GuestOfClaim(hosts, d, key);
    }
    if ContainersClash(hosts, host) {
      var a, b, p, q :| Publishes(hosts, host, a, p) && Publishes(hosts, host, b, q)
                        && a.name != b.name && p.proto == q.proto && p.number == q.number;
      var c := ClaimOf(hosts, host, a, p);
      var d := ClaimOf(hosts, host, b, q);
      assert Clash(claims, Key(host, p.proto, p.number));
    }
  }

  lemma GuestOfClaim(hosts: seq<Device>, c: Claim, key: Key) returns (guest: Guest, p: Port)
    requires c in PublishedClaims(AllPlaced(hosts)) && Claims(c, key)
    ensures guest.name == c.name && Publishes(hosts, key.device, guest, p)
    ensures p.proto == key.proto && p.number == key.number
  {
    hide AllPlaced, PublishedClaims;
    AllPlacedHolds(hosts);
    PublishedHolds(AllPlaced(hosts));
    var x :| x in AllPlaced(hosts) && x.guest.isContainer && x.guest.game.Game?
             && c == Claim(x.host.id, x.host.id, x.guest.id, x.guest.name, x.guest.game.ports);
    guest := x.guest;
    p :| p in c.ports && p.proto == key.proto && p.number == key.number;
  }

  lemma ClaimOf(hosts: seq<Device>, host: Id, guest: Guest, p: Port) returns (c: Claim)
    requires Publishes(hosts, host, guest, p)
    ensures c in PublishedClaims(AllPlaced(hosts)) && c.name == guest.name && Claims(c, Key(host, p.proto, p.number))
  {
    AllPlacedHolds(hosts);
    PublishedHolds(AllPlaced(hosts));
    var h :| h in hosts && h.id == host && guest in h.guests;
    c := Claim(host, host, guest.id, guest.name, guest.game.ports);
    assert Placed(h, guest) in AllPlaced(hosts);
  }

  lemma RouteClashMeans(routes: seq<Route>, key: Key)
    requires AllValid(routes)
    ensures Clash(RouteClaims(routes), key) <==> RoutesClash(routes, key)
  {
    var claims := RouteClaims(routes);
    if Clash(claims, key) {
      var c, d :| c in claims && d in claims && Claims(c, key) && Claims(d, key) && c.name != d.name;
      var r, p := RouteOfClaim(routes, c, key);
      var s, q := RouteOfClaim(routes, d, key);
    }
    if RoutesClash(routes, key) {
      var r, s, p, q :| r in routes && s in routes && NeedsForward(r, key, p) && NeedsForward(s, key, q)
                        && r.guest.name != s.guest.name;
      ClaimOfRoute(routes, r, key, p);
      ClaimOfRoute(routes, s, key, q);
    }
  }

  lemma RouteOfClaim(routes: seq<Route>, c: Claim, key: Key) returns (r: Route, p: Port)
    requires AllValid(routes) && c in RouteClaims(routes) && Claims(c, key)
    ensures r in routes && r.guest.name == c.name && NeedsForward(r, key, p)
  {
    var i :| 0 <= i < |routes| && RouteClaims(routes)[i] == c;
    r := routes[i];
    ForwardedPortsHold(r.guest.game.ports);
    p :| p in c.ports && p.proto == key.proto && p.number == key.number;
  }

  lemma ClaimOfRoute(routes: seq<Route>, r: Route, key: Key, p: Port)
    requires r in routes && NeedsForward(r, key, p)
    ensures RouteClaim(r) in RouteClaims(routes) && Claims(RouteClaim(r), key) && RouteClaim(r).name == r.guest.name
  {
    var i :| 0 <= i < |routes| && routes[i] == r;
    assert RouteClaims(routes)[i] == RouteClaim(r);
    ForwardedPortsHold(r.guest.game.ports);
  }

  ghost predicate AllValid(routes: seq<Route>) {
    forall r <- routes :: ValidRoute(r)
  }

  /** What the report says of the containers' ports. */
  ghost predicate HostTells(claims: seq<Claim>, table: map<Key, string>, issues: seq<Issue>) {
    Known(claims, table) && Published(claims, table, issues) && HostReportsReal(claims, issues)
  }

  /** What the report says of the forwarded ports. */
  ghost predicate ForwardTells(routes: seq<Route>, table: map<Key, string>, forwards: seq<PortForward>,
                               issues: seq<Issue>)
  {
    && AllValid(routes) && forwards == Rules(routes)
    && Known(RouteClaims(routes), table)
    && Forwarding(RouteClaims(routes), table, issues)
    && ForwardReportsReal(RouteClaims(routes), issues)
  }

  /** The report of a container's first conflict, if it has one. */
  function FirstConflict(table: map<Key, string>, c: Claim, conflict: Option<Key>): (more: seq<Issue>)
    requires conflict.Some? ==> conflict.value in table
  {
    if conflict.None? then [] else [HostPortConflict(c.host, c.guest, conflict.value, table[conflict.value])]
  }

  /** How far the loop over a container's ports came. */
  ghost predicate Stopped(table: map<Key, string>, c: Claim, entered: seq<Port>, conflict: Option<Key>) {
    && entered <= c.ports
    && match conflict
       case None => entered == c.ports && !Taken(table, c.device, c.name, c.ports)
       case Some(key) => TakenAt(table, c.device, c.name, c.ports, key)
  }

  /** One container more, whether its ports clash or not. */
  lemma HostTellsMore(claims: seq<Claim>, table: map<Key, string>, issues: seq<Issue>, c: Claim, entered: seq<Port>,
                      conflict: Option<Key>)
    requires HostTells(claims, table, issues) && Stopped(table, c, entered, conflict) && c.device == c.host
    ensures HostTells(claims + [c], Entered(table, c.device, c.name, entered),
                      issues + FirstConflict(table, c, conflict))
  {
    EnteredKnown(claims, table, c, entered);
    if conflict.Some? {
      PublishedUntilConflict(claims, table, issues, c, entered, conflict.value);
    } else {
      PublishedMore(claims, table, issues, c);
      HostReportsStayReal(claims, c, issues);
      assert issues + [] == issues;
    }
  }

  /** An issue of another kind changes neither side. */
  lemma OtherIssue(claims: seq<Claim>, table: map<Key, string>, routes: seq<Route>, keys: map<Key, string>,
                   forwards: seq<PortForward>,
                   issues: seq<Issue>, issue: Issue)
    ensures !issue.HostPortConflict? && HostTells(claims, table, issues) ==> HostTells(claims, table, issues + [issue])
    ensures !issue.PortConflict? && ForwardTells(routes, keys, forwards, issues) ==>
              ForwardTells(routes, keys, forwards, issues + [issue])
  {
    ReportsMore(issues, issue);
  }

  lemma PublishedTells(claims: seq<Claim>, table: map<Key, string>, routes: seq<Route>, keys: map<Key, string>,
                       forwards: seq<PortForward>,
                       issues: seq<Issue>, c: Claim, entered: seq<Port>, conflict: Option<Key>)
    requires HostTells(claims, table, issues) && ForwardTells(routes, keys, forwards, issues)
    requires Stopped(table, c, entered, conflict) && c.device == c.host
    ensures var reports := issues + FirstConflict(table, c, conflict);
            && HostTells(claims + [c], Entered(table, c.device, c.name, entered), reports)
            && ForwardTells(routes, keys, forwards, reports)
  {
    HostTellsMore(claims, table, issues, c, entered, conflict);
    if conflict.Some? {
      OtherIssue(claims, table, routes, keys, forwards, issues, FirstConflict(table, c, conflict)[0]);
    } else {
      assert issues + [] == issues;
    }
  }

  ghost predicate Answered(devices: map<Id, Device>, arcs: set<(Id, Id)>, a: Answer) {
    ChainOf(devices, arcs, a.server.host.id, a.chain, a.direct, a.reachable)
  }

  /** The claims are those of the servers looked at, and every server set to port
      forwarding has its answer. */
  ghost predicate Accounts(
    devices: map<Id, Device>, arcs: set<(Id, Id)>, placed: seq<Placed>, answers: seq<Answer>, claims: seq<Claim>,
    routes: seq<Route>)
  {
    && claims == PublishedClaims(placed) && routes == Routes(answers)
    && Servers(answers) == Forwarders(placed)
    && forall a <- answers :: Answered(devices, arcs, a)
  }

  lemma AccountsMore(
    devices: map<Id, Device>, arcs: set<(Id, Id)>, placed: seq<Placed>, answers: seq<Answer>, claims: seq<Claim>,
    routes: seq<Route>,
    p: Placed, more: seq<Answer>, claimed: seq<Claim>, routed: seq<Route>)
    requires Accounts(devices, arcs, placed, answers, claims, routes)
    requires claimed == claims + if p.guest.game.Game? && p.guest.isContainer then [HostClaim(p)] else []
    requires if p.guest.game.Game? && p.guest.game.exposure.Forwarded?
             then |more| == |answers| + 1 && more[..|answers|] == answers && more[|answers|].server == p
               && Answered(devices, arcs, more[|answers|])
             else more == answers
    requires routed == Routes(more)
    ensures Accounts(devices, arcs, placed + [p], more, claimed, routed)
  {
    hide Answered, PublishedClaims, Forwarders, Routes, Servers;
    PlacedMore(placed, p);
    if p.guest.game.Game? && p.guest.game.exposure.Forwarded? {
      var a := more[|answers|];
      assert more == answers + [a];
      AnsweredMore(answers, a);
    }
  }

  /** Said of a server set to port forwarding besides its port conflicts. */
  ghost predicate RemarkOf(a: Answer, i: Issue) {
    var host, guest := a.server.host.id, a.server.guest.id;
    || (i == NoWanPath(host, guest) && !a.reachable)
    || (i == PublicHostDirect(host, guest) && a.reachable && a.direct)
    || (i == ServerNoAddress(host, guest) && a.reachable && !a.direct
        && TargetIp(a.server.host, a.server.guest) == "")
    || (i == DoubleNat(host, guest) && a.reachable && !a.direct && |a.chain| > 1)
  }

  predicate IsRemark(i: Issue) {
    !i.HostPortConflict? && !i.PortConflict?
  }

  ghost predicate Remarked(answers: seq<Answer>, issues: seq<Issue>) {
    forall i | IsRemark(i) :: i in issues <==> exists a <- answers :: RemarkOf(a, i)
  }

  ghost predicate SameRemarks(before: seq<Issue>, after: seq<Issue>) {
    forall i | IsRemark(i) :: i in before <==> i in after
  }

  lemma RemarkedMore(answers: seq<Answer>, issues: seq<Issue>, a: Answer, after: seq<Issue>)
    requires Remarked(answers, issues)
    requires forall i | IsRemark(i) :: i in after <==> i in issues || RemarkOf(a, i)
    ensures Remarked(answers + [a], after)
  {
    hide RemarkOf;
    forall i | IsRemark(i)
      ensures i in after <==> exists b <- answers + [a] :: RemarkOf(b, i)
    {
      assert a in answers + [a];
      if i in issues {
        var b :| b in answers && RemarkOf(b, i);
        assert b in answers + [a];
      }
    }
  }

  class ReportBuilder {
    const devices: map<Id, Device>
    const graph: map<Id, seq<Id>>
    var hostPorts: map<Key, string>
    var forwardKeys: map<Key, string>
    var forwards: seq<PortForward>
    var issues: seq<Issue>
    ghost var placed: seq<Placed>
    ghost var answers: seq<Answer>
    ghost var claims: seq<Claim>
    ghost var routes: seq<Route>

    ghost predicate Sides()
      reads this
    {
      HostTells(claims, hostPorts, issues) && ForwardTells(routes, forwardKeys, forwards, issues)
    }

    /** The servers looked at, and what they claim. */
    ghost predicate Accounted()
      reads this
    {
      Accounts(devices, Arcs(graph), placed, answers, claims, routes)
    }

    constructor (devices: map<Id, Device>, graph: map<Id, seq<Id>>)
      ensures this.devices == devices && this.graph == graph
      ensures placed == [] && Sides() && Accounted() && Remarked(answers, issues)
    {
      this.devices, this.graph := devices, graph;
      hostPorts, forwardKeys, forwards, issues := map[], map[], [], [];
      placed, answers, claims, routes := [], [], [], [];
    }

    method Add(issue: Issue)
      requires IsRemark(issue) && Sides()
      modifies this`issues
      ensures issues == old(issues) + [issue] && Sides()
    {
      OtherIssue(claims, hostPorts, routes, forwardKeys, forwards, issues, issue);
      issues := issues + [issue];
    }

    /** Enters the ports of a container, up to the first one another server holds. */
    method PublishPorts(host: Device, guest: Guest)
      requires guest.game.Game? && guest.isContainer && Sides()
      modifies this`hostPorts, this`issues, this`claims
      ensures claims == old(claims) + [HostClaim(Placed(host, guest))] && Sides()
      ensures SameRemarks(old(issues), issues)
    {
      hide HostTells, ForwardTells;
      ghost var claim := HostClaim(Placed(host, guest));
      var table, conflict, entered := EnterPorts(hostPorts, host.id, guest.name, guest.game.ports);
      assert Stopped(hostPorts, claim, entered, conflict);
      PublishedTells(claims, hostPorts, routes, forwardKeys, forwards, issues, claim, entered, conflict);
      if conflict.Some? {
        issues := issues + [HostPortConflict(host.id, guest.id, conflict.value, hostPorts[conflict.value])];
      } else {
        assert issues + [] == issues;
      }
      hostPorts, claims := table, claims + [claim];
    }

    /** Enters the forwarded ports of a server and its rules on every router of the chain. */
    method ForwardPorts(r: Route)
      requires ValidRoute(r) && Sides()
      modifies this`forwardKeys, this`forwards, this`issues, this`routes
      ensures routes == old(routes) + [r] && Sides()
      ensures SameRemarks(old(issues), issues)
    {
      var table, found, rules := EnterForwards(forwardKeys, r);
      ForwardTellsMore(claims, hostPorts, routes, forwardKeys, forwards, issues, r, found);
      forwardKeys, issues, forwards, routes := table, issues + found, forwards + rules, routes + [r];
    }

    /** A server set to port forwarding: rules when it is reached through a
        translation, a remark otherwise. */
    method ForwardServer(host: Device, guest: Guest, targetIp: string)
      requires guest.game.Game? && targetIp == TargetIp(host, guest) && Sides() && routes == Routes(answers)
      requires Remarked(answers, issues)
      modifies this`issues, this`forwardKeys, this`forwards, this`routes, this`answers
      ensures answers != [] && answers[..|answers| - 1] == old(answers)
              && answers[|answers| - 1].server == Placed(host, guest)
      ensures var a := answers[|answers| - 1]; ChainOf(devices, Arcs(graph), host.id, a.chain, a.direct, a.reachable)
      ensures routes == Routes(answers) && Sides() && Remarked(answers, issues)
    {
      hide HostTells, ForwardTells, WayOut, NamesTranslators;
      var chain, direct, reachable := NatChain(devices, graph, host.id);
      ghost var answer := Answer(Placed(host, guest), chain, direct, reachable);
      AnsweredMore(answers, answer);
      if !reachable {
        Add(NoWanPath(host.id, guest.id));
      } else if direct {
        Add(PublicHostDirect(host.id, guest.id));
      } else {
        if targetIp == "" {
          Add(ServerNoAddress(host.id, guest.id));
        }
        ForwardPorts(Route(host.id, guest, chain, targetIp));
        if |chain| > 1 {
          Add(DoubleNat(host.id, guest.id));
        }
      }
      RemarkedMore(answers, old(issues), answer, issues);
      answers := answers + [answer];
    }

    /** One guest of one host. */
    method AddServer(host: Device, guest: Guest)
      requires Sides() && Accounted() && Remarked(answers, issues)
      modifies this
      ensures placed == old(placed) + [Placed(host, guest)] && Sides() && Accounted() && Remarked(answers, issues)
    {
      ghost var before, arcs, p := answers, Arcs(graph), Placed(host, guest);
      ghost var claimed := claims;
      assert routes == Routes(answers);
      AddGame(host, guest);
      AccountsMore(devices, arcs, placed, before, claimed, old(routes), p, answers, claims, routes);
      placed := placed + [p];
    }

    /** What the two kinds of port need of one guest. */
    method AddGame(host: Device, guest: Guest)
      requires Sides() && routes == Routes(answers) && Remarked(answers, issues)
      modifies this`hostPorts, this`forwardKeys, this`forwards, this`issues, this`answers, this`claims, this`routes
      ensures Sides() && routes == Routes(answers) && Remarked(answers, issues)
      ensures claims == old(claims) + if guest.game.Game? && guest.isContainer then [HostClaim(Placed(host, guest))]
              else []
      ensures if guest.game.Game? && guest.game.exposure.Forwarded?
              then |answers| == |old(answers)| + 1 && answers[..|old(answers)|] == old(answers)
                   && answers[|answers| - 1].server == Placed(host, guest)
                      && Answered(devices, Arcs(graph), answers[|answers| - 1])
              else answers == old(answers)
    {
      hide HostTells, ForwardTells, ChainOf;
      if !guest.game.Game? {
        return;
      }
      var targetIp := guest.ip;
      if guest.isContainer || targetIp == "" {
        targetIp := host.ip;
      }
      if guest.isContainer {
        PublishPorts(host, guest);
      }
      if guest.game.exposure.Forwarded? {
        ForwardServer(host, guest, targetIp);
      }
    }
  }

  lemma AnsweredMore(answers: seq<Answer>, a: Answer)
    ensures Servers(answers + [a]) == Servers(answers) + [a.server]
    ensures Routes(answers + [a]) ==
            Routes(answers)
            + if a.reachable && !a.direct
              then [Route(a.server.host.id, a.server.guest, a.chain, TargetIp(a.server.host, a.server.guest))] else []
  {
    assert (answers + [a])[..|answers|] == answers;
  }

  /** One forwarded port: a conflict is reported and the port taken over all the same. */
  method EnterForward(ghost table: map<Key, string>, entered: map<Key, string>, found: seq<Issue>, r: Route,
                      ghost front: seq<Port>, port: Port)
    returns (after: map<Key, string>, more: seq<Issue>)
    requires ValidRoute(r) && entered == Entered(table, r.chain[0].id, r.guest.name, front)
    requires ConflictsOf(table, RouteClaim(r).(ports := front), found)
    ensures after == Entered(table, r.chain[0].id, r.guest.name, front + [port])
    ensures ConflictsOf(table, RouteClaim(r).(ports := front + [port]), more)
  {
    ghost var c := RouteClaim(r);
    var edge, name := r.chain[0].id, r.guest.name;
    var key := Key(edge, port.proto, port.number);
    EnteredOneMore(table, edge, name, front, port);
    ConflictsMore(table, c, front, port, found);
    more := found;
    if key in entered && entered[key] != name {
      more := found + [PortConflict(r.host, r.guest.id, key, entered[key])];
    }
    after := entered[key := name];
  }

  lemma ConflictsMore(table: map<Key, string>, c: Claim, front: seq<Port>, port: Port, found: seq<Issue>)
    requires ConflictsOf(table, c.(ports := front), found)
    ensures var key, entered := Key(c.device, port.proto, port.number), Entered(table, c.device, c.name, front);
            ConflictsOf(table, c.(ports := front + [port]),
                        if key in entered && entered[key] != c.name then found
                          + [PortConflict(c.host, c.guest, key, entered[key])] else found)
  {
    var key, entered := Key(c.device, port.proto, port.number), Entered(table, c.device, c.name, front);
    var issue := PortConflict(c.host, c.guest, key, if key in entered then entered[key] else "");
    var more := if key in entered && entered[key] != c.name then found + [issue] else found;
    hide TakenAt, Entered;
    ReportsMore(found, issue);
    forall i | i in more
      ensures i.PortConflict? && i.host == c.host && i.guest == c.guest
              && TakenAt(table, c.device, c.name, front + [port], i.key) && i.key in table && i.other == table[i.key]
    {
      OnePortMore(table, c.device, c.name, front, port, i.key);
    }
    forall k | TakenAt(table, c.device, c.name, front + [port], k)
      ensures ForwardReported(more, k)
    {
      OnePortMore(table, c.device, c.name, front, port, k);
    }
  }

  /** The loop over a route's ports, with a rule for each on every router of the chain. */
  method EnterForwards(table: map<Key, string>, r: Route)
    returns (after: map<Key, string>, found: seq<Issue>, rules: seq<PortForward>)
    requires ValidRoute(r)
    ensures after == Entered(table, r.chain[0].id, r.guest.name, RouteClaim(r).ports)
    ensures ConflictsOf(table, RouteClaim(r), found)
    ensures rules == RulesForPorts(r, r.guest.game.ports)
  {
    ghost var edge, name, c := r.chain[0].id, r.guest.name, RouteClaim(r);
    var ports := r.guest.game.ports;
    after, found, rules := table, [], [];
    ghost var front: seq<Port> := [];
    for j := 0 to |ports|
      invariant front == ForwardedPorts(ports[..j]) && after == Entered(table, edge, name, front)
      invariant ConflictsOf(table, c.(ports := front), found)
      invariant rules == RulesForPorts(r, ports[..j])
    {
      assert ports[..j + 1][..j] == ports[..j];
      if !ports[j].forward {
        continue;
      }
      after, found := EnterForward(table, after, found, r, front, ports[j]);
      front := front + [ports[j]];
      var hops := RelayRules(r, ports[j]);
      rules := rules + hops;
    }
    assert ports[..|ports|] == ports;
    assert c.(ports := front) == c;
  }

  method RelayRules(r: Route, port: Port) returns (rules: seq<PortForward>)
    ensures rules == RulesForPort(r, port)
  {
    rules := [];
    for hop := 0 to |r.chain|
      invariant rules == RulesForPort(r, port)[..hop]
    {
      var router, target := r.chain[hop], r.targetIp;
      if hop + 1 < |r.chain| {
        target := r.chain[hop + 1].ip;
      }
      rules := rules + [PortForward(router.id, r.guest.id, r.guest.name, port.proto, port.number, target, port.number,
                                    hop + 1)];
    }
  }

  /** Conflicts over forwards say nothing of the containers. */
  lemma HostTellsSame(claims: seq<Claim>, table: map<Key, string>, issues: seq<Issue>, found: seq<Issue>)
    requires HostTells(claims, table, issues) && forall i :: i in found ==> i.PortConflict?
    ensures HostTells(claims, table, issues + found)
  {
    var reports := issues + found;
    assert forall i :: i in reports <==> i in issues || i in found;
    forall host ensures HostReported(reports, host) <==> HostReported(issues, host) {
    }
  }

  lemma RoutesMore(routes: seq<Route>, r: Route)
    requires AllValid(routes) && ValidRoute(r)
    ensures RouteClaims(routes + [r]) == RouteClaims(routes) + [RouteClaim(r)]
    ensures AllValid(routes + [r]) && Rules(routes + [r]) == Rules(routes) + RulesForPorts(r, r.guest.game.ports)
  {
    assert (routes + [r])[..|routes|] == routes;
  }

  lemma ForwardTellsMore(claims: seq<Claim>, table: map<Key, string>, routes: seq<Route>, keys: map<Key, string>,
                         forwards: seq<PortForward>,
                         issues: seq<Issue>, r: Route, found: seq<Issue>)
    requires HostTells(claims, table, issues) && ForwardTells(routes, keys, forwards, issues) && ValidRoute(r)
    requires ConflictsOf(keys, RouteClaim(r), found)
    ensures HostTells(claims, table, issues + found)
    ensures ForwardTells(routes + [r], Entered(keys, r.chain[0].id, r.guest.name, RouteClaim(r).ports),
                         forwards + RulesForPorts(r, r.guest.game.ports), issues + found)
  {
    HostTellsSame(claims, table, issues, found);
    var claim := RouteClaim(r);
    RoutesMore(routes, r);
    EnteredKnown(RouteClaims(routes), keys, claim, claim.ports);
    ForwardedMore(RouteClaims(routes), keys, issues, claim, found);
    ForwardReportsStayReal(RouteClaims(routes), keys, issues, claim, found);
  }

  lemma PlacedMore(placed: seq<Placed>, p: Placed)
    ensures PublishedClaims(placed + [p]) ==
            PublishedClaims(placed)
            + if p.guest.game.Game? && p.guest.isContainer then [HostClaim(p)] else []
    ensures Forwarders(placed + [p]) ==
            Forwarders(placed) + if p.guest.game.Game? && p.guest.game.exposure.Forwarded? then [p] else []
  {
    assert (placed + [p])[..|placed|] == placed;
  }

  /** The loop over a container's ports: stops at the first port that another
      server has published on the device. */
  method EnterPorts(table: map<Key, string>, device: Id, name: string, ports: seq<Port>)
    returns (after: map<Key, string>, conflict: Option<Key>, ghost entered: seq<Port>)
    ensures after == Entered(table, device, name, entered) && entered <= ports
    ensures match conflict
            case None => entered == ports && !Taken(table, device, name, ports)
            case Some(key) => TakenAt(table, device, name, ports, key) && !Taken(table, device, name, entered)
  {
    after := table;
    for j := 0 to |ports|
      invariant after == Entered(table, device, name, ports[..j])
      invariant !Taken(table, device, name, ports[..j])
    {
      var key := Key(device, ports[j].proto, ports[j].number);
      forall k {
        OnePortMore(table, device, name, ports[..j], ports[j], k);
      }
      EnteredOneMore(table, device, name, ports[..j], ports[j]);
      assert ports[..j + 1] == ports[..j] + [ports[j]];
      if key in after && after[key] != name {
        TakenMore(table, device, name, ports[..j + 1], ports, key);
        return after, Some(key), ports[..j];
      }
      after := after[key := name];
    }
    assert ports[..|ports|] == ports;
    return after, None, ports;
  }

  lemma TakenMore(table: map<Key, string>, device: Id, name: string, some: seq<Port>, ports: seq<Port>, key: Key)
    requires TakenAt(table, device, name, some, key) && forall p <- some :: p in ports
    ensures TakenAt(table, device, name, ports, key)
  {
  }

  lemma EnteredOneMore(table: map<Key, string>, device: Id, name: string, front: seq<Port>, port: Port)
    ensures Entered(table, device, name, front + [port]) ==
            Entered(table, device, name, front)[Key(device, port.proto, port.number) := name]
  {
    assert (front + [port])[..|front|] == front;
  }

  /** Whether one more port is held by another server, seen in the table as it is by then. */
  lemma OnePortMore(table: map<Key, string>, device: Id, name: string, front: seq<Port>, port: Port, k: Key)
    ensures var key, entered := Key(device, port.proto, port.number), Entered(table, device, name, front);
            && (TakenAt(table, device, name, front + [port], k) <==>
                  TakenAt(table, device, name, front, k) || (k == key && key in entered && entered[key] != name))
            && (key in entered && entered[key] != name ==> key in table && entered[key] == table[key])
  {
    EnteredHolds(table, device, name, front);
    assert port in front + [port];
    assert forall p :: p in front + [port] <==> p in front || p == port;
  }

  // ---- what the rules do ----

  /** The rule list sends a port that arrives at a router on to an address, for this server. */
  ghost predicate SendsOn(forwards: seq<PortForward>, server: Id, router: Id, proto: string, port: nat, hop: nat,
                          toIp: string)
  {
    exists f :: f in forwards && f.guest == server && f.router == router && f.proto == proto && f.hop == hop
      && f.externalPort == port && f.targetPort == port && f.targetIp == toIp
  }

  /** Where a router of the chain sends a port: to the next router inwards, or to this address. */
  function NextStop(chain: seq<Device>, hop: nat, ip: string): string
    requires hop < |chain|
  {
    if hop + 1 < |chain| then chain[hop + 1].ip else ip
  }

  /** A forwarded port is relayed along the whole chain: the outermost router sends
      it to the next one inwards, and so on, and the innermost to the server's address. */
  ghost predicate Relayed(forwards: seq<PortForward>, r: Route, p: Port, ip: string) {
    forall hop :: 0 <= hop < |r.chain| ==>
      SendsOn(forwards, r.guest.id, r.chain[hop].id, p.proto, p.number, hop + 1, NextStop(r.chain, hop, ip))
  }

  ghost predicate MadeFor(f: PortForward, r: Route, p: Port) {
    r.guest.game.Game? && p in r.guest.game.ports && p.forward && f in RulesForPort(r, p)
  }

  lemma {:induction false} PortRulesHold(r: Route, ports: seq<Port>)
    ensures forall f :: f in RulesForPorts(r, ports) <==> exists p :: p in ports && p.forward && f in RulesForPort(r, p)
  {
    if ports != [] {
      var front, last := ports[..|ports| - 1], ports[|ports| - 1];
      PortRulesHold(r, front);
      assert ports == front + [last];
    }
  }

  /** The rules are exactly those made for a forwarded port of a route. */
  lemma {:induction false} RulesHold(routes: seq<Route>)
    requires AllValid(routes)
    ensures forall f :: f in Rules(routes) <==> exists r, p :: r in routes && MadeFor(f, r, p)
  {
    if routes != [] {
      var front, last := routes[..|routes| - 1], routes[|routes| - 1];
      RulesHold(front);
      assert ValidRoute(last);
      PortRulesHold(last, last.guest.game.ports);
      assert routes == front + [last];
      forall f ensures f in Rules(routes) <==> exists r, p :: r in routes && MadeFor(f, r, p) {
        if f in RulesForPorts(last, last.guest.game.ports) {
          var p :| p in last.guest.game.ports && p.forward && f in RulesForPort(last, p);
          assert MadeFor(f, last, p);
        }
        if r, p :| r in routes && MadeFor(f, r, p) {
          if r in front {
            assert f in Rules(front);
          } else {
            assert f in RulesForPorts(last, last.guest.game.ports);
          }
        }
      }
    }
  }

  lemma OwnRule(routes: seq<Route>, r: Route, p: Port, hop: nat)
    requires AllValid(routes) && r in routes && p in r.guest.game.ports && p.forward && hop < |r.chain|
    ensures RuleAt(r, p, hop) in Rules(routes)
  {
    RulesHold(routes);
    assert RulesForPort(r, p)[hop] == RuleAt(r, p, hop);
    assert MadeFor(RuleAt(r, p, hop), r, p);
  }

  lemma RelayedAt(routes: seq<Route>, r: Route, p: Port, hop: nat)
    requires AllValid(routes) && r in routes && p in r.guest.game.ports && p.forward && hop < |r.chain|
    ensures SendsOn(Rules(routes), r.guest.id, r.chain[hop].id, p.proto, p.number, hop + 1,
                    NextStop(r.chain, hop, r.targetIp))
  {
    hide Rules, RulesForPort;
    OwnRule(routes, r, p, hop);
  }

  /** The last router of the chain sends a container's port to its host and any other
      guest's to the guest itself. */
  lemma RelayedEndToEnd(devices: map<Id, Device>, arcs: set<(Id, Id)>, routes: seq<Route>, r: Route, p: Port,
                        host: Device, guest: Guest, ip: string)
    requires AllValid(routes) && r in routes && LeadsTo(devices, arcs, r, host, guest) && ReachedAt(host, guest, ip)
    requires p in guest.game.ports && p.forward
    ensures Relayed(Rules(routes), r, p, ip)
  {
    hide NamesTranslators, Rules, SendsOn, NextStop;
    assert r.targetIp == ip;
    forall hop | 0 <= hop < |r.chain|
      ensures SendsOn(Rules(routes), r.guest.id, r.chain[hop].id, p.proto, p.number, hop + 1,
                      NextStop(r.chain, hop, ip))
    {
      RelayedAt(routes, r, p, hop);
    }
  }

  // ---- what a packet does ----

  predicate IsFor(f: PortForward, router: Id, proto: string, port: nat) {
    f.router == router && f.proto == proto && f.externalPort == port
  }

  /** The rule a router uses for a port: the first of the list that is for it. */
  function Lookup(forwards: seq<PortForward>, router: Id, proto: string, port: nat): (rule: Option<PortForward>)
    ensures rule.Some? ==> rule.value in forwards && IsFor(rule.value, router, proto, port)
    ensures rule.None? ==> forall f <- forwards :: !IsFor(f, router, proto, port)
  {
    if forwards == [] then None
    else if IsFor(forwards[0], router, proto, port) then Some(forwards[0])
    else Lookup(forwards[1..], router, proto, port)
  }

  /** Where a packet for a port of a router is after so many translations: each sends
      it to an address, and the next router is the one with that address. */
  function Travel(forwards: seq<PortForward>, routerAt: map<string, Id>, router: Id, proto: string, port: nat,
                  hops: nat)
    : Option<(string, nat)>
    decreases hops
  {
    var rule := Lookup(forwards, router, proto, port);
    if rule.None? then None
    else if hops <= 1 then Some((rule.value.targetIp, rule.value.targetPort))
    else if rule.value.targetIp !in routerAt then None
    else Travel(forwards, routerAt, routerAt[rule.value.targetIp], proto, rule.value.targetPort, hops - 1)
  }

  /** The route needs the port on the device, which is one of its routers. */
  ghost predicate Needs(r: Route, key: Key) {
    && r.guest.game.Game? && Has(ForwardedPorts(r.guest.game.ports), key)
    && exists hop :: 0 <= hop < |r.chain| && r.chain[hop].id == key.device
  }

  /** No other route needs the port on a router of this one's chain. */
  ghost predicate Undisputed(routes: seq<Route>, r: Route, p: Port) {
    forall s, hop :: s in routes && 0 <= hop < |r.chain| && Needs(s, Key(r.chain[hop].id, p.proto, p.number)) ==> s == r
  }

  /** The routers of a chain are found by their addresses. */
  ghost predicate FoundByAddress(routerAt: map<string, Id>, chain: seq<Device>) {
    forall hop :: 0 < hop < |chain| ==> chain[hop].ip in routerAt && routerAt[chain[hop].ip] == chain[hop].id
  }

  /** A packet that arrives at the outermost router for this port comes to this address. */
  ghost predicate Delivered(forwards: seq<PortForward>, r: Route, p: Port, ip: string) {
    |r.chain| > 0 && forall routerAt :: FoundByAddress(routerAt, r.chain) ==>
      Travel(forwards, routerAt, r.chain[0].id, p.proto, p.number, |r.chain|) == Some((ip, p.number))
  }

  lemma RuleComesFrom(routes: seq<Route>, f: PortForward) returns (s: Route, q: Port, h: nat)
    requires AllValid(routes) && f in Rules(routes)
    ensures s in routes && h < |s.chain| && f == RuleAt(s, q, h) && Needs(s, Key(f.router, f.proto, f.externalPort))
  {
    RulesHold(routes);
    s, q :| s in routes && MadeFor(f, s, q);
    h :| 0 <= h < |s.chain| && RulesForPort(s, q)[h] == f;
    ForwardedPortsHold(s.guest.game.ports);
  }

  lemma OwnRuleAt(routes: seq<Route>, r: Route, p: Port, hop: nat)
    requires AllValid(routes) && r in routes && p in r.guest.game.ports && p.forward
    requires hop < |r.chain| && Undisputed(routes, r, p)
    requires AllDifferent(r.chain)
    ensures Lookup(Rules(routes), r.chain[hop].id, p.proto, p.number) == Some(RuleAt(r, p, hop))
  {
    hide Rules, RulesForPort, Needs;
    var own, key := RuleAt(r, p, hop), Key(r.chain[hop].id, p.proto, p.number);
    OwnRule(routes, r, p, hop);
    assert IsFor(own, key.device, key.proto, key.number);
    var f := Lookup(Rules(routes), key.device, key.proto, key.number).value;
    var s, q, h := RuleComesFrom(routes, f);
    assert s == r;
  }

  lemma {:induction false} PacketTravels(routes: seq<Route>, r: Route, p: Port, routerAt: map<string, Id>, hop: nat)
    requires AllValid(routes) && r in routes && p in r.guest.game.ports && p.forward && hop < |r.chain|
    requires Undisputed(routes, r, p) && AllDifferent(r.chain) && FoundByAddress(routerAt, r.chain)
    ensures Travel(Rules(routes), routerAt, r.chain[hop].id, p.proto, p.number, |r.chain| - hop) ==
            Some((r.targetIp, p.number))
    decreases |r.chain| - hop
  {
    hide Rules, Lookup, Undisputed, AllDifferent, AllValid;
    OwnRuleAt(routes, r, p, hop);
    if hop + 1 < |r.chain| {
      PacketTravels(routes, r, p, routerAt, hop + 1);
    }
  }

  /** No chain passes a router twice. */
  lemma {:induction false} ChainsDiffer(devices: map<Id, Device>, arcs: set<(Id, Id)>, answers: seq<Answer>)
    requires NamedById(devices) && forall a <- answers :: Answered(devices, arcs, a)
    ensures forall r <- Routes(answers) :: AllDifferent(r.chain)
  {
    if |answers| > 0 {
      var front, last := answers[..|answers| - 1], answers[|answers| - 1];
      ChainsDiffer(devices, arcs, front);
      assert last in answers && Answered(devices, arcs, last);
      ChainDiffers(devices, arcs, last.server.host.id, last.chain, last.direct, last.reachable);
    }
  }

  lemma ChainDiffersOf(devices: map<Id, Device>, arcs: set<(Id, Id)>, answers: seq<Answer>, r: Route)
    requires NamedById(devices) && r in Routes(answers) && forall a <- answers :: Answered(devices, arcs, a)
    ensures AllDifferent(r.chain)
  {
    hide AllDifferent, Answered, NamedById;
    ChainsDiffer(devices, arcs, answers);
  }

  /** Looked up by router, protocol and port, and followed from router to router, a
      packet for a forwarded port of a container comes to its host, one for any other
      guest to the guest itself. */
  lemma PacketArrives(devices: map<Id, Device>, arcs: set<(Id, Id)>, answers: seq<Answer>, routes: seq<Route>,
                      r: Route, p: Port, host: Device, guest: Guest, ip: string)
    requires NamedById(devices) && routes == Routes(answers) && forall a <- answers :: Answered(devices, arcs, a)
    requires AllValid(routes) && r in routes && LeadsTo(devices, arcs, r, host, guest) && ReachedAt(host, guest, ip)
    requires p in guest.game.ports && p.forward && Undisputed(routes, r, p)
    ensures Delivered(Rules(routes), r, p, ip)
  {
    hide Rules, Routes, AllDifferent, Undisputed, NamesTranslators, Answered, NamedById, Travel,
      FoundByAddress, IsForwarded;
    assert r.targetIp == ip && r.guest == guest && |r.chain| > 0;
    ChainDiffersOf(devices, arcs, answers, r);
    forall routerAt | FoundByAddress(routerAt, r.chain)
      ensures Travel(Rules(routes), routerAt, r.chain[0].id, p.proto, p.number, |r.chain|) == Some((ip, p.number))
    {
      PacketTravels(routes, r, p, routerAt, 0);
    }
  }

  /** Every forwarded port of every routed server is relayed to the machine it runs
      on, and packets for it arrive there when no other route needs the port. */
  ghost predicate PortsReach(devices: map<Id, Device>, arcs: set<(Id, Id)>, routes: seq<Route>,
                             forwards: seq<PortForward>)
  {
    forall r, p, host, guest, ip ::
      r in routes && LeadsTo(devices, arcs, r, host, guest) && ReachedAt(host, guest, ip) && p in guest.game.ports
      && p.forward ==>
        && Relayed(forwards, r, p, ip)
        && (NamedById(devices) && Undisputed(routes, r, p) ==> Delivered(forwards, r, p, ip))
  }

  lemma AllPortsReach(devices: map<Id, Device>, arcs: set<(Id, Id)>, answers: seq<Answer>, routes: seq<Route>,
                      forwards: seq<PortForward>)
    requires AllValid(routes) && routes == Routes(answers) && forall a <- answers :: Answered(devices, arcs, a)
    requires forwards == Rules(routes)
    ensures PortsReach(devices, arcs, routes, forwards)
  {
    hide AllValid, Routes, Answered, Rules, Relayed, Delivered, NamedById, Undisputed, NamesTranslators, ReachedAt;
    forall r, p, host, guest, ip |
      r in routes && LeadsTo(devices, arcs, r, host, guest) && ReachedAt(host, guest, ip) && p in guest.game.ports
      && p.forward
      ensures Relayed(forwards, r, p, ip)
      ensures NamedById(devices) && Undisputed(routes, r, p) ==> Delivered(forwards, r, p, ip)
    {
      RelayedEndToEnd(devices, arcs, routes, r, p, host, guest, ip);
      if NamedById(devices) && Undisputed(routes, r, p) {
        PacketArrives(devices, arcs, answers, routes, r, p, host, guest, ip);
      }
    }
  }

  /** Every rule sends a forwarded port of a route on, at one router of its chain. */
  ghost predicate OnlyForRoutes(routes: seq<Route>, forwards: seq<PortForward>) {
    forall f <- forwards :: exists r, p, hop :: SendsFor(f, r, p, hop) && r in routes
  }

  ghost predicate SendsFor(f: PortForward, r: Route, p: Port, hop: nat) {
    && r.guest.game.Game? && p in r.guest.game.ports && p.forward && hop < |r.chain|
    && f.router == r.chain[hop].id && f.guest == r.guest.id && f.server == r.guest.name
    && f.proto == p.proto && f.externalPort == p.number && f.targetPort == p.number && f.hop == hop + 1
    && f.targetIp == NextStop(r.chain, hop, r.targetIp)
  }

  lemma RulesForRoutes(routes: seq<Route>)
    requires AllValid(routes)
    ensures OnlyForRoutes(routes, Rules(routes))
  {
    RulesHold(routes);
    hide Rules;
    forall f | f in Rules(routes)
      ensures exists r, p, hop :: SendsFor(f, r, p, hop) && r in routes
    {
      var r, p :| r in routes && MadeFor(f, r, p);
      var hop :| 0 <= hop < |r.chain| && RulesForPort(r, p)[hop] == f;
      assert SendsFor(f, r, p, hop);
    }
  }

  /** The rules of the outermost routers form a function: one port of one router has one rule. */
  ghost predicate EdgeRulesAreFunction(forwards: seq<PortForward>) {
    forall f, g :: f in forwards && g in forwards && SameEdgePort(f, g) ==> f == g
  }

  predicate SameEdgePort(f: PortForward, g: PortForward) {
    f.hop == 1 && g.hop == 1 && f.router == g.router && f.proto == g.proto && f.externalPort == g.externalPort
  }

  ghost predicate NamesDistinct(routes: seq<Route>) {
    forall r, s :: r in routes && s in routes && r.guest.name == s.guest.name ==> r == s
  }

  lemma EdgeRuleClaims(routes: seq<Route>, f: PortForward, r: Route, p: Port)
    requires AllValid(routes) && r in routes && MadeFor(f, r, p) && f.hop == 1
    ensures f == RuleAt(r, p, 0)
    ensures RouteClaim(r) in RouteClaims(routes) && Claims(RouteClaim(r), Key(f.router, f.proto, f.externalPort))
  {
    ForwardedPortsHold(r.guest.game.ports);
    var i :| 0 <= i < |routes| && routes[i] == r;
    assert RouteClaims(routes)[i] == RouteClaim(r);
  }

  /** With distinct server names, no reported port conflict means no port of an
      outermost router is sent to two servers. */
  lemma QuietMeansFunction(routes: seq<Route>)
    requires AllValid(routes) && NamesDistinct(routes)
    requires forall key :: !Clash(RouteClaims(routes), key)
    ensures EdgeRulesAreFunction(Rules(routes))
  {
    RulesHold(routes);
    forall f, g | f in Rules(routes) && g in Rules(routes) && SameEdgePort(f, g)
      ensures f == g
    {
      var r, p :| r in routes && MadeFor(f, r, p);
      var s, q :| s in routes && MadeFor(g, s, q);
      EdgeRuleClaims(routes, f, r, p);
      EdgeRuleClaims(routes, g, s, q);
      assert !Clash(RouteClaims(routes), Key(f.router, f.proto, f.externalPort));
    }
  }

  ghost predicate Quiet(issues: seq<Issue>) {
    forall i <- issues :: !i.PortConflict?
  }

  /** What the two sides of a report mean. */
  lemma ReportTells(claims: seq<Claim>, table: map<Key, string>, routes: seq<Route>, keys: map<Key, string>,
                    forwards: seq<PortForward>,
                    issues: seq<Issue>)
    requires HostTells(claims, table, issues) && ForwardTells(routes, keys, forwards, issues)
    ensures AllValid(routes) && forwards == Rules(routes)
    ensures HostReportsReal(claims, issues) && ForwardReportsReal(RouteClaims(routes), issues)
    ensures forall host :: HostReported(issues, host) <==> ClashOn(claims, host)
    ensures forall key :: ForwardReported(issues, key) <==> Clash(RouteClaims(routes), key)
    ensures NamesDistinct(routes) && Quiet(issues) ==> EdgeRulesAreFunction(forwards)
  {
    hide Rules, ClashOn, Clash, EdgeRulesAreFunction;
    forall host ensures HostReported(issues, host) <==> ClashOn(claims, host) {
      HostConflictsExact(claims, table, issues, host);
    }
    forall key ensures ForwardReported(issues, key) <==> Clash(RouteClaims(routes), key) {
      ForwardConflictsExact(RouteClaims(routes), keys, issues, key);
    }
    if NamesDistinct(routes) && Quiet(issues) {
      QuietMeansFunction(routes);
    }
  }

  /** The pass over every guest of every host. A host is reported exactly when its
      containers clash, a port of an outermost router exactly when two servers need
      it; what is reported names two servers that claim the port. Every forwarded
      port is relayed to its server, and packets for it arrive there when no other
      route needs it on any router of the chain. */
  method CheckServers(hosts: seq<Device>, devices: map<Id, Device>, graph: map<Id, seq<Id>>) returns (b: ReportBuilder)
    ensures b.placed == AllPlaced(hosts) && b.devices == devices && b.graph == graph
    ensures b.Accounted() && AllValid(b.routes) && b.forwards == Rules(b.routes)
    ensures RoutesLead(devices, Arcs(graph), hosts, b.routes, b.issues)
    ensures RemarksMeant(devices, Arcs(graph), hosts, b.routes, b.issues)
    ensures forall host :: HostReported(b.issues, host) <==> ContainersClash(hosts, host)
    ensures HostReportsReal(PublishedClaims(AllPlaced(hosts)), b.issues)
    ensures forall key :: ForwardReported(b.issues, key) <==> RoutesClash(b.routes, key)
    ensures ForwardReportsReal(RouteClaims(b.routes), b.issues)
    ensures NamesDistinct(b.routes) && Quiet(b.issues) ==> EdgeRulesAreFunction(b.forwards)
    ensures PortsReach(devices, Arcs(graph), b.routes, b.forwards) && OnlyForRoutes(b.routes, b.forwards)
  {
    hide HostTells, ForwardTells, HostReportsReal, ForwardReportsReal, HostReported, ForwardReported, ClashOn, Clash;
    hide Quiet, NamesDistinct, EdgeRulesAreFunction, AllValid, Rules, RouteClaims, PublishedClaims, Routes, Forwarders,
      Servers, Answered, RoutesLead, ContainersClash, RoutesClash, Remarked, RemarksMeant, PortsReach, OnlyForRoutes;
    b := new ReportBuilder(devices, graph);
    for i := 0 to |hosts|
      invariant fresh(b) && b.devices == devices && b.graph == graph
      invariant b.placed == AllPlaced(hosts[..i]) && b.Sides() && b.Accounted() && Remarked(b.answers, b.issues)
    {
      var host := hosts[i];
      assert hosts[..i + 1][..i] == hosts[..i];
      for j := 0 to |host.guests|
        invariant fresh(b) && b.devices == devices && b.graph == graph
        invariant b.placed == AllPlaced(hosts[..i]) + PlacedOn(host, host.guests[..j])
        invariant b.Sides() && b.Accounted() && Remarked(b.answers, b.issues)
      {
        assert PlacedOn(host, host.guests[..j + 1]) == PlacedOn(host, host.guests[..j])
          + [Placed(host, host.guests[j])];
        b.AddServer(host, host.guests[j]);
      }
      assert host.guests[..|host.guests|] == host.guests;
    }
    assert hosts[..|hosts|] == hosts;
    ReportTells(b.claims, b.hostPorts, b.routes, b.forwardKeys, b.forwards, b.issues);
    RoutesLeadThere(devices, Arcs(graph), hosts, b.answers, b.claims, b.routes, b.issues);
    RemarksMeanThat(devices, Arcs(graph), hosts, b.answers, b.claims, b.routes, b.issues);
    AllPortsReach(devices, Arcs(graph), b.answers, b.routes, b.forwards);
    RulesForRoutes(b.routes);
    forall host
      ensures HostReported(b.issues, host) <==> ContainersClash(hosts, host)
    {
      HostClashMeans(hosts, host);
    }
    forall key
      ensures ForwardReported(b.issues, key) <==> RoutesClash(b.routes, key)
    {
      RouteClashMeans(b.routes, key);
    }
  }
}
