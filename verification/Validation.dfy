/** The save validation as the source runs it: loops that fill tables and collect
    issues (backend/internal/services/build_service.go, validateEdgeEndpoints). */
module Validation {
  import opened Wrappers
  import opened Wiring
  import opened Topology
  import opened Graph
  import Searches
  import opened Text

  datatype Rule =
    | EmptyId | DuplicateId | UnsupportedType | CannotHostVms | GamingFault | EmptyVmId | DuplicateVmId
    | ContainsItself | MissingParent | NotInsideRack | NestedRack | FloorDevice
    | SelfConnection | UnsupportedConnection | NoSuchSocket | NoSuchInput | PortTaken | PowerPortMisused
    | NoNetworkPort | DuplicateConnection | NestedOnlyEnd | NeedsSwitch | MustBeWireless | NeedsCabledUplink
    | SecondUplink | NeedsAccessPoint | PowerLoop

  datatype Issue = Issue(rule: Rule, subject: Id)

  datatype Verdict =
    | Accepted
    | InvalidReferences(missing: seq<Edge>)
    | InvalidTopology(issues: seq<Issue>)

  method CheckVms(vms: seq<Id>, known: set<Id>) returns (issues: seq<Issue>, after: set<Id>)
    ensures issues == [] <==>
              && (forall i :: 0 <= i < |vms| ==> !Blank(vms[i]) && vms[i] !in known)
              && Distinct(vms)
    ensures issues == [] ==> after == known + set v | v in vms
  {
    issues, after := [], known;
    for i := 0 to |vms|
      invariant issues == [] <==>
                  && (forall j :: 0 <= j < i ==> !Blank(vms[j]) && vms[j] !in known)
                  && (forall j, k :: 0 <= j < k < i ==> vms[j] != vms[k])
      invariant issues == [] ==> after == known + set v | v in vms[..i]
    {
      assert vms[..i + 1] == vms[..i] + [vms[i]];
      if Blank(vms[i]) {
        issues := issues + [Issue(EmptyVmId, vms[i])];
        continue;
      }
      if vms[i] in after {
        issues := issues + [Issue(DuplicateVmId, vms[i])];
      } else {
        after := after + {vms[i]};
      }
    }
    assert vms[..|vms|] == vms;
  }

  /** One device with an id of its own: a known type, and guests only where they may be. */
  method CheckNode(node: Node, known: set<Id>) returns (issues: seq<Issue>, after: set<Id>)
    requires !Blank(node.id)
    ensures issues == [] <==>
              SoundNode(node) && (forall i :: 0 <= i < |node.vms| ==> node.vms[i] !in known) && Distinct(node.vms)
    ensures issues == [] ==> after == known + set v | v in node.vms
  {
    issues := [];
    if node.kind.UnknownType? {
      issues := issues + [Issue(UnsupportedType, node.id)];
    }
    if |node.vms| > 0 && !HostsVms(node.kind) {
      issues := issues + [Issue(CannotHostVms, node.id)];
    }
    issues := issues + seq(node.gamingIssues, _ => Issue(GamingFault, node.id));
    var faults;
    faults, after := CheckVms(node.vms, known);
    issues := issues + faults;
  }

  /** The devices: unique non-blank ids, known types, guests only where they may
      be, unique guest ids. */
  method CheckNodes(nodes: seq<Node>) returns (issues: seq<Issue>, byId: map<Id, Node>)
    ensures byId == ById(nodes)
    ensures issues == [] <==> SoundNodes(nodes)
  {
    hide SoundNode, SoundNodes, Blank, Distinct;
    NoNodesSound();
    assert nodes[..0] == [];
    issues, byId := [], map[];
    var vmIds: set<Id> := {};
    for n := 0 to |nodes|
      invariant byId == ById(nodes[..n])
      invariant issues == [] <==> SoundNodes(nodes[..n])
      invariant issues == [] ==> vmIds == set v | v in AllVms(nodes[..n])
    {
      var node := nodes[n];
      ghost var front, longer := nodes[..n], nodes[..n + 1];
      assert longer[..n] == front && longer[n] == node;
      ByIdHolds(front);
      SoundNodeHasId(node);
      SoundNodesStep(front, node, longer);
      if Blank(node.id) {
        issues := issues + [Issue(EmptyId, node.id)];
        continue;
      }
      if node.id in byId {
        issues := issues + [Issue(DuplicateId, node.id)];
        continue;
      }
      byId := byId[node.id := node];
      var faults, after := CheckNode(node, vmIds);
      issues, vmIds := issues + faults, after;
    }
    assert nodes[..|nodes|] == nodes;
  }

  lemma NoNodesSound()
    ensures SoundNodes([])
  {
  }

  lemma SoundNodeHasId(node: Node)
    ensures SoundNode(node) ==> !Blank(node.id)
  {
  }

  lemma SoundNodesStep(front: seq<Node>, node: Node, longer: seq<Node>)
    requires longer == front + [node]
    ensures AllVms(longer) == AllVms(front) + node.vms
    ensures SoundNodes(longer) <==>
              && SoundNodes(front) && SoundNode(node)
              && (forall i :: 0 <= i < |front| ==> front[i].id != node.id)
              && (forall i :: 0 <= i < |node.vms| ==> node.vms[i] !in AllVms(front))
              && Distinct(node.vms)
  {
    hide SoundNode, SoundNodes, Distinct;
    assert longer[..|longer| - 1] == front;
    DistinctConcat(AllVms(front), node.vms);
    hide AllVms;
    if SoundNodes(longer) {
      SoundNodesShorter(front, node, longer);
    }
    if && SoundNodes(front) && SoundNode(node)
       && (forall i :: 0 <= i < |front| ==> front[i].id != node.id)
       && (forall i :: 0 <= i < |node.vms| ==> node.vms[i] !in AllVms(front))
       && Distinct(node.vms)
    {
      SoundNodesLonger(front, node, longer);
    }
  }

  lemma SoundNodesLonger(front: seq<Node>, node: Node, longer: seq<Node>)
    requires longer == front + [node] && AllVms(longer) == AllVms(front) + node.vms
    requires SoundNodes(front) && SoundNode(node)
    requires forall i :: 0 <= i < |front| ==> front[i].id != node.id
    requires forall i :: 0 <= i < |node.vms| ==> node.vms[i] !in AllVms(front)
    requires Distinct(node.vms)
    ensures SoundNodes(longer)
  {
    hide SoundNode, AllVms;
    DistinctConcat(AllVms(front), node.vms);
  }

  lemma SoundNodesShorter(front: seq<Node>, node: Node, longer: seq<Node>)
    requires longer == front + [node] && AllVms(longer) == AllVms(front) + node.vms && SoundNodes(longer)
    ensures SoundNodes(front) && SoundNode(node)
    ensures forall i :: 0 <= i < |front| ==> front[i].id != node.id
    ensures (forall i :: 0 <= i < |node.vms| ==> node.vms[i] !in AllVms(front)) && Distinct(node.vms)
  {
    hide SoundNode, Distinct, AllVms;
    DistinctConcat(AllVms(front), node.vms);
    assert longer[|front|] == node;
    forall i | 0 <= i < |front|
      ensures SoundNode(front[i]) && front[i].id != node.id
    {
      assert longer[i] == front[i];
    }
    forall i, j | 0 <= i < j < |front|
      ensures front[i].id != front[j].id
    {
      assert longer[i].id != longer[j].id;
    }
  }

  lemma DistinctConcat<T>(a: seq<T>, b: seq<T>)
    ensures Distinct(a + b) <==> Distinct(a) && Distinct(b) && forall i :: 0 <= i < |b| ==> b[i] !in a
  {
    var s := a + b;
    if Distinct(s) {
      forall i, j | 0 <= i < j < |a| ensures a[i] != a[j] { assert s[i] != s[j]; }
      forall i, j | 0 <= i < j < |b| ensures b[i] != b[j] { assert s[|a| + i] != s[|a| + j]; }
      forall i, j | 0 <= i < |b| && 0 <= j < |a| ensures a[j] != b[i] { assert s[j] != s[|a| + i]; }
    }
  }

  method CheckPlacement(nodes: seq<Node>, byId: map<Id, Node>) returns (issues: seq<Issue>)
    ensures issues == [] <==> forall i :: 0 <= i < |nodes| ==> WellPlaced(byId, nodes[i])
  {
    issues := [];
    for n := 0 to |nodes|
      invariant issues == [] <==> forall i :: 0 <= i < n ==> WellPlaced(byId, nodes[i])
    {
      var node := nodes[n];
      if node.parent.None? || node.parent.value == "" {
        continue;
      }
      if node.parent.value == node.id {
        issues := issues + [Issue(ContainsItself, node.id)];
        continue;
      }
      if node.parent.value !in byId {
        issues := issues + [Issue(MissingParent, node.id)];
        continue;
      }
      var parent := byId[node.parent.value];
      if !parent.kind.Rack? {
        issues := issues + [Issue(NotInsideRack, node.id)];
      }
      if node.kind.Rack? {
        issues := issues + [Issue(NestedRack, node.id)];
      }
      if StandsOnFloor(node.kind) {
        issues := issues + [Issue(FloorDevice, node.id)];
      }
    }
  }

  /** Marks ports as used and reports those that already were. */
  method Occupy(ports: seq<Port>, used: set<Port>) returns (issues: seq<Issue>, after: set<Port>)
    requires Distinct(ports)
    ensures issues == [] <==> forall i :: 0 <= i < |ports| ==> ports[i] !in used
    ensures after == used + set p | p in ports
  {
    issues, after := [], used;
    for i := 0 to |ports|
      invariant issues == [] <==> forall j :: 0 <= j < i ==> ports[j] !in used
      invariant after == used + set p | p in ports[..i]
    {
      assert ports[..i + 1] == ports[..i] + [ports[i]];
      if ports[i] in after {
        issues := issues + [Issue(PortTaken, ports[i].0)];
      } else {
        after := after + {ports[i]};
      }
    }
    assert ports[..|ports|] == ports;
  }

  /** Counts a network cable as an uplink of the LAN tables it ends at; a table is
      reported once, at its second uplink. */
  method CountUplinks(tables: seq<Id>, wireless: bool, uplinks: map<Id, nat>)
    returns (issues: seq<Issue>, after: map<Id, nat>)
    requires Distinct(tables)
    ensures after.Keys == uplinks.Keys + set t | t in tables
    ensures (forall t <- uplinks :: uplinks[t] == 1) ==>
              && (issues == [] <==> (wireless ==> tables == []) && forall t <- tables :: t !in uplinks)
              && (issues == [] ==> forall t <- after :: after[t] == 1)
  {
    issues, after := [], uplinks;
    for i := 0 to |tables|
      invariant after.Keys == uplinks.Keys + set t | t in tables[..i]
      invariant forall j :: i <= j < |tables| && tables[j] in uplinks ==>
                  tables[j] in after && after[tables[j]] == uplinks[tables[j]]
      invariant (forall t <- uplinks :: uplinks[t] == 1) ==>
                  && (issues == [] <==> (wireless ==> i == 0) && forall j :: 0 <= j < i ==> tables[j] !in uplinks)
                  && (issues == [] ==> forall t <- after :: after[t] == 1)
    {
      assert tables[..i + 1] == tables[..i] + [tables[i]];
      assert tables[i] !in tables[..i];
      if wireless {
        issues := issues + [Issue(NeedsCabledUplink, tables[i])];
      }
      var count := if tables[i] in after then after[tables[i]] + 1 else 1;
      after := after[tables[i] := count];
      if count == 2 {
        issues := issues + [Issue(SecondUplink, tables[i])];
      }
    }
    assert tables[..|tables|] == tables;
  }

  method CheckPowerEnds(source: Node, target: Node, e: Edge) returns (issues: seq<Issue>)
    ensures issues == [] <==> PowerEndsFit(source, target, e)
  {
    issues := [];
    var socket := PowerHandleIndex(e.sourceHandle, POWER_OUT_PREFIX);
    if !IsPowerSource(source.kind) || socket < 0 || socket >= PowerOutputCount(source.kind, source.details) {
      issues := issues + [Issue(NoSuchSocket, e.source)];
    }
    var input := PowerHandleIndex(e.targetHandle, POWER_IN_PREFIX);
    if input < 0 || input >= PowerInputCount(target.kind, target.details) {
      issues := issues + [Issue(NoSuchInput, e.target)];
    }
  }

  /** The rules on the two ends of one network cable, LAN tables excepted. */
  method CheckNetworkEnds(source: Node, target: Node, e: Edge) returns (issues: seq<Issue>)
    ensures NetworkEndsFit(source, target, e) <==>
              && issues == []
              && (source.kind.LanTable? || target.kind.LanTable? ==> !e.kind.Wireless? && !e.kind.Vpn?)
  {
    issues := [];
    if "pwr-" <= e.sourceHandle || "pwr-" <= e.targetHandle {
      issues := issues + [Issue(PowerPortMisused, e.source)];
    }
    if IsPowerSource(source.kind) {
      issues := issues + [Issue(NoNetworkPort, e.source)];
    }
    if IsPowerSource(target.kind) {
      issues := issues + [Issue(NoNetworkPort, e.target)];
    }
    var isWifiClient := IsWifiAssociation(source.kind, target.kind);
    if NestedOnly(source.kind) || NestedOnly(target.kind) {
      issues := issues + [Issue(NestedOnlyEnd, e.source)];
    }
    if !isWifiClient && !ConnectsFreely(source.kind) && !ConnectsFreely(target.kind) {
      issues := issues + [Issue(NeedsSwitch, e.source)];
    }
    if isWifiClient && !e.kind.Wireless? {
      issues := issues + [Issue(MustBeWireless, e.source)];
    }
    if e.kind.Wireless? && !source.kind.AccessPoint? && !target.kind.AccessPoint? && !source.kind.Iot?
      && !target.kind.Iot? {
      issues := issues + [Issue(NeedsAccessPoint, e.source)];
    }
  }

  /** An unordered pair of ids, written in one order. */
  function Unordered(a: Id, b: Id): (Id, Id) {
    if Before(b, a) then (b, a) else (a, b)
  }

  /** The written form stands for the pair, whichever end comes first. */
  lemma UnorderedSame(a: Id, b: Id, c: Id, d: Id)
    ensures Unordered(a, b) == Unordered(c, d) <==> ((a == c && b == d) || (a == d && b == c))
  {
    BeforeTotal(a, b);
    BeforeTotal(c, d);
  }

  predicate Joins(e: Edge, a: Id, b: Id) {
    !e.kind.Power? && ((e.source == a && e.target == b) || (e.source == b && e.target == a))
  }

  /** The tables hold exactly what these cables put there. */
  ghost predicate Recorded(byId: map<Id, Node>, edges: seq<Edge>, pairs: set<(Id, Id)>, used: set<Port>,
                           uplinks: map<Id, nat>)
    requires AllEndsExist(byId, edges)
  {
    && (forall a, b :: Unordered(a, b) in pairs <==> exists i :: 0 <= i < |edges| && Joins(edges[i], a, b))
    && (forall p :: p in used <==> exists i :: 0 <= i < |edges| && p in PortsOf(byId, edges[i]))
    && (forall t :: t in uplinks <==> exists i :: 0 <= i < |edges| && t in TablesOf(byId, edges[i]))
    && (forall t <- uplinks :: uplinks[t] == 1)
  }

  ghost predicate Fits(byId: map<Id, Node>, prior: seq<Edge>, e: Edge)
    requires AllEndsExist(byId, prior)
  {
    && SoundEdge(byId, e)
    && forall i :: 0 <= i < |prior| ==> Compatible(byId, prior[i], e)
  }

  /** One cable between two different known devices, against the tables filled by
      the cables before it. */
  method CheckCable(byId: map<Id, Node>, e: Edge, pairs: set<(Id, Id)>, used: set<Port>, uplinks: map<Id, nat>,
                    ghost prior: seq<Edge>)
    returns (issues: seq<Issue>, pairs': set<(Id, Id)>, used': set<Port>, uplinks': map<Id, nat>)
    requires EndsExist(byId, e) && e.source != e.target
    requires AllEndsExist(byId, prior)
    ensures Recorded(byId, prior, pairs, used, uplinks) ==>
              && (issues == [] <==> Fits(byId, prior, e))
              && (issues == [] ==> Recorded(byId, prior + [e], pairs', used', uplinks'))
  {
    var source, target := byId[e.source], byId[e.target];
    issues, pairs', used', uplinks' := [], pairs, used, uplinks;
    var faults: seq<Issue>;
    if e.kind.OtherKind? {
      issues := issues + [Issue(UnsupportedConnection, e.source)];
    }
    if e.kind.Power? {
      faults := CheckPowerEnds(source, target, e);
      issues := issues + faults;
      faults, used' := Occupy([(e.source, e.sourceHandle), (e.target, e.targetHandle)], used);
      issues := issues + faults;
    } else {
      faults := CheckNetworkEnds(source, target, e);
      issues := issues + faults;
      var pair := Unordered(e.source, e.target);
      if pair in pairs {
        issues := issues + [Issue(DuplicateConnection, e.source)];
      } else {
        pairs' := pairs + {pair};
      }
      var tables := (if source.kind.LanTable? then [e.source] else [])
        + (if target.kind.LanTable? then [e.target] else []);
      faults, uplinks' := CountUplinks(tables, e.kind.Wireless? || e.kind.Vpn?, uplinks);
      issues := issues + faults;
      if !e.kind.Vpn? {
        faults, used' := Occupy(PortsOf(byId, e), used);
        issues := issues + faults;
      }
    }
    if Recorded(byId, prior, pairs, used, uplinks) {
      CableFits(byId, e, pairs, used, uplinks, prior);
      if issues == [] {
        CableRecorded(byId, e, pairs, used, uplinks, prior, pairs', used', uplinks');
      }
    }
  }

  /** Fitting with the cables before, read off the tables they filled. */
  lemma CableFits(byId: map<Id, Node>, e: Edge, pairs: set<(Id, Id)>, used: set<Port>, uplinks: map<Id, nat>,
                  prior: seq<Edge>)
    requires EndsExist(byId, e) && AllEndsExist(byId, prior)
    requires Recorded(byId, prior, pairs, used, uplinks)
    ensures Fits(byId, prior, e) <==>
              && SoundEdge(byId, e)
              && (!e.kind.Power? ==> Unordered(e.source, e.target) !in pairs)
              && (forall p <- PortsOf(byId, e) :: p !in used)
              && (forall t <- TablesOf(byId, e) :: t !in uplinks)
  {
    if forall i :: 0 <= i < |prior| ==> Compatible(byId, prior[i], e) {
      forall p | p in PortsOf(byId, e) ensures p !in used {
        forall i | 0 <= i < |prior| ensures p !in PortsOf(byId, prior[i]) { assert Compatible(byId, prior[i], e); }
      }
      forall t | t in TablesOf(byId, e) ensures t !in uplinks {
        forall i | 0 <= i < |prior| ensures t !in TablesOf(byId, prior[i]) { assert Compatible(byId, prior[i], e); }
      }
    }
    if (!e.kind.Power? ==> Unordered(e.source, e.target) !in pairs)
       && (forall p <- PortsOf(byId, e) :: p !in used)
       && (forall t <- TablesOf(byId, e) :: t !in uplinks) {
      forall i | 0 <= i < |prior| ensures Compatible(byId, prior[i], e) {
        if !e.kind.Power? && !prior[i].kind.Power? && SamePair(prior[i], e) {
          assert Joins(prior[i], e.source, e.target);
        }
      }
    }
  }

  lemma PairsRecorded(e: Edge, pairs: set<(Id, Id)>, prior: seq<Edge>, a: Id, b: Id)
    requires Unordered(a, b) in pairs <==> exists i :: 0 <= i < |prior| && Joins(prior[i], a, b)
    ensures Unordered(a, b) in pairs + (if e.kind.Power? then {} else {Unordered(e.source, e.target)})
            <==> exists i :: 0 <= i < |prior + [e]| && Joins((prior + [e])[i], a, b)
  {
    var more := prior + [e];
    UnorderedSame(a, b, e.source, e.target);
    if i :| 0 <= i < |prior| && Joins(prior[i], a, b) { assert Joins(more[i], a, b); }
    if Joins(e, a, b) { assert Joins(more[|prior|], a, b); }
  }

  lemma PortsRecorded(byId: map<Id, Node>, e: Edge, used: set<Port>, prior: seq<Edge>, p: Port)
    requires EndsExist(byId, e) && AllEndsExist(byId, prior)
    requires p in used <==> exists i :: 0 <= i < |prior| && p in PortsOf(byId, prior[i])
    ensures p in used || p in PortsOf(byId, e)
            <==> exists i :: 0 <= i < |prior + [e]| && p in PortsOf(byId, (prior + [e])[i])
  {
    var more := prior + [e];
    if i :| 0 <= i < |prior| && p in PortsOf(byId, prior[i]) { assert p in PortsOf(byId, more[i]); }
    if p in PortsOf(byId, e) { assert p in PortsOf(byId, more[|prior|]); }
  }

  lemma UplinksRecorded(byId: map<Id, Node>, e: Edge, uplinks: map<Id, nat>, prior: seq<Edge>, t: Id)
    requires EndsExist(byId, e) && AllEndsExist(byId, prior)
    requires t in uplinks <==> exists i :: 0 <= i < |prior| && t in TablesOf(byId, prior[i])
    ensures t in uplinks || t in TablesOf(byId, e)
            <==> exists i :: 0 <= i < |prior + [e]| && t in TablesOf(byId, (prior + [e])[i])
  {
    var more := prior + [e];
    if i :| 0 <= i < |prior| && t in TablesOf(byId, prior[i]) { assert t in TablesOf(byId, more[i]); }
    if t in TablesOf(byId, e) { assert t in TablesOf(byId, more[|prior|]); }
  }

  lemma CableRecorded(byId: map<Id, Node>, e: Edge, pairs: set<(Id, Id)>, used: set<Port>, uplinks: map<Id, nat>,
                      prior: seq<Edge>,
                      pairs': set<(Id, Id)>, used': set<Port>, uplinks': map<Id, nat>)
    requires EndsExist(byId, e) && AllEndsExist(byId, prior)
    requires Recorded(byId, prior, pairs, used, uplinks)
    requires pairs' == pairs + if e.kind.Power? then {} else {Unordered(e.source, e.target)}
    requires used' == used + set p | p in PortsOf(byId, e)
    requires uplinks'.Keys == uplinks.Keys + set t | t in TablesOf(byId, e)
    requires forall t <- uplinks' :: uplinks'[t] == 1
    ensures Recorded(byId, prior + [e], pairs', used', uplinks')
  {
    var more := prior + [e];
    forall a, b ensures Unordered(a, b) in pairs' <==> exists i :: 0 <= i < |more| && Joins(more[i], a, b) {
      PairsRecorded(e, pairs, prior, a, b);
    }
    forall p ensures p in used' <==> exists i :: 0 <= i < |more| && p in PortsOf(byId, more[i]) {
      PortsRecorded(byId, e, used, prior, p);
    }
    forall t ensures t in uplinks' <==> exists i :: 0 <= i < |more| && t in TablesOf(byId, more[i]) {
      UplinksRecorded(byId, e, uplinks, prior, t);
    }
  }

  lemma SoundEdgesStep(byId: map<Id, Node>, front: seq<Edge>, e: Edge)
    ensures SoundEdges(byId, front) ==> AllEndsExist(byId, front)
    ensures SoundEdges(byId, front + [e]) <==> SoundEdges(byId, front) && Fits(byId, front, e)
    ensures SoundEdges(byId, front + [e]) ==>
              AllEndsExist(byId, front + [e]) && EndsExist(byId, e) && e.source != e.target
  {
    var longer := front + [e];
    forall i | 0 <= i < |front| && SoundEdges(byId, front)
      ensures EndsExist(byId, front[i])
    {
      assert SoundEdge(byId, front[i]);
    }
    if SoundEdges(byId, longer) {
      forall i | 0 <= i < |front| ensures SoundEdge(byId, front[i]) { assert SoundEdge(byId, longer[i]); }
      assert SoundEdge(byId, longer[|front|]);
      forall i | 0 <= i < |front|
        ensures Compatible(byId, front[i], e) { assert Compatible(byId, longer[i], longer[|front|]); }
      forall i, j | 0 <= i < j < |front|
        ensures Compatible(byId, front[i], front[j]) { assert Compatible(byId, longer[i], longer[j]); }
    }
  }

  ghost function MissingEnds(byId: map<Id, Node>, edges: seq<Edge>): seq<Edge> {
    if edges == [] then []
    else
      var last := edges[|edges| - 1];
      MissingEnds(byId, edges[..|edges| - 1]) + if EndsExist(byId, last) then [] else [last]
  }

  /** While all is well, the tables say what the cables so far say. */
  ghost predicate Tracked(byId: map<Id, Node>, edges: seq<Edge>, pairs: set<(Id, Id)>, used: set<Port>,
                          uplinks: map<Id, nat>)
  {
    SoundEdges(byId, edges) ==> AllEndsExist(byId, edges) && Recorded(byId, edges, pairs, used, uplinks)
  }

  lemma NothingTracked(byId: map<Id, Node>)
    ensures SoundEdges(byId, []) && Tracked(byId, [], {}, {}, map[])
  {
  }

  method CheckEdges(byId: map<Id, Node>, edges: seq<Edge>) returns (issues: seq<Issue>, missing: seq<Edge>)
    ensures missing == MissingEnds(byId, edges)
    ensures issues == [] && missing == [] <==> SoundEdges(byId, edges)
  {
    hide SoundEdges, SoundEdge, AllEndsExist, EndsExist, Recorded, Fits;
    NothingTracked(byId);
    assert edges[..0] == [];
    issues, missing := [], [];
    var pairs: set<(Id, Id)> := {};
    var used: set<Port> := {};
    var uplinks: map<Id, nat> := map[];
    for n := 0 to |edges|
      invariant missing == MissingEnds(byId, edges[..n])
      invariant issues == [] && missing == [] <==> SoundEdges(byId, edges[..n])
      invariant Tracked(byId, edges[..n], pairs, used, uplinks)
    {
      var e := edges[n];
      ghost var front := edges[..n];
      assert edges[..n + 1] == front + [e];
      SoundEdgesStep(byId, front, e);
      if !EndsExist(byId, e) {
        missing := missing + [e];
        continue;
      }
      if e.source == e.target {
        issues := issues + [Issue(SelfConnection, e.source)];
        continue;
      }
      ghost var prior := if issues == [] && missing == [] then front else [];
      var faults;
      faults, pairs, used, uplinks := CheckCable(byId, e, pairs, used, uplinks, prior);
      issues := issues + faults;
    }
    assert edges[..|edges|] == edges;
  }

  /** A node that power cables lead back into, or none. */
  method PowerLoopNode(edges: seq<Edge>) returns (node: Option<Id>)
    ensures node.None? <==> Acyclic(PowerArcs(edges))
    ensures node.Some? ==> OnCycle(PowerArcs(edges), node.value)
  {
    var next: map<Id, seq<Id>> := map[];
    var order: seq<Id> := [];
    for n := 0 to |edges|
      invariant Arcs(next) == PowerArcs(edges[..n])
      invariant forall v :: v in next <==> v in order
    {
      var e := edges[n];
      ghost var before := next;
      assert edges[..n + 1] == edges[..n] + [e];
      if !e.kind.Power? {
        continue;
      }
      if e.source !in next {
        order := order + [e.source];
      }
      next := next[e.source := Searches.Next(next, e.source) + [e.target]];
      assert Arcs(next) == Arcs(before) + {(e.source, e.target)};
    }
    assert edges[..|edges|] == edges;
    node := Searches.FindLoop(next, order);
  }

  /** The whole check. A save is accepted exactly when every rule holds; a cable
      with a missing end is reported before anything else. */
  method ValidateEdgeEndpoints(nodes: seq<Node>, edges: seq<Edge>) returns (verdict: Verdict)
    ensures verdict.Accepted? <==> ValidTopology(nodes, edges)
    ensures verdict.InvalidReferences? <==> !AllEndsExist(ById(nodes), edges)
    ensures verdict.InvalidReferences? ==> verdict.missing == MissingEnds(ById(nodes), edges)
  {
    var issues, byId := CheckNodes(nodes);
    var misplaced := CheckPlacement(nodes, byId);
    issues := issues + misplaced;
    var faults, missing := CheckEdges(byId, edges);
    issues := issues + faults;
    var node := PowerLoopNode(edges);
    if node.Some? {
      issues := issues + [Issue(PowerLoop, node.value)];
    }
    NothingMissing(byId, edges);
    if |missing| > 0 {
      return InvalidReferences(missing);
    }
    if |issues| > 0 {
      return InvalidTopology(issues);
    }
    return Accepted;
  }

  lemma {:induction false} MissingHolds(byId: map<Id, Node>, edges: seq<Edge>)
    ensures forall e :: e in MissingEnds(byId, edges) <==> e in edges && !EndsExist(byId, e)
  {
    hide EndsExist;
    if |edges| > 0 {
      var front, last := edges[..|edges| - 1], edges[|edges| - 1];
      MissingHolds(byId, front);
      assert edges == front + [last];
    }
  }

  lemma NothingMissing(byId: map<Id, Node>, edges: seq<Edge>)
    ensures MissingEnds(byId, edges) == [] <==> AllEndsExist(byId, edges)
    ensures forall e :: e in MissingEnds(byId, edges) <==> e in edges && !EndsExist(byId, e)
  {
    MissingHolds(byId, edges);
    var missing := MissingEnds(byId, edges);
    hide MissingEnds, EndsExist;
    if |missing| > 0 {
      assert missing[0] in missing;
    }
  }
}
