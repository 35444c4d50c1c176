/** The graph of a build and the rules a save checks it by
    (backend/internal/services/build_service.go, validateEdgeEndpoints). */
module Topology {
  import opened Wrappers
  import opened Wiring
  import opened Graph
  import opened Text

  type Id = string

  /** A device. gamingIssues is how many faults gamingNodeIssues finds in it. */
  datatype Node = Node(id: Id, kind: NodeType, parent: Option<Id>, vms: seq<Id>, gamingIssues: nat, details: Details)

  datatype EdgeKind = Unset | Ethernet | Wireless | Vpn | Power | OtherKind(name: string)

  /** A cable. The id is that of the stored row; the rules do not look at it. */
  datatype Edge = Edge(id: nat, kind: EdgeKind, source: Id, sourceHandle: string, target: Id, targetHandle: string)

  type Port = (Id, string)

  // ---- kinds of device ----

  predicate HostsVms(kind: NodeType) {
    || kind.Server? || kind.ServerV2? || kind.Vps? || kind.Pc? || kind.MiniPc?
    || kind.Sbc? || kind.Nas? || kind.Iot?
  }

  predicate StandsOnFloor(kind: NodeType) {
    kind.Console? || kind.LanTable? || kind.PowerOutlet?
  }

  predicate ConnectsFreely(kind: NodeType) {
    || kind.Router? || kind.Switch? || kind.Modem? || kind.Firewall?
    || kind.ServerV2? || kind.Vps? || kind.Iot?
  }

  predicate NestedOnly(kind: NodeType) {
    kind.Disk? || kind.Gpu? || kind.Cpu? || kind.Hba? || kind.Pcie? || kind.Rack?
  }

  predicate WifiClient(kind: NodeType) {
    kind.Pc? || kind.MiniPc? || kind.Sbc? || kind.Console?
  }

  predicate IsWifiAssociation(a: NodeType, b: NodeType) {
    (a.AccessPoint? && WifiClient(b)) || (b.AccessPoint? && WifiClient(a))
  }

  // ---- the rules, stated outright ----

  /** The devices by id: blank ids are left out and the first of two wins. */
  function ById(nodes: seq<Node>): map<Id, Node> {
    if nodes == [] then map[]
    else
      var known := ById(nodes[..|nodes| - 1]);
      var node := nodes[|nodes| - 1];
      if Blank(node.id) || node.id in known then known else known[node.id := node]
  }

  function AllVms(nodes: seq<Node>): seq<Id> {
    if nodes == [] then [] else AllVms(nodes[..|nodes| - 1]) + nodes[|nodes| - 1].vms
  }

  ghost predicate Distinct<T>(s: seq<T>) {
    forall i, j :: 0 <= i < j < |s| ==> s[i] != s[j]
  }

  ghost predicate SoundNode(node: Node) {
    && !Blank(node.id)
    && !node.kind.UnknownType?
    && (node.vms != [] ==> HostsVms(node.kind))
    && node.gamingIssues == 0
    && forall i :: 0 <= i < |node.vms| ==> !Blank(node.vms[i])
  }

  ghost predicate SoundNodes(nodes: seq<Node>) {
    && (forall i :: 0 <= i < |nodes| ==> SoundNode(nodes[i]))
    && (forall i, j :: 0 <= i < j < |nodes| ==> nodes[i].id != nodes[j].id)
    && Distinct(AllVms(nodes))
  }

  predicate HasParent(node: Node) {
    node.parent.Some? && node.parent.value != ""
  }

  /** Containment is one level deep: racks hold devices that are neither racks
      nor stand on the floor. */
  ghost predicate WellPlaced(byId: map<Id, Node>, node: Node) {
    HasParent(node) ==>
      && node.parent.value != node.id
      && node.parent.value in byId
      && byId[node.parent.value].kind.Rack?
      && !node.kind.Rack?
      && !StandsOnFloor(node.kind)
  }

  predicate EndsExist(byId: map<Id, Node>, e: Edge) {
    e.source in byId && e.target in byId
  }

  predicate PowerEndsFit(source: Node, target: Node, e: Edge) {
    && IsPowerSource(source.kind)
    && 0 <= PowerHandleIndex(e.sourceHandle, POWER_OUT_PREFIX) < PowerOutputCount(source.kind, source.details)
    && 0 <= PowerHandleIndex(e.targetHandle, POWER_IN_PREFIX) < PowerInputCount(target.kind, target.details)
  }

  predicate NetworkEndsFit(source: Node, target: Node, e: Edge) {
    var wifi := IsWifiAssociation(source.kind, target.kind);
    && !("pwr-" <= e.sourceHandle) && !("pwr-" <= e.targetHandle)
    && !IsPowerSource(source.kind) && !IsPowerSource(target.kind)
    && !NestedOnly(source.kind) && !NestedOnly(target.kind)
    && (wifi || ConnectsFreely(source.kind) || ConnectsFreely(target.kind))
    && (wifi ==> e.kind.Wireless?)
    && (source.kind.LanTable? || target.kind.LanTable? ==> !e.kind.Wireless? && !e.kind.Vpn?)
    && (e.kind.Wireless? ==>
          source.kind.AccessPoint? || target.kind.AccessPoint? || source.kind.Iot? || target.kind.Iot?)
  }

  ghost predicate SoundEdge(byId: map<Id, Node>, e: Edge) {
    && EndsExist(byId, e)
    && e.source != e.target
    && !e.kind.OtherKind?
    && (if e.kind.Power? then PowerEndsFit(byId[e.source], byId[e.target], e)
        else NetworkEndsFit(byId[e.source], byId[e.target], e))
  }

  /** The device ports a cable occupies. A VPN occupies none, a cable without a
      handle none at that end, and a Wi-Fi client leaves the access point's free. */
  function PortsOf(byId: map<Id, Node>, e: Edge): seq<Port>
    requires EndsExist(byId, e)
  {
    if e.kind.Power? then [(e.source, e.sourceHandle), (e.target, e.targetHandle)]
    else if e.kind.Vpn? then []
    else
      var wifi := IsWifiAssociation(byId[e.source].kind, byId[e.target].kind);
      (if e.sourceHandle == "" || (wifi && byId[e.source].kind.AccessPoint?) then [] else [(e.source, e.sourceHandle)])
      + (if e.targetHandle == "" || (wifi && byId[e.target].kind.AccessPoint?) then []
         else [(e.target, e.targetHandle)])
  }

  /** The LAN tables a network cable is the uplink of. */
  function TablesOf(byId: map<Id, Node>, e: Edge): seq<Id>
    requires EndsExist(byId, e)
  {
    if e.kind.Power? then []
    else (if byId[e.source].kind.LanTable? then [e.source] else [])
         + (if byId[e.target].kind.LanTable? then [e.target] else [])
  }

  predicate SamePair(e: Edge, f: Edge) {
    (e.source == f.source && e.target == f.target) || (e.source == f.target && e.target == f.source)
  }

  ghost predicate Compatible(byId: map<Id, Node>, e: Edge, f: Edge)
    requires EndsExist(byId, e) && EndsExist(byId, f)
  {
    && (!e.kind.Power? && !f.kind.Power? ==> !SamePair(e, f))
    && (forall p :: p in PortsOf(byId, e) ==> p !in PortsOf(byId, f))
    && (forall t :: t in TablesOf(byId, e) ==> t !in TablesOf(byId, f))
  }

  predicate IsAccessPointOf(byId: map<Id, Node>, d: Id, other: Id)
    requires d in byId && other in byId
  {
    byId[d].kind.AccessPoint? && byId[other].kind in {Pc, MiniPc, Sbc, Console}
  }

  /** The cable takes up this port: a power cable both of its own, a network cable the
      ports it names, but an access point's not for a Wi-Fi client, and a VPN none. */
  ghost predicate TakesUp(byId: map<Id, Node>, e: Edge, d: Id, handle: string)
    requires EndsExist(byId, e)
  {
    || ((e.source, e.sourceHandle) == (d, handle)
        && (e.kind.Power? || (!e.kind.Vpn? && handle != "" && !IsAccessPointOf(byId, d, e.target))))
    || ((e.target, e.targetHandle) == (d, handle)
        && (e.kind.Power? || (!e.kind.Vpn? && handle != "" && !IsAccessPointOf(byId, d, e.source))))
  }

  /** A network cable, VPNs included, that ends at this LAN table. */
  ghost predicate Uplinks(byId: map<Id, Node>, e: Edge, table: Id)
    requires EndsExist(byId, e)
  {
    !e.kind.Power? && table in {e.source, e.target} && byId[table].kind.LanTable?
  }

  /** Two cables go together unless both join the same two devices without power, take
      up one port, or are both the uplink of one LAN table. */
  lemma CompatibleMeans(byId: map<Id, Node>, e: Edge, f: Edge)
    requires EndsExist(byId, e) && EndsExist(byId, f)
    ensures Compatible(byId, e, f) <==>
              && (e.kind.Power? || f.kind.Power? || {e.source, e.target} != {f.source, f.target})
              && (forall d, handle :: TakesUp(byId, e, d, handle) ==> !TakesUp(byId, f, d, handle))
              && (forall t :: Uplinks(byId, e, t) ==> !Uplinks(byId, f, t))
  {
    SamePairMeans(e, f);
    forall d, handle
      ensures TakesUp(byId, e, d, handle) <==> (d, handle) in PortsOf(byId, e)
      ensures TakesUp(byId, f, d, handle) <==> (d, handle) in PortsOf(byId, f)
    {
      PortsMean(byId, e, d, handle);
      PortsMean(byId, f, d, handle);
    }
    forall t
      ensures Uplinks(byId, e, t) <==> t in TablesOf(byId, e)
      ensures Uplinks(byId, f, t) <==> t in TablesOf(byId, f)
    {
      TablesMean(byId, e, t);
      TablesMean(byId, f, t);
    }
    hide TakesUp, Uplinks, PortsOf, TablesOf;
  }

  lemma PortsMean(byId: map<Id, Node>, e: Edge, d: Id, handle: string)
    requires EndsExist(byId, e)
    ensures TakesUp(byId, e, d, handle) <==> (d, handle) in PortsOf(byId, e)
  {
  }

  lemma TablesMean(byId: map<Id, Node>, e: Edge, t: Id)
    requires EndsExist(byId, e)
    ensures Uplinks(byId, e, t) <==> t in TablesOf(byId, e)
  {
  }

  lemma SamePairMeans(e: Edge, f: Edge)
    ensures SamePair(e, f) <==> {e.source, e.target} == {f.source, f.target}
  {
  }

  ghost function PowerArcs(edges: seq<Edge>): set<(Id, Id)> {
    set e | e in edges && e.kind.Power? :: (e.source, e.target)
  }

  ghost predicate AllEndsExist(byId: map<Id, Node>, edges: seq<Edge>) {
    forall i :: 0 <= i < |edges| ==> EndsExist(byId, edges[i])
  }

  /** The first n cables keep every rule but the one on power loops. */
  ghost predicate SoundEdges(byId: map<Id, Node>, edges: seq<Edge>) {
    && (forall i :: 0 <= i < |edges| ==> SoundEdge(byId, edges[i]))
    && (forall i, j :: 0 <= i < j < |edges| ==> Compatible(byId, edges[i], edges[j]))
  }

  ghost predicate ValidTopology(nodes: seq<Node>, edges: seq<Edge>) {
    && SoundNodes(nodes)
    && (forall i :: 0 <= i < |nodes| ==> WellPlaced(ById(nodes), nodes[i]))
    && SoundEdges(ById(nodes), edges)
    && Acyclic(PowerArcs(edges))
  }

  lemma {:induction false} ByIdHolds(nodes: seq<Node>)
    ensures forall id :: id in ById(nodes) <==> !Blank(id) && exists i :: 0 <= i < |nodes| && nodes[i].id == id
    ensures forall id :: id in ById(nodes) ==> ById(nodes)[id] in nodes && ById(nodes)[id].id == id
  {
    if nodes != [] {
      var front, last := nodes[..|nodes| - 1], nodes[|nodes| - 1];
      ByIdHolds(front);
      forall id ensures id in ById(nodes) <==> !Blank(id) && exists i :: 0 <= i < |nodes| && nodes[i].id == id {
        if i :| 0 <= i < |nodes| && nodes[i].id == id {
          if i < |front| {
            assert front[i].id == id;
          }
        }
        if id in ById(nodes) {
          if id in ById(front) {
            var i :| 0 <= i < |front| && front[i].id == id;
            assert nodes[i].id == id;
          } else {
            assert nodes[|nodes| - 1].id == id;
          }
        }
      }
      forall id | id in ById(nodes) ensures ById(nodes)[id] in nodes && ById(nodes)[id].id == id {
        if id in ById(front) && ById(nodes)[id] == ById(front)[id] {
          assert ById(front)[id] in front;
        }
      }
    }
  }
}
