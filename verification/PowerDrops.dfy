/** What was dropped in the conversion of old cables, and why it could not stay. */
module PowerDrops {
  import opened Wrappers
  import opened Wiring
  import opened Topology
  import opened Graph
  import opened PowerPlan
  import opened PowerTheorems
  import opened Text

  /** A power cable that plugs into an input already in use clashes there, whatever
      way its handle is written. */
  lemma InputClash(devices: map<Id, Node>, c: Edge, cable: Edge)
    requires SoundEdge(devices, c) && SoundEdge(devices, cable) && c.kind.Power? && cable.kind.Power?
    requires c.target == cable.target && Input(c) == Input(cable)
    ensures !Compatible(devices, c, cable)
  {
    HandleDetermined(POWER_IN_PREFIX, c.targetHandle);
    HandleDetermined(POWER_IN_PREFIX, cable.targetHandle);
    var port := PortsOf(devices, c)[1];
    assert port in PortsOf(devices, c) && port == PortsOf(devices, cable)[1];
  }

  lemma SocketClash(devices: map<Id, Node>, c: Edge, cable: Edge)
    requires SoundEdge(devices, c) && SoundEdge(devices, cable) && c.kind.Power? && cable.kind.Power?
    requires c.source == cable.source && Socket(c) == Socket(cable)
    ensures !Compatible(devices, c, cable)
  {
    HandleDetermined(POWER_OUT_PREFIX, c.sourceHandle);
    HandleDetermined(POWER_OUT_PREFIX, cable.sourceHandle);
    var port := PortsOf(devices, c)[0];
    assert port in PortsOf(devices, c) && port == PortsOf(devices, cable)[0];
  }

  /** Whatever blocks a cable also makes the save validation refuse it, at every
      socket and input and however many sockets the sources are given. */
  lemma BlockedIsRefused(devices: map<Id, Node>, cables: seq<Edge>, d: Dropped, outlets: map<Id, nat>, cable: Edge)
    requires KeyedById(devices) && Blocked(devices, cables, d) && d.reason != AlreadyJoined
    requires cable.kind.Power? && cable.source == d.feeder && cable.target == d.fed
    ensures SoundEdges(Grown(devices, outlets), cables + [cable]) ==> !Acyclic(PowerArcs(cables + [cable]))
  {
    var grown, more := Grown(devices, outlets), cables + [cable];
    if SoundEdges(grown, more) {
      LastCompatible(grown, cables, cable);
      match d.reason
      case InputsInUse =>
        assert PlugsIn(cables, d.fed, Input(cable));
        var c :| c in cables && c.kind.Power? && c.target == d.fed && Input(c) == Input(cable);
        InputClash(grown, c, cable);
      case NoSocket =>
        assert PlugsOut(cables, d.feeder, Socket(cable));
        var c :| c in cables && c.kind.Power? && c.source == d.feeder && Socket(c) == Socket(cable);
        SocketClash(grown, c, cable);
      case Loop =>
        ReachesMonotone(PowerArcs(cables), PowerArcs(more), d.fed, d.feeder);
        assert (d.feeder, d.fed) in PowerArcs(more);
        assert OnCycle(PowerArcs(more), d.feeder);
      case NoPowerInput =>
    }
  }

  lemma LastCompatible(devices: map<Id, Node>, cables: seq<Edge>, cable: Edge)
    requires SoundEdges(devices, cables + [cable])
    ensures SoundEdge(devices, cable) && SoundEdges(devices, cables)
    ensures forall c <- cables :: SoundEdge(devices, c) && Compatible(devices, c, cable)
  {
    var more := cables + [cable];
    assert SoundEdge(devices, more[|cables|]);
    forall i | 0 <= i < |cables|
      ensures SoundEdge(devices, cables[i]) && Compatible(devices, cables[i], cable)
    {
      assert SoundEdge(devices, more[i]) && Compatible(devices, more[i], more[|cables|]);
    }
    forall i, j | 0 <= i < j < |cables|
      ensures Compatible(devices, cables[i], cables[j])
    {
      assert Compatible(devices, more[i], more[j]);
    }
  }

  /** A drop is a matter of the power cables. */
  lemma BlockedInScope(scope: Scope, devices: map<Id, Node>, cables: seq<Edge>, d: Dropped)
    requires Blocked(devices, cables, d)
    ensures Blocked(devices, Kept(scope, cables), d)
  {
    var kept := Kept(scope, cables);
    KeptHolds(scope, cables);
    if d.reason.InputsInUse? {
      forall i | 0 <= i < PowerInputCount(devices[d.fed].kind, devices[d.fed].details)
        ensures PlugsIn(kept, d.fed, i)
      {
        assert PlugsIn(cables, d.fed, i);
      }
    }
    if d.reason.NoSocket? {
      forall i | 0 <= i < MAX_POWER_OUTPUTS
        ensures PlugsOut(kept, d.feeder, i)
      {
        assert PlugsOut(cables, d.feeder, i);
      }
    }
  }

  lemma KeptWithCable(scope: Scope, cables: seq<Edge>, cable: Edge)
    requires cable.kind.Power?
    ensures Kept(scope, cables + [cable]) == Kept(scope, cables) + [cable]
  {
    KeptAround(scope, cables, cable, []);
    assert cables + [cable] + [] == cables + [cable];
    assert Kept(scope, []) == [];
    Regrouped(Kept(scope, cables), cable);
  }

  lemma Regrouped(cables: seq<Edge>, cable: Edge)
    ensures cables + [cable] + [] == cables + [cable]
  {
  }

  /** The conversion is maximal: in the final wiring every drop still has its reason.
      A cable dropped as already connected has a power cable between the same two; any
      other, put back as a power cable at any socket and input and with any socket
      counts, breaks the power rules, whatever else is wrong with the build. */
  lemma DroppedBreaksPowerRules(nodes: seq<Node>, edges: seq<Edge>, d: Dropped, outlets: map<Id, nat>, cable: Edge)
    requires d in Planned(nodes, edges).plan.dropped
    requires cable.kind.Power? && cable.source == d.feeder && cable.target == d.fed
    ensures Blocked(Stored(nodes), Planned(nodes, edges).rewritten, d)
    ensures d.reason == AlreadyJoined ==> (d.feeder, d.fed) in PowerArcs(Planned(nodes, edges).rewritten)
    ensures d.reason != AlreadyJoined ==>
              !Obeys(PowerRules, Stored(GrownNodes(nodes, outlets)), Planned(nodes, edges).rewritten + [cable])
  {
    var devices, cables := Stored(nodes), Planned(nodes, edges).rewritten;
    PlannedFaithful(nodes, edges);
    StoredGrown(nodes, outlets);
    BlockedInScope(PowerRules, devices, cables, d);
    KeptWithCable(PowerRules, cables, cable);
    KeptHolds(PowerRules, cables + [cable]);
    if d.reason != AlreadyJoined {
      BlockedIsRefused(devices, Kept(PowerRules, cables), d, outlets, cable);
    }
  }

  /** The validator's rules include the power rules. */
  lemma {:induction false} PoweredSound(devices: map<Id, Node>, cables: seq<Edge>)
    requires SoundEdges(devices, cables)
    ensures SoundEdges(devices, Powered(cables))
  {
    if |cables| > 0 {
      var front, last := cables[..|cables| - 1], cables[|cables| - 1];
      assert cables == front + [last];
      LastCompatible(devices, front, last);
      PoweredSound(devices, front);
      PoweredHolds(front);
      if last.kind.Power? {
        assert Powered(front) + [] == Powered(front) && Powered(front) + [last] + [] == Powered(front) + [last];
        InsertSound(devices, Powered(front), last, []);
      } else {
        assert Powered(front) + [] == Powered(front);
      }
    }
  }

  /** So the save validation refuses it too. */
  lemma DroppedCannotStay(nodes: seq<Node>, edges: seq<Edge>, d: Dropped, outlets: map<Id, nat>, cable: Edge)
    requires d in Planned(nodes, edges).plan.dropped
    requires cable.kind.Power? && cable.source == d.feeder && cable.target == d.fed
    ensures d.reason == AlreadyJoined ==> (d.feeder, d.fed) in PowerArcs(Planned(nodes, edges).rewritten)
    ensures d.reason != AlreadyJoined ==>
              !ValidTopology(GrownNodes(nodes, outlets), Planned(nodes, edges).rewritten + [cable])
  {
    var cables := Planned(nodes, edges).rewritten + [cable];
    DroppedBreaksPowerRules(nodes, edges, d, outlets, cable);
    if ValidTopology(GrownNodes(nodes, outlets), cables) {
      StoredIsById(GrownNodes(nodes, outlets));
      PoweredSound(Stored(GrownNodes(nodes, outlets)), cables);
    }
  }

  // ---- cables between devices that are joined already ----

  /** The cable fits its two devices and both its ends are free. */
  ghost predicate FitsFree(devices: map<Id, Node>, cables: seq<Edge>, cable: Edge) {
    && EndsExist(devices, cable) && PowerEndsFit(devices[cable.source], devices[cable.target], cable)
    && !PlugsOut(cables, cable.source, Socket(cable)) && !PlugsIn(cables, cable.target, Input(cable))
  }

  /** A second cable between two joined devices keeps the rules exactly when it fits
      and its ends are free: it can close no new loop. */
  lemma JoinedAgain(devices: map<Id, Node>, cables: seq<Edge>, cable: Edge)
    requires SoundEdges(devices, cables) && Acyclic(PowerArcs(cables))
    requires cable.kind.Power? && (cable.source, cable.target) in PowerArcs(cables)
    ensures SoundEdges(devices, cables + [cable]) && Acyclic(PowerArcs(cables + [cable])) <==>
            FitsFree(devices, cables, cable)
  {
    assert PowerArcs(cables + [cable]) == PowerArcs(cables);
    var joining :| joining in cables && joining.kind.Power? && joining.source == cable.source
      && joining.target == cable.target;
    var k :| 0 <= k < |cables| && cables[k] == joining;
    assert SoundEdge(devices, cables[k]);
    if SoundEdges(devices, cables + [cable]) {
      FitsWhenSound(devices, cables, cable);
    }
    if FitsFree(devices, cables, cable) {
      SoundWhenFits(devices, cables, cable);
    }
  }

  lemma FitsWhenSound(devices: map<Id, Node>, cables: seq<Edge>, cable: Edge)
    requires SoundEdges(devices, cables + [cable]) && cable.kind.Power?
    ensures FitsFree(devices, cables, cable)
  {
    LastCompatible(devices, cables, cable);
    if PlugsIn(cables, cable.target, Input(cable)) {
      var c :| c in cables && c.kind.Power? && c.target == cable.target && Input(c) == Input(cable);
      InputClash(devices, c, cable);
    }
    if PlugsOut(cables, cable.source, Socket(cable)) {
      var c :| c in cables && c.kind.Power? && c.source == cable.source && Socket(c) == Socket(cable);
      SocketClash(devices, c, cable);
    }
  }

  lemma SoundWhenFits(devices: map<Id, Node>, cables: seq<Edge>, cable: Edge)
    requires SoundEdges(devices, cables) && cable.kind.Power? && cable.source != cable.target
             && FitsFree(devices, cables, cable)
    ensures SoundEdges(devices, cables + [cable])
  {
    HandleDetermined(POWER_OUT_PREFIX, cable.sourceHandle);
    HandleDetermined(POWER_IN_PREFIX, cable.targetHandle);
    forall f | f in cables
      ensures EndsExist(devices, f) && Compatible(devices, f, cable)
    {
      var i :| 0 <= i < |cables| && cables[i] == f;
      assert SoundEdge(devices, cables[i]);
      if f.kind.Power? {
        assert PlugsOut(cables, f.source, Socket(f)) && PlugsIn(cables, f.target, Input(f));
      }
      FreeEndsCompatible(devices, f, cable, Socket(cable), Input(cable));
    }
    assert cables + [] == cables && cables + [cable] + [] == cables + [cable];
    InsertSound(devices, cables, cable, []);
  }

  lemma FitsFreeInScope(scope: Scope, devices: map<Id, Node>, cables: seq<Edge>, cable: Edge)
    ensures FitsFree(devices, Kept(scope, cables), cable) <==> FitsFree(devices, cables, cable)
  {
    var kept := Kept(scope, cables);
    KeptHolds(scope, cables);
    assert PlugsOut(kept, cable.source, Socket(cable)) <==> PlugsOut(cables, cable.source, Socket(cable));
    assert PlugsIn(kept, cable.target, Input(cable)) <==> PlugsIn(cables, cable.target, Input(cable));
  }

  /** When a cable was dropped as already connected and the final wiring keeps the
      rules, putting it back as this power cable keeps them exactly when it fits its
      two devices and plugs into a free socket and a free input. */
  lemma JoinedDropExact(scope: Scope, nodes: seq<Node>, edges: seq<Edge>, d: Dropped, outlets: map<Id, nat>,
                        cable: Edge)
    requires d in Planned(nodes, edges).plan.dropped && d.reason == AlreadyJoined
    requires cable.kind.Power? && cable.source == d.feeder && cable.target == d.fed
    requires Obeys(scope, Stored(GrownNodes(nodes, outlets)), Planned(nodes, edges).rewritten)
    ensures Obeys(scope, Stored(GrownNodes(nodes, outlets)), Planned(nodes, edges).rewritten + [cable])
            <==> FitsFree(Stored(GrownNodes(nodes, outlets)), Planned(nodes, edges).rewritten, cable)
  {
    var devices, cables := Stored(GrownNodes(nodes, outlets)), Planned(nodes, edges).rewritten;
    PlannedFaithful(nodes, edges);
    KeptHolds(scope, cables);
    KeptHolds(scope, cables + [cable]);
    KeptWithCable(scope, cables, cable);
    FitsFreeInScope(scope, devices, cables, cable);
    JoinedAgain(devices, Kept(scope, cables), cable);
  }

  ghost predicate AllPlaced(nodes: seq<Node>) {
    forall i :: 0 <= i < |nodes| ==> WellPlaced(ById(nodes), nodes[i])
  }

  lemma GrownPlaced(nodes: seq<Node>, outlets: map<Id, nat>)
    ensures AllPlaced(GrownNodes(nodes, outlets)) <==> AllPlaced(nodes)
  {
    var grown := GrownNodes(nodes, outlets);
    GrownById(nodes, outlets);
    forall i | 0 <= i < |nodes|
      ensures WellPlaced(ById(grown), grown[i]) <==> WellPlaced(ById(nodes), nodes[i])
    {
      assert grown[i] == GrowNode(nodes[i], outlets);
    }
    if AllPlaced(grown) {
      forall i | 0 <= i < |nodes|
        ensures WellPlaced(ById(nodes), nodes[i])
      {
        assert WellPlaced(ById(grown), grown[i]);
      }
    }
  }

  /** The rules of a whole build are those of its devices and those of its cables. */
  lemma ValidParts(nodes: seq<Node>, outlets: map<Id, nat>, cables: seq<Edge>)
    ensures ValidTopology(GrownNodes(nodes, outlets), cables)
            <==> SoundNodes(nodes) && AllPlaced(nodes) && Obeys(AllRules, Stored(GrownNodes(nodes, outlets)), cables)
  {
    var grown := GrownNodes(nodes, outlets);
    GrownNodesSound(nodes, outlets);
    GrownPlaced(nodes, outlets);
    assert ValidTopology(grown, cables) <==>
      SoundNodes(grown) && AllPlaced(grown) && SoundEdges(ById(grown), cables) && Acyclic(PowerArcs(cables));
    hide SoundNodes, AllPlaced, SoundEdges, Acyclic, ValidTopology;
    if SoundNodes(grown) {
      StoredIsById(grown);
    }
  }

  /** The same of the save validation. */
  lemma JoinedDropAccepted(nodes: seq<Node>, edges: seq<Edge>, d: Dropped, outlets: map<Id, nat>, cable: Edge)
    requires d in Planned(nodes, edges).plan.dropped && d.reason == AlreadyJoined
    requires cable.kind.Power? && cable.source == d.feeder && cable.target == d.fed
    requires ValidTopology(GrownNodes(nodes, outlets), Planned(nodes, edges).rewritten)
    ensures ValidTopology(GrownNodes(nodes, outlets), Planned(nodes, edges).rewritten + [cable])
            <==> FitsFree(Stored(GrownNodes(nodes, outlets)), Planned(nodes, edges).rewritten, cable)
  {
    var cables := Planned(nodes, edges).rewritten;
    ValidParts(nodes, outlets, cables);
    ValidParts(nodes, outlets, cables + [cable]);
    JoinedDropExact(AllRules, nodes, edges, d, outlets, cable);
  }

  /** The fed device has an input free, and the feeder can have a free socket. */
  ghost predicate RoomLeft(devices: map<Id, Node>, cables: seq<Edge>, feeder: Id, fed: Id)
    requires fed in devices
  {
    && (exists i: int :: 0 <= i < PowerInputCount(devices[fed].kind, devices[fed].details) && !PlugsIn(cables, fed, i))
    && (exists i: int :: 0 <= i < MAX_POWER_OUTPUTS && !PlugsOut(cables, feeder, i))
  }

  /** Putting the cable back at these handles and with these socket counts keeps the rules. */
  ghost predicate CanReturn(scope: Scope, nodes: seq<Node>, cables: seq<Edge>, d: Dropped, outlets: map<Id, nat>,
                            cable: Edge)
  {
    && cable.kind.Power? && cable.source == d.feeder && cable.target == d.fed
    && Obeys(scope, Stored(GrownNodes(nodes, outlets)), cables + [cable])
  }

  lemma ReturnNeedsRoom(scope: Scope, nodes: seq<Node>, cables: seq<Edge>, d: Dropped, outlets: map<Id, nat>,
                        cable: Edge)
    requires CanReturn(scope, nodes, cables, d, outlets, cable)
    ensures d.fed in Stored(nodes) && RoomLeft(Stored(nodes), cables, d.feeder, d.fed)
  {
    var devices := Stored(GrownNodes(nodes, outlets));
    StoredGrown(nodes, outlets);
    KeptWithCable(scope, cables, cable);
    FitsWhenSound(devices, Kept(scope, cables), cable);
    FitsFreeInScope(scope, devices, cables, cable);
  }

  /** Growing a source for one more socket keeps the rules and lets a cable to it fit. */
  lemma GrownForCable(scope: Scope, devices: map<Id, Node>, cables: seq<Edge>, outlets: map<Id, nat>, feeder: Id,
                      fed: Id, socket: nat, input: nat)
    returns (grown: map<Id, nat>)
    requires KeyedById(devices) && OutletsNeeded(devices, cables, outlets)
    requires feeder in devices && fed in devices && IsPowerSource(devices[feeder].kind)
    requires socket < MAX_POWER_OUTPUTS && input < PowerInputCount(devices[fed].kind, devices[fed].details)
    requires !PlugsOut(cables, feeder, socket) && !PlugsIn(cables, fed, input)
    requires Obeys(scope, Grown(devices, outlets), cables)
    ensures Obeys(scope, Grown(devices, grown), cables)
    ensures FitsFree(Grown(devices, grown), cables,
                     PowerCable(Edge(0, Power, "", "", "", ""), feeder, socket, fed, input))
  {
    hide SoundEdges, Acyclic, OutletsNeeded, PlugsOut, PlugsIn, KeyedById, PowerArcs, MoreSockets, Grown;
    grown := if socket >= SocketsOf(devices, outlets, feeder) then outlets[feeder := socket + 1] else outlets;
    GrownKinds(devices, grown, feeder);
    GrownKinds(devices, grown, fed);
    GrowthFits(devices, cables, outlets, feeder, socket);
    MoreSocketsSound(Grown(devices, outlets), Grown(devices, grown), Kept(scope, cables));
    CableFits(Grown(devices, grown), cables, feeder, fed, socket, input);
  }

  lemma GrownKinds(devices: map<Id, Node>, outlets: map<Id, nat>, id: Id)
    requires id in devices
    ensures id in Grown(devices, outlets) && Grown(devices, outlets)[id].kind == devices[id].kind
    ensures var node := Grown(devices, outlets)[id];
            PowerInputCount(node.kind, node.details) == PowerInputCount(devices[id].kind, devices[id].details)
  {
  }

  lemma CableFits(devices: map<Id, Node>, cables: seq<Edge>, feeder: Id, fed: Id, socket: nat, input: nat)
    requires feeder in devices && fed in devices && IsPowerSource(devices[feeder].kind)
    requires socket < PowerOutputCount(devices[feeder].kind, devices[feeder].details)
    requires input < PowerInputCount(devices[fed].kind, devices[fed].details)
    requires !PlugsOut(cables, feeder, socket) && !PlugsIn(cables, fed, input)
    ensures FitsFree(devices, cables, PowerCable(Edge(0, Power, "", "", "", ""), feeder, socket, fed, input))
  {
    hide PlugsOut, PlugsIn;
    HandleRoundTrip(POWER_OUT_PREFIX, socket);
    HandleRoundTrip(POWER_IN_PREFIX, input);
  }

  lemma RoomIsEnough(scope: Scope, nodes: seq<Node>, edges: seq<Edge>, d: Dropped)
    returns (outlets: map<Id, nat>, cable: Edge)
    requires d in Planned(nodes, edges).plan.dropped && d.reason == AlreadyJoined
    requires Obeys(scope, Stored(GrownNodes(nodes, Planned(nodes, edges).plan.outlets)),
                   Planned(nodes, edges).rewritten)
    requires d.fed in Stored(nodes) && RoomLeft(Stored(nodes), Planned(nodes, edges).rewritten, d.feeder, d.fed)
    ensures CanReturn(scope, nodes, Planned(nodes, edges).rewritten, d, outlets, cable)
  {
    var p, devices := Planned(nodes, edges), Stored(nodes);
    var cables := p.rewritten;
    var input: int :| 0 <= input < PowerInputCount(devices[d.fed].kind, devices[d.fed].details)
      && !PlugsIn(cables, d.fed, input);
    var socket: int :| 0 <= socket < MAX_POWER_OUTPUTS && !PlugsOut(cables, d.feeder, socket);
    PlannedFaithful(nodes, edges);
    assert Blocked(devices, cables, d) && OutletsNeeded(devices, cables, p.plan.outlets);
    hide Planned, OutletsNeeded, Obeys, FitsFree, RoomLeft, PlugsIn, PlugsOut, Faithful;
    StoredGrown(nodes, p.plan.outlets);
    JoinedFeeder(scope, Grown(devices, p.plan.outlets), cables, d.feeder, d.fed);
    outlets := GrownForCable(scope, devices, cables, p.plan.outlets, d.feeder, d.fed, socket, input);
    cable := PowerCable(Edge(0, Power, "", "", "", ""), d.feeder, socket, d.fed, input);
    StoredGrown(nodes, outlets);
    JoinedDropExact(scope, nodes, edges, d, outlets, cable);
  }

  lemma JoinedFeeder(scope: Scope, devices: map<Id, Node>, cables: seq<Edge>, feeder: Id, fed: Id)
    requires Obeys(scope, devices, cables) && (feeder, fed) in PowerArcs(cables)
    ensures feeder in devices && fed in devices && IsPowerSource(devices[feeder].kind)
    ensures exists c ::
              && c in cables && c.kind.Power? && c.source == feeder && c.target == fed
              && PowerEndsFit(devices[feeder], devices[fed], c)
  {
    KeptHolds(scope, cables);
    var c :| c in cables && c.kind.Power? && c.source == feeder && c.target == fed;
    assert c in Kept(scope, cables);
    var k :| 0 <= k < |Kept(scope, cables)| && Kept(scope, cables)[k] == c;
    assert SoundEdge(devices, Kept(scope, cables)[k]);
  }

  /** It can be put back somewhere exactly when an input of the fed device is free
      and the feeder can have one more socket. */
  lemma JoinedDropCanReturn(scope: Scope, nodes: seq<Node>, edges: seq<Edge>, d: Dropped)
    requires d in Planned(nodes, edges).plan.dropped && d.reason == AlreadyJoined && d.fed in Stored(nodes)
    requires Obeys(scope, Stored(GrownNodes(nodes, Planned(nodes, edges).plan.outlets)),
                   Planned(nodes, edges).rewritten)
    ensures (exists outlets, cable :: CanReturn(scope, nodes, Planned(nodes, edges).rewritten, d, outlets, cable))
            <==> RoomLeft(Stored(nodes), Planned(nodes, edges).rewritten, d.feeder, d.fed)
  {
    var cables := Planned(nodes, edges).rewritten;
    forall outlets, cable | CanReturn(scope, nodes, cables, d, outlets, cable)
      ensures RoomLeft(Stored(nodes), cables, d.feeder, d.fed)
    {
      ReturnNeedsRoom(scope, nodes, cables, d, outlets, cable);
    }
    if RoomLeft(Stored(nodes), cables, d.feeder, d.fed) {
      var outlets, cable := RoomIsEnough(scope, nodes, edges, d);
    }
  }

  lemma OneInputIsFull(scope: Scope, devices: map<Id, Node>, cables: seq<Edge>, feeder: Id, fed: Id)
    requires Obeys(scope, devices, cables) && (feeder, fed) in PowerArcs(cables)
    requires fed in devices && PowerInputCount(devices[fed].kind, devices[fed].details) <= 1
    ensures PlugsIn(cables, fed, 0)
  {
    JoinedFeeder(scope, devices, cables, feeder, fed);
    var c :| c in cables && c.kind.Power? && c.source == feeder && c.target == fed
      && PowerEndsFit(devices[feeder], devices[fed], c);
    assert Input(c) == 0;
  }

  /** So a device with one power input takes no second cable from its feeder. */
  lemma OneInputTakesNoSecond(scope: Scope, nodes: seq<Node>, edges: seq<Edge>, d: Dropped, outlets: map<Id, nat>,
                              cable: Edge)
    requires d in Planned(nodes, edges).plan.dropped && d.reason == AlreadyJoined && d.fed in Stored(nodes)
    requires PowerInputCount(Stored(nodes)[d.fed].kind, Stored(nodes)[d.fed].details) <= 1
    ensures !CanReturn(scope, nodes, Planned(nodes, edges).rewritten, d, outlets, cable)
  {
    var cables, devices := Planned(nodes, edges).rewritten, Stored(GrownNodes(nodes, outlets));
    PlannedFaithful(nodes, edges);
    StoredGrown(nodes, outlets);
    if CanReturn(scope, nodes, cables, d, outlets, cable) {
      KeptWithCable(scope, cables, cable);
      LastCompatible(devices, Kept(scope, cables), cable);
      AcyclicSubset(PowerArcs(cables), PowerArcs(cables + [cable]));
      OneInputIsFull(scope, devices, cables, d.feeder, d.fed);
      ReturnNeedsRoom(scope, nodes, cables, d, outlets, cable);
    }
  }

  // A device with two inputs, fed through one of them and joined to its feeder by an
  // old cable as well: the old cable is dropped, and as a second power cable it would
  // be accepted.

  function TwoInputNodes(a: Id, b: Id): seq<Node> {
    [Node(a, PowerOutlet, None, [], 0, Details(None, None)), Node(b, Server, None, [], 0, Details(Some(2), None))]
  }

  function Feed(id: nat, a: Id, b: Id, n: nat): Edge {
    Edge(id, Power, a, PowerHandle(POWER_OUT_PREFIX, n), b, PowerHandle(POWER_IN_PREFIX, n))
  }

  function TwoInputEdges(a: Id, b: Id): seq<Edge> { [Feed(1, a, b, 0), Edge(2, Ethernet, a, "", b, "")] }

  lemma TwoInputsStored(a: Id, b: Id)
    requires !Blank(a) && !Blank(b) && a != b
    ensures Stored(TwoInputNodes(a, b)) == map[a := TwoInputNodes(a, b)[0], b := TwoInputNodes(a, b)[1]]
    ensures ById(TwoInputNodes(a, b)) == Stored(TwoInputNodes(a, b)) && SoundNodes(TwoInputNodes(a, b))
  {
    var nodes := TwoInputNodes(a, b);
    var front := nodes[..1];
    assert front == [nodes[0]] && front[..|front| - 1] == [] && nodes[..|nodes| - 1] == front;
    assert Stored(front) == map[a := nodes[0]];
    assert ById(front) == map[a := nodes[0]];
    assert AllVms(front) == [];
  }

  lemma TwoInputsDrawn(a: Id, b: Id)
    ensures DrawnWires(TwoInputEdges(a, b)) == Wires(map[a := {0}], map[b := {0}], map[a := [b]])
  {
    var edges, one := TwoInputEdges(a, b), [Feed(1, a, b, 0)];
    assert edges[..|edges| - 1] == one && one[..|one| - 1] == [];
    HandleRoundTrip(POWER_OUT_PREFIX, 0);
    HandleRoundTrip(POWER_IN_PREFIX, 0);
    assert Socket(one[0]) == 0 && Input(one[0]) == 0;
    assert DrawnWires(one) == Plug(NO_WIRES, a, 0, b, 0);
    assert DrawnWires(edges) == DrawnWires(one);
    var none: set<int> := {};
    assert none + {0} == {0} && [] + [b] == [b];
  }

  lemma TwoSteps(devices: map<Id, Node>, start: Progress, e: Edge, f: Edge)
    ensures Steps(devices, start, [e, f]) == Step(devices, Step(devices, start, e), f)
  {
    hide Step;
    var both, one := [e, f], [e];
    assert both[..|both| - 1] == one && one[..|one| - 1] == [];
    assert Steps(devices, start, one) == Step(devices, Steps(devices, start, []), e);
  }

  lemma TwoInputsDecided(a: Id, b: Id)
    requires a != b
    ensures var nodes := TwoInputNodes(a, b);
            var devices, wires := map[a := nodes[0], b := nodes[1]], Wires(map[a := {0}], map[b := {0}], map[a := [b]]);
            var joined := Edge(2, Ethernet, a, "", b, "");
            && !IsLegacy(devices, Feed(1, a, b, 0))
            && IsLegacy(devices, joined) && Ends(devices, joined) == (a, b)
            && Decide(devices, wires, a, b) == Drop(AlreadyJoined)
  {
    hide LowestFree, Reaches;
  }

  lemma TwoInputsPlanned(a: Id, b: Id)
    requires !Blank(a) && !Blank(b) && a != b
    ensures var p := Planned(TwoInputNodes(a, b), TwoInputEdges(a, b));
            && p.plan == Plan([], [Dropped(2, a, b, AlreadyJoined)], map[]) && p.rewritten == [Feed(1, a, b, 0)]
  {
    hide DrawnWires, Stored, ById, SoundNodes, Blank, IsLegacy, Ends, Decide, Steps, Feed;
    var nodes, edges := TwoInputNodes(a, b), TwoInputEdges(a, b);
    TwoInputsStored(a, b);
    TwoInputsDrawn(a, b);
    TwoInputsDecided(a, b);
    TwoSteps(Stored(nodes), Progress(DrawnWires(edges), NO_PLAN, []), edges[0], edges[1]);
    assert edges == [edges[0], edges[1]];
  }

  lemma OneFeedAcyclic(a: Id, b: Id)
    requires a != b
    ensures Acyclic(PowerArcs([Feed(1, a, b, 0)]))
  {
    assert PowerArcs([Feed(1, a, b, 0)]) == {} + {(a, b)};
    hide PowerArcs, Feed, Acyclic, Reaches;
    if Reaches({}, b, a) {
      ClosedKeepsReach({}, {b}, b, a);
    }
    NoArcsAcyclic<Id>();
    ArcKeepsAcyclic({}, a, b);
  }

  lemma NoArcsAcyclic<V(!new)>()
    ensures Acyclic<V>({})
  {
  }

  lemma TwoInputsValid(a: Id, b: Id)
    requires !Blank(a) && !Blank(b) && a != b
    ensures ValidTopology(TwoInputNodes(a, b), [Feed(1, a, b, 0)])
  {
    hide Acyclic, Blank, SoundNodes, Stored, PowerArcs;
    TwoInputsStored(a, b);
    HandleRoundTrip(POWER_OUT_PREFIX, 0);
    HandleRoundTrip(POWER_IN_PREFIX, 0);
    OneFeedAcyclic(a, b);
  }

  /** The dropped cable, put back as a second power cable, is accepted here. */
  lemma TwoInputsTakeBoth(a: Id, b: Id)
    requires !Blank(a) && !Blank(b) && a != b
    ensures var nodes, edges := TwoInputNodes(a, b), TwoInputEdges(a, b);
            var p := Planned(nodes, edges);
            && Dropped(2, a, b, AlreadyJoined) in p.plan.dropped
            && ValidTopology(GrownNodes(nodes, p.plan.outlets), p.rewritten)
            && ValidTopology(GrownNodes(nodes, p.plan.outlets), p.rewritten + [Feed(2, a, b, 1)])
  {
    var nodes, edges := TwoInputNodes(a, b), TwoInputEdges(a, b);
    TwoInputsStored(a, b);
    TwoInputsPlanned(a, b);
    TwoInputsValid(a, b);
    HandleRoundTrip(POWER_OUT_PREFIX, 0);
    HandleRoundTrip(POWER_IN_PREFIX, 0);
    HandleRoundTrip(POWER_OUT_PREFIX, 1);
    HandleRoundTrip(POWER_IN_PREFIX, 1);
    assert GrownNodes(nodes, map[]) == nodes;
    hide ValidTopology, Planned, SoundNodes, ById, Stored;
    JoinedDropAccepted(nodes, edges, Dropped(2, a, b, AlreadyJoined), map[], Feed(2, a, b, 1));
  }
}
