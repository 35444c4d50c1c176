/** What the conversion of old cables guarantees: the save validation accepts what
    it stores, every old cable is settled once, and it never has to run twice. */
module PowerTheorems {
  import opened Wrappers
  import opened Wiring
  import opened Topology
  import opened Graph
  import opened PowerPlan
  import Searches

  // ---- grown socket counts ----

  function WithOutlets(details: Details, outlets: nat): Details {
    Details(if details.Unreadable? then None else details.psuCount, Some(outlets))
  }

  function GrowNode(node: Node, outlets: map<Id, nat>): Node {
    if node.id in outlets then node.(details := WithOutlets(node.details, outlets[node.id])) else node
  }

  function GrownNodes(nodes: seq<Node>, outlets: map<Id, nat>): seq<Node> {
    seq(|nodes|, i requires 0 <= i < |nodes| => GrowNode(nodes[i], outlets))
  }

  ghost function Grown(devices: map<Id, Node>, outlets: map<Id, nat>): map<Id, Node> {
    map id | id in devices :: GrowNode(devices[id], outlets)
  }

  ghost predicate KeyedById(devices: map<Id, Node>) {
    forall id <- devices :: devices[id].id == id
  }

  lemma {:induction false} StoredIsById(nodes: seq<Node>)
    requires SoundNodes(nodes)
    ensures Stored(nodes) == ById(nodes) && KeyedById(Stored(nodes))
  {
    if nodes != [] {
      var front, last := nodes[..|nodes| - 1], nodes[|nodes| - 1];
      SoundFront(nodes);
      StoredIsById(front);
      ByIdHolds(front);
      assert last.id !in ById(front);
    }
  }

  lemma SoundFront(nodes: seq<Node>)
    requires SoundNodes(nodes) && nodes != []
    ensures SoundNodes(nodes[..|nodes| - 1])
    ensures forall i :: 0 <= i < |nodes| - 1 ==> nodes[i].id != nodes[|nodes| - 1].id
    ensures SoundNode(nodes[|nodes| - 1])
  {
    var front, last := nodes[..|nodes| - 1], nodes[|nodes| - 1];
    var all, some := AllVms(nodes), AllVms(front);
    assert forall i :: 0 <= i < |some| ==> all[i] == some[i];
    assert forall i :: 0 <= i < |front| ==> front[i] == nodes[i];
  }

  lemma {:induction false} GrownById(nodes: seq<Node>, outlets: map<Id, nat>)
    ensures ById(GrownNodes(nodes, outlets)) == Grown(ById(nodes), outlets)
    ensures AllVms(GrownNodes(nodes, outlets)) == AllVms(nodes)
  {
    if nodes != [] {
      var front := nodes[..|nodes| - 1];
      GrownById(front, outlets);
      assert GrownNodes(nodes, outlets)[..|nodes| - 1] == GrownNodes(front, outlets);
    }
  }

  /** Growing sockets changes neither the devices' own rules nor their placement. */
  lemma GrownNodesSound(nodes: seq<Node>, outlets: map<Id, nat>)
    ensures SoundNodes(GrownNodes(nodes, outlets)) <==> SoundNodes(nodes)
  {
    GrownById(nodes, outlets);
    var grown := GrownNodes(nodes, outlets);
    forall i | 0 <= i < |nodes| ensures SoundNode(grown[i]) <==> SoundNode(nodes[i]) {
      assert grown[i].vms == nodes[i].vms;
    }
    if SoundNodes(grown) {
      forall i | 0 <= i < |nodes| ensures SoundNode(nodes[i]) { assert SoundNode(grown[i]); }
      forall i, j | 0 <= i < j < |nodes| ensures nodes[i].id != nodes[j].id { assert grown[i].id != grown[j].id; }
    }
  }

  lemma GrownNodesPlaced(nodes: seq<Node>, outlets: map<Id, nat>, i: nat)
    requires i < |nodes| && WellPlaced(ById(nodes), nodes[i])
    ensures WellPlaced(ById(GrownNodes(nodes, outlets)), GrownNodes(nodes, outlets)[i])
  {
    GrownById(nodes, outlets);
  }

  // ---- the wiring follows the cables ----

  ghost predicate PlugsOut(cables: seq<Edge>, id: Id, socket: int) {
    exists c :: c in cables && c.kind.Power? && c.source == id && Socket(c) == socket
  }

  ghost predicate PlugsIn(cables: seq<Edge>, id: Id, input: int) {
    exists c :: c in cables && c.kind.Power? && c.target == id && Input(c) == input
  }

  /** The tables of the planner say exactly what the power cables say. */
  ghost predicate WiresMatch(wires: Wires, cables: seq<Edge>) {
    && (forall id, i :: i in Used(wires.usedOut, id) <==> PlugsOut(cables, id, i))
    && (forall id, i :: i in Used(wires.usedIn, id) <==> PlugsIn(cables, id, i))
    && Arcs(wires.feeds) == PowerArcs(cables)
  }

  lemma PlugMatches(wires: Wires, before: seq<Edge>, c: Edge, after: seq<Edge>)
    requires WiresMatch(wires, before + after)
    ensures WiresMatch(PlugCable(wires, c), before + [c] + after)
  {
    var fewer, cables, w := before + after, before + [c] + after, PlugCable(wires, c);
    assert forall x :: x in cables <==> x == c || x in fewer;
    forall id, i ensures i in Used(w.usedOut, id) <==> PlugsOut(cables, id, i) {
      assert i in Used(wires.usedOut, id) <==> PlugsOut(fewer, id, i);
      if c.kind.Power? && c.source == id && Socket(c) == i {
        assert PlugsOut(cables, id, i);
      }
    }
    forall id, i ensures i in Used(w.usedIn, id) <==> PlugsIn(cables, id, i) {
      assert i in Used(wires.usedIn, id) <==> PlugsIn(fewer, id, i);
      if c.kind.Power? && c.target == id && Input(c) == i {
        assert PlugsIn(cables, id, i);
      }
    }
    if c.kind.Power? {
      FeedsWithCable(wires.feeds, c.source, c.target);
      assert PowerArcs(cables) == PowerArcs(fewer) + {(c.source, c.target)};
    } else {
      assert PowerArcs(cables) == PowerArcs(fewer);
    }
  }

  lemma FeedsWithCable(feeds: map<Id, seq<Id>>, feeder: Id, fed: Id)
    ensures Arcs(feeds[feeder := Searches.Next(feeds, feeder) + [fed]]) == Arcs(feeds) + {(feeder, fed)}
  {
  }

  lemma {:induction false} DrawnMatches(edges: seq<Edge>)
    ensures WiresMatch(DrawnWires(edges), edges)
  {
    if edges == [] {
    } else {
      var front, last := edges[..|edges| - 1], edges[|edges| - 1];
      DrawnMatches(front);
      assert front + [] == front && front + [last] + [] == edges;
      PlugMatches(DrawnWires(front), front, last, []);
    }
  }

  lemma {:induction false} NonLegacyHolds(devices: map<Id, Node>, edges: seq<Edge>)
    ensures forall e :: e in NonLegacy(devices, edges) <==> e in edges && !IsLegacy(devices, e)
  {
    if edges != [] {
      NonLegacyHolds(devices, edges[1..]);
      assert edges == [edges[0]] + edges[1..];
    }
  }

  lemma SameCablesMatch(wires: Wires, cables: seq<Edge>, others: seq<Edge>)
    requires WiresMatch(wires, cables)
    requires forall c: Edge :: c.kind.Power? ==> (c in cables <==> c in others)
    ensures WiresMatch(wires, others)
  {
    forall id, i ensures PlugsOut(cables, id, i) <==> PlugsOut(others, id, i) {}
    forall id, i ensures PlugsIn(cables, id, i) <==> PlugsIn(others, id, i) {}
    assert PowerArcs(cables) == PowerArcs(others);
  }

  // ---- what every step keeps ----

  /** Why a dropped cable cannot be kept in this wiring. */
  ghost predicate Blocked(devices: map<Id, Node>, cables: seq<Edge>, d: Dropped) {
    d.feeder in devices && d.fed in devices &&
    match d.reason
    case NoPowerInput => PowerInputCount(devices[d.fed].kind, devices[d.fed].details) == 0
    case InputsInUse => forall i :: 0 <= i < PowerInputCount(devices[d.fed].kind, devices[d.fed].details) ==>
      PlugsIn(cables, d.fed, i)
    case AlreadyJoined => (d.feeder, d.fed) in PowerArcs(cables)
    case Loop => Reaches(PowerArcs(cables), d.fed, d.feeder)
    case NoSocket => forall i :: 0 <= i < MAX_POWER_OUTPUTS ==> PlugsOut(cables, d.feeder, i)
  }

  /** Sockets are added to a source only when all it has are in use. */
  ghost predicate OutletsNeeded(devices: map<Id, Node>, cables: seq<Edge>, outlets: map<Id, nat>) {
    forall f <- outlets ::
      && f in devices && IsPowerSource(devices[f].kind)
      && PowerOutputCount(devices[f].kind, devices[f].details) < outlets[f] <= MAX_POWER_OUTPUTS
      && forall i :: 0 <= i < outlets[f] ==> PlugsOut(cables, f, i)
  }

  /** The cables in place when the cables `rest` are still to be looked at. */
  ghost function InPlace(devices: map<Id, Node>, p: Progress, rest: seq<Edge>): seq<Edge> {
    p.rewritten + NonLegacy(devices, rest)
  }

  ghost predicate Faithful(devices: map<Id, Node>, p: Progress, rest: seq<Edge>) {
    var cables := InPlace(devices, p, rest);
    && WiresMatch(p.wires, cables)
    && OutletsNeeded(devices, cables, p.plan.outlets)
    && (forall d <- p.plan.dropped :: Blocked(devices, cables, d))
    && (forall e <- p.rewritten :: !IsLegacy(devices, e))
  }

  lemma BlockedMonotone(devices: map<Id, Node>, cables: seq<Edge>, more: seq<Edge>, d: Dropped)
    requires Blocked(devices, cables, d) && forall c <- cables :: c in more
    ensures Blocked(devices, more, d)
  {
    assert PowerArcs(cables) <= PowerArcs(more);
    match d.reason
    case Loop => ReachesMonotone(PowerArcs(cables), PowerArcs(more), d.fed, d.feeder);
    case InputsInUse =>
      forall i | 0 <= i < PowerInputCount(devices[d.fed].kind, devices[d.fed].details) ensures PlugsIn(more, d.fed, i) {
        assert PlugsIn(cables, d.fed, i);
      }
    case NoSocket =>
      forall i | 0 <= i < MAX_POWER_OUTPUTS ensures PlugsOut(more, d.feeder, i) {
        assert PlugsOut(cables, d.feeder, i);
      }
    case NoPowerInput =>
    case AlreadyJoined =>
  }

  lemma StepFaithful(devices: map<Id, Node>, p: Progress, e: Edge, rest: seq<Edge>)
    requires Faithful(devices, p, [e] + rest)
    ensures Faithful(devices, Step(devices, p, e), rest)
  {
    assert ([e] + rest)[1..] == rest;
    if !IsLegacy(devices, e) {
      hide WiresMatch, OutletsNeeded, Blocked;
      assert InPlace(devices, Step(devices, p, e), rest) == InPlace(devices, p, [e] + rest);
    } else {
      var (feeder, fed) := Ends(devices, e);
      if Decide(devices, p.wires, feeder, fed).Drop? {
        DropFaithful(devices, p, e, rest);
      } else {
        ConvertFaithful(devices, p, e, rest);
      }
    }
  }

  lemma DropFaithful(devices: map<Id, Node>, p: Progress, e: Edge, rest: seq<Edge>)
    requires Faithful(devices, p, [e] + rest) && IsLegacy(devices, e)
    requires Decide(devices, p.wires, Ends(devices, e).0, Ends(devices, e).1).Drop?
    ensures Faithful(devices, Step(devices, p, e), rest)
  {
    hide WiresMatch, OutletsNeeded, Blocked, Decide;
    assert ([e] + rest)[1..] == rest;
    var (feeder, fed) := Ends(devices, e);
    var cables := InPlace(devices, p, [e] + rest);
    assert InPlace(devices, Step(devices, p, e), rest) == cables;
    DropBlocked(devices, p.wires, cables, feeder, fed, e.id);
  }

  lemma ConvertFaithful(devices: map<Id, Node>, p: Progress, e: Edge, rest: seq<Edge>)
    requires Faithful(devices, p, [e] + rest) && IsLegacy(devices, e)
    requires Decide(devices, p.wires, Ends(devices, e).0, Ends(devices, e).1).Convert?
    ensures Faithful(devices, Step(devices, p, e), rest)
  {
    hide WiresMatch, OutletsNeeded, Blocked;
    assert ([e] + rest)[1..] == rest;
    var (feeder, fed) := Ends(devices, e);
    var Convert(socket, input) := Decide(devices, p.wires, feeder, fed);
    var cable := PowerCable(e, feeder, socket, fed, input);
    var next := Step(devices, p, e);
    var before, after := InPlace(devices, p, [e] + rest), InPlace(devices, next, rest);
    assert before == p.rewritten + NonLegacy(devices, rest);
    assert after == p.rewritten + [cable] + NonLegacy(devices, rest);
    HandleRoundTrip(POWER_OUT_PREFIX, socket);
    HandleRoundTrip(POWER_IN_PREFIX, input);
    PlugMatches(p.wires, p.rewritten, cable, NonLegacy(devices, rest));
    forall d | d in p.plan.dropped ensures Blocked(devices, after, d) {
      BlockedMonotone(devices, before, after, d);
    }
    assert PlugsOut(after, feeder, socket);
    GrowthNeeded(devices, p, before, after, feeder, socket);
  }

  lemma DropBlocked(devices: map<Id, Node>, wires: Wires, cables: seq<Edge>, feeder: Id, fed: Id, id: nat)
    requires WiresMatch(wires, cables) && feeder in devices && fed in devices
    requires Decide(devices, wires, feeder, fed).Drop?
    ensures Blocked(devices, cables, Dropped(id, feeder, fed, Decide(devices, wires, feeder, fed).reason))
  {
    match Decide(devices, wires, feeder, fed).reason
    case AlreadyJoined => assert (feeder, fed) in Arcs(wires.feeds);
    case InputsInUse =>
      forall i | 0 <= i < PowerInputCount(devices[fed].kind, devices[fed].details) ensures PlugsIn(cables, fed, i) {
        assert i in Used(wires.usedIn, fed);
      }
    case NoSocket =>
      forall i | 0 <= i < MAX_POWER_OUTPUTS ensures PlugsOut(cables, feeder, i) {
        assert i in Used(wires.usedOut, feeder);
      }
    case Loop =>
    case NoPowerInput =>
  }

  lemma GrowthNeeded(devices: map<Id, Node>, p: Progress, before: seq<Edge>, after: seq<Edge>, feeder: Id, socket: nat)
    requires WiresMatch(p.wires, before) && OutletsNeeded(devices, before, p.plan.outlets)
    requires forall c <- before :: c in after
    requires feeder in devices && IsPowerSource(devices[feeder].kind)
    requires LowestFree(Used(p.wires.usedOut, feeder), 0, MAX_POWER_OUTPUTS) == Some(socket)
    requires PlugsOut(after, feeder, socket)
    ensures var outlets := if socket >= SocketsOf(devices, p.plan.outlets, feeder)
                           then p.plan.outlets[feeder := socket + 1] else p.plan.outlets;
            OutletsNeeded(devices, after, outlets)
  {
    forall f, i | f in p.plan.outlets && 0 <= i < p.plan.outlets[f] ensures PlugsOut(after, f, i) {
      assert PlugsOut(before, f, i);
    }
    if socket >= SocketsOf(devices, p.plan.outlets, feeder) {
      forall i | 0 <= i < socket + 1 ensures PlugsOut(after, feeder, i) {
        if i < socket {
          assert i in Used(p.wires.usedOut, feeder);
          assert PlugsOut(before, feeder, i);
        }
      }
    }
  }

  lemma {:induction false} StepsFaithful(devices: map<Id, Node>, start: Progress, edges: seq<Edge>, n: nat)
    requires n <= |edges| && Faithful(devices, start, edges)
    ensures Faithful(devices, Steps(devices, start, edges[..n]), edges[n..])
  {
    if n == 0 {
      assert edges[0..] == edges;
    } else {
      StepsFaithful(devices, start, edges, n - 1);
      assert edges[..n][..n - 1] == edges[..n - 1];
      assert edges[n - 1..] == [edges[n - 1]] + edges[n..];
      StepFaithful(devices, Steps(devices, start, edges[..n - 1]), edges[n - 1], edges[n..]);
    }
  }

  lemma StartFaithful(devices: map<Id, Node>, edges: seq<Edge>)
    ensures Faithful(devices, Progress(DrawnWires(edges), NO_PLAN, []), edges)
  {
    DrawnMatches(edges);
    NonLegacyHolds(devices, edges);
    assert [] + NonLegacy(devices, edges) == NonLegacy(devices, edges);
    SameCablesMatch(DrawnWires(edges), edges, NonLegacy(devices, edges));
  }

  lemma PlannedFaithful(nodes: seq<Node>, edges: seq<Edge>)
    ensures Faithful(Stored(nodes), Planned(nodes, edges), [])
    ensures InPlace(Stored(nodes), Planned(nodes, edges), []) == Planned(nodes, edges).rewritten
  {
    StartFaithful(Stored(nodes), edges);
    StepsFaithful(Stored(nodes), Progress(DrawnWires(edges), NO_PLAN, []), edges, |edges|);
    assert edges[..|edges|] == edges && edges[|edges|..] == [];
  }

  // ---- the validator accepts the result ----

  /** Which rules are spoken of: all of a build's cables, or the power cables alone. */
  datatype Scope = AllRules | PowerRules

  function Powered(cables: seq<Edge>): seq<Edge> {
    if |cables| == 0 then []
    else Powered(cables[..|cables| - 1]) + if cables[|cables| - 1].kind.Power? then [cables[|cables| - 1]] else []
  }

  function Kept(scope: Scope, cables: seq<Edge>): seq<Edge> {
    if scope.AllRules? then cables else Powered(cables)
  }

  /** The cables in scope keep the rules of the save validation, power loops included. */
  ghost predicate Obeys(scope: Scope, devices: map<Id, Node>, cables: seq<Edge>) {
    SoundEdges(devices, Kept(scope, cables)) && Acyclic(PowerArcs(cables))
  }

  lemma {:induction false} PoweredHolds(cables: seq<Edge>)
    ensures forall c :: c in Powered(cables) <==> c in cables && c.kind.Power?
  {
    if |cables| > 0 {
      PoweredHolds(cables[..|cables| - 1]);
      assert cables == cables[..|cables| - 1] + [cables[|cables| - 1]];
    }
  }

  lemma {:induction false} PoweredJoins(a: seq<Edge>, b: seq<Edge>)
    ensures Powered(a + b) == Powered(a) + Powered(b)
  {
    var whole := a + b;
    if |b| == 0 {
      assert whole == a;
    } else {
      PoweredJoins(a, b[..|b| - 1]);
      assert whole[..|whole| - 1] == a + b[..|b| - 1] && whole[|whole| - 1] == b[|b| - 1];
    }
  }

  lemma KeptHolds(scope: Scope, cables: seq<Edge>)
    ensures forall c: Edge :: c.kind.Power? ==> (c in Kept(scope, cables) <==> c in cables)
    ensures forall c <- Kept(scope, cables) :: c in cables
    ensures PowerArcs(Kept(scope, cables)) == PowerArcs(cables)
  {
    PoweredHolds(cables);
  }

  lemma KeptAround(scope: Scope, front: seq<Edge>, c: Edge, back: seq<Edge>)
    requires c.kind.Power?
    ensures Kept(scope, front + back) == Kept(scope, front) + Kept(scope, back)
    ensures Kept(scope, front + [c] + back) == Kept(scope, front) + [c] + Kept(scope, back)
  {
    PoweredJoins(front, back);
    PoweredJoins(front, [c]);
    PoweredJoins(front + [c], back);
    var one := [c];
    assert one[..0] == [];
  }

  /** The validity invariant: with the sockets grown so far, the cables in place
      keep the rules. */
  ghost predicate Valid(scope: Scope, devices: map<Id, Node>, p: Progress, rest: seq<Edge>) {
    Obeys(scope, Grown(devices, p.plan.outlets), InPlace(devices, p, rest))
  }

  /** The same devices, with at least as many sockets each. */
  ghost predicate MoreSockets(devices: map<Id, Node>, more: map<Id, Node>) {
    && devices.Keys == more.Keys
    && forall id <- devices ::
         && devices[id].kind == more[id].kind
         && PowerInputCount(devices[id].kind, devices[id].details) == PowerInputCount(more[id].kind, more[id].details)
         && PowerOutputCount(devices[id].kind, devices[id].details) <= PowerOutputCount(more[id].kind, more[id].details)
  }

  lemma MoreSocketsSound(devices: map<Id, Node>, more: map<Id, Node>, cables: seq<Edge>)
    requires MoreSockets(devices, more) && SoundEdges(devices, cables)
    ensures SoundEdges(more, cables)
  {
    forall i | 0 <= i < |cables| ensures SoundEdge(more, cables[i]) {
      assert SoundEdge(devices, cables[i]);
    }
    forall i, j | 0 <= i < j < |cables| ensures Compatible(more, cables[i], cables[j]) {
      assert SoundEdge(devices, cables[i]) && SoundEdge(devices, cables[j])
        && Compatible(devices, cables[i], cables[j]);
      assert PortsOf(more, cables[i]) == PortsOf(devices, cables[i])
        && PortsOf(more, cables[j]) == PortsOf(devices, cables[j]);
      assert TablesOf(more, cables[i]) == TablesOf(devices, cables[i])
        && TablesOf(more, cables[j]) == TablesOf(devices, cables[j]);
    }
  }

  lemma InsertSound(devices: map<Id, Node>, before: seq<Edge>, c: Edge, after: seq<Edge>)
    requires SoundEdges(devices, before + after) && SoundEdge(devices, c)
    requires forall f :: f in before + after ==> EndsExist(devices, f) && Compatible(devices, f, c)
    ensures SoundEdges(devices, before + [c] + after)
  {
    var fewer, cables := before + after, before + [c] + after;
    var k := |before|;
    forall i | 0 <= i < |cables| ensures SoundEdge(devices, cables[i]) {
      if i != k {
        assert SoundEdge(devices, fewer[if i < k then i else i - 1]);
      }
    }
    forall i, j | 0 <= i < j < |cables| ensures Compatible(devices, cables[i], cables[j]) {
      if i == k {
        assert fewer[j - 1] in fewer && cables[j] == fewer[j - 1];
        CompatibleSymmetric(devices, cables[j], c);
      } else if j == k {
        assert fewer[i] in fewer && cables[i] == fewer[i];
      } else {
        assert Compatible(devices, fewer[if i < k then i else i - 1], fewer[if j < k then j else j - 1]);
      }
    }
  }

  lemma CompatibleSymmetric(devices: map<Id, Node>, e: Edge, f: Edge)
    requires EndsExist(devices, e) && EndsExist(devices, f) && Compatible(devices, e, f)
    ensures Compatible(devices, f, e)
  {
  }

  lemma PrefixesDiffer(n: nat)
    ensures "pwr-" <= PowerHandle(POWER_OUT_PREFIX, n) && !(POWER_IN_PREFIX <= PowerHandle(POWER_OUT_PREFIX, n))
    ensures "pwr-" <= PowerHandle(POWER_IN_PREFIX, n) && !(POWER_OUT_PREFIX <= PowerHandle(POWER_IN_PREFIX, n))
  {
    assert PowerHandle(POWER_OUT_PREFIX, n)[4] == 'o' && POWER_IN_PREFIX[4] == 'i';
    assert PowerHandle(POWER_IN_PREFIX, n)[4] == 'i' && POWER_OUT_PREFIX[4] == 'o';
  }

  /** A cable from a free socket to a free input shares no port with a sound cable. */
  lemma FreeEndsCompatible(devices: map<Id, Node>, f: Edge, c: Edge, socket: nat, input: nat)
    requires SoundEdge(devices, f) && EndsExist(devices, c) && c.kind.Power?
    requires socket < 1_000_000 && input < 1_000_000
    requires c.sourceHandle == PowerHandle(POWER_OUT_PREFIX, socket)
             && c.targetHandle == PowerHandle(POWER_IN_PREFIX, input)
    requires f.kind.Power? ==>
               !(f.source == c.source && Socket(f) == socket) && !(f.target == c.target && Input(f) == input)
    ensures Compatible(devices, f, c)
  {
    PrefixesDiffer(socket);
    PrefixesDiffer(input);
    HandleRoundTrip(POWER_OUT_PREFIX, socket);
    HandleRoundTrip(POWER_IN_PREFIX, input);
    forall q | q in PortsOf(devices, f) ensures q !in PortsOf(devices, c) {
    }
  }

  /** Drawing a cable from a free socket to a free input, when power does not yet
      flow back, keeps the rules. */
  lemma AddCableValid(devices: map<Id, Node>, wires: Wires, front: seq<Edge>, back: seq<Edge>, c: Edge, socket: nat,
                      input: nat)
    requires WiresMatch(wires, front + back) && SoundEdges(devices, front + back) && Acyclic(PowerArcs(front + back))
    requires SoundEdge(devices, c) && c.kind.Power? && socket < 1_000_000 && input < 1_000_000
    requires c.sourceHandle == PowerHandle(POWER_OUT_PREFIX, socket)
             && c.targetHandle == PowerHandle(POWER_IN_PREFIX, input)
    requires socket !in Used(wires.usedOut, c.source) && input !in Used(wires.usedIn, c.target)
    requires !Reaches(Arcs(wires.feeds), c.target, c.source)
    ensures SoundEdges(devices, front + [c] + back) && Acyclic(PowerArcs(front + [c] + back))
  {
    var before := front + back;
    forall f | f in before ensures EndsExist(devices, f) && Compatible(devices, f, c) {
      var i :| 0 <= i < |before| && before[i] == f;
      assert SoundEdge(devices, before[i]);
      if f.kind.Power? {
        assert PlugsOut(before, f.source, Socket(f)) && PlugsIn(before, f.target, Input(f));
      }
      FreeEndsCompatible(devices, f, c, socket, input);
    }
    InsertSound(devices, front, c, back);
    ArcKeepsAcyclic(PowerArcs(before), c.source, c.target);
    assert PowerArcs(front + [c] + back) == PowerArcs(before) + {(c.source, c.target)};
  }

  /** The sockets added for a conversion: never fewer than before, and enough. */
  lemma GrowthFits(devices: map<Id, Node>, cables: seq<Edge>, outlets: map<Id, nat>, feeder: Id, socket: nat)
    requires KeyedById(devices) && OutletsNeeded(devices, cables, outlets)
    requires feeder in devices && IsPowerSource(devices[feeder].kind) && socket < MAX_POWER_OUTPUTS
    ensures var grown := if socket >= SocketsOf(devices, outlets, feeder) then outlets[feeder := socket + 1]
            else outlets;
            && MoreSockets(Grown(devices, outlets), Grown(devices, grown))
            && var node := Grown(devices, grown)[feeder];
               socket < PowerOutputCount(node.kind, node.details)
  {
  }

  lemma PowerCableSound(devices: map<Id, Node>, e: Edge, feeder: Id, socket: nat, fed: Id, input: nat)
    requires feeder in devices && fed in devices && feeder != fed && IsPowerSource(devices[feeder].kind)
    requires socket < PowerOutputCount(devices[feeder].kind, devices[feeder].details)
    requires input < PowerInputCount(devices[fed].kind, devices[fed].details)
    ensures SoundEdge(devices, PowerCable(e, feeder, socket, fed, input))
  {
    HandleRoundTrip(POWER_OUT_PREFIX, socket);
    HandleRoundTrip(POWER_IN_PREFIX, input);
  }

  lemma ConvertValid(devices: map<Id, Node>, wires: Wires, outlets: map<Id, nat>, front: seq<Edge>, back: seq<Edge>,
                     e: Edge, feeder: Id, fed: Id, socket: nat, input: nat)
    requires KeyedById(devices) && feeder in devices && fed in devices && IsPowerSource(devices[feeder].kind)
    requires WiresMatch(wires, front + back) && OutletsNeeded(devices, front + back, outlets)
    requires SoundEdges(Grown(devices, outlets), front + back) && Acyclic(PowerArcs(front + back))
    requires Decide(devices, wires, feeder, fed) == Convert(socket, input)
    ensures var grown := if socket >= SocketsOf(devices, outlets, feeder) then outlets[feeder := socket + 1]
            else outlets;
            var cable := PowerCable(e, feeder, socket, fed, input);
            && SoundEdges(Grown(devices, grown), front + [cable] + back)
            && Acyclic(PowerArcs(front + [cable] + back))
  {
    hide SoundEdges, SoundEdge, Acyclic, OutletsNeeded, WiresMatch, PowerArcs, KeyedById;
    var more := if socket >= SocketsOf(devices, outlets, feeder) then outlets[feeder := socket + 1] else outlets;
    var grown := Grown(devices, more);
    GrowthFits(devices, front + back, outlets, feeder, socket);
    MoreSocketsSound(Grown(devices, outlets), grown, front + back);
    ReachesSelf(Arcs(wires.feeds), fed);
    PowerCableSound(grown, e, feeder, socket, fed, input);
    AddCableValid(grown, wires, front, back, PowerCable(e, feeder, socket, fed, input), socket, input);
  }

  /** Which sockets are in use is a matter of the power cables. */
  lemma SameOutletsNeeded(devices: map<Id, Node>, cables: seq<Edge>, others: seq<Edge>, outlets: map<Id, nat>)
    requires OutletsNeeded(devices, cables, outlets)
    requires forall c: Edge :: c.kind.Power? && c in cables ==> c in others
    ensures OutletsNeeded(devices, others, outlets)
  {
    forall f, i | f in outlets && 0 <= i < outlets[f]
      ensures PlugsOut(others, f, i)
    {
      assert PlugsOut(cables, f, i);
    }
  }

  lemma ConvertObeys(scope: Scope, devices: map<Id, Node>, wires: Wires, outlets: map<Id, nat>, front: seq<Edge>,
                     back: seq<Edge>,
                     e: Edge, feeder: Id, fed: Id, socket: nat, input: nat)
    requires KeyedById(devices) && feeder in devices && fed in devices && IsPowerSource(devices[feeder].kind)
    requires WiresMatch(wires, front + back) && OutletsNeeded(devices, front + back, outlets)
    requires Obeys(scope, Grown(devices, outlets), front + back)
    requires Decide(devices, wires, feeder, fed) == Convert(socket, input)
    ensures var grown := if socket >= SocketsOf(devices, outlets, feeder) then outlets[feeder := socket + 1]
            else outlets;
            Obeys(scope, Grown(devices, grown), front + [PowerCable(e, feeder, socket, fed, input)] + back)
  {
    var cable := PowerCable(e, feeder, socket, fed, input);
    var a, b := Kept(scope, front), Kept(scope, back);
    KeptAround(scope, front, cable, back);
    KeptHolds(scope, front + back);
    KeptHolds(scope, front + [cable] + back);
    SameCablesMatch(wires, front + back, a + b);
    SameOutletsNeeded(devices, front + back, a + b, outlets);
    ConvertValid(devices, wires, outlets, a, b, e, feeder, fed, socket, input);
  }

  lemma StepValid(scope: Scope, devices: map<Id, Node>, p: Progress, e: Edge, rest: seq<Edge>)
    requires KeyedById(devices)
    requires Faithful(devices, p, [e] + rest) && Valid(scope, devices, p, [e] + rest)
    ensures Valid(scope, devices, Step(devices, p, e), rest)
  {
    assert ([e] + rest)[1..] == rest;
    if !IsLegacy(devices, e) {
      assert InPlace(devices, Step(devices, p, e), rest) == InPlace(devices, p, [e] + rest);
    } else {
      var (feeder, fed) := Ends(devices, e);
      var decision := Decide(devices, p.wires, feeder, fed);
      assert InPlace(devices, p, [e] + rest) == p.rewritten + NonLegacy(devices, rest);
      if decision.Convert? {
        ConvertObeys(scope, devices, p.wires, p.plan.outlets, p.rewritten, NonLegacy(devices, rest), e, feeder, fed,
                     decision.socket, decision.input);
      } else {
        assert InPlace(devices, Step(devices, p, e), rest) == InPlace(devices, p, [e] + rest);
      }
    }
  }

  lemma {:induction false} StepsValid(scope: Scope, devices: map<Id, Node>, start: Progress, edges: seq<Edge>, n: nat)
    requires n <= |edges| && KeyedById(devices)
    requires Faithful(devices, start, edges) && Valid(scope, devices, start, edges)
    ensures Valid(scope, devices, Steps(devices, start, edges[..n]), edges[n..])
  {
    hide Faithful, Valid, Step;
    if n == 0 {
      assert edges[0..] == edges;
    } else {
      StepsValid(scope, devices, start, edges, n - 1);
      StepsFaithful(devices, start, edges, n - 1);
      assert edges[..n][..n - 1] == edges[..n - 1];
      assert edges[n - 1..] == [edges[n - 1]] + edges[n..];
      StepValid(scope, devices, Steps(devices, start, edges[..n - 1]), edges[n - 1], edges[n..]);
    }
  }

  /** What the cables that are kept obey, kept and converted cables obey together
      on the grown devices. */
  lemma PlannedObeys(scope: Scope, nodes: seq<Node>, edges: seq<Edge>)
    requires Obeys(scope, Stored(nodes), NonLegacy(Stored(nodes), edges))
    ensures Obeys(scope, Grown(Stored(nodes), Planned(nodes, edges).plan.outlets), Planned(nodes, edges).rewritten)
  {
    var devices := Stored(nodes);
    StoredGrown(nodes, map[]);
    var start := Progress(DrawnWires(edges), NO_PLAN, []);
    assert [] + NonLegacy(devices, edges) == NonLegacy(devices, edges);
    assert Grown(devices, map[]) == devices;
    StartFaithful(devices, edges);
    StepsValid(scope, devices, start, edges, |edges|);
    assert edges[..|edges|] == edges && edges[|edges|..] == [];
    assert InPlace(devices, Planned(nodes, edges), []) == Planned(nodes, edges).rewritten;
  }

  /** Old cables carry no power rule: leaving them out changes nothing in scope. */
  lemma {:induction false} PoweredNonLegacy(devices: map<Id, Node>, edges: seq<Edge>)
    ensures Powered(NonLegacy(devices, edges)) == Powered(edges)
  {
    if |edges| > 0 {
      PoweredNonLegacy(devices, edges[1..]);
      assert edges == [edges[0]] + edges[1..];
      PoweredJoins([edges[0]], edges[1..]);
      PoweredJoins([edges[0]], NonLegacy(devices, edges[1..]));
      var one := [edges[0]];
      assert one[..0] == [];
      var rest := NonLegacy(devices, edges[1..]);
      if IsLegacy(devices, edges[0]) {
        assert NonLegacy(devices, edges) == rest && Powered(one) == [];
        assert [] + Powered(edges[1..]) == Powered(edges[1..]);
      } else {
        assert NonLegacy(devices, edges) == one + rest;
      }
    }
  }

  /** The main theorem. When the stored power cables obey the validator's power
      rules, stored and converted power cables together obey them on the grown
      devices, whatever else is wrong with the build. */
  lemma PowerRulesKept(nodes: seq<Node>, edges: seq<Edge>)
    requires Obeys(PowerRules, Stored(nodes), edges)
    ensures Obeys(PowerRules, Stored(GrownNodes(nodes, Planned(nodes, edges).plan.outlets)),
                  Planned(nodes, edges).rewritten)
  {
    var kept := NonLegacy(Stored(nodes), edges);
    PoweredNonLegacy(Stored(nodes), edges);
    KeptHolds(PowerRules, edges);
    KeptHolds(PowerRules, kept);
    PlannedObeys(PowerRules, nodes, edges);
    StoredGrown(nodes, Planned(nodes, edges).plan.outlets);
  }

  /** So the build saves again: when a build without its old cables keeps all the
      rules, so does the converted build. */
  lemma ConvertedBuildIsValid(nodes: seq<Node>, edges: seq<Edge>)
    requires ValidTopology(nodes, NonLegacy(Stored(nodes), edges))
    ensures ValidTopology(GrownNodes(nodes, Planned(nodes, edges).plan.outlets), Planned(nodes, edges).rewritten)
  {
    var p := Planned(nodes, edges);
    StoredIsById(nodes);
    PlannedObeys(AllRules, nodes, edges);
    GrownById(nodes, p.plan.outlets);
    GrownNodesSound(nodes, p.plan.outlets);
    forall i | 0 <= i < |nodes|
      ensures WellPlaced(ById(GrownNodes(nodes, p.plan.outlets)), GrownNodes(nodes, p.plan.outlets)[i])
    {
      GrownNodesPlaced(nodes, p.plan.outlets, i);
    }
  }

  // ---- sockets ----

  /** Sockets are added to a source only when all it declares are in use, never
      beyond the most it can have, and every added one is plugged. */
  lemma SocketsGrowWhenFull(nodes: seq<Node>, edges: seq<Edge>, f: Id)
    requires f in Planned(nodes, edges).plan.outlets
    ensures var p, devices := Planned(nodes, edges), Stored(nodes);
            && f in devices
            && PowerOutputCount(devices[f].kind, devices[f].details) < p.plan.outlets[f] <= MAX_POWER_OUTPUTS
            && forall i :: 0 <= i < p.plan.outlets[f] ==> PlugsOut(p.rewritten, f, i)
  {
    PlannedFaithful(nodes, edges);
    assert OutletsNeeded(Stored(nodes), Planned(nodes, edges).rewritten, Planned(nodes, edges).plan.outlets);
  }

  // ---- every old cable is settled once ----

  function Ids(edges: seq<Edge>): seq<nat> {
    seq(|edges|, i requires 0 <= i < |edges| => edges[i].id)
  }

  function DroppedIds(dropped: seq<Dropped>): seq<nat> {
    seq(|dropped|, i requires 0 <= i < |dropped| => dropped[i].edge)
  }

  function SettledIds(plan: Plan): multiset<nat> {
    multiset(Ids(plan.converted)) + multiset(DroppedIds(plan.dropped))
  }

  lemma StepSettles(devices: map<Id, Node>, p: Progress, e: Edge)
    ensures SettledIds(Step(devices, p, e).plan) == SettledIds(p.plan)
            + if IsLegacy(devices, e) then multiset{e.id} else multiset{}
  {
    if IsLegacy(devices, e) {
      var (feeder, fed) := Ends(devices, e);
      var decision, next := Decide(devices, p.wires, feeder, fed), Step(devices, p, e);
      if decision.Drop? {
        assert DroppedIds(next.plan.dropped) == DroppedIds(p.plan.dropped) + [e.id];
      } else {
        assert Ids(next.plan.converted) == Ids(p.plan.converted) + [e.id];
      }
    }
  }

  lemma {:induction false} StepsSettle(devices: map<Id, Node>, start: Progress, edges: seq<Edge>)
    ensures SettledIds(Steps(devices, start, edges).plan) == SettledIds(start.plan)
            + multiset(Ids(Legacy(devices, edges)))
  {
    hide Step, IsLegacy, SettledIds;
    if edges == [] {
      assert Ids(Legacy(devices, edges)) == [];
    } else {
      var front, e := edges[..|edges| - 1], edges[|edges| - 1];
      StepsSettle(devices, start, front);
      StepSettles(devices, Steps(devices, start, front), e);
      if IsLegacy(devices, e) {
        assert Ids(Legacy(devices, edges)) == Ids(Legacy(devices, front)) + [e.id];
      } else {
        assert Legacy(devices, edges) == Legacy(devices, front);
      }
    }
  }

  /** Counting repetitions, the ids converted and the ids dropped are together the
      ids of the old cables: each is settled exactly once. */
  lemma OldCablesSettledOnce(nodes: seq<Node>, edges: seq<Edge>)
    ensures SettledIds(Planned(nodes, edges).plan) == multiset(Ids(Legacy(Stored(nodes), edges)))
  {
    StepsSettle(Stored(nodes), Progress(DrawnWires(edges), NO_PLAN, []), edges);
  }

  // ---- power flows from the wall outwards ----

  /** A rewritten cable is an old cable in the direction power flows: from a power
      source, and between two sources from the wall to a UPS to a PDU. */
  ghost predicate FlowsOutwards(devices: map<Id, Node>, edges: seq<Edge>, c: Edge) {
    && c.kind.Power? && c.source in devices && c.target in devices
    && devices[c.source].kind in {PowerOutlet, Ups, Pdu} && devices[c.target].kind != PowerOutlet
    && !(devices[c.source].kind == Pdu && devices[c.target].kind == Ups)
    && exists e :: e in edges && IsLegacy(devices, e) && e.id == c.id && SamePair(e, c)
  }

  lemma {:induction false} StepsFlow(devices: map<Id, Node>, start: Progress, edges: seq<Edge>, c: Edge)
    requires start.plan.converted == [] && c in Steps(devices, start, edges).plan.converted
    ensures FlowsOutwards(devices, edges, c)
  {
    if edges != [] {
      var front, e := edges[..|edges| - 1], edges[|edges| - 1];
      var p := Steps(devices, start, front);
      if c in p.plan.converted {
        StepsFlow(devices, start, front, c);
      } else {
        assert IsLegacy(devices, e) && e.id == c.id && SamePair(e, c);
        assert PowerInputCount(devices[c.target].kind, devices[c.target].details) > 0;
      }
    }
  }

  lemma ConvertedFlowsOutwards(nodes: seq<Node>, edges: seq<Edge>, c: Edge)
    requires c in Planned(nodes, edges).plan.converted
    ensures FlowsOutwards(Stored(nodes), edges, c)
  {
    StepsFlow(Stored(nodes), Progress(DrawnWires(edges), NO_PLAN, []), edges, c);
  }

  // ---- planning again ----

  lemma {:induction false} StoredGrown(nodes: seq<Node>, outlets: map<Id, nat>)
    ensures Stored(GrownNodes(nodes, outlets)) == Grown(Stored(nodes), outlets)
    ensures KeyedById(Stored(nodes))
  {
    if nodes != [] {
      StoredGrown(nodes[..|nodes| - 1], outlets);
      assert GrownNodes(nodes, outlets)[..|nodes| - 1] == GrownNodes(nodes[..|nodes| - 1], outlets);
    }
  }

  lemma {:induction false} NothingToPlan(devices: map<Id, Node>, start: Progress, edges: seq<Edge>)
    requires forall e <- edges :: !IsLegacy(devices, e)
    ensures Steps(devices, start, edges).plan == start.plan
  {
    if edges != [] {
      NothingToPlan(devices, start, edges[..|edges| - 1]);
    }
  }

  /** A converted build is not touched again. */
  lemma PlanningAgainIsEmpty(nodes: seq<Node>, edges: seq<Edge>)
    ensures var p := Planned(nodes, edges);
            Planned(GrownNodes(nodes, p.plan.outlets), p.rewritten).plan == NO_PLAN
  {
    var p := Planned(nodes, edges);
    PlannedFaithful(nodes, edges);
    StoredGrown(nodes, p.plan.outlets);
    var devices := Grown(Stored(nodes), p.plan.outlets);
    forall e | e in p.rewritten ensures !IsLegacy(devices, e) {
      assert !IsLegacy(Stored(nodes), e);
    }
    NothingToPlan(devices, Progress(DrawnWires(p.rewritten), NO_PLAN, []), p.rewritten);
  }
}
