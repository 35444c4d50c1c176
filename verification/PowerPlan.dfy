/** Rewriting the cables of the time before power wiring as power cables
    (backend/internal/services/legacy_power_cables.go): the plan, as a
    specification and as the loop that computes it. */
module PowerPlan {
  import opened Wrappers
  import opened Wiring
  import opened Topology
  import opened Graph
  import Searches

  datatype DropReason = NoPowerInput | InputsInUse | AlreadyJoined | Loop | NoSocket

  /** A cable that is removed, named by its two devices; the first is the one that feeds. */
  datatype Dropped = Dropped(edge: nat, feeder: Id, fed: Id, reason: DropReason)

  /** What becomes of the old cables: rewritten with the same ids, removed, and
      the new socket counts of the sources that need more. */
  datatype Plan = Plan(converted: seq<Edge>, dropped: seq<Dropped>, outlets: map<Id, nat>)

  /** Which sockets and inputs are in use, and who feeds whom. */
  datatype Wires = Wires(usedOut: map<Id, set<int>>, usedIn: map<Id, set<int>>, feeds: map<Id, seq<Id>>)

  const NO_WIRES := Wires(map[], map[], map[])
  const NO_PLAN := Plan([], [], map[])

  predicate IsEmpty(plan: Plan) {
    plan.converted == [] && plan.dropped == []
  }

  function Used(table: map<Id, set<int>>, id: Id): set<int> {
    if id in table then table[id] else {}
  }

  function Plug(wires: Wires, feeder: Id, socket: int, fed: Id, input: int): Wires {
    Wires(wires.usedOut[feeder := Used(wires.usedOut, feeder) + {socket}],
          wires.usedIn[fed := Used(wires.usedIn, fed) + {input}],
          wires.feeds[feeder := Searches.Next(wires.feeds, feeder) + [fed]])
  }

  function Socket(e: Edge): int { PowerHandleIndex(e.sourceHandle, POWER_OUT_PREFIX) }
  function Input(e: Edge): int { PowerHandleIndex(e.targetHandle, POWER_IN_PREFIX) }

  function PlugCable(wires: Wires, e: Edge): Wires {
    if e.kind.Power? then Plug(wires, e.source, Socket(e), e.target, Input(e)) else wires
  }

  function DrawnWires(edges: seq<Edge>): Wires {
    if edges == [] then NO_WIRES
    else PlugCable(DrawnWires(edges[..|edges| - 1]), edges[|edges| - 1])
  }

  /** The devices by id; ids are a primary key, a later row would win. */
  function Stored(nodes: seq<Node>): map<Id, Node> {
    if nodes == [] then map[]
    else Stored(nodes[..|nodes| - 1])[nodes[|nodes| - 1].id := nodes[|nodes| - 1]]
  }

  /** How power flows between two power sources: from the wall to a UPS to a PDU. */
  function FeedRank(kind: NodeType): int {
    if kind.PowerOutlet? then 0 else if kind.Ups? then 1 else if kind.Pdu? then 2 else -1
  }

  /** Whether the drawn target of an old cable is the end that feeds. */
  predicate FeedsInstead(target: NodeType, source: NodeType) {
    if !IsPowerSource(target) then false
    else if !IsPowerSource(source) then true
    else FeedRank(target) < FeedRank(source)
  }

  predicate IsLegacy(devices: map<Id, Node>, e: Edge) {
    && !e.kind.Power? && e.source in devices && e.target in devices
    && (IsPowerSource(devices[e.source].kind) || IsPowerSource(devices[e.target].kind))
  }

  function Legacy(devices: map<Id, Node>, edges: seq<Edge>): seq<Edge> {
    if edges == [] then []
    else
      Legacy(devices, edges[..|edges| - 1])
      + if IsLegacy(devices, edges[|edges| - 1]) then [edges[|edges| - 1]] else []
  }

  function NonLegacy(devices: map<Id, Node>, edges: seq<Edge>): seq<Edge> {
    if edges == [] then []
    else
      (if IsLegacy(devices, edges[0]) then [] else [edges[0]])
      + NonLegacy(devices, edges[1..])
  }

  /** The feeding and the fed end of an old cable. */
  function Ends(devices: map<Id, Node>, e: Edge): (Id, Id)
    requires IsLegacy(devices, e)
  {
    if FeedsInstead(devices[e.target].kind, devices[e.source].kind) then (e.target, e.source) else (e.source, e.target)
  }

  /** The lowest index from `start` up that is below the limit and not in use. */
  function LowestFree(used: set<int>, start: nat, limit: nat): (free: Option<nat>)
    ensures free.None? ==> forall i :: start <= i < limit ==> i in used
    ensures free.Some? ==>
              && start <= free.value < limit && free.value !in used
              && forall i :: start <= i < free.value ==> i in used
    decreases limit - start
  {
    if start >= limit then None
    else if start !in used then Some(start)
    else LowestFree(used, start + 1, limit)
  }

  function SocketsOf(devices: map<Id, Node>, outlets: map<Id, nat>, feeder: Id): nat
    requires feeder in devices
  {
    if feeder in outlets then outlets[feeder] else PowerOutputCount(devices[feeder].kind, devices[feeder].details)
  }

  datatype Decision = Drop(reason: DropReason) | Convert(socket: nat, input: nat)

  ghost function Decide(devices: map<Id, Node>, wires: Wires, feeder: Id, fed: Id): Decision
    requires feeder in devices && fed in devices
  {
    var inputs := PowerInputCount(devices[fed].kind, devices[fed].details);
    var input := LowestFree(Used(wires.usedIn, fed), 0, inputs);
    var socket := LowestFree(Used(wires.usedOut, feeder), 0, MAX_POWER_OUTPUTS);
    if inputs == 0 then Drop(NoPowerInput)
    else if fed in Searches.Next(wires.feeds, feeder) then Drop(AlreadyJoined)
    else if input.None? then Drop(InputsInUse)
    else if Reaches(Arcs(wires.feeds), fed, feeder) then Drop(Loop)
    else if socket.None? then Drop(NoSocket)
    else Convert(socket.value, input.value)
  }

  function PowerCable(e: Edge, feeder: Id, socket: nat, fed: Id, input: nat): Edge {
    Edge(e.id, Power, feeder, PowerHandle(POWER_OUT_PREFIX, socket), fed, PowerHandle(POWER_IN_PREFIX, input))
  }

  /** The wiring and the plan so far, and what is stored in place of the cables
      looked at so far. */
  datatype Progress = Progress(wires: Wires, plan: Plan, rewritten: seq<Edge>)

  ghost function Step(devices: map<Id, Node>, p: Progress, e: Edge): Progress {
    if !IsLegacy(devices, e) then p.(rewritten := p.rewritten + [e])
    else
      var (feeder, fed) := Ends(devices, e);
      match Decide(devices, p.wires, feeder, fed)
      case Drop(reason) =>
        p.(plan := p.plan.(dropped := p.plan.dropped + [Dropped(e.id, feeder, fed, reason)]))
      case Convert(socket, input) =>
        var cable := PowerCable(e, feeder, socket, fed, input);
        var outlets := if socket >= SocketsOf(devices, p.plan.outlets, feeder)
                       then p.plan.outlets[feeder := socket + 1] else p.plan.outlets;
        Progress(Plug(p.wires, feeder, socket, fed, input),
                 Plan(p.plan.converted + [cable], p.plan.dropped, outlets),
                 p.rewritten + [cable])
  }

  ghost function Steps(devices: map<Id, Node>, start: Progress, edges: seq<Edge>): Progress {
    if edges == [] then start
    else Step(devices, Steps(devices, start, edges[..|edges| - 1]), edges[|edges| - 1])
  }

  /** The specification: each old cable in stored order, power cables already
      drawn keeping their sockets and inputs. */
  ghost function Planned(nodes: seq<Node>, edges: seq<Edge>): Progress {
    Steps(Stored(nodes), Progress(DrawnWires(edges), NO_PLAN, []), edges)
  }

  method FirstFree(used: set<int>, limit: nat) returns (free: Option<nat>)
    ensures free == LowestFree(used, 0, limit)
  {
    for index := 0 to limit
      invariant LowestFree(used, 0, limit) == LowestFree(used, index, limit)
    {
      if index !in used {
        return Some(index);
      }
    }
    return None;
  }

  /** What becomes of one old cable: the checks in the order the source makes them. */
  method DecideCable(devices: map<Id, Node>, wires: Wires, feeder: Id, fed: Id) returns (decision: Decision)
    requires feeder in devices && fed in devices
    ensures decision == Decide(devices, wires, feeder, fed)
  {
    var inputs := PowerInputCount(devices[fed].kind, devices[fed].details);
    var input := FirstFree(Used(wires.usedIn, fed), inputs);
    var socket := FirstFree(Used(wires.usedOut, feeder), MAX_POWER_OUTPUTS);
    if inputs == 0 {
      return Drop(NoPowerInput);
    }
    if fed in Searches.Next(wires.feeds, feeder) {
      return Drop(AlreadyJoined);
    }
    if input.None? {
      return Drop(InputsInUse);
    }
    var loop := Searches.PowerReaches(wires.feeds, fed, feeder);
    if loop {
      return Drop(Loop);
    }
    if socket.None? {
      return Drop(NoSocket);
    }
    return Convert(socket.value, input.value);
  }

  /** One turn of the main loop: carries a cable into the wiring and the plan. */
  method PlanCable(devices: map<Id, Node>, wires: Wires, plan: Plan, edge: Edge, ghost rewritten: seq<Edge>)
    returns (wires': Wires, plan': Plan)
    ensures var p := Step(devices, Progress(wires, plan, rewritten), edge); wires' == p.wires && plan' == p.plan
  {
    wires', plan' := wires, plan;
    if edge.kind.Power? {
      return;
    }
    if edge.source !in devices || edge.target !in devices
       || (!IsPowerSource(devices[edge.source].kind) && !IsPowerSource(devices[edge.target].kind)) {
      return;
    }
    var feeder, fed := edge.source, edge.target;
    if FeedsInstead(devices[edge.target].kind, devices[edge.source].kind) {
      feeder, fed := edge.target, edge.source;
    }
    var decision := DecideCable(devices, wires, feeder, fed);
    if decision.Drop? {
      plan' := plan.(dropped := plan.dropped + [Dropped(edge.id, feeder, fed, decision.reason)]);
      return;
    }
    var sockets := PowerOutputCount(devices[feeder].kind, devices[feeder].details);
    if feeder in plan.outlets {
      sockets := plan.outlets[feeder];
    }
    if decision.socket >= sockets {
      plan' := plan'.(outlets := plan.outlets[feeder := decision.socket + 1]);
    }
    wires' := Plug(wires, feeder, decision.socket, fed, decision.input);
    plan' := plan'.(converted := plan.converted + [PowerCable(edge, feeder, decision.socket, fed, decision.input)]);
  }

  method DevicesOf(nodes: seq<Node>) returns (devices: map<Id, Node>)
    ensures devices == Stored(nodes)
  {
    devices := map[];
    for n := 0 to |nodes|
      invariant devices == Stored(nodes[..n])
    {
      assert nodes[..n + 1][..n] == nodes[..n];
      devices := devices[nodes[n].id := nodes[n]];
    }
    assert nodes[..|nodes|] == nodes;
  }

  /** The plan for a build's devices and its cables in stored order. */
  method PlanLegacyPowerCables(nodes: seq<Node>, edges: seq<Edge>) returns (plan: Plan)
    ensures plan == Planned(nodes, edges).plan
  {
    var devices := DevicesOf(nodes);
    var wires := NO_WIRES;
    for n := 0 to |edges|
      invariant wires == DrawnWires(edges[..n])
    {
      assert edges[..n + 1][..n] == edges[..n];
      if edges[n].kind.Power? {
        wires := Plug(wires, edges[n].source, Socket(edges[n]), edges[n].target, Input(edges[n]));
      }
    }
    assert edges[..|edges|] == edges;
    plan := NO_PLAN;
    ghost var start := Progress(wires, NO_PLAN, []);
    for n := 0 to |edges|
      invariant var p := Steps(devices, start, edges[..n]); p.wires == wires && p.plan == plan
    {
      assert edges[..n + 1][..n] == edges[..n];
      wires, plan := PlanCable(devices, wires, plan, edges[n], Steps(devices, start, edges[..n]).rewritten);
    }
  }
}
