/** Which way the old cables are turned, by the kinds of their two devices, and which
    cables are old at all. */
module PowerDirections {
  import opened Wiring
  import opened Topology
  import opened PowerPlan
  import opened PowerTheorems

  predicate GivesPower(kind: NodeType) {
    kind in {PowerOutlet, Ups, Pdu}
  }

  /** A cable drawn from the first kind to the second is fed from its drawn target. */
  predicate TurnedRound(source: NodeType, target: NodeType) {
    || (GivesPower(target) && !GivesPower(source))
    || (target, source) in {(PowerOutlet, Ups), (PowerOutlet, Pdu), (Ups, Pdu)}
  }

  /** No power cable, both devices there, and one of them gives power. */
  predicate IsOld(devices: map<Id, Node>, e: Edge) {
    && e.kind != Power && e.source in devices && e.target in devices
    && (GivesPower(devices[e.source].kind) || GivesPower(devices[e.target].kind))
  }

  /** Power flows through the old cable from this feeder to this fed device. */
  ghost predicate Feeds(devices: map<Id, Node>, e: Edge, feeder: Id, fed: Id) {
    && IsOld(devices, e)
    && if TurnedRound(devices[e.source].kind, devices[e.target].kind) then feeder == e.target && fed == e.source
       else feeder == e.source && fed == e.target
  }

  lemma OldIsLegacy(devices: map<Id, Node>, e: Edge)
    ensures IsOld(devices, e) <==> IsLegacy(devices, e)
    ensures IsLegacy(devices, e) ==> Feeds(devices, e, Ends(devices, e).0, Ends(devices, e).1)
  {
  }

  /** What the plan says of the old cable it rewrote or gave up. */
  ghost predicate Turned(devices: map<Id, Node>, edges: seq<Edge>, id: nat, feeder: Id, fed: Id) {
    exists e :: e in edges && e.id == id && Feeds(devices, e, feeder, fed)
  }

  ghost predicate PlanTurned(devices: map<Id, Node>, edges: seq<Edge>, plan: Plan) {
    && (forall c <- plan.converted ::
          && Turned(devices, edges, c.id, c.source, c.target) && c.kind == Power
          && !(devices[c.source].kind == Pdu && devices[c.target].kind == Ups) && devices[c.target].kind != PowerOutlet)
    && (forall d <- plan.dropped :: Turned(devices, edges, d.edge, d.feeder, d.fed))
  }

  lemma TurnedMore(devices: map<Id, Node>, edges: seq<Edge>, e: Edge, plan: Plan)
    requires PlanTurned(devices, edges, plan)
    ensures PlanTurned(devices, edges + [e], plan)
  {
    forall id, feeder, fed | Turned(devices, edges, id, feeder, fed)
      ensures Turned(devices, edges + [e], id, feeder, fed)
    {
      var f :| f in edges && f.id == id && Feeds(devices, f, feeder, fed);
      assert f in edges + [e];
    }
  }

  lemma StepTurned(devices: map<Id, Node>, p: Progress, edges: seq<Edge>, e: Edge)
    requires PlanTurned(devices, edges, p.plan)
    ensures PlanTurned(devices, edges + [e], Step(devices, p, e).plan)
  {
    TurnedMore(devices, edges, e, p.plan);
    OldIsLegacy(devices, e);
    if IsLegacy(devices, e) {
      var (feeder, fed) := Ends(devices, e);
      hide Plug, LowestFree;
      assert e in edges + [e];
      assert Turned(devices, edges + [e], e.id, feeder, fed);
      assert Decide(devices, p.wires, feeder, fed).Convert? ==> devices[fed].kind != PowerOutlet;
    }
  }

  lemma {:induction false} StepsTurned(devices: map<Id, Node>, start: Progress, edges: seq<Edge>)
    requires start.plan == NO_PLAN
    ensures PlanTurned(devices, edges, Steps(devices, start, edges).plan)
  {
    if |edges| > 0 {
      var front, e := edges[..|edges| - 1], edges[|edges| - 1];
      StepsTurned(devices, start, front);
      hide Step, PlanTurned;
      StepTurned(devices, Steps(devices, start, front), front, e);
      assert edges == front + [e];
    }
  }

  /** Every converted and every dropped cable is named in the direction power flows, by
      kinds alone: turned round exactly when the drawn target gives power and the drawn
      source gives none, or comes before it between the wall, a UPS and a PDU. So no
      converted cable feeds a UPS from a PDU, or a wall outlet from anything. */
  lemma TurnedByKinds(nodes: seq<Node>, edges: seq<Edge>)
    ensures PlanTurned(Stored(nodes), edges, Planned(nodes, edges).plan)
  {
    StepsTurned(Stored(nodes), Progress(DrawnWires(edges), NO_PLAN, []), edges);
  }

  // ---- nothing else is touched ----

  lemma {:induction false} StepsKeepOthers(devices: map<Id, Node>, start: Progress, edges: seq<Edge>)
    requires start.rewritten == []
    ensures forall e <- Steps(devices, start, edges).rewritten :: !IsOld(devices, e)
    ensures forall e <- edges :: !IsOld(devices, e) ==> e in Steps(devices, start, edges).rewritten
    ensures forall e <- Steps(devices, start, edges).rewritten ::
              e in edges || e in Steps(devices, start, edges).plan.converted
  {
    if |edges| > 0 {
      var front, e := edges[..|edges| - 1], edges[|edges| - 1];
      StepsKeepOthers(devices, start, front);
      OldIsLegacy(devices, e);
      hide Decide, Ends, IsLegacy, Plug;
      assert edges == front + [e];
    }
  }

  /** In the final wiring no cable but a power cable touches a device that gives power,
      and every cable that was not old is there as it was. */
  lemma OthersStay(nodes: seq<Node>, edges: seq<Edge>)
    ensures var p, devices := Planned(nodes, edges), Stored(nodes);
            && (forall e <- p.rewritten :: !IsOld(devices, e) && (e in edges || e in p.plan.converted))
            && (forall e <- edges :: !IsOld(devices, e) ==> e in p.rewritten)
  {
    StepsKeepOthers(Stored(nodes), Progress(DrawnWires(edges), NO_PLAN, []), edges);
  }
}
