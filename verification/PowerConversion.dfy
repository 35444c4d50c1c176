/** Applying the plan to a stored build in one transaction
    (backend/internal/services/legacy_power_cables.go, convertLegacyPowerCablesTx). */
module PowerConversion {
  import opened Wrappers
  import opened Wiring
  import opened Topology
  import opened PowerPlan
  import opened PowerTheorems

  datatype Outcome = Unchanged | Converted(plan: Plan) | Failed

  /** Row ids are a primary key. */
  ghost predicate DistinctIds(edges: seq<Edge>) {
    forall i, j :: 0 <= i < j < |edges| ==> edges[i].id != edges[j].id
  }

  /** A row after the updates for these cables, in order. */
  function Updated(row: Edge, cables: seq<Edge>): (updated: Edge)
    ensures updated.id == row.id
  {
    if cables == [] then row
    else if cables[|cables| - 1].id == row.id then cables[|cables| - 1]
    else Updated(row, cables[..|cables| - 1])
  }

  function AllUpdated(rows: seq<Edge>, cables: seq<Edge>): seq<Edge> {
    seq(|rows|, i requires 0 <= i < |rows| => Updated(rows[i], cables))
  }

  function Without(rows: seq<Edge>, ids: set<nat>): seq<Edge> {
    if rows == [] then []
    else Without(rows[..|rows| - 1], ids) + if rows[|rows| - 1].id in ids then [] else [rows[|rows| - 1]]
  }

  function DroppedSet(dropped: seq<Dropped>): set<nat> {
    set d | d in dropped :: d.edge
  }

  lemma {:induction false} WithoutUntouched(rows: seq<Edge>, ids: set<nat>, id: nat)
    requires forall r <- rows :: r.id != id
    ensures Without(rows, ids + {id}) == Without(rows, ids)
  {
    if rows != [] {
      WithoutUntouched(rows[..|rows| - 1], ids, id);
    }
  }

  lemma {:induction false} NotUpdated(row: Edge, cables: seq<Edge>)
    requires forall c <- cables :: c.id != row.id
    ensures Updated(row, cables) == row
  {
    if cables != [] {
      NotUpdated(row, cables[..|cables| - 1]);
    }
  }

  /** Updating and deleting rows by id stores these cables. */
  ghost predicate Follows(edges: seq<Edge>, plan: Plan, rewritten: seq<Edge>) {
    && (forall c <- plan.converted :: exists e <- edges :: e.id == c.id)
    && (forall d <- plan.dropped :: exists e <- edges :: e.id == d.edge)
    && Without(AllUpdated(edges, plan.converted), DroppedSet(plan.dropped)) == rewritten
  }

  lemma FollowsKept(front: seq<Edge>, e: Edge, plan: Plan, rewritten: seq<Edge>)
    requires Follows(front, plan, rewritten) && forall f <- front :: f.id != e.id
    ensures Follows(front + [e], plan, rewritten + [e])
  {
    NotUpdated(e, plan.converted);
    var rows := AllUpdated(front, plan.converted);
    assert AllUpdated(front + [e], plan.converted) == rows + [e];
    assert (rows + [e])[..|rows|] == rows;
  }

  lemma FollowsDropped(front: seq<Edge>, e: Edge, plan: Plan, rewritten: seq<Edge>, d: Dropped)
    requires Follows(front, plan, rewritten) && forall f <- front :: f.id != e.id
    requires d.edge == e.id
    ensures Follows(front + [e], plan.(dropped := plan.dropped + [d]), rewritten)
  {
    NotUpdated(e, plan.converted);
    var rows := AllUpdated(front, plan.converted);
    assert AllUpdated(front + [e], plan.converted) == rows + [e];
    assert (rows + [e])[..|rows|] == rows;
    assert DroppedSet(plan.dropped + [d]) == DroppedSet(plan.dropped) + {e.id};
    WithoutUntouched(rows, DroppedSet(plan.dropped), e.id);
    assert e in front + [e];
  }

  lemma FollowsConverted(front: seq<Edge>, e: Edge, plan: Plan, rewritten: seq<Edge>, c: Edge, outlets: map<Id, nat>)
    requires Follows(front, plan, rewritten) && forall f <- front :: f.id != e.id
    requires c.id == e.id
    ensures Follows(front + [e], Plan(plan.converted + [c], plan.dropped, outlets), rewritten + [c])
  {
    var rows, converted := AllUpdated(front, plan.converted), plan.converted + [c];
    assert converted[..|plan.converted|] == plan.converted;
    assert AllUpdated(front + [e], converted) == rows + [c];
    assert (rows + [c])[..|rows|] == rows;
    assert e in front + [e];
  }

  lemma {:induction false} RowsFollowPlan(devices: map<Id, Node>, start: Progress, edges: seq<Edge>)
    requires DistinctIds(edges) && start.plan == NO_PLAN && start.rewritten == []
    ensures Follows(edges, Steps(devices, start, edges).plan, Steps(devices, start, edges).rewritten)
  {
    if edges != [] {
      var front, e := edges[..|edges| - 1], edges[|edges| - 1];
      assert edges == front + [e];
      RowsFollowPlan(devices, start, front);
      var p, next := Steps(devices, start, front), Steps(devices, start, edges);
      if !IsLegacy(devices, e) {
        FollowsKept(front, e, p.plan, p.rewritten);
      } else {
        var (feeder, fed) := Ends(devices, e);
        match Decide(devices, p.wires, feeder, fed)
        case Drop(reason) =>
          FollowsDropped(front, e, p.plan, p.rewritten, Dropped(e.id, feeder, fed, reason));
        case Convert(socket, input) =>
          FollowsConverted(front, e, p.plan, p.rewritten, PowerCable(e, feeder, socket, fed, input), next.plan.outlets);
      }
    }
  }

  lemma {:induction false} WithoutDistinct(rows: seq<Edge>, ids: set<nat>)
    requires DistinctIds(rows)
    ensures DistinctIds(Without(rows, ids))
    ensures forall r <- Without(rows, ids) :: r in rows
  {
    if rows != [] {
      var front, last := rows[..|rows| - 1], rows[|rows| - 1];
      WithoutDistinct(front, ids);
      assert forall r <- front :: r in rows && r.id != last.id;
    }
  }

  /** The stored rows are the rewritten cables: ids stay unique, the save is
      accepted again and a second conversion finds nothing. */
  lemma StoredRowsFollowPlan(nodes: seq<Node>, edges: seq<Edge>)
    requires DistinctIds(edges)
    ensures var p := Planned(nodes, edges);
            && Without(AllUpdated(edges, p.plan.converted), DroppedSet(p.plan.dropped)) == p.rewritten
            && DistinctIds(p.rewritten)
            && IsEmpty(Planned(GrownNodes(nodes, p.plan.outlets), p.rewritten).plan)
            && (Obeys(PowerRules, Stored(nodes), edges) ==>
                  Obeys(PowerRules, Stored(GrownNodes(nodes, p.plan.outlets)), p.rewritten))
            && (ValidTopology(nodes, NonLegacy(Stored(nodes), edges)) ==>
                  ValidTopology(GrownNodes(nodes, p.plan.outlets), p.rewritten))
  {
    RowsFollowPlan(Stored(nodes), Progress(DrawnWires(edges), NO_PLAN, []), edges);
    WithoutDistinct(AllUpdated(edges, Planned(nodes, edges).plan.converted),
                    DroppedSet(Planned(nodes, edges).plan.dropped));
    PlanningAgainIsEmpty(nodes, edges);
    hide Obeys, ValidTopology;
    if Obeys(PowerRules, Stored(nodes), edges) {
      PowerRulesKept(nodes, edges);
    }
    if ValidTopology(nodes, NonLegacy(Stored(nodes), edges)) {
      ConvertedBuildIsValid(nodes, edges);
    }
  }

  ghost predicate AllReadable(nodes: seq<Node>, outlets: map<Id, nat>) {
    forall i :: 0 <= i < |nodes| && nodes[i].id in outlets ==> !nodes[i].details.Unreadable?
  }

  /** One update statement per converted cable. */
  method UpdateRows(edges: seq<Edge>, cables: seq<Edge>) returns (rows: seq<Edge>)
    ensures rows == AllUpdated(edges, cables)
  {
    rows := edges;
    for i := 0 to |cables|
      invariant rows == AllUpdated(edges, cables[..i])
    {
      var cable := cables[i];
      assert cables[..i + 1][..i] == cables[..i];
      rows := seq(|rows|, k requires 0 <= k < |rows| => if rows[k].id == cable.id then cable else rows[k]);
    }
    assert cables[..|cables|] == cables;
  }

  /** The device is as before, but for its number of sockets where the plan has one. */
  ghost predicate OnlySocketsGrown(before: Node, after: Node, outlets: map<Id, nat>) {
    && after.id == before.id && after.kind == before.kind && after.parent == before.parent
    && after.vms == before.vms && after.gamingIssues == before.gamingIssues
    && (if before.id !in outlets then after.details == before.details
        else
          && after.details.Details? && before.details.Details?
          && after.details.psuCount == before.details.psuCount && after.details.outlets == Some(outlets[before.id]))
  }

  /** Writes the new socket counts; a device whose details cannot be read stops the transaction. */
  method GrowDevices(nodes: seq<Node>, outlets: map<Id, nat>) returns (grown: Option<seq<Node>>)
    ensures grown.Some? <==> AllReadable(nodes, outlets)
    ensures grown.Some? ==> grown.value == GrownNodes(nodes, outlets)
    ensures grown.Some? ==>
              && |grown.value| == |nodes|
              && forall i :: 0 <= i < |nodes| ==> OnlySocketsGrown(nodes[i], grown.value[i], outlets)
  {
    var devices := nodes;
    for i := 0 to |nodes|
      invariant |devices| == |nodes|
      invariant forall k :: 0 <= k < |nodes| ==> devices[k] == if k < i then GrowNode(nodes[k], outlets) else nodes[k]
      invariant forall k :: 0 <= k < i && nodes[k].id in outlets ==> !nodes[k].details.Unreadable?
    {
      if nodes[i].id !in outlets {
        continue;
      }
      if nodes[i].details.Unreadable? {
        return None;
      }
      var details := nodes[i].details.(outlets := Some(outlets[nodes[i].id]));
      devices := devices[i := nodes[i].(details := details)];
    }
    assert devices == GrownNodes(nodes, outlets);
    return Some(devices);
  }

  /** The rows of one build. */
  class BuildRows {
    var nodes: seq<Node>
    var edges: seq<Edge>
    var revision: nat
    var notices: seq<Plan>

    constructor (nodes: seq<Node>, edges: seq<Edge>, revision: nat)
      ensures this.nodes == nodes && this.edges == edges && this.revision == revision && notices == []
    {
      this.nodes, this.edges, this.revision, notices := nodes, edges, revision, [];
    }

    /** One transaction: either everything the plan says is stored, with a new
        revision and a notice for the owner, or nothing changes. */
    method Convert() returns (outcome: Outcome)
      requires DistinctIds(edges)
      modifies this
      ensures var p := Planned(old(nodes), old(edges));
              if IsEmpty(p.plan) then outcome == Unchanged
              else if AllReadable(old(nodes), p.plan.outlets) then outcome == Converted(p.plan)
              else outcome == Failed
      ensures !outcome.Converted? ==>
                nodes == old(nodes) && edges == old(edges) && revision == old(revision) && notices == old(notices)
      ensures outcome.Converted? ==>
                && nodes == GrownNodes(old(nodes), outcome.plan.outlets)
                && edges == Planned(old(nodes), old(edges)).rewritten
                && revision == old(revision) + 1
                && notices == old(notices) + [outcome.plan]
      // Power cables that kept the power rules still do; a build that could be saved
      // still can; and neither is touched a second time.
      ensures outcome.Converted? ==>
                && (Obeys(PowerRules, Stored(old(nodes)), old(edges)) ==> Obeys(PowerRules, Stored(nodes), edges))
                && (ValidTopology(old(nodes), NonLegacy(Stored(old(nodes)), old(edges))) ==>
                    ValidTopology(nodes, edges))
                && DistinctIds(edges) && IsEmpty(Planned(nodes, edges).plan)
    {
      hide Planned, ValidTopology, Obeys, GrownNodes, IsEmpty, DistinctIds, AllReadable;
      var plan := PlanLegacyPowerCables(nodes, edges);
      if IsEmpty(plan) {
        return Unchanged;
      }
      var rows := UpdateRows(edges, plan.converted);
      StoredRowsFollowPlan(nodes, edges);
      rows := Without(rows, DroppedSet(plan.dropped));
      var grown := GrowDevices(nodes, plan.outlets);
      if grown.None? {
        return Failed;
      }
      nodes, edges, revision, notices := grown.value, rows, revision + 1, notices + [plan];
      return Converted(plan);
    }
  }
}
