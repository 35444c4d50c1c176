/** What the conversion of old cables keeps in any build at all, whatever is wrong
    with its sockets, inputs and handles. */
module PowerPlugs {
  import opened Wiring
  import opened Topology
  import opened Graph
  import opened PowerPlan
  import opened PowerTheorems

  /** Two power cables share no socket and no input. */
  ghost predicate Apart(c: Edge, d: Edge) {
    c.kind.Power? && d.kind.Power? ==>
      && !(c.source == d.source && Socket(c) == Socket(d))
      && !(c.target == d.target && Input(c) == Input(d))
  }

  /** Each of the converted cables has its socket and its input for itself. */
  ghost predicate OwnPlugs(converted: seq<Edge>, cables: seq<Edge>) {
    forall i, j :: 0 <= i < j < |cables| && (cables[i] in converted || cables[j] in converted) ==>
      Apart(cables[i], cables[j])
  }

  /** The cable of this step, if it is converted, comes between those before and after. */
  lemma StepInPlace(devices: map<Id, Node>, p: Progress, e: Edge, rest: seq<Edge>)
    ensures var before, after := InPlace(devices, p, [e] + rest), InPlace(devices, Step(devices, p, e), rest);
            if IsLegacy(devices, e) && Decide(devices, p.wires, Ends(devices, e).0, Ends(devices, e).1).Convert?
            then
              var (feeder, fed) := Ends(devices, e);
              var Convert(socket, input) := Decide(devices, p.wires, feeder, fed);
              && before == p.rewritten + NonLegacy(devices, rest)
              && after == p.rewritten + [PowerCable(e, feeder, socket, fed, input)] + NonLegacy(devices, rest)
            else after == before && Step(devices, p, e).plan.converted == p.plan.converted
  {
    hide IsLegacy, NonLegacy, Ends, Decide, Plug, PowerCable;
    NonLegacyStep(devices, e, rest);
    var kept := NonLegacy(devices, rest);
    assert [] + kept == kept && p.rewritten + ([e] + kept) == (p.rewritten + [e]) + kept;
  }

  lemma NonLegacyStep(devices: map<Id, Node>, e: Edge, rest: seq<Edge>)
    ensures NonLegacy(devices, [e] + rest) == (if IsLegacy(devices, e) then [] else [e]) + NonLegacy(devices, rest)
  {
    hide IsLegacy;
    assert ([e] + rest)[1..] == rest;
  }

  // ---- loops ----

  lemma StepAcyclic(devices: map<Id, Node>, p: Progress, e: Edge, rest: seq<Edge>)
    requires Faithful(devices, p, [e] + rest) && Acyclic(PowerArcs(InPlace(devices, p, [e] + rest)))
    ensures Acyclic(PowerArcs(InPlace(devices, Step(devices, p, e), rest)))
  {
    StepInPlace(devices, p, e, rest);
    hide Acyclic, OutletsNeeded, Blocked;
    if IsLegacy(devices, e) && Decide(devices, p.wires, Ends(devices, e).0, Ends(devices, e).1).Convert? {
      var (feeder, fed) := Ends(devices, e);
      var before, after := InPlace(devices, p, [e] + rest), InPlace(devices, Step(devices, p, e), rest);
      assert PowerArcs(after) == PowerArcs(before) + {(feeder, fed)};
      ArcKeepsAcyclic(PowerArcs(before), feeder, fed);
    }
  }

  lemma {:induction false} StepsAcyclic(devices: map<Id, Node>, start: Progress, edges: seq<Edge>, n: nat)
    requires n <= |edges| && Faithful(devices, start, edges) && Acyclic(PowerArcs(InPlace(devices, start, edges)))
    ensures Acyclic(PowerArcs(InPlace(devices, Steps(devices, start, edges[..n]), edges[n..])))
  {
    hide Faithful, Step, Acyclic, InPlace;
    if n == 0 {
      assert edges[0..] == edges;
    } else {
      StepsAcyclic(devices, start, edges, n - 1);
      StepsFaithful(devices, start, edges, n - 1);
      assert edges[..n][..n - 1] == edges[..n - 1];
      assert edges[n - 1..] == [edges[n - 1]] + edges[n..];
      StepAcyclic(devices, Steps(devices, start, edges[..n - 1]), edges[n - 1], edges[n..]);
    }
  }

  /** Cables that were there stay, so the conversion neither makes a power loop nor
      breaks one. */
  lemma LoopsUnchanged(nodes: seq<Node>, edges: seq<Edge>)
    ensures Acyclic(PowerArcs(Planned(nodes, edges).rewritten)) <==> Acyclic(PowerArcs(edges))
  {
    var devices, start := Stored(nodes), Progress(DrawnWires(edges), NO_PLAN, []);
    var cables := Planned(nodes, edges).rewritten;
    PlannedFaithful(nodes, edges);
    StartFaithful(devices, edges);
    NonLegacyHolds(devices, edges);
    assert [] + NonLegacy(devices, edges) == NonLegacy(devices, edges);
    assert PowerArcs(NonLegacy(devices, edges)) == PowerArcs(edges);
    assert edges[..|edges|] == edges && edges[|edges|..] == [];
    if Acyclic(PowerArcs(edges)) {
      StepsAcyclic(devices, start, edges, |edges|);
    }
    PowerCablesStay(nodes, edges);
    if Acyclic(PowerArcs(cables)) {
      AcyclicSubset(PowerArcs(edges), PowerArcs(cables));
    }
  }

  lemma {:induction false} StepsKeepPower(devices: map<Id, Node>, start: Progress, edges: seq<Edge>)
    ensures forall c <- edges :: c.kind.Power? ==> c in Steps(devices, start, edges).rewritten
  {
    if |edges| > 0 {
      var front, last := edges[..|edges| - 1], edges[|edges| - 1];
      StepsKeepPower(devices, start, front);
      assert edges == front + [last];
    }
  }

  lemma PowerCablesStay(nodes: seq<Node>, edges: seq<Edge>)
    ensures forall c <- edges :: c.kind.Power? ==> c in Planned(nodes, edges).rewritten
    ensures PowerArcs(edges) <= PowerArcs(Planned(nodes, edges).rewritten)
  {
    StepsKeepPower(Stored(nodes), Progress(DrawnWires(edges), NO_PLAN, []), edges);
  }

  // ---- sockets and inputs ----

  lemma InsertOwn(converted: seq<Edge>, front: seq<Edge>, c: Edge, back: seq<Edge>)
    requires OwnPlugs(converted, front + back) && c.kind.Power? && forall f <- front + back :: Apart(f, c)
    ensures OwnPlugs(converted + [c], front + [c] + back)
  {
    var before, cables, k := front + back, front + [c] + back, |front|;
    forall i, j | 0 <= i < j < |cables| && (cables[i] in converted + [c] || cables[j] in converted + [c])
      ensures Apart(cables[i], cables[j])
    {
      if i != k && j != k {
        var a, b := if i < k then i else i - 1, if j < k then j else j - 1;
        assert before[a] == cables[i] && before[b] == cables[j];
        assert Apart(before[a], c) && Apart(before[b], c);
      } else if i == k {
        assert before[j - 1] == cables[j];
        assert Apart(before[j - 1], c);
      } else {
        assert before[i] == cables[i];
      }
    }
  }

  lemma StepOwnPlugs(devices: map<Id, Node>, p: Progress, e: Edge, rest: seq<Edge>)
    requires Faithful(devices, p, [e] + rest) && OwnPlugs(p.plan.converted, InPlace(devices, p, [e] + rest))
    ensures OwnPlugs(Step(devices, p, e).plan.converted, InPlace(devices, Step(devices, p, e), rest))
  {
    StepInPlace(devices, p, e, rest);
    hide OwnPlugs, OutletsNeeded, Blocked;
    if IsLegacy(devices, e) && Decide(devices, p.wires, Ends(devices, e).0, Ends(devices, e).1).Convert? {
      var (feeder, fed) := Ends(devices, e);
      var Convert(socket, input) := Decide(devices, p.wires, feeder, fed);
      var before, cable := InPlace(devices, p, [e] + rest), PowerCable(e, feeder, socket, fed, input);
      HandleRoundTrip(POWER_OUT_PREFIX, socket);
      HandleRoundTrip(POWER_IN_PREFIX, input);
      assert !PlugsOut(before, feeder, socket) && !PlugsIn(before, fed, input);
      InsertOwn(p.plan.converted, p.rewritten, cable, NonLegacy(devices, rest));
    }
  }

  lemma {:induction false} StepsOwnPlugs(devices: map<Id, Node>, start: Progress, edges: seq<Edge>, n: nat)
    requires n <= |edges| && Faithful(devices, start, edges)
             && OwnPlugs(start.plan.converted, InPlace(devices, start, edges))
    ensures var p := Steps(devices, start, edges[..n]); OwnPlugs(p.plan.converted, InPlace(devices, p, edges[n..]))
  {
    hide Faithful, Step, OwnPlugs, InPlace;
    if n == 0 {
      assert edges[0..] == edges;
    } else {
      StepsOwnPlugs(devices, start, edges, n - 1);
      StepsFaithful(devices, start, edges, n - 1);
      assert edges[..n][..n - 1] == edges[..n - 1];
      assert edges[n - 1..] == [edges[n - 1]] + edges[n..];
      StepOwnPlugs(devices, Steps(devices, start, edges[..n - 1]), edges[n - 1], edges[n..]);
    }
  }

  /** A converted cable shares its socket and its input with no other cable, even
      when stored cables clash with each other. */
  lemma ConvertedHaveOwnPlugs(nodes: seq<Node>, edges: seq<Edge>)
    ensures OwnPlugs(Planned(nodes, edges).plan.converted, Planned(nodes, edges).rewritten)
  {
    var devices, start := Stored(nodes), Progress(DrawnWires(edges), NO_PLAN, []);
    PlannedFaithful(nodes, edges);
    StartFaithful(devices, edges);
    StepsOwnPlugs(devices, start, edges, |edges|);
    assert edges[..|edges|] == edges && edges[|edges|..] == [];
  }

  // ---- which socket and which input ----

  /** Every lower socket of the feeder and every lower input of the fed device is in use. */
  ghost predicate LowestPlugs(converted: seq<Edge>, cables: seq<Edge>) {
    forall c <- converted ::
      && 0 <= Socket(c) < MAX_POWER_OUTPUTS && 0 <= Input(c) < MAX_POWER_INPUTS
      && (forall i :: 0 <= i < Socket(c) ==> PlugsOut(cables, c.source, i))
      && (forall i :: 0 <= i < Input(c) ==> PlugsIn(cables, c.target, i))
  }

  lemma StepLowest(devices: map<Id, Node>, p: Progress, e: Edge, rest: seq<Edge>)
    requires Faithful(devices, p, [e] + rest) && LowestPlugs(p.plan.converted, InPlace(devices, p, [e] + rest))
    ensures LowestPlugs(Step(devices, p, e).plan.converted, InPlace(devices, Step(devices, p, e), rest))
  {
    StepInPlace(devices, p, e, rest);
    hide OutletsNeeded, Blocked;
    if IsLegacy(devices, e) && Decide(devices, p.wires, Ends(devices, e).0, Ends(devices, e).1).Convert? {
      var (feeder, fed) := Ends(devices, e);
      var Convert(socket, input) := Decide(devices, p.wires, feeder, fed);
      HandleRoundTrip(POWER_OUT_PREFIX, socket);
      HandleRoundTrip(POWER_IN_PREFIX, input);
      LowestStays(p.plan.converted, p.rewritten, PowerCable(e, feeder, socket, fed, input), NonLegacy(devices, rest));
    }
  }

  lemma LowestStays(converted: seq<Edge>, front: seq<Edge>, c: Edge, back: seq<Edge>)
    requires LowestPlugs(converted, front + back) && 0 <= Socket(c) < MAX_POWER_OUTPUTS
             && 0 <= Input(c) < MAX_POWER_INPUTS
    requires forall i :: 0 <= i < Socket(c) ==> PlugsOut(front + back, c.source, i)
    requires forall i :: 0 <= i < Input(c) ==> PlugsIn(front + back, c.target, i)
    ensures LowestPlugs(converted + [c], front + [c] + back)
  {
    var before, after := front + back, front + [c] + back;
    assert forall e :: e in before ==> e in after;
    forall id, i | PlugsOut(before, id, i)
      ensures PlugsOut(after, id, i)
    {
      var e :| e in before && e.kind.Power? && e.source == id && Socket(e) == i;
      assert e in after;
    }
    forall id, i | PlugsIn(before, id, i)
      ensures PlugsIn(after, id, i)
    {
      var e :| e in before && e.kind.Power? && e.target == id && Input(e) == i;
      assert e in after;
    }
  }

  lemma {:induction false} StepsLowest(devices: map<Id, Node>, start: Progress, edges: seq<Edge>, n: nat)
    requires n <= |edges| && Faithful(devices, start, edges)
             && LowestPlugs(start.plan.converted, InPlace(devices, start, edges))
    ensures var p := Steps(devices, start, edges[..n]); LowestPlugs(p.plan.converted, InPlace(devices, p, edges[n..]))
  {
    hide Faithful, Step, LowestPlugs, InPlace;
    if n == 0 {
      assert edges[0..] == edges;
    } else {
      StepsLowest(devices, start, edges, n - 1);
      StepsFaithful(devices, start, edges, n - 1);
      assert edges[..n][..n - 1] == edges[..n - 1];
      assert edges[n - 1..] == [edges[n - 1]] + edges[n..];
      StepLowest(devices, Steps(devices, start, edges[..n - 1]), edges[n - 1], edges[n..]);
    }
  }

  /** A converted cable uses the lowest socket and the lowest input it could have:
      all below are in use by others in the final wiring. */
  lemma ConvertedPlugLowest(nodes: seq<Node>, edges: seq<Edge>)
    ensures LowestPlugs(Planned(nodes, edges).plan.converted, Planned(nodes, edges).rewritten)
  {
    var devices, start := Stored(nodes), Progress(DrawnWires(edges), NO_PLAN, []);
    PlannedFaithful(nodes, edges);
    StartFaithful(devices, edges);
    StepsLowest(devices, start, edges, |edges|);
    assert edges[..|edges|] == edges && edges[|edges|..] == [];
  }
}
