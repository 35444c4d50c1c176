/** The two searches over power cables: the worklist search of the conversion
    and the three-colour depth-first search of the save validation. */
module Searches {
  import opened Wrappers
  import opened Graph

  function Next<V(==)>(next: map<V, seq<V>>, v: V): seq<V> {
    if v in next then next[v] else []
  }

  /** Whether power already flows from one node to another. The stack may hold a
      node more than once; a node is expanded only the first time. */
  method PowerReaches<V(==, !new)>(feeds: map<V, seq<V>>, from: V, to: V) returns (found: bool)
    ensures found <==> Reaches(Arcs(feeds), from, to)
  {
    ghost var arcs := Arcs(feeds);
    ghost var all := Vertices(feeds) + {from};
    var seen: set<V> := {};
    var stack := [from];
    ReachesSelf(arcs, from);
    while |stack| > 0
      invariant forall v <- stack :: v in all && Reaches(arcs, from, v)
      invariant seen <= all && to !in seen
      invariant from in seen || from in stack
      invariant forall v, w :: (v, w) in arcs && v in seen ==> w in seen || w in stack
      decreases all - seen, |stack|
    {
      var node := stack[|stack| - 1];
      ghost var before := stack;
      stack := stack[..|stack| - 1];
      assert before == stack + [node];
      if node == to {
        return true;
      }
      if node in seen {
        continue;
      }
      seen := seen + {node};
      forall w | w in Next(feeds, node) ensures w in all && Reaches(arcs, from, w) {
        assert (node, w) in arcs;
        ReachesArc(arcs, node, w);
        ReachesTransitive(arcs, from, node, w);
      }
      stack := stack + Next(feeds, node);
    }
    if Reaches(arcs, from, to) {
      ClosedKeepsReach(arcs, seen, from, to);
    }
    return false;
  }

  /** A node that has no colour yet is unvisited. */
  datatype Colour = Active | Done

  ghost function Finished<V>(state: map<V, Colour>): set<V> {
    set v | v in state && state[v] == Done
  }

  ghost function OnTrail<V>(state: map<V, Colour>): set<V> {
    set v | v in state && state[v] == Active
  }

  /** What a finished node feeds is finished, and no finished node is on a cycle. */
  ghost predicate Settled<V(!new)>(arcs: set<(V, V)>, state: map<V, Colour>) {
    && (forall v, w :: (v, w) in arcs && v in Finished(state) ==> w in Finished(state))
    && (forall v <- Finished(state) :: !OnCycle(arcs, v))
  }

  /** Explores everything power reaches from id, and stops at the first node that
      is met again while it is still on the trail. */
  method Visit<V(==, !new)>(next: map<V, seq<V>>, state: map<V, Colour>, id: V)
    returns (after: map<V, Colour>, found: Option<V>)
    requires id !in state && state.Keys + {id} <= Vertices(next)
    requires Settled(Arcs(next), state)
    requires forall v <- OnTrail(state) :: Reaches(Arcs(next), v, id)
    ensures found.Some? ==> OnCycle(Arcs(next), found.value)
    ensures found.None? ==>
              && Settled(Arcs(next), after)
              && OnTrail(after) == OnTrail(state)
              && Finished(state) + {id} <= Finished(after)
              && after.Keys <= Vertices(next)
    decreases Vertices(next) - state.Keys
  {
    ghost var arcs := Arcs(next);
    after := state[id := Active];
    ReachesSelf(arcs, id);
    var fed := Next(next, id);
    for i := 0 to |fed|
      invariant Settled(arcs, after)
      invariant OnTrail(after) == OnTrail(state) + {id}
      invariant Finished(state) <= Finished(after)
      invariant state.Keys + {id} <= after.Keys <= Vertices(next)
      invariant forall j :: 0 <= j < i ==> fed[j] in Finished(after)
    {
      var n := fed[i];
      assert (id, n) in arcs;
      if n in after && after[n] == Active {
        assert n in OnTrail(after);
        assert OnCycle(arcs, n) by {
          TrailClosesCycle(arcs, n, id);
        }
        return after, Some(n);
      }
      if n !in after {
        forall v | v in OnTrail(after) ensures Reaches(arcs, v, n) {
          ReachesArc(arcs, id, n);
          ReachesTransitive(arcs, v, id, n);
        }
        ghost var trail := after;
        after, found := Visit(next, after, n);
        if found.Some? {
          return;
        }
        assert state.Keys <= after.Keys by {
          assert forall v <- trail :: v in OnTrail(trail) || v in Finished(trail);
          assert forall v <- trail :: v in OnTrail(after) || v in Finished(after);
        }
      } else {
        assert n in Finished(after);
      }
    }
    assert !OnCycle(arcs, id) by {
      assert id in OnTrail(after) && id !in Finished(after);
      if OnCycle(arcs, id) {
        var w :| (id, w) in arcs && Reaches(arcs, w, id);
        assert w in Finished(after);
        ClosedKeepsReach(arcs, Finished(after), w, id);
      }
    }
    ghost var open := after;
    after := after[id := Done];
    found := None;
    assert Finished(after) == Finished(open) + {id};
    assert OnTrail(after) == OnTrail(state) by {
      assert id !in OnTrail(state);
    }
  }

  lemma TrailClosesCycle<V(!new)>(arcs: set<(V, V)>, n: V, id: V)
    requires (id, n) in arcs && Reaches(arcs, n, id)
    ensures OnCycle(arcs, n)
  {
    var p :| PathFrom(arcs, p, n, id);
    if |p| == 1 {
    } else {
      var w := p[1];
      assert PathFrom(arcs, p[1..], w, id);
      ReachesArc(arcs, id, n);
      ReachesTransitive(arcs, w, id, n);
    }
  }

  /** The search over a whole table: nothing is found exactly when no node leads
      back into itself, and what is found is on a cycle. */
  method FindLoop<V(==, !new)>(next: map<V, seq<V>>, order: seq<V>) returns (found: Option<V>)
    requires forall v :: v in next <==> v in order
    ensures found.None? <==> Acyclic(Arcs(next))
    ensures found.Some? ==> OnCycle(Arcs(next), found.value)
  {
    ghost var arcs := Arcs(next);
    var state: map<V, Colour> := map[];
    for i := 0 to |order|
      invariant Settled(arcs, state) && OnTrail(state) == {} && state.Keys <= Vertices(next)
      invariant forall j :: 0 <= j < i ==> order[j] in Finished(state)
    {
      var id := order[i];
      if id !in state {
        assert id in next;
        state, found := Visit(next, state, id);
        if found.Some? {
          return;
        }
      } else {
        assert id in OnTrail(state) || id in Finished(state);
      }
    }
    found := None;
    forall v ensures !OnCycle(arcs, v) {
      if v in next {
        assert v in Finished(state);
      }
    }
  }
}
