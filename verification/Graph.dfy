/** Directed graphs as sets of arcs: paths, reachability and cycles. Everything
    here is specification; the searches of the source are proved against it. */
module Graph {

  /** A walk: a non-empty sequence of vertices, each joined to the next. */
  ghost predicate IsPath<V>(arcs: set<(V, V)>, p: seq<V>) {
    |p| > 0 && forall i :: 0 < i < |p| ==> (p[i - 1], p[i]) in arcs
  }

  ghost predicate PathFrom<V>(arcs: set<(V, V)>, p: seq<V>, a: V, b: V) {
    IsPath(arcs, p) && p[0] == a && p[|p| - 1] == b
  }

  ghost predicate Reaches<V(!new)>(arcs: set<(V, V)>, a: V, b: V) {
    exists p :: PathFrom(arcs, p, a, b)
  }

  /** Following at least one arc leads back. */
  ghost predicate OnCycle<V(!new)>(arcs: set<(V, V)>, v: V) {
    exists w :: (v, w) in arcs && Reaches(arcs, w, v)
  }

  ghost predicate Acyclic<V(!new)>(arcs: set<(V, V)>) {
    forall v :: !OnCycle(arcs, v)
  }

  /** The arcs of an adjacency table, whose lists may repeat a neighbour. */
  ghost function Arcs<V>(next: map<V, seq<V>>): set<(V, V)> {
    set v, w | v in next && w in next[v] :: (v, w)
  }

  /** Every vertex an adjacency table names. */
  ghost function Vertices<V>(next: map<V, seq<V>>): set<V> {
    next.Keys + set v, w | v in next && w in next[v] :: w
  }

  lemma ReachesSelf<V(!new)>(arcs: set<(V, V)>, a: V)
    ensures Reaches(arcs, a, a)
  {
    assert PathFrom(arcs, [a], a, a);
  }

  lemma ReachesTransitive<V(!new)>(arcs: set<(V, V)>, a: V, b: V, c: V)
    requires Reaches(arcs, a, b) && Reaches(arcs, b, c)
    ensures Reaches(arcs, a, c)
  {
    var p :| PathFrom(arcs, p, a, b);
    var q :| PathFrom(arcs, q, b, c);
    assert PathFrom(arcs, p + q[1..], a, c);
  }

  lemma ReachesArc<V(!new)>(arcs: set<(V, V)>, a: V, b: V)
    requires (a, b) in arcs
    ensures Reaches(arcs, a, b)
  {
    assert PathFrom(arcs, [a, b], a, b);
  }

  lemma ReachesMonotone<V(!new)>(arcs: set<(V, V)>, more: set<(V, V)>, a: V, b: V)
    requires arcs <= more && Reaches(arcs, a, b)
    ensures Reaches(more, a, b)
  {
    var p :| PathFrom(arcs, p, a, b);
    assert PathFrom(more, p, a, b);
  }

  /** A set of vertices that no arc leaves keeps every walk that starts in it. */
  lemma {:induction false} ClosedKeepsPath<V>(arcs: set<(V, V)>, inside: set<V>, p: seq<V>)
    requires IsPath(arcs, p) && p[0] in inside
    requires forall v, w :: (v, w) in arcs && v in inside ==> w in inside
    ensures p[|p| - 1] in inside
  {
    if |p| > 1 {
      ClosedKeepsPath(arcs, inside, p[..|p| - 1]);
    }
  }

  lemma ClosedKeepsReach<V(!new)>(arcs: set<(V, V)>, inside: set<V>, a: V, b: V)
    requires a in inside && Reaches(arcs, a, b)
    requires forall v, w :: (v, w) in arcs && v in inside ==> w in inside
    ensures b in inside
  {
    var p :| PathFrom(arcs, p, a, b);
    ClosedKeepsPath(arcs, inside, p);
  }

  /** A walk after one arc was added either avoids it, or gets to its tail and
      goes on from its head without it. */
  lemma {:induction false} ReachesWithArc<V(!new)>(arcs: set<(V, V)>, u: V, w: V, p: seq<V>)
    requires IsPath(arcs + {(u, w)}, p)
    ensures var a, b := p[0], p[|p| - 1];
            || Reaches(arcs, a, b)
            || (Reaches(arcs, a, u) && Reaches(arcs, w, b))
    decreases |p|
  {
    var a, b := p[0], p[|p| - 1];
    if |p| == 1 {
      ReachesSelf(arcs, a);
    } else {
      var front := p[..|p| - 1];
      var c := front[|front| - 1];
      ReachesWithArc(arcs, u, w, front);
      assert (c, b) in arcs + {(u, w)};
      if (c, b) in arcs {
        ReachesArc(arcs, c, b);
        if Reaches(arcs, a, c) {
          ReachesTransitive(arcs, a, c, b);
        } else {
          ReachesTransitive(arcs, w, c, b);
        }
      } else {
        ReachesSelf(arcs, b);
        if Reaches(arcs, a, c) {
        } else {
          assert Reaches(arcs, a, u);
        }
      }
    }
  }

  /** An arc whose head does not lead back to its tail closes no cycle, and one
      whose head does closes one. */
  lemma ArcKeepsAcyclic<V(!new)>(arcs: set<(V, V)>, u: V, w: V)
    requires Acyclic(arcs)
    ensures Acyclic(arcs + {(u, w)}) <==> !Reaches(arcs, w, u)
  {
    var more := arcs + {(u, w)};
    if Reaches(arcs, w, u) {
      ReachesMonotone(arcs, more, w, u);
      assert (u, w) in more;
      assert OnCycle(more, u);
    } else {
      forall v ensures !OnCycle(more, v) {
        assert !OnCycle(arcs, v);
        if OnCycle(more, v) {
          var x :| (v, x) in more && Reaches(more, x, v);
          var p :| PathFrom(more, p, x, v);
          ReachesWithArc(arcs, u, w, p);
          if (v, x) != (u, w) && !Reaches(arcs, x, v) {
            ReachesArc(arcs, v, x);
            ReachesTransitive(arcs, w, v, x);
            ReachesTransitive(arcs, w, x, u);
          }
        }
      }
    }
  }

  lemma AcyclicSubset<V(!new)>(fewer: set<(V, V)>, arcs: set<(V, V)>)
    requires fewer <= arcs && Acyclic(arcs)
    ensures Acyclic(fewer)
  {
    forall v ensures !OnCycle(fewer, v) {
      if OnCycle(fewer, v) {
        var w :| (v, w) in fewer && Reaches(fewer, w, v);
        ReachesMonotone(fewer, arcs, w, v);
        assert OnCycle(arcs, v);
      }
    }
  }
}
