/** Breadth-first search for the shortest physical path from a device to the
    nearest one that matches (backend/internal/gaming/report.go, pathTo).
*/
module ShortestPath {
  import opened Wrappers
  import opened Graph
  import Searches

  // ---- the breadth-first search ----

  ghost predicate Hit<V>(from: V, matches: V -> bool, v: V) {
    v != from && matches(v)
  }

  /** A walk from the start to a matching other device. */
  ghost predicate LeadsToHit<V>(arcs: set<(V, V)>, from: V, matches: V -> bool, p: seq<V>) {
    IsPath(arcs, p) && p[0] == from && Hit(from, matches, p[|p| - 1])
  }

  /** The tree of parents; dist is how far away each known device is. */
  ghost predicate Linked<V>(arcs: set<(V, V)>, from: V, previous: map<V, Option<V>>, dist: map<V, nat>) {
    && previous.Keys == dist.Keys
    && from in dist && dist[from] == 0 && previous[from] == None
    && forall v {:trigger previous[v]} :: v in previous && v != from ==>
         && previous[v].Some? && previous[v].value in dist
         && (previous[v].value, v) in arcs
         && dist[v] == dist[previous[v].value] + 1
  }

  /** Known devices are expanded or wait, the nearest first. */
  ghost predicate Waiting<V>(dist: map<V, nat>, done: set<V>, waiting: seq<V>) {
    && (forall v <- waiting :: v in dist)
    && (forall v <- dist :: v in done || v in waiting)
    && (forall a, b :: 0 <= a < b < |waiting| ==> dist[waiting[a]] <= dist[waiting[b]])
  }

  /** The neighbours of an expanded device are known and at most one step further. */
  ghost predicate Expanded<V(!new)>(arcs: set<(V, V)>, dist: map<V, nat>, done: set<V>) {
    && done <= dist.Keys
    && forall v, w :: v in done && (v, w) in arcs ==> w in dist && dist[w] <= dist[v] + 1
  }

  ghost predicate NoHit<V>(from: V, matches: V -> bool, done: set<V>) {
    forall v <- done :: !Hit(from, matches, v)
  }

  /** A walk that is shorter than the distance of the next in the queue stays among
      the expanded. */
  lemma {:induction false} ShortWalkExpanded<V(!new)>(arcs: set<(V, V)>, from: V, dist: map<V, nat>, done: set<V>,
      waiting: seq<V>, p: seq<V>)
    requires Waiting(dist, done, waiting) && Expanded(arcs, dist, done) && from in dist && dist[from] == 0
    requires |waiting| > 0 && IsPath(arcs, p) && p[0] == from && |p| - 1 < dist[waiting[0]]
    ensures var v := p[|p| - 1]; v in done && dist[v] <= |p| - 1
  {
    if |p| > 1 {
      var front := p[..|p| - 1];
      ShortWalkExpanded(arcs, from, dist, done, waiting, front);
      assert (front[|front| - 1], p[|p| - 1]) in arcs;
    }
  }

  lemma NoShorterHit<V(!new)>(matches: V -> bool, arcs: set<(V, V)>, from: V,
                     dist: map<V, nat>, done: set<V>, waiting: seq<V>)
    requires Waiting(dist, done, waiting) && Expanded(arcs, dist, done) && from in dist && dist[from] == 0
    requires |waiting| > 0 && NoHit(from, matches, done)
    ensures forall p :: LeadsToHit(arcs, from, matches, p) ==> |p| >= dist[waiting[0]] + 1
  {
    forall p | LeadsToHit(arcs, from, matches, p) ensures |p| >= dist[waiting[0]] + 1 {
      if |p| - 1 < dist[waiting[0]] {
        ShortWalkExpanded(arcs, from, dist, done, waiting, p);
      }
    }
  }

  lemma NothingBeyond<V(!new)>(matches: V -> bool, arcs: set<(V, V)>, from: V, dist: map<V, nat>, done: set<V>)
    requires Waiting(dist, done, []) && Expanded(arcs, dist, done) && from in dist
    requires NoHit(from, matches, done)
    ensures forall v :: Hit(from, matches, v) ==> !Reaches(arcs, from, v)
  {
    forall v | Hit(from, matches, v) ensures !Reaches(arcs, from, v) {
      if Reaches(arcs, from, v) {
        ClosedKeepsReach(arcs, done, from, v);
      }
    }
  }

  function Reversed<T>(s: seq<T>): (r: seq<T>)
    ensures |r| == |s| && forall i :: 0 <= i < |s| ==> r[i] == s[|s| - 1 - i]
  {
    seq(|s|, i requires 0 <= i < |s| => s[|s| - 1 - i])
  }

  /** Walks the parents back to the start; every step is one nearer to it. */
  method WalkBack<V(==, !new)>(ghost arcs: set<(V, V)>, from: V, previous: map<V, Option<V>>, ghost dist: map<V, nat>,
                               to: V)
    returns (path: seq<V>)
    requires Linked(arcs, from, previous, dist) && to in previous
    ensures PathFrom(arcs, path, from, to) && |path| == dist[to] + 1
  {
    var back := [];
    var id := Some(to);
    while id.Some?
      invariant id.Some? ==> id.value in dist && |back| == dist[to] - dist[id.value]
      invariant id.Some? && |back| > 0 ==> (id.value, back[|back| - 1]) in arcs
      invariant id.Some? && |back| == 0 ==> id.value == to
      invariant id.None? ==> |back| == dist[to] + 1 && back[|back| - 1] == from
      invariant |back| > 0 ==> back[0] == to
      invariant forall k :: 0 < k < |back| ==> (back[k], back[k - 1]) in arcs
      decreases if id.Some? then dist[id.value] + 1 else 0
    {
      back := back + [id.value];
      id := previous[id.value];
    }
    path := Reversed(back);
  }

  /** Everything the search knows while it expands one device. */
  ghost predicate Searching<V>(arcs: set<(V, V)>, from: V, current: V, previous: map<V, Option<V>>, dist: map<V, nat>,
                            done: set<V>, waiting: seq<V>)
  {
    && Linked(arcs, from, previous, dist) && Waiting(dist, done, waiting) && current in dist
    && (forall v <- dist :: dist[v] <= dist[current] + 1)
    && (forall v <- waiting :: dist[current] <= dist[v])
  }

  /** A neighbour of the device being expanded joins the queue unless it is known. */
  method Discover<V(==, !new)>(ghost arcs: set<(V, V)>, from: V, current: V, previous: map<V, Option<V>>, queue: seq<V>,
                               ghost dist: map<V, nat>, ghost done: set<V>, ghost waiting: seq<V>, w: V)
    returns (previous': map<V, Option<V>>, queue': seq<V>, ghost dist': map<V, nat>, ghost added: seq<V>)
    requires (current, w) in arcs && Searching(arcs, from, current, previous, dist, done, waiting)
    ensures queue' == queue + added && |previous'| == |previous| + |added|
    ensures Searching(arcs, from, current, previous', dist', done, waiting + added)
    ensures Keeps(dist, dist')
    ensures previous'.Keys == previous.Keys + {w} && w in dist'
  {
    previous', queue', dist', added := previous, queue, dist, [];
    if w !in previous {
      Joins(arcs, from, previous, dist, done, waiting, current, w);
      previous', dist', queue', added := previous[w := Some(current)], dist[w := dist[current] + 1], queue + [w], [w];
    } else {
      assert waiting + [] == waiting;
    }
  }

  /** Takes the neighbours of the next in the queue that were not seen yet. */
  method Expand<V(==, !new)>(ghost arcs: set<(V, V)>, from: V, current: V, neighbours: seq<V>,
                             previous: map<V, Option<V>>, queue: seq<V>,
                             ghost dist: map<V, nat>, ghost done: set<V>, ghost waiting: seq<V>)
    returns (previous': map<V, Option<V>>, queue': seq<V>, ghost dist': map<V, nat>, ghost added: seq<V>)
    requires forall j :: 0 <= j < |neighbours| ==> (current, neighbours[j]) in arcs
    requires Searching(arcs, from, current, previous, dist, done, waiting)
    ensures queue' == queue + added && |previous'| == |previous| + |added|
    ensures Searching(arcs, from, current, previous', dist', done, waiting + added)
    ensures Keeps(dist, dist')
    ensures previous'.Keys == previous.Keys + Elements(neighbours)
  {
    previous', queue', dist', added := previous, queue, dist, [];
    ghost var line := waiting;
    for k := 0 to |neighbours|
      invariant queue' == queue + added && line == waiting + added && |previous'| == |previous| + |added|
      invariant Searching(arcs, from, current, previous', dist', done, line)
      invariant Keeps(dist, dist')
      invariant previous'.Keys == previous.Keys + Elements(neighbours[..k])
    {
      ghost var more;
      previous', queue', dist', more :=
        Discover(arcs, from, current, previous', queue', dist', done, line, neighbours[k]);
      Appended(waiting, added, more);
      Appended(queue, added, more);
      OneMore(neighbours, k);
      line, added := line + more, added + more;
    }
    assert neighbours[..|neighbours|] == neighbours;
  }

  ghost predicate Keeps<V>(dist: map<V, nat>, dist': map<V, nat>) {
    forall v {:trigger v in dist'} :: v in dist ==> v in dist' && dist'[v] == dist[v]
  }

  ghost function Elements<T>(s: seq<T>): set<T> {
    set x | x in s
  }

  lemma OneMore<T>(s: seq<T>, k: nat)
    requires k < |s|
    ensures Elements(s[..k + 1]) == Elements(s[..k]) + {s[k]}
  {
    assert s[..k + 1] == s[..k] + [s[k]];
  }

  lemma NeighboursKnown<V(!new)>(next: map<V, seq<V>>, current: V)
    ensures forall w :: (current, w) in Arcs(next) <==> w in Elements(Searches.Next(next, current))
    ensures Elements(Searches.Next(next, current)) <= Vertices(next)
  {
  }

  lemma ExpandedMore<V(!new)>(arcs: set<(V, V)>, before: map<V, nat>, dist: map<V, nat>, done: set<V>, current: V)
    requires Expanded(arcs, before, done) && current in before
    requires Keeps(before, dist)
    requires forall w :: (current, w) in arcs ==> w in dist && dist[w] <= dist[current] + 1
    ensures Expanded(arcs, dist, done + {current})
  {
  }

  lemma Appended<T>(a: seq<T>, b: seq<T>, c: seq<T>)
    ensures a + b + c == a + (b + c)
  {
  }

  lemma Popped<T>(queue: seq<T>, i: nat, added: seq<T>)
    requires i < |queue|
    ensures queue[i..] == [queue[i]] + queue[i..][1..]
    ensures (queue + added)[i + 1..] == queue[i..][1..] + added
  {
  }

  lemma SubsetIsSmaller<T>(some: set<T>, all: set<T>)
    requires some <= all
    ensures |some| <= |all|
  {
    assert all == some + (all - some);
  }

  /** A device found from the one being expanded joins the end of the queue. */
  lemma Joins<V(!new)>(arcs: set<(V, V)>, from: V, previous: map<V, Option<V>>, dist: map<V, nat>, done: set<V>,
                       waiting: seq<V>,
              current: V, w: V)
    requires Searching(arcs, from, current, previous, dist, done, waiting)
    requires w !in previous && (current, w) in arcs
    ensures Searching(arcs, from, current, previous[w := Some(current)], dist[w := dist[current] + 1], done,
                      waiting + [w])
  {
  }

  lemma StartsExpanding<V(!new)>(arcs: set<(V, V)>, from: V, previous: map<V, Option<V>>, dist: map<V, nat>,
                                 done: set<V>,
                                 current: V, rest: seq<V>)
    requires Linked(arcs, from, previous, dist) && Waiting(dist, done, [current] + rest)
    requires forall v <- dist :: dist[v] <= dist[current] + 1
    ensures Searching(arcs, from, current, previous, dist, done + {current}, rest)
  {
    var waiting := [current] + rest;
    assert waiting[0] == current && forall b :: 0 <= b < |rest| ==> waiting[b + 1] == rest[b];
  }

  /** The loop invariant of the search, when the first i of the queue are expanded. */
  ghost predicate Exploring<V(!new)>(arcs: set<(V, V)>, from: V, matches: V -> bool, previous: map<V, Option<V>>,
                                     queue: seq<V>, i: nat,
                                     dist: map<V, nat>, done: set<V>)
  {
    && i <= |queue| == |previous|
    && Linked(arcs, from, previous, dist)
    && Waiting(dist, done, queue[i..]) && Expanded(arcs, dist, done)
    && (i < |queue| ==> forall v <- dist :: dist[v] <= dist[queue[i]] + 1)
    && NoHit(from, matches, done)
  }

  /** Expands the next in the queue, which does not match. */
  method Advance<V(==, !new)>(graph: map<V, seq<V>>, from: V, ghost matches: V -> bool, previous: map<V, Option<V>>,
                              queue: seq<V>, i: nat,
                              ghost dist: map<V, nat>, ghost done: set<V>)
    returns (previous': map<V, Option<V>>, queue': seq<V>, ghost dist': map<V, nat>)
    requires Exploring(Arcs(graph), from, matches, previous, queue, i, dist, done)
    requires i < |queue| && !Hit(from, matches, queue[i])
    ensures Exploring(Arcs(graph), from, matches, previous', queue', i + 1, dist', done + {queue[i]})
    ensures previous'.Keys <= previous.Keys + Vertices(graph)
  {
    ghost var arcs, rest := Arcs(graph), queue[i..][1..];
    ghost var added;
    Popped(queue, i, []);
    StartsExpanding(arcs, from, previous, dist, done, queue[i], rest);
    NeighboursKnown(graph, queue[i]);
    previous', queue', dist', added :=
      Expand(arcs, from, queue[i], Searches.Next(graph, queue[i]), previous, queue, dist, done + {queue[i]}, rest);
    ExpandedMore(arcs, dist, dist', done, queue[i]);
    Popped(queue, i, added);
    assert i + 1 < |queue'| ==> queue'[i + 1] == (rest + added)[0] && (rest + added)[0] in rest + added;
  }

  /** The next in the queue matches: the walk back from it is as short as any. */
  method Found<V(==, !new)>(ghost arcs: set<(V, V)>, from: V, ghost matches: V -> bool, previous: map<V, Option<V>>,
                            ghost queue: seq<V>,
                            ghost i: nat, ghost dist: map<V, nat>, ghost done: set<V>, current: V)
    returns (path: seq<V>)
    requires Exploring(arcs, from, matches, previous, queue, i, dist, done)
    requires i < |queue| && current == queue[i] && Hit(from, matches, current)
    ensures Nearest(arcs, from, matches, path)
  {
    ghost var waiting := queue[i..];
    assert waiting[0] == current && current in dist;
    path := WalkBack(arcs, from, previous, dist, current);
    NoShorterHit(matches, arcs, from, dist, done, waiting);
  }

  ghost predicate Nearest<V(!new)>(arcs: set<(V, V)>, from: V, matches: V -> bool, path: seq<V>) {
    && LeadsToHit(arcs, from, matches, path)
    && forall p :: LeadsToHit(arcs, from, matches, p) ==> |path| <= |p|
  }

  ghost predicate OutOfReach<V(!new)>(arcs: set<(V, V)>, from: V, matches: V -> bool) {
    forall v :: Hit(from, matches, v) ==> !Reaches(arcs, from, v)
  }

  lemma NearestInReach<V(!new)>(arcs: set<(V, V)>, from: V, matches: V -> bool, path: seq<V>)
    requires Nearest(arcs, from, matches, path)
    ensures !OutOfReach(arcs, from, matches)
  {
    assert PathFrom(arcs, path, from, path[|path| - 1]) && Hit(from, matches, path[|path| - 1]);
  }

  lemma Shortcut<V>(arcs: set<(V, V)>, from: V, matches: V -> bool, path: seq<V>, i: nat, j: nat)
    requires LeadsToHit(arcs, from, matches, path) && i < j < |path| && path[i] == path[j]
    ensures LeadsToHit(arcs, from, matches, path[..i] + path[j..])
  {
    var shorter := path[..i] + path[j..];
    forall k | 0 < k < |shorter|
      ensures (shorter[k - 1], shorter[k]) in arcs
    {
      var l := if k <= i then k else k - i + j;
      assert (path[l - 1], path[l]) in arcs;
    }
  }

  /** A nearest path passes nothing twice. */
  lemma NearestIsSimple<V(!new)>(arcs: set<(V, V)>, from: V, matches: V -> bool, path: seq<V>)
    requires Nearest(arcs, from, matches, path)
    ensures forall i, j :: 0 <= i < j < |path| ==> path[i] != path[j]
  {
    hide LeadsToHit;
    forall i, j | 0 <= i < j < |path|
      ensures path[i] != path[j]
    {
      if path[i] == path[j] {
        Shortcut(arcs, from, matches, path, i, j);
      }
    }
  }

  lemma Starts<V(!new)>(arcs: set<(V, V)>, from: V, matches: V -> bool)
    ensures Exploring(arcs, from, matches, map[from := None], [from], 0, map[from := 0], {})
  {
    assert [from][0..] == [from];
  }

  lemma Exhausted<V(!new)>(arcs: set<(V, V)>, from: V, matches: V -> bool, previous: map<V, Option<V>>, queue: seq<V>,
                           dist: map<V, nat>, done: set<V>)
    requires Exploring(arcs, from, matches, previous, queue, |queue|, dist, done)
    ensures OutOfReach(arcs, from, matches)
  {
    assert queue[|queue|..] == [];
    NothingBeyond(matches, arcs, from, dist, done);
  }

  lemma QueueFits<V(!new)>(arcs: set<(V, V)>, from: V, matches: V -> bool, previous: map<V, Option<V>>, queue: seq<V>,
                           i: nat,
                           dist: map<V, nat>, done: set<V>, all: set<V>)
    requires Exploring(arcs, from, matches, previous, queue, i, dist, done) && previous.Keys <= all
    ensures |queue| <= |all|
  {
    SubsetIsSmaller(previous.Keys, all);
  }

  /** The shortest physical path from a device to the nearest other one that
      matches, both ends included; none when none is within reach. */
  method PathTo<V(==, !new)>(graph: map<V, seq<V>>, from: V, matches: V -> bool) returns (path: Option<seq<V>>)
    ensures path.Some? ==> Nearest(Arcs(graph), from, matches, path.value)
    ensures path.None? ==> OutOfReach(Arcs(graph), from, matches)
  {
    ghost var all := Vertices(graph) + {from};
    var previous: map<V, Option<V>> := map[from := None];
    var queue := [from];
    ghost var dist: map<V, nat>, done: set<V> := map[from := 0], {};
    var i := 0;
    Starts(Arcs(graph), from, matches);
    while i < |queue|
      invariant i <= |queue| && previous.Keys <= all
      invariant Exploring(Arcs(graph), from, matches, previous, queue, i, dist, done)
      decreases |all| - i
    {
      var current := queue[i];
      if current != from && matches(current) {
        var back := Found(Arcs(graph), from, matches, previous, queue, i, dist, done, current);
        return Some(back);
      }
      QueueFits(Arcs(graph), from, matches, previous, queue, i, dist, done, all);
      previous, queue, dist := Advance(graph, from, matches, previous, queue, i, dist, done);
      done := done + {current};
      i := i + 1;
    }
    Exhausted(Arcs(graph), from, matches, previous, queue, dist, done);
    return None;
  }
}
