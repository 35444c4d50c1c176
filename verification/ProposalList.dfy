/** The proposals of a build as a list: ids, positions, superseding and pruning
    (backend/internal/services/proposal_service.go). */
module ProposalList {
  import opened Protocol

  /** Ids grow along the list and stay below a bound. */
  ghost predicate Ordered(ps: seq<Proposal>, bound: nat) {
    |ps| == 0 || (ps[|ps| - 1].id < bound && Ordered(ps[..|ps| - 1], ps[|ps| - 1].id))
  }

  lemma {:induction false} OrderedBelow(ps: seq<Proposal>, bound: nat, p: Proposal)
    requires Ordered(ps, bound) && p in ps
    ensures p.id < bound
  {
    if p != ps[|ps| - 1] {
      OrderedBelow(ps[..|ps| - 1], ps[|ps| - 1].id, p);
    }
  }

  /** Ids tell proposals apart. */
  lemma {:induction false} PositionFinds(ps: seq<Proposal>, bound: nat, p: Proposal)
    requires Ordered(ps, bound) && p in ps
    ensures Position(ps, p.id) >= 0 && ps[Position(ps, p.id)] == p
  {
    if p != ps[|ps| - 1] {
      OrderedBelow(ps[..|ps| - 1], ps[|ps| - 1].id, p);
      PositionFinds(ps[..|ps| - 1], ps[|ps| - 1].id, p);
    }
  }

  lemma {:induction false} PositionAbsent(ps: seq<Proposal>, id: nat)
    ensures Position(ps, id) < 0 <==> forall p <- ps :: p.id != id
  {
    if |ps| > 0 {
      PositionAbsent(ps[..|ps| - 1], id);
      assert ps == ps[..|ps| - 1] + [ps[|ps| - 1]];
    }
  }

  lemma {:induction false} OrderedUpdate(ps: seq<Proposal>, bound: nat, at: nat, p: Proposal)
    requires Ordered(ps, bound) && at < |ps| && p.id == ps[at].id
    ensures Ordered(ps[at := p], bound)
  {
    var last := |ps| - 1;
    if at < last {
      OrderedUpdate(ps[..last], ps[last].id, at, p);
      assert ps[at := p][..last] == ps[..last][at := p];
    } else {
      assert ps[at := p][..last] == ps[..last];
    }
  }

  lemma {:induction false} OrderedSuperseded(ps: seq<Proposal>, bound: nat)
    requires Ordered(ps, bound)
    ensures Ordered(SupersedeAll(ps), bound)
  {
    if |ps| > 0 {
      OrderedSuperseded(ps[..|ps| - 1], ps[|ps| - 1].id);
    }
  }

  lemma OrderedWider(ps: seq<Proposal>, bound: nat, wider: nat)
    requires Ordered(ps, bound) && bound <= wider
    ensures Ordered(ps, wider)
  {
  }

  lemma {:induction false} OrderedPruned(ps: seq<Proposal>, bound: nat, later: nat)
    requires Ordered(ps, bound)
    ensures Ordered(Prune(ps, later), bound)
  {
    if |ps| > 0 {
      var front, last := ps[..|ps| - 1], ps[|ps| - 1];
      var settled := if last.status == Pending then later else later + 1;
      OrderedPruned(front, last.id, settled);
      OrderedWider(Prune(front, settled), last.id, bound);
      var kept := Prune(front, settled) + [last];
      assert kept[..|kept| - 1] == Prune(front, settled);
    }
  }

  lemma {:induction false} PrunedFrom(ps: seq<Proposal>, later: nat, p: Proposal)
    requires p in Prune(ps, later)
    ensures p in ps
  {
    var front, last := ps[..|ps| - 1], ps[|ps| - 1];
    if p != last {
      PrunedFrom(front, if last.status == Pending then later else later + 1, p);
    }
  }

  lemma {:induction false} SupersededFrom(ps: seq<Proposal>, p: Proposal)
    requires p in SupersedeAll(ps)
    ensures exists q <- ps :: p == Superseding(q)
  {
    var front, last := ps[..|ps| - 1], ps[|ps| - 1];
    if p == Superseding(last) {
      assert last in ps;
    } else {
      SupersededFrom(front, p);
    }
  }

  /** Settled proposals survive superseding as they are. */
  lemma {:induction false} SettledKept(ps: seq<Proposal>, p: Proposal)
    requires p in ps && p.status != Pending
    ensures p in SupersedeAll(ps)
  {
    if p != ps[|ps| - 1] {
      SettledKept(ps[..|ps| - 1], p);
    }
  }

  lemma {:induction false} SupersededCounts(ps: seq<Proposal>)
    ensures SettledCount(SupersedeAll(ps)) == |ps|
  {
    if |ps| > 0 {
      SupersededCounts(ps[..|ps| - 1]);
    }
  }

  /** Settling one pending proposal. */
  lemma {:induction false} UpdateCounts(ps: seq<Proposal>, at: nat, p: Proposal)
    requires at < |ps| && ps[at].status == Pending
    ensures SettledCount(ps[at := p]) == SettledCount(ps) + if p.status == Pending then 0 else 1
  {
    var last := |ps| - 1;
    if at < last {
      UpdateCounts(ps[..last], at, p);
      assert ps[at := p][..last] == ps[..last][at := p];
    } else {
      assert ps[at := p][..last] == ps[..last];
    }
  }

  lemma {:induction false} PrunedCounts(ps: seq<Proposal>, later: nat)
    requires SettledCount(ps) + later <= KEPT_SETTLED + PRUNE_LIMIT
    ensures |Prune(ps, later)| - SettledCount(Prune(ps, later)) == |ps| - SettledCount(ps)
    ensures SettledCount(Prune(ps, later)) <= if later < KEPT_SETTLED then KEPT_SETTLED - later else 0
  {
    if |ps| > 0 {
      var front, last := ps[..|ps| - 1], ps[|ps| - 1];
      var settled := if last.status == Pending then later else later + 1;
      PrunedCounts(front, settled);
      var kept := Prune(front, settled) + [last];
      assert kept[..|kept| - 1] == Prune(front, settled);
    }
  }

  lemma {:induction false} SettledBounded(ps: seq<Proposal>)
    ensures SettledCount(ps) <= |ps|
  {
    if |ps| > 0 {
      SettledBounded(ps[..|ps| - 1]);
    }
  }

  /** Storing leaves one pending proposal, the new one, and at most 20 others. */
  lemma StoreCounts(ps: seq<Proposal>, p: Proposal)
    requires |ps| <= KEPT_SETTLED + 1 && p.status == Pending
    ensures |StoreProposal(ps, p)| <= KEPT_SETTLED + 1
    ensures |StoreProposal(ps, p)| - SettledCount(StoreProposal(ps, p)) == 1
  {
    var all := SupersedeAll(ps) + [p];
    assert all[..|all| - 1] == SupersedeAll(ps);
    SupersededCounts(ps);
    PrunedCounts(all, 0);
  }

  /** Two pending proposals make the settled ones at least two fewer than all. */
  lemma {:induction false} PendingCounted(ps: seq<Proposal>, i: nat, j: nat)
    requires i <= j < |ps|
    ensures ps[i].status == Pending || ps[j].status == Pending ==> SettledCount(ps) < |ps|
    ensures i < j && ps[i].status == Pending && ps[j].status == Pending ==> SettledCount(ps) + 2 <= |ps|
  {
    var front := ps[..|ps| - 1];
    SettledBounded(front);
    if j < |front| {
      PendingCounted(front, i, j);
    } else if i < |front| {
      PendingCounted(front, i, i);
    }
  }

  /** The settled proposals newer than the i-th. */
  function NewerSettled(ps: seq<Proposal>, i: nat): nat
    requires i < |ps|
  {
    SettledCount(ps[i + 1..])
  }

  lemma NewerInFront(ps: seq<Proposal>, i: nat)
    requires i < |ps| - 1
    ensures NewerSettled(ps, i) == NewerSettled(ps[..|ps| - 1], i) + if ps[|ps| - 1].status == Pending then 0 else 1
  {
    var rest := ps[i + 1..];
    assert rest[..|rest| - 1] == ps[..|ps| - 1][i + 1..] && rest[|rest| - 1] == ps[|ps| - 1];
  }

  /** Pruning keeps the pending proposals and the 20 newest settled ones; of the
      others it drops 500 at most. */
  lemma {:induction false} PruneKeepsExactly(ps: seq<Proposal>, bound: nat, later: nat, i: nat)
    requires Ordered(ps, bound) && i < |ps|
    ensures ps[i] in Prune(ps, later)
            <==> || ps[i].status == Pending || NewerSettled(ps, i) + later < KEPT_SETTLED
                 || NewerSettled(ps, i) + later >= KEPT_SETTLED + PRUNE_LIMIT
  {
    var front, last := ps[..|ps| - 1], ps[|ps| - 1];
    var settled := if last.status == Pending then later else later + 1;
    if i < |front| {
      OrderedBelow(front, last.id, ps[i]);
      PruneKeepsExactly(front, last.id, settled, i);
      NewerInFront(ps, i);
    } else {
      assert ps[i + 1..] == [];
      if last in Prune(front, settled) {
        PrunedFrom(front, settled, last);
        OrderedBelow(front, last.id, last);
      }
    }
  }
}
