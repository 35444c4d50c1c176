/** Storing proposals without the assumption that superseding the pending ones and
    creating a new one happen at one moment: exactly when two stay pending
    (backend/internal/services/proposal_service.go, the transaction of Propose). */
module Superseding {
  import opened Protocol
  import opened ProposalList

  /** What is committed, in order. A store settles the proposals that were pending
      after `begun` commits, which is what its first statement could see, and adds its
      own. An apply, a rejection or a refresh may settle a proposal at once. */
  datatype Commit =
    | Store(begun: nat, id: nat, user: User, ops: Ops, base: nat, preview: Content)
    | Settle(id: nat, status: Status)

  ghost predicate WellTimed(commits: seq<Commit>) {
    forall c :: 0 <= c < |commits| && commits[c].Store? ==> commits[c].begun <= c
  }

  ghost predicate PendingIn(ps: seq<Proposal>, id: nat) {
    exists p :: p in ps && p.id == id && p.status == Pending
  }

  function PendingIds(ps: seq<Proposal>): set<nat> {
    set p | p in ps && p.status == Pending :: p.id
  }

  /** Pending proposals with these ids get the status. */
  function SettleThese(ps: seq<Proposal>, ids: set<nat>, status: Status): seq<Proposal> {
    seq(|ps|, i requires 0 <= i < |ps| => if ps[i].status == Pending
        && ps[i].id in ids then ps[i].(status := status) else ps[i])
  }

  function TableAfter(start: seq<Proposal>, commits: seq<Commit>, n: nat): seq<Proposal>
    requires n <= |commits| && WellTimed(commits)
  {
    if n == 0 then start
    else
      var table := TableAfter(start, commits, n - 1);
      match commits[n - 1]
      case Store(begun, id, user, ops, base, preview) =>
        Prune(SettleThese(table, PendingIds(TableAfter(start, commits, begun)), Superseded)
              + [Created(id, user, ops, base, preview)], 0)
      case Settle(id, status) => SettleThese(table, {id}, status)
  }

  /** A store that sees all commits before it is the atomic one. */
  lemma AtomicStore(start: seq<Proposal>, commits: seq<Commit>, n: nat)
    requires n < |commits| && WellTimed(commits) && commits[n].Store? && commits[n].begun == n
    ensures var c, table := commits[n], TableAfter(start, commits, n);
            TableAfter(start, commits, n + 1) == StoreProposal(table, Created(c.id, c.user, c.ops, c.base, c.preview))
  {
    AllSettled(TableAfter(start, commits, n));
  }

  lemma {:induction false} AllSettled(ps: seq<Proposal>)
    ensures SettleThese(ps, PendingIds(ps), Superseded) == SupersedeAll(ps)
  {
    forall i | 0 <= i < |ps|
      ensures SupersedeAll(ps)[i] == Superseding(ps[i])
    {
      SupersededAt(ps, i);
    }
    forall i | 0 <= i < |ps| && ps[i].status == Pending
      ensures ps[i].id in PendingIds(ps)
    {
      assert ps[i] in ps;
    }
  }

  lemma {:induction false} SupersededAt(ps: seq<Proposal>, i: nat)
    requires i < |ps|
    ensures SupersedeAll(ps)[i] == Superseding(ps[i])
  {
    if i < |ps| - 1 {
      SupersededAt(ps[..|ps| - 1], i);
    }
  }

  // ---- what each commit leaves pending ----

  lemma {:induction false} PendingSurvives(ps: seq<Proposal>, later: nat, p: Proposal)
    requires p in ps && p.status == Pending
    ensures p in Prune(ps, later)
  {
    var front, last := ps[..|ps| - 1], ps[|ps| - 1];
    assert ps == front + [last];
    if p != last || p in front {
      PendingSurvives(front, if last.status == Pending then later else later + 1, p);
    }
  }

  lemma SettledPending(ps: seq<Proposal>, ids: set<nat>, status: Status, id: nat)
    requires status != Pending
    ensures PendingIn(SettleThese(ps, ids, status), id) <==> PendingIn(ps, id) && id !in ids
  {
    var settled := SettleThese(ps, ids, status);
    if p :| p in settled && p.id == id && p.status == Pending {
      var i :| 0 <= i < |ps| && settled[i] == p;
      assert ps[i] in ps && ps[i] == p;
    }
    if id !in ids {
      if p :| p in ps && p.id == id && p.status == Pending {
        var i :| 0 <= i < |ps| && ps[i] == p;
        assert settled[i] == p;
      }
    }
  }

  lemma StoredPending(ps: seq<Proposal>, p: Proposal, id: nat)
    requires p.status == Pending
    ensures PendingIn(Prune(ps + [p], 0), id) <==> PendingIn(ps, id) || p.id == id
  {
    var all := ps + [p];
    if q :| q in Prune(all, 0) && q.id == id && q.status == Pending {
      PrunedFrom(all, 0, q);
    }
    if q :| q in all && q.id == id && q.status == Pending {
      PendingSurvives(all, 0, q);
    }
    assert p in all;
    assert forall q <- ps :: q in all;
  }

  /** The commit settles what was stored at i, if that is still pending. */
  predicate Ends(commits: seq<Commit>, i: nat, c: nat)
    requires i < |commits| && c < |commits| && commits[i].Store?
  {
    match commits[c]
    case Store(begun, _, _, _, _, _) => begun > i
    case Settle(id, status) => id == commits[i].id && status != Pending
  }

  ghost predicate Ended(commits: seq<Commit>, i: nat, n: nat)
    requires i < n <= |commits| && commits[i].Store?
  {
    exists c :: i < c < n && Ends(commits, i, c)
  }

  /** Ids are drawn once. */
  ghost predicate OwnIds(start: seq<Proposal>, commits: seq<Commit>) {
    && (forall i, j :: 0 <= i < j < |commits| && commits[i].Store? && commits[j].Store? ==>
        commits[i].id != commits[j].id)
    && (forall i, p :: 0 <= i < |commits| && commits[i].Store? && p in start ==> commits[i].id != p.id)
  }

  lemma OneCommit(start: seq<Proposal>, commits: seq<Commit>, n: nat, id: nat)
    requires n < |commits| && WellTimed(commits)
    ensures var before, after := PendingIn(TableAfter(start, commits, n), id),
            PendingIn(TableAfter(start, commits, n + 1), id);
            match commits[n]
            case Store(begun, i, _, _, _, _) => after <==>
              (before && !PendingIn(TableAfter(start, commits, begun), id)) || i == id
            case Settle(i, status) => after <==> before && (status == Pending || i != id)
  {
    var table := TableAfter(start, commits, n);
    match commits[n]
    case Store(begun, i, user, ops, base, preview) =>
      var seen := PendingIds(TableAfter(start, commits, begun));
      assert id in seen <==> PendingIn(TableAfter(start, commits, begun), id);
      SettledPending(table, seen, Superseded, id);
      StoredPending(SettleThese(table, seen, Superseded), Created(i, user, ops, base, preview), id);
    case Settle(i, status) =>
      if status == Pending {
        assert SettleThese(table, {i}, status) == table;
      } else {
        SettledPending(table, {i}, status, id);
      }
  }

  /** Before it is stored an id is not in the table. */
  lemma {:induction false} NotYetPending(start: seq<Proposal>, commits: seq<Commit>, i: nat, n: nat)
    requires n <= i < |commits| && WellTimed(commits) && OwnIds(start, commits) && commits[i].Store?
    ensures !PendingIn(TableAfter(start, commits, n), commits[i].id)
  {
    if n > 0 {
      NotYetPending(start, commits, i, n - 1);
      hide TableAfter, PendingIn;
      OneCommit(start, commits, n - 1, commits[i].id);
    }
  }

  /** A proposal stays pending exactly until a store that began after it was committed
      is committed itself, or until it is settled. */
  lemma {:induction false} PendingExactly(start: seq<Proposal>, commits: seq<Commit>, i: nat, n: nat)
    requires i < n <= |commits| && WellTimed(commits) && OwnIds(start, commits) && commits[i].Store?
    ensures PendingIn(TableAfter(start, commits, n), commits[i].id) <==> !Ended(commits, i, n)
  {
    hide TableAfter, PendingIn;
    var id := commits[i].id;
    OneCommit(start, commits, n - 1, id);
    if n - 1 > i {
      PendingExactly(start, commits, i, n - 1);
      if commits[n - 1].Store? {
        var begun := commits[n - 1].begun;
        if begun <= i {
          NotYetPending(start, commits, i, begun);
        } else {
          PendingExactly(start, commits, i, begun);
        }
      }
      assert Ended(commits, i, n) <==> Ended(commits, i, n - 1) || Ends(commits, i, n - 1);
    }
  }

  ghost predicate NonePending(ps: seq<Proposal>) {
    forall id :: !PendingIn(ps, id)
  }

  ghost predicate TwoPending(ps: seq<Proposal>) {
    exists a, b :: a != b && PendingIn(ps, a) && PendingIn(ps, b)
  }

  /** What is pending was stored, when nothing was to begin with. */
  lemma {:induction false} PendingWasStored(start: seq<Proposal>, commits: seq<Commit>, n: nat, id: nat)
    returns (i: nat)
    requires n <= |commits| && WellTimed(commits) && NonePending(start)
    requires PendingIn(TableAfter(start, commits, n), id)
    ensures i < n && commits[i].Store? && commits[i].id == id
  {
    i := 0;
    if n > 0 {
      OneCommit(start, commits, n - 1, id);
      if commits[n - 1].Store? && commits[n - 1].id == id {
        i := n - 1;
      } else {
        i := PendingWasStored(start, commits, n - 1, id);
      }
    }
  }

  lemma StoredTogether(start: seq<Proposal>, commits: seq<Commit>, n: nat) returns (i: nat, j: nat)
    requires n <= |commits| && WellTimed(commits) && OwnIds(start, commits) && NonePending(start)
    requires TwoPending(TableAfter(start, commits, n))
    ensures i < j < n && commits[i].Store? && commits[j].Store? && !Ended(commits, i, n)
  {
    var a, b :| a != b && PendingIn(TableAfter(start, commits, n), a) && PendingIn(TableAfter(start, commits, n), b);
    hide TableAfter, PendingIn;
    var x := PendingWasStored(start, commits, n, a);
    var y := PendingWasStored(start, commits, n, b);
    i, j := if x < y then x else y, if x < y then y else x;
    PendingExactly(start, commits, i, n);
  }

  lemma StoredApart(start: seq<Proposal>, commits: seq<Commit>, i: nat, j: nat)
    requires i < j < |commits| && WellTimed(commits) && OwnIds(start, commits) && commits[i].Store? && commits[j].Store?
    requires !TwoPending(TableAfter(start, commits, j + 1))
    ensures Ended(commits, i, j + 1)
  {
    PendingExactly(start, commits, i, j + 1);
    PendingExactly(start, commits, j, j + 1);
  }

  /** Of any two stores the first was settled by then, or superseded by a store that
      began after it. */
  ghost predicate EachEnded(commits: seq<Commit>) {
    forall i, j :: 0 <= i < j < |commits| && commits[i].Store? && commits[j].Store? ==> Ended(commits, i, j + 1)
  }

  lemma EndedStays(commits: seq<Commit>, i: nat, j: nat, n: nat)
    requires EachEnded(commits) && i < j < n <= |commits| && commits[i].Store? && commits[j].Store?
    ensures Ended(commits, i, n)
  {
    assert Ended(commits, i, j + 1);
  }

  ghost predicate NeverTwo(start: seq<Proposal>, commits: seq<Commit>)
    requires WellTimed(commits)
  {
    forall n :: 0 <= n <= |commits| ==> !TwoPending(TableAfter(start, commits, n))
  }

  /** Never are two proposals pending, exactly when each store's proposal was ended
      by the time of the next one. */
  lemma NeverTwoExactly(start: seq<Proposal>, commits: seq<Commit>)
    requires WellTimed(commits) && OwnIds(start, commits) && NonePending(start)
    ensures NeverTwo(start, commits) <==> EachEnded(commits)
  {
    hide TwoPending;
    if NeverTwo(start, commits) {
      forall i, j | 0 <= i < j < |commits| && commits[i].Store? && commits[j].Store?
        ensures Ended(commits, i, j + 1)
      {
        StoredApart(start, commits, i, j);
      }
      assert EachEnded(commits);
    }
    if EachEnded(commits) {
      forall n | 0 <= n <= |commits|
        ensures !TwoPending(TableAfter(start, commits, n))
      {
        if TwoPending(TableAfter(start, commits, n)) {
          var i, j := StoredTogether(start, commits, n);
          EndedStays(commits, i, j, n);
        }
      }
    }
  }

  /** Of two stores both stay exactly when the later one began before the earlier was
      committed. */
  lemma TwoStoresExactly(start: seq<Proposal>, first: Commit, second: Commit)
    requires first.Store? && second.Store? && first.begun == 0 && second.begun <= 1
    requires OwnIds(start, [first, second]) && NonePending(start)
    ensures TwoPending(TableAfter(start, [first, second], 2)) <==> second.begun == 0
  {
    var commits := [first, second];
    hide TableAfter;
    PendingExactly(start, commits, 0, 2);
    PendingExactly(start, commits, 1, 2);
    assert Ended(commits, 0, 2) <==> Ends(commits, 0, 1);
    if TwoPending(TableAfter(start, commits, 2)) {
      var i, j := StoredTogether(start, commits, 2);
    }
  }

  /** Atomic stores never leave two. */
  lemma AtomicNeverTwo(start: seq<Proposal>, commits: seq<Commit>)
    requires OwnIds(start, commits) && NonePending(start)
    requires forall c :: 0 <= c < |commits| && commits[c].Store? ==> commits[c].begun == c
    ensures NeverTwo(start, commits)
  {
    forall i, j | 0 <= i < j < |commits| && commits[i].Store? && commits[j].Store?
      ensures Ended(commits, i, j + 1)
    {
      assert Ends(commits, i, j);
    }
    NeverTwoExactly(start, commits);
  }
}
