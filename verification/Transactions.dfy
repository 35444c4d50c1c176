/** The transactions behind the steps of the protocol, on a build row and its
    proposals that are changed in place (backend/internal/services). */
module Transactions {
  import opened Protocol
  import opened ProtocolSteps
  import opened Text
  import opened Wrappers

  /** Why a transaction wrote nothing. */
  datatype Outcome =
    Done | NotFound | Unauthorized | NotPending | RevisionConflict | RejectedTopology | BadName | Failed

  class Database {
    var build: Build
    var proposals: seq<Proposal>
    var nextId: nat

    constructor (b: Build)
      ensures build == b && proposals == [] && nextId == 0
    {
      build, proposals, nextId := b, [], 0;
    }

    /** The next revision of a locked build. */
    method SaveRevision(w: World, revision: nat, draft: Draft, works: bool) returns (outcome: Outcome)
      modifies this`build
      ensures build == SaveBuild(w, old(build), revision, draft, works)
      ensures outcome.Done? <==> build.revision == old(build).revision + 1
      ensures outcome == RevisionConflict <==> revision != old(build).revision
      ensures outcome == RejectedTopology <==>
                revision == old(build).revision && SaveContent(w, old(build).content, draft).None?
      ensures if outcome.Done? then Saved(w, old(build).content, draft, build.content) else build == old(build)
    {
      SaveMeans(w, build.content, draft);
      hide Saved, CanSave;
      if revision != build.revision {
        return RevisionConflict;
      }
      var content := SaveContent(w, build.content, draft);
      if content.None? {
        return RejectedTopology;
      }
      if !works {
        return Failed;
      }
      build := build.(revision := build.revision + 1, content := content.value);
      return Done;
    }

    method UpdateAndCalculate(w: World, user: User, revision: nat, draft: Draft, works: bool) returns (outcome: Outcome)
      modifies this`build
      ensures build == BuildAfter(w, old(build), proposals, OwnerSave(user, revision, draft, works))
      ensures if outcome.Done? then Saved(w, old(build).content, draft, build.content) else build == old(build)
      ensures outcome.Done? <==>
                && works && user == old(build).owner && revision == old(build).revision
                && CanSave(w, old(build).content, draft)
    {
      SaveMeans(w, build.content, draft);
      hide Saved, CanSave;
      if user != build.owner {
        return Unauthorized;
      }
      outcome := SaveRevision(w, revision, draft, works);
    }

    method UpdateByShareToken(w: World, token: Token, revision: nat, draft: Draft, works: bool)
      returns (outcome: Outcome)
      modifies this`build
      ensures build == BuildAfter(w, old(build), proposals, ShareSave(token, revision, draft, works))
      ensures build.content.kind == old(build).content.kind && build.content.plan == old(build).content.plan
      ensures if outcome.Done?
              then Saved(w, old(build).content, draft.(kind := None, plan := None), build.content)
                   && build.sharing == Sharing(true, true, Some(token))
              else build == old(build)
    {
      var sharing := build.sharing;
      if sharing.token != Some(token) || !sharing.shared || !sharing.editable {
        return NotFound;
      }
      outcome := SaveRevision(w, revision, draft.(kind := None, plan := None), works);
    }

    method Rename(w: World, user: User, name: string, revision: nat, works: bool) returns (outcome: Outcome)
      modifies this`build
      ensures build == BuildAfter(w, old(build), proposals, Protocol.Rename(user, name, revision, works))
      ensures build.content == old(build).content.(name := build.content.name)
      ensures if outcome.Done? then Trims(name, build.content.name) && build.content.name != "" else build == old(build)
    {
      TrimSpaceTrims(name);
      hide Trims, TrimSpace;
      var trimmed := TrimSpace(name);
      if trimmed == "" {
        return BadName;
      }
      if user != build.owner {
        return Unauthorized;
      }
      if revision != build.revision {
        return RevisionConflict;
      }
      if !works {
        return Failed;
      }
      build := build.(content := build.content.(name := trimmed), revision := build.revision + 1);
      return Done;
    }

    /** Saves and calculates, reads the result, and always rolls back. */
    method PreviewTopology(w: World, user: User, revision: nat, draft: Draft)
      returns (preview: Option<Content>, outcome: Outcome)
      modifies this`build
      ensures build == old(build)
      ensures preview.Some? <==>
                user == build.owner && revision == build.revision && SaveContent(w, build.content, draft).Some?
      ensures preview.Some? ==> Saved(w, build.content, draft, preview.value)
      ensures outcome == RevisionConflict <==> user == build.owner && revision != build.revision
    {
      SaveMeans(w, build.content, draft);
      var before := build;
      outcome := UpdateChecked(w, user, revision, draft);
      preview := if outcome.Done? then Some(build.content) else None;
      build := before;
    }

    method UpdateChecked(w: World, user: User, revision: nat, draft: Draft) returns (outcome: Outcome)
      modifies this`build
      ensures build == BuildAfter(w, old(build), proposals, OwnerSave(user, revision, draft, true))
      ensures outcome.Done? <==>
                && user == old(build).owner && revision == old(build).revision
                && SaveContent(w, old(build).content, draft).Some?
      ensures outcome == RevisionConflict <==> user == old(build).owner && revision != old(build).revision
    {
      if user != build.owner {
        return Unauthorized;
      }
      outcome := SaveRevision(w, revision, draft, true);
    }

    /** Looks a proposal up by id. */
    method Find(id: nat) returns (at: int)
      ensures at == Position(proposals, id)
    {
      at := |proposals| - 1;
      assert proposals[..at + 1] == proposals;
      while at >= 0 && proposals[at].id != id
        invariant -1 <= at < |proposals|
        invariant Position(proposals, id) == Position(proposals[..at + 1], id)
      {
        assert proposals[..at + 1][..at] == proposals[..at];
        at := at - 1;
      }
    }

    method LockPending(user: User, id: nat) returns (at: int, outcome: Outcome)
      ensures at == PendingAt(proposals, user, id)
      ensures var found := Position(proposals, id);
              if found < 0 || proposals[found].user != user then at == -1 && outcome == NotFound
              else if proposals[found].status != Pending then at == -1 && outcome == NotPending
              else at == found && outcome == Done
    {
      at := Find(id);
      if at < 0 || proposals[at].user != user {
        return -1, NotFound;
      }
      if proposals[at].status != Pending {
        return -1, NotPending;
      }
      return at, Done;
    }

    /** Replays a pending proposal on the latest revision. A save that is rejected is
        rolled back to its savepoint and closes the proposal instead. */
    method Apply(w: World, user: User, id: nat, works: bool) returns (outcome: Outcome)
      modifies this
      ensures build == BuildAfter(w, old(build), old(proposals), Protocol.Apply(user, id, works))
      ensures proposals == ProposalsAfter(w, old(build), old(proposals), Protocol.Apply(user, id, works))
      ensures nextId == old(nextId)
      ensures outcome.Done? || outcome == RejectedTopology ==>
                var at := PendingAt(old(proposals), user, id);
                && works && at >= 0 && user == old(build).owner
                && build.revision == old(build).revision + (if outcome.Done? then 1 else 0)
                && var p := old(proposals)[at];
                   var q := if outcome.Done? then p.(status := Applied, appliedRevision := Some(build.revision))
                            else p.(status := Conflict);
                   proposals == old(proposals)[at := q]
      ensures !outcome.Done? ==> build == old(build) && (outcome != RejectedTopology ==> proposals == old(proposals))
    {
      var at;
      at, outcome := LockPending(user, id);
      if at < 0 {
        return;
      }
      if user != build.owner {
        return NotFound;
      }
      if !works {
        return Failed;
      }
      var latest := build;
      var proposal := proposals[at];
      var draft := w.replay(latest.content, proposal.ops);
      outcome := RejectedTopology;
      if draft.Some? {
        outcome := SaveRevision(w, latest.revision, draft.value, true);
      }
      if !outcome.Done? {
        proposals := proposals[at := proposal.(status := Conflict)];
        return;
      }
      proposals := proposals[at := proposal.(status := Applied, appliedRevision := Some(latest.revision + 1))];
    }

    method Reject(w: World, user: User, id: nat, works: bool) returns (outcome: Outcome)
      modifies this`proposals
      ensures proposals == ProposalsAfter(w, build, old(proposals), Protocol.Reject(user, id, works))
      ensures outcome.Done? <==> works && PendingAt(old(proposals), user, id) >= 0
      ensures proposals ==
              if outcome.Done?
              then
                var at := PendingAt(old(proposals), user, id);
                old(proposals)[at := old(proposals)[at].(status := Rejected)]
              else old(proposals)
    {
      var at;
      at, outcome := LockPending(user, id);
      if at < 0 {
        return;
      }
      if !works {
        return Failed;
      }
      proposals := proposals[at := proposals[at].(status := Rejected)];
    }

    /** Marks every pending proposal as replaced. */
    method SupersedePending()
      modifies this`proposals
      ensures proposals == SupersedeAll(old(proposals))
    {
      ghost var before := proposals;
      for k := 0 to |proposals|
        invariant |proposals| == |before|
        invariant proposals[..k] == SupersedeAll(before[..k])
        invariant proposals[k..] == before[k..]
      {
        ghost var longer, done, rest := before[..k + 1], proposals[..k], proposals[k + 1..];
        assert longer[..k] == before[..k] && longer[k] == before[k] == proposals[k..][0];
        assert SupersedeAll(longer) == SupersedeAll(before[..k]) + [Superseding(before[k])];
        assert rest == proposals[k..][1..] && rest == before[k + 1..];
        if proposals[k].status == Pending {
          proposals := proposals[k := proposals[k].(status := Superseded)];
        }
        assert proposals[..k + 1] == done + [Superseding(before[k])] && proposals[k + 1..] == rest;
      }
      assert before[..|before|] == before && proposals[..|before|] == proposals;
    }

    /** Supersedes the pending proposal, stores a new one, and prunes. */
    method StorePending(user: User, ops: Ops, base: nat, preview: Content) returns (proposal: Proposal)
      modifies this`proposals, this`nextId
      ensures proposal == Created(old(nextId), user, ops, base, preview)
      ensures proposals == StoreProposal(old(proposals), proposal) && nextId == old(nextId) + 1
    {
      SupersedePending();
      proposal := Created(nextId, user, ops, base, preview);
      nextId := nextId + 1;
      proposals := proposals + [proposal];
      PruneResolved();
    }

    /** Drops the oldest settled proposals beyond the newest 20, at most 500 at a time. */
    method PruneResolved()
      modifies this`proposals
      ensures proposals == Prune(old(proposals), 0)
    {
      ghost var before := proposals;
      var kept, settled, k := [], 0, |proposals|;
      assert before[..k] == before && Prune(before, 0) + kept == Prune(before, 0);
      while k > 0
        invariant 0 <= k <= |before| && proposals == before && settled >= 0
        invariant Prune(before, 0) == Prune(before[..k], settled) + kept
      {
        ghost var rest := before[..k];
        k := k - 1;
        assert rest[..k] == before[..k] && rest[k] == before[k];
        var p := proposals[k];
        if p.status == Pending {
          kept := [p] + kept;
        } else {
          if settled < KEPT_SETTLED || settled >= KEPT_SETTLED + PRUNE_LIMIT {
            kept := [p] + kept;
          }
          settled := settled + 1;
        }
      }
      proposals := kept;
    }

    /** Writes a recalculated preview, but only while the proposal is pending. */
    method WriteRefresh(id: nat, base: nat, preview: Content)
      modifies this`proposals
      ensures proposals == RefreshProposal(old(proposals), id, base, preview)
    {
      var at := Find(id);
      if at >= 0 && proposals[at].status == Pending {
        proposals := proposals[at := proposals[at].(base := base, preview := preview)];
      }
    }

    method WriteConflict(id: nat)
      modifies this`proposals
      ensures proposals == ConflictProposal(old(proposals), id)
    {
      var at := Find(id);
      if at >= 0 && proposals[at].status == Pending {
        proposals := proposals[at := proposals[at].(status := Conflict)];
      }
    }
  }
}
