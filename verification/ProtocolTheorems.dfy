/** What the protocol promises over whole runs. */
module ProtocolTheorems {
  import opened ProposalList
  import opened Protocol
  import opened ProtocolInvariant
  import opened Wrappers

  // ---- what is reviewed is what is applied ----

  /** In every run each stored preview, of a pending proposal or not, is the dry run
      of its operations on the content of its base revision. */
  lemma PreviewsAreDryRuns(w: World, b: Build, nextId: nat, steps: seq<Step>, n: nat, p: Proposal)
    requires Replayable(w) && n <= |steps| && p in StateAt(w, Fresh(b, nextId), steps, n).proposals
    ensures var s := StateAt(w, Fresh(b, nextId), steps, n);
            p.base in s.history && DryRun(w, s.history[p.base], p.ops) == Some(p.preview)
  {
    RunKeeps(w, Fresh(b, nextId), steps, n);
    assert ProposalOk(w, StateAt(w, Fresh(b, nextId), steps, n).history, p);
  }

  /** Applied at its base revision, a proposal commits exactly its preview. */
  lemma AppliesWhatWasReviewed(w: World, s: State, p: Proposal)
    requires Inv(w, s) && p in s.proposals && p.status == Pending && p.user == s.build.owner
             && s.build.revision == p.base
    ensures var t := Next(w, s, Apply(p.user, p.id, true));
            && t.build.content == p.preview && t.build.revision == p.base + 1
            && p.(status := Applied, appliedRevision := Some(p.base + 1)) in t.proposals
  {
    PositionFinds(s.proposals, s.nextId, p);
    assert ProposalOk(w, s.history, p);
    var at := Position(s.proposals, p.id);
    var q := p.(status := Applied, appliedRevision := Some(p.base + 1));
    assert s.proposals[at := q][at] == q;
  }

  /** An Apply whose operations no longer fit leaves the build alone and closes the
      proposal as a conflict; one that the database fails changes nothing. */
  lemma FailedApply(w: World, s: State, p: Proposal)
    requires Inv(w, s) && p in s.proposals && p.status == Pending && p.user == s.build.owner
    requires DryRun(w, s.build.content, p.ops).None?
    ensures var t := Next(w, s, Apply(p.user, p.id, true));
            t.build == s.build && p.(status := Conflict) in t.proposals
    ensures Next(w, s, Apply(p.user, p.id, false)) == s
  {
    PositionFinds(s.proposals, s.nextId, p);
    var at := Position(s.proposals, p.id);
    var q := p.(status := Conflict);
    assert s.proposals[at := q][at] == q;
  }

  /** A build has at most one pending proposal and at most 21 in all. */
  lemma ProposalsStayFew(w: World, b: Build, nextId: nat, steps: seq<Step>, n: nat)
    requires Replayable(w) && n <= |steps|
    ensures var ps := StateAt(w, Fresh(b, nextId), steps, n).proposals;
            && |ps| <= 21
            && (forall i, j :: 0 <= i < j < |ps| ==> ps[i].status != Pending || ps[j].status != Pending)
  {
    RunKeeps(w, Fresh(b, nextId), steps, n);
    var ps := StateAt(w, Fresh(b, nextId), steps, n).proposals;
    forall i, j | 0 <= i < j < |ps|
      ensures ps[i].status != Pending || ps[j].status != Pending
    {
      PendingCounted(ps, i, j);
    }
  }

  // ---- final means final ----

  /** The proposal is gone for good: its id is used up. */
  ghost predicate Gone(s: State, id: nat) {
    id < s.nextId && forall p <- s.proposals :: p.id != id
  }

  /** Rewriting a pending proposal leaves the settled ones alone. */
  lemma SettledStays(ps: seq<Proposal>, at: nat, q: Proposal, p: Proposal)
    requires at < |ps| && ps[at].status == Pending && p in ps && p.status != Pending
    ensures p in ps[at := q]
  {
    var i :| 0 <= i < |ps| && ps[i] == p;
    assert ps[at := q][i] == p;
  }

  /** Storing a new proposal leaves a settled one as it is, or prunes it. */
  lemma StoreFinal(ps: seq<Proposal>, nextId: nat, n: Proposal, p: Proposal)
    requires Ordered(ps, nextId) && n.id == nextId && p in ps && p.status != Pending
    ensures p in StoreProposal(ps, n) || forall q <- StoreProposal(ps, n) :: q.id != p.id
  {
    var all := SupersedeAll(ps) + [n];
    SettledKept(ps, p);
    assert p in all;
    OrderedSuperseded(ps, nextId);
    assert all[..|all| - 1] == SupersedeAll(ps);
    assert Ordered(all, nextId + 1);
    if p !in StoreProposal(ps, n) {
      forall q | q in StoreProposal(ps, n)
        ensures q.id != p.id
      {
        PrunedFrom(all, 0, q);
        PositionFinds(all, nextId + 1, q);
        PositionFinds(all, nextId + 1, p);
      }
    }
  }

  /** A settled proposal stays as it is until it is pruned. */
  lemma StepFinal(w: World, s: State, step: Step, p: Proposal)
    requires Inv(w, s) && p in s.proposals && p.status != Pending
    ensures p in Next(w, s, step).proposals || Gone(Next(w, s, step), p.id)
  {
    OrderedBelow(s.proposals, s.nextId, p);
    match step
    case Apply(user, id, works) =>
      var at := PendingAt(s.proposals, user, id);
      if at >= 0 && works && user == s.build.owner {
        SettledStays(s.proposals, at, Next(w, s, step).proposals[at], p);
      }
    case Reject(user, id, works) =>
      var at := PendingAt(s.proposals, user, id);
      if at >= 0 && works {
        SettledStays(s.proposals, at, Next(w, s, step).proposals[at], p);
      }
    case Advance(k, salt, works) =>
      if k in s.workers && works {
        WritesFinal(s, s.workers[k], p);
      }
    case _ =>
  }

  lemma WritesFinal(s: State, wk: Worker, p: Proposal)
    requires Ordered(s.proposals, s.nextId) && p in s.proposals && p.status != Pending
    ensures var qs := WorkerWrites(s.proposals, s.nextId, wk);
            p in qs || forall q <- qs :: q.id != p.id
  {
    if StoresProposal(wk) {
      StoreFinal(s.proposals, s.nextId, Created(s.nextId, wk.user, wk.stage.ops, wk.stage.revision, wk.stage.preview),
                 p);
    } else if wk.task.Refresh? {
      var at := Position(s.proposals, wk.task.id);
      var qs := WorkerWrites(s.proposals, s.nextId, wk);
      if at >= 0 && s.proposals[at].status == Pending && qs != s.proposals {
        SettledStays(s.proposals, at, qs[at], p);
      }
    }
  }

  /** Ids only come from storing, and each is used once. */
  lemma StepNewIds(w: World, s: State, step: Step, id: nat)
    requires Inv(w, s) && Gone(s, id)
    ensures Gone(Next(w, s, step), id)
  {
    match step
    case Advance(k, salt, works) =>
      if k in s.workers && works && StoresProposal(s.workers[k]) {
        var wk := s.workers[k];
        var n := Created(s.nextId, wk.user, wk.stage.ops, wk.stage.revision, wk.stage.preview);
        forall q | q in StoreProposal(s.proposals, n)
          ensures q.id != id
        {
          PrunedFrom(SupersedeAll(s.proposals) + [n], 0, q);
          if q != n {
            SupersededFrom(s.proposals, q);
          }
        }
      }
    case _ =>
  }

  /** Applied, rejected, superseded and conflict are final over whole runs: later
      the proposal is there unchanged, or it has been pruned and stays away. */
  lemma {:induction false} FinalStaysFinal(w: World, s: State, steps: seq<Step>, i: nat, j: nat, p: Proposal)
    requires Replayable(w) && Inv(w, s) && i <= j <= |steps|
    requires p in StateAt(w, s, steps, i).proposals && p.status != Pending
    ensures p in StateAt(w, s, steps, j).proposals || Gone(StateAt(w, s, steps, j), p.id)
  {
    if i < j {
      FinalStaysFinal(w, s, steps, i, j - 1, p);
      RunKeeps(w, s, steps, j - 1);
      var t := StateAt(w, s, steps, j - 1);
      if p in t.proposals {
        StepFinal(w, t, steps[j - 1], p);
      } else {
        StepNewIds(w, t, steps[j - 1], p.id);
      }
    }
  }

  /** The step applies the proposal and commits. */
  ghost predicate Applies(w: World, s: State, step: Step, id: nat) {
    && step.Apply? && step.id == id && step.works && step.user == s.build.owner
    && var at := PendingAt(s.proposals, step.user, id);
    && at >= 0 && DryRun(w, s.build.content, s.proposals[at].ops).Some?
  }

  /** What Apply records is the revision it committed. */
  lemma ApplyRecords(w: World, s: State, step: Step, id: nat) returns (p: Proposal)
    requires Inv(w, s) && Applies(w, s, step, id)
    ensures var t := Next(w, s, step);
            && p in t.proposals && p.id == id && p.status == Applied
            && p.appliedRevision == Some(t.build.revision) && t.build.revision == s.build.revision + 1
  {
    var at := PendingAt(s.proposals, step.user, id);
    p := Next(w, s, step).proposals[at];
  }

  lemma NeverPendingAgain(w: World, t: State, p: Proposal, user: User)
    requires Ordered(t.proposals, t.nextId) && p.status != Pending
    requires p in t.proposals || Gone(t, p.id)
    ensures PendingAt(t.proposals, user, p.id) < 0
  {
    PositionAbsent(t.proposals, p.id);
    if p in t.proposals {
      PositionFinds(t.proposals, t.nextId, p);
    }
  }

  lemma SettledAfterApply(w: World, s: State, steps: seq<Step>, i: nat, id: nat) returns (p: Proposal)
    requires Replayable(w) && Inv(w, s) && i < |steps|
    requires Applies(w, StateAt(w, s, steps, i), steps[i], id)
    ensures p in StateAt(w, s, steps, i + 1).proposals && p.id == id && p.status == Applied
  {
    RunKeeps(w, s, steps, i);
    p := ApplyRecords(w, StateAt(w, s, steps, i), steps[i], id);
  }

  lemma SettledIsNotPending(w: World, s: State, steps: seq<Step>, i: nat, j: nat, p: Proposal, user: User)
    requires Replayable(w) && Inv(w, s) && i <= j <= |steps|
    requires p in StateAt(w, s, steps, i).proposals && p.status != Pending
    ensures PendingAt(StateAt(w, s, steps, j).proposals, user, p.id) < 0
  {
    RunKeeps(w, s, steps, j);
    FinalStaysFinal(w, s, steps, i, j, p);
    NeverPendingAgain(w, StateAt(w, s, steps, j), p, user);
  }

  /** In no run is a proposal applied twice. */
  lemma AppliedAtMostOnce(w: World, s: State, steps: seq<Step>, i: nat, j: nat, id: nat)
    requires Replayable(w) && Inv(w, s) && i < j < |steps|
    requires Applies(w, StateAt(w, s, steps, i), steps[i], id)
    ensures !Applies(w, StateAt(w, s, steps, j), steps[j], id)
  {
    hide Inv, Replayable, Next, DryRun, SaveContent;
    if steps[j].Apply? {
      var p := SettledAfterApply(w, s, steps, i, id);
      SettledIsNotPending(w, s, steps, i + 1, j, p, steps[j].user);
    }
  }

  // ---- no save overwrites what its author did not read ----

  /** The revision a save was made on. */
  function Submitted(step: Step): Option<nat> {
    match step
    case OwnerSave(_, revision, _, _) => Some(revision)
    case ShareSave(_, revision, _, _) => Some(revision)
    case Rename(_, _, revision, _) => Some(revision)
    case _ => None
  }

  /** The author reads the row, the nodes and the edges at three moments; other
      steps may come in between and after. If the save then commits, what was read
      is exactly what it overwrites. */
  lemma SavesOverwriteWhatWasRead(w: World, s: State, steps: seq<Step>, i: nat, j: nat, k: nat, m: nat)
    requires i <= j <= k <= m < |steps|
    requires Submitted(steps[m]) == Some(StateAt(w, s, steps, i).build.revision)
    requires StateAt(w, s, steps, m + 1).build != StateAt(w, s, steps, m).build
    ensures var row, nodes, edges := StateAt(w, s, steps, i).build.content, StateAt(w, s, steps, j).build.content.nodes,
                                     StateAt(w, s, steps, k).build.content.edges;
            StateAt(w, s, steps, m).build.content == row.(nodes := nodes, edges := edges)
  {
    RevisionIdentifiesContent(w, s, steps, i, j);
    RevisionIdentifiesContent(w, s, steps, j, k);
    RevisionIdentifiesContent(w, s, steps, k, m);
    OnlyCurrentRevisionsCommit(w, StateAt(w, s, steps, m), steps[m]);
  }

  lemma OnlyCurrentRevisionsCommit(w: World, s: State, step: Step)
    requires Submitted(step).Some? && Next(w, s, step).build != s.build
    ensures Submitted(step) == Some(s.build.revision)
  {
  }
}
