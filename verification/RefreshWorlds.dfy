/** When closing a proposal in a refresh is right whatever its operations do, for
    any number of saves at any moments
    (backend/internal/services/proposal_service.go, Refresh). */
module RefreshWorlds {
  import opened Wrappers
  import opened Protocol
  import opened Refreshing

  /** The same world but for what operations make of a build. */
  ghost predicate SameSaves(w: World, u: World) {
    u == w.(resolve := u.resolve, replay := u.replay)
  }

  /** Saves, renames, sharing and conversions, by anyone, and the request's own steps:
      nobody else decides on a proposal. */
  predicate LeavesProposals(step: Step, k: nat) {
    match step
    case Advance(worker, _, _) => worker == k
    case Apply(_, _, _) => false
    case Reject(_, _, _) => false
    case _ => true
  }

  ghost predicate OnlySaves(steps: seq<Step>, n: nat, k: nat)
    requires n <= |steps|
  {
    forall x :: 0 <= x < n ==> LeavesProposals(steps[x], k)
  }

  lemma SaveIsSame(w: World, u: World, c: Content, d: Draft)
    requires SameSaves(w, u)
    ensures SaveContent(u, c, d) == SaveContent(w, c, d)
  {
  }

  lemma StepBuildsSame(w: World, u: World, s: State, t: State, step: Step, k: nat)
    requires SameSaves(w, u) && LeavesProposals(step, k) && s.build == t.build
    ensures Next(w, s, step).build == Next(u, t, step).build
  {
    match step
    case OwnerSave(_, _, draft, _) => SaveIsSame(w, u, s.build.content, draft);
    case ShareSave(_, _, draft, _) => SaveIsSame(w, u, s.build.content, SharedDraft(draft));
    case _ =>
  }

  /** The build goes the same way in both worlds. */
  lemma {:induction false} BuildsSame(w: World, u: World, s: State, steps: seq<Step>, k: nat, n: nat)
    requires SameSaves(w, u) && n <= |steps| && OnlySaves(steps, n, k)
    ensures BuildAt(u, s, steps, n) == BuildAt(w, s, steps, n)
  {
    if n > 0 {
      BuildsSame(w, u, s, steps, k, n - 1);
      StepBuildsSame(w, u, StateAt(w, s, steps, n - 1), StateAt(u, s, steps, n - 1), steps[n - 1], k);
    }
  }

  /** A refresh in flight from its first read on. */
  ghost predicate Refreshes(s: State, steps: seq<Step>, k: nat, m: Moments, user: User, id: nat, ops: Ops, base: nat) {
    && Scheduled(steps, k, m) && m.row == 0 && OnlySaves(steps, m.write, k)
    && WorkerOf(s, k) == Some(Worker(user, Refresh(id, ops, base), Started))
  }

  /** Until its write it only reads. */
  lemma ReadsOnly(w: World, s: State, steps: seq<Step>, k: nat, m: Moments, user: User, id: nat, ops: Ops, base: nat,
                  x: nat)
    requires Refreshes(s, steps, k, m, user, id, ops, base) && x < m.write && Names(steps[x], k)
    ensures !Writes(WorkerOf(StateAt(w, s, steps, x), k))
  {
    StagesAre(w, s, steps, k, m, user, id, ops, base);
    assert x == m.row || x == m.nodes || x == m.edges || x == m.preview;
  }

  lemma {:induction false} ProposalsWait(
    w: World, s: State, steps: seq<Step>, k: nat, m: Moments, user: User, id: nat, ops: Ops, base: nat, n: nat)
    requires Refreshes(s, steps, k, m, user, id, ops, base) && n <= m.write
    ensures StateAt(w, s, steps, n).proposals == s.proposals
  {
    if n > 0 {
      ProposalsWait(w, s, steps, k, m, user, id, ops, base, n - 1);
      if Names(steps[n - 1], k) {
        ReadsOnly(w, s, steps, k, m, user, id, ops, base, n - 1);
      }
      assert LeavesProposals(steps[n - 1], k);
      ReadingWritesNothing(w, StateAt(w, s, steps, n - 1), steps[n - 1]);
    }
  }

  /** If the proposal is closed, applying it at that moment would fail too. */
  ghost predicate Right(u: World, s: State, steps: seq<Step>, m: Moments, id: nat, ops: Ops)
    requires m.write < |steps|
  {
    Closes(StateAt(u, s, steps, m.write), StateAt(u, s, steps, m.write + 1), id) ==>
      NoLongerFits(u, StateAt(u, s, steps, m.write), ops)
  }

  /** Whatever is submitted, this build cannot be saved. */
  ghost predicate NothingSaves(w: World, c: Content) {
    forall d :: SaveContent(w, c, d).None?
  }

  lemma SameMixture(w: World, u: World, s: State, steps: seq<Step>, k: nat, m: Moments)
    requires SameSaves(w, u) && m.row <= m.nodes <= m.edges <= m.preview <= m.write <= |steps|
             && OnlySaves(steps, m.write, k)
    ensures Mixture(u, s, steps, m) == Mixture(w, s, steps, m)
    ensures BuildAt(u, s, steps, m.row) == BuildAt(w, s, steps, m.row)
    ensures BuildAt(u, s, steps, m.preview) == BuildAt(w, s, steps, m.preview)
    ensures BuildAt(u, s, steps, m.write) == BuildAt(w, s, steps, m.write)
  {
    BuildsSame(w, u, s, steps, k, m.row);
    BuildsSame(w, u, s, steps, k, m.nodes);
    BuildsSame(w, u, s, steps, k, m.edges);
    BuildsSame(w, u, s, steps, k, m.preview);
    BuildsSame(w, u, s, steps, k, m.write);
  }

  /** A refresh that finds the operations unfit finds that a dry run on the mixture fails. */
  lemma UnfitOnMixture(u: World, s: State, steps: seq<Step>, m: Moments, ops: Ops)
    requires m.row <= m.nodes <= m.edges <= m.preview <= |steps| && FoundUnfit(u, s, steps, m, ops)
    ensures DryRun(u, Mixture(u, s, steps, m), ops).None?
  {
    if u.replay(Mixture(u, s, steps, m), ops).Some? {
      RevisionIdentifiesContent(u, s, steps, m.row, m.nodes);
      RevisionIdentifiesContent(u, s, steps, m.nodes, m.edges);
      RevisionIdentifiesContent(u, s, steps, m.edges, m.preview);
      assert Mixture(u, s, steps, m) == BuildAt(u, s, steps, m.preview).content;
    }
  }

  lemma RightOnMixture(w: World, u: World, s: State, steps: seq<Step>, k: nat, m: Moments, user: User, id: nat,
                       ops: Ops, base: nat)
    requires Refreshes(s, steps, k, m, user, id, ops, base) && SameSaves(w, u)
    requires Mixture(w, s, steps, m) == BuildAt(w, s, steps, m.write).content
             || NothingSaves(w, BuildAt(w, s, steps, m.write).content)
    ensures Right(u, s, steps, m, id, ops)
  {
    var c := BuildAt(u, s, steps, m.write).content;
    SameMixture(w, u, s, steps, k, m);
    RefreshCloses(u, s, steps, k, m, user, id, ops, base);
    if NothingSaves(w, c) && u.replay(c, ops).Some? {
      SaveIsSame(w, u, c, u.replay(c, ops).value);
    }
    hide StateAt, Scheduled, SaveContent, FoundUnfit, Closes, IsPending, Outdated, NothingSaves;
    if FoundUnfit(u, s, steps, m, ops) {
      UnfitOnMixture(u, s, steps, m, ops);
    }
  }

  /** Operations that do not apply to one build and make any other this draft. */
  function Misfit(w: World, unfit: Content, draft: Draft): World {
    w.(resolve := (c, ops, salt) => None, replay := (c: Content, ops: Ops) => if c == unfit then None else Some(draft))
  }

  lemma WrongOffMixture(w: World, s: State, steps: seq<Step>, k: nat, m: Moments, user: User, id: nat, ops: Ops,
                        base: nat, draft: Draft)
    requires Refreshes(s, steps, k, m, user, id, ops, base)
    requires IsPending(s, id) && Outdated(w, s, steps, m, user, base)
    requires Mixture(w, s, steps, m) != BuildAt(w, s, steps, m.write).content
    requires SaveContent(w, BuildAt(w, s, steps, m.write).content, draft).Some?
    ensures var u := Misfit(w, Mixture(w, s, steps, m), draft);
            SameSaves(w, u) && Replayable(u) && !Right(u, s, steps, m, id, ops)
  {
    var unfit, c := Mixture(w, s, steps, m), BuildAt(w, s, steps, m.write).content;
    var u := Misfit(w, unfit, draft);
    assert u.replay(unfit, ops) == None && u.replay(c, ops) == Some(draft);
    assert Replayable(u);
    SameMixture(w, u, s, steps, k, m);
    SaveIsSame(w, u, c, draft);
    ProposalsWait(u, s, steps, k, m, user, id, ops, base, m.write);
    hide StateAt, Scheduled, SaveContent, Misfit, Replayable, Closes;
    RefreshCloses(u, s, steps, k, m, user, id, ops, base);
  }

  /** For a refresh of an outdated pending proposal, and any saves at any moments: what
      it does is right in every world that saves as this one does exactly when the build
      at the write is the mixture that was read, or nothing can be saved on it at all. */
  lemma RightInEveryWorldExactly(
    w: World, s: State, steps: seq<Step>, k: nat, m: Moments, user: User, id: nat, ops: Ops, base: nat)
    requires Refreshes(s, steps, k, m, user, id, ops, base)
    requires IsPending(s, id) && Outdated(w, s, steps, m, user, base)
    ensures (forall u: World :: SameSaves(w, u) && Replayable(u) ==> Right(u, s, steps, m, id, ops))
            <==> || Mixture(w, s, steps, m) == BuildAt(w, s, steps, m.write).content
                 || NothingSaves(w, BuildAt(w, s, steps, m.write).content)
  {
    var c := BuildAt(w, s, steps, m.write).content;
    hide StateAt, Right, Replayable, Scheduled, SameSaves;
    if Mixture(w, s, steps, m) == c || NothingSaves(w, c) {
      forall u: World | SameSaves(w, u) && Replayable(u)
        ensures Right(u, s, steps, m, id, ops)
      {
        RightOnMixture(w, u, s, steps, k, m, user, id, ops, base);
      }
    } else {
      var draft :| SaveContent(w, c, draft).Some?;
      WrongOffMixture(w, s, steps, k, m, user, id, ops, base, draft);
    }
  }
}
