/** What each decision of an owner, a visitor or a request comes to, stated on the
    build and on its proposals. */
module ProtocolSteps {
  import opened ProposalList
  import opened Protocol
  import opened ProtocolInvariant
  import opened ProtocolTheorems
  import opened Text
  import opened Wrappers

  // ---- saves ----

  /** The content after is what a save of the draft makes of the content before. */
  ghost predicate Saved(w: World, before: Content, d: Draft, after: Content) {
    && after.name == d.name && after.settings == d.settings
    && (if d.kind.None? then after.kind == before.kind else w.parseKind(d.kind.value) == Some(after.kind))
    && (if d.plan.None? then after.plan == before.plan else w.normalize(d.plan.value) == Some(after.plan))
    && w.calculate(Content(d.name, d.settings, after.kind, after.plan, d.nodes, d.edges)) ==
       Some((after.nodes, after.edges))
  }

  ghost predicate CanSave(w: World, before: Content, d: Draft) {
    exists after :: Saved(w, before, d, after)
  }

  lemma SaveMeans(w: World, before: Content, d: Draft)
    ensures forall after :: SaveContent(w, before, d) == Some(after) <==> Saved(w, before, d, after)
    ensures SaveContent(w, before, d).Some? <==> CanSave(w, before, d)
  {
    if SaveContent(w, before, d).Some? {
      assert Saved(w, before, d, SaveContent(w, before, d).value);
    }
  }

  /** The next revision holds the content; sharing, proposals and requests are as they were. */
  ghost predicate Commits(s: State, t: State, content: Content) {
    && t.build.revision == s.build.revision + 1 && t.build.content == content
    && t.build.owner == s.build.owner && t.build.sharing == s.build.sharing
    && t.proposals == s.proposals && t.workers == s.workers && t.nextId == s.nextId
    && t.history == s.history[t.build.revision := content]
  }

  /** An owner's save commits what was submitted exactly when it was made on the present
      revision and can be saved; anything else changes nothing. */
  lemma OwnerSaveStep(w: World, s: State, user: User, revision: nat, d: Draft, works: bool)
    requires HistoryOk(s)
    ensures var t := Next(w, s, OwnerSave(user, revision, d, works));
            if works && user == s.build.owner && revision == s.build.revision && CanSave(w, s.build.content, d)
            then Saved(w, s.build.content, d, t.build.content) && Commits(s, t, t.build.content)
            else t == s
  {
    SaveMeans(w, s.build.content, d);
    hide SaveContent, Saved, CanSave;
    SameHistory(s);
  }

  lemma SameHistory(s: State)
    requires HistoryOk(s)
    ensures s.history[s.build.revision := s.build.content] == s.history
  {
  }

  /** A save through a share link needs the link as it is now, open for editing, and
      leaves kind and plan alone. */
  lemma ShareSaveStep(w: World, s: State, token: Token, revision: nat, d: Draft, works: bool)
    requires HistoryOk(s)
    ensures var t, keeping := Next(w, s, ShareSave(token, revision, d, works)), d.(kind := None, plan := None);
            if && works && s.build.sharing == Sharing(true, true, Some(token))
               && revision == s.build.revision && CanSave(w, s.build.content, keeping)
            then Saved(w, s.build.content, keeping, t.build.content) && Commits(s, t, t.build.content)
            else t == s
  {
    SaveMeans(w, s.build.content, d.(kind := None, plan := None));
    hide SaveContent, Saved, CanSave;
    SameHistory(s);
  }

  /** The name without white space around it, if anything is left. */
  lemma RenameStep(w: World, s: State, user: User, name: string, revision: nat, works: bool)
    requires HistoryOk(s)
    ensures var t := Next(w, s, Rename(user, name, revision, works));
            if works && user == s.build.owner && revision == s.build.revision && !Blank(name)
            then Trims(name, t.build.content.name)
                 && Commits(s, t, s.build.content.(name := t.build.content.name))
            else t == s
  {
    TrimSpaceBlank(name);
    TrimSpaceTrims(name);
    hide TrimSpace, Trims, Blank;
    SameHistory(s);
  }

  lemma ShareStep(w: World, s: State, user: User, sharing: Sharing, works: bool)
    requires HistoryOk(s)
    ensures Next(w, s, Share(user, sharing, works)) ==
            if works && user == s.build.owner then s.(build := s.build.(sharing := sharing)) else s
  {
    SameHistory(s);
  }

  /** Opening a build with old cables converts them in the next revision, without asking
      anybody; a build without is left alone. */
  lemma ConvertStep(w: World, s: State, works: bool)
    requires HistoryOk(s)
    ensures var t, c := Next(w, s, ConvertLegacy(works)), s.build.content;
            match w.convert(c.nodes, c.edges)
            case Some((nodes, edges)) => if works then Commits(s, t, c.(nodes := nodes, edges := edges)) else t == s
            case None => t == s
  {
    SameHistory(s);
  }

  // ---- decisions on a proposal ----

  /** One proposal is changed and every other stays as it is. */
  ghost predicate Replaced(ps: seq<Proposal>, qs: seq<Proposal>, p: Proposal, q: Proposal) {
    && p in ps && |qs| == |ps|
    && forall i :: 0 <= i < |ps| ==> qs[i] == if ps[i] == p then q else ps[i]
  }

  lemma ReplacedAt(ps: seq<Proposal>, bound: nat, p: Proposal, q: Proposal)
    requires Ordered(ps, bound) && p in ps
    ensures Position(ps, p.id) >= 0 && ps[Position(ps, p.id)] == p
    ensures Replaced(ps, ps[Position(ps, p.id) := q], p, q)
  {
    PositionFinds(ps, bound, p);
    var at := Position(ps, p.id);
    forall i | 0 <= i < |ps| && ps[i] == p
      ensures i == at
    {
      SameIdSamePlace(ps, bound, i, at);
    }
  }

  lemma {:induction false} SameIdSamePlace(ps: seq<Proposal>, bound: nat, i: nat, j: nat)
    requires Ordered(ps, bound) && i < |ps| && j < |ps| && ps[i].id == ps[j].id
    ensures i == j
  {
    var front, last := ps[..|ps| - 1], ps[|ps| - 1];
    if i < |front| && j < |front| {
      SameIdSamePlace(front, last.id, i, j);
    } else if i < |front| {
      OrderedBelow(front, last.id, front[i]);
    } else if j < |front| {
      OrderedBelow(front, last.id, front[j]);
    }
  }

  /** Rejecting a pending proposal marks it rejected and touches nothing else; with a
      failing database or for another user it does nothing. */
  lemma RejectStep(w: World, s: State, p: Proposal)
    requires Inv(w, s) && p in s.proposals && p.status == Pending
    ensures var t := Next(w, s, Reject(p.user, p.id, true));
            t == s.(proposals := t.proposals) && Replaced(s.proposals, t.proposals, p, p.(status := Rejected))
    ensures forall user, works :: !works || user != p.user ==> Next(w, s, Reject(user, p.id, works)) == s
  {
    ReplacedAt(s.proposals, s.nextId, p, p.(status := Rejected));
    SameHistory(s);
    hide Replaced, Position;
  }

  /** Applying a pending proposal replays its operations on the content as it is now:
      it commits what they make of it, or closes the proposal as a conflict. With a
      failing database, for another user or for a build of another owner it does nothing. */
  lemma ApplyStep(w: World, s: State, p: Proposal)
    requires Inv(w, s) && p in s.proposals && p.status == Pending
    ensures var t, next := Next(w, s, Apply(p.user, p.id, true)), s.build.revision + 1;
            if p.user != s.build.owner then t == s
            else
              match w.replay(s.build.content, p.ops)
              case Some(d) =>
                if CanSave(w, s.build.content, d)
                then && Saved(w, s.build.content, d, t.build.content)
                     && Commits(s, t.(proposals := s.proposals), t.build.content)
                     && Replaced(s.proposals, t.proposals, p, p.(status := Applied, appliedRevision := Some(next)))
                else t == s.(proposals := t.proposals) && Replaced(s.proposals, t.proposals, p, p.(status := Conflict))
              case None =>
                t == s.(proposals := t.proposals) && Replaced(s.proposals, t.proposals, p, p.(status := Conflict))
    ensures forall user, works :: !works || user != p.user ==> Next(w, s, Apply(user, p.id, works)) == s
  {
    var applied := p.(status := Applied, appliedRevision := Some(s.build.revision + 1));
    ReplacedAt(s.proposals, s.nextId, p, applied);
    ReplacedAt(s.proposals, s.nextId, p, p.(status := Conflict));
    SameHistory(s);
    if w.replay(s.build.content, p.ops).Some? {
      SaveMeans(w, s.build.content, w.replay(s.build.content, p.ops).value);
    }
    hide Replaced, Position, SaveContent, Saved, CanSave;
  }

  lemma RejectedThen(w: World, s: State, steps: seq<Step>, i: nat, p: Proposal)
    requires Replayable(w) && Inv(w, s) && i < |steps|
    requires p in StateAt(w, s, steps, i).proposals && p.status == Pending && steps[i] == Reject(p.user, p.id, true)
    ensures p.(status := Rejected) in StateAt(w, s, steps, i + 1).proposals
  {
    RunKeeps(w, s, steps, i);
    var before, after := StateAt(w, s, steps, i), StateAt(w, s, steps, i + 1);
    assert after == Next(w, before, steps[i]);
    hide StateAt, Next, Inv, Replayable, Replaced;
    RejectStep(w, before, p);
    ReplacedHolds(before.proposals, after.proposals, p, p.(status := Rejected));
  }

  /** A rejected proposal is never applied, in any run. */
  lemma RejectedIsNeverApplied(w: World, s: State, steps: seq<Step>, i: nat, j: nat, p: Proposal)
    requires Replayable(w) && Inv(w, s) && i < j < |steps|
    requires p in StateAt(w, s, steps, i).proposals && p.status == Pending && steps[i] == Reject(p.user, p.id, true)
    ensures !Applies(w, StateAt(w, s, steps, j), steps[j], p.id)
  {
    hide Inv, Replayable, Next, DryRun, StateAt;
    RejectedThen(w, s, steps, i, p);
    if steps[j].Apply? {
      SettledIsNotPending(w, s, steps, i + 1, j, p.(status := Rejected), steps[j].user);
    }
  }

  lemma ReplacedHolds(ps: seq<Proposal>, qs: seq<Proposal>, p: Proposal, q: Proposal)
    requires Replaced(ps, qs, p, q)
    ensures q in qs && forall o <- ps :: o != p ==> o in qs
  {
    forall o | o in ps
      ensures (if o == p then q else o) in qs
    {
      var i :| 0 <= i < |ps| && ps[i] == o;
      assert qs[i] == if o == p then q else o;
    }
  }

  // ---- what a request writes ----

  /** A refresh that made a preview stores it and its revision in the pending proposal. */
  lemma RefreshStores(w: World, s: State, k: nat, salt: nat, p: Proposal, wk: Worker)
    requires Inv(w, s) && p in s.proposals && p.status == Pending
    requires k in s.workers && s.workers[k] == wk && wk.stage.Previewed? && wk.task.Refresh? && wk.task.id == p.id
    ensures var t := Next(w, s, Advance(k, salt, true));
            && Replaced(s.proposals, t.proposals, p, p.(base := wk.stage.revision, preview := wk.stage.preview))
            && t == s.(proposals := t.proposals, workers := s.workers - {k})
  {
    ReplacedAt(s.proposals, s.nextId, p, p.(base := wk.stage.revision, preview := wk.stage.preview));
    hide Replaced, Position;
  }

  /** What becomes of an earlier proposal when a new one is stored. */
  function Overtaken(p: Proposal): Proposal {
    if p.status == Pending then p.(status := Superseded) else p
  }

  /** Storing a proposal adds it, pending, supersedes the pending ones, and keeps all but
      those with 20 settled ones after them. */
  lemma StoreStep(ps: seq<Proposal>, bound: nat, p: Proposal)
    requires Ordered(ps, bound) && |ps| <= KEPT_SETTLED + PRUNE_LIMIT && p.id == bound && p.status == Pending
    ensures p in StoreProposal(ps, p)
    ensures forall i :: 0 <= i < |ps| ==> (Overtaken(ps[i]) in StoreProposal(ps, p) <==> |ps| - 1 - i < 20)
    ensures forall q <- StoreProposal(ps, p) :: q == p || exists o <- ps :: q == Overtaken(o)
  {
    var all := SupersedeAll(ps) + [p];
    OrderedSuperseded(ps, bound);
    assert all[..|all| - 1] == SupersedeAll(ps);
    assert Ordered(all, bound + 1);
    PruneKeepsExactly(all, bound + 1, 0, |ps|);
    forall i | 0 <= i < |ps|
      ensures Overtaken(ps[i]) in StoreProposal(ps, p) <==> |ps| - 1 - i < 20
    {
      SupersededAt(ps, i);
      assert all[i] == Overtaken(ps[i]);
      PruneKeepsExactly(all, bound + 1, 0, i);
      NewerThan(ps, p, i);
    }
    forall q | q in StoreProposal(ps, p)
      ensures q == p || exists o <- ps :: q == Overtaken(o)
    {
      PrunedFrom(all, 0, q);
      if q != p {
        SupersededFrom(ps, q);
      }
    }
  }

  lemma {:induction false} SupersededAt(ps: seq<Proposal>, i: nat)
    requires i < |ps|
    ensures SupersedeAll(ps)[i] == Overtaken(ps[i])
  {
    if i < |ps| - 1 {
      SupersededAt(ps[..|ps| - 1], i);
    }
  }

  /** After superseding, everything newer is settled but the new proposal itself. */
  lemma NewerThan(ps: seq<Proposal>, p: Proposal, i: nat)
    requires i < |ps| && p.status == Pending
    ensures NewerSettled(SupersedeAll(ps) + [p], i) == |ps| - 1 - i
  {
    hide SupersedeAll;
    var superseded := SupersedeAll(ps);
    var rest := superseded[i + 1..];
    var all, newer := superseded + [p], rest + [p];
    assert all[i + 1..] == newer && newer[..|newer| - 1] == rest;
    forall j | 0 <= j < |rest|
      ensures rest[j].status != Pending
    {
      SupersededAt(ps, i + 1 + j);
    }
    AllSettledCount(rest);
  }

  lemma {:induction false} AllSettledCount(ps: seq<Proposal>)
    requires forall j :: 0 <= j < |ps| ==> ps[j].status != Pending
    ensures SettledCount(ps) == |ps|
  {
    if |ps| > 0 {
      AllSettledCount(ps[..|ps| - 1]);
    }
  }
}
