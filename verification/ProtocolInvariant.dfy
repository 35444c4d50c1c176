/** What every step of the protocol keeps. */
module ProtocolInvariant {
  import opened ProposalList
  import opened Protocol
  import opened Wrappers

  ghost predicate HistoryOk(s: State) {
    && s.build.revision in s.history && s.history[s.build.revision] == s.build.content
    && (forall r <- s.history :: r <= s.build.revision)
  }

  /** A stored preview is the dry run of the operations on their base revision. */
  ghost predicate Reviewed(w: World, history: map<nat, Content>, base: nat, ops: Ops, preview: Content) {
    base in history && DryRun(w, history[base], ops) == Some(preview)
  }

  /** A revision came from applying the operations to the one before. */
  ghost predicate CameFrom(w: World, history: map<nat, Content>, ops: Ops, revision: nat) {
    revision > 0 && revision in history && Reviewed(w, history, revision - 1, ops, history[revision])
  }

  ghost predicate ProposalOk(w: World, history: map<nat, Content>, p: Proposal) {
    && Reviewed(w, history, p.base, p.ops, p.preview)
    && (p.status == Applied <==> p.appliedRevision.Some?)
    && (p.appliedRevision.Some? ==> CameFrom(w, history, p.ops, p.appliedRevision.value))
  }

  ghost predicate ProposalsOk(w: World, history: map<nat, Content>, ps: seq<Proposal>) {
    forall p <- ps :: ProposalOk(w, history, p)
  }

  /** What was read is the build's content as long as the revision is still the one read. */
  ghost predicate StageOk(w: World, b: Build, history: map<nat, Content>, stage: Stage) {
    match stage
    case Started => true
    case RowRead(r, row) => r <= b.revision && (r == b.revision ==> row == b.content)
    case NodesRead(r, row, nodes) =>
      r <= b.revision && (r == b.revision ==> row == b.content && nodes == b.content.nodes)
    case Loaded(r, content) => r <= b.revision && (r == b.revision ==> content == b.content)
    case Unfit => true
    case Previewed(r, ops, preview) => Reviewed(w, history, r, ops, preview)
  }

  /** A refresh works on the operations its proposal holds. */
  ghost predicate TaskOk(ps: seq<Proposal>, nextId: nat, wk: Worker) {
    wk.task.Refresh? ==>
      && wk.task.id < nextId && (forall p <- ps :: p.id == wk.task.id ==> p.ops == wk.task.ops)
      && (wk.stage.Previewed? ==> wk.stage.ops == wk.task.ops)
  }

  ghost predicate WorkersOk(w: World, s: State) {
    forall k <- s.workers :: StageOk(w, s.build, s.history, s.workers[k].stage)
      && TaskOk(s.proposals, s.nextId, s.workers[k])
  }

  ghost predicate ListOk(ps: seq<Proposal>, nextId: nat) {
    Ordered(ps, nextId) && |ps| <= KEPT_SETTLED + 1 && |ps| - SettledCount(ps) <= 1
  }

  ghost predicate Inv(w: World, s: State) {
    HistoryOk(s) && ProposalsOk(w, s.history, s.proposals) && ListOk(s.proposals, s.nextId) && WorkersOk(w, s)
  }

  ghost predicate Extends(history: map<nat, Content>, longer: map<nat, Content>) {
    forall r <- history :: r in longer && longer[r] == history[r]
  }

  lemma ReviewedStays(w: World, history: map<nat, Content>, longer: map<nat, Content>, base: nat, ops: Ops,
                      preview: Content)
    requires Reviewed(w, history, base, ops, preview) && Extends(history, longer)
    ensures Reviewed(w, longer, base, ops, preview)
  {
  }

  lemma ProposalStaysOk(w: World, history: map<nat, Content>, longer: map<nat, Content>, p: Proposal)
    requires ProposalOk(w, history, p) && Extends(history, longer)
    ensures ProposalOk(w, longer, p)
  {
    ReviewedStays(w, history, longer, p.base, p.ops, p.preview);
    if p.appliedRevision.Some? {
      var r := p.appliedRevision.value;
      ReviewedStays(w, history, longer, r - 1, p.ops, history[r]);
    }
  }

  lemma StageStaysOk(w: World, b: Build, c: Build, history: map<nat, Content>, longer: map<nat, Content>, stage: Stage)
    requires StageOk(w, b, history, stage) && Advances(b, c) && Extends(history, longer)
    ensures StageOk(w, c, longer, stage)
  {
    if stage.Previewed? {
      ReviewedStays(w, history, longer, stage.revision, stage.ops, stage.preview);
    }
  }

  /** The history after the build changed. */
  lemma HistoryStaysOk(s: State, c: Build, longer: map<nat, Content>)
    requires HistoryOk(s) && Advances(s.build, c) && longer == s.history[c.revision := c.content]
    ensures Extends(s.history, longer)
    ensures c.revision in longer && longer[c.revision] == c.content && (forall r <- longer :: r <= c.revision)
  {
  }

  /** Nothing but the build changes, and it takes at most the next revision. */
  lemma BuildStepKeeps(w: World, s: State, c: Build)
    requires Inv(w, s) && Advances(s.build, c)
    ensures Inv(w, s.(build := c, history := s.history[c.revision := c.content]))
  {
    var t := s.(build := c, history := s.history[c.revision := c.content]);
    HistoryStaysOk(s, c, t.history);
    forall p | p in t.proposals
      ensures ProposalOk(w, t.history, p)
    {
      ProposalStaysOk(w, s.history, t.history, p);
    }
    forall k | k in t.workers
      ensures StageOk(w, c, t.history, t.workers[k].stage)
    {
      StageStaysOk(w, s.build, c, s.history, t.history, s.workers[k].stage);
    }
  }

  /** Ids and operations of the proposals that remain are those they had. */
  ghost predicate SameOps(ps: seq<Proposal>, qs: seq<Proposal>, nextId: nat) {
    forall q <- qs :: q.id >= nextId || exists p <- ps :: p.id == q.id && p.ops == q.ops
  }

  lemma TasksStayOk(ps: seq<Proposal>, qs: seq<Proposal>, nextId: nat, nextId': nat, wk: Worker)
    requires TaskOk(ps, nextId, wk) && SameOps(ps, qs, nextId) && nextId <= nextId'
    ensures TaskOk(qs, nextId', wk)
  {
  }

  /** Only the proposals change. */
  lemma ProposalStepKeeps(w: World, s: State, qs: seq<Proposal>, nextId: nat)
    requires Inv(w, s) && ProposalsOk(w, s.history, qs) && ListOk(qs, nextId)
    requires SameOps(s.proposals, qs, s.nextId) && s.nextId <= nextId
    ensures Inv(w, s.(proposals := qs, nextId := nextId))
  {
    forall k | k in s.workers
      ensures TaskOk(qs, nextId, s.workers[k])
    {
      TasksStayOk(s.proposals, qs, s.nextId, nextId, s.workers[k]);
    }
  }

  /** One pending proposal is rewritten. */
  lemma RewriteKeeps(w: World, history: map<nat, Content>, ps: seq<Proposal>, nextId: nat, at: nat, q: Proposal)
    requires ProposalsOk(w, history, ps) && ListOk(ps, nextId) && at < |ps| && ps[at].status == Pending
    requires q.id == ps[at].id && q.ops == ps[at].ops && ProposalOk(w, history, q)
    ensures ProposalsOk(w, history, ps[at := q]) && ListOk(ps[at := q], nextId) && SameOps(ps, ps[at := q], nextId)
  {
    OrderedUpdate(ps, nextId, at, q);
    UpdateCounts(ps, at, q);
    forall p | p in ps[at := q]
      ensures ProposalOk(w, history, p) && exists o <- ps :: o.id == p.id && o.ops == p.ops
    {
      if p == q {
        assert ps[at] in ps;
      } else {
        assert p in ps;
      }
    }
  }

  lemma ApplyKeeps(w: World, s: State, user: User, id: nat, works: bool)
    requires Inv(w, s)
    ensures Inv(w, Next(w, s, Apply(user, id, works)))
  {
    hide ListOk, WorkersOk, SaveContent;
    var b := ApplyBuild(w, s.build, s.proposals, user, id, works);
    BuildStepKeeps(w, s, b);
    var mid := s.(build := b, history := s.history[b.revision := b.content]);
    var at := PendingAt(s.proposals, user, id);
    if works && at >= 0 && user == s.build.owner {
      var p := s.proposals[at];
      assert p in mid.proposals && ProposalOk(w, mid.history, p);
      var q := if DryRun(w, s.build.content, p.ops).None? then p.(status := Conflict)
               else p.(status := Applied, appliedRevision := Some(s.build.revision + 1));
      RewriteKeeps(w, mid.history, s.proposals, s.nextId, at, q);
      ProposalStepKeeps(w, mid, s.proposals[at := q], s.nextId);
      assert Next(w, s, Apply(user, id, works)) == mid.(proposals := s.proposals[at := q], nextId := s.nextId);
    } else {
      assert Next(w, s, Apply(user, id, works)) == mid;
    }
  }

  lemma RejectKeeps(w: World, s: State, user: User, id: nat, works: bool)
    requires Inv(w, s)
    ensures Inv(w, Next(w, s, Reject(user, id, works)))
  {
    BuildStepKeeps(w, s, s.build);
    var mid := s.(history := s.history[s.build.revision := s.build.content]);
    var at := PendingAt(s.proposals, user, id);
    if works && at >= 0 {
      var p := s.proposals[at];
      assert p in mid.proposals && ProposalOk(w, mid.history, p);
      var q := p.(status := Rejected);
      RewriteKeeps(w, mid.history, s.proposals, s.nextId, at, q);
      ProposalStepKeeps(w, mid, s.proposals[at := q], s.nextId);
      assert Next(w, s, Reject(user, id, works)) == mid.(proposals := s.proposals[at := q], nextId := s.nextId);
    } else {
      assert Next(w, s, Reject(user, id, works)) == mid;
    }
  }

  // ---- requests in flight ----

  lemma StoreKeeps(w: World, s: State, p: Proposal)
    requires Inv(w, s) && p.id == s.nextId && p.status == Pending && ProposalOk(w, s.history, p)
    ensures Inv(w, s.(proposals := StoreProposal(s.proposals, p), nextId := s.nextId + 1))
  {
    var all := SupersedeAll(s.proposals) + [p];
    var kept := StoreProposal(s.proposals, p);
    OrderedSuperseded(s.proposals, s.nextId);
    assert all[..|all| - 1] == SupersedeAll(s.proposals);
    OrderedPruned(all, s.nextId + 1, 0);
    StoreCounts(s.proposals, p);
    forall q | q in kept
      ensures ProposalOk(w, s.history, q)
      ensures q.id >= s.nextId || exists o <- s.proposals :: o.id == q.id && o.ops == q.ops
    {
      PrunedFrom(all, 0, q);
      if q != p {
        SupersededFrom(s.proposals, q);
      }
    }
    ProposalStepKeeps(w, s, kept, s.nextId + 1);
  }

  lemma RefreshKeeps(w: World, s: State, id: nat, base: nat, ops: Ops, preview: Content)
    requires Inv(w, s) && Reviewed(w, s.history, base, ops, preview)
    requires forall p <- s.proposals :: p.id == id ==> p.ops == ops
    ensures Inv(w, s.(proposals := RefreshProposal(s.proposals, id, base, preview)))
  {
    var at := Position(s.proposals, id);
    if at >= 0 && s.proposals[at].status == Pending {
      var p := s.proposals[at];
      assert p in s.proposals && ProposalOk(w, s.history, p);
      var q := p.(base := base, preview := preview);
      RewriteKeeps(w, s.history, s.proposals, s.nextId, at, q);
      ProposalStepKeeps(w, s, s.proposals[at := q], s.nextId);
    }
  }

  lemma ConflictKeeps(w: World, s: State, id: nat)
    requires Inv(w, s)
    ensures Inv(w, s.(proposals := ConflictProposal(s.proposals, id)))
  {
    var at := Position(s.proposals, id);
    if at >= 0 && s.proposals[at].status == Pending {
      var p := s.proposals[at];
      assert p in s.proposals && ProposalOk(w, s.history, p);
      var q := p.(status := Conflict);
      RewriteKeeps(w, s.history, s.proposals, s.nextId, at, q);
      ProposalStepKeeps(w, s, s.proposals[at := q], s.nextId);
    }
  }

  /** A preview that succeeds is a dry run on the revision that was read, although
      the read itself was not one transaction. */
  lemma PreviewIsDryRun(w: World, s: State, wk: Worker, salt: nat)
    requires Replayable(w) && HistoryOk(s) && wk.stage.Loaded?
    requires StageOk(w, s.build, s.history, wk.stage)
    ensures var next := PreviewStep(w, s.build, wk, wk.stage.revision, wk.stage.content, salt);
            next.Some? ==>
              && StageOk(w, s.build, s.history, next.value.stage) && next.value.user == wk.user
              && (wk.task.Refresh? ==>
                    next.value.task == wk.task && (next.value.stage.Previewed? ==> next.value.stage.ops == wk.task.ops))
  {
  }

  lemma NextWorkerOk(w: World, s: State, wk: Worker, salt: nat)
    requires Replayable(w) && HistoryOk(s) && StageOk(w, s.build, s.history, wk.stage)
             && TaskOk(s.proposals, s.nextId, wk)
    ensures var next := NextWorker(w, s.build, wk, salt);
            next.Some? ==> StageOk(w, s.build, s.history, next.value.stage) && TaskOk(s.proposals, s.nextId, next.value)
  {
    if wk.stage.Loaded? {
      PreviewIsDryRun(w, s, wk, salt);
    }
  }

  /** What a request writes, before it moves on. */
  lemma WritesKeep(w: World, s: State, wk: Worker)
    requires Inv(w, s) && StageOk(w, s.build, s.history, wk.stage) && TaskOk(s.proposals, s.nextId, wk)
    ensures Inv(w, s.(proposals := WorkerWrites(s.proposals, s.nextId, wk),
                      nextId := if StoresProposal(wk) then s.nextId + 1 else s.nextId))
  {
    if StoresProposal(wk) {
      StoreKeeps(w, s, Created(s.nextId, wk.user, wk.stage.ops, wk.stage.revision, wk.stage.preview));
    } else if wk.stage.Previewed? {
      RefreshKeeps(w, s, wk.task.id, wk.stage.revision, wk.stage.ops, wk.stage.preview);
    } else if wk.stage.Unfit? && wk.task.Refresh? {
      ConflictKeeps(w, s, wk.task.id);
    }
  }

  lemma WorkersKeep(w: World, s: State, workers: map<nat, Worker>, k: nat)
    requires Inv(w, s)
    requires forall j <- workers :: j == k || (j in s.workers && workers[j] == s.workers[j])
    requires k in workers ==>
               StageOk(w, s.build, s.history, workers[k].stage) && TaskOk(s.proposals, s.nextId, workers[k])
    ensures Inv(w, s.(workers := workers))
  {
  }

  lemma AdvanceKeeps(w: World, s: State, k: nat, salt: nat, works: bool)
    requires Replayable(w) && Inv(w, s)
    ensures Inv(w, Next(w, s, Advance(k, salt, works)))
  {
    if k in s.workers {
      var wk := s.workers[k];
      if !works {
        WorkersKeep(w, s, s.workers - {k}, k);
      } else {
        var next := NextWorker(w, s.build, wk, salt);
        NextWorkerOk(w, s, wk, salt);
        WritesKeep(w, s, wk);
        var mid := s.(proposals := WorkerWrites(s.proposals, s.nextId, wk),
                      nextId := if StoresProposal(wk) then s.nextId + 1 else s.nextId);
        if next.Some? {
          assert mid == s;
          WorkersKeep(w, mid, s.workers[k := next.value], k);
        } else {
          WorkersKeep(w, mid, s.workers - {k}, k);
        }
      }
    }
  }

  lemma BeginRefreshKeeps(w: World, s: State, k: nat, user: User, id: nat)
    requires Inv(w, s)
    ensures Inv(w, Next(w, s, BeginRefresh(k, user, id)))
  {
    var at := PendingAt(s.proposals, user, id);
    if k !in s.workers && at >= 0 {
      var p := s.proposals[at];
      OrderedBelow(s.proposals, s.nextId, p);
      forall q | q in s.proposals && q.id == id
        ensures q.ops == p.ops
      {
        PositionFinds(s.proposals, s.nextId, q);
        PositionFinds(s.proposals, s.nextId, p);
      }
      WorkersKeep(w, s, s.workers[k := Worker(user, Refresh(id, p.ops, p.base), Started)], k);
    }
  }

  /** Every step keeps the invariant. */
  lemma StepKeeps(w: World, s: State, step: Step)
    requires Replayable(w) && Inv(w, s)
    ensures Inv(w, Next(w, s, step))
  {
    match step
    case BeginPropose(k, user, ops) =>
      if k !in s.workers {
        WorkersKeep(w, s, s.workers[k := Worker(user, Propose(ops, false), Started)], k);
      }
    case BeginRefresh(k, user, id) => BeginRefreshKeeps(w, s, k, user, id);
    case Advance(k, salt, works) => AdvanceKeeps(w, s, k, salt, works);
    case Apply(user, id, works) => ApplyKeeps(w, s, user, id, works);
    case Reject(user, id, works) => RejectKeeps(w, s, user, id, works);
    case _ =>
      StepAdvances(w, s, step);
      BuildStepKeeps(w, s, BuildAfter(w, s.build, s.proposals, step));
  }

  /** A build nobody has proposed changes to yet. */
  function Fresh(b: Build, nextId: nat): State { State(b, [], nextId, map[], map[b.revision := b.content]) }

  lemma {:induction false} RunKeeps(w: World, s: State, steps: seq<Step>, n: nat)
    requires Replayable(w) && Inv(w, s) && n <= |steps|
    ensures Inv(w, StateAt(w, s, steps, n))
  {
    if n > 0 {
      RunKeeps(w, s, steps, n - 1);
      StepKeeps(w, StateAt(w, s, steps, n - 1), steps[n - 1]);
    }
  }
}
