/** When a request for a proposal stores one, and when it starts over
    (backend/internal/services/proposal_service.go, Propose). */
module Proposing {
  import opened Wrappers
  import opened Protocol
  import opened ProtocolSteps
  import opened Refreshing

  /** The stages of a request for a proposal up to its preview. */
  lemma ReadsThrough(w: World, s: State, steps: seq<Step>, k: nat, m: Moments, user: User, ops: Ops, retry: bool)
    requires Scheduled(steps, k, m)
    requires WorkerOf(StateAt(w, s, steps, m.row), k) == Some(Worker(user, Propose(ops, retry), Started))
    ensures WorkerOf(StateAt(w, s, steps, m.preview), k) ==
            if user == BuildAt(w, s, steps, m.row).owner
            then Some(Worker(user, Propose(ops, retry),
                             Loaded(BuildAt(w, s, steps, m.row).revision, Mixture(w, s, steps, m))))
            else None
  {
    hide StateAt, Quiet;
    MovesOn(w, s, steps, m.row, m.nodes, k);
    MovesOn(w, s, steps, m.nodes, m.edges, k);
    MovesOn(w, s, steps, m.edges, m.preview, k);
  }

  /** The owner's operations apply to what was read, nobody saved in between, their
      result can be saved, and it changes something. */
  ghost predicate Found(w: World, s: State, steps: seq<Step>, m: Moments, user: User, ops: Ops, res: Resolution,
                        after: Content)
    requires m.row <= |steps| && m.nodes <= |steps| && m.edges <= |steps| && m.preview < |steps|
             && steps[m.preview].Advance?
  {
    && user == BuildAt(w, s, steps, m.row).owner
    && w.resolve(Mixture(w, s, steps, m), ops, steps[m.preview].salt) == Some(res)
    && BuildAt(w, s, steps, m.row).revision == BuildAt(w, s, steps, m.preview).revision
    && Saved(w, BuildAt(w, s, steps, m.preview).content, res.draft, after)
    && w.differs(Mixture(w, s, steps, m), after)
  }

  /** A save came in between the first time: everything is read again. */
  ghost predicate StartsOver(w: World, s: State, steps: seq<Step>, m: Moments, user: User, ops: Ops, retry: bool)
    requires m.row <= |steps| && m.nodes <= |steps| && m.edges <= |steps| && m.preview < |steps|
             && steps[m.preview].Advance?
  {
    && !retry && user == BuildAt(w, s, steps, m.row).owner
    && w.resolve(Mixture(w, s, steps, m), ops, steps[m.preview].salt).Some?
    && BuildAt(w, s, steps, m.row).revision != BuildAt(w, s, steps, m.preview).revision
  }

  lemma PreviewFinds(w: World, b: Build, wk: Worker, revision: nat, content: Content, ops: Ops, retry: bool, salt: nat)
    requires wk.task == Propose(ops, retry) && wk.stage == Loaded(revision, content)
    ensures var next, resolved := NextWorker(w, b, wk, salt), w.resolve(content, ops, salt);
            && (next.Some? && next.value.stage.Started? <==> resolved.Some? && revision != b.revision && !retry)
            && (next.Some? && next.value.stage.Started? ==> next.value == Worker(wk.user, Propose(ops, true), Started))
            && (next.Some? && next.value.stage.Previewed? <==>
                  && resolved.Some? && revision == b.revision && CanSave(w, b.content, resolved.value.draft)
                  && w.differs(content, SaveContent(w, b.content, resolved.value.draft).value))
            && (next.Some? && next.value.stage.Previewed? ==>
                  && next.value == wk.(stage := next.value.stage)
                  && next.value.stage.revision == revision && next.value.stage.ops == resolved.value.ops
                  && Saved(w, b.content, resolved.value.draft, next.value.stage.preview))
            && (next.Some? ==> next.value.stage.Started? || next.value.stage.Previewed?)
  {
    if w.resolve(content, ops, salt).Some? {
      SaveMeans(w, b.content, w.resolve(content, ops, salt).value.draft);
    }
  }

  lemma FoundAtWrite(w: World, s: State, steps: seq<Step>, k: nat, m: Moments, user: User, ops: Ops, retry: bool)
    requires Scheduled(steps, k, m)
    requires WorkerOf(StateAt(w, s, steps, m.row), k) == Some(Worker(user, Propose(ops, retry), Started))
    ensures var wo := WorkerOf(StateAt(w, s, steps, m.write), k);
            && (forall res, c :: Found(w, s, steps, m, user, ops, res, c) ==>
                  wo == Some(Worker(user, Propose(ops, retry),
                                    Previewed(BuildAt(w, s, steps, m.row).revision, res.ops, c))))
            && (wo.Some? && wo.value.stage.Previewed? ==> exists res, c :: Found(w, s, steps, m, user, ops, res, c))
            && (StartsOver(w, s, steps, m, user, ops, retry) <==> wo == Some(Worker(user, Propose(ops, true), Started)))
            && (wo.Some? ==> wo.value.stage.Previewed? || wo.value.stage.Started?)
  {
    var b, salt := BuildAt(w, s, steps, m.preview), steps[m.preview].salt;
    ReadsThrough(w, s, steps, k, m, user, ops, retry);
    MovesOn(w, s, steps, m.preview, m.write, k);
    hide StateAt, Scheduled, Quiet, SaveContent, Saved, CanSave, Mixture, NextWorker;
    if user == BuildAt(w, s, steps, m.row).owner {
      var revision, content := BuildAt(w, s, steps, m.row).revision, Mixture(w, s, steps, m);
      var wk := Worker(user, Propose(ops, retry), Loaded(revision, content));
      PreviewFinds(w, b, wk, revision, content, ops, retry, salt);
      var resolved := w.resolve(content, ops, salt);
      if resolved.Some? {
        SaveMeans(w, b.content, resolved.value.draft);
        var wo := WorkerOf(StateAt(w, s, steps, m.write), k);
        if wo.Some? && wo.value.stage.Previewed? {
          assert Found(w, s, steps, m, user, ops, resolved.value, wo.value.stage.preview);
        }
      }
    }
  }

  lemma ProposeWrites(w: World, s: State, k: nat, salt: nat)
    requires var wo := WorkerOf(s, k); wo.Some? ==> wo.value.stage.Previewed? || wo.value.stage.Started?
    ensures var t, wo := Next(w, s, Advance(k, salt, true)), WorkerOf(s, k);
            if wo.Some? && wo.value.task.Propose? && wo.value.stage.Previewed? then
              var st := wo.value.stage;
              && t.proposals == StoreProposal(
                   s.proposals, Proposal(s.nextId, wo.value.user, st.ops, st.revision, st.preview, Pending, None))
              && t.nextId == s.nextId + 1
            else (wo.Some? && wo.value.task.Refresh?) || (t.proposals == s.proposals && t.nextId == s.nextId)
  {
  }

  /** A proposal is found at these moments. */
  ghost predicate Finds(w: World, s: State, steps: seq<Step>, m: Moments, user: User, ops: Ops)
    requires m.row <= |steps| && m.nodes <= |steps| && m.edges <= |steps| && m.preview < |steps|
             && steps[m.preview].Advance?
  {
    exists res, c :: Found(w, s, steps, m, user, ops, res, c)
  }

  /** In every run, whatever comes in between, the last step of a request stores a
      proposal exactly when one was found: pending, of the user, with the resolved
      operations, the revision that was read and the previewed content. It starts over,
      once, exactly when a save came in between. */
  lemma ProposeStoresExactly(w: World, s: State, steps: seq<Step>, k: nat, m: Moments, user: User, ops: Ops,
                             retry: bool)
    requires Scheduled(steps, k, m)
    requires WorkerOf(StateAt(w, s, steps, m.row), k) == Some(Worker(user, Propose(ops, retry), Started))
    ensures var before, after := StateAt(w, s, steps, m.write), StateAt(w, s, steps, m.write + 1);
            && (forall res, c :: Found(w, s, steps, m, user, ops, res, c) ==>
                  && after.nextId == before.nextId + 1
                  && var base := BuildAt(w, s, steps, m.row).revision;
                     after.proposals ==
                     StoreProposal(before.proposals, Proposal(before.nextId, user, res.ops, base, c, Pending, None)))
            && (!Finds(w, s, steps, m, user, ops) ==>
                  after.proposals == before.proposals && after.nextId == before.nextId)
            && (StartsOver(w, s, steps, m, user, ops, retry) <==>
                  WorkerOf(before, k) == Some(Worker(user, Propose(ops, true), Started)))
  {
    var before, step := StateAt(w, s, steps, m.write), steps[m.write];
    assert StateAt(w, s, steps, m.write + 1) == Next(w, before, step);
    FoundAtWrite(w, s, steps, k, m, user, ops, retry);
    WorkerStaysItself(w, s, steps, k, m, user, ops, retry);
    hide StateAt, Next, Found, StoreProposal, StartsOver;
    ProposeWrites(w, before, k, step.salt);
  }

  /** It stays a request for a proposal. */
  lemma WorkerStaysItself(w: World, s: State, steps: seq<Step>, k: nat, m: Moments, user: User, ops: Ops, retry: bool)
    requires Scheduled(steps, k, m)
    requires WorkerOf(StateAt(w, s, steps, m.row), k) == Some(Worker(user, Propose(ops, retry), Started))
    ensures var wo := WorkerOf(StateAt(w, s, steps, m.write), k); wo.Some? ==> wo.value.task.Propose?
  {
    ReadsThrough(w, s, steps, k, m, user, ops, retry);
    MovesOn(w, s, steps, m.preview, m.write, k);
    hide StateAt, Scheduled, Quiet, SaveContent, Mixture;
  }
}
