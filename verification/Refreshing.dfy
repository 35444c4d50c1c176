/** When refreshing a proposal closes it as a conflict, and when that is right
    (backend/internal/services/proposal_service.go, Refresh). */
module Refreshing {
  import opened Protocol
  import opened ProposalList
  import opened ProtocolInvariant
  import opened Wrappers

  // ---- one request in a run ----

  /** The step belongs to this request. */
  predicate Names(step: Step, k: nat) {
    match step
    case BeginPropose(worker, _, _) => worker == k
    case BeginRefresh(worker, _, _) => worker == k
    case Advance(worker, _, _) => worker == k
    case _ => false
  }

  ghost predicate Quiet(steps: seq<Step>, i: nat, j: nat, k: nat)
    requires i <= j <= |steps|
  {
    forall x :: i <= x < j ==> !Names(steps[x], k)
  }

  predicate Moves(step: Step, k: nat) { step.Advance? && step.worker == k && step.works }

  function WorkerOf(s: State, k: nat): Option<Worker> {
    if k in s.workers then Some(s.workers[k]) else None
  }

  /** Only its own steps move a request. */
  lemma {:induction false} WorkerWaits(w: World, s: State, steps: seq<Step>, i: nat, j: nat, k: nat)
    requires i <= j <= |steps| && Quiet(steps, i, j, k)
    ensures WorkerOf(StateAt(w, s, steps, j), k) == WorkerOf(StateAt(w, s, steps, i), k)
  {
    if i < j {
      WorkerWaits(w, s, steps, i, j - 1, k);
      OthersLeave(w, StateAt(w, s, steps, j - 1), steps[j - 1], k);
    }
  }

  lemma OthersLeave(w: World, s: State, step: Step, k: nat)
    requires !Names(step, k)
    ensures WorkerOf(Next(w, s, step), k) == WorkerOf(s, k)
  {
  }

  /** Where its own step and the wait after it take a request. */
  lemma MovesOn(w: World, s: State, steps: seq<Step>, x: nat, y: nat, k: nat)
    requires x < y <= |steps| && Moves(steps[x], k) && Quiet(steps, x + 1, y, k)
    ensures var before, after := WorkerOf(StateAt(w, s, steps, x), k), WorkerOf(StateAt(w, s, steps, y), k);
            after == if before.None? then None
              else NextWorker(w, StateAt(w, s, steps, x).build, before.value, steps[x].salt)
  {
    WorkerWaits(w, s, steps, x + 1, y, k);
  }

  /** The moments at which a refresh reads the row, the nodes and the edges, makes
      its preview, and writes. */
  datatype Moments = Moments(row: nat, nodes: nat, edges: nat, preview: nat, write: nat)

  ghost predicate Scheduled(steps: seq<Step>, k: nat, m: Moments) {
    && m.row < m.nodes < m.edges < m.preview < m.write < |steps|
    && Moves(steps[m.row], k) && Moves(steps[m.nodes], k) && Moves(steps[m.edges], k)
    && Moves(steps[m.preview], k) && Moves(steps[m.write], k)
    && Quiet(steps, m.row + 1, m.nodes, k) && Quiet(steps, m.nodes + 1, m.edges, k)
    && Quiet(steps, m.edges + 1, m.preview, k) && Quiet(steps, m.preview + 1, m.write, k)
  }

  ghost function BuildAt(w: World, s: State, steps: seq<Step>, n: nat): Build
    requires n <= |steps|
  {
    StateAt(w, s, steps, n).build
  }

  /** What the three queries return together: each part as it was when it was read. */
  ghost function Mixture(w: World, s: State, steps: seq<Step>, m: Moments): Content
    requires m.row <= |steps| && m.nodes <= |steps| && m.edges <= |steps|
  {
    BuildAt(w, s, steps, m.row).content.(
      nodes := BuildAt(w, s, steps, m.nodes).content.nodes, edges := BuildAt(w, s, steps, m.edges).content.edges)
  }

  /** The operations do not apply to what was read, or they do, nobody has saved
      since the row was read, and the save of their result is refused. */
  ghost predicate FoundUnfit(w: World, s: State, steps: seq<Step>, m: Moments, ops: Ops)
    requires m.row <= |steps| && m.nodes <= |steps| && m.edges <= |steps| && m.preview <= |steps|
  {
    var draft := w.replay(Mixture(w, s, steps, m), ops);
    || draft.None?
    || (BuildAt(w, s, steps, m.row).revision == BuildAt(w, s, steps, m.preview).revision
        && SaveContent(w, BuildAt(w, s, steps, m.preview).content, draft.value).None?)
  }

  /** A refresh by the owner, of a proposal whose base is not the revision it finds. */
  ghost predicate Outdated(w: World, s: State, steps: seq<Step>, m: Moments, user: User, base: nat)
    requires m.row <= |steps|
  {
    user == BuildAt(w, s, steps, m.row).owner && BuildAt(w, s, steps, m.row).revision != base
  }

  ghost predicate IsPending(s: State, id: nat) {
    var at := Position(s.proposals, id); at >= 0 && s.proposals[at].status == Pending
  }

  /** From one state to the next the pending proposal is closed as a conflict. */
  ghost predicate Closes(s: State, t: State, id: nat) {
    && IsPending(s, id)
    && var at := Position(s.proposals, id);
       at < |t.proposals| && t.proposals[at] == s.proposals[at].(status := Conflict)
  }

  /** The stages of the request at its moments. */
  lemma StagesAre(w: World, s: State, steps: seq<Step>, k: nat, m: Moments, user: User, id: nat, ops: Ops, base: nat)
    requires Scheduled(steps, k, m)
    requires WorkerOf(StateAt(w, s, steps, m.row), k) == Some(Worker(user, Refresh(id, ops, base), Started))
    ensures var b, c := BuildAt(w, s, steps, m.row), BuildAt(w, s, steps, m.nodes);
            var wk, goes := Worker(user, Refresh(id, ops, base), Started), Outdated(w, s, steps, m, user, base);
            && WorkerOf(StateAt(w, s, steps, m.nodes), k) ==
               (if goes then Some(wk.(stage := RowRead(b.revision, b.content))) else None)
            && WorkerOf(StateAt(w, s, steps, m.edges), k) ==
               (if goes then Some(wk.(stage := NodesRead(b.revision, b.content, c.content.nodes))) else None)
            && WorkerOf(StateAt(w, s, steps, m.preview), k) ==
               (if goes then Some(wk.(stage := Loaded(b.revision, Mixture(w, s, steps, m)))) else None)
  {
    hide StateAt, Quiet;
    MovesOn(w, s, steps, m.row, m.nodes, k);
    MovesOn(w, s, steps, m.nodes, m.edges, k);
    MovesOn(w, s, steps, m.edges, m.preview, k);
  }

  /** At its write the request is unfit exactly when that was found. */
  lemma UnfitAtWrite(w: World, s: State, steps: seq<Step>, k: nat, m: Moments, user: User, id: nat, ops: Ops, base: nat)
    requires Scheduled(steps, k, m)
    requires WorkerOf(StateAt(w, s, steps, m.row), k) == Some(Worker(user, Refresh(id, ops, base), Started))
    ensures var wk := WorkerOf(StateAt(w, s, steps, m.write), k);
            && (wk.Some? && wk.value.stage.Unfit? <==>
                  Outdated(w, s, steps, m, user, base) && FoundUnfit(w, s, steps, m, ops))
            && (wk.Some? ==>
                  wk.value.task == Refresh(id, ops, base) && (wk.value.stage.Unfit? || wk.value.stage.Previewed?))
  {
    hide StateAt, Quiet, SaveContent, Mixture;
    StagesAre(w, s, steps, k, m, user, id, ops, base);
    MovesOn(w, s, steps, m.preview, m.write, k);
  }

  lemma WriteCloses(w: World, s: State, k: nat, salt: nat, id: nat, ops: Ops, base: nat)
    requires var wk := WorkerOf(s, k);
             wk.Some? ==>
               wk.value.task == Refresh(id, ops, base) && (wk.value.stage.Unfit? || wk.value.stage.Previewed?)
    ensures Closes(s, Next(w, s, Advance(k, salt, true)), id)
            <==> IsPending(s, id) && WorkerOf(s, k).Some? && WorkerOf(s, k).value.stage.Unfit?
  {
  }

  /** In every run, whatever else happens in between, the write of a refresh closes
      its proposal exactly when it is still pending, its base was found outdated, and
      either the operations do not apply to the mixture of what was read, or no save
      fell between the first read and the preview and the save was refused. */
  lemma RefreshCloses(w: World, s: State, steps: seq<Step>, k: nat, m: Moments, user: User, id: nat, ops: Ops,
                      base: nat)
    requires Scheduled(steps, k, m)
    requires WorkerOf(StateAt(w, s, steps, m.row), k) == Some(Worker(user, Refresh(id, ops, base), Started))
    ensures Closes(StateAt(w, s, steps, m.write), StateAt(w, s, steps, m.write + 1), id)
            <==> && IsPending(StateAt(w, s, steps, m.write), id)
                 && Outdated(w, s, steps, m, user, base) && FoundUnfit(w, s, steps, m, ops)
  {
    UnfitAtWrite(w, s, steps, k, m, user, id, ops, base);
    var t := StateAt(w, s, steps, m.write);
    assert StateAt(w, s, steps, m.write + 1) == Next(w, t, steps[m.write]);
    hide StateAt, Next, Quiet, FoundUnfit, Outdated, Closes, IsPending;
    WriteCloses(w, t, k, steps[m.write].salt, id, ops, base);
  }

  // ---- when closing is right ----

  /** Applying the operations now would fail too. */
  ghost predicate NoLongerFits(w: World, s: State, ops: Ops) { DryRun(w, s.build.content, ops).None? }

  /** Without a save between the first read and the write, the refresh closes the
      proposal exactly when applying it at that moment would fail. */
  lemma UndisturbedRefresh(w: World, s: State, steps: seq<Step>, k: nat, m: Moments, user: User, id: nat, ops: Ops,
                           base: nat)
    requires Scheduled(steps, k, m)
    requires WorkerOf(StateAt(w, s, steps, m.row), k) == Some(Worker(user, Refresh(id, ops, base), Started))
    requires BuildAt(w, s, steps, m.row).revision == BuildAt(w, s, steps, m.write).revision
    ensures Closes(StateAt(w, s, steps, m.write), StateAt(w, s, steps, m.write + 1), id)
            <==> && IsPending(StateAt(w, s, steps, m.write), id) && Outdated(w, s, steps, m, user, base)
                 && NoLongerFits(w, StateAt(w, s, steps, m.write), ops)
  {
    RevisionIdentifiesContent(w, s, steps, m.row, m.nodes);
    RevisionIdentifiesContent(w, s, steps, m.nodes, m.edges);
    RevisionIdentifiesContent(w, s, steps, m.edges, m.preview);
    RevisionIdentifiesContent(w, s, steps, m.preview, m.write);
    RefreshCloses(w, s, steps, k, m, user, id, ops, base);
    hide StateAt, Scheduled, Closes, IsPending, SaveContent;
    assert Mixture(w, s, steps, m) == BuildAt(w, s, steps, m.write).content;
  }

  // ---- one save during a refresh ----

  /** A request of five steps with one save after the first `gap` of them. */
  function InterruptedStep(gap: nat, i: nat, user: User, saved: Draft): Step {
    if i == gap + 1 then OwnerSave(user, 1, saved, true) else Advance(0, 0, true)
  }

  function Interrupted(gap: nat, user: User, saved: Draft): seq<Step> {
    [BeginRefresh(0, user, 0), InterruptedStep(gap, 1, user, saved), InterruptedStep(gap, 2, user, saved),
     InterruptedStep(gap, 3, user, saved),
     InterruptedStep(gap, 4, user, saved), InterruptedStep(gap, 5, user, saved), InterruptedStep(gap, 6, user, saved)]
  }

  /** When the n-th step of the request is made. */
  function MomentOf(gap: nat, n: nat): nat { if n < gap then n + 1 else n + 2 }

  function MomentsOf(gap: nat): Moments {
    Moments(MomentOf(gap, 0), MomentOf(gap, 1), MomentOf(gap, 2), MomentOf(gap, 3), MomentOf(gap, 4))
  }

  /** A build at revision 1 with one pending proposal, made at revision 0. */
  function Waiting(user: User, first: Content, preview: Content, c: Content, ops: Ops, sharing: Sharing): State {
    State(Build(user, 1, c, sharing), [Proposal(0, user, ops, 0, preview, Pending, None)], 1, map[],
          map[0 := first, 1 := c])
  }

  /** A closed proposal no longer fits. */
  ghost predicate Sound(w: World, s: State, gap: nat, user: User, saved: Draft, ops: Ops)
    requires gap <= 5
  {
    var steps, n := Interrupted(gap, user, saved), MomentOf(gap, 4);
    Closes(StateAt(w, s, steps, n), StateAt(w, s, steps, n + 1), 0) ==> NoLongerFits(w, StateAt(w, s, steps, n), ops)
  }

  lemma InterruptedScheduled(gap: nat, user: User, saved: Draft)
    requires gap <= 5
    ensures Scheduled(Interrupted(gap, user, saved), 0, MomentsOf(gap))
  {
  }

  lemma FirstStep(w: World, s: State, steps: seq<Step>)
    requires |steps| > 0
    ensures StateAt(w, s, steps, 1) == Next(w, s, steps[0])
  {
    assert StateAt(w, s, steps, 0) == s;
  }

  lemma InterruptedStarts(w: World, user: User, first: Content, preview: Content, c: Content, ops: Ops,
                          sharing: Sharing, gap: nat, saved: Draft)
    requires gap <= 5
    ensures var s, steps := Waiting(user, first, preview, c, ops, sharing), Interrupted(gap, user, saved);
            WorkerOf(StateAt(w, s, steps, MomentOf(gap, 0)), 0) == Some(Worker(user, Refresh(0, ops, 0), Started))
  {
    var s, steps := Waiting(user, first, preview, c, ops, sharing), Interrupted(gap, user, saved);
    FirstStep(w, s, steps);
    assert PendingAt(s.proposals, user, 0) == 0;
    assert WorkerOf(StateAt(w, s, steps, 1), 0) == Some(Worker(user, Refresh(0, ops, 0), Started));
    hide StateAt, Next;
    WorkerWaits(w, s, steps, 1, MomentOf(gap, 0), 0);
  }

  /** The build before and after the save. */
  lemma {:induction false} InterruptedBuild(w: World, s: State, gap: nat, user: User, saved: Draft, x: nat)
    requires gap <= 5 && x <= 7
    ensures var b := BuildAt(w, s, Interrupted(gap, user, saved), x);
            b == if x <= gap + 1 then s.build else BuildAfter(w, s.build, [], OwnerSave(user, 1, saved, true))
  {
    if x > 0 {
      InterruptedBuild(w, s, gap, user, saved, x - 1);
      var step := Interrupted(gap, user, saved)[x - 1];
      assert step == if x == 1 then BeginRefresh(0, user, 0) else InterruptedStep(gap, x - 1, user, saved);
    }
  }

  /** A save before the first read or after the write does no harm, in any world. */
  lemma OutsideIsSound(w: World, user: User, first: Content, preview: Content, c: Content, ops: Ops, sharing: Sharing,
                       gap: nat, saved: Draft)
    requires gap == 0 || gap == 5
    ensures Sound(w, Waiting(user, first, preview, c, ops, sharing), gap, user, saved, ops)
  {
    var s, steps, m := Waiting(user, first, preview, c, ops, sharing), Interrupted(gap, user, saved), MomentsOf(gap);
    InterruptedScheduled(gap, user, saved);
    InterruptedStarts(w, user, first, preview, c, ops, sharing, gap, saved);
    InterruptedBuild(w, s, gap, user, saved, m.row);
    InterruptedBuild(w, s, gap, user, saved, m.write);
    hide StateAt, Scheduled, NoLongerFits, Closes, IsPending, BuildAfter;
    UndisturbedRefresh(w, s, steps, 0, m, user, 0, ops, 0);
  }

  /** A world that accepts every save, and whose operations rename any build but one. */
  function Picky(unfit: Content): World {
    World(
      (c, ops, salt) => None,
      (c: Content, ops: Ops) => if c == unfit then None
        else Some(Draft("renamed", c.settings, Some(c.kind), Some(c.plan), c.nodes, c.edges)),
      (kind: Kind) => Some(kind),
      (plan: Plan) => Some(plan),
      (c: Content) => Some((c.nodes, c.edges)),
      (nodes: Nodes, edges: Edges) => None,
      (c: Content, d: Content) => c != d)
  }

  function WholeDraft(c: Content): Draft { Draft(c.name, c.settings, Some(c.kind), Some(c.plan), c.nodes, c.edges) }

  lemma PickyAccepts(unfit: Content, c: Content, d: Content, ops: Ops)
    ensures Picky(unfit).replay(c, ops) == if c == unfit then None else Some(WholeDraft(c.(name := "renamed")))
    ensures SaveContent(Picky(unfit), d, WholeDraft(c)) == Some(c)
    ensures DryRun(Picky(unfit), c, ops) == if c == unfit then None else Some(c.(name := "renamed"))
    ensures Replayable(Picky(unfit))
  {
  }

  /** What the request reads of a build that is saved as d after `gap` of its steps. */
  function Seen(c: Content, d: Content, gap: nat): Content {
    if gap == 1 then c.(nodes := d.nodes, edges := d.edges) else if gap == 2 then c.(edges := d.edges) else c
  }

  predicate Writes(wk: Option<Worker>) { wk.Some? && (wk.value.stage.Previewed? || wk.value.stage.Unfit?) }

  /** Until its last step the request only reads. */
  lemma OnlyReads(w: World, user: User, first: Content, preview: Content, c: Content, ops: Ops, sharing: Sharing,
                  gap: nat, saved: Draft, x: nat)
    requires gap <= 5 && 0 < x < MomentOf(gap, 4) && x != gap + 1
    ensures !Writes(WorkerOf(StateAt(w, Waiting(user, first, preview, c, ops, sharing), Interrupted(gap, user, saved),
                                     x), 0))
  {
    var s, steps, m := Waiting(user, first, preview, c, ops, sharing), Interrupted(gap, user, saved), MomentsOf(gap);
    InterruptedScheduled(gap, user, saved);
    InterruptedStarts(w, user, first, preview, c, ops, sharing, gap, saved);
    hide StateAt, Scheduled, Mixture, Outdated, Waiting, Interrupted;
    StagesAre(w, s, steps, 0, m, user, 0, ops, 0);
    assert x == m.row || x == m.nodes || x == m.edges || x == m.preview;
  }

  /** The proposal is still pending when the request writes. */
  lemma {:induction false} PendingUntilWrite(
    w: World, user: User, first: Content, preview: Content, c: Content, ops: Ops, sharing: Sharing, gap: nat,
    saved: Draft, x: nat)
    requires gap <= 5 && x <= MomentOf(gap, 4)
    ensures var s := Waiting(user, first, preview, c, ops, sharing);
            StateAt(w, s, Interrupted(gap, user, saved), x).proposals == s.proposals
    decreases x
  {
    if x > 0 {
      var s, steps := Waiting(user, first, preview, c, ops, sharing), Interrupted(gap, user, saved);
      PendingUntilWrite(w, user, first, preview, c, ops, sharing, gap, saved, x - 1);
      var t, step := StateAt(w, s, steps, x - 1), steps[x - 1];
      assert StateAt(w, s, steps, x) == Next(w, t, step);
      assert step == if x == 1 then BeginRefresh(0, user, 0) else InterruptedStep(gap, x - 1, user, saved);
      hide StateAt, Next, Waiting, Interrupted;
      if x > 1 && x - 1 != gap + 1 {
        OnlyReads(w, user, first, preview, c, ops, sharing, gap, saved, x - 1);
      }
      ReadingWritesNothing(w, t, step);
    }
  }

  lemma ReadingWritesNothing(w: World, s: State, step: Step)
    requires match step
             case Advance(k, _, _) => !Writes(WorkerOf(s, k))
             case Apply(_, _, _) => false
             case Reject(_, _, _) => false
             case _ => true
    ensures Next(w, s, step).proposals == s.proposals
  {
  }

  lemma OnePendingOk(p: Proposal)
    requires p.id == 0 && p.status == Pending
    ensures ListOk([p], 1)
  {
    var ps := [p];
    assert ps[..|ps| - 1] == [];
    assert SettledCount(ps) == SettledCount([]) == 0;
    assert Ordered([], 0) && Ordered(ps, 1);
  }

  lemma WaitingInv(w: World, user: User, first: Content, c: Content, ops: Ops, sharing: Sharing)
    requires DryRun(w, first, ops).Some?
    ensures Inv(w, Waiting(user, first, DryRun(w, first, ops).value, c, ops, sharing))
  {
    var s := Waiting(user, first, DryRun(w, first, ops).value, c, ops, sharing);
    assert ProposalsOk(w, s.history, s.proposals) by {
      assert ProposalOk(w, s.history, s.proposals[0]);
    }
    OnePendingOk(s.proposals[0]);
    hide ProposalsOk, ListOk;
  }

  /** A save at any of the four places in between can make the refresh close a
      proposal that fits the build it is closed on; in the middle of the reads even one
      that fitted the build before the save as well. */
  lemma InsideCanMislead(user: User, c: Content, d: Content, ops: Ops, sharing: Sharing, gap: nat)
    requires 1 <= gap <= 4 && c.name != d.name && c.nodes != d.nodes && c.edges != d.edges
    ensures var w := Picky(Seen(c, d, gap));
            && Replayable(w) && Inv(w, Waiting(user, d, d.(name := "renamed"), c, ops, sharing))
            && !Sound(w, Waiting(user, d, d.(name := "renamed"), c, ops, sharing), gap, user, WholeDraft(d), ops)
            && (gap <= 2 ==> DryRun(w, c, ops).Some?)
  {
    var unfit, saved, m := Seen(c, d, gap), WholeDraft(d), MomentsOf(gap);
    var w, s, steps := Picky(unfit), Waiting(user, d, d.(name := "renamed"), c, ops, sharing),
      Interrupted(gap, user, saved);
    PickyAccepts(unfit, d, c, ops);
    WaitingInv(w, user, d, c, ops, sharing);
    InterruptedScheduled(gap, user, saved);
    InterruptedStarts(w, user, d, d.(name := "renamed"), c, ops, sharing, gap, saved);
    InterruptedBuilds(w, s, gap, user, c, d, sharing);
    PendingUntilWrite(w, user, d, d.(name := "renamed"), c, ops, sharing, gap, saved, m.write);
    assert Mixture(w, s, steps, m) == unfit;
    PickyAccepts(unfit, unfit, c, ops);
    PickyAccepts(unfit, c, c, ops);
    assert IsPending(StateAt(w, s, steps, m.write), 0);
    hide StateAt, Scheduled, Inv, Replayable, Closes, IsPending, Picky, SaveContent;
    RefreshCloses(w, s, steps, 0, m, user, 0, ops, 0);
  }

  lemma InterruptedBuilds(w: World, s: State, gap: nat, user: User, c: Content, d: Content, sharing: Sharing)
    requires 1 <= gap <= 4 && s.build == Build(user, 1, c, sharing) && SaveContent(w, c, WholeDraft(d)) == Some(d)
    ensures var steps, m := Interrupted(gap, user, WholeDraft(d)), MomentsOf(gap);
            && BuildAt(w, s, steps, m.row) == s.build
            && BuildAt(w, s, steps, m.nodes).content == (if gap == 1 then d else c)
            && BuildAt(w, s, steps, m.edges).content == (if gap <= 2 then d else c)
            && BuildAt(w, s, steps, m.write).content == d
  {
    var m := MomentsOf(gap);
    InterruptedBuild(w, s, gap, user, WholeDraft(d), m.row);
    InterruptedBuild(w, s, gap, user, WholeDraft(d), m.nodes);
    InterruptedBuild(w, s, gap, user, WholeDraft(d), m.edges);
    InterruptedBuild(w, s, gap, user, WholeDraft(d), m.write);
  }

  /** So of one save, what the refresh does is right in every world and for every
      build exactly when the save falls before its first read or after its write. */
  lemma OneSaveSoundExactly(gap: nat, someone: User, a: Content, b: Content, some: Ops, shared: Sharing)
    requires gap <= 5 && a.name != b.name && a.nodes != b.nodes && a.edges != b.edges
    ensures (forall w: World, user, first, preview, c, ops, sharing, saved ::
               Replayable(w) && Inv(w, Waiting(user, first, preview, c, ops, sharing)) ==>
                 Sound(w, Waiting(user, first, preview, c, ops, sharing), gap, user, saved, ops))
            <==> gap == 0 || gap == 5
  {
    hide Sound, Inv, Replayable, Waiting, Picky;
    if gap == 0 || gap == 5 {
      forall w: World, user, first, preview, c, ops, sharing, saved
        ensures Sound(w, Waiting(user, first, preview, c, ops, sharing), gap, user, saved, ops)
      {
        OutsideIsSound(w, user, first, preview, c, ops, sharing, gap, saved);
      }
    } else {
      InsideCanMislead(someone, a, b, some, shared, gap);
    }
  }
}
