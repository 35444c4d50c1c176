/** One build, its revisions and its proposals, as a state machine whose steps are
    the database transactions and reads of backend/internal/services
    (build_service.go, build_snapshot.go, proposal_service.go). */
module Protocol {
  import opened Text
  import opened Wrappers

  type User(==, !new)
  type Token(==, !new)
  type Settings(==, !new)
  type Kind(==, !new)
  type Plan(==, !new)
  type Nodes(==, !new)
  type Edges(==, !new)
  type Ops(==, !new)

  const KEPT_SETTLED := 20
  const PRUNE_LIMIT := 500

  /** What a revision stands for. */
  datatype Content = Content(name: string, settings: Settings, kind: Kind, plan: Plan, nodes: Nodes, edges: Edges)

  /** What a save submits; a missing kind or plan keeps what the build has. */
  datatype Draft = Draft(name: string, settings: Settings, kind: Option<Kind>, plan: Option<Plan>, nodes: Nodes,
                         edges: Edges)

  datatype Resolution = Resolution(draft: Draft, ops: Ops)

  /** The parts of the system that are only known to be functions: applying a
      request (which draws new ids from a salt) and replaying its resolved
      operations, reading kinds and plans, laying out and calculating a graph, and
      converting old power cables, and comparing two builds. None stands for a
      rejection. */
  datatype World = World(
    resolve: (Content, Ops, nat) -> Option<Resolution>,
    replay: (Content, Ops) -> Option<Draft>,
    parseKind: Kind -> Option<Kind>,
    normalize: Plan -> Option<Plan>,
    calculate: Content -> Option<(Nodes, Edges)>,
    convert: (Nodes, Edges) -> Option<(Nodes, Edges)>,
    differs: (Content, Content) -> bool)

  /** Resolved operations give the same graph again on the same build. */
  ghost predicate Replayable(w: World) {
    forall c: Content, ops: Ops, salt: nat ::
      w.resolve(c, ops, salt).Some? ==>
        w.replay(c, w.resolve(c, ops, salt).value.ops) == Some(w.resolve(c, ops, salt).value.draft)
  }

  // ---- what a save makes of a build ----

  function KindAfter(w: World, before: Content, d: Draft): Option<Kind> {
    if d.kind.None? then Some(before.kind) else w.parseKind(d.kind.value)
  }

  function PlanAfter(w: World, before: Content, d: Draft): Option<Plan> {
    if d.plan.None? then Some(before.plan) else w.normalize(d.plan.value)
  }

  function SaveContent(w: World, before: Content, d: Draft): Option<Content> {
    var kind, plan := KindAfter(w, before, d), PlanAfter(w, before, d);
    if kind.None? || plan.None? then None
    else
      var full := Content(d.name, d.settings, kind.value, plan.value, d.nodes, d.edges);
      var laid := w.calculate(full);
      if laid.None? then None else Some(full.(nodes := laid.value.0, edges := laid.value.1))
  }

  /** What stored operations make of a build. */
  function DryRun(w: World, c: Content, ops: Ops): Option<Content> {
    var draft := w.replay(c, ops);
    if draft.None? then None else SaveContent(w, c, draft.value)
  }

  // ---- the state ----

  datatype Sharing = Sharing(shared: bool, editable: bool, token: Option<Token>)

  datatype Build = Build(owner: User, revision: nat, content: Content, sharing: Sharing)

  datatype Status = Pending | Applied | Rejected | Superseded | Conflict

  datatype Proposal = Proposal(id: nat, user: User, ops: Ops, base: nat, preview: Content, status: Status,
                               appliedRevision: Option<nat>)

  /** What a request in flight is for; a proposal is tried twice. */
  datatype Task = Propose(ops: Ops, retry: bool) | Refresh(id: nat, ops: Ops, base: nat)

  /** How far it got: the build row, its nodes and its edges are read one after
      the other, outside any transaction. */
  datatype Stage =
    | Started
    | RowRead(revision: nat, row: Content)
    | NodesRead(revision: nat, row: Content, nodes: Nodes)
    | Loaded(revision: nat, content: Content)
    | Unfit
    | Previewed(revision: nat, ops: Ops, preview: Content)

  datatype Worker = Worker(user: User, task: Task, stage: Stage)

  /** The history is a record of what each revision stood for; the program does not keep it. */
  datatype State = State(build: Build, proposals: seq<Proposal>, nextId: nat, workers: map<nat, Worker>,
                         history: map<nat, Content>)

  // ---- proposals as a list, oldest first ----

  /** The position of a proposal, -1 when there is none with that id. */
  function Position(ps: seq<Proposal>, id: nat): (at: int)
    ensures -1 <= at < |ps| && (at >= 0 ==> ps[at].id == id)
  {
    if |ps| == 0 then -1
    else if ps[|ps| - 1].id == id then |ps| - 1
    else Position(ps[..|ps| - 1], id)
  }

  /** A user's proposal that is still pending: -1 otherwise. */
  function PendingAt(ps: seq<Proposal>, user: User, id: nat): (at: int)
    ensures -1 <= at < |ps| && (at >= 0 ==> ps[at].id == id && ps[at].status == Pending)
  {
    var at := Position(ps, id);
    if at >= 0 && ps[at].user == user && ps[at].status == Pending then at else -1
  }

  function Superseding(p: Proposal): Proposal {
    if p.status == Pending then p.(status := Superseded) else p
  }

  function SupersedeAll(ps: seq<Proposal>): (all: seq<Proposal>)
    ensures |all| == |ps|
  {
    if |ps| == 0 then [] else SupersedeAll(ps[..|ps| - 1]) + [Superseding(ps[|ps| - 1])]
  }

  function SettledCount(ps: seq<Proposal>): nat {
    if |ps| == 0 then 0
    else SettledCount(ps[..|ps| - 1]) + if ps[|ps| - 1].status == Pending then 0 else 1
  }

  /** Drops settled proposals beyond the newest, up to a limit per call; later is
      how many settled ones are newer than all of these. */
  function Prune(ps: seq<Proposal>, later: nat): seq<Proposal> {
    if |ps| == 0 then []
    else
      var front, last := ps[..|ps| - 1], ps[|ps| - 1];
      if last.status == Pending then Prune(front, later) + [last]
      else if later < KEPT_SETTLED || later >= KEPT_SETTLED + PRUNE_LIMIT then Prune(front, later + 1) + [last]
      else Prune(front, later + 1)
  }

  function Created(id: nat, user: User, ops: Ops, base: nat, preview: Content): Proposal {
    Proposal(id, user, ops, base, preview, Pending, None)
  }

  // ---- the steps ----

  /** Steps carry what the outside decides: who asks, what is submitted, the salt
      new ids are drawn from, and whether the database works. */
  datatype Step =
    | OwnerSave(user: User, revision: nat, draft: Draft, works: bool)
    | ShareSave(token: Token, revision: nat, draft: Draft, works: bool)
    | Rename(user: User, name: string, revision: nat, works: bool)
    | Share(user: User, sharing: Sharing, works: bool)
    | ConvertLegacy(works: bool)
    | BeginPropose(worker: nat, user: User, ops: Ops)
    | BeginRefresh(worker: nat, user: User, id: nat)
    | Advance(worker: nat, salt: nat, works: bool)
    | Apply(user: User, id: nat, works: bool)
    | Reject(user: User, id: nat, works: bool)

  /** The build after a commit of new content. */
  function Committed(b: Build, content: Content): Build { b.(revision := b.revision + 1, content := content) }

  function SaveBuild(w: World, b: Build, revision: nat, d: Draft, works: bool): Build {
    if !works || revision != b.revision || SaveContent(w, b.content, d).None? then b
    else Committed(b, SaveContent(w, b.content, d).value)
  }

  /** A save through a share link never changes the kind or the plan. */
  function SharedDraft(d: Draft): Draft { d.(kind := None, plan := None) }

  function RenameBuild(b: Build, user: User, name: string, revision: nat, works: bool): Build {
    var trimmed := TrimSpace(name);
    if !works || |trimmed| == 0 || user != b.owner || revision != b.revision then b
    else Committed(b, b.content.(name := trimmed))
  }

  function ConvertBuild(w: World, b: Build, works: bool): Build {
    var converted := w.convert(b.content.nodes, b.content.edges);
    if !works || converted.None? then b
    else Committed(b, b.content.(nodes := converted.value.0, edges := converted.value.1))
  }

  function BuildAfter(w: World, b: Build, ps: seq<Proposal>, step: Step): Build {
    match step
    case OwnerSave(user, revision, draft, works) =>
      if user == b.owner then SaveBuild(w, b, revision, draft, works) else b
    case ShareSave(token, revision, draft, works) =>
      if b.sharing.token == Some(token) && b.sharing.shared && b.sharing.editable
      then SaveBuild(w, b, revision, SharedDraft(draft), works) else b
    case Rename(user, name, revision, works) => RenameBuild(b, user, name, revision, works)
    case Share(user, sharing, works) => if works && user == b.owner then b.(sharing := sharing) else b
    case ConvertLegacy(works) => ConvertBuild(w, b, works)
    case Apply(user, id, works) => ApplyBuild(w, b, ps, user, id, works)
    case _ => b
  }

  /** Apply replays the operations on the latest revision. */
  function ApplyBuild(w: World, b: Build, ps: seq<Proposal>, user: User, id: nat, works: bool): Build {
    var at := PendingAt(ps, user, id);
    if !works || at < 0 || user != b.owner || DryRun(w, b.content, ps[at].ops).None? then b
    else Committed(b, DryRun(w, b.content, ps[at].ops).value)
  }

  function ApplyProposals(w: World, b: Build, ps: seq<Proposal>, user: User, id: nat, works: bool): seq<Proposal> {
    var at := PendingAt(ps, user, id);
    if !works || at < 0 || user != b.owner then ps
    else if DryRun(w, b.content, ps[at].ops).None? then ps[at := ps[at].(status := Conflict)]
    else ps[at := ps[at].(status := Applied, appliedRevision := Some(b.revision + 1))]
  }

  function RejectProposals(ps: seq<Proposal>, user: User, id: nat, works: bool): seq<Proposal> {
    var at := PendingAt(ps, user, id);
    if !works || at < 0 then ps else ps[at := ps[at].(status := Rejected)]
  }

  /** Storing a proposal replaces the pending one and prunes, in one transaction. */
  function StoreProposal(ps: seq<Proposal>, p: Proposal): seq<Proposal> {
    Prune(SupersedeAll(ps) + [p], 0)
  }

  /** A refresh writes only while the proposal is pending. */
  function RefreshProposal(ps: seq<Proposal>, id: nat, base: nat, preview: Content): seq<Proposal> {
    var at := Position(ps, id);
    if at < 0 || ps[at].status != Pending then ps else ps[at := ps[at].(base := base, preview := preview)]
  }

  function ConflictProposal(ps: seq<Proposal>, id: nat): seq<Proposal> {
    var at := Position(ps, id);
    if at < 0 || ps[at].status != Pending then ps else ps[at := ps[at].(status := Conflict)]
  }

  /** Where a request in flight goes next; None when it is over. A preview locks the
      build and takes the read graph only at the revision it was read at. */
  function NextWorker(w: World, b: Build, wk: Worker, salt: nat): Option<Worker> {
    match wk.stage
    case Started =>
      if wk.user != b.owner || (wk.task.Refresh? && b.revision == wk.task.base) then None
      else Some(wk.(stage := RowRead(b.revision, b.content)))
    case RowRead(revision, row) => Some(wk.(stage := NodesRead(revision, row, b.content.nodes)))
    case NodesRead(revision, row, nodes) =>
      Some(wk.(stage := Loaded(revision, row.(nodes := nodes, edges := b.content.edges))))
    case Loaded(revision, content) => PreviewStep(w, b, wk, revision, content, salt)
    case Unfit => None
    case Previewed(_, _, _) => None
  }

  function PreviewStep(w: World, b: Build, wk: Worker, revision: nat, content: Content, salt: nat): Option<Worker> {
    match wk.task
    case Propose(ops, retry) =>
      var resolved := w.resolve(content, ops, salt);
      if resolved.None? then None
      else if revision != b.revision then if retry then None else Some(Worker(wk.user, Propose(ops, true), Started))
      else
        var preview := SaveContent(w, b.content, resolved.value.draft);
        if preview.None? || !w.differs(content, preview.value) then None
        else Some(wk.(stage := Previewed(revision, resolved.value.ops, preview.value)))
    case Refresh(_, ops, _) =>
      var draft := w.replay(content, ops);
      if draft.None? then Some(wk.(stage := Unfit))
      else if revision != b.revision then None
      else
        var preview := SaveContent(w, b.content, draft.value);
        if preview.None? then Some(wk.(stage := Unfit))
        else Some(wk.(stage := Previewed(revision, ops, preview.value)))
  }

  /** What a request that is ready to write makes of the proposals. */
  function WorkerWrites(ps: seq<Proposal>, nextId: nat, wk: Worker): seq<Proposal> {
    if wk.stage.Previewed? then
      match wk.task
      case Propose(_, _) => StoreProposal(ps,
                                          Created(nextId, wk.user, wk.stage.ops, wk.stage.revision, wk.stage.preview))
      case Refresh(id, _, _) => RefreshProposal(ps, id, wk.stage.revision, wk.stage.preview)
    else if wk.stage.Unfit? && wk.task.Refresh? then ConflictProposal(ps, wk.task.id)
    else ps
  }

  predicate StoresProposal(wk: Worker) { wk.stage.Previewed? && wk.task.Propose? }

  function AdvanceState(w: World, s: State, k: nat, salt: nat, works: bool): State
    requires k in s.workers
  {
    var wk := s.workers[k];
    if !works then s.(workers := s.workers - {k})
    else
      var next := NextWorker(w, s.build, wk, salt);
      State(s.build, WorkerWrites(s.proposals, s.nextId, wk), if StoresProposal(wk) then s.nextId + 1 else s.nextId,
            if next.Some? then s.workers[k := next.value] else s.workers - {k}, s.history)
  }

  function ProposalsAfter(w: World, b: Build, ps: seq<Proposal>, step: Step): seq<Proposal> {
    match step
    case Apply(user, id, works) => ApplyProposals(w, b, ps, user, id, works)
    case Reject(user, id, works) => RejectProposals(ps, user, id, works)
    case _ => ps
  }

  function Next(w: World, s: State, step: Step): State {
    match step
    case BeginPropose(k, user, ops) =>
      if k in s.workers then s else s.(workers := s.workers[k := Worker(user, Propose(ops, false), Started)])
    case BeginRefresh(k, user, id) =>
      var at := PendingAt(s.proposals, user, id);
      if k in s.workers || at < 0 then s
      else s.(workers := s.workers[k := Worker(user, Refresh(id, s.proposals[at].ops, s.proposals[at].base), Started)])
    case Advance(k, salt, works) => if k in s.workers then AdvanceState(w, s, k, salt, works) else s
    case _ =>
      var b := BuildAfter(w, s.build, s.proposals, step);
      s.(build := b, proposals := ProposalsAfter(w, s.build, s.proposals, step),
         history := s.history[b.revision := b.content])
  }

  /** The state after the first n steps of a run. */
  function StateAt(w: World, s: State, steps: seq<Step>, n: nat): State
    requires n <= |steps|
  {
    if n == 0 then s else Next(w, StateAt(w, s, steps, n - 1), steps[n - 1])
  }

  // ---- a revision identifies content ----

  /** A step leaves revision and content alone, or takes the next revision. */
  ghost predicate Advances(b: Build, c: Build) {
    c.owner == b.owner && ((c.revision == b.revision && c.content == b.content) || c.revision == b.revision + 1)
  }

  lemma StepAdvances(w: World, s: State, step: Step)
    ensures Advances(s.build, Next(w, s, step).build)
  {
  }

  /** Over any interleaving, two states with equal revision hold equal content. */
  lemma {:induction false} RevisionIdentifiesContent(w: World, s: State, steps: seq<Step>, i: nat, j: nat)
    requires i <= j <= |steps|
    ensures var b, c := StateAt(w, s, steps, i).build, StateAt(w, s, steps, j).build;
            && b.owner == c.owner && b.revision <= c.revision
            && (b.revision == c.revision ==> b.content == c.content)
  {
    hide Next;
    if i < j {
      RevisionIdentifiesContent(w, s, steps, i, j - 1);
      StepAdvances(w, StateAt(w, s, steps, j - 1), steps[j - 1]);
    }
  }
}
