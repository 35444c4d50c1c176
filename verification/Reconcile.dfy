/** Comparing a plan with what a cluster runs, host by host, and the accounts of the
    comparison (backend/internal/proxmox/reconcile.go, Reconcile). */
module Reconcile {
  import opened Wrappers
  import opened Matching
  import opened GuestMatching
  import opened Text

  datatype FigureState = Same | Differs | Unknown
  datatype Figure = Figure(planned: real, actual: real, state: FigureState)

  datatype RowState = Matched | Discovered | Missing

  /** One guest of the comparison; planned is its place among the device's planned guests. */
  datatype GuestRow = GuestRow(
    state: RowState, vmid: int, planned: Option<nat>, plannedId: Option<Id>, matchedBy: Option<MatchedBy>,
    cpus: Figure, memoryMb: Figure, differs: bool)

  /** How much of a host its guests take: by the plan, and really. */
  datatype Load = Load(capacity: real, planned: real, actual: real)

  datatype Loads = Loads(vcpus: Load, memoryMb: Load, diskGb: Load)

  datatype HostReport = HostReport(node: string, skipped: bool, plannedId: Option<Id>, rows: seq<GuestRow>,
                                   loads: Loads)

  datatype Counts = Counts(matched: nat, differing: nat, discovered: nat, missing: nat)

  datatype Reconciliation = Reconciliation(hosts: seq<HostReport>, totals: Loads, counts: Counts)

  const NO_LOAD := Load(0.0, 0.0, 0.0)
  const NO_LOADS := Loads(NO_LOAD, NO_LOAD, NO_LOAD)
  const DEFAULT_MEMORY_MB := 512.0
  const DEFAULT_CPUS := 1.0
  const DEFAULT_DISK_GB := 10.0

  function AddLoad(a: Load, b: Load): Load {
    Load(a.capacity + b.capacity, a.planned + b.planned, a.actual + b.actual)
  }

  function AddLoads(a: Loads, b: Loads): Loads {
    Loads(AddLoad(a.vcpus, b.vcpus), AddLoad(a.memoryMb, b.memoryMb), AddLoad(a.diskGb, b.diskGb))
  }

  predicate Consumes(status: string) { status != "stopped" }

  function OrDefault(value: real, fallback: real): real { if value > 0.0 then value else fallback }

  /** To the nearest whole number, halves away from zero. */
  function Round(x: real): real {
    if x >= 0.0 then (x + 0.5).Floor as real else -((0.5 - x).Floor as real)
  }

  function Compare(planned: real, actual: real, same: bool): Figure {
    Figure(planned, actual, if planned > 0.0 && actual > 0.0 then if same then Same else Differs else Unknown)
  }

  // ---- the guests of a host ----

  function InsertByVmid(guests: seq<Guest>, g: Guest): seq<Guest> {
    if guests == [] || guests[|guests| - 1].vmid <= g.vmid then guests + [g]
    else InsertByVmid(guests[..|guests| - 1], g) + [guests[|guests| - 1]]
  }

  /** The guests on a host without templates, by id; equal ids keep their order. */
  function GuestsOn(guests: seq<Guest>, node: string): seq<Guest> {
    if guests == [] then []
    else
      var front, g := GuestsOn(guests[..|guests| - 1], node), guests[|guests| - 1];
      if g.node == node && !g.template then InsertByVmid(front, g) else front
  }

  predicate ByVmid(guests: seq<Guest>) {
    |guests| <= 1 || (guests[|guests| - 2].vmid <= guests[|guests| - 1].vmid && ByVmid(guests[..|guests| - 1]))
  }

  lemma {:induction false} InsertByVmidSorts(guests: seq<Guest>, g: Guest)
    requires ByVmid(guests)
    ensures ByVmid(InsertByVmid(guests, g))
    ensures var all := InsertByVmid(guests, g);
            all[|all| - 1] == g || (|guests| > 0 && all[|all| - 1] == guests[|guests| - 1])
  {
    var all := InsertByVmid(guests, g);
    if |guests| == 0 || guests[|guests| - 1].vmid <= g.vmid {
      assert all[..|guests|] == guests;
    } else {
      InsertByVmidSorts(guests[..|guests| - 1], g);
      assert all[..|all| - 1] == InsertByVmid(guests[..|guests| - 1], g);
    }
  }

  /** The guests of a host are matched in the order of their ids. */
  lemma {:induction false} GuestsOnSorted(guests: seq<Guest>, node: string)
    ensures ByVmid(GuestsOn(guests, node))
  {
    if |guests| > 0 {
      var front, g := guests[..|guests| - 1], guests[|guests| - 1];
      GuestsOnSorted(front, node);
      InsertByVmidSorts(GuestsOn(front, node), g);
    }
  }

  /** How many guests, templates left out, are on these hosts. */
  function CountOn(guests: seq<Guest>, nodes: set<string>): nat {
    if guests == [] then 0
    else
      var g := guests[|guests| - 1];
      CountOn(guests[..|guests| - 1], nodes) + if g.node in nodes && !g.template then 1 else 0
  }

  lemma {:induction false} InsertLength(guests: seq<Guest>, g: Guest)
    ensures |InsertByVmid(guests, g)| == |guests| + 1
  {
    if guests != [] && guests[|guests| - 1].vmid > g.vmid {
      InsertLength(guests[..|guests| - 1], g);
    }
  }

  lemma {:induction false} GuestsOnCounted(guests: seq<Guest>, node: string)
    ensures |GuestsOn(guests, node)| == CountOn(guests, {node})
  {
    if guests != [] {
      GuestsOnCounted(guests[..|guests| - 1], node);
      InsertLength(GuestsOn(guests[..|guests| - 1], node), guests[|guests| - 1]);
    }
  }

  lemma {:induction false} CountOnMore(guests: seq<Guest>, nodes: set<string>, node: string)
    requires node !in nodes
    ensures CountOn(guests, nodes + {node}) == CountOn(guests, nodes) + CountOn(guests, {node})
  {
    if guests != [] {
      CountOnMore(guests[..|guests| - 1], nodes, node);
    }
  }

  // ---- one host ----

  function ActualRow(planned: seq<PlannedGuest>, guest: Guest, m: Option<Match>): GuestRow
    requires m.Some? ==> m.value.planned < |planned|
  {
    var memory := guest.memoryMb as real;
    match m
    case None =>
      GuestRow(Discovered, guest.vmid, None, None, None, Figure(0.0, guest.cpus, Unknown), Figure(0.0, memory, Unknown),
               false)
    case Some(Match(p, how)) =>
      var plan := planned[p];
      var cpus := Compare(plan.cpus, guest.cpus, plan.cpus == guest.cpus);
      var mem := Compare(plan.memoryMb as real, memory, plan.memoryMb == guest.memoryMb);
      GuestRow(Matched, guest.vmid, Some(p), Some(plan.id), Some(how), cpus, mem,
               cpus.state == Differs || mem.state == Differs || (plan.status != "" && plan.status != guest.status))
  }

  function MissingRow(planned: seq<PlannedGuest>, p: nat): GuestRow
    requires p < |planned|
  {
    GuestRow(Missing, planned[p].vmid, Some(p), Some(planned[p].id), None,
             Figure(planned[p].cpus, 0.0, Unknown), Figure(planned[p].memoryMb as real, 0.0, Unknown), false)
  }

  function MatchOf(pairs: map<nat, Match>, a: nat): Option<Match> {
    if a in pairs then Some(pairs[a]) else None
  }

  // What the guests take, as sums over them.

  /** A stopped guest takes disk space only. */
  function ActualLoad(g: Guest): Loads {
    Loads(Load(0.0, 0.0, if Consumes(g.status) then g.cpus else 0.0),
          Load(0.0, 0.0, if Consumes(g.status) then g.memoryMb as real else 0.0),
          Load(0.0, 0.0, g.diskGb))
  }

  function ActualLoads(guests: seq<Guest>): Loads {
    if guests == [] then NO_LOADS else AddLoads(ActualLoads(guests[..|guests| - 1]), ActualLoad(guests[|guests| - 1]))
  }

  /** A planned guest without a size counts with the usual one. */
  function PlannedLoad(g: PlannedGuest): Loads {
    Loads(Load(0.0, if Consumes(g.status) then OrDefault(g.cpus, DEFAULT_CPUS) else 0.0, 0.0),
          Load(0.0, if Consumes(g.status) then OrDefault(g.memoryMb as real, DEFAULT_MEMORY_MB) else 0.0, 0.0),
          Load(0.0, OrDefault(g.diskGb, DEFAULT_DISK_GB), 0.0))
  }

  function PlannedLoads(guests: seq<PlannedGuest>): Loads {
    if guests == [] then NO_LOADS else AddLoads(PlannedLoads(guests[..|guests| - 1]), PlannedLoad(guests[|guests| - 1]))
  }

  /** Planned and actual side by side; disks are rounded once, at the end. */
  function Together(planned: Loads, actual: Loads, capacity: Loads): Loads {
    Loads(Load(capacity.vcpus.capacity, planned.vcpus.planned, actual.vcpus.actual),
          Load(capacity.memoryMb.capacity, planned.memoryMb.planned, actual.memoryMb.actual),
          Load(capacity.diskGb.capacity, Round(planned.diskGb.planned), Round(actual.diskGb.actual)))
  }

  /** What a host holds; a host without figures is taken to be as planned. */
  function CapacityOf(node: Node, storage: real, plan: Option<PlannedHost>): Loads {
    var threads, memory := node.threads as real, node.memoryMb as real;
    if plan.None? then Loads(Load(threads, 0.0, 0.0), Load(memory, 0.0, 0.0), Load(storage, 0.0, 0.0))
    else
      Loads(Load(OrDefault(threads, plan.value.cpus), 0.0, 0.0),
            Load(OrDefault(memory, plan.value.ramGb * 1024.0), 0.0, 0.0),
            Load(OrDefault(storage, plan.value.storageGb), 0.0, 0.0))
  }

  /** Every planned guest is in exactly one row, and every running guest in its own. */
  ghost predicate RowsConserve(planned: seq<PlannedGuest>, actual: seq<Guest>, rows: seq<GuestRow>) {
    && |rows| >= |actual|
    && (forall a :: 0 <= a < |actual| ==> rows[a].vmid == actual[a].vmid && !rows[a].state.Missing?)
    && (forall r :: |actual| <= r < |rows| ==> rows[r].state.Missing?)
    && (forall r :: 0 <= r < |rows| ==>
          match rows[r].planned
          case None => rows[r].plannedId.None? && rows[r].state.Discovered?
          case Some(p) => p < |planned| && rows[r].plannedId == Some(planned[p].id) && !rows[r].state.Discovered?)
    && (forall r, s :: 0 <= r < s < |rows| && rows[r].planned.Some? ==> rows[r].planned != rows[s].planned)
    && (forall p :: 0 <= p < |planned| ==> Lists(rows, p))
  }

  function CountRow(counts: Counts, row: GuestRow): Counts {
    match row.state
    case Matched => counts.(matched := counts.matched + 1, differing := counts.differing + if row.differs then 1 else 0)
    case Discovered => counts.(discovered := counts.discovered + 1)
    case Missing => counts.(missing := counts.missing + 1)
  }

  const NO_COUNTS := Counts(0, 0, 0, 0)

  /** How many rows are in which state, and how many matched ones differ. */
  function CountsOf(rows: seq<GuestRow>): Counts {
    if rows == [] then NO_COUNTS else CountRow(CountsOf(rows[..|rows| - 1]), rows[|rows| - 1])
  }

  /** The rows say exactly this matching: each running guest beside its match, and
      each planned guest without one. */
  ghost predicate Shows(planned: seq<PlannedGuest>, actual: seq<Guest>, pairs: map<nat, Match>, rows: seq<GuestRow>) {
    && WellMatched(planned, actual, pairs) && |rows| >= |actual|
    && (forall a :: 0 <= a < |actual| ==> rows[a] == ActualRow(planned, actual[a], MatchOf(pairs, a)))
    && (forall r :: |actual| <= r < |rows| ==> IsMissing(planned, UsedBy(pairs), rows[r]))
  }

  /** The rows come from a matching that is one to one, fits, and is as large as can be. */
  ghost predicate RowsMatch(planned: seq<PlannedGuest>, actual: seq<Guest>, rows: seq<GuestRow>) {
    exists pairs :: Shows(planned, actual, pairs, rows)
  }

  /** Counted over a host, the running guests are the matched and the discovered,
      and the planned are the matched and the missing. */
  ghost predicate CountsConserve(planned: seq<PlannedGuest>, actual: seq<Guest>, counts: Counts) {
    && counts.matched + counts.discovered == |actual|
    && counts.matched + counts.missing == |planned|
    && counts.differing <= counts.matched
  }

  ghost function UsedBefore(pairs: map<nat, Match>, a: nat): set<nat> {
    set b | b in pairs && b < a :: pairs[b].planned
  }

  /** No planned guest is matched twice. */
  ghost predicate MatchedOnce(pairs: map<nat, Match>, planned: nat, actual: nat) {
    && (forall a <- pairs :: a < actual && pairs[a].planned < planned)
    && (forall a, b :: a in pairs && b in pairs && pairs[a].planned == pairs[b].planned ==> a == b)
  }

  lemma UsedMore(pairs: map<nat, Match>, planned: nat, actual: nat, a: nat)
    requires MatchedOnce(pairs, planned, actual)
    ensures UsedBefore(pairs, a + 1) == if a in pairs then UsedBefore(pairs, a) + {pairs[a].planned}
            else UsedBefore(pairs, a)
    ensures |UsedBefore(pairs, a + 1)| == |UsedBefore(pairs, a)| + if a in pairs then 1 else 0
  {
    forall p ensures p in UsedBefore(pairs, a + 1) <==>
      p in UsedBefore(pairs, a) || (a in pairs && p == pairs[a].planned)
    {
      if b :| b in pairs && b < a + 1 && pairs[b].planned == p {
        assert b < a ==> p in UsedBefore(pairs, a);
      }
    }
  }

  method ActualRows(planned: seq<PlannedGuest>, actual: seq<Guest>, pairs: map<nat, Match>)
    returns (rows: seq<GuestRow>)
    requires MatchedOnce(pairs, |planned|, |actual|)
    ensures |rows| == |actual|
    ensures forall a :: 0 <= a < |actual| ==> rows[a] == ActualRow(planned, actual[a], MatchOf(pairs, a))
  {
    rows := [];
    for a := 0 to |actual|
      invariant |rows| == a
      invariant forall b :: 0 <= b < a ==> rows[b] == ActualRow(planned, actual[b], MatchOf(pairs, b))
    {
      rows := rows + [ActualRow(planned, actual[a], MatchOf(pairs, a))];
    }
  }

  lemma CountsMore(rows: seq<GuestRow>, row: GuestRow)
    ensures CountsOf(rows + [row]) == CountRow(CountsOf(rows), row)
  {
    var more := rows + [row];
    assert more[..|more| - 1] == rows;
  }

  /** Of running guests only, the counts are those of the matching. */
  lemma {:induction false} CountsOfRunning(rows: seq<GuestRow>, pairs: map<nat, Match>, planned: nat, actual: nat)
    requires MatchedOnce(pairs, planned, actual)
    requires forall a :: 0 <= a < |rows| ==> rows[a].state == if a in pairs then Matched else Discovered
    ensures var counts := CountsOf(rows);
            && counts.matched == |UsedBefore(pairs, |rows|)| && counts.matched + counts.discovered == |rows|
            && counts.missing == 0 && counts.differing <= counts.matched
  {
    if rows == [] {
      assert UsedBefore(pairs, 0) == {};
    } else {
      CountsOfRunning(rows[..|rows| - 1], pairs, planned, actual);
      UsedMore(pairs, planned, actual, |rows| - 1);
    }
  }

  lemma NothingCounted(pairs: map<nat, Match>, rows: seq<GuestRow>)
    ensures UsedBefore(pairs, 0) == {} && CountsOf(rows[..0]) == NO_COUNTS
  {
  }

  /** Counts the running guests and marks the planned ones they are. */
  method TallyActual(rows: seq<GuestRow>, pairs: map<nat, Match>, ghost planned: nat)
    returns (seen: set<nat>, counts: Counts)
    requires MatchedOnce(pairs, planned, |rows|)
    requires forall a :: 0 <= a < |rows| ==> rows[a].state == if a in pairs then Matched else Discovered
    ensures seen == UsedBefore(pairs, |rows|) && |seen| == counts.matched
    ensures counts == CountsOf(rows)
    ensures counts.matched + counts.discovered == |rows| && counts.missing == 0 && counts.differing <= counts.matched
  {
    hide UsedBefore, CountsOf, MatchedOnce;
    CountsOfRunning(rows, pairs, planned, |rows|);
    NothingCounted(pairs, rows);
    seen, counts := {}, NO_COUNTS;
    for a := 0 to |rows|
      invariant seen == UsedBefore(pairs, a) && counts == CountsOf(rows[..a])
    {
      UsedMore(pairs, planned, |rows|, a);
      assert rows[..a + 1] == rows[..a] + [rows[a]];
      CountsMore(rows[..a], rows[a]);
      if a in pairs {
        seen := seen + {pairs[a].planned};
        counts := counts.(matched := counts.matched + 1);
        if rows[a].differs {
          counts := counts.(differing := counts.differing + 1);
        }
      } else {
        counts := counts.(discovered := counts.discovered + 1);
      }
    }
    assert rows[..|rows|] == rows;
  }

  lemma {:induction false} CountsWithMissing(found: seq<GuestRow>, missing: seq<GuestRow>)
    requires forall r <- missing :: r.state.Missing?
    ensures CountsOf(found + missing) == CountsOf(found).(missing := CountsOf(found).missing + |missing|)
  {
    if missing == [] {
      assert found + missing == found;
    } else {
      var front, last := missing[..|missing| - 1], missing[|missing| - 1];
      CountsWithMissing(found, front);
      assert found + missing == (found + front) + [last];
      CountsMore(found + front, last);
    }
  }

  method SumActual(actual: seq<Guest>) returns (loads: Loads)
    ensures loads == ActualLoads(actual)
  {
    loads := NO_LOADS;
    for a := 0 to |actual|
      invariant loads == ActualLoads(actual[..a])
    {
      assert actual[..a + 1][..a] == actual[..a];
      loads := AddLoads(loads, ActualLoad(actual[a]));
    }
    assert actual[..|actual|] == actual;
  }

  method SumPlanned(planned: seq<PlannedGuest>) returns (loads: Loads)
    ensures loads == PlannedLoads(planned)
  {
    loads := NO_LOADS;
    for p := 0 to |planned|
      invariant loads == PlannedLoads(planned[..p])
    {
      assert planned[..p + 1][..p] == planned[..p];
      loads := AddLoads(loads, PlannedLoad(planned[p]));
    }
    assert planned[..|planned|] == planned;
  }

  ghost predicate IsMissing(planned: seq<PlannedGuest>, seen: set<nat>, row: GuestRow) {
    && row.planned.Some? && row.planned.value < |planned| && row.planned.value !in seen
    && row == MissingRow(planned, row.planned.value)
  }

  ghost predicate Lists(rows: seq<GuestRow>, p: nat) {
    exists r :: 0 <= r < |rows| && rows[r].planned == Some(p)
  }

  /** The rows list the planned guests below n that were not seen, each once. */
  ghost predicate ListsMissing(planned: seq<PlannedGuest>, seen: set<nat>, rows: seq<GuestRow>, n: nat) {
    && (forall r :: 0 <= r < |rows| ==> IsMissing(planned, seen, rows[r]) && rows[r].planned.value < n)
    && (forall r, s :: 0 <= r < s < |rows| ==> rows[r].planned != rows[s].planned)
    && (forall p :: 0 <= p < n && p !in seen ==> Lists(rows, p))
  }

  lemma OneMissingMore(planned: seq<PlannedGuest>, seen: set<nat>, rows: seq<GuestRow>, p: nat)
    requires p < |planned| && ListsMissing(planned, seen, rows, p)
    ensures ListsMissing(planned, seen, if p in seen then rows else rows + [MissingRow(planned, p)], p + 1)
  {
    if p !in seen {
      var more := rows + [MissingRow(planned, p)];
      assert more[|rows|].planned == Some(p);
      forall q | 0 <= q < p && q !in seen ensures Lists(more, q) {
        var r :| 0 <= r < |rows| && rows[r].planned == Some(q);
        assert more[r] == rows[r];
      }
    }
  }

  ghost function Below(seen: set<nat>, p: nat): set<nat> {
    set q | q in seen && q < p
  }

  lemma BelowMore(seen: set<nat>, p: nat)
    ensures |Below(seen, p + 1)| == |Below(seen, p)| + if p in seen then 1 else 0
  {
    assert Below(seen, p + 1) == if p in seen then Below(seen, p) + {p} else Below(seen, p);
  }

  method MissingRows(planned: seq<PlannedGuest>, seen: set<nat>) returns (rows: seq<GuestRow>)
    requires forall p <- seen :: p < |planned|
    ensures |rows| + |seen| == |planned| && ListsMissing(planned, seen, rows, |planned|)
  {
    assert Below(seen, 0) == {} && Below(seen, |planned|) == seen;
    rows := [];
    assert ListsMissing(planned, seen, rows, 0);
    hide Below, ListsMissing;
    for p := 0 to |planned|
      invariant |rows| + |Below(seen, p)| == p && ListsMissing(planned, seen, rows, p)
    {
      OneMissingMore(planned, seen, rows, p);
      BelowMore(seen, p);
      if p !in seen {
        rows := rows + [MissingRow(planned, p)];
      }
    }
  }

  lemma RowsTogether(planned: seq<PlannedGuest>, actual: seq<Guest>, pairs: map<nat, Match>, found: seq<GuestRow>,
                     missing: seq<GuestRow>)
    requires MatchedOnce(pairs, |planned|, |actual|) && |found| == |actual|
    requires forall a :: 0 <= a < |actual| ==> found[a] == ActualRow(planned, actual[a], MatchOf(pairs, a))
    requires ListsMissing(planned, UsedBefore(pairs, |actual|), missing, |planned|)
    ensures RowsConserve(planned, actual, found + missing)
  {
    var rows := found + missing;
    assert forall r :: 0 <= r < |rows| ==> rows[r] == if r < |found| then found[r] else missing[r - |found|];
    forall r, s | 0 <= r < s < |rows| && rows[r].planned.Some? ensures rows[r].planned != rows[s].planned {
      if r < |found| {
        assert rows[r].planned.value in UsedBefore(pairs, |actual|);
      }
    }
    forall p | 0 <= p < |planned| ensures Lists(rows, p) {
      if p in UsedBefore(pairs, |actual|) {
        var a :| a in pairs && a < |actual| && pairs[a].planned == p;
        assert rows[a] == found[a] && rows[a].planned == Some(p);
      } else {
        var r :| 0 <= r < |missing| && missing[r].planned == Some(p);
        assert rows[|found| + r] == missing[r];
      }
    }
  }

  lemma RowsShown(planned: seq<PlannedGuest>, actual: seq<Guest>, pairs: map<nat, Match>, found: seq<GuestRow>,
                  missing: seq<GuestRow>)
    requires WellMatched(planned, actual, pairs) && MatchedOnce(pairs, |planned|, |actual|) && |found| == |actual|
    requires forall a :: 0 <= a < |actual| ==> found[a] == ActualRow(planned, actual[a], MatchOf(pairs, a))
    requires ListsMissing(planned, UsedBefore(pairs, |actual|), missing, |planned|)
    ensures RowsMatch(planned, actual, found + missing)
  {
    var rows := found + missing;
    assert UsedBefore(pairs, |actual|) == UsedBy(pairs);
    forall r | |actual| <= r < |rows|
      ensures IsMissing(planned, UsedBy(pairs), rows[r])
    {
      assert rows[r] == missing[r - |found|];
    }
    assert Shows(planned, actual, pairs, rows);
  }

  /** The rows of one host and their counts. */
  method CompareGuests(planned: seq<PlannedGuest>, actual: seq<Guest>) returns (rows: seq<GuestRow>, counts: Counts)
    ensures RowsConserve(planned, actual, rows) && RowsMatch(planned, actual, rows)
    ensures counts == CountsOf(rows) && CountsConserve(planned, actual, counts)
  {
    var pairs := MatchGuests(planned, actual);
    assert MatchedOnce(pairs, |planned|, |actual|);
    hide WellMatched;
    var found := ActualRows(planned, actual, pairs);
    var seen;
    seen, counts := TallyActual(found, pairs, |planned|);
    var missing := MissingRows(planned, seen);
    counts := counts.(missing := |missing|);
    RowsTogether(planned, actual, pairs, found, missing);
    RowsShown(planned, actual, pairs, found, missing);
    CountsWithMissing(found, missing);
    rows := found + missing;
  }

  /** Compares one host with the planned device it is, if it is one. */
  method CompareHost(node: Node, plan: Option<PlannedHost>, actual: seq<Guest>, storage: real)
    returns (report: HostReport, counts: Counts)
    ensures var planned := if plan.Some? then plan.value.guests else [];
            && RowsConserve(planned, actual, report.rows) && RowsMatch(planned, actual, report.rows)
            && counts == CountsOf(report.rows) && CountsConserve(planned, actual, counts)
            && report.loads == Together(PlannedLoads(planned), ActualLoads(actual), CapacityOf(node, storage, plan))
    ensures report.node == node.name && !report.skipped
    ensures report.plannedId == if plan.Some? then Some(plan.value.id) else None
  {
    hide RowsConserve, RowsMatch;
    var planned := if plan.Some? then plan.value.guests else [];
    var rows;
    rows, counts := CompareGuests(planned, actual);
    var plannedLoads := SumPlanned(planned);
    var actualLoads := SumActual(actual);
    report := HostReport(node.name, false, if plan.Some? then Some(plan.value.id) else None, rows,
                         Together(plannedLoads, actualLoads, CapacityOf(node, storage, plan)));
  }

  // ---- all hosts ----

  datatype Storage = Storage(node: string, shared: bool, totalGb: real)

  datatype Snapshot = Snapshot(nodes: seq<Node>, guests: seq<Guest>, storage: seq<Storage>)

  /** What lives in a host itself; shared storage belongs to no single machine. */
  function LocalStorageGb(storage: seq<Storage>, node: string): real {
    if storage == [] then 0.0
    else
      var s := storage[|storage| - 1];
      LocalStorageGb(storage[..|storage| - 1], node) + if s.node == node && !s.shared then s.totalGb else 0.0
  }

  function HostStorageGb(snapshot: Snapshot, node: Node): real {
    var local := LocalStorageGb(snapshot.storage, node.name);
    Round(if local > 0.0 then local else node.diskGb)
  }

  function InsertByName(nodes: seq<Node>, n: Node): seq<Node> {
    if nodes == [] || !Before(n.name, nodes[|nodes| - 1].name) then nodes + [n]
    else InsertByName(nodes[..|nodes| - 1], n) + [nodes[|nodes| - 1]]
  }

  /** The hosts by name; equal names keep their order. */
  function SortedByName(nodes: seq<Node>): seq<Node> {
    if nodes == [] then [] else InsertByName(SortedByName(nodes[..|nodes| - 1]), nodes[|nodes| - 1])
  }

  lemma {:induction false} InsertKeeps(nodes: seq<Node>, n: Node)
    ensures multiset(InsertByName(nodes, n)) == multiset(nodes) + multiset{n}
  {
    hide Before;
    if nodes != [] && Before(n.name, nodes[|nodes| - 1].name) {
      InsertKeeps(nodes[..|nodes| - 1], n);
      assert nodes == nodes[..|nodes| - 1] + [nodes[|nodes| - 1]];
    }
  }

  lemma {:induction false} SortKeeps(nodes: seq<Node>)
    ensures multiset(SortedByName(nodes)) == multiset(nodes)
  {
    if nodes != [] {
      SortKeeps(nodes[..|nodes| - 1]);
      InsertKeeps(SortedByName(nodes[..|nodes| - 1]), nodes[|nodes| - 1]);
      assert nodes == nodes[..|nodes| - 1] + [nodes[|nodes| - 1]];
    }
  }

  /** No host comes before the one in front of it. */
  predicate ByName(nodes: seq<Node>) {
    |nodes| <= 1 || (!Before(nodes[|nodes| - 1].name, nodes[|nodes| - 2].name) && ByName(nodes[..|nodes| - 1]))
  }

  lemma {:induction false} InsertByNameSorts(nodes: seq<Node>, n: Node)
    requires ByName(nodes)
    ensures ByName(InsertByName(nodes, n))
    ensures var all := InsertByName(nodes, n);
            all[|all| - 1] == n || (|nodes| > 0 && all[|all| - 1] == nodes[|nodes| - 1])
  {
    hide Before;
    var all := InsertByName(nodes, n);
    if |nodes| == 0 || !Before(n.name, nodes[|nodes| - 1].name) {
      assert all[..|nodes|] == nodes;
    } else {
      var front, last := nodes[..|nodes| - 1], nodes[|nodes| - 1];
      InsertByNameSorts(front, n);
      BeforeTotal(n.name, last.name);
      assert all[..|all| - 1] == InsertByName(front, n);
    }
  }

  /** The hosts are compared in the order of their names. */
  lemma {:induction false} SortSorts(nodes: seq<Node>)
    ensures ByName(SortedByName(nodes))
  {
    if |nodes| > 0 {
      SortSorts(nodes[..|nodes| - 1]);
      InsertByNameSorts(SortedByName(nodes[..|nodes| - 1]), nodes[|nodes| - 1]);
    }
  }

  function PairingOf(pairs: map<string, Pairing>, name: string): Pairing {
    if name in pairs then pairs[name] else Pairing(None, Nothing, false)
  }

  /** The planned devices by id; a later one would win. */
  function DevicesById(planned: seq<PlannedHost>): map<Id, PlannedHost> {
    if planned == [] then map[]
    else DevicesById(planned[..|planned| - 1])[planned[|planned| - 1].id := planned[|planned| - 1]]
  }

  function PlanOf(byId: map<Id, PlannedHost>, p: Pairing): Option<PlannedHost> {
    if p.planned.Some? && p.planned.value in byId then Some(byId[p.planned.value]) else None
  }

  function PlannedGuests(byId: map<Id, PlannedHost>, p: Pairing): seq<PlannedGuest> {
    if PlanOf(byId, p).Some? then PlanOf(byId, p).value.guests else []
  }

  function TotalLoads(hosts: seq<HostReport>): Loads {
    if hosts == [] then NO_LOADS
    else
      var h := hosts[|hosts| - 1];
      if h.skipped then TotalLoads(hosts[..|hosts| - 1]) else AddLoads(TotalLoads(hosts[..|hosts| - 1]), h.loads)
  }

  function RunningOn(n: Node, guests: seq<Guest>, pairs: map<string, Pairing>): nat {
    if PairingOf(pairs, n.name).skip then 0 else |GuestsOn(guests, n.name)|
  }

  function PlannedOn(n: Node, byId: map<Id, PlannedHost>, pairs: map<string, Pairing>): nat {
    if PairingOf(pairs, n.name).skip then 0 else |PlannedGuests(byId, PairingOf(pairs, n.name))|
  }

  /** The running guests of these hosts, skipped ones left out, host by host. */
  function RunningTotal(nodes: seq<Node>, guests: seq<Guest>, pairs: map<string, Pairing>): nat {
    if nodes == [] then 0
    else RunningTotal(nodes[..|nodes| - 1], guests, pairs) + RunningOn(nodes[|nodes| - 1], guests, pairs)
  }

  /** The planned guests of the devices these hosts are. */
  function PlannedTotal(nodes: seq<Node>, byId: map<Id, PlannedHost>, pairs: map<string, Pairing>): nat {
    if nodes == [] then 0
    else PlannedTotal(nodes[..|nodes| - 1], byId, pairs) + PlannedOn(nodes[|nodes| - 1], byId, pairs)
  }

  /** One report is about this host and this device's guests, each once. */
  ghost predicate Reports(snapshot: Snapshot, byId: map<Id, PlannedHost>, pairs: map<string, Pairing>, n: Node,
                          h: HostReport)
  {
    var p := PairingOf(pairs, n.name);
    && h.node == n.name && (h.skipped <==> p.skip)
    && (p.skip ==> h.rows == [] && h.plannedId.None?)
    && (!p.skip ==>
          && h.plannedId == (if PlanOf(byId, p).Some? then Some(PlanOf(byId, p).value.id) else None)
          && RowsConserve(PlannedGuests(byId, p), GuestsOn(snapshot.guests, n.name), h.rows)
          && RowsMatch(PlannedGuests(byId, p), GuestsOn(snapshot.guests, n.name), h.rows)
          && h.loads == Together(PlannedLoads(PlannedGuests(byId, p)), ActualLoads(GuestsOn(snapshot.guests, n.name)),
                                 CapacityOf(n, HostStorageGb(snapshot, n), PlanOf(byId, p))))
  }

  /** One report for each host, in order. */
  ghost predicate AllReports(snapshot: Snapshot, byId: map<Id, PlannedHost>, pairs: map<string, Pairing>,
                             nodes: seq<Node>, hosts: seq<HostReport>)
  {
    && |hosts| == |nodes|
    && (nodes != [] ==>
          && AllReports(snapshot, byId, pairs, nodes[..|nodes| - 1], hosts[..|hosts| - 1])
          && Reports(snapshot, byId, pairs, nodes[|nodes| - 1], hosts[|hosts| - 1]))
  }

  lemma {:induction false} ReportAt(snapshot: Snapshot, byId: map<Id, PlannedHost>, pairs: map<string, Pairing>,
                                    nodes: seq<Node>,
                                    hosts: seq<HostReport>, i: nat)
    requires AllReports(snapshot, byId, pairs, nodes, hosts) && i < |nodes|
    ensures Reports(snapshot, byId, pairs, nodes[i], hosts[i])
  {
    if i < |nodes| - 1 {
      ReportAt(snapshot, byId, pairs, nodes[..|nodes| - 1], hosts[..|hosts| - 1], i);
    }
  }

  function AddCounts(a: Counts, b: Counts): Counts {
    Counts(a.matched + b.matched, a.differing + b.differing, a.discovered + b.discovered, a.missing + b.missing)
  }

  /** The rows of all reports, counted. */
  function TotalCounts(hosts: seq<HostReport>): Counts {
    if hosts == [] then NO_COUNTS else AddCounts(TotalCounts(hosts[..|hosts| - 1]), CountsOf(hosts[|hosts| - 1].rows))
  }

  /** A host that was left out is listed and adds nothing. */
  method CompareOrSkip(snapshot: Snapshot, byId: map<Id, PlannedHost>, pairs: map<string, Pairing>, node: Node)
    returns (report: HostReport, counts: Counts)
    ensures Reports(snapshot, byId, pairs, node, report) && counts == CountsOf(report.rows)
    ensures counts.matched + counts.discovered == RunningOn(node, snapshot.guests, pairs)
    ensures counts.matched + counts.missing == PlannedOn(node, byId, pairs)
  {
    hide RowsConserve, RowsMatch;
    var pair := PairingOf(pairs, node.name);
    if pair.skip {
      return HostReport(node.name, true, None, [], NO_LOADS), NO_COUNTS;
    }
    report, counts := CompareHost(node, PlanOf(byId, pair), GuestsOn(snapshot.guests, node.name),
                                  HostStorageGb(snapshot, node));
  }

  lemma TotalMore(hosts: seq<HostReport>, h: HostReport)
    ensures TotalLoads(hosts + [h]) == if h.skipped then TotalLoads(hosts) else AddLoads(TotalLoads(hosts), h.loads)
    ensures TotalCounts(hosts + [h]) == AddCounts(TotalCounts(hosts), CountsOf(h.rows))
  {
    var more := hosts + [h];
    assert more[..|more| - 1] == hosts;
  }

  lemma OneHostMore(snapshot: Snapshot, byId: map<Id, PlannedHost>, pairs: map<string, Pairing>, nodes: seq<Node>,
                    hosts: seq<HostReport>,
                    n: Node, h: HostReport)
    requires AllReports(snapshot, byId, pairs, nodes, hosts) && Reports(snapshot, byId, pairs, n, h)
    ensures AllReports(snapshot, byId, pairs, nodes + [n], hosts + [h])
    ensures RunningTotal(nodes + [n], snapshot.guests, pairs) ==
            RunningTotal(nodes, snapshot.guests, pairs) + RunningOn(n, snapshot.guests, pairs)
    ensures PlannedTotal(nodes + [n], byId, pairs) == PlannedTotal(nodes, byId, pairs) + PlannedOn(n, byId, pairs)
  {
    assert (nodes + [n])[..|nodes|] == nodes && (hosts + [h])[..|hosts|] == hosts;
  }

  /** Every host by name, with the totals added up on the way. */
  method CompareAll(snapshot: Snapshot, byId: map<Id, PlannedHost>, pairs: map<string, Pairing>, nodes: seq<Node>)
    returns (hosts: seq<HostReport>, totals: Loads, counts: Counts)
    ensures AllReports(snapshot, byId, pairs, nodes, hosts)
    ensures counts.matched + counts.discovered == RunningTotal(nodes, snapshot.guests, pairs)
    ensures counts.matched + counts.missing == PlannedTotal(nodes, byId, pairs)
    ensures totals == TotalLoads(hosts) && counts == TotalCounts(hosts)
  {
    hide Reports, CountsOf;
    hosts, totals, counts := [], NO_LOADS, NO_COUNTS;
    for i := 0 to |nodes|
      invariant AllReports(snapshot, byId, pairs, nodes[..i], hosts)
      invariant counts.matched + counts.discovered == RunningTotal(nodes[..i], snapshot.guests, pairs)
      invariant counts.matched + counts.missing == PlannedTotal(nodes[..i], byId, pairs)
      invariant totals == TotalLoads(hosts) && counts == TotalCounts(hosts)
    {
      assert nodes[..i + 1] == nodes[..i] + [nodes[i]];
      var report, found := CompareOrSkip(snapshot, byId, pairs, nodes[i]);
      OneHostMore(snapshot, byId, pairs, nodes[..i], hosts, nodes[i], report);
      TotalMore(hosts, report);
      totals := if report.skipped then totals else AddLoads(totals, report.loads);
      hosts, counts := hosts + [report], AddCounts(counts, found);
    }
    assert nodes[..|nodes|] == nodes;
  }

  // ---- the accounts of a whole comparison ----

  ghost predicate DistinctNames(nodes: seq<Node>) {
    forall i, j :: 0 <= i < j < |nodes| ==> nodes[i].name != nodes[j].name
  }

  ghost predicate DistinctDevices(planned: seq<PlannedHost>) {
    forall i, j :: 0 <= i < j < |planned| ==> planned[i].id != planned[j].id
  }

  /** No device is given to two hosts, as PairHosts guarantees. */
  ghost predicate GivenOnce(pairs: map<string, Pairing>) {
    forall m, n :: m in pairs && n in pairs && pairs[m].planned.Some? && pairs[m].planned == pairs[n].planned ==> m == n
  }

  ghost function ComparedNames(nodes: seq<Node>, pairs: map<string, Pairing>): set<string> {
    set n | n in nodes && !PairingOf(pairs, n.name).skip :: n.name
  }

  /** The devices the compared hosts are. */
  ghost function PairedDevices(nodes: seq<Node>, byId: map<Id, PlannedHost>, pairs: map<string, Pairing>): set<Id> {
    set n | n in nodes && !PairingOf(pairs, n.name).skip && PlanOf(byId, PairingOf(pairs, n.name)).Some? ::
      PairingOf(pairs, n.name).planned.value
  }

  function GuestsOfDevices(planned: seq<PlannedHost>, ids: set<Id>): nat {
    if planned == [] then 0
    else
      var h := planned[|planned| - 1];
      GuestsOfDevices(planned[..|planned| - 1], ids) + if h.id in ids then |h.guests| else 0
  }

  lemma {:induction false} RunningIsCounted(nodes: seq<Node>, guests: seq<Guest>, pairs: map<string, Pairing>)
    requires DistinctNames(nodes)
    ensures RunningTotal(nodes, guests, pairs) == CountOn(guests, ComparedNames(nodes, pairs))
  {
    if nodes == [] {
      NoneCounted(guests);
      assert ComparedNames(nodes, pairs) == {};
    } else {
      var front, n := nodes[..|nodes| - 1], nodes[|nodes| - 1];
      RunningIsCounted(front, guests, pairs);
      assert nodes == front + [n];
      if PairingOf(pairs, n.name).skip {
        assert ComparedNames(nodes, pairs) == ComparedNames(front, pairs);
      } else {
        assert ComparedNames(nodes, pairs) == ComparedNames(front, pairs) + {n.name};
        assert n.name !in ComparedNames(front, pairs);
        CountOnMore(guests, ComparedNames(front, pairs), n.name);
        GuestsOnCounted(guests, n.name);
      }
    }
  }

  lemma {:induction false} NoneCounted(guests: seq<Guest>)
    ensures CountOn(guests, {}) == 0
  {
    if guests != [] {
      NoneCounted(guests[..|guests| - 1]);
    }
  }

  lemma {:induction false} DeviceMore(planned: seq<PlannedHost>, ids: set<Id>, id: Id)
    requires DistinctDevices(planned) && id !in ids
    ensures id in DevicesById(planned) <==> exists h :: h in planned && h.id == id
    ensures GuestsOfDevices(planned, ids + {id}) ==
            GuestsOfDevices(planned, ids) + if id in DevicesById(planned) then |DevicesById(planned)[id].guests| else 0
  {
    if planned != [] {
      var front, h := planned[..|planned| - 1], planned[|planned| - 1];
      DeviceMore(front, ids, id);
      assert planned == front + [h];
    }
  }

  lemma {:induction false} NoDevices(planned: seq<PlannedHost>)
    ensures GuestsOfDevices(planned, {}) == 0
  {
    if planned != [] {
      NoDevices(planned[..|planned| - 1]);
    }
  }

  lemma {:induction false} PlannedIsCounted(nodes: seq<Node>, planned: seq<PlannedHost>, pairs: map<string, Pairing>)
    requires DistinctNames(nodes) && DistinctDevices(planned) && GivenOnce(pairs)
    ensures PlannedTotal(nodes, DevicesById(planned), pairs) ==
            GuestsOfDevices(planned, PairedDevices(nodes, DevicesById(planned), pairs))
  {
    hide DevicesById, GuestsOfDevices, DistinctDevices;
    var byId := DevicesById(planned);
    if nodes == [] {
      NoDevices(planned);
      assert PairedDevices(nodes, byId, pairs) == {};
    } else {
      var front, n := nodes[..|nodes| - 1], nodes[|nodes| - 1];
      PlannedIsCounted(front, planned, pairs);
      assert nodes == front + [n];
      var p := PairingOf(pairs, n.name);
      if p.skip || PlanOf(byId, p).None? {
        assert PairedDevices(nodes, byId, pairs) == PairedDevices(front, byId, pairs);
      } else {
        assert PairedDevices(nodes, byId, pairs) == PairedDevices(front, byId, pairs) + {p.planned.value};
        assert p.planned.value !in PairedDevices(front, byId, pairs);
        DeviceMore(planned, PairedDevices(front, byId, pairs), p.planned.value);
      }
    }
  }

  lemma SortedKeepsNames(nodes: seq<Node>)
    requires DistinctNames(nodes)
    ensures DistinctNames(SortedByName(nodes)) && forall n :: n in SortedByName(nodes) <==> n in nodes
  {
    var sorted := SortedByName(nodes);
    SortKeeps(nodes);
    forall n ensures n in sorted <==> n in nodes {
      assert n in multiset(sorted) <==> n in multiset(nodes);
    }
    forall i, j | 0 <= i < j < |sorted| ensures sorted[i].name != sorted[j].name {
      if sorted[i].name == sorted[j].name {
        assert sorted[i] in nodes && sorted[j] in nodes;
        assert sorted[i] == sorted[j];
        TwiceInMultiset(sorted, i, j);
        OnceInMultiset(nodes, sorted[i]);
      }
    }
  }

  lemma TwiceInMultiset(nodes: seq<Node>, i: nat, j: nat)
    requires i < j < |nodes| && nodes[i] == nodes[j]
    ensures multiset(nodes)[nodes[i]] >= 2
  {
    var front, back := nodes[..j], nodes[j..];
    assert nodes == front + back;
    assert front[i] in front && back[0] in back;
  }

  lemma {:induction false} OnceInMultiset(nodes: seq<Node>, n: Node)
    requires DistinctNames(nodes)
    ensures multiset(nodes)[n] <= 1
  {
    if nodes != [] {
      var front, last := nodes[..|nodes| - 1], nodes[|nodes| - 1];
      OnceInMultiset(front, n);
      assert nodes == front + [last];
      if n == last {
        assert n !in front;
      }
    }
  }

  /** Guest ids are unique over the whole plan. */
  ghost predicate DistinctGuests(planned: seq<PlannedHost>) {
    forall g, h, p, q ::
      && g in planned && h in planned && 0 <= p < |g.guests| && 0 <= q < |h.guests|
      && g.guests[p].id == h.guests[q].id
      ==> g == h && p == q
  }

  /** No planned guest is reported twice, on whatever hosts. */
  ghost predicate ReportedOnce(hosts: seq<HostReport>) {
    forall i, j, r, s :: 0 <= i < |hosts| && 0 <= j < |hosts| && SameGuest(hosts[i].rows, r, hosts[j].rows, s) ==>
      i == j && r == s
  }

  predicate SameGuest(a: seq<GuestRow>, r: int, b: seq<GuestRow>, s: int) {
    0 <= r < |a| && 0 <= s < |b| && a[r].plannedId.Some? && a[r].plannedId == b[s].plannedId
  }

  lemma DeviceIsPlanned(planned: seq<PlannedHost>, id: Id)
    requires id in DevicesById(planned)
    ensures DevicesById(planned)[id] in planned && DevicesById(planned)[id].id == id
  {
    if planned != [] {
      if planned[|planned| - 1].id != id {
        DeviceIsPlanned(planned[..|planned| - 1], id);
      }
    }
  }

  /** Two rows about one planned guest are one row of one report. */
  lemma RowsAboutOneGuest(snapshot: Snapshot, planned: seq<PlannedHost>, pairs: map<string, Pairing>, m: Node,
                          g: HostReport, n: Node, h: HostReport,
                          r: nat, s: nat)
    requires DistinctGuests(planned) && GivenOnce(pairs)
    requires Reports(snapshot, DevicesById(planned), pairs, m, g)
             && Reports(snapshot, DevicesById(planned), pairs, n, h)
    requires SameGuest(g.rows, r, h.rows, s)
    ensures m.name == n.name
    ensures g.rows == h.rows ==> r == s
  {
    var byId := DevicesById(planned);
    var p, q := PairingOf(pairs, m.name), PairingOf(pairs, n.name);
    assert RowsConserve(PlannedGuests(byId, p), GuestsOn(snapshot.guests, m.name), g.rows);
    assert RowsConserve(PlannedGuests(byId, q), GuestsOn(snapshot.guests, n.name), h.rows);
    assert g.rows[r].planned.Some? && h.rows[s].planned.Some?;
    DeviceIsPlanned(planned, p.planned.value);
    DeviceIsPlanned(planned, q.planned.value);
    var a, b := byId[p.planned.value], byId[q.planned.value];
    assert a.guests[g.rows[r].planned.value].id == b.guests[h.rows[s].planned.value].id;
    assert a == b && g.rows[r].planned == h.rows[s].planned;
  }

  /** The comparison of a whole cluster with a plan. Over distinct hosts and devices
      it conserves guests: what runs on the compared hosts is matched or discovered,
      what is planned on the devices they are is matched or missing, no planned
      guest is reported twice, and the totals are the sums of the hosts'. */
  method Reconcile(snapshot: Snapshot, planned: seq<PlannedHost>, pairs: map<string, Pairing>)
    returns (result: Reconciliation)
    ensures AllReports(snapshot, DevicesById(planned), pairs, SortedByName(snapshot.nodes), result.hosts)
    ensures result.totals == TotalLoads(result.hosts) && result.counts == TotalCounts(result.hosts)
    ensures DistinctNames(snapshot.nodes) ==>
              result.counts.matched + result.counts.discovered
              == CountOn(snapshot.guests, ComparedNames(snapshot.nodes, pairs))
    ensures DistinctNames(snapshot.nodes) && DistinctDevices(planned) && GivenOnce(pairs) ==>
              result.counts.matched + result.counts.missing
              == GuestsOfDevices(planned, PairedDevices(snapshot.nodes, DevicesById(planned), pairs))
    ensures DistinctNames(snapshot.nodes) && DistinctGuests(planned) && GivenOnce(pairs) ==> ReportedOnce(result.hosts)
  {
    var byId := DevicesById(planned);
    var nodes := SortedByName(snapshot.nodes);
    var hosts, totals, counts := CompareAll(snapshot, byId, pairs, nodes);
    result := Reconciliation(hosts, totals, counts);
    if DistinctNames(snapshot.nodes) {
      SortedKeepsNames(snapshot.nodes);
      RunningIsCounted(nodes, snapshot.guests, pairs);
      assert ComparedNames(nodes, pairs) == ComparedNames(snapshot.nodes, pairs);
      if DistinctDevices(planned) && GivenOnce(pairs) {
        PlannedIsCounted(nodes, planned, pairs);
        assert PairedDevices(nodes, byId, pairs) == PairedDevices(snapshot.nodes, byId, pairs);
      }
      if DistinctGuests(planned) && GivenOnce(pairs) {
        NoGuestTwice(snapshot, planned, pairs, nodes, hosts);
      }
    }
  }

  lemma NoGuestTwice(snapshot: Snapshot, planned: seq<PlannedHost>, pairs: map<string, Pairing>, nodes: seq<Node>,
                     hosts: seq<HostReport>)
    requires DistinctNames(nodes) && DistinctGuests(planned) && GivenOnce(pairs)
    requires AllReports(snapshot, DevicesById(planned), pairs, nodes, hosts)
    ensures ReportedOnce(hosts)
  {
    forall i, j, r, s | 0 <= i < |hosts| && 0 <= j < |hosts| && SameGuest(hosts[i].rows, r, hosts[j].rows, s)
      ensures i == j && r == s
    {
      ReportAt(snapshot, DevicesById(planned), pairs, nodes, hosts, i);
      ReportAt(snapshot, DevicesById(planned), pairs, nodes, hosts, j);
      RowsAboutOneGuest(snapshot, planned, pairs, nodes[i], hosts[i], nodes[j], hosts[j], r, s);
    }
  }
}
