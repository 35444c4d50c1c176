/** What the report of one host says, in the figures of its guests, of the plan and of
    the host (backend/internal/proxmox/reconcile.go, Reconcile). */
module HostAccounts {
  import opened Wrappers
  import opened Matching
  import opened GuestMatching
  import opened Reconcile

  // ---- which guests ----

  predicate IsOn(g: Guest, node: string) { g.node == node && !g.template }

  /** The guests of the host that are no templates, each as often as it is listed. */
  ghost predicate AreOn(guests: seq<Guest>, node: string, some: seq<Guest>) {
    forall g :: multiset(some)[g] == if IsOn(g, node) then multiset(guests)[g] else 0
  }

  lemma {:induction false} InsertAdds(guests: seq<Guest>, g: Guest)
    ensures multiset(InsertByVmid(guests, g)) == multiset(guests) + multiset{g}
  {
    if guests != [] && guests[|guests| - 1].vmid > g.vmid {
      var front, last := guests[..|guests| - 1], guests[|guests| - 1];
      InsertAdds(front, g);
      assert guests == front + [last];
    }
  }

  lemma {:induction false} GuestsOnAre(guests: seq<Guest>, node: string)
    ensures AreOn(guests, node, GuestsOn(guests, node))
  {
    if guests != [] {
      var front, last := guests[..|guests| - 1], guests[|guests| - 1];
      GuestsOnAre(front, node);
      assert guests == front + [last];
      InsertAdds(GuestsOn(front, node), last);
    }
  }

  // ---- what they take ----

  /** The running guests of the host take so much: a stopped one its disk only. */
  ghost predicate Take(guests: seq<Guest>, node: string, cpus: real, memory: real, disk: real)
    decreases |guests|
  {
    if guests == [] then cpus == 0.0 && memory == 0.0 && disk == 0.0
    else
      var front, g := guests[..|guests| - 1], guests[|guests| - 1];
      if g.node != node || g.template then Take(front, node, cpus, memory, disk)
      else if g.status == "stopped" then Take(front, node, cpus, memory, disk - g.diskGb)
      else Take(front, node, cpus - g.cpus, memory - g.memoryMb as real, disk - g.diskGb)
  }

  lemma {:induction false} InsertSums(guests: seq<Guest>, g: Guest)
    ensures ActualLoads(InsertByVmid(guests, g)) == AddLoads(ActualLoads(guests), ActualLoad(g))
  {
    hide ActualLoads, ActualLoad, AddLoads;
    if guests == [] || guests[|guests| - 1].vmid <= g.vmid {
      SumsOneMore(guests, g);
    } else {
      var front, last := guests[..|guests| - 1], guests[|guests| - 1];
      InsertSums(front, g);
      SumsOneMore(InsertByVmid(front, g), last);
      SumsOneMore(front, last);
      assert guests == front + [last];
      EitherOrder(ActualLoads(front), ActualLoad(g), ActualLoad(last));
    }
  }

  lemma SumsOneMore(guests: seq<Guest>, g: Guest)
    ensures ActualLoads(guests + [g]) == AddLoads(ActualLoads(guests), ActualLoad(g))
  {
    assert (guests + [g])[..|guests|] == guests;
  }

  lemma EitherOrder(a: Loads, b: Loads, c: Loads)
    ensures AddLoads(AddLoads(a, b), c) == AddLoads(AddLoads(a, c), b)
  {
  }

  lemma {:induction false} GuestsTake(guests: seq<Guest>, node: string)
    ensures var loads := ActualLoads(GuestsOn(guests, node));
            Take(guests, node, loads.vcpus.actual, loads.memoryMb.actual, loads.diskGb.actual)
  {
    if guests != [] {
      var front, g := guests[..|guests| - 1], guests[|guests| - 1];
      GuestsTake(front, node);
      var before, after := ActualLoads(GuestsOn(front, node)), ActualLoads(GuestsOn(guests, node));
      InsertSums(GuestsOn(front, node), g);
      assert after == if IsOn(g, node) then AddLoads(before, ActualLoad(g)) else before;
      hide InsertByVmid, ActualLoads, GuestsOn;
      if IsOn(g, node) {
        TakeOneMore(guests, node, before.vcpus.actual, before.memoryMb.actual, before.diskGb.actual);
      }
    }
  }

  lemma TakeOneMore(guests: seq<Guest>, node: string, cpus: real, memory: real, disk: real)
    requires guests != [] && IsOn(guests[|guests| - 1], node)
    requires Take(guests[..|guests| - 1], node, cpus, memory, disk)
    ensures var g := guests[|guests| - 1];
            if g.status == "stopped" then Take(guests, node, cpus, memory, disk + g.diskGb)
            else Take(guests, node, cpus + g.cpus, memory + g.memoryMb as real, disk + g.diskGb)
  {
    var g := guests[|guests| - 1];
    assert cpus + g.cpus - g.cpus == cpus && memory + g.memoryMb as real - g.memoryMb as real == memory;
    assert disk + g.diskGb - g.diskGb == disk;
  }

  /** The plan gives its guests so much: a stopped one its disk only, and one without a
      size 1 CPU, 512 MB and 10 GB. */
  ghost predicate PlanTakes(guests: seq<PlannedGuest>, cpus: real, memory: real, disk: real)
    decreases |guests|
  {
    if guests == [] then cpus == 0.0 && memory == 0.0 && disk == 0.0
    else
      var front, g := guests[..|guests| - 1], guests[|guests| - 1];
      var less := disk - if g.diskGb > 0.0 then g.diskGb else 10.0;
      if g.status == "stopped" then PlanTakes(front, cpus, memory, less)
      else PlanTakes(front, cpus - (if g.cpus > 0.0 then g.cpus else 1.0),
                     memory - (if g.memoryMb > 0 then g.memoryMb as real else 512.0), less)
  }

  lemma {:induction false} PlannedTake(guests: seq<PlannedGuest>)
    ensures var loads := PlannedLoads(guests);
            PlanTakes(guests, loads.vcpus.planned, loads.memoryMb.planned, loads.diskGb.planned)
  {
    if guests != [] {
      var before := PlannedLoads(guests[..|guests| - 1]);
      PlannedTake(guests[..|guests| - 1]);
      assert PlannedLoads(guests) == AddLoads(before, PlannedLoad(guests[|guests| - 1]));
      hide PlannedLoads;
      PlanOneMore(guests, before.vcpus.planned, before.memoryMb.planned, before.diskGb.planned);
    }
  }

  lemma PlanOneMore(guests: seq<PlannedGuest>, cpus: real, memory: real, disk: real)
    requires guests != [] && PlanTakes(guests[..|guests| - 1], cpus, memory, disk)
    ensures var more := PlannedLoad(guests[|guests| - 1]);
            PlanTakes(guests, cpus + more.vcpus.planned, memory + more.memoryMb.planned, disk + more.diskGb.planned)
  {
    var more := PlannedLoad(guests[|guests| - 1]);
    assert cpus + more.vcpus.planned - more.vcpus.planned == cpus;
    assert memory + more.memoryMb.planned - more.memoryMb.planned == memory;
    assert disk + more.diskGb.planned - more.diskGb.planned == disk;
  }

  // ---- what the host holds ----

  /** The whole number next to x, of two equally near the one farther from zero. */
  ghost predicate Nearest(x: real, whole: real) {
    && whole == whole.Floor as real && whole - 0.5 <= x <= whole + 0.5
    && (x == whole - 0.5 ==> x >= 0.0) && (x == whole + 0.5 ==> x <= 0.0)
  }

  lemma RoundsToNearest(x: real)
    ensures Nearest(x, Round(x))
  {
    var y := if x >= 0.0 then x + 0.5 else 0.5 - x;
    var n := y.Floor;
    assert n as real <= y < n as real + 1.0;
    assert (-n) as real == -(n as real);
    WholeFloor(n);
    WholeFloor(-n);
  }

  lemma WholeFloor(n: int)
    ensures (n as real).Floor == n
  {
  }

  /** The storages of the host itself hold so much. */
  ghost predicate Store(storage: seq<Storage>, node: string, gb: real)
    decreases |storage|
  {
    if storage == [] then gb == 0.0
    else
      var front, s := storage[..|storage| - 1], storage[|storage| - 1];
      if s.node != node || s.shared then Store(front, node, gb) else Store(front, node, gb - s.totalGb)
  }

  lemma {:induction false} StoragesStore(storage: seq<Storage>, node: string)
    ensures Store(storage, node, LocalStorageGb(storage, node))
  {
    if storage != [] {
      StoragesStore(storage[..|storage| - 1], node);
    }
  }

  /** A figure of the host or, for a host without one, of the device it is planned as. */
  ghost predicate HoldsOf(found: real, plan: Option<PlannedHost>, planned: real, capacity: real) {
    if found > 0.0 || plan.None? then capacity == found else capacity == planned
  }

  ghost predicate Holds(snapshot: Snapshot, node: Node, plan: Option<PlannedHost>, loads: Loads) {
    && HoldsOf(node.threads as real, plan, if plan.Some? then plan.value.cpus else 0.0, loads.vcpus.capacity)
    && HoldsOf(node.memoryMb as real, plan, if plan.Some? then plan.value.ramGb * 1024.0 else 0.0,
               loads.memoryMb.capacity)
    && exists local :: Store(snapshot.storage, node.name, local)
                       && DiskHolds(if local > 0.0 then local else node.diskGb, plan, loads.diskGb.capacity)
  }

  ghost predicate DiskHolds(disk: real, plan: Option<PlannedHost>, capacity: real) {
    exists gb :: Nearest(disk, gb) && HoldsOf(gb, plan, if plan.Some? then plan.value.storageGb else 0.0, capacity)
  }

  lemma HostHolds(snapshot: Snapshot, node: Node, plan: Option<PlannedHost>)
    ensures Holds(snapshot, node, plan, CapacityOf(node, HostStorageGb(snapshot, node), plan))
  {
    var local := LocalStorageGb(snapshot.storage, node.name);
    StoragesStore(snapshot.storage, node.name);
    RoundsToNearest(if local > 0.0 then local else node.diskGb);
    hide Nearest, Round, Store, LocalStorageGb;
    assert Nearest(if local > 0.0 then local else node.diskGb, HostStorageGb(snapshot, node));
  }

  // ---- what the rows say ----

  /** A figure both sides give and that is not the same. */
  ghost predicate Apart(planned: real, actual: real) {
    planned > 0.0 && actual > 0.0 && planned != actual
  }

  /** A row of a running guest tells what it is given, and what the plan gives it when
      it is planned; it differs if a figure both give does, or the planned status. */
  ghost predicate Tells(planned: seq<PlannedGuest>, g: Guest, row: GuestRow) {
    && row.vmid == g.vmid && row.cpus.actual == g.cpus && row.memoryMb.actual == g.memoryMb as real
    && (row.planned.None? ==> row.state.Discovered? && !row.differs && row.cpus.planned == row.memoryMb.planned == 0.0)
    && (row.planned.Some? ==>
          && row.state.Matched? && row.planned.value < |planned|
          && var p := planned[row.planned.value];
             && row.plannedId == Some(p.id) && row.cpus.planned == p.cpus
             && row.memoryMb.planned == p.memoryMb as real
             && row.matchedBy == Some(if p.vmid > 0 then ById else ByName)
             && (row.differs <==> Apart(p.cpus, g.cpus) || Apart(p.memoryMb as real, g.memoryMb as real)
                                  || (p.status != "" && p.status != g.status)))
  }

  ghost predicate TellsMissing(planned: seq<PlannedGuest>, row: GuestRow) {
    && row.state.Missing? && row.planned.Some? && row.planned.value < |planned| && !row.differs
    && var p := planned[row.planned.value];
       && row.plannedId == Some(p.id) && row.vmid == p.vmid && row.cpus.planned == p.cpus
       && row.memoryMb.planned == p.memoryMb as real && row.cpus.actual == row.memoryMb.actual == 0.0
  }

  ghost predicate RowsTell(planned: seq<PlannedGuest>, actual: seq<Guest>, rows: seq<GuestRow>) {
    && |rows| >= |actual|
    && (forall a :: 0 <= a < |actual| ==> Tells(planned, actual[a], rows[a]))
    && (forall r :: |actual| <= r < |rows| ==> TellsMissing(planned, rows[r]))
  }

  lemma RowsOfMatching(planned: seq<PlannedGuest>, actual: seq<Guest>, rows: seq<GuestRow>)
    requires RowsMatch(planned, actual, rows)
    ensures RowsTell(planned, actual, rows)
  {
    var pairs :| Shows(planned, actual, pairs, rows);
    forall a | 0 <= a < |actual|
      ensures Tells(planned, actual[a], rows[a])
    {
      MatchedRow(planned, actual, pairs, a);
    }
  }

  lemma MatchedRow(planned: seq<PlannedGuest>, actual: seq<Guest>, pairs: map<nat, Match>, a: nat)
    requires WellMatched(planned, actual, pairs) && a < |actual|
    requires MatchOf(pairs, a).Some? ==> MatchOf(pairs, a).value.planned < |planned|
    ensures Tells(planned, actual[a], ActualRow(planned, actual[a], MatchOf(pairs, a)))
  {
    if a in pairs {
      assert MatchFits(planned[pairs[a].planned], actual[a], pairs[a].how);
      hide WellMatched, NormalizeName;
    }
  }

  /** The rows are counted: matched ones, and those of them that differ, discovered
      and missing ones. */
  ghost predicate Counted(rows: seq<GuestRow>, matched: int, differing: int, discovered: int, missing: int)
    decreases |rows|
  {
    if rows == [] then matched == 0 && differing == 0 && discovered == 0 && missing == 0
    else
      var front, row := rows[..|rows| - 1], rows[|rows| - 1];
      match row.state
      case Matched => Counted(front, matched - 1, if row.differs then differing - 1 else differing, discovered, missing)
      case Discovered => Counted(front, matched, differing, discovered - 1, missing)
      case Missing => Counted(front, matched, differing, discovered, missing - 1)
  }

  lemma {:induction false} CountsCounted(rows: seq<GuestRow>)
    ensures var c := CountsOf(rows); Counted(rows, c.matched, c.differing, c.discovered, c.missing)
  {
    if rows != [] {
      CountsCounted(rows[..|rows| - 1]);
    }
  }

  // ---- the report ----

  /** The device the pairing gives the host, if the plan has it. */
  ghost predicate IsPlan(planned: seq<PlannedHost>, pairs: map<string, Pairing>, node: string,
                         plan: Option<PlannedHost>)
  {
    match plan
    case Some(h) => h in planned && node in pairs && pairs[node].planned == Some(h.id)
    case None => forall h <- planned :: !(node in pairs && pairs[node].planned == Some(h.id))
  }

  lemma PlanOfIs(planned: seq<PlannedHost>, pairs: map<string, Pairing>, node: string)
    ensures IsPlan(planned, pairs, node, PlanOf(DevicesById(planned), PairingOf(pairs, node)))
  {
    DevicesPlanned(planned);
  }

  lemma {:induction false} DevicesPlanned(planned: seq<PlannedHost>)
    ensures forall id :: id in DevicesById(planned) ==>
              DevicesById(planned)[id] in planned && DevicesById(planned)[id].id == id
    ensures forall h <- planned :: h.id in DevicesById(planned)
  {
    if planned != [] {
      var front, last := planned[..|planned| - 1], planned[|planned| - 1];
      DevicesPlanned(front);
      assert planned == front + [last];
    }
  }

  /** Sums, capacities and rows of a host that was compared; disks are rounded. */
  ghost predicate Says(snapshot: Snapshot, node: Node, plan: Option<PlannedHost>, h: HostReport) {
    var guests, loads := if plan.Some? then plan.value.guests else [], h.loads;
    && h.node == node.name && h.plannedId == (if plan.Some? then Some(plan.value.id) else None)
    && Holds(snapshot, node, plan, loads)
    && (exists disk :: Take(snapshot.guests, node.name, loads.vcpus.actual, loads.memoryMb.actual, disk)
                       && Nearest(disk, loads.diskGb.actual))
    && (exists disk :: PlanTakes(guests, loads.vcpus.planned, loads.memoryMb.planned, disk)
                       && Nearest(disk, loads.diskGb.planned))
    && exists actual :: RowsTell(guests, actual, h.rows) && AreOn(snapshot.guests, node.name, actual)
  }

  /** What a report says of its host, without the sums and rows that make it up. */
  lemma ReportSays(snapshot: Snapshot, planned: seq<PlannedHost>, pairs: map<string, Pairing>, node: Node,
                   h: HostReport)
    requires Reports(snapshot, DevicesById(planned), pairs, node, h)
    ensures h.skipped <==> node.name in pairs && pairs[node.name].skip
    ensures h.skipped ==> h.node == node.name && h.rows == [] && h.plannedId.None?
    ensures !h.skipped ==> exists plan :: IsPlan(planned, pairs, node.name, plan) && Says(snapshot, node, plan, h)
  {
    hide RowsConserve, RowsMatch, RowsTell, Take, PlanTakes, Nearest, Holds, GuestsOn, CapacityOf, DevicesById, Round,
      ActualLoads, PlannedLoads;
    if !h.skipped {
      var plan := PlanOf(DevicesById(planned), PairingOf(pairs, node.name));
      var guests, actual := if plan.Some? then plan.value.guests else [], GuestsOn(snapshot.guests, node.name);
      PlanOfIs(planned, pairs, node.name);
      HostHolds(snapshot, node, plan);
      RowsOfMatching(guests, actual, h.rows);
      GuestsTake(snapshot.guests, node.name);
      PlannedTake(guests);
      RoundsToNearest(ActualLoads(actual).diskGb.actual);
      RoundsToNearest(PlannedLoads(guests).diskGb.planned);
      GuestsOnAre(snapshot.guests, node.name);
      HoldsTogether(snapshot, node, plan, h.loads);
      assert Says(snapshot, node, plan, h);
    }
  }

  lemma HoldsTogether(snapshot: Snapshot, node: Node, plan: Option<PlannedHost>, loads: Loads)
    requires var capacity := CapacityOf(node, HostStorageGb(snapshot, node), plan);
             && loads.vcpus.capacity == capacity.vcpus.capacity
             && loads.memoryMb.capacity == capacity.memoryMb.capacity
             && loads.diskGb.capacity == capacity.diskGb.capacity
    ensures Holds(snapshot, node, plan, loads)
  {
    hide CapacityOf, HostStorageGb, HoldsOf, Store, Nearest;
    HostHolds(snapshot, node, plan);
  }

  // ---- all hosts ----

  /** One of the nine figures of a load. */
  function Part(loads: Loads, i: nat): real
    requires i < 9
  {
    var load := if i / 3 == 0 then loads.vcpus else if i / 3 == 1 then loads.memoryMb else loads.diskGb;
    if i % 3 == 0 then load.capacity else if i % 3 == 1 then load.planned else load.actual
  }

  /** A figure added up over the hosts that were compared. */
  ghost predicate AddsUp(hosts: seq<HostReport>, i: nat, total: real)
    requires i < 9
    decreases |hosts|
  {
    if hosts == [] then total == 0.0
    else
      var front, h := hosts[..|hosts| - 1], hosts[|hosts| - 1];
      if h.skipped then AddsUp(front, i, total) else AddsUp(front, i, total - Part(h.loads, i))
  }

  lemma {:induction false} TotalsAddUp(hosts: seq<HostReport>, i: nat)
    requires i < 9
    ensures AddsUp(hosts, i, Part(TotalLoads(hosts), i))
  {
    if hosts != [] {
      var front, h := hosts[..|hosts| - 1], hosts[|hosts| - 1];
      var before := TotalLoads(front);
      TotalsAddUp(front, i);
      assert TotalLoads(hosts) == if h.skipped then before else AddLoads(before, h.loads);
      assert Part(AddLoads(before, h.loads), i) - Part(h.loads, i) == Part(before, i);
    }
  }

  /** The rows of all reports. */
  function RowsOf(hosts: seq<HostReport>): seq<GuestRow> {
    if hosts == [] then [] else RowsOf(hosts[..|hosts| - 1]) + hosts[|hosts| - 1].rows
  }

  lemma {:induction false} CountsJoin(a: seq<GuestRow>, b: seq<GuestRow>)
    ensures CountsOf(a + b) == AddCounts(CountsOf(a), CountsOf(b))
  {
    hide CountsOf, CountRow, AddCounts;
    if b == [] {
      NothingCountedMore(CountsOf(a));
      assert a + b == a;
    } else {
      var front, last := b[..|b| - 1], b[|b| - 1];
      CountsJoin(a, front);
      assert a + b == a + front + [last] && b == front + [last];
      CountsMore(a + front, last);
      CountsMore(front, last);
      CountsShift(CountsOf(a), CountsOf(front), last);
    }
  }

  lemma NothingCountedMore(counts: Counts)
    ensures AddCounts(counts, CountsOf([])) == counts
  {
  }

  lemma CountsShift(a: Counts, b: Counts, row: GuestRow)
    ensures CountRow(AddCounts(a, b), row) == AddCounts(a, CountRow(b, row))
  {
  }

  lemma {:induction false} TotalsCount(hosts: seq<HostReport>)
    ensures TotalCounts(hosts) == CountsOf(RowsOf(hosts))
  {
    if hosts != [] {
      TotalsCount(hosts[..|hosts| - 1]);
      CountsJoin(RowsOf(hosts[..|hosts| - 1]), hosts[|hosts| - 1].rows);
    }
  }

  ghost predicate SaysOrSkips(snapshot: Snapshot, planned: seq<PlannedHost>, pairs: map<string, Pairing>, node: Node,
                              h: HostReport)
  {
    if node.name in pairs && pairs[node.name].skip then
      h.skipped && h.node == node.name && h.rows == [] && h.plannedId.None?
    else
      !h.skipped && exists plan :: IsPlan(planned, pairs, node.name, plan) && Says(snapshot, node, plan, h)
  }

  /** What the comparison of a cluster says: a report for each host in the order of
      their names, true to the snapshot and the plan, and their figures added up. */
  lemma ReconciliationSays(snapshot: Snapshot, planned: seq<PlannedHost>, pairs: map<string, Pairing>,
                           nodes: seq<Node>, result: Reconciliation)
    requires nodes == SortedByName(snapshot.nodes)
    requires AllReports(snapshot, DevicesById(planned), pairs, nodes, result.hosts)
    requires result.totals == TotalLoads(result.hosts) && result.counts == TotalCounts(result.hosts)
    ensures |result.hosts| == |nodes| && multiset(nodes) == multiset(snapshot.nodes)
    ensures forall i :: 0 <= i < |nodes| ==> SaysOrSkips(snapshot, planned, pairs, nodes[i], result.hosts[i])
    ensures forall i: nat :: i < 9 ==> AddsUp(result.hosts, i, Part(result.totals, i))
    ensures var c := result.counts; Counted(RowsOf(result.hosts), c.matched, c.differing, c.discovered, c.missing)
  {
    SortKeeps(snapshot.nodes);
    TotalsCount(result.hosts);
    CountsCounted(RowsOf(result.hosts));
    hide Reports, Says, IsPlan, AddsUp, Part, Counted, RowsOf;
    forall i | 0 <= i < |nodes|
      ensures SaysOrSkips(snapshot, planned, pairs, nodes[i], result.hosts[i])
    {
      ReportAt(snapshot, DevicesById(planned), pairs, nodes, result.hosts, i);
      ReportSays(snapshot, planned, pairs, nodes[i], result.hosts[i]);
    }
    forall i: nat | i < 9
      ensures AddsUp(result.hosts, i, Part(result.totals, i))
    {
      TotalsAddUp(result.hosts, i);
    }
  }
}
