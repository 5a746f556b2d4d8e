/** The scan lifecycle of the Node backend (backend/src/server.js): the in-memory stores of
    scans and reports, the mock vulnerability table, `simulateNetworkScan` as a state
    machine over a mutable scan, and the hourly retention sweep. Delays are dropped, the
    random order `sort(() => 0.5 - Math.random())` leaves is given as the swaps it is made
    of, and clock readings are parameters. */
module Server {
  import opened Domain
  import opened ReportModel

  // ---------------------------------------------------------------------------
  // the mock vulnerability table

  /** An entry of `mockVulnerabilities`. */
  datatype Template = Template(name: string, description: string, severity: string, port: int, service: string)

  const MockTable: seq<Template> := [
    Template("Open SSH Port", "SSH service is running on default port 22", "medium", 22, "ssh"),
    Template("Outdated Apache Version",
      "Web server running outdated Apache version with known vulnerabilities", "high", 80, "http"),
    Template("Weak SSL Configuration", "SSL/TLS configuration allows weak cipher suites", "medium", 443, "https"),
    Template("Anonymous FTP Access", "FTP server allows anonymous login", "high", 21, "ftp"),
    Template("Default Credentials", "Service using default username/password combination", "critical", 23, "telnet")]

  /** `{ ...vuln, target: target, discoveredAt: ... }`. */
  function Stamp(t: Template, target: string, at: nat): Finding {
    Finding(t.name, t.description, t.severity, t.port, t.service, target, at)
  }

  /** The entry a finding was copied from. */
  function TemplateOf(f: Finding): Template {
    Template(f.name, f.description, f.severity, f.port, f.service)
  }

  predicate Distinct<T(==)>(s: seq<T>) {
    forall i, j | 0 <= i < j < |s| :: s[i] != s[j]
  }

  /** `numVulns`. */
  function FindingCount(scanType: string): (n: nat)
    ensures 1 <= n <= 4
  {
    if scanType == "comprehensive" then 4 else if scanType == "basic" then 2 else 1
  }

  /** `.slice(0, numVulns).map(...)` on the current order of the table. */
  function Selected(table: seq<Template>, scanType: string, target: string, at: nat): (fs: seq<Finding>)
    ensures |fs| == if FindingCount(scanType) <= |table| then FindingCount(scanType) else |table|
    ensures forall i | 0 <= i < |fs| :: TemplateOf(fs[i]) == table[i]
  {
    var n := if FindingCount(scanType) <= |table| then FindingCount(scanType) else |table|;
    seq(n, i requires 0 <= i < n => Stamp(table[i], target, at))
  }

  // ---------------------------------------------------------------------------
  // the shuffle

  /** The order a sequence of swaps leaves. */
  function ApplySwaps<T>(s: seq<T>, swaps: seq<(nat, nat)>): (r: seq<T>)
    requires forall k | 0 <= k < |swaps| :: swaps[k].0 < |s| && swaps[k].1 < |s|
    ensures |r| == |s|
    decreases |swaps|
  {
    if |swaps| == 0 then s
    else
      var (i, j) := swaps[0];
      ApplySwaps(s[i := s[j]][j := s[i]], swaps[1..])
  }

  /** Swapping only reorders: the entries are kept with their multiplicities. */
  lemma {:induction false} ApplySwapsPermutation<T>(s: seq<T>, swaps: seq<(nat, nat)>)
    requires forall k | 0 <= k < |swaps| :: swaps[k].0 < |s| && swaps[k].1 < |s|
    ensures multiset(ApplySwaps(s, swaps)) == multiset(s)
    decreases |swaps|
  {
    if |swaps| > 0 {
      var (i, j) := swaps[0];
      var t := s[i := s[j]][j := s[i]];
      SwapPermutation(s, i, j);
      ApplySwapsPermutation(t, swaps[1..]);
    }
  }

  lemma SwapPermutation<T>(s: seq<T>, i: nat, j: nat)
    requires i < |s| && j < |s|
    ensures multiset(s[i := s[j]][j := s[i]]) == multiset(s)
  {
    var t := s[i := s[j]];
    assert multiset(t) == multiset(s) - multiset{s[i]} + multiset{s[j]};
    assert multiset(t[j := s[i]]) == multiset(t) - multiset{t[j]} + multiset{s[i]};
  }

  // ---------------------------------------------------------------------------
  // distinct selections

  /** The mock table has five different entries. */
  lemma MockTableDistinct()
    ensures Distinct(MockTable)
  {
    forall i, j | 0 <= i < j < |MockTable| ensures MockTable[i] != MockTable[j] {
      assert MockTable[i].port != MockTable[j].port;
    }
  }

  /** A reordering of a sequence without repeats has none either. */
  lemma PermutationDistinct<T>(a: seq<T>, b: seq<T>)
    requires multiset(a) == multiset(b) && Distinct(b)
    ensures Distinct(a)
  {
    DistinctCounts(b);
    forall i, j | 0 <= i < j < |a| ensures a[i] != a[j] {
      if a[i] == a[j] {
        TwiceCounted(a, i, j);
        assert false;
      }
    }
  }

  lemma {:induction false} DistinctCounts<T>(b: seq<T>)
    requires Distinct(b)
    ensures forall x :: multiset(b)[x] <= 1
    decreases |b|
  {
    if |b| > 0 {
      var n := |b| - 1;
      var init := b[..n];
      assert b == init + [b[n]];
      assert forall k | 0 <= k < n :: init[k] == b[k];
      DistinctCounts(init);
      assert b[n] !in init;
    }
  }

  lemma TwiceCounted<T>(a: seq<T>, i: nat, j: nat)
    requires i < j < |a| && a[i] == a[j]
    ensures multiset(a)[a[i]] >= 2
  {
    assert a == a[..j] + [a[j]] + a[j + 1..];
    assert a[..j][i] == a[i];
    assert a[i] in multiset(a[..j]);
  }

  /** The findings of a run come from different entries of the table, in the table's
      current order, each with the scan's target and the discovery time. */
  lemma SelectedDistinct(table: seq<Template>, scanType: string, target: string, at: nat)
    requires multiset(table) == multiset(MockTable)
    ensures var fs := Selected(table, scanType, target, at);
      && |fs| == FindingCount(scanType)
      && (forall i | 0 <= i < |fs| :: TemplateOf(fs[i]) in MockTable && fs[i].target == target && fs[i].discoveredAt == at)
      && (forall i, j | 0 <= i < j < |fs| :: TemplateOf(fs[i]) != TemplateOf(fs[j]))
  {
    MockTableDistinct();
    assert |MockTable| == 5;
    SelectedFromReordering(table, MockTable, scanType, target, at);
  }

  /** `SelectedDistinct` for any reordering of any table of at least four different
      entries. */
  lemma SelectedFromReordering(table: seq<Template>, reference: seq<Template>, scanType: string, target: string, at: nat)
    requires multiset(table) == multiset(reference) && Distinct(reference) && |reference| >= 4
    ensures var fs := Selected(table, scanType, target, at);
      && |fs| == FindingCount(scanType)
      && (forall i | 0 <= i < |fs| :: TemplateOf(fs[i]) in reference && fs[i].target == target && fs[i].discoveredAt == at)
      && (forall i, j | 0 <= i < j < |fs| :: TemplateOf(fs[i]) != TemplateOf(fs[j]))
  {
    assert |table| == |multiset(table)| == |multiset(reference)| == |reference|;
    PermutationDistinct(table, reference);
    var fs := Selected(table, scanType, target, at);
    forall i | 0 <= i < |fs| ensures TemplateOf(fs[i]) in reference {
      assert table[i] in multiset(table);
    }
  }

  // ---------------------------------------------------------------------------
  // the scan state machine

  /** One step of the simulated scan; the delay before it is dropped. */
  datatype Phase = Phase(step: string, progress: nat)

  const Phases: seq<Phase> := [
    Phase("Port scanning...", 30),
    Phase("Service detection...", 50),
    Phase("Vulnerability assessment...", 70),
    Phase("Analyzing results with AI...", 90),
    Phase("Generating findings...", 100)]

  /** What a poller can see of a scan between two awaits (and at the end). */
  datatype Snapshot = Snapshot(status: string, currentStep: string, progress: nat)

  const Started := Snapshot("running", "Performing network discovery...", 10)
  const Finished := Snapshot("completed", "Scan completed", 100)

  /** The snapshots a run goes through: started, after each phase, finished. */
  function RunTrace(): (trace: seq<Snapshot>)
    ensures |trace| == |Phases| + 2
  {
    [Started] + seq(|Phases|, k requires 0 <= k < |Phases| => Snapshot("running", Phases[k].step, Phases[k].progress))
      + [Finished]
  }

  /** Progress starts at 10 and strictly increases through the phases to 100; the scan is
      running throughout and completed only at the end. */
  lemma RunTraceProgress()
    ensures RunTrace()[0].progress == 10
    ensures forall i, j | 0 <= i < j < |RunTrace()| - 1 :: RunTrace()[i].progress < RunTrace()[j].progress
    ensures RunTrace()[|RunTrace()| - 2].progress == RunTrace()[|RunTrace()| - 1].progress == 100
    ensures forall i | 0 <= i < |RunTrace()| - 1 :: RunTrace()[i].status == "running"
    ensures RunTrace()[|RunTrace()| - 1].status == "completed"
  {
    var t := RunTrace();
    assert t[1].progress == 30 && t[2].progress == 50 && t[3].progress == 70;
    assert t[4].progress == 90 && t[5].progress == 100;
  }

  /** The last phase reaches 100, and the run ends with the finished snapshot. */
  lemma RunTraceEnd()
    ensures RunTrace()[|Phases|].progress == 100
    ensures RunTrace() == RunTrace()[..|Phases| + 1] + [Finished]
  {
    var t := RunTrace();
    assert t[|Phases|] == Snapshot("running", Phases[|Phases| - 1].step, Phases[|Phases| - 1].progress);
    assert t == t[..|Phases| + 1] + [t[|Phases| + 1]];
  }

  /** A scan record; scanController.js, which creates and stops scans, is not part of this
      model, so the values a new scan starts with are the constructor's. */
  class Scan {
    const id: string
    const target: string
    const scanType: string
    const createdAt: nat
    var status: string
    var currentStep: string
    var progress: nat
    var vulnerabilities: seq<Finding>
    var completedAt: Option<nat>

    constructor(id: string, target: string, scanType: string, createdAt: nat)
      ensures this.id == id && this.target == target && this.scanType == scanType
      ensures this.createdAt == createdAt
      ensures status == "pending" && currentStep == "" && progress == 0
      ensures vulnerabilities == [] && completedAt == None
    {
      this.id := id;
      this.target := target;
      this.scanType := scanType;
      this.createdAt := createdAt;
      status := "pending";
      currentStep := "";
      progress := 0;
      vulnerabilities := [];
      completedAt := None;
    }

    function View(): Snapshot
      reads this
    {
      Snapshot(status, currentStep, progress)
    }
  }

  /** `global.scans.find((s) => s.id === id)`. */
  function FindScan(scans: seq<Scan>, id: string): (found: Option<Scan>)
    ensures found.None? <==> forall k | 0 <= k < |scans| :: scans[k].id != id
    ensures found.Some? ==> found.value in scans && found.value.id == id
    ensures found.Some? ==> exists k | 0 <= k < |scans| ::
      scans[k] == found.value && forall j | 0 <= j < k :: scans[j].id != id
    decreases |scans|
  {
    if |scans| == 0 then None
    else if scans[0].id == id then Some(scans[0])
    else
      var rest := FindScan(scans[1..], id);
      assert forall k | 0 <= k < |scans| - 1 :: scans[1..][k] == scans[k + 1];
      rest
  }

  /** `global.scans`, `global.reports` and the module-level `mockVulnerabilities` array,
      whose order each run's shuffle leaves for the next. */
  class Store {
    var scans: seq<Scan>
    var reports: seq<Report>
    const mock: array<Template>

    ghost predicate Valid()
      reads this, mock
    {
      multiset(mock[..]) == multiset(MockTable)
    }

    constructor()
      ensures Valid() && fresh(mock) && mock[..] == MockTable
      ensures scans == [] && reports == []
    {
      scans := [];
      reports := [];
      var table := new Template[5] [MockTable[0], MockTable[1], MockTable[2], MockTable[3], MockTable[4]];
      assert table[..] == MockTable;
      mock := table;
    }

    /** The scan a run with this id updates, if any. */
    function Target(id: string): set<Scan>
      reads this
    {
      match FindScan(scans, id)
      case None => {}
      case Some(s) => {s}
    }

    /** `mockVulnerabilities.sort(() => 0.5 - Math.random())`: the sort's swaps, applied in
        place. */
    method Shuffle(swaps: seq<(nat, nat)>)
      requires Valid()
      requires forall k | 0 <= k < |swaps| :: swaps[k].0 < mock.Length && swaps[k].1 < mock.Length
      modifies mock
      ensures Valid()
      ensures mock[..] == ApplySwaps(old(mock[..]), swaps)
    {
      ghost var start := mock[..];
      for k := 0 to |swaps|
        invariant forall m | 0 <= m < |swaps| :: swaps[m].0 < |start| && swaps[m].1 < |start|
        invariant ApplySwaps(mock[..], swaps[k..]) == ApplySwaps(start, swaps)
        invariant multiset(mock[..]) == multiset(start)
      {
        var (i, j) := swaps[k];
        ghost var before := mock[..];
        assert swaps[k..][1..] == swaps[k + 1..];
        mock[i], mock[j] := mock[j], mock[i];
        assert mock[..] == before[i := before[j]][j := before[i]];
        SwapPermutation(before, i, j);
      }
      assert swaps[|swaps|..] == [];
    }

    /** `simulateNetworkScan`: an unknown id changes nothing. Otherwise the scan goes to
        running at 10%, through the five phases in order, and, in the synchronous tail
        after the last phase, gets its findings from the freshly shuffled table, the
        completed status and its completion time. There is no status guard, so a
        completed scan is run again from the start. `trace` is what a poller sees at
        each await and at the end. */
    method SimulateNetworkScan(scanId: string, target: string, scanType: string,
                               swaps: seq<(nat, nat)>, now: nat)
      returns (ghost trace: seq<Snapshot>)
      requires Valid()
      requires forall k | 0 <= k < |swaps| :: swaps[k].0 < mock.Length && swaps[k].1 < mock.Length
      modifies mock, Target(scanId)
      ensures Valid()
      ensures FindScan(scans, scanId).None? ==> unchanged(mock) && trace == []
      ensures FindScan(scans, scanId).Some? ==>
        var scan := FindScan(scans, scanId).value;
        && mock[..] == ApplySwaps(old(mock[..]), swaps)
        && scan.View() == Finished && trace == RunTrace()
        && scan.vulnerabilities == Selected(mock[..], scanType, target, now)
        && scan.completedAt == Some(now)
    {
      var found := FindScan(scans, scanId);
      if found.None? {
        return [];
      }
      var scan := found.value;
      trace := Run(scan);
      Shuffle(swaps);
      var selected := Selected(mock[..], scanType, target, now);
      Complete(scan, selected, now);
      RunTraceEnd();
      trace := trace + [Finished];
    }

    /** The synchronous tail after the last phase: the findings, the completed status and
        the completion time. */
    static method Complete(scan: Scan, selected: seq<Finding>, now: nat)
      requires scan.progress == 100
      modifies scan
      ensures scan.View() == Finished
      ensures scan.vulnerabilities == selected && scan.completedAt == Some(now)
    {
      scan.vulnerabilities := selected;
      scan.status := "completed";
      scan.completedAt := Some(now);
      scan.currentStep := "Scan completed";
    }

    /** The start and the phase loop; its last phase leaves progress at 100. */
    static method Run(scan: Scan) returns (ghost trace: seq<Snapshot>)
      modifies scan
      ensures scan.View() == RunTrace()[|Phases|]
      ensures trace == RunTrace()[..|Phases| + 1]
    {
      scan.status := "running";
      scan.currentStep := "Performing network discovery...";
      scan.progress := 10;
      trace := [scan.View()];
      for k := 0 to |Phases|
        invariant trace == RunTrace()[..k + 1]
        invariant scan.View() == RunTrace()[k]
      {
        scan.currentStep := Phases[k].step;
        scan.progress := Phases[k].progress;
        trace := trace + [scan.View()];
      }
    }

    /** The cron job's body: keep exactly the scans and reports created after the cutoff
        one day before `now` (milliseconds), in their order. */
    method Cleanup(now: nat)
      modifies this
      ensures scans == Filter(old(scans), (s: Scan) => s.createdAt > now - DayMillis)
      ensures reports == Filter(old(reports), (r: Report) => r.createdAt > now - DayMillis)
    {
      var cutoff := now - DayMillis;
      scans := Filter(scans, (s: Scan) => s.createdAt > cutoff);
      reports := Filter(reports, (r: Report) => r.createdAt > cutoff);
    }
  }

  const DayMillis: int := 24 * 60 * 60 * 1000

  /** What survives the sweep: the entries created strictly after the cutoff, in their
      original order, and nothing else. */
  lemma CleanupKeepsRecent(scans: seq<Scan>, now: nat) returns (idx: seq<nat>)
    ensures var kept := Filter(scans, (s: Scan) => s.createdAt > now - DayMillis);
      && |idx| == |kept| && Increasing(idx)
      && (forall k | 0 <= k < |idx| :: idx[k] < |scans| && kept[k] == scans[idx[k]] && kept[k].createdAt > now - DayMillis)
      && (forall j | 0 <= j < |scans| && scans[j].createdAt > now - DayMillis :: j in idx)
  {
    idx := FilterSelection(scans, (s: Scan) => s.createdAt > now - DayMillis);
  }

  /** The same for the reports. */
  lemma CleanupKeepsRecentReports(reports: seq<Report>, now: nat) returns (idx: seq<nat>)
    ensures var kept := Filter(reports, (r: Report) => r.createdAt > now - DayMillis);
      && |idx| == |kept| && Increasing(idx)
      && (forall k | 0 <= k < |idx| :: idx[k] < |reports| && kept[k] == reports[idx[k]] && kept[k].createdAt > now - DayMillis)
      && (forall j | 0 <= j < |reports| && reports[j].createdAt > now - DayMillis :: j in idx)
  {
    idx := FilterSelection(reports, (r: Report) => r.createdAt > now - DayMillis);
  }
}
