/** The Python backend (backend/app.py): the `PentestEngine` that dispatches open ports to
    per-service checkers, analyses the findings with a language model or a local default,
    and keeps one report per target. The port scanner's result and what each checker's
    connection observes are inputs; risk scores are integer tenths. */
module PentestEngine {
  import opened Text
  import opened Domain

  /** The `Vulnerability` dataclass; `riskScore` is in tenths (7.5 is 75). */
  datatype Vulnerability = Vulnerability(
    id: string,
    severity: string,
    port: int,
    service: string,
    issue: string,
    riskScore: nat,
    cve: Option<string>,
    description: string,
    remediation: string)

  // ---------------------------------------------------------------------------
  // the port scan and the checkers

  /** What `port_scan` returns: its error dictionary, or the open ports in the order the
      scanner lists them and the service name it reports for each. */
  datatype PortScan = ScanError(message: string) | PortsFound(openPorts: seq<int>, services: map<int, string>)

  /** What each checker's connection to a port observes; `None` is an exception, which
      the checker swallows. `sshBanner` is the decoded, stripped banner, `httpHeaders` the
      response's header names, `certExpired` whether the certificate's `notAfter` is in
      the past, and `rdpConnect` the result of `connect_ex`. Because the HTTPS checker
      turns verification off (`ssl.CERT_NONE`), `getpeercert()` gives an empty dictionary,
      so reading `cert['notAfter']` raises `KeyError`, which is swallowed: as written,
      `certExpired` is always `None` and the HTTPS finding cannot arise. The model keeps
      the probe general, which covers that case. */
  datatype Probes = Probes(
    sshBanner: int -> Option<string>,
    httpHeaders: int -> Option<seq<string>>,
    certExpired: int -> Option<bool>,
    rdpConnect: int -> Option<int>)

  /** `port_data['services'].get(port, 'unknown')`. */
  function ServiceOf(services: map<int, string>, port: int): string {
    if port in services then services[port] else "unknown"
  }

  /** The banner of an OpenSSH server of major version 7, 6 or 5. */
  predicate OutdatedOpenSsh(banner: string) {
    Contains(banner, "OpenSSH")
    && (Contains(banner, "OpenSSH_7.") || Contains(banner, "OpenSSH_6.") || Contains(banner, "OpenSSH_5."))
  }

  /** A checker's finding: on its port, for its service, with its fixed severity and
      score. */
  predicate Reported(v: Vulnerability, port: int, service: string, severity: string, score: nat) {
    v.port == port && v.service == service && v.severity == severity && v.riskScore == score
  }

  /** `check_ssh_vulnerabilities`. */
  function CheckSsh(port: int, banner: Option<string>): (v: Option<Vulnerability>)
    ensures v.Some? <==> banner.Some? && OutdatedOpenSsh(banner.value)
    ensures v.Some? ==> Reported(v.value, port, "ssh", "High", 75)
  {
    if banner.Some? && OutdatedOpenSsh(banner.value) then
      Some(Vulnerability("ssh_" + IntToString(port), "High", port, "ssh", "Outdated SSH version detected", 75,
        None, "SSH banner: " + banner.value, "Update to latest SSH version"))
    else None
  }

  /** `requests`' headers are a case-insensitive dictionary. */
  predicate HasHeader(names: seq<string>, name: string) {
    exists i | 0 <= i < |names| :: EqualsIgnoreCase(names[i], name)
  }

  /** `check_http_vulnerabilities`. */
  function CheckHttp(port: int, headers: Option<seq<string>>): (v: Option<Vulnerability>)
    ensures v.Some? <==> headers.Some? && !HasHeader(headers.value, "X-Frame-Options")
    ensures v.Some? ==> Reported(v.value, port, "http", "Medium", 50)
  {
    if headers.Some? && !HasHeader(headers.value, "X-Frame-Options") then
      Some(Vulnerability("http_" + IntToString(port), "Medium", port, "http", "Missing X-Frame-Options header", 50,
        None, "Website vulnerable to clickjacking attacks", "Add X-Frame-Options header"))
    else None
  }

  /** `check_https_vulnerabilities`. */
  function CheckHttps(port: int, expired: Option<bool>): (v: Option<Vulnerability>)
    ensures v.Some? <==> expired == Some(true)
    ensures v.Some? ==> Reported(v.value, port, "https", "Medium", 60)
  {
    if expired == Some(true) then
      Some(Vulnerability("https_" + IntToString(port), "Medium", port, "https", "SSL certificate expired", 60,
        None, "SSL certificate has expired", "Renew SSL certificate"))
    else None
  }

  /** `check_rdp_vulnerabilities`. */
  function CheckRdp(port: int, result: Option<int>): (v: Option<Vulnerability>)
    ensures v.Some? <==> result == Some(0)
    ensures v.Some? ==> Reported(v.value, port, "rdp", "Critical", 90)
  {
    if result == Some(0) then
      Some(Vulnerability("rdp_" + IntToString(port), "Critical", port, "rdp", "RDP exposed to internet", 90,
        None, "RDP service accessible from external network", "Restrict RDP access to trusted networks only"))
    else None
  }

  /** The four port and service pairs that have a checker. */
  predicate Checked(port: int, service: string) {
    (port == 22 && service == "ssh") || (port == 80 && service == "http")
    || (port == 443 && service == "https") || (port == 3389 && service == "rdp")
  }

  /** The body of `vulnerability_scan`'s loop for one open port. */
  function Dispatch(port: int, service: string, probes: Probes): (v: Option<Vulnerability>)
    ensures v.Some? ==> Checked(port, service) && v.value.port == port && v.value.service == service
    ensures !Checked(port, service) ==> v.None?
  {
    if port == 22 && service == "ssh" then CheckSsh(port, probes.sshBanner(port))
    else if port == 80 && service == "http" then CheckHttp(port, probes.httpHeaders(port))
    else if port == 443 && service == "https" then CheckHttps(port, probes.certExpired(port))
    else if port == 3389 && service == "rdp" then CheckRdp(port, probes.rdpConnect(port))
    else None
  }

  /** The findings for a sequence of open ports, each port checked by `check`, in port
      order. */
  function PortFindings(ports: seq<int>, check: int -> Option<Vulnerability>): (vs: seq<Vulnerability>)
    ensures |vs| <= |ports|
    decreases |ports|
  {
    if |ports| == 0 then []
    else
      PortFindings(ports[..|ports| - 1], check)
      + match check(ports[|ports| - 1])
        case Some(v) => [v]
        case None => []
  }

  /** The check `vulnerability_scan` applies to an open port. */
  function PortCheck(services: map<int, string>, probes: Probes): int -> Option<Vulnerability> {
    port => Dispatch(port, ServiceOf(services, port), probes)
  }

  /** What `vulnerability_scan` returns: nothing when the port scan failed, otherwise at
      most one finding per open port. */
  function Findings(scan: PortScan, probes: Probes): (vs: seq<Vulnerability>)
    ensures scan.ScanError? ==> vs == []
    ensures scan.PortsFound? ==> |vs| <= |scan.openPorts|
  {
    match scan
    case ScanError(_) => []
    case PortsFound(ports, services) => PortFindings(ports, PortCheck(services, probes))
  }

  /** The findings are the check results of the open ports at increasing positions
      `idx`, and every other open port yields none: at most one finding per open port, in
      port order. */
  lemma {:induction false} PortFindingsSelection(ports: seq<int>, check: int -> Option<Vulnerability>)
    returns (idx: seq<nat>)
    ensures var vs := PortFindings(ports, check);
      && |idx| == |vs| && Increasing(idx)
      && (forall k | 0 <= k < |idx| :: idx[k] < |ports| && check(ports[idx[k]]) == Some(vs[k]))
      && (forall j | 0 <= j < |ports| && j !in idx :: check(ports[j]).None?)
    decreases |ports|
  {
    if |ports| == 0 {
      return [];
    }
    var n := |ports| - 1;
    var init := ports[..n];
    var rest := PortFindingsSelection(init, check);
    assert forall k | 0 <= k < n :: init[k] == ports[k];
    var before := PortFindings(init, check);
    match check(ports[n])
    case Some(v) =>
      idx := rest + [n];
      assert PortFindings(ports, check) == before + [v];
    case None =>
      idx := rest;
      assert PortFindings(ports, check) == before;
  }

  /** Every finding comes from one of the four checked pairs, on an open port, with the
      service the scanner reported for it. */
  lemma FindingsOrigin(scan: PortScan, probes: Probes)
    ensures forall v | v in Findings(scan, probes) ::
      scan.PortsFound? && v.port in scan.openPorts && v.service == ServiceOf(scan.services, v.port)
      && Checked(v.port, v.service)
  {
    if scan.PortsFound? {
      var vs := Findings(scan, probes);
      var check := PortCheck(scan.services, probes);
      var idx := PortFindingsSelection(scan.openPorts, check);
      forall v | v in vs
        ensures v.port in scan.openPorts && v.service == ServiceOf(scan.services, v.port) && Checked(v.port, v.service)
      {
        var k :| 0 <= k < |vs| && vs[k] == v;
        var port := scan.openPorts[idx[k]];
        assert Dispatch(port, ServiceOf(scan.services, port), probes) == Some(v);
      }
    }
  }

  // ---------------------------------------------------------------------------
  // the default analysis

  /** `sum(1 for v in vulnerabilities if v.severity == sev)`. */
  function Count(vs: seq<Vulnerability>, sev: string): (n: nat)
    ensures n <= |vs|
    decreases |vs|
  {
    if |vs| == 0 then 0
    else Count(vs[..|vs| - 1], sev) + (if vs[|vs| - 1].severity == sev then 1 else 0)
  }

  /** `sum(v.risk_score for v in vulnerabilities)`, in tenths. */
  function TotalRisk(vs: seq<Vulnerability>): nat
    decreases |vs|
  {
    if |vs| == 0 then 0 else TotalRisk(vs[..|vs| - 1]) + vs[|vs| - 1].riskScore
  }

  /** `avg_risk`: the mean score on the ten-point scale, or 0 for no findings. */
  function AverageRisk(vs: seq<Vulnerability>): real {
    if |vs| == 0 then 0.0 else (TotalRisk(vs) as real / 10.0) / (|vs| as real)
  }

  /** The executive summary's risk level, compared on the mean as the source writes it. */
  function RiskLevel(vs: seq<Vulnerability>): string {
    if AverageRisk(vs) > 7.0 then "High" else if AverageRisk(vs) > 4.0 then "Medium" else "Low"
  }

  /** Dividing by a positive number keeps a strict comparison with a constant. */
  lemma QuotientAbove(t: real, d: real, c: real)
    requires d > 0.0
    ensures t / d > c <==> t > c * d
  {
    var q := t / d;
    assert q * d == t;
    if q > c {
      assert (q - c) * d > 0.0;
    } else {
      assert (c - q) * d >= 0.0;
    }
  }

  /** The mean of `count` scores totalling `total` tenths exceeds `c` exactly when the
      total exceeds `10 * c * count`. */
  lemma MeanAbove(total: nat, count: nat, c: nat)
    requires count > 0
    ensures (total as real / 10.0) / (count as real) > c as real <==> total > 10 * c * count
  {
    var t := total as real;
    var n := count as real;
    QuotientAbove(t / 10.0, n, c as real);
    QuotientAbove(t, 10.0, c as real * n);
    assert c as real * n * 10.0 == (10 * c * count) as real;
  }

  /** In tenths the two thresholds are exact integer comparisons of the total against
      the count; no findings is always Low. */
  lemma RiskLevelInTenths(vs: seq<Vulnerability>)
    ensures RiskLevel(vs) == "High" <==> TotalRisk(vs) > 70 * |vs|
    ensures RiskLevel(vs) == "Medium" <==> 40 * |vs| < TotalRisk(vs) <= 70 * |vs|
    ensures RiskLevel(vs) == "Low" <==> TotalRisk(vs) <= 40 * |vs|
  {
    if |vs| > 0 {
      MeanAbove(TotalRisk(vs), |vs|, 7);
      MeanAbove(TotalRisk(vs), |vs|, 4);
    }
  }

  /** Whether a finding has a non-empty remediation. */
  predicate HasRemediation(v: Vulnerability) {
    v.remediation != ""
  }

  /** `[v.remediation for v in vulnerabilities if v.remediation]`. */
  function RemediationSteps(vs: seq<Vulnerability>): (steps: seq<string>)
    ensures |steps| <= |vs|
  {
    var kept := Filter(vs, HasRemediation);
    seq(|kept|, i requires 0 <= i < |kept| => kept[i].remediation)
  }

  /** The steps are the non-empty remediations, all of them, in finding order. */
  lemma RemediationStepsSelection(vs: seq<Vulnerability>) returns (idx: seq<nat>)
    ensures var steps := RemediationSteps(vs);
      && |idx| == |steps| && Increasing(idx)
      && (forall k | 0 <= k < |idx| :: idx[k] < |vs| && steps[k] == vs[idx[k]].remediation && steps[k] != "")
      && (forall j | 0 <= j < |vs| && vs[j].remediation != "" :: j in idx)
  {
    idx := FilterSelection(vs, HasRemediation);
  }

  /** The four fields of the dictionary `default_analysis` returns; `averageRisk` is the
      number it formats into `risk_assessment`. */
  datatype LlmAnalysis =
    | Default(averageRisk: real, priorityRecommendations: seq<string>, executiveSummary: string,
              remediationSteps: seq<string>)
    | Parsed(json: string)
    | Wrapped(analysis: string)

  /** `default_analysis`. */
  function DefaultAnalysis(vs: seq<Vulnerability>, target: string): (a: LlmAnalysis)
    ensures a.Default? && |a.priorityRecommendations| == 3
    ensures a.averageRisk == AverageRisk(vs)
    ensures a.averageRisk >= 0.0 && (vs == [] ==> a.averageRisk == 0.0)
    ensures var level := "Risk level: " + RiskLevel(vs);
      |level| <= |a.executiveSummary| && a.executiveSummary[|a.executiveSummary| - |level|..] == level
    ensures a.remediationSteps == RemediationSteps(vs)
  {
    var scanned := "Scan of " + target + " revealed " + NatToString(|vs|) + " vulnerabilities. ";
    var level := "Risk level: " + RiskLevel(vs);
    assert (scanned + level)[|scanned|..] == level;
    Default(AverageRisk(vs),
      ["Address " + NatToString(Count(vs, "Critical")) + " critical vulnerabilities immediately",
       "Address " + NatToString(Count(vs, "High")) + " high-risk vulnerabilities within 24 hours",
       "Address " + NatToString(Count(vs, "Medium")) + " medium-risk vulnerabilities within 1 week"],
      scanned + level,
      RemediationSteps(vs))
  }

  // ---------------------------------------------------------------------------
  // the language-model call

  /** What the completion request comes to: any exception (transport, timeout, a
      response object without the expected fields), or an HTTP status with the message
      content and whether that content parses as JSON. */
  datatype LlmResponse = Raised | Answered(status: int, content: string, isJson: bool)

  /** `if not self.llm_api_key`: no key, or the empty string. */
  predicate KeyGiven(apiKey: Option<string>) {
    apiKey.Some? && apiKey.value != ""
  }

  /** `analyze_with_llm`: the default analysis without a key, on a non-200 status and on
      any exception; otherwise the parsed content, or the content wrapped as
      `{'analysis': content}` when it is not JSON. */
  function AnalyzeWithLlm(apiKey: Option<string>, response: LlmResponse, vs: seq<Vulnerability>, target: string)
    : (a: LlmAnalysis)
    ensures a.Default? <==> !KeyGiven(apiKey) || response.Raised? || response.status != 200
    ensures a.Default? ==> a == DefaultAnalysis(vs, target)
    ensures a.Parsed? <==> KeyGiven(apiKey) && response.Answered? && response.status == 200 && response.isJson
    ensures a.Wrapped? <==> KeyGiven(apiKey) && response.Answered? && response.status == 200 && !response.isJson
    ensures a.Parsed? ==> response.Answered? && a.json == response.content
    ensures a.Wrapped? ==> response.Answered? && a.analysis == response.content
  {
    if !KeyGiven(apiKey) then DefaultAnalysis(vs, target)
    else match response
      case Raised => DefaultAnalysis(vs, target)
      case Answered(status, content, isJson) =>
        if status != 200 then DefaultAnalysis(vs, target)
        else if isJson then Parsed(content)
        else Wrapped(content)
  }

  // ---------------------------------------------------------------------------
  // the report

  /** The report's `summary`. */
  datatype SeverityCounts = SeverityCounts(critical: nat, high: nat, medium: nat, low: nat)

  /** The dictionary `generate_report` builds; `riskScore` is the average before it is
      rounded to one decimal. */
  datatype ScanReport = ScanReport(
    target: string,
    scanTime: nat,
    vulnerabilities: seq<Vulnerability>,
    vulnerabilityCount: nat,
    riskScore: real,
    llmAnalysis: LlmAnalysis,
    summary: SeverityCounts)

  /** The report for a target's findings and their analysis. */
  function ReportOf(target: string, now: nat, vs: seq<Vulnerability>, analysis: LlmAnalysis): (r: ScanReport)
    ensures r.target == target && r.vulnerabilities == vs && r.vulnerabilityCount == |vs|
    ensures r.llmAnalysis == analysis && r.riskScore == AverageRisk(vs)
  {
    ScanReport(target, now, vs, |vs|, AverageRisk(vs), analysis,
      SeverityCounts(Count(vs, "Critical"), Count(vs, "High"), Count(vs, "Medium"), Count(vs, "Low")))
  }

  /** One of the four labels the summary counts. */
  predicate Labelled(v: Vulnerability) {
    v.severity in {"Critical", "High", "Medium", "Low"}
  }

  /** The four counts never exceed the number of findings, and add up to it exactly when
      every finding carries one of the four capitalised labels. */
  lemma {:induction false} CountsAddUp(vs: seq<Vulnerability>)
    ensures Count(vs, "Critical") + Count(vs, "High") + Count(vs, "Medium") + Count(vs, "Low") <= |vs|
    ensures Count(vs, "Critical") + Count(vs, "High") + Count(vs, "Medium") + Count(vs, "Low") == |vs|
      <==> forall i | 0 <= i < |vs| :: Labelled(vs[i])
    decreases |vs|
  {
    if |vs| > 0 {
      var init := vs[..|vs| - 1];
      CountsAddUp(init);
      assert forall i | 0 <= i < |init| :: init[i] == vs[i];
    }
  }

  /** The summary of a report counts what the default analysis counts, so a report
      analysed by default quotes its own summary. */
  lemma ReportSummaryMatchesDefault(target: string, now: nat, vs: seq<Vulnerability>)
    ensures var r := ReportOf(target, now, vs, DefaultAnalysis(vs, target));
      && r.llmAnalysis.priorityRecommendations[0] ==
           "Address " + NatToString(r.summary.critical) + " critical vulnerabilities immediately"
      && r.llmAnalysis.priorityRecommendations[1] ==
           "Address " + NatToString(r.summary.high) + " high-risk vulnerabilities within 24 hours"
      && r.llmAnalysis.priorityRecommendations[2] ==
           "Address " + NatToString(r.summary.medium) + " medium-risk vulnerabilities within 1 week"
  {
  }

  /** `PentestEngine`: the API key and the reports by target. */
  class Engine {
    var scanResults: map<string, ScanReport>
    var llmApiKey: Option<string>

    constructor()
      ensures scanResults == map[] && llmApiKey == None
    {
      scanResults := map[];
      llmApiKey := None;
    }

    /** `set_llm_api_key`. */
    method SetLlmApiKey(apiKey: string)
      modifies this
      ensures llmApiKey == Some(apiKey) && scanResults == old(scanResults)
    {
      llmApiKey := Some(apiKey);
    }

    /** `vulnerability_scan`: the loop over the open ports, appending each checker's
        finding. */
    method VulnerabilityScan(scan: PortScan, probes: Probes) returns (vulns: seq<Vulnerability>)
      ensures vulns == Findings(scan, probes)
    {
      if scan.ScanError? {
        return [];
      }
      var ports := scan.openPorts;
      vulns := [];
      for i := 0 to |ports|
        invariant vulns == PortFindings(ports[..i], PortCheck(scan.services, probes))
      {
        assert ports[..i + 1][..i] == ports[..i];
        var port := ports[i];
        var v := Dispatch(port, ServiceOf(scan.services, port), probes);
        if v.Some? {
          vulns := vulns + [v.value];
        }
      }
      assert ports[..|ports|] == ports;
    }

    /** `generate_report`: scans the target, analyses the findings with the key held now,
        and stores the report under the target, replacing any earlier one. */
    method GenerateReport(target: string, scan: PortScan, probes: Probes, response: LlmResponse, now: nat)
      returns (report: ScanReport)
      modifies this
      ensures var vs := Findings(scan, probes);
        report == ReportOf(target, now, vs, AnalyzeWithLlm(llmApiKey, response, vs, target))
      ensures scanResults == old(scanResults)[target := report] && llmApiKey == old(llmApiKey)
    {
      var vulns := VulnerabilityScan(scan, probes);
      var analysis := AnalyzeWithLlm(llmApiKey, response, vulns, target);
      report := ReportOf(target, now, vulns, analysis);
      scanResults := scanResults[target := report];
    }

    /** `GET /api/results/<target>`: the stored report, or 404. */
    method GetResults(target: string) returns (status: nat, report: Option<ScanReport>)
      ensures target in scanResults ==> status == 200 && report == Some(scanResults[target])
      ensures target !in scanResults ==> status == 404 && report == None
    {
      if target in scanResults {
        return 200, Some(scanResults[target]);
      }
      return 404, None;
    }
  }
}
