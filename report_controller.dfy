/** The report routes (backend/src/controllers/reportController.js): `POST /generate`, which
    checks its request against the scan store and appends one report, and `GET /:id`. The
    two provider calls, the fresh report id and the clock are parameters. */
module ReportController {
  import opened Domain
  import opened ReportModel
  import Gemini
  import opened Text
  import opened Server

  /** The status codes the handler answers with. */
  const Created: nat := 201
  const BadRequest: nat := 400
  const NotFound: nat := 404

  /** A request body's `scanId` fails `!scanId` when it is absent or the empty string. */
  predicate ScanIdGiven(scanId: Option<string>) {
    scanId.Some? && scanId.value != ""
  }

  /** The report the handler assembles from the scan's fields, the analysis and the
      executive summary. */
  function AssembleReport(id: string, createdAt: nat, scanId: string, target: string, scanType: string,
                          findings: seq<Finding>, completedAt: Option<nat>, analysis: Analysis,
                          executiveSummary: string, nextSteps: seq<NextStep>): (r: Report)
    ensures r.id == id && r.createdAt == createdAt
    ensures r.scanId == scanId && r.target == target && r.scanType == scanType
    ensures r.vulnerabilityBreakdown == BreakdownOf(findings) && r.vulnerabilityBreakdown.total == |findings|
    ensures r.vulnerabilities == ScoreFindings(findings) && |r.vulnerabilities| == |findings|
    ensures forall i | 0 <= i < |findings| :: r.vulnerabilities[i].finding == findings[i]
    ensures r.summary == analysis.summary && r.executiveSummary == executiveSummary
    ensures r.riskAssessment == analysis.riskAssessment && r.detailedAnalysis == analysis.detailedAnalysis
    ensures r.recommendations == analysis.recommendations && r.remediationSteps == analysis.remediationSteps
    ensures r.compliance == ComplianceInfo(findings) && r.nextSteps == nextSteps
    ensures r.scanMetadata == ScanMetadata(scanType, completedAt, ToolsUsed)
  {
    Report(id, scanId, target, scanType, createdAt, executiveSummary,
      analysis.summary, analysis.riskAssessment, analysis.detailedAnalysis,
      analysis.recommendations, analysis.remediationSteps,
      BreakdownOf(findings), ScoreFindings(findings),
      ScanMetadata(scanType, completedAt, ToolsUsed),
      ComplianceInfo(findings), nextSteps)
  }

  /** The scan a request names, when it names one that exists. */
  function RequestedScan(scans: seq<Scan>, scanId: Option<string>): Option<Scan> {
    if ScanIdGiven(scanId) then FindScan(scans, scanId.value) else None
  }

  /** The code `POST /generate` answers with, checked in the handler's order. */
  function GenerateStatus(scans: seq<Scan>, scanId: Option<string>): nat
    reads scans
  {
    if !ScanIdGiven(scanId) then BadRequest
    else if FindScan(scans, scanId.value).None? then NotFound
    else if FindScan(scans, scanId.value).value.status != "completed" then BadRequest
    else Created
  }

  /** A report is created exactly for a given id naming an existing, completed scan;
      otherwise the answer is 400 for a missing id or an unfinished scan and 404 for an
      unknown one. */
  lemma GenerateStatusCases(scans: seq<Scan>, scanId: Option<string>)
    ensures GenerateStatus(scans, scanId) == Created <==>
      RequestedScan(scans, scanId).Some? && RequestedScan(scans, scanId).value.status == "completed"
    ensures GenerateStatus(scans, scanId) == NotFound <==>
      ScanIdGiven(scanId) && forall k | 0 <= k < |scans| :: scans[k].id != scanId.value
    ensures GenerateStatus(scans, scanId) == BadRequest <==>
      !ScanIdGiven(scanId) || (RequestedScan(scans, scanId).Some? && RequestedScan(scans, scanId).value.status != "completed")
  {
  }

  /** `POST /generate`, for any analysis and executive-summary service: the answer is
      `GenerateStatus`; every rejection leaves the reports as they were, and a success
      appends exactly one report, the one the scan yields. The scans are never changed. */
  method GenerateWith(store: Store, scanId: Option<string>,
                      analyze: (seq<Finding>, string) -> Analysis,
                      summarize: (string, seq<Finding>) -> string, reportId: string, now: nat)
    returns (status: nat, report: Option<Report>)
    modifies store
    ensures store.scans == old(store.scans)
    ensures status == GenerateStatus(store.scans, scanId)
    ensures status != Created ==> report.None? && store.reports == old(store.reports)
    ensures status == Created ==>
      && report.Some? && store.reports == old(store.reports) + [report.value]
      && var scan := RequestedScan(store.scans, scanId).value;
         report.value == ReportFor(reportId, now, scan.id, scan.target, scan.scanType,
           old(scan.vulnerabilities), old(scan.completedAt), analyze, summarize)
  {
    status := GenerateStatus(store.scans, scanId);
    if status != Created {
      return status, None;
    }
    var scan := RequestedScan(store.scans, scanId).value;
    var r := BuildReport(reportId, now, scan.id, scan.target, scan.scanType, scan.vulnerabilities,
      scan.completedAt, analyze, summarize);
    store.reports := store.reports + [r];
    return Created, Some(r);
  }

  /** `POST /generate` wired to the Gemini service, whose two calls answer with the given
      provider outcomes. */
  method Generate(store: Store, scanId: Option<string>, analysisOutcome: ProviderOutcome,
                  summaryOutcome: ProviderOutcome, reportId: string, now: nat)
    returns (status: nat, report: Option<Report>)
    modifies store
    ensures store.scans == old(store.scans)
    ensures status == GenerateStatus(store.scans, scanId)
    ensures status != Created ==> report.None? && store.reports == old(store.reports)
    ensures status == Created ==>
      && report.Some? && store.reports == old(store.reports) + [report.value]
      && var scan := RequestedScan(store.scans, scanId).value;
         report.value == ReportFor(reportId, now, scan.id, scan.target, scan.scanType,
           old(scan.vulnerabilities), old(scan.completedAt),
           Gemini.Analyzer(analysisOutcome), Gemini.Summarizer(summaryOutcome))
  {
    status, report := GenerateWith(store, scanId,
      Gemini.Analyzer(analysisOutcome), Gemini.Summarizer(summaryOutcome), reportId, now);
  }

  /** The report a completed scan yields: its fields, the analysis of its findings, the
      executive summary and the next steps. */
  function ReportFor(reportId: string, now: nat, scanId: string, target: string, scanType: string,
                     fs: seq<Finding>, completedAt: Option<nat>,
                     analyze: (seq<Finding>, string) -> Analysis,
                     summarize: (string, seq<Finding>) -> string): Report
  {
    AssembleReport(reportId, now, scanId, target, scanType, fs, completedAt,
      analyze(fs, target), summarize(target, fs), NextSteps(fs))
  }

  /** Whatever services are wired in, the report carries the analysis's summary and
      recommendations, the executive summary as given, one scored entry per finding and
      the next steps of the findings. */
  lemma ReportForParts(reportId: string, now: nat, scanId: string, target: string, scanType: string,
                       fs: seq<Finding>, completedAt: Option<nat>,
                       analyze: (seq<Finding>, string) -> Analysis,
                       summarize: (string, seq<Finding>) -> string)
    ensures var r := ReportFor(reportId, now, scanId, target, scanType, fs, completedAt, analyze, summarize);
      && r.summary == analyze(fs, target).summary
      && r.recommendations == analyze(fs, target).recommendations
      && r.executiveSummary == summarize(target, fs)
      && |r.vulnerabilities| == |fs|
      && r.nextSteps == NextSteps(fs)
  {
  }

  /** With the Gemini service wired in, a report's summary always has text (the analysis
      falls back to the mock one when the provider has no key or fails), its executive
      summary is trimmed, and it scores every finding of the scan. */
  lemma GeminiReportShape(reportId: string, now: nat, scanId: string, target: string, scanType: string,
                          fs: seq<Finding>, completedAt: Option<nat>,
                          analysisOutcome: ProviderOutcome, summaryOutcome: ProviderOutcome)
    ensures var r := ReportFor(reportId, now, scanId, target, scanType, fs, completedAt,
              Gemini.Analyzer(analysisOutcome), Gemini.Summarizer(summaryOutcome));
      && |r.summary| >= 10
      && IsTrimmed(r.executiveSummary)
      && |r.vulnerabilities| == |fs|
      && (!analysisOutcome.Responded? ==> r.recommendations == Gemini.Recommendations)
      && r.nextSteps == NextSteps(fs)
  {
    var analyze, summarize := Gemini.Analyzer(analysisOutcome), Gemini.Summarizer(summaryOutcome);
    ReportForParts(reportId, now, scanId, target, scanType, fs, completedAt, analyze, summarize);
    var a := Gemini.AnalyzeVulnerabilities(analysisOutcome, fs, target);
    assert analyze(fs, target) == a;
    assert summarize(target, fs) == Gemini.GenerateExecutiveSummary(summaryOutcome, target, fs);
  }

  /** The `try` block up to the push: the two service calls and the report they make. */
  method BuildReport(reportId: string, now: nat, scanId: string, target: string, scanType: string,
                     fs: seq<Finding>, completedAt: Option<nat>,
                     analyze: (seq<Finding>, string) -> Analysis,
                     summarize: (string, seq<Finding>) -> string) returns (r: Report)
    ensures r == ReportFor(reportId, now, scanId, target, scanType, fs, completedAt, analyze, summarize)
  {
    var analysis := analyze(fs, target);
    var executiveSummary := summarize(target, fs);
    var nextSteps := GenerateNextSteps(fs);
    r := AssembleReport(reportId, now, scanId, target, scanType, fs, completedAt, analysis, executiveSummary, nextSteps);
  }

  /** `GET /:id`: the report, or 404 when none has that id. */
  method GetReport(store: Store, id: string) returns (status: nat, report: Option<Report>)
    ensures report == FindReport(store.reports, id)
    ensures status == NotFound <==> report.None?
    ensures report.Some? ==> status == 200 && report.value.id == id && report.value in store.reports
  {
    report := FindReport(store.reports, id);
    if report.None? {
      return NotFound, None;
    }
    assert report.value in store.reports;
    return 200, report;
  }
}
