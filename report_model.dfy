/** The report value built by the report controller (backend/src/controllers/reportController.js)
    and the helpers that derive its statistics, scores, compliance statuses and next steps
    from a scan's findings. */
module ReportModel {
  import opened Text
  import opened Domain

  // ---------------------------------------------------------------------------
  // severity breakdown

  datatype Breakdown = Breakdown(total: nat, critical: nat, high: nat, medium: nat, low: nat)

  predicate IsDeclaredSeverity(sev: string) {
    sev == "critical" || sev == "high" || sev == "medium" || sev == "low"
  }

  /** `vulnerabilityBreakdown`: the list length and one exact-match count per severity. */
  function BreakdownOf(fs: seq<Finding>): Breakdown {
    Breakdown(|fs|, CountSeverity(fs, "critical"), CountSeverity(fs, "high"),
      CountSeverity(fs, "medium"), CountSeverity(fs, "low"))
  }

  function DeclaredCount(b: Breakdown): nat {
    b.critical + b.high + b.medium + b.low
  }

  /** The four severity counts never exceed the total, and they add up to it exactly when
      every finding carries one of the four declared severities. */
  lemma {:induction false} BreakdownAddsUp(fs: seq<Finding>)
    ensures DeclaredCount(BreakdownOf(fs)) <= BreakdownOf(fs).total
    ensures DeclaredCount(BreakdownOf(fs)) == BreakdownOf(fs).total
        <==> forall i | 0 <= i < |fs| :: IsDeclaredSeverity(fs[i].severity)
    decreases |fs|
  {
    if |fs| > 0 {
      var init := fs[..|fs| - 1];
      BreakdownAddsUp(init);
      assert forall i | 0 <= i < |init| :: init[i] == fs[i];
    }
  }

  // ---------------------------------------------------------------------------
  // risk score and business impact

  const SensitivePorts: seq<int> := [21, 22, 23, 80, 443]

  /** `severityScores[severity] || 1`. */
  function BaseScore(severity: string): nat {
    if severity == "critical" then 10
    else if severity == "high" then 7
    else if severity == "medium" then 4
    else 1
  }

  /** `calculateRiskScore`, in tenths of a point. The source computes
      `Math.min(10, Math.round(base * multiplier * 10) / 10)` in floating point; since
      `base * 12` is an integer for every base, the rounding lands on it exactly, so the
      score is `base * 12` tenths on a sensitive port and `base * 10` otherwise, capped
      at 100 tenths. */
  function RiskScore(f: Finding): (tenths: nat)
    ensures tenths in {10, 12, 40, 48, 70, 84, 100}
  {
    var raw := BaseScore(f.severity) * (if f.port in SensitivePorts then 12 else 10);
    if raw < 100 then raw else 100
  }

  /** The score per severity and port: critical is always capped at 10.0; the others gain
      a fifth on the five sensitive ports; an undeclared severity scores like low. */
  lemma RiskScoreTable(f: Finding)
    ensures f.severity == "critical" ==> RiskScore(f) == 100
    ensures f.severity == "high" ==> RiskScore(f) == if f.port in SensitivePorts then 84 else 70
    ensures f.severity == "medium" ==> RiskScore(f) == if f.port in SensitivePorts then 48 else 40
    ensures !IsDeclaredSeverity(f.severity) || f.severity == "low" ==>
      RiskScore(f) == if f.port in SensitivePorts then 12 else 10
  {
  }

  /** A high finding on port 443 scores 8.4; a critical one on port 23 is capped at 10. */
  lemma RiskScoreExamples(f: Finding)
    ensures f.severity == "high" && f.port == 443 ==> RiskScore(f) == 84
    ensures f.severity == "critical" && f.port == 23 ==> RiskScore(f) == 100
    ensures f.severity == "medium" && f.port == 8080 ==> RiskScore(f) == 40
  {
  }

  const ImpactCritical := "High - Potential for complete system compromise, data breach, or service disruption"
  const ImpactHigh := "Medium-High - Significant security risk with potential for unauthorized access"
  const ImpactMedium := "Medium - Moderate security risk requiring attention during maintenance cycles"
  const ImpactLow := "Low - Minor security concern with limited impact"
  const ImpactUnknown := "Unknown impact level"

  /** `assessBusinessImpact`. */
  function BusinessImpact(f: Finding): (impact: string)
    ensures impact == ImpactUnknown <==> !IsDeclaredSeverity(f.severity)
  {
    match f.severity
    case "critical" => ImpactCritical
    case "high" => ImpactHigh
    case "medium" => ImpactMedium
    case "low" => ImpactLow
    case _ => ImpactUnknown
  }

  /** The impact text tells the declared severities apart: two findings get the same text
      exactly when they have the same declared severity or both have an undeclared one. */
  lemma BusinessImpactDeterminesSeverity(f: Finding, g: Finding)
    ensures BusinessImpact(f) == BusinessImpact(g) <==>
      (f.severity == g.severity || (!IsDeclaredSeverity(f.severity) && !IsDeclaredSeverity(g.severity)))
  {
    assert |ImpactCritical| == 83 && |ImpactHigh| == 78 && |ImpactMedium| == 77;
    assert |ImpactLow| == 48 && |ImpactUnknown| == 20;
  }

  /** A finding as the report lists it: the scan's finding with its score and impact. */
  datatype ScoredFinding = ScoredFinding(finding: Finding, riskScore: nat, businessImpact: string)

  /** `scan.vulnerabilities.map((vuln) => ({...vuln, riskScore, businessImpact}))`. */
  function ScoreFindings(fs: seq<Finding>): (scored: seq<ScoredFinding>)
    ensures |scored| == |fs|
    ensures forall i | 0 <= i < |fs| ::
      && scored[i].finding == fs[i]
      && scored[i].riskScore == RiskScore(fs[i]) && scored[i].businessImpact == BusinessImpact(fs[i])
      && 10 <= scored[i].riskScore <= 100
      && (scored[i].businessImpact == ImpactUnknown <==> !IsDeclaredSeverity(fs[i].severity))
  {
    seq(|fs|, i requires 0 <= i < |fs| => ScoredFinding(fs[i], RiskScore(fs[i]), BusinessImpact(fs[i])))
  }

  // ---------------------------------------------------------------------------
  // compliance

  datatype Compliance = Compliance(pciDss: string, iso27001: string, nist: string, gdpr: string)

  /** A finding name "includes" a word after `toLowerCase`. Lower-casing only the ASCII
      letters is exact here: the four words are ASCII, and no other character lower-cases
      to an ASCII letter inside them. */
  predicate NameMentions(f: Finding, word: string) {
    Contains(Lower(f.name), word)
  }

  predicate HasHighRisk(fs: seq<Finding>) {
    exists i | 0 <= i < |fs| :: fs[i].severity == "critical" || fs[i].severity == "high"
  }

  predicate HasEncryptionIssue(fs: seq<Finding>) {
    exists i | 0 <= i < |fs| :: NameMentions(fs[i], "ssl") || NameMentions(fs[i], "encryption")
  }

  predicate HasAccessControlIssue(fs: seq<Finding>) {
    exists i | 0 <= i < |fs| :: NameMentions(fs[i], "credential") || NameMentions(fs[i], "authentication")
  }

  const NonCompliant := "Non-Compliant"
  const PciFailing := NonCompliant + " - " + "Encryption vulnerabilities detected"
  const IsoFailing := NonCompliant + " - " + "High-risk vulnerabilities present"
  const NistFailing := NonCompliant + " - " + "Access control issues identified"
  const GdprFailing := "Risk Present" + " - " + "Data protection measures may be compromised"

  /** `generateComplianceInfo`. */
  function ComplianceInfo(fs: seq<Finding>): Compliance {
    Compliance(
      if HasEncryptionIssue(fs) then PciFailing else "Review Required",
      if HasHighRisk(fs) then IsoFailing else "Compliant",
      if HasAccessControlIssue(fs) then NistFailing else "Review Required",
      if HasHighRisk(fs) then GdprFailing else "Acceptable Risk")
  }

  /** Each standard's status is decided by one signal only: two finding lists that agree
      on that signal get the same status, whatever else differs. */
  lemma ComplianceDependsOnOneSignal(a: seq<Finding>, b: seq<Finding>)
    ensures HasEncryptionIssue(a) == HasEncryptionIssue(b) ==> ComplianceInfo(a).pciDss == ComplianceInfo(b).pciDss
    ensures HasHighRisk(a) == HasHighRisk(b) ==> ComplianceInfo(a).iso27001 == ComplianceInfo(b).iso27001
    ensures HasHighRisk(a) == HasHighRisk(b) ==> ComplianceInfo(a).gdpr == ComplianceInfo(b).gdpr
    ensures HasAccessControlIssue(a) == HasAccessControlIssue(b) ==> ComplianceInfo(a).nist == ComplianceInfo(b).nist
  {
  }

  /** The text before the first `" - "`, or the whole string when there is none: the
      verdict the report view shows. */
  function VerdictOf(s: string): string
    decreases |s|
  {
    if |s| < 3 then s else if SeparatorAt(s, 0) then "" else [s[0]] + VerdictOf(s[1..])
  }

  lemma {:induction false} VerdictOfPlain(s: string)
    requires NoSeparator(s)
    ensures VerdictOf(s) == s
    decreases |s|
  {
    if |s| >= 3 {
      assert !SeparatorAt(s, 0);
      assert forall i | 0 <= i < |s| - 3 :: SeparatorAt(s[1..], i) == SeparatorAt(s, i + 1);
      VerdictOfPlain(s[1..]);
    }
  }

  lemma {:induction false} VerdictOfJoined(verdict: string, reason: string)
    requires NoSeparator(verdict)
    requires !(|verdict| >= 2 && verdict[|verdict| - 2] == ' ' && verdict[|verdict| - 1] == '-')
    ensures VerdictOf(verdict + " - " + reason) == verdict
    decreases |verdict|
  {
    var s := verdict + " - " + reason;
    if |verdict| > 0 {
      var tail := verdict[1..];
      assert s[1..] == tail + " - " + reason;
      assert |verdict| >= 3 ==> s[..3] == verdict[..3];
      assert !SeparatorAt(verdict, 0) && !SeparatorAt(s, 0);
      assert forall i | 0 <= i < |tail| - 2 :: SeparatorAt(tail, i) == SeparatorAt(verdict, i + 1);
      VerdictOfJoined(tail, reason);
    } else {
      assert SeparatorAt(s, 0);
    }
  }

  /** Each compliance status either holds exactly one `" - "`, with the verdict before
      it, or none at all; the verdict is "Non-Compliant" (or, for GDPR, "Risk Present")
      exactly when the standard's signal is raised. */
  lemma PciStatusSplitsCleanly(fs: seq<Finding>)
    ensures var status := ComplianceInfo(fs).pciDss;
      && |SeparatorPositions(status)| == (if HasEncryptionIssue(fs) then 1 else 0)
      && VerdictOf(status) == (if HasEncryptionIssue(fs) then NonCompliant else "Review Required")
  {
    if HasEncryptionIssue(fs) { PciFailingStatus(); } else { PassingStatus("Review Required"); }
  }

  lemma IsoStatusSplitsCleanly(fs: seq<Finding>)
    ensures var status := ComplianceInfo(fs).iso27001;
      && |SeparatorPositions(status)| == (if HasHighRisk(fs) then 1 else 0)
      && VerdictOf(status) == (if HasHighRisk(fs) then NonCompliant else "Compliant")
  {
    if HasHighRisk(fs) { IsoFailingStatus(); } else { PassingStatus("Compliant"); }
  }

  lemma NistStatusSplitsCleanly(fs: seq<Finding>)
    ensures var status := ComplianceInfo(fs).nist;
      && |SeparatorPositions(status)| == (if HasAccessControlIssue(fs) then 1 else 0)
      && VerdictOf(status) == (if HasAccessControlIssue(fs) then NonCompliant else "Review Required")
  {
    if HasAccessControlIssue(fs) { NistFailingStatus(); } else { PassingStatus("Review Required"); }
  }

  lemma GdprStatusSplitsCleanly(fs: seq<Finding>)
    ensures var status := ComplianceInfo(fs).gdpr;
      && |SeparatorPositions(status)| == (if HasHighRisk(fs) then 1 else 0)
      && VerdictOf(status) == (if HasHighRisk(fs) then "Risk Present" else "Acceptable Risk")
  {
    if HasHighRisk(fs) { GdprFailingStatus(); } else { PassingStatus("Acceptable Risk"); }
  }

  lemma PciFailingStatus()
    ensures |SeparatorPositions(PciFailing)| == 1 && VerdictOf(PciFailing) == NonCompliant
  {
    FailingStatus(NonCompliant, "Encryption vulnerabilities detected");
  }

  lemma IsoFailingStatus()
    ensures |SeparatorPositions(IsoFailing)| == 1 && VerdictOf(IsoFailing) == NonCompliant
  {
    FailingStatus(NonCompliant, "High-risk vulnerabilities present");
  }

  lemma NistFailingStatus()
    ensures |SeparatorPositions(NistFailing)| == 1 && VerdictOf(NistFailing) == NonCompliant
  {
    FailingStatus(NonCompliant, "Access control issues identified");
  }

  lemma GdprFailingStatus()
    ensures |SeparatorPositions(GdprFailing)| == 1 && VerdictOf(GdprFailing) == "Risk Present"
  {
    FailingStatus("Risk Present", "Data protection measures may be compromised");
  }

  lemma FailingStatus(verdict: string, reason: string)
    requires NoSeparator(verdict) && NoSeparator(reason)
    requires !(|verdict| >= 2 && verdict[|verdict| - 2] == ' ' && verdict[|verdict| - 1] == '-')
    requires !(|reason| >= 2 && reason[0] == '-' && reason[1] == ' ')
    ensures |SeparatorPositions(verdict + " - " + reason)| == 1
    ensures VerdictOf(verdict + " - " + reason) == verdict
  {
    OneSeparator(verdict, reason);
    VerdictOfJoined(verdict, reason);
  }

  lemma PassingStatus(status: string)
    requires NoSeparator(status)
    ensures |SeparatorPositions(status)| == 0
    ensures VerdictOf(status) == status
  {
    NoSeparatorPositions(status);
    VerdictOfPlain(status);
  }

  // ---------------------------------------------------------------------------
  // next steps

  datatype NextStep = NextStep(priority: string, action: string, timeline: string)

  const ImmediateStep := NextStep("IMMEDIATE", "Address critical vulnerabilities within 24-48 hours", "1-2 days")
  const HighStep := NextStep("HIGH", "Remediate high-severity vulnerabilities", "1-2 weeks")
  const MediumStep := NextStep("MEDIUM", "Schedule regular security assessments", "Quarterly")
  const LowStep := NextStep("LOW", "Implement continuous monitoring", "Ongoing")

  /** Urgency order of the next-step priorities. */
  function StepRank(step: NextStep): nat {
    match step.priority
    case "IMMEDIATE" => 0
    case "HIGH" => 1
    case "MEDIUM" => 2
    case _ => 3
  }

  /** The steps `generateNextSteps` pushes, as one expression. */
  function NextSteps(fs: seq<Finding>): seq<NextStep> {
    (if HasSeverity(fs, "critical") then [ImmediateStep] else [])
    + (if HasSeverity(fs, "high") then [HighStep] else [])
    + [MediumStep, LowStep]
  }

  /** `generateNextSteps`: pushes an IMMEDIATE step when a critical finding exists, a HIGH
      step when a high finding exists, then always MEDIUM and LOW. */
  method GenerateNextSteps(fs: seq<Finding>) returns (steps: seq<NextStep>)
    ensures steps == NextSteps(fs)
    ensures |steps| == 2 + (if HasSeverity(fs, "critical") then 1 else 0) + (if HasSeverity(fs, "high") then 1 else 0)
    ensures steps[0] == ImmediateStep <==> HasSeverity(fs, "critical")
    ensures (exists i | 0 <= i < |steps| :: steps[i] == HighStep) <==> HasSeverity(fs, "high")
    ensures steps[|steps| - 2] == MediumStep && steps[|steps| - 1] == LowStep
    ensures forall i, j | 0 <= i < j < |steps| :: StepRank(steps[i]) < StepRank(steps[j])
  {
    assert |ImmediateStep.priority| == 9 && |HighStep.priority| == 4;
    assert |MediumStep.priority| == 6 && |LowStep.priority| == 3;
    steps := [];
    var hasCritical := exists i | 0 <= i < |fs| :: fs[i].severity == "critical";
    var hasHigh := exists i | 0 <= i < |fs| :: fs[i].severity == "high";
    if hasCritical {
      steps := steps + [ImmediateStep];
    }
    if hasHigh {
      steps := steps + [HighStep];
    }
    steps := steps + [MediumStep];
    steps := steps + [LowStep];
    if hasHigh {
      assert steps[|steps| - 3] == HighStep;
    } else {
      assert forall i | 0 <= i < |steps| :: steps[i] in {ImmediateStep, MediumStep, LowStep};
    }
  }

  // ---------------------------------------------------------------------------
  // the report

  datatype ScanMetadata = ScanMetadata(scanType: string, completedAt: Option<nat>, toolsUsed: seq<string>)

  const ToolsUsed: seq<string> := ["Nmap", "Custom Vulnerability Scanner", "AI Analysis Engine"]

  datatype Report = Report(
    id: string,
    scanId: string,
    target: string,
    scanType: string,
    createdAt: nat,
    executiveSummary: string,
    summary: string,
    riskAssessment: string,
    detailedAnalysis: string,
    recommendations: seq<string>,
    remediationSteps: seq<string>,
    vulnerabilityBreakdown: Breakdown,
    vulnerabilities: seq<ScoredFinding>,
    scanMetadata: ScanMetadata,
    compliance: Compliance,
    nextSteps: seq<NextStep>)

  /** `GET /:id`: the first stored report with that id, or none (answered with 404). */
  function FindReport(reports: seq<Report>, id: string): (found: Option<Report>)
    ensures found.None? <==> forall k | 0 <= k < |reports| :: reports[k].id != id
    ensures found.Some? ==> found.value.id == id
    ensures found.Some? ==> exists k | 0 <= k < |reports| ::
      reports[k] == found.value && forall j | 0 <= j < k :: reports[j].id != id
    decreases |reports|
  {
    if |reports| == 0 then None
    else if reports[0].id == id then Some(reports[0])
    else
      var rest := FindReport(reports[1..], id);
      assert forall k | 0 <= k < |reports| - 1 :: reports[1..][k] == reports[k + 1];
      rest
  }
}
