/** The Gemini analysis service (backend/src/services/geminiService.js): section extraction
    from provider text with a plausibility fallback, the local mock analysis, the
    priority-sorted remediation steps and the executive summary. The provider call is the
    `ProviderOutcome` the caller passes in. */
module Gemini {
  import opened Text
  import opened Domain
  import opened Sections
  import opened PrioritySort

  // ---------------------------------------------------------------------------
  // sections

  /** `NAME:?\s*(...)(?=\n\n|\n[A-Z_]+:|$)`, `\*\*NAME\*\*:?\s*(...)(?=\n\n|\n\*\*|$)` and
      `## NAME\s*(...)(?=\n\n|\n##|$)`, all with the `i` flag, tried in this order. */
  const Patterns: seq<Pattern> := [
    Pattern("", "", true, BlankLineOrLabel),
    Pattern("**", "**", true, BlankLineOrBold),
    Pattern("## ", "", false, BlankLineOrHash)]

  /** What `extractSection` returns. */
  function Section(content: string, name: string): string {
    FirstSection(Patterns, content, name)
  }

  /** `extractSection`: the first pattern with a non-empty capture gives the trimmed
      capture; when none does, the empty string. */
  method ExtractSection(content: string, name: string) returns (section: string)
    ensures section == Section(content, name)
  {
    var k := 0;
    while k < |Patterns|
      invariant 0 <= k <= |Patterns|
      invariant FirstSection(Patterns[k..], content, name) == Section(content, name)
    {
      var m := Capture(Patterns[k], content, name);
      FirstSectionStep(Patterns, k, content, name);
      if m.Some? && m.value != "" {
        return Trim(m.value);
      }
      k := k + 1;
    }
    return "";
  }

  // ---------------------------------------------------------------------------
  // list sections

  predicate IsBullet(c: char) { c == '-' || c == '*' || c == '\U{2022}' }

  /** The number of leading decimal digits. */
  function LeadingDigits(t: string): (d: nat)
    ensures d <= |t|
    ensures forall k | 0 <= k < d :: IsDigit(t[k])
    ensures d == |t| || !IsDigit(t[d])
    decreases |t|
  {
    if |t| > 0 && IsDigit(t[0]) then 1 + LeadingDigits(t[1..]) else 0
  }

  /** The length of the marker `^[-*•]\s+|^\d+\.\s+` finds at the start of `t`, without
      the whitespace run after it. */
  function MarkerLength(t: string): (r: Option<nat>)
    ensures r.Some? ==> 0 < r.value < |t| && IsWs(t[r.value])
  {
    if |t| >= 2 && IsBullet(t[0]) && IsWs(t[1]) then Some(1)
    else
      var d := LeadingDigits(t);
      if 0 < d && d + 1 < |t| && t[d] == '.' && IsWs(t[d + 1]) then Some(d + 1) else None
  }

  /** `line.trim().match(/^[-*•]\s+|^\d+\.\s+/)`. */
  predicate IsListLine(line: string) {
    MarkerLength(Trim(line)).Some?
  }

  /** `line.replace(/^[-*•]\s+|^\d+\.\s+/, "").trim()`: the marker is removed only when the
      untrimmed line starts with it; the whitespace the pattern also removes is trimmed
      away anyway. */
  function StripMarker(line: string): (item: string)
    ensures IsTrimmed(item)
  {
    match MarkerLength(line)
    case Some(k) => Trim(line[k..])
    case None => Trim(line)
  }

  const MaxItems: nat := 10

  /** `extractListSection`. */
  function ListSection(content: string, name: string): (items: seq<string>)
    ensures |items| <= MaxItems
    ensures Section(content, name) == "" ==> items == []
  {
    var section := Section(content, name);
    if section == "" then [] else ListItems(Split(section, '\n'))
  }

  /** The filtered and stripped list lines, at most the first ten. */
  function ListItems(lines: seq<string>): (items: seq<string>)
    ensures |items| <= MaxItems
  {
    var kept := KeepStrip(lines, IsListLine, StripMarker);
    if |kept| <= MaxItems then kept else kept[..MaxItems]
  }

  /** The items are trimmed and non-empty, each comes from a list line of the section, in
      line order, and whenever fewer than ten are returned no list line was dropped. */
  lemma ListSectionItems(content: string, name: string) returns (idx: seq<nat>)
    requires Section(content, name) != ""
    ensures var lines := Split(Section(content, name), '\n');
      var items := ListSection(content, name);
      && |idx| == |items| && Increasing(idx)
      && (forall k | 0 <= k < |idx| ::
            && idx[k] < |lines| && IsListLine(lines[idx[k]])
            && items[k] == StripMarker(lines[idx[k]]) && items[k] != "" && IsTrimmed(items[k]))
      && (|items| < MaxItems ==>
            forall j | 0 <= j < |lines| && IsListLine(lines[j]) && StripMarker(lines[j]) != "" :: j in idx)
  {
    var lines := Split(Section(content, name), '\n');
    assert ListSection(content, name) == ListItems(lines);
    idx := ListItemsOrigins(lines);
  }

  /** `ListSectionItems` for the lines of the section. */
  lemma ListItemsOrigins(lines: seq<string>) returns (idx: seq<nat>)
    ensures var items := ListItems(lines);
      && |idx| == |items| && Increasing(idx)
      && (forall k | 0 <= k < |idx| ::
            && idx[k] < |lines| && IsListLine(lines[idx[k]])
            && items[k] == StripMarker(lines[idx[k]]) && items[k] != "" && IsTrimmed(items[k]))
      && (|items| < MaxItems ==>
            forall j | 0 <= j < |lines| && IsListLine(lines[j]) && StripMarker(lines[j]) != "" :: j in idx)
  {
    var all := KeepStripOrigins(lines, IsListLine, StripMarker);
    var kept := KeepStrip(lines, IsListLine, StripMarker);
    var items := ListItems(lines);
    if |kept| <= MaxItems {
      idx := all;
      assert items == kept;
    } else {
      idx := all[..MaxItems];
      assert items == kept[..MaxItems];
      forall k | 0 <= k < |idx|
        ensures idx[k] < |lines| && IsListLine(lines[idx[k]]) && items[k] == StripMarker(lines[idx[k]])
      {
        assert idx[k] == all[k] && items[k] == kept[k];
      }
      assert Increasing(idx) by {
        assert forall k | 0 <= k < |idx| :: idx[k] == all[k];
      }
    }
  }

  /** The marker is removed only from a line that starts with it: an indented bullet
      keeps its marker in the returned item. */
  lemma IndentedMarkerKept(line: string)
    requires |line| > 0 && IsWs(line[0]) && IsListLine(line)
    ensures StripMarker(line) == Trim(line)
    ensures MarkerLength(StripMarker(line)).Some?
  {
    assert !IsDigit(line[0]);
  }

  // ---------------------------------------------------------------------------
  // the mock analysis

  /** `riskLevel`: the conditions are tried in this order. */
  function RiskLevel(fs: seq<Finding>): string {
    if CountSeverity(fs, "critical") > 0 then "Critical"
    else if CountSeverity(fs, "high") > 0 then "High"
    else if CountSeverity(fs, "medium") > 1 then "Medium"
    else "Low"
  }

  function LevelRank(level: string): nat {
    if level == "Critical" then 3 else if level == "High" then 2 else if level == "Medium" then 1 else 0
  }

  /** Critical when some finding is critical; otherwise High when some is high; otherwise
      Medium when more than one is medium; otherwise Low. */
  lemma RiskLevelCases(fs: seq<Finding>)
    ensures RiskLevel(fs) == "Critical" <==> HasSeverity(fs, "critical")
    ensures RiskLevel(fs) == "High" <==> !HasSeverity(fs, "critical") && HasSeverity(fs, "high")
    ensures RiskLevel(fs) == "Medium" <==>
      !HasSeverity(fs, "critical") && !HasSeverity(fs, "high") && CountSeverity(fs, "medium") > 1
    ensures RiskLevel(fs) == "Low" <==>
      !HasSeverity(fs, "critical") && !HasSeverity(fs, "high") && CountSeverity(fs, "medium") <= 1
  {
    CountPositive(fs, "critical");
    CountPositive(fs, "high");
  }

  /** One more finding never lowers the risk level. */
  lemma RiskLevelMonotone(fs: seq<Finding>, f: Finding)
    ensures LevelRank(RiskLevel(fs)) <= LevelRank(RiskLevel(fs + [f]))
  {
    assert (fs + [f])[..|fs|] == fs;
  }

  function MockSummary(fs: seq<Finding>, target: string): string {
    "Security assessment of " + target + " identified " + NatToString(|fs|)
    + " vulnerabilities with an overall risk level of " + RiskLevel(fs) + ". "
    + (if CountSeverity(fs, "critical") > 0
       then "Critical vulnerabilities require immediate attention to prevent potential security breaches."
       else "Regular security maintenance and monitoring are recommended to maintain security posture.")
  }

  /** The mock summary is longer than its fixed opening words. */
  lemma MockSummaryLength(fs: seq<Finding>, target: string)
    ensures |MockSummary(fs, target)| >= 10
  {
    assert |"Security assessment of "| == 23;
  }

  /** The mock risk assessment: a heading line with the risk level, then the profile. */
  function MockRiskAssessment(fs: seq<Finding>): (text: string)
    ensures var heading := "Risk Level: " + RiskLevel(fs);
      |heading| <= |text| && text[..|heading|] == heading
  {
    var heading := "Risk Level: " + RiskLevel(fs);
    var profile := RiskProfile(fs);
    assert (heading + profile)[..|heading|] == heading;
    heading + profile
  }

  /** The text after the heading, from `\n\nThe target system presents a`. */
  function RiskProfile(fs: seq<Finding>): string {
    var critical := CountSeverity(fs, "critical");
    var high := CountSeverity(fs, "high");
    var medium := CountSeverity(fs, "medium");
    "\n\nThe target system presents a " + Lower(RiskLevel(fs))
    + " risk profile based on " + NatToString(|fs|) + " discovered vulnerabilities. "
    + (if critical > 0
       then NatToString(critical) + " critical vulnerabilities pose immediate security threats and require urgent remediation."
       else "")
    + " " + (if high > 0 then NatToString(high) + " high-severity vulnerabilities require prompt attention." else "")
    + " " + (if medium > 0 then NatToString(medium) + " medium-severity issues should be addressed during regular maintenance cycles." else "")
  }

  /** One paragraph of the mock detailed analysis. */
  function Paragraph(f: Finding): string {
    f.name + " (" + Upper(f.severity) + "): This vulnerability affects the " + f.service
    + " service on port " + IntToString(f.port) + ". " + f.description
    + " This issue could potentially allow unauthorized access or information disclosure."
  }

  function MockDetailedAnalysis(fs: seq<Finding>): string {
    Join(Map(fs, Paragraph), "\n\n")
  }

  /** The detailed analysis is the findings' paragraphs in finding order, separated by a
      blank line: empty for no findings, one paragraph for one, and each further finding
      adds a blank line and its paragraph at the end. */
  lemma DetailedAnalysisShape(fs: seq<Finding>, f: Finding)
    ensures MockDetailedAnalysis([]) == ""
    ensures MockDetailedAnalysis([f]) == Paragraph(f)
    ensures |fs| > 0 ==> MockDetailedAnalysis(fs + [f]) == MockDetailedAnalysis(fs) + "\n\n" + Paragraph(f)
  {
    MapSnoc(fs, f, Paragraph);
    if |fs| > 0 {
      JoinSnoc(Map(fs, Paragraph), Paragraph(f), "\n\n");
    }
    MapSnoc([], f, Paragraph);
    assert [] + [f] == [f];
  }

  const Recommendations: seq<string> := [
    "Implement regular security updates and patch management procedures",
    "Deploy network monitoring and intrusion detection systems",
    "Conduct periodic security assessments and penetration testing",
    "Implement multi-factor authentication for all critical services",
    "Regular backup and disaster recovery testing",
    "Security awareness training for all personnel",
    "Implement network segmentation and access controls"]

  /** `mockAnalysis`. */
  function MockAnalysis(fs: seq<Finding>, target: string): (a: Analysis)
    ensures |a.recommendations| == 7 && a.recommendations == Recommendations
    ensures |a.remediationSteps| == |fs| && a.remediationSteps == RemediationSteps(fs)
    ensures a.detailedAnalysis == MockDetailedAnalysis(fs)
    ensures var heading := "Risk Level: " + RiskLevel(fs);
      |heading| <= |a.riskAssessment| && a.riskAssessment[..|heading|] == heading
    ensures |a.summary| >= 10
  {
    RemediationStepsCount(fs);
    MockSummaryLength(fs, target);
    Analysis(MockSummary(fs, target), MockRiskAssessment(fs), MockDetailedAnalysis(fs),
      RemediationSteps(fs), Recommendations)
  }

  // ---------------------------------------------------------------------------
  // remediation steps

  /** URGENT, HIGH, MEDIUM or, for any other severity, LOW. */
  function Priority(severity: string): (p: string)
    ensures p in ["URGENT", "HIGH", "MEDIUM", "LOW"]
  {
    if severity == "critical" then "URGENT"
    else if severity == "high" then "HIGH"
    else if severity == "medium" then "MEDIUM"
    else "LOW"
  }

  /** The remediation text, keyed by the finding name. */
  function Action(f: Finding): string {
    match f.name
    case "Open SSH Port" =>
      "Secure SSH configuration: Change default port, disable root login, implement key-based authentication"
    case "Outdated Apache Version" =>
      "Update Apache web server to latest stable version and apply all security patches"
    case "Weak SSL Configuration" =>
      "Update SSL/TLS configuration: Disable weak ciphers, enable strong encryption protocols (TLS 1.2+)"
    case "Anonymous FTP Access" =>
      "Disable anonymous FTP access and implement proper authentication mechanisms"
    case "Default Credentials" =>
      "Change all default passwords and implement strong password policies organization-wide"
    case _ =>
      "Address " + f.name + ": Follow security best practices for " + f.service
      + " service on port " + IntToString(f.port)
  }

  /** `[${priority}] ` followed by the remediation text. */
  function TaggedStep(f: Finding): string {
    "[" + Priority(f.severity) + "] " + Action(f)
  }

  function TaggedSteps(fs: seq<Finding>): (steps: seq<string>)
    ensures |steps| == |fs|
    ensures forall i | 0 <= i < |fs| :: steps[i] == TaggedStep(fs[i])
  {
    seq(|fs|, i requires 0 <= i < |fs| => TaggedStep(fs[i]))
  }

  /** What `generateRemediationSteps` returns. */
  function RemediationSteps(fs: seq<Finding>): seq<string> {
    ByPriority(StepRank, TaggedSteps(fs))
  }

  /** `generateRemediationSteps`: one tagged step per finding, pushed in finding order,
      then sorted in place by priority. */
  method GenerateRemediationSteps(fs: seq<Finding>) returns (steps: seq<string>)
    ensures steps == RemediationSteps(fs)
  {
    var a := PushTaggedSteps(fs);
    StepRankFour();
    SortByPriority(a, StepRank);
    steps := a[..];
  }

  /** The `forEach` that pushes one tagged step per finding. */
  method PushTaggedSteps(fs: seq<Finding>) returns (a: array<string>)
    ensures fresh(a) && a[..] == TaggedSteps(fs)
  {
    a := PushEach(fs, TaggedStep);
    ghost var tagged := TaggedSteps(fs);
    assert forall k | 0 <= k < |fs| :: a[..][k] == tagged[k];
  }

  /** Pushes `step(x)` for each `x` of `xs`, in order, onto a new array. */
  method PushEach<T, U(0)>(xs: seq<T>, step: T -> U) returns (a: array<U>)
    ensures fresh(a) && a.Length == |xs|
    ensures forall k | 0 <= k < |xs| :: a[k] == step(xs[k])
  {
    a := new U[|xs|];
    for i := 0 to |xs|
      invariant forall k | 0 <= k < i :: a[k] == step(xs[k])
    {
      a[i] := step(xs[i]);
    }
  }

  /** The rank a finding's step sorts by. */
  function SeverityRank(severity: string): nat {
    if severity == "critical" then 0 else if severity == "high" then 1 else if severity == "medium" then 2 else 3
  }

  /** A finding's step carries the tag of its severity, so it sorts by that severity. */
  lemma TaggedStepRank(f: Finding)
    ensures StepTag(TaggedStep(f)) == Priority(f.severity)
    ensures StepRank(TaggedStep(f)) == SeverityRank(f.severity)
  {
    var p := Priority(f.severity);
    var rest := " " + Action(f);
    PriorityTag(f.severity);
    assert TaggedStep(f) == "[" + p + "]" + rest;
    TagOfTaggedStep(p, rest);
  }

  /** Each priority is an upper-case word whose rank is its severity's. */
  lemma PriorityTag(severity: string)
    ensures IsUpperWord(Priority(severity))
    ensures TagRank(Priority(severity)) == SeverityRank(severity)
  {
  }

  /** The returned steps are a permutation of the tagged steps, sorted by rank, with the
      steps of each rank in finding order. */
  lemma RemediationStepsShape(fs: seq<Finding>)
    ensures multiset(RemediationSteps(fs)) == multiset(TaggedSteps(fs))
    ensures |RemediationSteps(fs)| == |fs|
    ensures Sorted(StepRank, RemediationSteps(fs))
    ensures Buckets(StepRank, RemediationSteps(fs)) == Buckets(StepRank, TaggedSteps(fs))
  {
    StepRankFour();
    ByPriorityPermutation(StepRank, TaggedSteps(fs));
    ByPrioritySortedStable(StepRank, TaggedSteps(fs));
    assert |multiset(RemediationSteps(fs))| == |multiset(TaggedSteps(fs))|;
  }

  /** There is one remediation step per finding. */
  lemma RemediationStepsCount(fs: seq<Finding>)
    ensures |RemediationSteps(fs)| == |fs|
  {
    RemediationStepsShape(fs);
  }

  // ---------------------------------------------------------------------------
  // parsing and the fallbacks

  /** The five sections read from provider text. */
  function Extracted(content: string): Analysis {
    Analysis(Section(content, "EXECUTIVE_SUMMARY"), Section(content, "RISK_ASSESSMENT"),
      Section(content, "DETAILED_ANALYSIS"), ListSection(content, "REMEDIATION_STEPS"),
      ListSection(content, "RECOMMENDATIONS"))
  }

  /** `parseAnalysisResponse`: the extracted sections when the summary is plausible (at
      least ten characters), otherwise the whole mock analysis, never a mixture. */
  function ParseAnalysisResponse(content: string, fs: seq<Finding>, target: string): (a: Analysis)
    ensures |Section(content, "EXECUTIVE_SUMMARY")| < 10 ==> a == MockAnalysis(fs, target)
    ensures |Section(content, "EXECUTIVE_SUMMARY")| >= 10 ==> a == Extracted(content)
    ensures |a.summary| >= 10
  {
    var summary := Section(content, "EXECUTIVE_SUMMARY");
    if summary == "" || |summary| < 10 then MockAnalysis(fs, target) else Extracted(content)
  }

  /** `analyzeVulnerabilities`: never fails; without a key or on any provider error the
      mock analysis, otherwise the parsed response. */
  function AnalyzeVulnerabilities(outcome: ProviderOutcome, fs: seq<Finding>, target: string): (a: Analysis)
    ensures !outcome.Responded? ==> a == MockAnalysis(fs, target)
    ensures a == MockAnalysis(fs, target) || a == Extracted(outcome.text)
    ensures |a.summary| >= 10
  {
    match outcome
    case NoKey => MockAnalysis(fs, target)
    case Failed => MockAnalysis(fs, target)
    case Responded(text) => ParseAnalysisResponse(text, fs, target)
  }

  /** The fixed opening and closing sentences of the mock executive summary. */
  const SummaryOpening := "Executive Summary: " + "The penetration testing assessment of "
  const SummaryClosing := " The organization should prioritize implementing the recommended security controls"
    + " and establish regular security assessment procedures."

  /** The opening starts, and the closing ends, with a non-space. */
  lemma SummaryFrame()
    ensures |SummaryOpening| > 0 && !IsWs(SummaryOpening[0])
    ensures |SummaryClosing| > 0 && !IsWs(SummaryClosing[|SummaryClosing| - 1])
  {
    assert SummaryOpening[0] == 'E';
    assert SummaryClosing[|SummaryClosing| - 1] == '.';
  }

  /** `mockExecutiveSummary`; it starts and ends with a non-space. */
  function MockExecutiveSummary(target: string, fs: seq<Finding>): (summary: string)
    ensures IsTrimmed(summary)
  {
    SummaryFrame();
    TrimmedFrame(SummaryOpening, SummaryBody(target, fs), SummaryClosing);
    SummaryOpening + SummaryBody(target, fs) + SummaryClosing
  }

  /** The sentences between the opening and the closing: the target, the number of
      findings, and the critical and high counts when they are not zero. */
  function SummaryBody(target: string, fs: seq<Finding>): string {
    var critical := CountSeverity(fs, "critical");
    var high := CountSeverity(fs, "high");
    target
      + " has been completed, revealing " + NatToString(|fs|) + " security vulnerabilities requiring attention. "
      + (if critical > 0
         then NatToString(critical) + " critical vulnerabilities require immediate remediation to prevent potential security breaches."
         else "")
      + " " + (if high > 0 then NatToString(high) + " high-severity issues should be addressed promptly to maintain security posture." else "")
  }

  /** The analysis service as the report controller calls it, for one provider outcome. */
  function Analyzer(outcome: ProviderOutcome): (analyze: (seq<Finding>, string) -> Analysis)
    ensures forall fs, target :: analyze(fs, target) == AnalyzeVulnerabilities(outcome, fs, target)
  {
    (fs, target) => AnalyzeVulnerabilities(outcome, fs, target)
  }

  /** The executive-summary service as the report controller calls it, for one provider outcome. */
  function Summarizer(outcome: ProviderOutcome): (summarize: (string, seq<Finding>) -> string)
    ensures forall target, fs :: summarize(target, fs) == GenerateExecutiveSummary(outcome, target, fs)
  {
    (target, fs) => GenerateExecutiveSummary(outcome, target, fs)
  }

  /** `generateExecutiveSummary`: the trimmed provider text, or the mock summary without a
      key or on any provider error; either way it has no surrounding whitespace. */
  function GenerateExecutiveSummary(outcome: ProviderOutcome, target: string, fs: seq<Finding>): (summary: string)
    ensures !outcome.Responded? ==> summary == MockExecutiveSummary(target, fs)
    ensures outcome.Responded? ==> summary == Trim(outcome.text)
    ensures IsTrimmed(summary)
  {
    if outcome.Responded? then TrimIsTrimmed(outcome.text); Trim(outcome.text)
    else MockExecutiveSummary(target, fs)
  }
}
