/** The OpenAI analysis service (backend/src/services/llmService.js): one section pattern
    whose capture ends before any numbered item, list sections without a cap, a local mock
    analysis with numbered (unsorted) remediation steps, and no plausibility check on the
    parsed response. The provider call is the `ProviderOutcome` the caller passes in. */
module Llm {
  import opened Text
  import opened Domain
  import opened Sections

  // ---------------------------------------------------------------------------
  // sections

  /** `NAME:?\s*([\s\S]*?)(?=\n\n|\d+\.|$)` with the `i` flag. */
  const SectionPattern: Pattern := Pattern("", "", true, BlankLineOrNumber)

  /** `extractSection`: the trimmed capture, or the empty string when the pattern does
      not match; it is the shared first-pattern rule with this single pattern. */
  function ExtractSection(content: string, name: string): (section: string)
    ensures section == FirstSection([SectionPattern], content, name)
  {
    match Capture(SectionPattern, content, name)
    case None => ""
    case Some(v) => Trim(v)
  }

  /** A section is a trimmed slice of the content holding neither a blank line nor a
      digit followed by a dot. */
  lemma ExtractSectionShape(content: string, name: string) returns (i: nat, j: nat)
    ensures i <= j <= |content| && ExtractSection(content, name) == content[i..j]
    ensures IsTrimmed(ExtractSection(content, name))
    ensures NoBlankLine(ExtractSection(content, name))
    ensures NoDigitDot(ExtractSection(content, name))
  {
    i, j := SectionShape([SectionPattern], content, name);
  }

  /** When the name occurs nowhere in the content (ignoring case), the section is empty. */
  lemma ExtractSectionOfAbsentName(content: string, name: string)
    requires forall i :: !HeaderAt(content, name, i)
    ensures ExtractSection(content, name) == ""
  {
    SectionOfAbsentName([SectionPattern], content, name);
  }

  // ---------------------------------------------------------------------------
  // list sections

  /** `line.trim().startsWith("-") || line.trim().match(/^\d+\./)`. */
  predicate IsListLine(line: string) {
    var t := Trim(line);
    (|t| > 0 && t[0] == '-') || NumberedAt(t)
  }

  /** `^\d+\.` matches `t`. */
  predicate NumberedAt(t: string) {
    |t| > 0 && IsDigit(t[0]) && DigitsDotAt(t, 0)
  }

  // `line.replace(/^[-\d.]\s*/, "").trim()`: one leading `-`, digit or dot of the
  // untrimmed line is removed; the whitespace the pattern also removes is trimmed away
  // anyway.
  function StripMarker(line: string): (item: string)
    ensures IsTrimmed(item)
  {
    if |line| > 0 && (line[0] == '-' || IsDigit(line[0]) || line[0] == '.') then
      TrimIsTrimmed(line[1..]);
      Trim(line[1..])
    else
      TrimIsTrimmed(line);
      Trim(line)
  }

  /** `extractListSection`: the split, the filter, the map and the filter of empty items;
      there is no cap on the number of items. */
  function ListSection(content: string, name: string): seq<string> {
    KeepStrip(Split(ExtractSection(content, name), '\n'), IsListLine, StripMarker)
  }

  /** The items are trimmed and non-empty, each comes from a list line of the section, in
      line order, and every list line with a non-empty stripped form yields an item. */
  lemma ListSectionItems(content: string, name: string) returns (idx: seq<nat>)
    ensures var lines := Split(ExtractSection(content, name), '\n');
      var items := ListSection(content, name);
      && |idx| == |items| && Increasing(idx)
      && (forall k | 0 <= k < |idx| ::
            && idx[k] < |lines| && IsListLine(lines[idx[k]])
            && items[k] == StripMarker(lines[idx[k]]) && items[k] != "" && IsTrimmed(items[k]))
      && (forall j | 0 <= j < |lines| && IsListLine(lines[j]) && StripMarker(lines[j]) != "" :: j in idx)
  {
    var lines := Split(ExtractSection(content, name), '\n');
    idx := KeepStripOrigins(lines, IsListLine, StripMarker);
  }

  /** The capture stops before any digit followed by a dot, so no line of a section is
      numbered: only lines that start with `-` once trimmed are list lines, and the
      numbered branch of the filter never fires. */
  lemma NumberedLinesNeverKept(content: string, name: string)
    ensures var lines := Split(ExtractSection(content, name), '\n');
      forall j | 0 <= j < |lines| ::
        && !NumberedAt(Trim(lines[j]))
        && (IsListLine(lines[j]) <==> |Trim(lines[j])| > 0 && Trim(lines[j])[0] == '-')
  {
    var section := ExtractSection(content, name);
    var lines := Split(section, '\n');
    var _, _ := ExtractSectionShape(content, name);
    SplitKeepsNoDigitDot(section, '\n');
    forall j | 0 <= j < |lines| ensures !NumberedAt(Trim(lines[j])) {
      var _, _ := TrimShape(lines[j]);
      NoDigitDotNotNumbered(Trim(lines[j]));
    }
  }

  /** A string without a digit followed by a dot does not start with `\d+\.`. */
  lemma NoDigitDotNotNumbered(t: string)
    ensures NoDigitDot(t) ==> !NumberedAt(t)
  {
    if NumberedAt(t) {
      var k := 0;
      while !(t[k + 1] == '.')
        invariant 0 <= k && k + 1 < |t| && IsDigit(t[k]) && DigitsDotAt(t, k)
        decreases |t| - k
      {
        k := k + 1;
      }
      assert IsDigit(t[k]) && t[k + 1] == '.';
    }
  }

  /** The pieces of a split keep digit-dot freedom. */
  lemma {:induction false} SplitKeepsNoDigitDot(s: string, sep: char)
    requires NoDigitDot(s)
    ensures forall k | 0 <= k < |Split(s, sep)| :: NoDigitDot(Split(s, sep)[k])
    decreases |s|
  {
    var i := IndexOf(s, sep);
    if i < |s| {
      SliceShapes(s, 0, i);
      SliceShapes(s, i + 1, |s|);
      assert s[0..i] == s[..i];
      SplitKeepsNoDigitDot(s[i + 1..], sep);
    }
  }

  // ---------------------------------------------------------------------------
  // the mock analysis

  /** `riskLevel`: the conditions are tried in this order. */
  function RiskLevel(fs: seq<Finding>): string {
    if CountSeverity(fs, "critical") > 0 then "Critical"
    else if CountSeverity(fs, "high") > 0 then "High"
    else if |fs| > 2 then "Medium"
    else "Low"
  }

  function LevelRank(level: string): nat {
    if level == "Critical" then 3 else if level == "High" then 2 else if level == "Medium" then 1 else 0
  }

  /** Critical when some finding is critical; otherwise High when some is high; otherwise
      Medium when there are more than two findings of any severity; otherwise Low. */
  lemma RiskLevelCases(fs: seq<Finding>)
    ensures RiskLevel(fs) == "Critical" <==> HasSeverity(fs, "critical")
    ensures RiskLevel(fs) == "High" <==> !HasSeverity(fs, "critical") && HasSeverity(fs, "high")
    ensures RiskLevel(fs) == "Medium" <==>
      !HasSeverity(fs, "critical") && !HasSeverity(fs, "high") && |fs| > 2
    ensures RiskLevel(fs) == "Low" <==>
      !HasSeverity(fs, "critical") && !HasSeverity(fs, "high") && |fs| <= 2
  {
    CountPositive(fs, "critical");
    CountPositive(fs, "high");
  }

  /** One more finding never lowers the risk level. */
  lemma RiskLevelMonotone(fs: seq<Finding>, f: Finding)
    ensures LevelRank(RiskLevel(fs)) <= LevelRank(RiskLevel(fs + [f]))
  {
    assert (fs + [f])[..|fs|] == fs;
  }

  function MockSummary(fs: seq<Finding>, target: string): string {
    "Security assessment of " + target + " identified " + NatToString(|fs|)
    + " vulnerabilities with an overall risk level of " + RiskLevel(fs) + ". "
    + (if CountSeverity(fs, "critical") > 0
       then "Critical vulnerabilities require immediate attention."
       else "Regular security maintenance is recommended.")
  }

  function MockRiskAssessment(fs: seq<Finding>): string {
    "The target system presents a " + RiskLevel(fs) + " risk profile based on the discovered vulnerabilities. "
    + (if CountSeverity(fs, "critical") > 0 then "Critical issues pose immediate security threats." else "")
    + " " + (if CountSeverity(fs, "high") > 0 then "High-severity vulnerabilities require prompt remediation." else "")
  }

  /** One paragraph of the mock detailed analysis. */
  function Paragraph(f: Finding): string {
    f.name + ": This " + f.severity + "-severity vulnerability on port " + IntToString(f.port)
    + " requires attention. " + f.description
  }

  function MockDetailedAnalysis(fs: seq<Finding>): string {
    Join(Map(fs, Paragraph), "\n\n")
  }

  /** The detailed analysis is the findings' paragraphs in finding order, separated by a
      blank line: empty for no findings, one paragraph for one, and each further finding
      adds a blank line and its paragraph at the end. */
  lemma DetailedAnalysisShape(fs: seq<Finding>, f: Finding)
    ensures MockDetailedAnalysis([]) == ""
    ensures MockDetailedAnalysis([f]) == Paragraph(f)
    ensures |fs| > 0 ==> MockDetailedAnalysis(fs + [f]) == MockDetailedAnalysis(fs) + "\n\n" + Paragraph(f)
  {
    MapSnoc(fs, f, Paragraph);
    if |fs| > 0 {
      JoinSnoc(Map(fs, Paragraph), Paragraph(f), "\n\n");
    }
    MapSnoc([], f, Paragraph);
    assert [] + [f] == [f];
  }

  const Recommendations: seq<string> := [
    "Implement regular security updates and patch management",
    "Deploy network monitoring and intrusion detection systems",
    "Conduct periodic security assessments",
    "Implement multi-factor authentication where possible",
    "Regular backup and disaster recovery testing"]

  /** `mockAnalysis`. */
  function MockAnalysis(fs: seq<Finding>, target: string): (a: Analysis)
    ensures |a.recommendations| == 5 && a.recommendations == Recommendations
    ensures |a.remediationSteps| == |fs| && a.remediationSteps == RemediationSteps(fs)
    ensures a.detailedAnalysis == MockDetailedAnalysis(fs)
  {
    Analysis(MockSummary(fs, target), MockRiskAssessment(fs), MockDetailedAnalysis(fs),
      RemediationSteps(fs), Recommendations)
  }

  // ---------------------------------------------------------------------------
  // remediation steps

  /** The remediation text, keyed by the finding name. */
  function Action(f: Finding): string {
    match f.name
    case "Open SSH Port" =>
      "Secure SSH configuration: Change default port, disable root login, implement key-based authentication"
    case "Outdated Apache Version" =>
      "Update Apache web server to latest stable version and apply security patches"
    case "Weak SSL Configuration" =>
      "Update SSL/TLS configuration: Disable weak ciphers, enable strong encryption protocols"
    case "Anonymous FTP Access" =>
      "Disable anonymous FTP access and implement proper authentication mechanisms"
    case "Default Credentials" =>
      "Change all default passwords and implement strong password policies"
    case _ =>
      "Address " + f.name + ": Follow security best practices for " + f.service + " service"
  }

  /** `${index + 1}. ` followed by the remediation text. */
  function NumberedStep(n: nat, action: string): string {
    NatToString(n) + ". " + action
  }

  /** One numbered step per finding, in finding order, for any choice of remediation
      text. */
  function NumberedSteps(fs: seq<Finding>, action: Finding -> string): (steps: seq<string>)
    ensures |steps| == |fs|
    ensures forall i | 0 <= i < |fs| :: steps[i] == NumberedStep(i + 1, action(fs[i]))
  {
    seq(|fs|, i requires 0 <= i < |fs| => NumberedStep(i + 1, action(fs[i])))
  }

  /** What `generateRemediationSteps` returns. */
  function RemediationSteps(fs: seq<Finding>): seq<string> {
    NumberedSteps(fs, Action)
  }

  /** `generateRemediationSteps`: the `forEach` that pushes one numbered step per finding. */
  method GenerateRemediationSteps(fs: seq<Finding>) returns (steps: seq<string>)
    ensures steps == RemediationSteps(fs)
  {
    steps := [];
    for i := 0 to |fs|
      invariant |steps| == i
      invariant forall k | 0 <= k < i :: steps[k] == NumberedStep(k + 1, Action(fs[k]))
    {
      steps := steps + [NumberedStep(i + 1, Action(fs[i]))];
    }
  }

  /** The `k`-th step (from zero) starts with the decimal number `k + 1` followed by
      `". "`, and that number reads back as `k + 1`: the steps are numbered 1, 2, … in
      finding order, never re-sorted. */
  lemma StepNumbers(fs: seq<Finding>, action: Finding -> string, k: nat)
    requires k < |fs|
    ensures var step := NumberedSteps(fs, action)[k];
      var digits := NatToString(k + 1);
      && |digits| + 2 <= |step| && step[..|digits|] == digits
      && step[|digits|] == '.' && step[|digits| + 1] == ' '
      && DigitsValue(step[..|digits|]) == k + 1
  {
    var digits := NatToString(k + 1);
    var step := NumberedSteps(fs, action)[k];
    assert step == digits + (". " + action(fs[k]));
    NatToStringValue(k + 1);
  }

  // ---------------------------------------------------------------------------
  // parsing and the fallbacks

  /** `parseAnalysisResponse`: the five sections read from provider text, taken as they
      are. */
  function ParseAnalysisResponse(content: string): Analysis {
    Analysis(ExtractSection(content, "Executive Summary"), ExtractSection(content, "Risk Assessment"),
      ExtractSection(content, "Detailed Analysis"), ListSection(content, "Remediation Steps"),
      ListSection(content, "Recommendations"))
  }

  /** The three text sections of a parsed response are trimmed and hold no blank line,
      and no list item is empty or carries surrounding whitespace. */
  lemma ParsedShape(content: string)
    ensures var a := ParseAnalysisResponse(content);
      && IsTrimmed(a.summary) && NoBlankLine(a.summary)
      && IsTrimmed(a.riskAssessment) && NoBlankLine(a.riskAssessment)
      && IsTrimmed(a.detailedAnalysis) && NoBlankLine(a.detailedAnalysis)
      && (forall k | 0 <= k < |a.remediationSteps| ::
            a.remediationSteps[k] != "" && IsTrimmed(a.remediationSteps[k]))
      && (forall k | 0 <= k < |a.recommendations| ::
            a.recommendations[k] != "" && IsTrimmed(a.recommendations[k]))
  {
    var _, _ := ExtractSectionShape(content, "Executive Summary");
    var _, _ := ExtractSectionShape(content, "Risk Assessment");
    var _, _ := ExtractSectionShape(content, "Detailed Analysis");
    var _ := ListSectionItems(content, "Remediation Steps");
    var _ := ListSectionItems(content, "Recommendations");
  }

  /** Unlike the Gemini service there is no plausibility check: a response without an
      executive summary is accepted with an empty summary. */
  lemma NoPlausibilityCheck(content: string)
    requires forall i :: !HeaderAt(content, "Executive Summary", i)
    ensures ParseAnalysisResponse(content).summary == ""
  {
    ExtractSectionOfAbsentName(content, "Executive Summary");
  }

  /** `analyzeVulnerabilities`: never fails; without a key or on any provider error the
      mock analysis, otherwise the parsed response. */
  function AnalyzeVulnerabilities(outcome: ProviderOutcome, fs: seq<Finding>, target: string): (a: Analysis)
    ensures !outcome.Responded? ==> a == MockAnalysis(fs, target)
    ensures outcome.Responded? ==> a == ParseAnalysisResponse(outcome.text)
  {
    match outcome
    case NoKey => MockAnalysis(fs, target)
    case Failed => MockAnalysis(fs, target)
    case Responded(text) => ParseAnalysisResponse(text)
  }

  /** The fixed opening and closing sentences of the mock executive summary. */
  const SummaryOpening := "Executive Summary: " + "The penetration testing assessment of "
  const SummaryClosing := " The organization should prioritize security updates and implement"
    + " recommended security controls to improve overall security posture."

  /** The opening starts, and the closing ends, with a non-space. */
  lemma SummaryFrame()
    ensures |SummaryOpening| > 0 && !IsWs(SummaryOpening[0])
    ensures |SummaryClosing| > 0 && !IsWs(SummaryClosing[|SummaryClosing| - 1])
  {
    assert SummaryOpening[0] == 'E';
    assert SummaryClosing[|SummaryClosing| - 1] == '.';
  }

  /** `mockExecutiveSummary`; it starts and ends with a non-space. */
  function MockExecutiveSummary(target: string, fs: seq<Finding>): (summary: string)
    ensures IsTrimmed(summary)
  {
    SummaryFrame();
    TrimmedFrame(SummaryOpening, SummaryBody(target, fs), SummaryClosing);
    SummaryOpening + SummaryBody(target, fs) + SummaryClosing
  }

  /** The sentences between the opening and the closing: the target, the number of
      findings, and the critical and high counts when they are not zero. */
  function SummaryBody(target: string, fs: seq<Finding>): string {
    var critical := CountSeverity(fs, "critical");
    var high := CountSeverity(fs, "high");
    target
      + " has been completed, revealing " + NatToString(|fs|) + " security vulnerabilities. "
      + (if critical > 0
         then NatToString(critical) + " critical vulnerabilities require immediate remediation to prevent potential security breaches."
         else "")
      + " " + (if high > 0 then NatToString(high) + " high-severity issues should be addressed promptly." else "")
  }

  /** `generateExecutiveSummary`: the trimmed provider text, or the mock summary without a
      key or on any provider error; either way it has no surrounding whitespace. */
  function GenerateExecutiveSummary(outcome: ProviderOutcome, target: string, fs: seq<Finding>): (summary: string)
    ensures !outcome.Responded? ==> summary == MockExecutiveSummary(target, fs)
    ensures outcome.Responded? ==> summary == Trim(outcome.text)
    ensures IsTrimmed(summary)
  {
    if outcome.Responded? then TrimIsTrimmed(outcome.text); Trim(outcome.text)
    else MockExecutiveSummary(target, fs)
  }
}
