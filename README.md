# Pentesting assistant: a verified model of its core

The system is a small penetration-testing assistant with three parts.

- **Node backend.**
  - It keeps scans and reports in memory.
  - It simulates a network scan. The scan moves through fixed phases, then draws findings from a shuffled table of mock vulnerabilities.
  - It turns a completed scan into a report. The report has risk scores, business impact, compliance status, next steps, and an analysis. The analysis comes from Gemini or, without a key or on any error, from a local mock.
  - A second analysis service, written for OpenAI, parses responses with its own section rules.
  - An hourly sweep removes scans and reports older than one day.
- **Python engine.**
  - It probes the open ports of a target: SSH banner, HTTP headers, HTTPS certificate, RDP connect.
  - It turns the findings into a default analysis, or asks an LLM for one.
  - It stores one report per target.
- **React form.** It starts a scan. It checks that the target is an IPv4 address or a two-label domain name.

The model is written in Dafny, one module per core file, plus shared modules.

| module | file | models |
|---|---|---|
| `Text` | text.dfy | String helpers: trim, split/join, case mapping, decimal rendering. |
| `Domain` | domain.dfy | The finding and analysis values, the provider outcome, severity counts, and a generic filter. |
| `Sections` | sections.dfy | The section regexes both analysis services use, as an explicit leftmost-match search. |
| `PrioritySort` | priority_sort.dfy | The stable sort of remediation steps by their `[PRIORITY]` tag. It is an in-place insertion sort on an array. |
| `Gemini` | gemini.dfy | backend/src/services/geminiService.js |
| `Llm` | llm.dfy | backend/src/services/llmService.js |
| `Server` | server.dfy | backend/src/server.js: the mock table, the shuffle, `simulateNetworkScan` as a state machine over a `Scan` object, and the cleanup sweep. |
| `ReportModel` | report_model.dfy | The scoring, impact, compliance, next-step and lookup helpers of backend/src/controllers/reportController.js. |
| `ReportController` | report_controller.dfy | The `/generate` and `GET /:id` handlers over the mutable `Store`. |
| `PentestEngine` | pentest_engine.dfy | backend/app.py: the `PentestEngine` class and its checks, the default analysis, the LLM fallback and the report. |
| `NewScan` | new_scan.dfy | frontend/src/components/NewScan.jsx: the patterns, `validateForm`, `handleInputChange` and `handleSubmit` on a `Component` class. |

Some things the source takes from the outside are parameters:

- the provider call, as a `ProviderOutcome` or an `LlmResponse`;
- the network probes, as a `Probes` value of lookup functions;
- the port scan, as a `PortScan`;
- the clock, as a `now` in milliseconds;
- the identifier generator;
- `Math.random`, as the swaps the sort performed.

Risk scores and the report risk score are in tenths of a point, with `nat` arithmetic. The Python average risk is a `real`.

### Where the model and the wider description differ

- The OpenAI service's risk level (`riskLevel` in llmService.js) tests "critical", then "high", then "more than two findings". A list of three low findings is therefore "Medium" there. The Gemini service instead tests "more than one medium finding", so the same list is "Low".
- The OpenAI section pattern stops at `\n\n`, at any `\d+\.` or at the end. A section therefore never contains a numbered line. So the `^\d+\.` branch of its list filter never keeps a line, and only `-` bullets become items (`Llm.NumberedLinesNeverKept`).
- In the React form, a target with surrounding spaces passes the blank check, because that check trims. It then fails both patterns, which see the untrimmed text, so it gets "Please enter a valid IP address or domain name".
- A domain with more than one dot, such as `www.example.com`, is rejected, because the domain pattern allows exactly one dot.

## Model

| member | source | states |
|---|---|---|
| `Text.Split` | backend/src/services/geminiService.js:109 | `split("\n")`: at least one part, and no part contains the separator. |
| `Text.JoinSplit` | backend/src/services/geminiService.js:109 | Joining the split parts with the separator yields the original text. |
| `Text.SplitJoin` | backend/src/services/geminiService.js:109 | Splitting a join of separator-free parts yields those parts. |
| `Text.TrimIsTrimmed` | backend/src/services/geminiService.js:97 | `trim()` leaves no leading or trailing whitespace. |
| `Text.NatToStringValue` | backend/src/services/llmService.js:132-156 | The decimal rendering of a number reads back as that number. |
| `Domain.CountSeverity` | backend/src/services/geminiService.js:117-119 | The severity count is at most the list length. |
| `Domain.CountPositive` | backend/src/controllers/reportController.js:159-160 | A severity count is positive exactly when some finding has that severity (`some` versus `filter().length`). |
| `Domain.FilterSelection` | backend/src/server.js:153-154 | A filter keeps, in order, exactly the elements the predicate accepts. |
| `Sections.FirstHeader` | backend/src/services/geminiService.js:87-102 | The leftmost case-insensitive position of a header at or after a start, or none when there is none. |
| `Sections.FirstStop` | backend/src/services/geminiService.js:89-93 | The lazy capture ends at the first position where the look-ahead holds, and at no earlier one. |
| `Sections.Capture` | backend/src/services/geminiService.js:96 | The pattern matches nowhere exactly when the header occurs nowhere. |
| `Sections.CaptureShape` | backend/src/services/geminiService.js:89-97 | A capture is a slice of the text that is empty or starts with a non-space. It has no blank line, nor, with the numbered stop, any digit followed by a dot. |
| `Sections.SectionShape` | backend/src/services/geminiService.js:95-101 | The first non-empty trimmed capture is a trimmed slice of the text without a blank line. |
| `Sections.SectionOfAbsentName` | backend/src/services/geminiService.js:95-101 | When the name occurs nowhere, the section is empty. |
| `Sections.KeepStripOrigins` | backend/src/services/geminiService.js:109-112 | filter/map/filter keeps, in order, exactly the kept lines whose stripped form is non-empty. |
| `PrioritySort.CloseIndex` | backend/src/services/geminiService.js:196-197 | The first `]` found on the same line. |
| `PrioritySort.TagOfTaggedStep` | backend/src/services/geminiService.js:196-197 | The step `[P] rest` carries the tag `P`. |
| `PrioritySort.StepRank` | backend/src/services/geminiService.js:195-198 | The rank of a step is one of the four priorities. |
| `PrioritySort.ByPriorityPermutation` | backend/src/services/geminiService.js:194-199 | The sort by priority is a permutation of the steps. |
| `PrioritySort.ByPrioritySortedStable` | backend/src/services/geminiService.js:194-199 | The result is sorted by rank, and steps of equal rank keep their relative order. |
| `PrioritySort.SortedIsByPriority` | backend/src/services/geminiService.js:194-199 | Sorting an already sorted list changes nothing. |
| `PrioritySort.SortByPriority` | backend/src/services/geminiService.js:194-199 | The in-place array sort leaves exactly the stable sort by priority of the old contents. |
| `PrioritySort.InsertAt` | backend/src/services/geminiService.js:194-199 | One insertion pass extends the sorted prefix by one and keeps every priority bucket. |
| `Gemini.ExtractSection` | backend/src/services/geminiService.js:87-102 | The three patterns are tried in order. The first non-empty capture, trimmed, is the section; otherwise the section is empty. |
| `Gemini.LeadingDigits` | backend/src/services/geminiService.js:110 | The maximal run of leading digits. |
| `Gemini.MarkerLength` | backend/src/services/geminiService.js:110-111 | The `^[-*•]\s+` or `^\d+\.\s+` marker, which ends in whitespace inside the line. |
| `Gemini.StripMarker` | backend/src/services/geminiService.js:111 | The stripped item is trimmed. |
| `Gemini.ListSection` | backend/src/services/geminiService.js:104-114 | At most 10 items, and none when the section is empty. |
| `Gemini.ListSectionItems` | backend/src/services/geminiService.js:104-114 | Items are trimmed, non-empty and in order. Each comes from a list line. Below the cap of 10, every list line with a non-empty stripped form yields one. |
| `Gemini.ListItems` | backend/src/services/geminiService.js:108-114 | The lines of a section give at most 10 items. |
| `Gemini.ListItemsOrigins` | backend/src/services/geminiService.js:108-114 | Items come in order from list lines. They are stripped, trimmed and non-empty. Below the cap of 10, every list line with a non-empty stripped form yields one. |
| `Gemini.IndentedMarkerKept` | backend/src/services/geminiService.js:110-111 | An indented bullet passes the trimmed filter, but its marker is not removed from the untrimmed line. |
| `Gemini.RiskLevelCases` | backend/src/services/geminiService.js:121-124 | Critical iff some finding is critical; High iff none is critical and some is high; Medium iff neither and more than one finding is medium; Low iff neither and at most one is medium. |
| `Gemini.RiskLevelMonotone` | backend/src/services/geminiService.js:121-124 | Adding a finding never lowers the risk level. |
| `Gemini.DetailedAnalysisShape` | backend/src/services/geminiService.js:131-136 | The detailed analysis is the paragraphs in finding order, joined by blank lines. |
| `Gemini.MockAnalysis` | backend/src/services/geminiService.js:116-150 | Seven fixed recommendations, the sorted remediation steps (one per finding), the detailed analysis paragraphs, a risk assessment headed "Risk Level: " and the level, and a summary of at least 10 characters. |
| `Gemini.MockRiskAssessment` | backend/src/services/geminiService.js:129 | The risk assessment opens with "Risk Level: " followed by the risk level of the findings. |
| `Gemini.Priority` | backend/src/services/geminiService.js:156-163 | The priority is URGENT, HIGH, MEDIUM or LOW. |
| `Gemini.TaggedSteps` | backend/src/services/geminiService.js:165-191 | One `[PRIORITY] action` step per finding, in order. |
| `Gemini.GenerateRemediationSteps` | backend/src/services/geminiService.js:152-200 | The loop pushes the tagged steps and sorts them; the result is the specified remediation list. |
| `Gemini.PushTaggedSteps` | backend/src/services/geminiService.js:165-191 | The `forEach` fills a fresh array with the tagged steps. |
| `Gemini.TaggedStepRank` | backend/src/services/geminiService.js:156-163 | A step's tag is its severity's priority, so it sorts by severity. |
| `Gemini.RemediationStepsShape` | backend/src/services/geminiService.js:152-200 | The steps are a permutation of the tagged steps, sorted by priority, stable within a priority. |
| `Gemini.ParseAnalysisResponse` | backend/src/services/geminiService.js:65-85 | A summary shorter than 10 characters falls back to the mock analysis; otherwise the extracted sections are used. The summary is always at least 10 characters. |
| `Gemini.AnalyzeVulnerabilities` | backend/src/services/geminiService.js:25-41 | It never fails. Without a key or on error it returns the mock; otherwise the mock or the extracted response. The summary has at least 10 characters. |
| `Gemini.MockExecutiveSummary` | backend/src/services/geminiService.js:232-238 | The mock summary has no surrounding whitespace. |
| `Gemini.GenerateExecutiveSummary` | backend/src/services/geminiService.js:202-230 | The trimmed provider text, or the mock without a key or on error; always trimmed. |
| `Llm.ExtractSection` | backend/src/services/llmService.js:85-89 | The single-pattern instance of the shared first-capture rule. |
| `Llm.ExtractSectionShape` | backend/src/services/llmService.js:85-89 | A section is a trimmed slice with no blank line and no digit followed by a dot. |
| `Llm.ExtractSectionOfAbsentName` | backend/src/services/llmService.js:85-89 | A name absent from the text gives an empty section. |
| `Llm.StripMarker` | backend/src/services/llmService.js:96 | The item with one leading `-`, digit or dot removed, trimmed. |
| `Llm.ListSectionItems` | backend/src/services/llmService.js:91-98 | Items are trimmed, non-empty and in order. Each comes from a list line, and every list line with a non-empty stripped form yields one. There is no cap. |
| `Llm.NumberedLinesNeverKept` | backend/src/services/llmService.js:85-98 | No section line is numbered. A line is a list line iff it starts with `-` once trimmed. |
| `Llm.RiskLevelCases` | backend/src/services/llmService.js:104-107 | Critical iff some finding is critical; High iff none is critical and some is high; Medium iff neither and more than two findings; Low iff neither and at most two findings. |
| `Llm.RiskLevelMonotone` | backend/src/services/llmService.js:104-107 | Adding a finding never lowers the risk level. |
| `Llm.DetailedAnalysisShape` | backend/src/services/llmService.js:112-117 | The paragraphs in finding order, joined by blank lines. |
| `Llm.MockAnalysis` | backend/src/services/llmService.js:100-127 | Five fixed recommendations, the numbered remediation steps (one per finding) and the detailed analysis paragraphs. |
| `Llm.NumberedSteps` | backend/src/services/llmService.js:129-159 | Step `i` is `i+1. ` followed by that finding's action. |
| `Llm.GenerateRemediationSteps` | backend/src/services/llmService.js:129-159 | The loop pushes exactly the numbered steps, unsorted. |
| `Llm.StepNumbers` | backend/src/services/llmService.js:132-156 | The `k`-th step starts with the decimal of `k+1` and `". "`, and that prefix reads back as `k+1`. |
| `Llm.ParsedShape` | backend/src/services/llmService.js:72-83 | The parsed text sections are trimmed and have no blank line. The list items are non-empty and trimmed. |
| `Llm.NoPlausibilityCheck` | backend/src/services/llmService.js:72-83 | No summary check: a response without the heading is kept with an empty summary. |
| `Llm.AnalyzeVulnerabilities` | backend/src/services/llmService.js:9-49 | The mock without a key or on error; the parsed response otherwise. |
| `Llm.MockExecutiveSummary` | backend/src/services/llmService.js:217-223 | The mock summary has no surrounding whitespace. |
| `Llm.GenerateExecutiveSummary` | backend/src/services/llmService.js:161-215 | The trimmed provider text, or the mock; always trimmed. |
| `Server.FindingCount` | backend/src/server.js:111 | 4 for comprehensive, 2 for basic, otherwise 1. |
| `Server.Selected` | backend/src/server.js:112-119 | The first `numVulns` entries of the current table order, stamped with the target and time. |
| `Server.ApplySwapsPermutation` | backend/src/server.js:112-113 | The shuffle only reorders: same multiset. |
| `Server.MockTableDistinct` | backend/src/server.js:47-83 | The five table entries are pairwise different. |
| `Server.SelectedDistinct` | backend/src/server.js:112-119 | After any shuffle, a run's findings come from different table entries. |
| `Server.RunTrace` | backend/src/server.js:91-124 | A run shows the start, one snapshot per phase, and the end. |
| `Server.RunTraceProgress` | backend/src/server.js:91-124 | Progress starts at 10 and strictly increases to 100. It is running until the last snapshot, which is completed. |
| `Server.Scan.constructor` | backend/src/server.js:86-93 | A new scan is pending with no progress, no findings and no completion time. |
| `Server.FindScan` | backend/src/server.js:87-88 | The first scan with the id, or none exactly when no scan has it. |
| `Server.Store.constructor` | backend/src/server.js:43-83 | Empty scan and report stores and the mock table in its declared order. |
| `Server.Store.Shuffle` | backend/src/server.js:112-113 | The table in place becomes the swapped order of its old contents. |
| `Server.Store.SimulateNetworkScan` | backend/src/server.js:86-125 | An unknown id changes nothing. Otherwise the table is reshuffled, the run passes the trace, and the scan ends completed with the selected findings and the completion time. |
| `Server.Store.Complete` | backend/src/server.js:121-124 | After the last phase the scan is completed at step "Scan completed", with the selected findings and the completion time. |
| `Server.Store.Cleanup` | backend/src/server.js:151-156 | Scans and reports become exactly the ones created after the cutoff, in order. |
| `Server.CleanupKeepsRecent` | backend/src/server.js:153 | A scan survives iff it was created strictly after the cutoff; order is kept. |
| `Server.CleanupKeepsRecentReports` | backend/src/server.js:154 | A report survives iff it was created strictly after the cutoff; order is kept. |
| `ReportModel.BreakdownAddsUp` | backend/src/controllers/reportController.js:68-74 | The four counts never exceed the total. They equal it iff every severity is one of the four. |
| `ReportModel.RiskScore` | backend/src/controllers/reportController.js:112-124 | A score in tenths from the table {1.0, 1.2, 4.0, 4.8, 7.0, 8.4, 10.0}. |
| `ReportModel.RiskScoreTable` | backend/src/controllers/reportController.js:112-124 | The score per severity and sensitive port. Critical is capped at 10; unknown severities other than the `Object.prototype` names score like low. |
| `ReportModel.RiskScoreExamples` | backend/src/controllers/reportController.js:112-124 | high on 443 scores 8.4, critical on 23 scores 10, medium on 8080 scores 4.0. |
| `ReportModel.BusinessImpact` | backend/src/controllers/reportController.js:127-136 | One of the four impact texts, and "Unknown impact level" iff the severity is not one of the four. |
| `ReportModel.BusinessImpactDeterminesSeverity` | backend/src/controllers/reportController.js:127-136 | Two findings share an impact text iff they have the same severity or both severities are undeclared. |
| `ReportModel.ScoreFindings` | backend/src/controllers/reportController.js:77-81 | Each listed finding is the scan's finding, in order, with `RiskScore` and `BusinessImpact` of it as its score and impact. |
| `ReportModel.ComplianceDependsOnOneSignal` | backend/src/controllers/reportController.js:139-154 | Each standard's status depends only on its own signal. |
| `ReportModel.PciStatusSplitsCleanly` | backend/src/controllers/reportController.js:147 | The PCI status is a bare verdict, or a verdict and a reason around exactly one `" - "`. |
| `ReportModel.IsoStatusSplitsCleanly` | backend/src/controllers/reportController.js:148 | The ISO 27001 status is a bare verdict, or a verdict and a reason around exactly one `" - "`. |
| `ReportModel.NistStatusSplitsCleanly` | backend/src/controllers/reportController.js:149-151 | The NIST status is a bare verdict, or a verdict and a reason around exactly one `" - "`. |
| `ReportModel.GdprStatusSplitsCleanly` | backend/src/controllers/reportController.js:152 | The GDPR status is a bare verdict, or a verdict and a reason around exactly one `" - "`. |
| `ReportModel.GenerateNextSteps` | backend/src/controllers/reportController.js:157-191 | IMMEDIATE iff a critical finding exists and HIGH iff a high one does. MEDIUM and LOW are always last. The order is strictly by urgency. |
| `ReportModel.FindReport` | backend/src/controllers/reportController.js:13 | The first report with the id, or none exactly when no report has it. |
| `ReportController.AssembleReport` | backend/src/controllers/reportController.js:50-96 | The report carries the ids, target and type, the breakdown of the findings, the scored findings, every part of the analysis, the executive summary, the compliance block of the findings, the next steps and the metadata. |
| `ReportController.GenerateStatusCases` | backend/src/controllers/reportController.js:21-35 | 400 iff no scan id; 404 iff the id is unknown; 400 iff the scan is not completed; 201 otherwise. |
| `ReportController.GenerateWith` | backend/src/controllers/reportController.js:21-104 | An error status leaves the stores untouched. On 201 exactly the new report is appended, built from the scan. Scans are never changed. |
| `ReportController.Generate` | backend/src/controllers/reportController.js:21-104 | The same, with the analysis and the summary taken from the Gemini service. |
| `ReportController.GeminiReportShape` | backend/src/controllers/reportController.js:41-96 | A generated report has a summary of at least 10 characters, a trimmed executive summary, one entry per finding, and the mock recommendations when the provider did not answer. |
| `ReportController.ReportForParts` | backend/src/controllers/reportController.js:41-96 | For any services, the report holds the analysis summary and recommendations and the executive summary as given, scores every finding, and lists the findings' next steps. |
| `Gemini.Analyzer` | backend/src/controllers/reportController.js:41 | The analysis call the handler makes is the Gemini service's analysis for the same findings and target. |
| `Gemini.Summarizer` | backend/src/controllers/reportController.js:42-47 | The executive-summary call the handler makes is the Gemini service's summary for the same target and findings. |
| `ReportController.BuildReport` | backend/src/controllers/reportController.js:50-96 | The report is the specified one. |
| `ReportController.GetReport` | backend/src/controllers/reportController.js:12-18 | 404 iff no report has the id; otherwise 200 with that stored report. |
| `PentestEngine.CheckSsh` | backend/app.py:127-152 | A finding iff the banner is known and names OpenSSH 7.x, 6.x or 5.x; High, score 7.5. |
| `PentestEngine.CheckHttp` | backend/app.py:154-174 | A finding iff the headers are known and lack X-Frame-Options (any case); medium, score 5.0. |
| `PentestEngine.CheckHttps` | backend/app.py:176-203 | A finding iff the certificate is known to be expired; medium, score 6.0. |
| `PentestEngine.CheckRdp` | backend/app.py:205-226 | A finding iff the connect returned 0; critical, score 9.0. |
| `PentestEngine.Dispatch` | backend/app.py:97-121 | Only the four port/service pairs are checked, and a finding is on that port and service. |
| `PentestEngine.PortFindings` | backend/app.py:97-123 | At most one finding per port. |
| `PentestEngine.Findings` | backend/app.py:89-125 | A failed port scan yields nothing; otherwise at most one finding per open port. |
| `PentestEngine.PortFindingsSelection` | backend/app.py:97-123 | The findings are, in port order, exactly the checks that reported something. |
| `PentestEngine.FindingsOrigin` | backend/app.py:97-123 | Each finding is on an open port, with its scanned service, and for a checked pair. |
| `PentestEngine.Count` | backend/app.py:289-292 | A severity count is at most the number of findings. |
| `PentestEngine.RiskLevelInTenths` | backend/app.py:294-304 | High iff the average is above 7.0, Medium iff it is in (4.0, 7.0], Low otherwise, restated on the integer total. |
| `PentestEngine.RemediationStepsSelection` | backend/app.py:305 | The steps are, in order, exactly the non-empty remediations. |
| `PentestEngine.DefaultAnalysis` | backend/app.py:287-306 | Three priority recommendations; the mean risk, which is non-negative and 0 without findings; an executive summary ending in "Risk level: " and the level of that mean; the remediation steps. |
| `PentestEngine.AnalyzeWithLlm` | backend/app.py:228-285 | The default iff no key, an exception, or a non-200 status. Parsed JSON iff 200 and JSON; wrapped text iff 200 and not JSON. |
| `PentestEngine.ReportOf` | backend/app.py:308-333 | The report carries the target, the findings, their count, the analysis and the risk score. |
| `PentestEngine.CountsAddUp` | backend/app.py:324-329 | The summary counts never exceed the total. They equal it iff every severity is one of the four labels. |
| `PentestEngine.ReportSummaryMatchesDefault` | backend/app.py:289-292 | The report's counts are those the default analysis quotes. |
| `PentestEngine.Engine.constructor` | backend/app.py:49-52 | No results and no key. |
| `PentestEngine.Engine.SetLlmApiKey` | backend/app.py:54-56 | The key is set and the results are unchanged. |
| `PentestEngine.Engine.VulnerabilityScan` | backend/app.py:89-125 | The loop collects exactly the specified findings. |
| `PentestEngine.Engine.GenerateReport` | backend/app.py:308-333 | The report for the scan with the LLM analysis is stored under the target; nothing else changes. |
| `PentestEngine.Engine.GetResults` | backend/app.py:366-372 | 404 iff no report is stored for the target; otherwise 200 with that report. |
| `NewScan.OctetPatternIsOctet` | frontend/src/components/NewScan.jsx:22 | An octet alternative is 1-3 digits with value at most 255. |
| `NewScan.IpPatternIsIPv4` | frontend/src/components/NewScan.jsx:22 | The IP pattern matches iff the text is four dot-separated octets. |
| `NewScan.DomainPatternIsDomainName` | frontend/src/components/NewScan.jsx:23 | The domain pattern matches iff the text is one label, a dot, and a TLD of two or more letters. |
| `NewScan.MultiLabelRejected` | frontend/src/components/NewScan.jsx:23 | A name with two or more dots is rejected. |
| `NewScan.WithField` | frontend/src/components/NewScan.jsx:42 | The one field is updated and the others are kept. |
| `NewScan.ClearError` | frontend/src/components/NewScan.jsx:43-46 | The field's error becomes empty and the other errors are kept. |
| `NewScan.FormValid` | frontend/src/components/NewScan.jsx:15-32 | No errors iff the trimmed target is non-blank and the target is an IPv4 address or a domain name. |
| `NewScan.BlankTargetRequired` | frontend/src/components/NewScan.jsx:18-19 | A blank target gets exactly the required error, and only the target gets errors. |
| `NewScan.UntrimmedTargetRejected` | frontend/src/components/NewScan.jsx:18-26 | A non-blank target with surrounding whitespace gets the invalid-target error. |
| `NewScan.UntrimmedNotAccepted` | frontend/src/components/NewScan.jsx:22-23 | A text with surrounding whitespace matches neither pattern. |
| `NewScan.Component.constructor` | frontend/src/components/NewScan.jsx:7-13 | The initial form (empty target, "basic", empty description) has no errors. |
| `NewScan.Component.ValidateForm` | frontend/src/components/NewScan.jsx:15-32 | The errors become the form's errors, and the result is true iff there are none. |
| `NewScan.Component.HandleSubmit` | frontend/src/components/NewScan.jsx:34-39 | The form is submitted iff it validates. |
| `NewScan.Component.HandleInputChange` | frontend/src/components/NewScan.jsx:41-47 | The field is set and its error cleared. |

## Left out

- Case mapping is ASCII only. JavaScript's `toLowerCase`/`toUpperCase` and the `i` regex flag also fold non-ASCII letters.
- Lengths count code points rather than UTF-16 units, so `length < 10` differs for astral characters.
- PrioritySort.TagRank: a tag outside the four priorities makes the source comparator return `NaN`, which leaves the engine's order unspecified. The model ranks such a tag as LOW.
- Floating point: risk scores are tenths in `nat`, and the Python average is an exact `real`. There is no rounding and no `:.1f` formatting.
- Each handler reads the clock once, as `now`. The source reads it separately for the id, `createdAt` and `completedAt`.
- scanController.js is not part of this model. It creates, lists and stops scans, so the initial scan values come from the `Scan` constructor and the cancelled/failed states are not modelled.
- The 500 error path of `/generate` is not modelled, because each service call catches its own errors. The global error middleware is left out for the same reason.
- The prompt builders (`buildAnalysisPrompt` and the summary prompts) are left out, because their text only feeds the provider, which is a parameter.
- The `sections` split in the OpenAI `parseAnalysisResponse` is left out, because its result is never used.
- Timestamp comparison in the cleanup uses the stored number. An invalid date (`NaN`) is not modelled.
- Sections.KeepStrip fuses the `filter`/`map`/`filter` chain into one pass with the same result.
- Delays, `await`, threads and the cron schedule are dropped; only the order of the state changes is kept.
- Server.Store.Shuffle: `Math.random` is given as the swaps the sort performed. The model does not say which swaps V8's sort makes.
- Llm.MockAnalysis: its summary and risk-assessment texts are defined but not constrained further.
- Gemini.MockAnalysis: its summary text is constrained only by its length of at least 10 characters.
- ReportModel.RiskScore: a severity that names an `Object.prototype` property ("constructor", "toString", "__proto__" and the like) makes the source's `severityScores[severity] || 1` pick up that inherited property, so the score is `NaN`. The model scores it like an unknown severity. The mock table only emits declared severities.
- ReportModel.BusinessImpact: for the same severities, the source's `impacts[severity] || "Unknown impact level"` returns the inherited function, which JSON then drops. The model gives "Unknown impact level".
- PentestEngine.Findings: the socket, HTTP, TLS and RDP probes are oracles in `Probes`. Their timeouts and exceptions are the `None` case.
- PentestEngine.AnalyzeWithLlm: the JSON parse of the provider text is the `isJson` flag; the JSON itself is kept as text.
- `port_scan` (nmap) is the `PortScan` input, because it runs an external tool.
- The Flask routes `start_scan`, `get_reports`, `update_config` and `health`, and `GET /`, are left out: they only parse requests and call the modelled members. The same goes for the Express PDF export, `/api/health` and `/api/test-gemini`.
- PentestEngine.CheckHttp: the header lookup is an ASCII case-insensitive name match, rather than the `requests` case-insensitive dictionary.
- PentestEngine.CheckSsh: the banner is given already decoded and stripped.
- ReportController.GenerateWith: the analysis services are function parameters. `ReportController.Generate` wires in the Gemini service.
