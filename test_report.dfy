/**
 * `generate_test_report`: the Markdown lines the integration test writes for
 * a results table. The time stamp is an input, and writing the lines to a
 * file is not modelled.
 */
module TestReport {
  import opened Wrappers
  import opened TestResults
  import PyText
  import PyPath
  import Seqs
  import Mcu

  // The longer fixed lines are written as a short lead and the rest: the
  // verifier then treats each as a concatenation of two short strings rather
  // than one long literal, which keeps the proofs about the report cheap. The
  // value is the same line.
  const TitleLine := "# " + "Multi-Agent Retail Inventory Optimization System Test Report"
  const ComponentResultsHeading := "## Component Test Results"
  const IntegrationDetailsHeading := "## Integration Test Details"
  const RecommendationsHeading := "## Recommendations"
  const PassedMark := "\U{2705}"
  const FailedMark := "\U{274C}"
  const UnknownError := "Unknown error"
  const MethodsCheckedLine := "\n**Methods Checked:**"
  const ExecutionStateLine := "\n**Execution State:**"
  const FailedIntro := "The system " + "has failed one or more tests. Consider the following next steps:"
  const RunAgainLine := "2. " + "Run tests again after fixing the issues"
  const PassedSteps := [
    "The system " + "has passed all tests and is ready for deployment. Consider the following next steps:",
    "1. " + "Deploy the system in a production environment",
    "2. " + "Set up scheduled execution",
    "3. " + "Implement monitoring and alerting",
    "4. " + "Develop a user interface for interacting with the system"]

  function GeneratedLine(generatedOn: string): string {
    "Generated on: " + generatedOn + "\n"
  }

  function OverallStatus(allPassed: bool): string {
    if allPassed then "PASSED" else "FAILED"
  }

  function OverallLine(allPassed: bool): string {
    "## Overall Status: " + OverallStatus(allPassed) + "\n"
  }

  /** The four lines before the component sections. */
  function Preamble(generatedOn: string, allPassed: bool): seq<string> {
    [TitleLine, GeneratedLine(generatedOn), OverallLine(allPassed), ComponentResultsHeading]
  }

  /** `component.replace('_', ' ').title()` */
  function ComponentTitle(component: string): string {
    PyText.Title(PyText.ReplaceChar(component, '_', ' '))
  }

  /** `result["status"].upper()`, written out per status. */
  function UpperStatus(s: Status): string {
    match s
    case NotTested => "NOT_TESTED"
    case Passed => "PASSED"
    case Failed => "FAILED"
  }

  /**
   * The written-out status is Python's `upper()` of the stored status text,
   * and it reads "FAILED" exactly for a failed test and "PASSED" exactly for
   * a passed one.
   */
  lemma UpperStatusNames(s: Status)
    ensures UpperStatus(s) == PyText.Upper(StatusText(s))
    ensures UpperStatus(s) == "FAILED" <==> s == Failed
    ensures UpperStatus(s) == "PASSED" <==> s == Passed
  {
    PyText.UpperChars(StatusText(s));
    match s
    case NotTested => assert |UpperStatus(s)| == 10;
    case Passed =>
    case Failed =>
  }

  function Heading(e: Entry): string {
    var status := UpperStatus(e.result.status);
    "### " + ComponentTitle(e.component) + " - " + (if status == "PASSED" then PassedMark else FailedMark) + " " + status
  }

  /** `details.get("error", "Unknown error")` */
  function ErrorText(d: Details): string {
    d.error.GetOr(UnknownError)
  }

  function ErrorLine(d: Details): string {
    "**Error:** " + ErrorText(d)
  }

  function MethodLine(m: string): string {
    "- `" + m + "`"
  }

  function MethodLines(methods: seq<string>): seq<string> {
    seq(|methods|, i requires 0 <= i < |methods| => MethodLine(methods[i]))
  }

  /** The lines one component contributes to the report: its heading first, a blank line last. */
  function ComponentBlock(e: Entry): (r: seq<string>)
    ensures |r| >= 2 && r[0] == Heading(e) && r[|r| - 1] == ""
  {
    [Heading(e)] + ErrorLines(e) + MethodsList(e.result.details) + [""]
  }

  /**
   * A component's lines: its heading; an error line exactly when its status
   * is "failed" (the only one whose upper-cased form is FAILED); the methods
   * list exactly when its details hold `methods_checked`; and a blank line.
   */
  lemma ComponentBlockLines(e: Entry)
    ensures var r := ComponentBlock(e);
            && |r| == 2 + (if e.result.status == Failed then 1 else 0)
                      + (if e.result.details.methodsChecked.Some? then 1 + |e.result.details.methodsChecked.value| else 0)
            && r[0] == Heading(e) && r[|r| - 1] == ""
            && (e.result.status == Failed ==> r[1] == ErrorLine(e.result.details))
            && (e.result.details.methodsChecked.Some? ==>
                  var k := if e.result.status == Failed then 2 else 1;
                  var ms := e.result.details.methodsChecked.value;
                  && r[k] == MethodsCheckedLine
                  && forall j :: 0 <= j < |ms| ==> r[k + 1 + j] == MethodLine(ms[j]))
  {
    UpperStatusNames(e.result.status);
  }

  /** The error line, present when the upper-cased status is FAILED, that is, exactly for a failed test. */
  function ErrorLines(e: Entry): (r: seq<string>)
    ensures |r| <= 1
    ensures r != [] <==> e.result.status == Failed
    ensures r != [] ==> r[0] == ErrorLine(e.result.details)
  {
    UpperStatusNames(e.result.status);
    if UpperStatus(e.result.status) == "FAILED" then [ErrorLine(e.result.details)] else []
  }

  /** The methods list, present when the details hold `methods_checked`: its label, then one line per method, in order. */
  function MethodsList(d: Details): seq<string> {
    if d.methodsChecked.Some? then [MethodsCheckedLine] + MethodLines(d.methodsChecked.value) else []
  }

  /** The component sections, in table order. */
  function ComponentSection(t: seq<Entry>): seq<string> {
    if t == [] then [] else ComponentSection(t[..|t| - 1]) + ComponentBlock(t[|t| - 1])
  }

  /** Extending the table by one entry extends its sections by that entry's block. */
  lemma ComponentSectionSnoc(t: seq<Entry>, i: nat)
    requires i < |t|
    ensures ComponentSection(t[..i + 1]) == ComponentSection(t[..i]) + ComponentBlock(t[i])
  {
    assert t[..i + 1][..i] == t[..i];
  }

  /** The execution-state lines: each flag reads True exactly when it is present and true. */
  function ExecutionStateLines(es: Mcu.ExecutionState): (r: seq<string>)
    ensures |r| == 5 && r[0] == ExecutionStateLine
    ensures r[1] == "- Data Extraction Completed: " + PyText.BoolText(es.dataExtractionCompleted == Some(true))
    ensures r[2] == "- EDA Completed: " + PyText.BoolText(es.edaCompleted == Some(true))
    ensures r[3] == "- Decision Optimization Completed: " + PyText.BoolText(es.decisionCompleted == Some(true))
  {
    [ExecutionStateLine,
     "- Data Extraction Completed: " + PyText.BoolText(es.dataExtractionCompleted.GetOr(false)),
     "- EDA Completed: " + PyText.BoolText(es.edaCompleted.GetOr(false)),
     "- Decision Optimization Completed: " + PyText.BoolText(es.decisionCompleted.GetOr(false)),
     "- Execution Count: " + PyText.IntText(es.executionCount.GetOr(0))]
  }

  /** A missing execution-state entry prints as `False`, a missing count as `0`. */
  lemma ExecutionStateDefaults(es: Mcu.ExecutionState)
    ensures es.dataExtractionCompleted.None? ==> ExecutionStateLines(es)[1] == "- Data Extraction Completed: False"
    ensures es.edaCompleted.None? ==> ExecutionStateLines(es)[2] == "- EDA Completed: False"
    ensures es.decisionCompleted.None? ==> ExecutionStateLines(es)[3] == "- Decision Optimization Completed: False"
    ensures es.executionCount.None? ==> ExecutionStateLines(es)[4] == "- Execution Count: 0"
  {
    var lines := ExecutionStateLines(es);
    assert PyText.BoolText(false) == "False";
    if es.executionCount.None? {
      assert lines[4] == "- Execution Count: " + PyText.IntText(0);
      assert PyText.IntText(0) == "0";
    }
  }

  function ReportLinkLine(reportPath: string): string {
    "\n**System Report:** [" + PyPath.Basename(reportPath) + "](" + reportPath + ")"
  }

  /**
   * The integration details: present exactly when the integration test
   * passed, with the execution state when the details hold one and the
   * report link when they hold a path.
   */
  function IntegrationSection(r: TestResult): (lines: seq<string>)
    ensures lines != [] <==> r.status == Passed
    ensures r.status == Passed ==> lines[0] == IntegrationDetailsHeading && lines[|lines| - 1] == ""
    ensures r.status == Passed ==>
              |lines| == 2 + (if r.details.executionState.Some? then 5 else 0) + (if r.details.reportPath.Some? then 1 else 0)
    ensures r.status == Passed && r.details.executionState.Some? ==>
              lines[1..6] == ExecutionStateLines(r.details.executionState.value)
    ensures r.status == Passed && r.details.reportPath.Some? ==>
              lines[|lines| - 2] == ReportLinkLine(r.details.reportPath.value)
  {
    if r.status != Passed then []
    else
      [IntegrationDetailsHeading]
      + (match r.details.executionState case Some(es) => ExecutionStateLines(es) case None => [])
      + (match r.details.reportPath case Some(p) => [ReportLinkLine(p)] case None => [])
      + [""]
  }

  /** A fix line names the component and ends with its error. */
  function FixLine(component: string, error: string): (r: string)
    ensures PyText.EndsWith(r, error)
  {
    "1. Fix issues with " + ComponentTitle(component) + ": " + error
  }

  /** Every listed name is a component of the table. */
  predicate AllFound(t: seq<Entry>, names: seq<string>) {
    forall k :: 0 <= k < |names| ==> HasComponent(t, names[k])
  }

  /** One fix line per listed component, with the error found under its name in the table. */
  function FixLines(t: seq<Entry>, names: seq<string>): (r: seq<string>)
    requires AllFound(t, names)
    ensures |r| == |names|
  {
    seq(|names|, k requires 0 <= k < |names| => FixLine(names[k], ErrorText(Find(t, names[k]).details)))
  }

  /** The steps after a failed run: the introduction, the given fix lines, and the "run tests again" line. */
  function FailedSteps(fixes: seq<string>): (r: seq<string>)
    ensures |r| == 2 + |fixes| && r[0] == FailedIntro && r[|r| - 1] == RunAgainLine
    ensures r[1..|r| - 1] == fixes
  {
    [FailedIntro] + fixes + [RunAgainLine]
  }

  /** The steps after the heading: the fixed next steps when every test passed, the failed steps otherwise. */
  function NextSteps(t: seq<Entry>): seq<string> {
    if AllPassed(t) then PassedSteps else FailedSteps(FixLines(t, FailedComponents(t)))
  }

  /**
   * The recommendations: the fixed next steps when every test passed;
   * otherwise the failure introduction, one fix line per failed component,
   * and the "run tests again" line.
   */
  function Recommendations(t: seq<Entry>): (r: seq<string>)
    ensures |r| >= 2 && r[0] == RecommendationsHeading
    ensures AllPassed(t) ==> r[1..] == PassedSteps
    ensures !AllPassed(t) ==> r[1..] == FailedSteps(FixLines(t, FailedComponents(t)))
  {
    [RecommendationsHeading] + NextSteps(t)
  }

  const IntegrationName := "integration"

  /** The two overall-status lines differ. */
  lemma OverallLinesDiffer()
    ensures OverallLine(true) != OverallLine(false)
  {
    assert OverallLine(true)[19] != OverallLine(false)[19];
  }

  /**
   * The whole report for a results table: the title, the time stamp, the
   * overall status and the component heading come first, and at least the
   * two recommendation lines follow.
   */
  function Report(t: seq<Entry>, generatedOn: string): (r: seq<string>)
    requires HasComponent(t, IntegrationName)
    ensures |r| >= 6 && r[..4] == Preamble(generatedOn, AllPassed(t))
  {
    var pre := Preamble(generatedOn, AllPassed(t));
    var body := ComponentSection(t) + IntegrationSection(Find(t, IntegrationName));
    var rec := Recommendations(t);
    Seqs.PrefixOfAppend(pre, body, rec);
    pre + body + rec
  }

  /** The overall status line of the report reads PASSED exactly when every component passed. */
  lemma ReportOverallStatus(t: seq<Entry>, generatedOn: string)
    requires HasComponent(t, IntegrationName)
    ensures Report(t, generatedOn)[2] == OverallLine(true) <==> forall i :: 0 <= i < |t| ==> t[i].result.status == Passed
  {
    var r := Report(t, generatedOn);
    assert r[2] == r[..4][2];
    OverallLinesDiffer();
  }

  /** A line that starts with "### ": the component headings. */
  predicate IsHeadingLine(line: string) {
    |line| >= 4 && line[0] == '#' && line[1] == '#' && line[2] == '#' && line[3] == ' '
  }

  function Headings(lines: seq<string>): seq<string> {
    Seqs.Filter(IsHeadingLine, lines)
  }

  predicate NoHeadings(lines: seq<string>) {
    forall i :: 0 <= i < |lines| ==> !IsHeadingLine(lines[i])
  }

  lemma HeadingsAppend(a: seq<string>, b: seq<string>)
    ensures Headings(a + b) == Headings(a) + Headings(b)
  {
    Seqs.FilterAppend(IsHeadingLine, a, b);
  }

  lemma HeadingsNone(lines: seq<string>)
    requires NoHeadings(lines)
    ensures Headings(lines) == []
  {
    Seqs.FilterNone(IsHeadingLine, lines);
  }

  /** A component's heading is a "### " line that ends in its upper-cased status. */
  lemma HeadingIsHeading(e: Entry)
    ensures IsHeadingLine(Heading(e))
    ensures PyText.EndsWith(Heading(e), UpperStatus(e.result.status))
  {
  }

  lemma ErrorLinesNoHeadings(e: Entry)
    ensures NoHeadings(ErrorLines(e))
  {
    assert ErrorLine(e.result.details)[0] == '*';
  }

  lemma MethodsListNoHeadings(d: Details)
    ensures NoHeadings(MethodsList(d))
  {
    if d.methodsChecked.Some? {
      var ms := d.methodsChecked.value;
      var lines := MethodsList(d);
      forall i | 0 <= i < |lines| ensures !IsHeadingLine(lines[i]) {
        if i == 0 {
          assert lines[i] == MethodsCheckedLine;
        } else {
          assert lines[i] == MethodLine(ms[i - 1]);
          assert lines[i][0] == '-';
        }
      }
    }
  }

  /** A component block holds exactly one heading line, its first. */
  lemma BlockHeadings(e: Entry)
    ensures Headings(ComponentBlock(e)) == [Heading(e)]
  {
    var errors := ErrorLines(e);
    var methods := MethodsList(e.result.details);
    assert ComponentBlock(e) == [Heading(e)] + errors + methods + [""];
    HeadingsAppend([Heading(e)] + errors + methods, [""]);
    HeadingsAppend([Heading(e)] + errors, methods);
    HeadingsAppend([Heading(e)], errors);
    HeadingIsHeading(e);
    ErrorLinesNoHeadings(e);
    HeadingsNone(errors);
    MethodsListNoHeadings(e.result.details);
    HeadingsNone(methods);
    HeadingsNone([""]);
  }

  /** The component headings of a table, one per entry, in table order. */
  function HeadingsOf(t: seq<Entry>): seq<string> {
    if t == [] then [] else HeadingsOf(t[..|t| - 1]) + [Heading(t[|t| - 1])]
  }

  /** `HeadingsOf` holds exactly the heading of each entry, at that entry's position. */
  lemma {:induction false} HeadingsOfEntries(t: seq<Entry>)
    ensures |HeadingsOf(t)| == |t|
    ensures forall i :: 0 <= i < |t| ==> HeadingsOf(t)[i] == Heading(t[i])
  {
    if t != [] {
      var init := t[..|t| - 1];
      HeadingsOfEntries(init);
      forall i | 0 <= i < |init| ensures HeadingsOf(t)[i] == Heading(t[i]) {
        assert init[i] == t[i];
      }
    }
  }

  /** The component sections hold one heading per component, in table order. */
  lemma {:induction false} SectionHeadings(t: seq<Entry>)
    ensures Headings(ComponentSection(t)) == HeadingsOf(t)
  {
    if t != [] {
      var init := t[..|t| - 1];
      SectionHeadings(init);
      HeadingsAppend(ComponentSection(init), ComponentBlock(t[|t| - 1]));
      BlockHeadings(t[|t| - 1]);
    }
  }

  lemma IntegrationSectionNoHeadings(r: TestResult)
    ensures NoHeadings(IntegrationSection(r))
  {
    var lines := IntegrationSection(r);
    if r.status == Passed {
      forall i | 0 <= i < |lines| ensures !IsHeadingLine(lines[i]) {
        if r.details.executionState.Some? && 1 <= i < 6 {
          assert lines[i] == ExecutionStateLines(r.details.executionState.value)[i - 1];
        }
      }
    }
  }

  lemma FixLineNotHeading(component: string, error: string)
    ensures !IsHeadingLine(FixLine(component, error))
  {
    assert FixLine(component, error)[0] == '1';
  }

  lemma PassedStepsNoHeadings()
    ensures NoHeadings(PassedSteps)
  {
    var p := PassedSteps;
    assert p[0][0] == 'T' && p[1][0] == '1' && p[2][0] == '2' && p[3][0] == '3' && p[4][0] == '4';
  }

  lemma FailedStepsNoHeadings(t: seq<Entry>)
    ensures NoHeadings(FailedSteps(FixLines(t, FailedComponents(t))))
  {
    var names := FailedComponents(t);
    var fix := FixLines(t, names);
    var steps := FailedSteps(fix);
    forall i | 0 <= i < |steps| ensures !IsHeadingLine(steps[i]) {
      if i == 0 {
        assert steps[i] == FailedIntro;
      } else if i == |steps| - 1 {
        assert steps[i] == RunAgainLine;
      } else {
        assert steps[i] == fix[i - 1];
        FixLineNotHeading(names[i - 1], ErrorText(Find(t, names[i - 1]).details));
      }
    }
  }

  lemma NoHeadingsCons(line: string, lines: seq<string>)
    requires !IsHeadingLine(line) && NoHeadings(lines)
    ensures NoHeadings([line] + lines)
  {
    forall i | 0 < i < |[line] + lines| ensures !IsHeadingLine(([line] + lines)[i]) {
      assert ([line] + lines)[i] == lines[i - 1];
    }
  }

  lemma NextStepsNoHeadings(t: seq<Entry>)
    ensures NoHeadings(NextSteps(t))
  {
    if AllPassed(t) {
      PassedStepsNoHeadings();
    } else {
      FailedStepsNoHeadings(t);
    }
  }

  lemma RecommendationsNoHeadings(t: seq<Entry>)
    ensures NoHeadings(Recommendations(t))
  {
    NextStepsNoHeadings(t);
    assert RecommendationsHeading[2] == ' ';
    NoHeadingsCons(RecommendationsHeading, NextSteps(t));
  }

  lemma PreambleNoHeadings(generatedOn: string, allPassed: bool)
    ensures NoHeadings(Preamble(generatedOn, allPassed))
  {
    var p := Preamble(generatedOn, allPassed);
    assert p[0][1] == ' ' && p[1][0] == 'G' && p[2][2] == ' ' && p[3][2] == ' ';
  }

  /**
   * Each component yields exactly one heading line, in table order, and no
   * other line of the report is a component heading.
   */
  lemma ReportHeadings(t: seq<Entry>, generatedOn: string)
    requires HasComponent(t, IntegrationName)
    ensures Headings(Report(t, generatedOn)) == HeadingsOf(t)
  {
    var pre := Preamble(generatedOn, AllPassed(t));
    var comp := ComponentSection(t);
    var integ := IntegrationSection(Find(t, IntegrationName));
    var rec := Recommendations(t);
    PreambleNoHeadings(generatedOn, AllPassed(t));
    HeadingsNone(pre);
    IntegrationSectionNoHeadings(Find(t, IntegrationName));
    HeadingsNone(integ);
    RecommendationsNoHeadings(t);
    HeadingsNone(rec);
    SectionHeadings(t);
    HeadingsAppend(comp, integ);
    assert Headings(comp + integ) == Headings(comp);
    HeadingsAppend(pre, comp + integ);
    assert Headings(pre + (comp + integ)) == Headings(comp);
    HeadingsAppend(pre + (comp + integ), rec);
    assert Report(t, generatedOn) == pre + (comp + integ) + rec;
  }

  /** The fix lines, stated directly on the table: one per failed entry, in table order, with its own error. */
  function FailedEntryLines(t: seq<Entry>): seq<string> {
    if t == [] then []
    else (if t[0].result.status == Failed then [FixLine(t[0].component, ErrorText(t[0].result.details))] else [])
         + FailedEntryLines(t[1..])
  }

  predicate DistinctComponents(t: seq<Entry>) {
    forall j, k :: 0 <= j < k < |t| ==> t[j].component != t[k].component
  }

  lemma FixLinesAppend(t: seq<Entry>, a: seq<string>, b: seq<string>)
    requires AllFound(t, a) && AllFound(t, b)
    ensures AllFound(t, a + b)
    ensures FixLines(t, a + b) == FixLines(t, a) + FixLines(t, b)
  {
    forall k | 0 <= k < |a + b| ensures HasComponent(t, (a + b)[k]) {
      if k < |a| {
        assert (a + b)[k] == a[k];
      } else {
        assert (a + b)[k] == b[k - |a|];
      }
    }
    assert AllFound(t, a + b);
    var whole := FixLines(t, a + b);
    var parts := FixLines(t, a) + FixLines(t, b);
    assert |whole| == |parts|;
    forall k | 0 <= k < |whole| ensures whole[k] == parts[k] {
      if k < |a| {
        assert (a + b)[k] == a[k];
      } else {
        assert (a + b)[k] == b[k - |a|];
      }
    }
  }

  /** Names other than the first entry's are looked up in the rest of the table. */
  lemma FixLinesInRest(t: seq<Entry>, names: seq<string>)
    requires t != [] && AllFound(t[1..], names)
    requires forall k :: 0 <= k < |names| ==> names[k] != t[0].component
    ensures AllFound(t, names)
    ensures FixLines(t, names) == FixLines(t[1..], names)
  {
    forall k | 0 <= k < |names| ensures HasComponent(t, names[k]) {
      var i :| 0 <= i < |t[1..]| && t[1..][i].component == names[k];
      assert t[i + 1].component == names[k];
    }
    assert AllFound(t, names);
    var whole := FixLines(t, names);
    var inRest := FixLines(t[1..], names);
    forall k | 0 <= k < |names| ensures whole[k] == inRest[k] {
      assert Find(t, names[k]) == Find(t[1..], names[k]);
    }
  }

  /**
   * Looking each failed name up again, as the source does, finds that
   * component's own entry: the fix lines are exactly one per component
   * whose status is "failed" (never a not-tested one), in table order.
   */
  lemma {:induction false} FixLinesAreFailedEntries(t: seq<Entry>)
    requires DistinctComponents(t)
    ensures FixLines(t, FailedComponents(t)) == FailedEntryLines(t)
  {
    if t != [] {
      var rest := t[1..];
      var names := FailedComponents(rest);
      assert DistinctComponents(rest) by {
        forall j, k | 0 <= j < k < |rest| ensures rest[j].component != rest[k].component {
          assert rest[j] == t[j + 1] && rest[k] == t[k + 1];
        }
      }
      FixLinesAreFailedEntries(rest);
      forall k | 0 <= k < |names| ensures names[k] != t[0].component {
        var i :| 0 <= i < |rest| && rest[i].component == names[k] && rest[i].result.status == Failed;
        assert rest[i] == t[i + 1];
      }
      FixLinesInRest(t, names);
      var head := if t[0].result.status == Failed then [t[0].component] else [];
      assert FailedComponents(t) == head + names;
      FixLinesAppend(t, head, names);
      if t[0].result.status == Failed {
        assert FixLines(t, head) == [FixLine(t[0].component, ErrorText(t[0].result.details))];
      } else {
        assert FixLines(t, head) == [];
      }
    }
  }

  /**
   * The recommendations after a failed run, stated on the table: the
   * introduction, then one "Fix issues with" line per component whose
   * status is "failed", in table order and with its own error, then the
   * "run tests again" line.
   */
  lemma FailedRecommendations(t: seq<Entry>)
    requires DistinctComponents(t) && !AllPassed(t)
    ensures var r := Recommendations(t);
            && |r| == 3 + |FailedEntryLines(t)|
            && r[1] == FailedIntro
            && r[2..|r| - 1] == FailedEntryLines(t)
            && r[|r| - 1] == RunAgainLine
  {
    var r := Recommendations(t);
    var fixes := FixLines(t, FailedComponents(t));
    var steps := FailedSteps(fixes);
    FixLinesAreFailedEntries(t);
    assert r[1..] == steps;
    Seqs.InnerSlice(r, steps);
  }
}
