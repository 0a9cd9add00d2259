/**
 * The report handlers of TestMonitorExtension: each turns one NUnit report fragment into at most
 * one DataEvent. The handlers' try/catch is the Failed outcome: an attribute that fails to parse
 * (DateTime.Parse, double.Parse then TimeSpan.FromSeconds, int.Parse) abandons the handler, which
 * logs an ERROR line naming itself and emits nothing. The parsers are parameters.
 */
module Translation {
  import opened Wrappers
  import opened Primitives
  import opened Fragment
  import opened Models

  /** The foreign parsers; None stands for the exception they throw. */
  datatype Parsers = Parsers(
    dateTime: string -> Option<DateTime>,
    seconds: string -> Option<TimeSpan>,
    integer: string -> Option<int32>)

  /** Parsing a null attribute throws too. */
  function ParseDate(p: Parsers, s: Option<string>): Option<DateTime>
  {
    if s.None? then None else p.dateTime(s.value)
  }

  function ParseSeconds(p: Parsers, s: Option<string>): Option<TimeSpan>
  {
    if s.None? then None else p.seconds(s.value)
  }

  function ParseInt(p: Parsers, s: Option<string>): Option<int32>
  {
    if s.None? then None else p.integer(s.value)
  }

  /** RuntimeInfo.Instance: the run's identifier and the process name. */
  datatype RunIdentity = RunIdentity(testRunId: Guid, processName: Option<string>)

  /** What a handler did: one event for WriteEvent, nothing, an ERROR log line, or a WARN log line. */
  datatype Handled =
    | Emitted(event: DataEvent)
    | Ignored
    | Failed(operation: string)
    | Warned(operation: string)

  /** `result == "Passed"`, compared exactly (ordinal, case-sensitive). */
  predicate IsPassed(n: Node)
  {
    GetAttribute(n, "result") == Some("Passed")
  }

  function StatusOf(passed: bool): (s: TestStatus)
    ensures s == Pass <==> passed
    ensures s != Running
  {
    if passed then Pass else Fail
  }

  /** `node?.SelectSingleNode(tag)` */
  function SelectChildOf(n: Option<Node>, tag: string): Option<Node>
  {
    if n.None? then None else SelectChild(n.value, tag)
  }

  /** failure/message, failure/stack-trace and output, each as InnerText or null. */
  function ErrorMessageOf(n: Node): Option<string>
  {
    InnerTextOpt(SelectChildOf(SelectChild(n, "failure"), "message"))
  }

  function StackTraceOf(n: Node): Option<string>
  {
    InnerTextOpt(SelectChildOf(SelectChild(n, "failure"), "stack-trace"))
  }

  function OutputOf(n: Node): Option<string>
  {
    InnerTextOpt(SelectChild(n, "output"))
  }

  /** start-time, end-time and duration, parsed. */
  datatype Timing = Timing(startTime: DateTime, endTime: DateTime, duration: TimeSpan)

  function ParseTiming(n: Node, p: Parsers): (r: Option<Timing>)
    ensures r.Some? <==>
      ParseDate(p, GetAttribute(n, "start-time")).Some? && ParseDate(p, GetAttribute(n, "end-time")).Some?
      && ParseSeconds(p, GetAttribute(n, "duration")).Some?
    ensures r.Some? ==>
      && Some(r.value.startTime) == ParseDate(p, GetAttribute(n, "start-time"))
      && Some(r.value.endTime) == ParseDate(p, GetAttribute(n, "end-time"))
      && Some(r.value.duration) == ParseSeconds(p, GetAttribute(n, "duration"))
  {
    var startTime :- ParseDate(p, GetAttribute(n, "start-time"));
    var endTime :- ParseDate(p, GetAttribute(n, "end-time"));
    var duration :- ParseSeconds(p, GetAttribute(n, "duration"));
    Some(Timing(startTime, endTime, duration))
  }

  // ---------------------------------------------------------------- start-suite, start-test

  /**
   * StartSuite: a StartSuite event with status Running stamped with the handling time, only
   * for a fragment of type TestFixture; any other type yields nothing.
   */
  function StartSuiteEvent(d: Document, run: RunIdentity, now: DateTime): (r: Handled)
    ensures r.Emitted? <==> d.children != [] && GetAttribute(d.children[0], "type") == Some("TestFixture")
    ensures r.Emitted? ==>
      var entry := d.children[0];
      && r.event.event == StartSuite && r.event.testStatus == Running && r.event.startTime == now
      && r.event.id == GetAttribute(entry, "id") && r.event.parentId == GetAttribute(entry, "parentId")
      && r.event.testSuite == GetAttribute(entry, "name") && r.event.fullName == GetAttribute(entry, "fullname")
      && r.event.testRunId == run.testRunId && r.event.testRunner == run.processName
      && r.event.testName.None? && r.event.report.None?
    ensures !r.Emitted? ==> r == (if d.children == [] then Failed("StartSuite") else Ignored)
  {
    if d.children == [] then Failed("StartSuite")
    else
      var entry := d.children[0];
      if GetAttribute(entry, "type") == Some("TestFixture") then
        Emitted(NewEvent(StartSuite).(
          id := GetAttribute(entry, "id"),
          parentId := GetAttribute(entry, "parentId"),
          testRunId := run.testRunId,
          testRunner := run.processName,
          testSuite := GetAttribute(entry, "name"),
          fullName := GetAttribute(entry, "fullname"),
          startTime := now,
          testStatus := Running))
      else Ignored
  }

  /** StartTest: a StartTest event with status Running, only for a fragment of type TestMethod. */
  function StartTestEvent(d: Document, run: RunIdentity, now: DateTime): (r: Handled)
    ensures r.Emitted? <==> d.children != [] && GetAttribute(d.children[0], "type") == Some("TestMethod")
    ensures r.Emitted? ==>
      var entry := d.children[0];
      && r.event.event == StartTest && r.event.testStatus == Running && r.event.startTime == now
      && r.event.id == GetAttribute(entry, "id") && r.event.parentId == GetAttribute(entry, "parentId")
      && r.event.testName == GetAttribute(entry, "name") && r.event.fullName == GetAttribute(entry, "fullname")
      && r.event.testRunId == run.testRunId && r.event.testRunner == run.processName
      && r.event.testSuite.None? && r.event.report.None?
    ensures !r.Emitted? ==> r == (if d.children == [] then Failed("StartTest") else Ignored)
  {
    if d.children == [] then Failed("StartTest")
    else
      var entry := d.children[0];
      if GetAttribute(entry, "type") == Some("TestMethod") then
        Emitted(NewEvent(StartTest).(
          id := GetAttribute(entry, "id"),
          parentId := GetAttribute(entry, "parentId"),
          testRunId := run.testRunId,
          testRunner := run.processName,
          testName := GetAttribute(entry, "name"),
          fullName := GetAttribute(entry, "fullname"),
          startTime := now,
          testStatus := Running))
      else Ignored
  }

  // ---------------------------------------------------------------- test-case

  /**
   * EndTest: a fragment without child nodes is only reported with a WARN line. Otherwise an
   * EndTest event whose result is true exactly when result is "Passed", with status Pass or
   * Fail to match and a report of one test; a timing attribute that does not parse drops it.
   */
  function EndTestEvent(d: Document, run: RunIdentity, p: Parsers): (r: Handled)
    ensures r.Warned? <==> d.children == []
    ensures r.Warned? ==> r.operation == "EndTest"
    ensures r.Failed? <==> d.children != [] && ParseTiming(d.children[0], p).None?
    ensures r.Failed? ==> r.operation == "EndTest"
    ensures !r.Ignored?
    ensures r.Emitted? ==>
      var entry := d.children[0];
      var timing := ParseTiming(entry, p).value;
      && r.event.event == EndTest
      && (r.event.testResult <==> IsPassed(entry))
      && (r.event.testStatus == Pass <==> IsPassed(entry)) && r.event.testStatus != Running
      && r.event.report == Some(DataReport(1, []))
      && r.event.startTime == timing.startTime && r.event.endTime == timing.endTime
      && r.event.duration == timing.duration
      && r.event.id == GetAttribute(entry, "id") && r.event.parentId == GetAttribute(entry, "parentId")
      && r.event.testName == GetAttribute(entry, "name") && r.event.fullName == GetAttribute(entry, "fullname")
      && r.event.errorMessage == ErrorMessageOf(entry) && r.event.stackTrace == StackTraceOf(entry)
      && r.event.testOutput == OutputOf(entry)
      && r.event.testRunId == run.testRunId && r.event.testRunner == run.processName
  {
    if d.children == [] then Warned("EndTest")
    else
      var entry := d.children[0];
      match ParseTiming(entry, p)
      case None => Failed("EndTest")
      case Some(timing) =>
        var testResult := IsPassed(entry);
        Emitted(NewEvent(EndTest).(
          id := GetAttribute(entry, "id"),
          parentId := GetAttribute(entry, "parentId"),
          testRunId := run.testRunId,
          testRunner := run.processName,
          testName := GetAttribute(entry, "name"),
          fullName := GetAttribute(entry, "fullname"),
          startTime := timing.startTime,
          endTime := timing.endTime,
          duration := timing.duration,
          testResult := testResult,
          testStatus := StatusOf(testResult),
          errorMessage := ErrorMessageOf(entry),
          stackTrace := StackTraceOf(entry),
          testOutput := OutputOf(entry),
          report := Some(DataReport(1, []))))
  }

  // ---------------------------------------------------------------- test-suite

  /** The counters of a test-suite fragment. */
  datatype SuiteFigures = SuiteFigures(timing: Timing, total: int32, warnings: int32,
                                       inconclusive: int32, skipped: int32, passed: int32, failed: int32)

  function ParseSuiteFigures(n: Node, p: Parsers): (r: Option<SuiteFigures>)
    ensures r.Some? <==>
      ParseTiming(n, p).Some? && ParseInt(p, GetAttribute(n, "total")).Some?
      && ParseInt(p, GetAttribute(n, "warnings")).Some? && ParseInt(p, GetAttribute(n, "inconclusive")).Some?
      && ParseInt(p, GetAttribute(n, "skipped")).Some? && ParseInt(p, GetAttribute(n, "passed")).Some?
      && ParseInt(p, GetAttribute(n, "failed")).Some?
    ensures r.Some? ==>
      && Some(r.value.timing) == ParseTiming(n, p)
      && Some(r.value.total) == ParseInt(p, GetAttribute(n, "total"))
      && Some(r.value.warnings) == ParseInt(p, GetAttribute(n, "warnings"))
      && Some(r.value.inconclusive) == ParseInt(p, GetAttribute(n, "inconclusive"))
      && Some(r.value.skipped) == ParseInt(p, GetAttribute(n, "skipped"))
      && Some(r.value.passed) == ParseInt(p, GetAttribute(n, "passed"))
      && Some(r.value.failed) == ParseInt(p, GetAttribute(n, "failed"))
  {
    var timing :- ParseTiming(n, p);
    var total :- ParseInt(p, GetAttribute(n, "total"));
    var warnings :- ParseInt(p, GetAttribute(n, "warnings"));
    var inconclusive :- ParseInt(p, GetAttribute(n, "inconclusive"));
    var skipped :- ParseInt(p, GetAttribute(n, "skipped"));
    var passed :- ParseInt(p, GetAttribute(n, "passed"));
    var failed :- ParseInt(p, GetAttribute(n, "failed"));
    Some(SuiteFigures(timing, total, warnings, inconclusive, skipped, passed, failed))
  }

  /**
   * EndSuite: every attribute is parsed before the type is looked at, so a parse failure drops
   * the event whatever the type; then only a fragment of type TestMethod yields an EndSuite
   * event, carrying the suite's counters with TestCount = total.
   */
  function EndSuiteEvent(d: Document, run: RunIdentity, p: Parsers): (r: Handled)
    ensures r.Failed? <==> d.children == [] || ParseSuiteFigures(d.children[0], p).None?
    ensures r.Failed? ==> r.operation == "EndSuite"
    ensures !r.Warned?
    ensures r.Emitted? <==>
      d.children != [] && ParseSuiteFigures(d.children[0], p).Some?
      && GetAttribute(d.children[0], "type") == Some("TestMethod")
    ensures r.Emitted? ==>
      var entry := d.children[0];
      var f := ParseSuiteFigures(entry, p).value;
      && r.event.event == EndSuite
      && (r.event.testResult <==> IsPassed(entry)) && (r.event.testStatus == Pass <==> IsPassed(entry))
      && r.event.testStatus != Running
      && r.event.passed == f.passed && r.event.failed == f.failed && r.event.warnings == f.warnings
      && r.event.skipped == f.skipped && r.event.inconclusive == f.inconclusive
      && r.event.testCount == f.total
      && r.event.startTime == f.timing.startTime && r.event.endTime == f.timing.endTime
      && r.event.duration == f.timing.duration
      && r.event.id == GetAttribute(entry, "id") && r.event.parentId.None?
      && r.event.testName == GetAttribute(entry, "name") && r.event.fullName == GetAttribute(entry, "fullname")
      && r.event.testRunId == run.testRunId && r.event.testRunner == run.processName
      && r.event.report.None?
  {
    if d.children == [] then Failed("EndSuite")
    else
      var entry := d.children[0];
      match ParseSuiteFigures(entry, p)
      case None => Failed("EndSuite")
      case Some(f) =>
        if GetAttribute(entry, "type") == Some("TestMethod") then
          var result := IsPassed(entry);
          Emitted(NewEvent(EndSuite).(
            id := GetAttribute(entry, "id"),
            testRunId := run.testRunId,
            testRunner := run.processName,
            testName := GetAttribute(entry, "name"),
            fullName := GetAttribute(entry, "fullname"),
            startTime := f.timing.startTime,
            endTime := f.timing.endTime,
            duration := f.timing.duration,
            testResult := result,
            passed := f.passed,
            failed := f.failed,
            warnings := f.warnings,
            skipped := f.skipped,
            testCount := f.total,
            inconclusive := f.inconclusive,
            testStatus := StatusOf(result)))
        else Ignored
  }

  // ---------------------------------------------------------------- test-run

  /** One TestCaseReport for a test-case element, or None if one of its timings does not parse. */
  function CaseReport(c: Located, p: Parsers): Option<TestCaseReport>
  {
    var timing :- ParseTiming(c.node, p);
    var testResult := IsPassed(c.node);
    Some(TestCaseReport(
      GetAttribute(c.node, "id"), c.parentName, GetAttribute(c.node, "name"),
      GetAttribute(c.node, "fullname"), testResult, StatusOf(testResult),
      timing.startTime, timing.endTime, timing.duration,
      OutputOf(c.node), ErrorMessageOf(c.node), StackTraceOf(c.node)))
  }

  /**
   * A test-case's report names its parent suite, passes exactly when its result is "Passed",
   * and copies the element's attributes, child texts and parsed timings.
   */
  lemma CaseReportFields(c: Located, p: Parsers)
    ensures CaseReport(c, p).Some? <==> ParseTiming(c.node, p).Some?
    ensures CaseReport(c, p).Some? ==>
      var r := CaseReport(c, p).value;
      var timing := ParseTiming(c.node, p).value;
      && r.testSuite == c.parentName
      && (r.testResult <==> IsPassed(c.node)) && (r.testStatus == Pass <==> IsPassed(c.node))
      && r.testStatus != Running
      && r.id == GetAttribute(c.node, "id") && r.testName == GetAttribute(c.node, "name")
      && r.fullName == GetAttribute(c.node, "fullname")
      && r.errorMessage == ErrorMessageOf(c.node) && r.stackTrace == StackTraceOf(c.node)
      && r.testOutput == OutputOf(c.node)
      && r.startTime == timing.startTime && r.endTime == timing.endTime && r.duration == timing.duration
  {
  }

  /**
   * The report list of a run: one entry per test-case, in the same order, when every entry
   * builds; None as soon as one does not (the exception leaves the loop and the handler).
   */
  function TestCaseReports(cases: seq<Located>, p: Parsers): (r: Option<seq<TestCaseReport>>)
    ensures r.Some? ==> |r.value| == |cases|
  {
    if cases == [] then Some([])
    else
      var head := CaseReport(cases[0], p);
      var rest := TestCaseReports(cases[1..], p);
      if head.None? || rest.None? then None
      else Some([head.value] + rest.value)
  }

  /** TestCaseReports succeeds exactly when every entry builds, and then lists those entries. */
  lemma {:induction false} TestCaseReportsPointwise(cases: seq<Located>, p: Parsers)
    ensures TestCaseReports(cases, p).Some? <==> forall i | 0 <= i < |cases| :: CaseReport(cases[i], p).Some?
    ensures TestCaseReports(cases, p).Some? ==>
      forall i | 0 <= i < |cases| :: CaseReport(cases[i], p) == Some(TestCaseReports(cases, p).value[i])
  {
    if cases != [] {
      TestCaseReportsPointwise(cases[1..], p);
      assert forall i | 1 <= i < |cases| :: cases[i] == cases[1..][i - 1];
    }
  }

  /** The foreach over GetElementsByTagName("test-case"), appending one report per node. */
  method CollectTestCases(cases: seq<Located>, p: Parsers) returns (r: Option<seq<TestCaseReport>>)
    ensures r == TestCaseReports(cases, p)
  {
    var testCases: seq<TestCaseReport> := [];
    var i := 0;
    while i < |cases|
      invariant 0 <= i <= |cases|
      invariant |testCases| == i
      invariant forall j | 0 <= j < i :: CaseReport(cases[j], p) == Some(testCases[j])
    {
      var entry := CaseReport(cases[i], p);
      if entry.None? {
        TestCaseReportsPointwise(cases, p);
        return None;
      }
      testCases := testCases + [entry.value];
      i := i + 1;
    }
    r := Some(testCases);
    ReportsDetermined(cases, p, testCases);
  }

  /** The pointwise description of TestCaseReports pins the list down. */
  lemma ReportsDetermined(cases: seq<Located>, p: Parsers, reports: seq<TestCaseReport>)
    requires |reports| == |cases|
    requires forall j | 0 <= j < |cases| :: CaseReport(cases[j], p) == Some(reports[j])
    ensures TestCaseReports(cases, p) == Some(reports)
  {
    var r := TestCaseReports(cases, p);
    TestCaseReportsPointwise(cases, p);
    assert r.Some?;
    assert forall j | 0 <= j < |cases| :: r.value[j] == reports[j];
    assert r.value == reports;
  }

  /** The counters of a test-run fragment. */
  datatype RunFigures = RunFigures(timing: Timing, testCount: int32, inconclusive: int32,
                                   skipped: int32, passed: int32, failed: int32, asserts: int32)

  function ParseRunFigures(n: Node, p: Parsers): (r: Option<RunFigures>)
    ensures r.Some? <==>
      ParseTiming(n, p).Some? && ParseInt(p, GetAttribute(n, "testcasecount")).Some?
      && ParseInt(p, GetAttribute(n, "inconclusive")).Some? && ParseInt(p, GetAttribute(n, "skipped")).Some?
      && ParseInt(p, GetAttribute(n, "passed")).Some? && ParseInt(p, GetAttribute(n, "failed")).Some?
      && ParseInt(p, GetAttribute(n, "asserts")).Some?
    ensures r.Some? ==>
      && Some(r.value.timing) == ParseTiming(n, p)
      && Some(r.value.testCount) == ParseInt(p, GetAttribute(n, "testcasecount"))
      && Some(r.value.inconclusive) == ParseInt(p, GetAttribute(n, "inconclusive"))
      && Some(r.value.skipped) == ParseInt(p, GetAttribute(n, "skipped"))
      && Some(r.value.passed) == ParseInt(p, GetAttribute(n, "passed"))
      && Some(r.value.failed) == ParseInt(p, GetAttribute(n, "failed"))
      && Some(r.value.asserts) == ParseInt(p, GetAttribute(n, "asserts"))
  {
    var timing :- ParseTiming(n, p);
    var testCount :- ParseInt(p, GetAttribute(n, "testcasecount"));
    var inconclusive :- ParseInt(p, GetAttribute(n, "inconclusive"));
    var skipped :- ParseInt(p, GetAttribute(n, "skipped"));
    var passed :- ParseInt(p, GetAttribute(n, "passed"));
    var failed :- ParseInt(p, GetAttribute(n, "failed"));
    var asserts :- ParseInt(p, GetAttribute(n, "asserts"));
    Some(RunFigures(timing, testCount, inconclusive, skipped, passed, failed, asserts))
  }

  /** The Report event of a run, from its root element, its counters and the per-case reports. */
  function ReportEvent(entry: Node, run: RunIdentity, f: RunFigures, reports: seq<TestCaseReport>): (e: DataEvent)
    ensures e.event == Report
    ensures e.report == Some(DataReport(f.testCount, reports))
    ensures e.testCount == f.testCount
  {
    var result := IsPassed(entry);
    NewEvent(Report).(
      id := GetAttribute(entry, "id"),
      testRunId := run.testRunId,
      testRunner := run.processName,
      testName := GetAttribute(entry, "name"),
      fullName := GetAttribute(entry, "fullname"),
      startTime := f.timing.startTime,
      endTime := f.timing.endTime,
      duration := f.timing.duration,
      testResult := result,
      passed := f.passed,
      failed := f.failed,
      asserts := f.asserts,
      testCount := f.testCount,
      testStatus := StatusOf(result),
      report := Some(DataReport(f.testCount, reports)),
      skipped := f.skipped,
      inconclusive := f.inconclusive)
  }

  /** EndRun before its final Dispose: the Report event, or Failed when something does not parse. */
  function EndRunEvent(d: Document, run: RunIdentity, p: Parsers): (r: Handled)
    ensures r.Emitted? || r == Failed("EndRun")
    ensures r.Emitted? <==>
      d.children != [] && ParseRunFigures(d.children[0], p).Some? && TestCaseReports(TestCases(d), p).Some?
  {
    if d.children == [] then Failed("EndRun")
    else
      var entry := d.children[0];
      match ParseRunFigures(entry, p)
      case None => Failed("EndRun")
      case Some(f) =>
        match TestCaseReports(TestCases(d), p)
        case None => Failed("EndRun")
        case Some(reports) => Emitted(ReportEvent(entry, run, f, reports))
  }

  /**
   * The run report: TotalTests and TestCount are both the testcasecount attribute, and there is
   * one report per test-case element of the document, in document order, each naming its
   * parent suite and passing exactly when its result is "Passed".
   */
  lemma EndRunReport(d: Document, run: RunIdentity, p: Parsers)
    requires EndRunEvent(d, run, p).Emitted?
    ensures var e := EndRunEvent(d, run, p).event;
      var cases := TestCases(d);
      && e.event == Report
      && e.report.Some?
      && Some(e.report.value.totalTests) == ParseInt(p, GetAttribute(d.children[0], "testcasecount"))
      && e.testCount == e.report.value.totalTests
      && |e.report.value.testReports| == |cases|
      && forall i | 0 <= i < |cases| ::
           && e.report.value.testReports[i].testSuite == cases[i].parentName
           && cases[i].node.Element? && cases[i].node.name == TestCaseTag
           && (e.report.value.testReports[i].testStatus == Pass <==> IsPassed(cases[i].node))
  {
    CasesAreTestCases(None, d.children);
    var cases := TestCases(d);
    var reports := TestCaseReports(cases, p).value;
    TestCaseReportsPointwise(cases, p);
    var e := EndRunEvent(d, run, p).event;
    assert e == ReportEvent(d.children[0], run, ParseRunFigures(d.children[0], p).value, reports);
    forall i | 0 <= i < |cases|
      ensures reports[i].testSuite == cases[i].parentName
      ensures reports[i].testStatus == Pass <==> IsPassed(cases[i].node)
    {
      assert CaseReport(cases[i], p) == Some(reports[i]);
      CaseReportFields(cases[i], p);
    }
  }

  /**
   * TotalTests does not count anything: a run that declares testcasecount 5 but contains no
   * test-case element reports 5 tests and an empty list.
   */
  lemma TotalTestsIsDeclared(attributes: map<string, string>, run: RunIdentity, p: Parsers)
    requires "testcasecount" in attributes && p.integer(attributes["testcasecount"]) == Some(5)
    requires ParseRunFigures(Element("test-run", attributes, []), p).Some?
    ensures var h := EndRunEvent(Document([Element("test-run", attributes, [])]), run, p);
      h.Emitted? && h.event.report == Some(DataReport(5, []))
  {
    var root := Element("test-run", attributes, []);
    assert TestCases(Document([root])) == [] by {
      assert CasesIn(None, [root]) == CasesUnder(None, root) + CasesIn(None, []);
    }
  }

  /** Result matching is exact: a test-case whose result is "passed" in lower case is a failure. */
  lemma LowerCasePassedFails(attributes: map<string, string>, children: seq<Node>,
                             run: RunIdentity, p: Parsers)
    requires "result" in attributes && attributes["result"] == "passed"
    requires EndTestEvent(Document([Element("test-case", attributes, children)]), run, p).Emitted?
    ensures var e := EndTestEvent(Document([Element("test-case", attributes, children)]), run, p).event;
      !e.testResult && e.testStatus == Fail
  {
    assert "passed" != "Passed" by { assert "passed"[0] != "Passed"[0]; }
  }
}
