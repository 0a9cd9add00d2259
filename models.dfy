/**
 * The values the extension produces and is configured with: the event record serialised to
 * every sink (Models/DataEvent.cs), its aggregate report, the event names, the emit-type flags
 * and the configuration defaults.
 */
module Models {
  import opened Wrappers
  import opened Primitives

  /** EventNames, in declaration order; NoEvent is EventNames.None (= 0). */
  datatype EventName =
    | NoEvent | StartRun | StartAssembly | EndAssembly | StartSuite | EndSuite
    | StartTestFixture | EndTestFixture | StartTest | EndTest | Report

  /** The numeric value of each event name. */
  function EventNameValue(e: EventName): (v: nat)
    ensures v <= 10
    ensures v == 0 <==> e == NoEvent
  {
    match e
    case NoEvent => 0
    case StartRun => 1
    case StartAssembly => 2
    case EndAssembly => 3
    case StartSuite => 4
    case EndSuite => 5
    case StartTestFixture => 6
    case EndTestFixture => 7
    case StartTest => 8
    case EndTest => 9
    case Report => 10
  }

  lemma EventNameValuesDistinct(a: EventName, b: EventName)
    ensures EventNameValue(a) == EventNameValue(b) <==> a == b
  {
  }

  /** Test outcome; the first member is the default value. */
  datatype TestStatus = Pass | Fail | Running

  /** DateTime as its tick count; the default is DateTime.MinValue. */
  datatype DateTime = DateTime(ticks: int)
  /** TimeSpan as its tick count; the default is TimeSpan.Zero. */
  datatype TimeSpan = TimeSpan(ticks: int)
  /** A 128-bit identifier; the default is Guid.Empty. */
  datatype Guid = Guid(value: nat)

  /** One entry of the run report (Models/TestCaseReport.cs); strings are None where null. */
  datatype TestCaseReport = TestCaseReport(
    id: Option<string>,
    testSuite: Option<string>,
    testName: Option<string>,
    fullName: Option<string>,
    testResult: bool,
    testStatus: TestStatus,
    startTime: DateTime,
    endTime: DateTime,
    duration: TimeSpan,
    testOutput: Option<string>,
    errorMessage: Option<string>,
    stackTrace: Option<string>)

  /** Models/DataReport.cs: TestReports starts as an empty list. */
  datatype DataReport = DataReport(totalTests: int32, testReports: seq<TestCaseReport>)

  /** Models/DataEvent.cs, every property in declaration order. */
  datatype DataEvent = DataEvent(
    runtime: Option<string>,
    runtimeVersion: Option<string>,
    testRunId: Guid,
    testRunner: Option<string>,
    event: EventName,
    id: Option<string>,
    parentId: Option<string>,
    testSuite: Option<string>,
    testName: Option<string>,
    fullName: Option<string>,
    processId: int32,
    appDomain: Option<string>,
    testType: Option<string>,
    testResult: bool,
    testStatus: TestStatus,
    startTime: DateTime,
    endTime: DateTime,
    duration: TimeSpan,
    passed: int32,
    failed: int32,
    warnings: int32,
    skipped: int32,
    inconclusive: int32,
    testCount: int32,
    testCases: int32,
    asserts: int32,
    isSkipped: bool,
    testOutput: Option<string>,
    errorMessage: Option<string>,
    stackTrace: Option<string>,
    report: Option<DataReport>,
    runNumber: int32)

  /** new DataEvent(eventName): the name set, every other property at its default. */
  function NewEvent(name: EventName): (e: DataEvent)
    ensures e.event == name
    // every reference-typed property is null
    ensures && e.runtime.None? && e.runtimeVersion.None? && e.testRunner.None? && e.id.None?
            && e.parentId.None? && e.testSuite.None? && e.testName.None? && e.fullName.None?
            && e.appDomain.None? && e.testType.None? && e.testOutput.None? && e.errorMessage.None?
            && e.stackTrace.None? && e.report.None?
    // every value-typed property is its zero value
    ensures e.testRunId == Guid(0) && e.processId == 0 && e.runNumber == 0
    ensures !e.testResult && !e.isSkipped && e.testStatus == Pass
    ensures e.startTime == DateTime(0) && e.endTime == DateTime(0) && e.duration == TimeSpan(0)
    ensures && e.passed == 0 && e.failed == 0 && e.warnings == 0 && e.skipped == 0
            && e.inconclusive == 0 && e.testCount == 0 && e.testCases == 0 && e.asserts == 0
  {
    DataEvent(None, None, Guid(0), None, name, None, None, None, None, None, 0, None, None,
              false, Pass, DateTime(0), DateTime(0), TimeSpan(0), 0, 0, 0, 0, 0, 0, 0, 0,
              false, None, None, None, None, 0)
  }

  /** EventEmitTypes flag values (a [Flags] enum). */
  const EmitNone: bv32 := 1
  const EmitNamedPipes: bv32 := 2
  const EmitStdOut: bv32 := 4
  const EmitLogFile: bv32 := 8
  const EmitGrpc: bv32 := 16

  /** Enum.HasFlag: every bit of `flag` is set in `value`. */
  predicate HasFlag(value: bv32, flag: bv32)
  {
    value & flag == flag
  }

  lemma HasFlagOfUnion(a: bv32, b: bv32, flag: bv32)
    requires HasFlag(a, flag)
    ensures HasFlag(a | b, flag) && HasFlag(b | a, flag)
  {
  }

  datatype EventFormat = Json | Xml | Binary

  /** EventOutputStreams; a flag enum too, only the value chosen matters here. */
  datatype OutputStream = NoStream | Trace | Debug | StdOutStream

  /**
   * Configuration.cs. NamedPipesConnectionTimeoutMilliseconds is read by the IPC client but is
   * not declared in the configuration file shown; it is kept as a plain field.
   */
  datatype Configuration = Configuration(
    eventEmitType: bv32,
    eventFormat: EventFormat,
    eventOutputStream: OutputStream,
    eventsLogFile: Option<string>,
    namedPipesConnectionTimeoutMilliseconds: int32)

  const DefaultLogFile: string := "C:\\logs\\testing.log"

  /** A configuration with every declared default and the given connection timeout. */
  function DefaultConfiguration(timeoutMilliseconds: int32): (c: Configuration)
    ensures c.eventFormat == Json && c.eventOutputStream == StdOutStream
    ensures c.eventsLogFile == Some(DefaultLogFile)
    ensures c.namedPipesConnectionTimeoutMilliseconds == timeoutMilliseconds
  {
    Configuration(EmitNamedPipes | EmitLogFile | EmitStdOut, Json, StdOutStream,
                  Some(DefaultLogFile), timeoutMilliseconds)
  }

  /** The defaults turn on the pipe, the log file and standard output, and nothing else. */
  lemma DefaultEmitTypes(timeoutMilliseconds: int32)
    ensures var t := DefaultConfiguration(timeoutMilliseconds).eventEmitType;
      HasFlag(t, EmitNamedPipes) && HasFlag(t, EmitLogFile) && HasFlag(t, EmitStdOut)
      && !HasFlag(t, EmitGrpc) && !HasFlag(t, EmitNone)
  {
  }

  /** string.IsNullOrEmpty */
  predicate IsNullOrEmpty(s: Option<string>)
  {
    s.None? || s.value == ""
  }
}
