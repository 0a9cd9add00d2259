/**
 * TestMonitorExtension: receives NUnit's report fragments, dispatches them on the root tag to
 * the handlers, and writes each resulting event to the sinks the EventEmitTypes flags select:
 * the named pipe (through IpcServer) and the events log file. The sinks' observable state is a
 * value (SinkState); the pure functions below say what one call does to it, and the methods of
 * the classes are proved to do exactly that. Serialisation is abstracted: a sink records the
 * stamped DataEvent it would have received as JSON.
 */
module Extension {
  import opened Wrappers
  import opened Fragment
  import opened Models
  import opened Translation
  import opened RuntimeDetectionModel

  /** The kinds of line the events log receives. */
  datatype LogRecord =
    | Activated                       // "... extension activated for run ..."
    | EventLine(event: DataEvent)     // a serialised event
    | ErrorLine(operation: string)    // "|ERROR|<operation>|..."
    | WarnLine(operation: string)     // "|WARN|<operation>|..."
    | PipeTimeout                     // IpcServer: "Timeout (...) waiting for NamedPipe client to connect!"
    | Deactivated                     // "... extension deactivated for run ..."

  /** What stays fixed for the extension's lifetime: configuration, run identity, detected runtime. */
  datatype Context = Context(
    configuration: Configuration,
    run: RunIdentity,
    framework: RuntimeFramework,
    frameworkDescription: string)

  /** The sinks: the log file's records, what the pipe client has received, and the two live resources. */
  datatype SinkState = SinkState(
    log: seq<LogRecord>,
    pipe: seq<DataEvent>,
    pipeConnected: bool,
    lockAlive: bool)

  predicate LogsToFile(c: Configuration)
  {
    !IsNullOrEmpty(c.eventsLogFile)
  }

  /** WriteLog: appends only when a log file is configured. */
  function Logged(c: Configuration, log: seq<LogRecord>, r: LogRecord): seq<LogRecord>
  {
    if LogsToFile(c) then log + [r] else log
  }

  /** WriteEvent's first step: the run id and the detected runtime overwrite what the handler set. */
  function Stamp(ctx: Context, e: DataEvent): (s: DataEvent)
    ensures s.testRunId == ctx.run.testRunId
    ensures s.runtime == Some(FrameworkName(ctx.framework))
    ensures s.runtimeVersion == Some(ctx.frameworkDescription)
  {
    e.(testRunId := ctx.run.testRunId,
       runtime := Some(FrameworkName(ctx.framework)),
       runtimeVersion := Some(ctx.frameworkDescription))
  }

  /** Stamping changes those three properties and nothing else. */
  lemma StampChangesOnlyStampedFields(ctx: Context, e: DataEvent)
    ensures Stamp(ctx, e).(testRunId := e.testRunId, runtime := e.runtime, runtimeVersion := e.runtimeVersion) == e
    ensures Stamp(ctx, Stamp(ctx, e)) == Stamp(ctx, e)
  {
  }

  /**
   * IpcServer.Write: a no-op unless a client is connected. A failed write is logged as a Write
   * error and leaves the pipe stream Broken, so the stream no longer reports a connection.
   */
  function PipeWrite(c: Configuration, s: SinkState, e: DataEvent, ioFails: bool): SinkState
  {
    if !s.pipeConnected then s
    else if ioFails then s.(log := Logged(c, s.log, ErrorLine("Write")), pipeConnected := false)
    else s.(pipe := s.pipe + [e])
  }

  /** WriteEvent: stamp, then the pipe if NamedPipes is set, then the log if LogFile is set and a path is configured. */
  function Publish(ctx: Context, s: SinkState, e: DataEvent, ioFails: bool): SinkState
  {
    var c := ctx.configuration;
    var stamped := Stamp(ctx, e);
    var afterPipe := if HasFlag(c.eventEmitType, EmitNamedPipes) then PipeWrite(c, s, stamped, ioFails) else s;
    if HasFlag(c.eventEmitType, EmitLogFile) && LogsToFile(c)
    then afterPipe.(log := afterPipe.log + [EventLine(stamped)])
    else afterPipe
  }

  /**
   * The constructor: the activation line, then, when NamedPipes is set, the pipe server's wait
   * for a client, which either connects or times out with a logged message.
   */
  function Activation(ctx: Context, clientConnects: bool): SinkState
  {
    var c := ctx.configuration;
    var log := Logged(c, [], Activated);
    var pipes := HasFlag(c.eventEmitType, EmitNamedPipes);
    SinkState(if pipes && !clientConnects then Logged(c, log, PipeTimeout) else log,
              [], pipes && clientConnects, true)
  }

  /** Dispose(isDisposing): with isDisposing, the pipe server is disposed and the lock released and dropped. */
  function Teardown(ctx: Context, s: SinkState, isDisposing: bool): SinkState
  {
    var afterDispose := if isDisposing then s.(pipeConnected := false, lockAlive := false) else s;
    afterDispose.(log := Logged(ctx.configuration, afterDispose.log, Deactivated))
  }

  /** What a handler's outcome does to the sinks. */
  function Deliver(ctx: Context, s: SinkState, h: Handled, ioFails: bool): SinkState
  {
    match h
    case Emitted(e) => Publish(ctx, s, e, ioFails)
    case Ignored => s
    case Failed(operation) => s.(log := Logged(ctx.configuration, s.log, ErrorLine(operation)))
    case Warned(operation) => s.(log := Logged(ctx.configuration, s.log, WarnLine(operation)))
  }

  /** The five root tags the extension reacts to. */
  predicate IsHandledTag(tag: string)
  {
    tag == "start-suite" || tag == "start-test" || tag == "test-case" || tag == "test-suite" || tag == "test-run"
  }

  /** The event name each handled tag produces. */
  function EventForTag(tag: string): EventName
  {
    if tag == "start-suite" then StartSuite
    else if tag == "start-test" then StartTest
    else if tag == "test-case" then EndTest
    else if tag == "test-suite" then EndSuite
    else if tag == "test-run" then Report
    else NoEvent
  }

  /** The handler a root tag selects; None for every other tag. */
  function Handler(ctx: Context, d: Document, now: DateTime, p: Parsers): Option<Handled>
    requires d.children != []
  {
    var tag := Name(d.children[0]);
    if tag == "start-suite" then Some(StartSuiteEvent(d, ctx.run, now))
    else if tag == "start-test" then Some(StartTestEvent(d, ctx.run, now))
    else if tag == "test-case" then Some(EndTestEvent(d, ctx.run, p))
    else if tag == "test-suite" then Some(EndSuiteEvent(d, ctx.run, p))
    else if tag == "test-run" then Some(EndRunEvent(d, ctx.run, p))
    else None
  }

  /**
   * OnTestEvent: a report that is not XML (None), or has no first node, is logged as an
   * OnTestEvent error; otherwise the root tag picks the handler. A Report event is written
   * before the extension tears itself down.
   */
  function Step(ctx: Context, s: SinkState, report: Option<Document>, now: DateTime, p: Parsers,
                ioFails: bool): SinkState
  {
    if report.None? || report.value.children == [] then
      s.(log := Logged(ctx.configuration, s.log, ErrorLine("OnTestEvent")))
    else
      var d := report.value;
      match Handler(ctx, d, now, p)
      case None => s
      case Some(h) =>
        if Name(d.children[0]) == "test-run" && h.Emitted? then Teardown(ctx, Publish(ctx, s, h.event, ioFails), true)
        else Deliver(ctx, s, h, ioFails)
  }

  // ---------------------------------------------------------------- properties of the sinks

  /**
   * The pipe receives the stamped event exactly when NamedPipes is set, a client is connected
   * and the write does not fail; otherwise it receives nothing.
   */
  lemma PipeReceivesIff(ctx: Context, s: SinkState, e: DataEvent, ioFails: bool)
    ensures var c := ctx.configuration;
      Publish(ctx, s, e, ioFails).pipe ==
        if HasFlag(c.eventEmitType, EmitNamedPipes) && s.pipeConnected && !ioFails
        then s.pipe + [Stamp(ctx, e)] else s.pipe
    ensures Publish(ctx, s, e, ioFails).pipeConnected ==
      (s.pipeConnected && !(HasFlag(ctx.configuration.eventEmitType, EmitNamedPipes) && ioFails))
    ensures Publish(ctx, s, e, ioFails).lockAlive == s.lockAlive
  {
  }

  /**
   * The log receives the stamped event exactly when LogFile is set and a path is configured,
   * whatever happened on the pipe; a failed pipe write adds its error line first.
   */
  lemma LogReceivesIff(ctx: Context, s: SinkState, e: DataEvent, ioFails: bool)
    ensures var c := ctx.configuration;
      var pipeError := HasFlag(c.eventEmitType, EmitNamedPipes) && s.pipeConnected && ioFails && LogsToFile(c);
      var eventLine := HasFlag(c.eventEmitType, EmitLogFile) && LogsToFile(c);
      Publish(ctx, s, e, ioFails).log ==
        s.log + (if pipeError then [ErrorLine("Write")] else []) + (if eventLine then [EventLine(Stamp(ctx, e))] else [])
  {
  }

  /** A pipe failure never costs the log its copy of the event. */
  lemma PipeFailureKeepsLogCopy(ctx: Context, s: SinkState, e: DataEvent)
    requires HasFlag(ctx.configuration.eventEmitType, EmitLogFile) && LogsToFile(ctx.configuration)
    ensures var log := Publish(ctx, s, e, true).log;
      |log| > |s.log| && log[|log| - 1] == EventLine(Stamp(ctx, e))
  {
    LogReceivesIff(ctx, s, e, true);
  }

  /**
   * A failed pipe write breaks the connection: every later event skips the pipe without a
   * Write error, whether or not that later write would have failed.
   */
  lemma BrokenPipeStaysSilent(ctx: Context, s: SinkState, e1: DataEvent, e2: DataEvent, ioFails2: bool)
    requires HasFlag(ctx.configuration.eventEmitType, EmitNamedPipes) && s.pipeConnected
    ensures var t1 := Publish(ctx, s, e1, true);
      var t2 := Publish(ctx, t1, e2, ioFails2);
      && !t1.pipeConnected && t2.pipe == t1.pipe == s.pipe
      && t2.log == t1.log + (if HasFlag(ctx.configuration.eventEmitType, EmitLogFile) && LogsToFile(ctx.configuration)
                             then [EventLine(Stamp(ctx, e2))] else [])
  {
    PipeReceivesIff(ctx, s, e1, true);
    PipeReceivesIff(ctx, Publish(ctx, s, e1, true), e2, ioFails2);
    LogReceivesIff(ctx, Publish(ctx, s, e1, true), e2, ioFails2);
  }

  /**
   * A handler's outcome only appends to the sinks, and the log lines it appends are a pipe
   * error, the event, the handler's own error, or (only for Warned) its warning.
   */
  lemma DeliverAppends(ctx: Context, s: SinkState, h: Handled, ioFails: bool)
    ensures var t := Deliver(ctx, s, h, ioFails);
      && s.log <= t.log && s.pipe <= t.pipe
      && (!h.Warned? ==> forall i | |s.log| <= i < |t.log| :: !t.log[i].WarnLine?)
  {
    if h.Emitted? {
      LogReceivesIff(ctx, s, h.event, ioFails);
      PipeReceivesIff(ctx, s, h.event, ioFails);
    }
  }

  lemma TeardownAppends(ctx: Context, s: SinkState)
    ensures var t := Teardown(ctx, s, true);
      && s.log <= t.log && s.pipe == t.pipe
      && forall i | |s.log| <= i < |t.log| :: t.log[i] == Deactivated
  {
  }

  /** A successful run end: the Report event is delivered, then the teardown follows. */
  lemma RunEndAppends(ctx: Context, s: SinkState, e: DataEvent, ioFails: bool)
    ensures var t := Teardown(ctx, Publish(ctx, s, e, ioFails), true);
      && s.log <= t.log && s.pipe <= t.pipe
      && forall i | |s.log| <= i < |t.log| :: !t.log[i].WarnLine?
  {
    var published := Publish(ctx, s, e, ioFails);
    DeliverAppends(ctx, s, Emitted(e), ioFails);
    TeardownAppends(ctx, published);
    var t := Teardown(ctx, published, true);
    forall i | |s.log| <= i < |t.log| ensures !t.log[i].WarnLine? {
      if i >= |published.log| {
        assert t.log[i] == Deactivated;
      } else {
        assert t.log[i] == published.log[i];
      }
    }
  }

  /** No call removes or rewrites what the sinks already hold. */
  lemma StepAppendsOnly(ctx: Context, s: SinkState, report: Option<Document>, now: DateTime,
                        p: Parsers, ioFails: bool)
    ensures var t := Step(ctx, s, report, now, p, ioFails);
      s.log <= t.log && s.pipe <= t.pipe
  {
    if report.Some? && report.value.children != [] {
      var d := report.value;
      var h := Handler(ctx, d, now, p);
      if h.Some? {
        DeliverAppends(ctx, s, h.value, ioFails);
        if h.value.Emitted? {
          RunEndAppends(ctx, s, h.value.event, ioFails);
        }
      }
    }
  }

  /** One report puts at most one event on the pipe, and it is the event its root tag names. */
  lemma {:induction false} StepEmitsAtMostOne(ctx: Context, s: SinkState, report: Option<Document>, now: DateTime,
                                              p: Parsers, ioFails: bool)
    ensures var t := Step(ctx, s, report, now, p, ioFails);
      && |t.pipe| <= |s.pipe| + 1
      && (|t.pipe| == |s.pipe| + 1 ==>
            && report.Some? && report.value.children != []
            && IsHandledTag(Name(report.value.children[0]))
            && t.pipe[|s.pipe|].event == EventForTag(Name(report.value.children[0]))
            && t.pipe[|s.pipe|].testRunId == ctx.run.testRunId
            && t.pipe[|s.pipe|].runtime == Some(FrameworkName(ctx.framework)))
  {
    if report.Some? && report.value.children != [] {
      var d := report.value;
      var h := Handler(ctx, d, now, p);
      if h.Some? && h.value.Emitted? {
        PipeReceivesIff(ctx, s, h.value.event, ioFails);
        var tag := Name(d.children[0]);
        assert h.value.event.event == EventForTag(tag);
      }
    }
  }

  /** A root tag other than the five handled ones changes nothing at all. */
  lemma OtherTagsIgnored(ctx: Context, s: SinkState, d: Document, now: DateTime, p: Parsers, ioFails: bool)
    requires d.children != [] && !IsHandledTag(Name(d.children[0]))
    ensures Step(ctx, s, Some(d), now, p, ioFails) == s
  {
  }

  /** A report that is not XML only adds an OnTestEvent error line; the exception never escapes. */
  lemma MalformedReportLogged(ctx: Context, s: SinkState, now: DateTime, p: Parsers, ioFails: bool)
    ensures Step(ctx, s, None, now, p, ioFails) == s.(log := Logged(ctx.configuration, s.log, ErrorLine("OnTestEvent")))
  {
  }

  /**
   * The end of a run tears the extension down after writing its Report event: the pipe is
   * disconnected and the lock is gone, and the log ends with the deactivation line.
   */
  lemma RunEndTearsDown(ctx: Context, s: SinkState, d: Document, now: DateTime, p: Parsers, ioFails: bool)
    requires d.children != [] && Name(d.children[0]) == "test-run"
    requires EndRunEvent(d, ctx.run, p).Emitted?
    requires LogsToFile(ctx.configuration)
    ensures var t := Step(ctx, s, Some(d), now, p, ioFails);
      && !t.pipeConnected && !t.lockAlive
      && |t.log| > |s.log| && t.log[|t.log| - 1] == Deactivated
  {
    var h := EndRunEvent(d, ctx.run, p);
    assert Handler(ctx, d, now, p) == Some(h);
    var published := Publish(ctx, s, h.event, ioFails);
    assert Step(ctx, s, Some(d), now, p, ioFails) == Teardown(ctx, published, true);
    assert |s.log| <= |published.log| by { DeliverAppends(ctx, s, h, ioFails); }
  }

  /**
   * After teardown nothing reaches the pipe, but events keep going to the log: the code does
   * not turn later calls into no-ops.
   */
  lemma AfterTeardownOnlyLog(ctx: Context, s: SinkState, d: Document, now: DateTime, p: Parsers, ioFails: bool)
    requires !s.pipeConnected
    requires d.children != [] && Handler(ctx, d, now, p).Some? && Handler(ctx, d, now, p).value.Emitted?
    requires HasFlag(ctx.configuration.eventEmitType, EmitLogFile) && LogsToFile(ctx.configuration)
    ensures var t := Step(ctx, s, Some(d), now, p, ioFails);
      t.pipe == s.pipe && EventLine(Stamp(ctx, Handler(ctx, d, now, p).value.event)) in t.log[|s.log|..]
  {
    var e := Handler(ctx, d, now, p).value.event;
    PipeReceivesIff(ctx, s, e, ioFails);
    LogReceivesIff(ctx, s, e, ioFails);
    var published := Publish(ctx, s, e, ioFails);
    assert published.log[|s.log|] == EventLine(Stamp(ctx, e));
    var t := Step(ctx, s, Some(d), now, p, ioFails);
    assert t.log[..|published.log|] == published.log by {
      if Name(d.children[0]) == "test-run" {
        assert t == Teardown(ctx, published, true);
      }
    }
    assert t.log[|s.log|] == EventLine(Stamp(ctx, e));
  }

  /**
   * The WARN branch of EndTest is unreachable through OnTestEvent: a report without a first
   * node has already failed the dispatch.
   */
  lemma EndTestWarningUnreachable(ctx: Context, s: SinkState, report: Option<Document>, now: DateTime,
                                  p: Parsers, ioFails: bool)
    ensures var t := Step(ctx, s, report, now, p, ioFails);
      forall i | |s.log| <= i < |t.log| :: !t.log[i].WarnLine?
  {
    if report.Some? && report.value.children != [] {
      var d := report.value;
      var h := Handler(ctx, d, now, p);
      if h.Some? {
        assert !h.value.Warned?;
        DeliverAppends(ctx, s, h.value, ioFails);
        if h.value.Emitted? {
          RunEndAppends(ctx, s, h.value.event, ioFails);
        }
      }
    }
  }

  // ---------------------------------------------------------------- the objects

  /** The events log file: every writer appends to the same path. */
  class LogFile {
    const path: Option<string>
    var records: seq<LogRecord>

    constructor(path: Option<string>)
      ensures this.path == path && records == []
    {
      this.path := path;
      records := [];
    }

    /** WriteLog(text): File.AppendAllText unless the path is null or empty. */
    method WriteLog(r: LogRecord)
      modifies this
      ensures records == if IsNullOrEmpty(path) then old(records) else old(records) + [r]
    {
      if !IsNullOrEmpty(path) {
        records := records + [r];
      }
    }
  }

  /** IpcServer, reduced to whether a client is connected and what it has been sent. */
  class IpcServer {
    const configuration: Configuration
    const log: LogFile
    var connected: bool
    var received: seq<DataEvent>

    constructor(configuration: Configuration, log: LogFile)
      ensures this.configuration == configuration && this.log == log
      ensures !connected && received == []
    {
      this.configuration := configuration;
      this.log := log;
      connected := false;
      received := [];
    }

    /** Start: waits for a client; on timeout logs it and disposes the stream. */
    method Start(clientConnects: bool)
      modifies this`connected, log
      ensures connected == clientConnects
      ensures log.records == if clientConnects || IsNullOrEmpty(log.path) then old(log.records)
                             else old(log.records) + [PipeTimeout]
    {
      if clientConnects {
        connected := true;
      } else {
        log.WriteLog(PipeTimeout);
        connected := false;
      }
    }

    /**
     * Write(text): only to a connected client; an IOException is caught and logged here, and
     * the broken stream no longer reports a connection.
     */
    method Write(e: DataEvent, ioFails: bool)
      modifies this`received, this`connected, log
      ensures received == if old(connected) && !ioFails then old(received) + [e] else old(received)
      ensures connected == (old(connected) && !ioFails)
      ensures log.records == if old(connected) && ioFails && !IsNullOrEmpty(log.path)
                             then old(log.records) + [ErrorLine("Write")] else old(log.records)
    {
      if connected {
        if ioFails {
          log.WriteLog(ErrorLine("Write"));
          connected := false;
        } else {
          received := received + [e];
        }
      }
    }

    /** Dispose(true): flushes and drops the stream; later writes see no connected client. */
    method Dispose()
      modifies this`connected
      ensures !connected
    {
      connected := false;
    }
  }

  class TestMonitorExtension {
    const ctx: Context
    const log: LogFile
    const ipcServer: IpcServer
    var lockAlive: bool

    /** The extension and its pipe server log to the configured file. */
    ghost predicate Valid()
      reads this
    {
      && ipcServer.log == log
      && log.path == ctx.configuration.eventsLogFile
      && ipcServer.configuration == ctx.configuration
      && ctx.framework != Unknown
    }

    function Sinks(): SinkState
      reads this, log, ipcServer
    {
      SinkState(log.records, ipcServer.received, ipcServer.connected, lockAlive)
    }

    /**
     * The constructor logs the activation line, creates the pipe server and starts it only when
     * NamedPipes is set. The runtime stamped into events is the one `detection` found, which its
     * own constructor guarantees is known. `clientConnects` is whether a client connects within
     * the timeout.
     */
    constructor(configuration: Configuration, run: RunIdentity, detection: RuntimeDetection, clientConnects: bool)
      requires detection.detectedRuntimeFramework != Unknown
      ensures ctx == Context(configuration, run, detection.detectedRuntimeFramework,
                             detection.detectedRuntimeFrameworkDescription)
      ensures Valid() && fresh(log) && fresh(ipcServer)
      ensures Sinks() == Activation(ctx, clientConnects)
    {
      var ctx := Context(configuration, run, detection.detectedRuntimeFramework,
                         detection.detectedRuntimeFrameworkDescription);
      this.ctx := ctx;
      var file := new LogFile(ctx.configuration.eventsLogFile);
      file.WriteLog(Activated);
      var server := new IpcServer(ctx.configuration, file);
      if HasFlag(ctx.configuration.eventEmitType, EmitNamedPipes) {
        server.Start(clientConnects);
      }
      log := file;
      ipcServer := server;
      lockAlive := true;
    }

    /** WriteEvent */
    method WriteEvent(data: DataEvent, ioFails: bool)
      requires Valid()
      modifies log, ipcServer`received, ipcServer`connected
      ensures Sinks() == Publish(ctx, old(Sinks()), data, ioFails)
    {
      var c := ctx.configuration;
      var stamped := Stamp(ctx, data);
      if HasFlag(c.eventEmitType, EmitNamedPipes) {
        ipcServer.Write(stamped, ioFails);
      }
      if HasFlag(c.eventEmitType, EmitLogFile) && !IsNullOrEmpty(c.eventsLogFile) {
        log.WriteLog(EventLine(stamped));
      }
    }

    /** A handler's tail: write its event, or log its error or warning. */
    method HandleOutcome(h: Handled, ioFails: bool)
      requires Valid()
      modifies log, ipcServer`received, ipcServer`connected
      ensures Sinks() == Deliver(ctx, old(Sinks()), h, ioFails)
    {
      match h
      case Emitted(e) => WriteEvent(e, ioFails);
      case Ignored =>
      case Failed(operation) => log.WriteLog(ErrorLine(operation));
      case Warned(operation) => log.WriteLog(WarnLine(operation));
    }

    /** EndRun: the counters, the foreach over the test-case nodes, the Report event, then Dispose(true). */
    method EndRun(d: Document, p: Parsers, ioFails: bool)
      requires Valid()
      modifies this, log, ipcServer
      ensures var h := EndRunEvent(d, ctx.run, p);
        Sinks() == if h.Emitted? then Teardown(ctx, Publish(ctx, old(Sinks()), h.event, ioFails), true)
                   else Deliver(ctx, old(Sinks()), h, ioFails)
    {
      if d.children == [] {
        log.WriteLog(ErrorLine("EndRun"));
        return;
      }
      var entry := d.children[0];
      var figures := ParseRunFigures(entry, p);
      if figures.None? {
        log.WriteLog(ErrorLine("EndRun"));
        return;
      }
      var testCases := CollectTestCases(TestCases(d), p);
      if testCases.None? {
        log.WriteLog(ErrorLine("EndRun"));
        return;
      }
      WriteEvent(ReportEvent(entry, ctx.run, figures.value, testCases.value), ioFails);
      DisposeCore(true);
    }

    /** OnTestEvent(report); None stands for a report LoadXml rejects. */
    method OnTestEvent(report: Option<Document>, now: DateTime, p: Parsers, ioFails: bool)
      requires Valid()
      modifies this, log, ipcServer
      ensures Sinks() == Step(ctx, old(Sinks()), report, now, p, ioFails)
    {
      if report.None? || report.value.children == [] {
        log.WriteLog(ErrorLine("OnTestEvent"));
        return;
      }
      var d := report.value;
      var tag := Name(d.children[0]);
      if tag == "start-suite" {
        HandleOutcome(StartSuiteEvent(d, ctx.run, now), ioFails);
      } else if tag == "start-test" {
        HandleOutcome(StartTestEvent(d, ctx.run, now), ioFails);
      } else if tag == "test-case" {
        HandleOutcome(EndTestEvent(d, ctx.run, p), ioFails);
      } else if tag == "test-suite" {
        HandleOutcome(EndSuiteEvent(d, ctx.run, p), ioFails);
      } else if tag == "test-run" {
        EndRun(d, p, ioFails);
      }
    }

    /** Dispose() */
    method Dispose()
      requires Valid()
      modifies this, log, ipcServer`connected
      ensures Sinks() == Teardown(ctx, old(Sinks()), true)
    {
      DisposeCore(true);
    }

    /** Dispose(bool): repeatable; every call writes the deactivation line. */
    method DisposeCore(isDisposing: bool)
      requires Valid()
      modifies this, log, ipcServer`connected
      ensures Sinks() == Teardown(ctx, old(Sinks()), isDisposing)
    {
      if isDisposing {
        ipcServer.Dispose();
        lockAlive := false;
      }
      log.WriteLog(Deactivated);
    }
  }

  /** Disposing twice leaves the same resources as disposing once, with one more deactivation line. */
  lemma TeardownRepeatable(ctx: Context, s: SinkState)
    ensures var once := Teardown(ctx, s, true);
      var twice := Teardown(ctx, once, true);
      && twice.pipeConnected == once.pipeConnected && twice.lockAlive == once.lockAlive
      && twice.pipe == once.pipe
      && twice.log == Logged(ctx.configuration, once.log, Deactivated)
  {
  }
}
