# NUnit.Extension.TestMonitor in Dafny

NUnit.Extension.TestMonitor is an NUnit engine extension. NUnit hands it one XML fragment per
test event. The extension turns the fragments it cares about into `DataEvent` records and writes
them to a named pipe, to an events log file, or to both, depending on the `EventEmitTypes` flags.
The extension's own pipe server (`IpcServer`, pipe "TestMonitorExtension") sends each event as
plain text through a `StreamWriter`, with no framing. A separate client class (`IpcClient`)
connects to a different pipe, "Commander", for writing only, and sends length-framed messages.
It frames every message in a fixed 4 MiB buffer: a start marker, a 4-byte length, an end marker,
then the payload.

This project models three parts of the extension and proves properties of them:

- **The IPC client** (`ipc_client.dfy`, with `framing.dfy` and `utf8.dfy`). This is a class
  with the 4 MiB `array` buffer, the connection flags and the disposed guard. `Write` fills the
  buffer in place. It is proved to leave exactly the frame in `buffer[0 .. 8 + length)` and the
  rest of the buffer unchanged, and to hand exactly that frame to the pipe. A reader-side decoder
  recovers every message from the byte stream the pipe received.
- **Event translation, dispatch and sink selection** (`fragment.dfy`, `translation.dfy`,
  `extension.dfy`). A report fragment is a tree: elements with a tag, an attribute map and
  ordered children, plus text nodes.
  - The four simple handlers are pure functions from a fragment to a `Handled` outcome: an event,
    nothing, an ERROR line or a WARN line.
  - `EndRun` keeps its loop over the `test-case` elements, as a method proved equal to a
    specification function.
  - The extension object is a class whose methods are proved to change the sinks (log records,
    pipe contents, pipe connection, lock) exactly as pure functions of the old state say.
  - Lemmas about those functions state what the sinks receive and when.
- **Runtime detection** (`runtime_detection.dfy`). A class whose `DetectRuntime` performs the
  source's successive overwrites. It is proved equal to a three-rule classification of the
  target-framework name.

`models.dfy` transcribes the records (`DataEvent`, `DataReport`, `TestCaseReport`), the event
names, the emit-type flags and the configuration defaults. `wrappers.dfy` and
`primitives.dfy` hold `Option`, `byte` and `int32`.

These inputs from the environment are method or function parameters:

- whether a connect attempt succeeds, times out, fails with an IOException or fails otherwise (`ConnectAttempt`);
- whether a pipe write fails (`pipeFails`, `ioFails`);
- whether a client connects to the server within the timeout (`clientConnects`);
- the handling time (`now`);
- the host's framework facts (`Host`);
- the foreign parsers (`Parsers`).

Where the code and the project's description of it disagree, the model follows the code:

- `"Passed"` is matched case-sensitively;
- an attribute that fails to parse drops the whole event, with no parse-or-zero defaulting;
- there is no skip-reason handling;
- `WriteEvent` always serialises as JSON;
- calls after teardown still write to the log file;
- `EndSuite` emits only for `type="TestMethod"`.

## Model

| member | source | states |
|---|---|---|
| Framing.Header | NUnit.Extension.TestMonitor/NUnit.Extension.TestMonitor/IO/IpcClient.cs:18-20 | the header is 8 bytes: FF A0, the length as little-endian UInt32, then FF A1 |
| Framing.Frame | NUnit.Extension.TestMonitor/NUnit.Extension.TestMonitor/IO/IpcClient.cs:103-109 | a frame is 8 + length bytes, and the payload follows the header unchanged |
| Framing.LittleEndianRoundTrip | NUnit.Extension.TestMonitor/NUnit.Extension.TestMonitor/IO/IpcClient.cs:106 | reading back the 4 bytes of (UInt32)length recovers the length |
| Framing.FromLittleEndianRoundTrip | NUnit.Extension.TestMonitor/NUnit.Extension.TestMonitor/IO/IpcClient.cs:106 | every 4-byte length field is the encoding of the value it reads as |
| Framing.FrameRoundTrip | NUnit.Extension.TestMonitor/NUnit.Extension.TestMonitor/IO/IpcClient.cs:103-109 | decoding a frame followed by anything returns its payload and the remaining bytes |
| Framing.DecodeFrameSound | NUnit.Extension.TestMonitor/NUnit.Extension.TestMonitor/IO/IpcClient.cs:103-109 | whatever the decoder accepts is a frame of the payload it returns, followed by the rest |
| Framing.FramesOf | NUnit.Extension.TestMonitor/NUnit.Extension.TestMonitor/IO/IpcClient.cs:113 | the pipe holds one frame per message, in order |
| Framing.StreamRoundTrip | NUnit.Extension.TestMonitor/NUnit.Extension.TestMonitor/IO/IpcClient.cs:97-113 | the concatenated frames of any list of messages decode back to exactly that list |
| Utf8.EncodeChar | NUnit.Extension.TestMonitor/NUnit.Extension.TestMonitor/IO/IpcClient.cs:80 | every character takes 1 to 4 bytes, and 1 exactly for ASCII |
| Utf8.Encode | NUnit.Extension.TestMonitor/NUnit.Extension.TestMonitor/IO/IpcClient.cs:80 | the UTF-8 text takes between one and four bytes per character |
| Utf8.DecodeEncodedChar | NUnit.Extension.TestMonitor/NUnit.Extension.TestMonitor/IO/IpcClient.cs:80 | the bytes of one character decode to that character, whatever follows |
| Utf8.EncodeRoundTrip | NUnit.Extension.TestMonitor/NUnit.Extension.TestMonitor/IO/IpcClient.cs:80 | Encoding.UTF8.GetBytes loses nothing: decoding its output gives back the text |
| IpcClientModel.CopyInto | NUnit.Extension.TestMonitor/NUnit.Extension.TestMonitor/IO/IpcClient.cs:99-109 | a MemoryStream write over the buffer replaces exactly the written range |
| IpcClientModel.WriteHeader | NUnit.Extension.TestMonitor/NUnit.Extension.TestMonitor/IO/IpcClient.cs:105-107 | the three header writes leave the header in bytes 0..8 and touch nothing after it |
| IpcClientModel.WritePayload | NUnit.Extension.TestMonitor/NUnit.Extension.TestMonitor/IO/IpcClient.cs:109 | the payload lands at offset 8, the header and the bytes after the payload are untouched, so behind a written header the first 8 + length bytes are the whole frame |
| IpcClientModel.IpcClient.constructor | NUnit.Extension.TestMonitor/NUnit.Extension.TestMonitor/IO/IpcClient.cs:32-37 | a new client is not connected, not disposed, has no buffer and has sent nothing |
| IpcClientModel.IpcClient.Connect | NUnit.Extension.TestMonitor/NUnit.Extension.TestMonitor/IO/IpcClient.cs:39-71 | disposed: ObjectDisposed, nothing changes; success: a fresh zeroed 4 MiB buffer, no longer waiting, only the success callback; timeout or IOException: no longer waiting, only the failure callback, and the call returns; any other failure is rethrown with the wait flag still set; bounded wait iff the timeout is positive |
| IpcClientModel.IpcClient.Write | NUnit.Extension.TestMonitor/NUnit.Extension.TestMonitor/IO/IpcClient.cs:90-120 | disposed: ObjectDisposed; not connected or not writable: returns with nothing sent, the buffer untouched and the connection as it was; otherwise the frame contract of FrameAndSend |
| IpcClientModel.IpcClient.FrameAndSend | NUnit.Extension.TestMonitor/NUnit.Extension.TestMonitor/IO/IpcClient.cs:95-119 | the header is written first; a bad range gives ArgumentError, and a frame over 4 MiB gives NotSupported (ExtensionError on Int32 overflow), each with nothing sent; otherwise buffer[0, 8+length) is the frame of data[start, start+length), later bytes are unchanged, and that frame alone is sent unless the pipe fails, which gives ExtensionError and leaves the client disconnected |
| IpcClientModel.IpcClient.Send | NUnit.Extension.TestMonitor/NUnit.Extension.TestMonitor/IO/IpcClient.cs:113-119 | a failing pipe write gives ExtensionError, sends nothing and leaves the client disconnected (the stream is Broken); otherwise exactly the frame is appended to what the pipe received and the client stays connected |
| IpcClientModel.IpcClient.BrokenPipeStaysSilent | NUnit.Extension.TestMonitor/NUnit.Extension.TestMonitor/IO/IpcClient.cs:95-119 | after a write whose pipe write fails with ExtensionError, the next write passes the IsConnected guard by returning without an exception and sends nothing |
| IpcClientModel.IpcClient.WriteText | NUnit.Extension.TestMonitor/NUnit.Extension.TestMonitor/IO/IpcClient.cs:77-82 | disposed: ObjectDisposed; otherwise it frames the complete UTF-8 encoding of the text from offset 0 |
| IpcClientModel.IpcClient.Dispose | NUnit.Extension.TestMonitor/NUnit.Extension.TestMonitor/IO/IpcClient.cs:122-126 | after Dispose the client is disposed and disconnected; nothing already sent changes |
| IpcClientModel.IpcClient.DisposeCore | NUnit.Extension.TestMonitor/NUnit.Extension.TestMonitor/IO/IpcClient.cs:128-139 | the guard is set on every call; only the disposing call closes the pipe |
| IpcClientModel.ReaderRecoversMessages | NUnit.Extension.TestMonitor/NUnit.Extension.TestMonitor/IO/IpcClient.cs:97-113 | the pipe's byte stream decodes to exactly the messages written, in order |
| Models.EventNameValue | NUnit.Extension.TestMonitor/NUnit.Extension.TestMonitor/EventNames.cs:6-19 | the event names are numbered 0 to 10, with None = 0 |
| Models.EventNameValuesDistinct | NUnit.Extension.TestMonitor/NUnit.Extension.TestMonitor/EventNames.cs:6-19 | no two event names share a value |
| Models.NewEvent | NUnit.Extension.TestMonitor/NUnit.Extension.TestMonitor/Models/DataEvent.cs:176-179 | new DataEvent(name) sets the name; every reference-typed property is null and every value-typed one zero, false or Pass |
| Models.HasFlagOfUnion | NUnit.Extension.TestMonitor/NUnit.Extension.TestMonitor/EventEmitTypes.cs:9-30 | a flag set in a value stays set in any union with it |
| Models.DefaultConfiguration | NUnit.Extension.TestMonitor/NUnit.Extension.TestMonitor/Configuration.cs:11-26 | the defaults are Json, StdOut and C:\\logs\\testing.log |
| Models.DefaultEmitTypes | NUnit.Extension.TestMonitor/NUnit.Extension.TestMonitor/Configuration.cs:11 | the default emit types are NamedPipes, LogFile and StdOut, without Grpc or None |
| RuntimeDetectionModel.FrameworkName | NUnit.Extension.TestMonitor/NUnit.Extension.TestMonitor/RuntimeDetection.cs:50-64 | every framework has a non-empty name |
| RuntimeDetectionModel.FrameworkNamesDistinct | NUnit.Extension.TestMonitor/NUnit.Extension.TestMonitor/RuntimeDetection.cs:50-64 | the names of different frameworks differ |
| RuntimeDetectionModel.ContainsIff | NUnit.Extension.TestMonitor/NUnit.Extension.TestMonitor/RuntimeDetection.cs:44-47 | Contains holds exactly when the substring occurs at some index |
| RuntimeDetectionModel.FrameworkInput | NUnit.Extension.TestMonitor/NUnit.Extension.TestMonitor/RuntimeDetection.cs:28-43 | on the NETFRAMEWORK build without an entry assembly the AppDomain's name is used, otherwise the entry assembly's attribute |
| RuntimeDetectionModel.Classify | NUnit.Extension.TestMonitor/NUnit.Extension.TestMonitor/RuntimeDetection.cs:44-47 | .NETFramework gives DotNetFramework; .NETCoreApp without it gives DotNetCore; otherwise the value stays |
| RuntimeDetectionModel.ClassifyNeverUnknown | NUnit.Extension.TestMonitor/NUnit.Extension.TestMonitor/RuntimeDetection.cs:13-47 | starting from a known framework, the result is never Unknown |
| RuntimeDetectionModel.RuntimeDetection.constructor | NUnit.Extension.TestMonitor/NUnit.Extension.TestMonitor/RuntimeDetection.cs:13-24 | the framework starts as DotNetFramework and is then classified, so it is never Unknown; the platform and description come from the host |
| RuntimeDetectionModel.RuntimeDetection.DetectRuntime | NUnit.Extension.TestMonitor/NUnit.Extension.TestMonitor/RuntimeDetection.cs:26-48 | the successive overwrites equal the classification of the selected framework name |
| RuntimeDetectionModel.FrameworkMarkerWins | NUnit.Extension.TestMonitor/NUnit.Extension.TestMonitor/RuntimeDetection.cs:44-47 | a name containing both markers yields DotNetFramework, because the last check wins |
| RuntimeDetectionModel.CoreAppExample | NUnit.Extension.TestMonitor/NUnit.Extension.TestMonitor/RuntimeDetection.cs:44 | ".NETCoreApp,Version=v2.1" contains the .NETCoreApp marker |
| Fragment.FirstChild | NUnit.Extension.TestMonitor/NUnit.Extension.TestMonitor/TestMonitorExtension.cs:67 | FirstChild is null exactly for an empty document, and otherwise the first node |
| Fragment.GetAttribute | NUnit.Extension.TestMonitor/NUnit.Extension.TestMonitor/TestMonitorExtension.cs:102-106 | an attribute is present exactly when the element has the key, and then it is the key's value |
| Fragment.FirstNamed | NUnit.Extension.TestMonitor/NUnit.Extension.TestMonitor/TestMonitorExtension.cs:182-185 | SelectSingleNode finds a child with the tag iff one exists, and then the first such child |
| Fragment.CasesAreFilteredElements | NUnit.Extension.TestMonitor/NUnit.Extension.TestMonitor/TestMonitorExtension.cs:297 | GetElementsByTagName("test-case") is the document-order walk of all elements, filtered by tag |
| Fragment.CasesUnderAreFilteredElements | NUnit.Extension.TestMonitor/NUnit.Extension.TestMonitor/TestMonitorExtension.cs:297 | the same holds below a single node |
| Fragment.CasesAreTestCases | NUnit.Extension.TestMonitor/NUnit.Extension.TestMonitor/TestMonitorExtension.cs:297 | every hit is a test-case element |
| Fragment.CasesInAppend | NUnit.Extension.TestMonitor/NUnit.Extension.TestMonitor/TestMonitorExtension.cs:297 | searching sibling lists one after the other is searching their concatenation |
| Fragment.RunRootCases | NUnit.Extension.TestMonitor/NUnit.Extension.TestMonitor/TestMonitorExtension.cs:297-307 | in a run report the test-run root is not itself a case; its direct test-case children are found with the run's name as their ParentNode name |
| Translation.StatusOf | NUnit.Extension.TestMonitor/NUnit.Extension.TestMonitor/TestMonitorExtension.cs:180-181 | the status is Pass iff the result passed, Fail otherwise, and never Running |
| Translation.ParseTiming | NUnit.Extension.TestMonitor/NUnit.Extension.TestMonitor/TestMonitorExtension.cs:177-179 | the timings parse iff all three attributes parse, and the result holds the parsed values |
| Translation.StartSuiteEvent | NUnit.Extension.TestMonitor/NUnit.Extension.TestMonitor/TestMonitorExtension.cs:97-129 | a StartSuite event with status Running and the fragment's attributes iff type is TestFixture; an empty report fails with StartSuite; otherwise nothing |
| Translation.StartTestEvent | NUnit.Extension.TestMonitor/NUnit.Extension.TestMonitor/TestMonitorExtension.cs:131-164 | a StartTest event with status Running and the fragment's attributes iff type is TestMethod; an empty report fails with StartTest; otherwise nothing |
| Translation.EndTestEvent | NUnit.Extension.TestMonitor/NUnit.Extension.TestMonitor/TestMonitorExtension.cs:166-219 | WARN iff there are no child nodes; ERROR iff a timing does not parse; otherwise an EndTest event whose result is true iff result is exactly "Passed", status matches, TotalTests is 1 and the failure and output texts are copied |
| Translation.ParseSuiteFigures | NUnit.Extension.TestMonitor/NUnit.Extension.TestMonitor/TestMonitorExtension.cs:230-239 | the counters parse iff every timing and count attribute parses, and the result holds the parsed values |
| Translation.EndSuiteEvent | NUnit.Extension.TestMonitor/NUnit.Extension.TestMonitor/TestMonitorExtension.cs:221-272 | a parse failure gives ERROR whatever the type; an EndSuite event iff everything parses and type is TestMethod, copying passed, failed, warnings, skipped and inconclusive, with TestCount = total and no parent id |
| Translation.CaseReportFields | NUnit.Extension.TestMonitor/NUnit.Extension.TestMonitor/TestMonitorExtension.cs:302-318 | a test-case report exists iff its timings parse; it names the parent's name as its suite and passes iff result is "Passed" |
| Translation.TestCaseReports | NUnit.Extension.TestMonitor/NUnit.Extension.TestMonitor/TestMonitorExtension.cs:297-320 | a complete report list has one entry per test-case |
| Translation.TestCaseReportsPointwise | NUnit.Extension.TestMonitor/NUnit.Extension.TestMonitor/TestMonitorExtension.cs:297-320 | the list exists iff every test-case builds, and entry i is the report of test-case i |
| Translation.CollectTestCases | NUnit.Extension.TestMonitor/NUnit.Extension.TestMonitor/TestMonitorExtension.cs:297-320 | the foreach loop yields exactly the specified report list, or stops at the first test-case that fails to build |
| Translation.ReportsDetermined | NUnit.Extension.TestMonitor/NUnit.Extension.TestMonitor/TestMonitorExtension.cs:297-320 | a list that matches every test-case pointwise is the report list |
| Translation.ParseRunFigures | NUnit.Extension.TestMonitor/NUnit.Extension.TestMonitor/TestMonitorExtension.cs:286-295 | the run counters parse iff every attribute parses, and the result holds the parsed values |
| Translation.ReportEvent | NUnit.Extension.TestMonitor/NUnit.Extension.TestMonitor/TestMonitorExtension.cs:323-346 | the Report event carries TotalTests = TestCount = testcasecount and the given report list |
| Translation.EndRunEvent | NUnit.Extension.TestMonitor/NUnit.Extension.TestMonitor/TestMonitorExtension.cs:278-355 | either the Report event or an EndRun error, and the event exactly when the counters and every test-case parse |
| Translation.EndRunReport | NUnit.Extension.TestMonitor/NUnit.Extension.TestMonitor/TestMonitorExtension.cs:290-343 | TotalTests and TestCount are testcasecount, and there is one report per test-case in document order, each naming its parent suite and passing iff result is "Passed" |
| Translation.TotalTestsIsDeclared | NUnit.Extension.TestMonitor/NUnit.Extension.TestMonitor/TestMonitorExtension.cs:290-341 | a run that declares 5 test cases but contains none reports TotalTests 5 with an empty list |
| Translation.LowerCasePassedFails | NUnit.Extension.TestMonitor/NUnit.Extension.TestMonitor/TestMonitorExtension.cs:180 | result "passed" in lower case is a failure |
| Extension.Stamp | NUnit.Extension.TestMonitor/NUnit.Extension.TestMonitor/TestMonitorExtension.cs:362-364 | every written event carries the run id, the runtime name and the runtime version |
| Extension.StampChangesOnlyStampedFields | NUnit.Extension.TestMonitor/NUnit.Extension.TestMonitor/TestMonitorExtension.cs:362-364 | stamping changes those three properties only, and stamping twice equals stamping once |
| Extension.PipeReceivesIff | NUnit.Extension.TestMonitor/NUnit.Extension.TestMonitor/TestMonitorExtension.cs:368-379 | the pipe receives the stamped event iff NamedPipes is set, a client is connected and the write succeeds; a failed write leaves the pipe disconnected |
| Extension.LogReceivesIff | NUnit.Extension.TestMonitor/NUnit.Extension.TestMonitor/TestMonitorExtension.cs:380-383 | the log receives the stamped event iff LogFile is set and a path is configured, after any pipe error line |
| Extension.PipeFailureKeepsLogCopy | NUnit.Extension.TestMonitor/NUnit.Extension.TestMonitor/TestMonitorExtension.cs:368-383 | a failed pipe write does not stop the log append |
| Extension.DeliverAppends | NUnit.Extension.TestMonitor/NUnit.Extension.TestMonitor/TestMonitorExtension.cs:357-393 | a handler's outcome only appends to the sinks, and only a warning outcome adds a WARN line |
| Extension.TeardownAppends | NUnit.Extension.TestMonitor/NUnit.Extension.TestMonitor/TestMonitorExtension.cs:401-425 | teardown adds nothing but the deactivation line and leaves the pipe contents alone |
| Extension.RunEndAppends | NUnit.Extension.TestMonitor/NUnit.Extension.TestMonitor/TestMonitorExtension.cs:323-349 | writing the Report event and then tearing down only appends, and adds no WARN line |
| Extension.StepAppendsOnly | NUnit.Extension.TestMonitor/NUnit.Extension.TestMonitor/TestMonitorExtension.cs:59-95 | handling a report never removes or rewrites what the log or the pipe already hold |
| Extension.StepEmitsAtMostOne | NUnit.Extension.TestMonitor/NUnit.Extension.TestMonitor/TestMonitorExtension.cs:67-89 | one report puts at most one event on the pipe: the one its root tag names, stamped with the run id and runtime |
| Extension.OtherTagsIgnored | NUnit.Extension.TestMonitor/NUnit.Extension.TestMonitor/TestMonitorExtension.cs:67-89 | a root tag other than the five handled ones changes nothing |
| Extension.MalformedReportLogged | NUnit.Extension.TestMonitor/NUnit.Extension.TestMonitor/TestMonitorExtension.cs:91-94 | an unparsable report only adds an OnTestEvent ERROR line; the exception never escapes, given that writing the log never fails (the catch's own WriteLog at TestMonitorExtension.cs:53-57 could throw, see "## Left out") |
| Extension.RunEndTearsDown | NUnit.Extension.TestMonitor/NUnit.Extension.TestMonitor/TestMonitorExtension.cs:348-349 | after a successful run end the pipe is disconnected, the lock is gone and the log ends with the deactivation line |
| Extension.BrokenPipeStaysSilent | NUnit.Extension.TestMonitor/NUnit.Extension.TestMonitor/IO/IpcServer.cs:46-56 | after one failed pipe write, later events skip the pipe without another Write error and still reach the log |
| Extension.AfterTeardownOnlyLog | NUnit.Extension.TestMonitor/NUnit.Extension.TestMonitor/TestMonitorExtension.cs:368-383 | after teardown nothing reaches the pipe, but events keep reaching the log |
| Extension.EndTestWarningUnreachable | NUnit.Extension.TestMonitor/NUnit.Extension.TestMonitor/TestMonitorExtension.cs:166-212 | OnTestEvent never produces EndTest's WARN line, because an empty report already fails the dispatch |
| Extension.TeardownRepeatable | NUnit.Extension.TestMonitor/NUnit.Extension.TestMonitor/TestMonitorExtension.cs:401-425 | disposing twice leaves the resources as disposing once, plus one more deactivation line |
| Extension.LogFile.WriteLog | NUnit.Extension.TestMonitor/NUnit.Extension.TestMonitor/TestMonitorExtension.cs:53-57 | a record is appended iff the log path is neither null nor empty |
| Extension.IpcServer.Start | NUnit.Extension.TestMonitor/NUnit.Extension.TestMonitor/IO/IpcServer.cs:27-40 | connected iff a client connects; a timeout is logged |
| Extension.IpcServer.Write | NUnit.Extension.TestMonitor/NUnit.Extension.TestMonitor/IO/IpcServer.cs:42-57 | only a connected client receives the text; an IOException is caught and logged as a Write error, and the broken stream no longer reports a connection |
| Extension.IpcServer.Dispose | NUnit.Extension.TestMonitor/NUnit.Extension.TestMonitor/IO/IpcServer.cs:79-107 | after Dispose no client is connected |
| Extension.TestMonitorExtension.constructor | NUnit.Extension.TestMonitor/NUnit.Extension.TestMonitor/TestMonitorExtension.cs:29-51 | the activation line, then the server starts only when NamedPipes is set; events are stamped with the runtime the detection found, which is never Unknown |
| Extension.TestMonitorExtension.WriteEvent | NUnit.Extension.TestMonitor/NUnit.Extension.TestMonitor/TestMonitorExtension.cs:357-393 | the sinks change exactly as Publish says: stamp, then the pipe, then the log |
| Extension.TestMonitorExtension.HandleOutcome | NUnit.Extension.TestMonitor/NUnit.Extension.TestMonitor/TestMonitorExtension.cs:111-127 | an event is written, an error or warning is logged, or nothing happens |
| Extension.TestMonitorExtension.EndRun | NUnit.Extension.TestMonitor/NUnit.Extension.TestMonitor/TestMonitorExtension.cs:278-355 | on success, the Report event is written and then Dispose(true) runs; otherwise an EndRun error line |
| Extension.TestMonitorExtension.OnTestEvent | NUnit.Extension.TestMonitor/NUnit.Extension.TestMonitor/TestMonitorExtension.cs:59-95 | the sinks change exactly as Step says for the root tag's handler |
| Extension.TestMonitorExtension.Dispose | NUnit.Extension.TestMonitor/NUnit.Extension.TestMonitor/TestMonitorExtension.cs:395-399 | Dispose is Dispose(true) |
| Extension.TestMonitorExtension.DisposeCore | NUnit.Extension.TestMonitor/NUnit.Extension.TestMonitor/TestMonitorExtension.cs:401-425 | isDisposing disposes the server and drops the lock; every call logs the deactivation line |

## Left out

- XML parsing (`XmlDocument.LoadXml`): a report is an already-parsed tree, or `None` for text that is not XML. The `GetAttribute` extension on `XmlNode` is not part of this model. It is taken to return null for a missing attribute and for a node that is not an element.
- `DateTime.Parse`, `double.Parse`, `TimeSpan.FromSeconds` and `int.Parse` are foreign parsers and floating point. They are parameters that may fail, and a failure drops the event.
- JSON, XML and protobuf serialisation are foreign libraries. A sink records the stamped `DataEvent` it would have been sent as JSON. `EventFormat` is never consulted, as in the code.
- Concurrency: the `SemaphoreSlim` lock is only a live/disposed flag, and calls are sequential. `IpcServer`'s asynchronous wait for a client is the boolean `clientConnects`.
- `StdOut.cs` (console, Trace and Debug output), `IO/GrpcClient.cs`, `ConfigurationResolver.cs`, `IO/RuntimeInfo.cs` and `Models/EventEntry.cs` are not part of this model. Their values enter through `Context` and `RunIdentity`. The stale root `DataEvent.cs` and the sample test files are not modelled.
- File I/O: `File.AppendAllText` always succeeds. This includes the `WriteLog` call inside the catch handlers (TestMonitorExtension.cs:53-57), which in the code can itself throw, for example when the log directory does not exist. The catch handlers for non-IO exceptions in `WriteEvent`, `Dispose(bool)` and the constructor are not modelled, because nothing in the model throws there.
- Extension.TestMonitorExtension.WriteEvent: the extension's own `IOException` catch (TestMonitorExtension.cs:374-378) is not modelled. `IpcServer.Write` already catches and logs every pipe `IOException` itself, so the model records that server-side "Write" ERROR line.
- Extension.PipeWrite: every pipe `IOException` is taken to break the stream, so `IsConnected` is false from then on. An `IOException` that leaves the pipe connected is not modelled.
- Log lines carry no timestamps, messages or stack traces. Each line is a `LogRecord` that names its kind and operation.
- IpcClientModel.IpcClient.Connect: the pipe name, direction and `ReadMode` are not modelled. Each connect replaces the stream but keeps the flags, and a failed connect keeps any buffer from an earlier successful one. The callbacks are only a record of which one was invoked, so an exception thrown inside `onFailedConnect` or `onSuccessConnect` (which escapes `Connect`) is not modelled.
- IpcClientModel.IpcClient.WriteText: Dafny strings hold Unicode scalar values, so lone UTF-16 surrogates (which `Encoding.UTF8` replaces with U+FFFD) are not modelled.
- IpcClientModel.IpcClient.Write: the data array is a sequence, so a null `data` (ArgumentNullException) is not modelled. For the same reason a null `text` passed to `WriteText` (ArgumentNullException from `GetBytes`) is not modelled either.
- IpcClientModel.IpcClient.Send: every pipe `IOException` is taken to break the stream, so `IsConnected` is false from then on. An `IOException` that leaves the pipe connected is not modelled.
- `TestStatus` is referenced but not defined in the source. It is taken to be `Pass | Fail | Running` with `Pass` as the default.
- `Configuration.NamedPipesConnectionTimeoutMilliseconds` is used by the IPC code, but the configuration class does not declare it. It is a plain field.
