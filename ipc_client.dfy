/**
 * IpcClient: the writing end of the named pipe. It frames every message in a reusable
 * 4 MiB buffer and hands the whole frame to the pipe in one write call, so a reader never
 * sees half a message. The pipe itself is not modelled: whether a connection attempt
 * succeeds and whether a pipe write fails are parameters, and `sent` records the frames
 * the pipe accepted.
 */
module IpcClientModel {
  import opened Primitives
  import opened Wrappers
  import opened Framing
  import Utf8

  /** Exceptions that leave IpcClient. */
  datatype Exception =
    | ObjectDisposed   // ObjectDisposedException: the client was disposed
    | ExtensionError   // ExtensionException wrapping an IOException of the pipe write
    | ArgumentError    // ArgumentException: the range does not lie inside the data, or the
                       // text's UTF-8 bytes do not fit one array
    | NotSupported     // NotSupportedException: the frame does not fit the fixed buffer
    | Rethrown         // any connect failure other than a timeout or an IOException

  datatype Outcome = Returned | Threw(error: Exception)

  /** What NamedPipeClientStream.Connect does in the environment. */
  datatype ConnectAttempt = Connects | TimesOut | IoFailure | OtherFailure

  /** Connect(timeout) when the configured timeout is positive, Connect() otherwise. */
  datatype WaitMode = Bounded(milliseconds: int) | Unbounded

  datatype Callback = OnSuccessConnect | OnFailedConnect

  /** The range (startPosition, length) does not lie inside data; MemoryStream.Write rejects it. */
  predicate BadRange(data: seq<byte>, startPosition: int32, length: int32)
  {
    startPosition < 0 || length < 0 || |data| - startPosition as int < length as int
  }

  /** Copies `bytes` into `a` at `pos`, as one write to a MemoryStream over `a` does. */
  method CopyInto(a: array<byte>, pos: nat, bytes: seq<byte>)
    requires pos + |bytes| <= a.Length
    modifies a
    ensures a[..] == old(a[..pos]) + bytes + old(a[pos + |bytes|..])
  {
    forall i | 0 <= i < |bytes| {
      a[pos + i] := bytes[i];
    }
    assert a[..] == old(a[..pos]) + bytes + old(a[pos + |bytes|..]) by {
      assert forall i | 0 <= i < a.Length :: a[..][i] == (old(a[..pos]) + bytes + old(a[pos + |bytes|..]))[i];
    }
  }

  /** The three BinaryWriter header writes: start marker, (UInt32)length, end marker. */
  method WriteHeader(a: array<byte>, length: nat)
    requires length < UInt32Range && TotalHeaderLength <= a.Length
    modifies a
    ensures a[..TotalHeaderLength] == Header(length)
    ensures a[TotalHeaderLength..] == old(a[TotalHeaderLength..])
  {
    CopyInto(a, 0, LittleEndian(StartMessageHeader, 2));
    assert a[2..] == old(a[2..]);
    CopyInto(a, 2, LittleEndian(length, 4));
    assert a[6..] == old(a[6..]);
    CopyInto(a, 6, LittleEndian(EndMessageHeader, 2));
  }

  /** writer.Write(data, startPosition, length) once the header is in place. */
  method WritePayload(a: array<byte>, payload: seq<byte>)
    requires TotalHeaderLength + |payload| <= a.Length
    modifies a
    ensures a[..TotalHeaderLength] == old(a[..TotalHeaderLength])
    ensures a[TotalHeaderLength..TotalHeaderLength + |payload|] == payload
    ensures a[TotalHeaderLength + |payload|..] == old(a[TotalHeaderLength + |payload|..])
    ensures |payload| < UInt32Range && old(a[..TotalHeaderLength]) == Header(|payload|) ==>
      a[..TotalHeaderLength + |payload|] == Frame(payload)
  {
    CopyInto(a, TotalHeaderLength, payload);
    assert a[..TotalHeaderLength + |payload|] == a[..TotalHeaderLength] + a[TotalHeaderLength..TotalHeaderLength + |payload|];
  }

  class IpcClient {
    /** Configuration.NamedPipesConnectionTimeoutMilliseconds */
    const connectionTimeoutMs: int
    /** _client?.IsConnected == true */
    var connected: bool
    /** _client.CanWrite */
    var canWrite: bool
    /** _messageBufferBytes; null until the first successful connect */
    var buffer: array?<byte>
    /** _isDisposed */
    var isDisposed: bool
    var isWaitingForConnection: bool
    /** The frames the pipe accepted, in order. */
    ghost var sent: seq<seq<byte>>
    /** The payloads of those frames. */
    ghost var messages: seq<seq<byte>>

    ghost predicate Valid()
      reads this
    {
      && (connected ==> buffer != null && buffer.Length == MaxMessageBufferSize)
      && (forall i | 0 <= i < |messages| :: |messages[i]| < UInt32Range)
      && sent == FramesOf(messages)
    }

    /** The byte stream the reader at the other end of the pipe receives. */
    ghost function PipeStream(): seq<byte>
      reads this
    {
      Flatten(sent)
    }

    constructor (connectionTimeoutMs: int)
      ensures Valid()
      ensures this.connectionTimeoutMs == connectionTimeoutMs
      ensures !connected && !canWrite && buffer == null
      ensures !isDisposed && !isWaitingForConnection && sent == [] && messages == []
    {
      this.connectionTimeoutMs := connectionTimeoutMs;
      connected, canWrite, buffer := false, false, null;
      isDisposed, isWaitingForConnection := false, false;
      sent, messages := [], [];
    }

    /**
     * Opens a fresh pipe stream and connects it. A timeout or an IOException is a designed
     * outcome: the failure callback runs and the call returns. Any other failure is rethrown,
     * leaving IsWaitingForConnection set. A connect without a positive timeout waits without
     * bound, so it cannot time out.
     */
    method Connect(attempt: ConnectAttempt, hasOnSuccess: bool, hasOnFailed: bool)
      returns (outcome: Outcome, wait: Option<WaitMode>, invoked: seq<Callback>)
      requires Valid()
      requires attempt.TimesOut? ==> connectionTimeoutMs > 0
      modifies this
      ensures Valid()
      ensures old(isDisposed) ==>
        outcome == Threw(ObjectDisposed) && wait == None && invoked == [] && unchanged(this)
      ensures !old(isDisposed) ==>
        && wait == Some(if connectionTimeoutMs > 0 then Bounded(connectionTimeoutMs) else Unbounded)
        && !isDisposed && canWrite && sent == old(sent) && messages == old(messages)
        && (attempt.Connects? ==>
              && connected && fresh(buffer) && (forall i | 0 <= i < buffer.Length :: buffer[i] == 0)
              && !isWaitingForConnection && outcome == Returned
              && invoked == (if hasOnSuccess then [OnSuccessConnect] else []))
        && ((attempt.TimesOut? || attempt.IoFailure?) ==>
              && !connected && buffer == old(buffer) && !isWaitingForConnection && outcome == Returned
              && invoked == (if hasOnFailed then [OnFailedConnect] else []))
        && (attempt.OtherFailure? ==>
              && !connected && buffer == old(buffer) && isWaitingForConnection
              && outcome == Threw(Rethrown) && invoked == [])
    {
      if isDisposed {
        return Threw(ObjectDisposed), None, [];
      }
      // a new NamedPipeClientStream(".", "Commander", PipeDirection.Out, ...): writable, not connected
      connected, canWrite := false, true;
      isWaitingForConnection := true;
      wait := Some(if connectionTimeoutMs > 0 then Bounded(connectionTimeoutMs) else Unbounded);
      match attempt
      case Connects =>
        connected := true;
        buffer := new byte[MaxMessageBufferSize](_ => 0);
        isWaitingForConnection := false;
        outcome, invoked := Returned, if hasOnSuccess then [OnSuccessConnect] else [];
      case TimesOut =>
        isWaitingForConnection := false;
        outcome, invoked := Returned, if hasOnFailed then [OnFailedConnect] else [];
      case IoFailure =>
        isWaitingForConnection := false;
        outcome, invoked := Returned, if hasOnFailed then [OnFailedConnect] else [];
      case OtherFailure =>
        outcome, invoked := Threw(Rethrown), [];
    }

    /**
     * What a write by a connected, writable client does, against the state before it. The
     * header is in the buffer even when the range or the capacity then turns out to be wrong;
     * nothing is sent in those cases. Otherwise buffer[0 .. 8 + length) is the frame of
     * data[startPosition .. startPosition + length), the rest of the buffer is untouched, and
     * that prefix is what the pipe receives unless the pipe write fails. A failed pipe write
     * leaves the stream Broken, so the client no longer reports a connection; nothing else
     * changes the connection.
     */
    twostate predicate Framed(data: seq<byte>, startPosition: int32, length: int32, pipeFails: bool,
                              outcome: Outcome)
      reads this, buffer
      requires buffer != null && old(buffer) == buffer && buffer.Length == MaxMessageBufferSize
    {
      && buffer[..TotalHeaderLength] == Header(ToUInt32(length))
      && (BadRange(data, startPosition, length) ==>
            && outcome == Threw(ArgumentError) && sent == old(sent) && connected == old(connected)
            && buffer[TotalHeaderLength..] == old(buffer[TotalHeaderLength..]))
      && (!BadRange(data, startPosition, length) && TotalHeaderLength + length as int > MaxMessageBufferSize ==>
            && outcome == Threw(if TotalHeaderLength + length as int >= 0x8000_0000 then ExtensionError else NotSupported)
            && sent == old(sent) && connected == old(connected)
            && buffer[TotalHeaderLength..] == old(buffer[TotalHeaderLength..]))
      && (!BadRange(data, startPosition, length) && TotalHeaderLength + length as int <= MaxMessageBufferSize ==>
            var payload := data[startPosition..startPosition as int + length as int];
            && buffer[..TotalHeaderLength + length as int] == Frame(payload)
            && buffer[TotalHeaderLength + length as int..] == old(buffer[TotalHeaderLength + length as int..])
            && (pipeFails ==> outcome == Threw(ExtensionError) && sent == old(sent) && !connected)
            && (!pipeFails ==> outcome == Returned && sent == old(sent) + [Frame(payload)]
                               && messages == old(messages) + [payload] && connected == old(connected)))
    }

    /**
     * Write(byte[], int, int): frames data[startPosition .. startPosition + length) in the
     * buffer and sends buffer[0 .. 8 + length) to the pipe in one call. Not connected or not
     * writable: nothing happens and no error is raised.
     */
    method Write(data: seq<byte>, startPosition: int32, length: int32, pipeFails: bool)
      returns (outcome: Outcome)
      requires Valid()
      modifies this`sent, this`messages, this`connected, buffer
      ensures Valid()
      ensures buffer == old(buffer)
      ensures sent == old(sent) ==> messages == old(messages)
      ensures isDisposed ==>
        outcome == Threw(ObjectDisposed) && sent == old(sent) && connected == old(connected)
        && (buffer != null ==> unchanged(buffer))
      ensures !isDisposed && !(old(connected) && canWrite) ==>
        outcome == Returned && sent == old(sent) && connected == old(connected)
        && (buffer != null ==> unchanged(buffer))
      ensures !isDisposed && old(connected) && canWrite ==> Framed(data, startPosition, length, pipeFails, outcome)
    {
      if isDisposed {
        return Threw(ObjectDisposed);
      }
      if !(connected && canWrite) {
        return Returned;
      }
      outcome := FrameAndSend(data, startPosition, length, pipeFails);
    }

    /** The body of Write's try block once the connection check has passed. */
    method FrameAndSend(data: seq<byte>, startPosition: int32, length: int32, pipeFails: bool)
      returns (outcome: Outcome)
      requires Valid() && connected
      modifies this`sent, this`messages, this`connected, buffer
      ensures Valid()
      ensures buffer == old(buffer)
      ensures sent == old(sent) ==> messages == old(messages)
      ensures Framed(data, startPosition, length, pipeFails, outcome)
    {
      // writer.Write(StartMessageHeader); writer.Write((UInt32)length); writer.Write(EndMessageHeader)
      WriteHeader(buffer, ToUInt32(length));
      if BadRange(data, startPosition, length) {
        return Threw(ArgumentError);
      }
      var lengthWithHeader := TotalHeaderLength + length as int;
      if lengthWithHeader >= 0x8000_0000 {
        // the stream position plus the count overflows Int32: MemoryStream throws an IOException,
        // which is rethrown as an ExtensionException
        return Threw(ExtensionError);
      }
      if lengthWithHeader > buffer.Length {
        // the fixed-size MemoryStream cannot grow
        return Threw(NotSupported);
      }
      // writer.Write(data, startPosition, length)
      var payload := data[startPosition..startPosition as int + length as int];
      WritePayload(buffer, payload);
      outcome := Send(payload, pipeFails);
    }

    /** _client.Write(_messageBufferBytes, 0, lengthWithHeader) once the frame is in the buffer. */
    method Send(payload: seq<byte>, pipeFails: bool) returns (outcome: Outcome)
      requires Valid() && connected && TotalHeaderLength + |payload| <= MaxMessageBufferSize
      requires buffer[..TotalHeaderLength + |payload|] == Frame(payload)
      modifies this`sent, this`messages, this`connected
      ensures Valid()
      ensures pipeFails ==>
        outcome == Threw(ExtensionError) && sent == old(sent) && messages == old(messages) && !connected
      ensures !pipeFails ==>
        outcome == Returned && sent == old(sent) + [Frame(payload)] && messages == old(messages) + [payload]
        && connected
    {
      if pipeFails {
        // the IOException of _client.Write breaks the stream (IsConnected turns false) and is
        // rethrown as an ExtensionException
        connected := false;
        return Threw(ExtensionError);
      }
      sent := sent + [buffer[..TotalHeaderLength + |payload|]];
      FramesOfSnoc(messages, payload);
      messages := messages + [payload];
      outcome := Returned;
    }

    /**
     * Two writes to a pipe whose reader has gone away: the first frames the data and fails
     * with an ExtensionException, and the broken stream makes the second a silent no-op.
     */
    method BrokenPipeStaysSilent(data: seq<byte>, length: int32, next: seq<byte>, nextLength: int32,
                                 nextFails: bool)
      returns (first: Outcome, second: Outcome)
      requires Valid() && !isDisposed && connected && canWrite
      requires !BadRange(data, 0, length) && TotalHeaderLength + length as int <= MaxMessageBufferSize
      modifies this`sent, this`messages, this`connected, buffer
      ensures Valid()
      ensures first == Threw(ExtensionError) && second == Returned
      ensures sent == old(sent) && messages == old(messages) && !connected
    {
      first := Write(data, 0, length, true);
      second := Write(next, 0, nextLength, nextFails);
    }

    /** Write(string): frames the UTF-8 bytes of the whole text. */
    method WriteText(text: string, pipeFails: bool) returns (outcome: Outcome)
      requires Valid()
      modifies this`sent, this`messages, this`connected, buffer
      ensures Valid()
      ensures buffer == old(buffer)
      ensures sent == old(sent) ==> messages == old(messages)
      ensures isDisposed ==>
        outcome == Threw(ObjectDisposed) && sent == old(sent) && connected == old(connected)
        && (buffer != null ==> unchanged(buffer))
      ensures !isDisposed && |Utf8.Encode(text)| >= 0x8000_0000 ==>
        outcome == Threw(ArgumentError) && sent == old(sent) && connected == old(connected)
        && (buffer != null ==> unchanged(buffer))
      ensures !isDisposed && |Utf8.Encode(text)| < 0x8000_0000 && !(old(connected) && canWrite) ==>
        outcome == Returned && sent == old(sent) && connected == old(connected)
        && (buffer != null ==> unchanged(buffer))
      ensures !isDisposed && |Utf8.Encode(text)| < 0x8000_0000 && old(connected) && canWrite ==>
        Framed(Utf8.Encode(text), 0, |Utf8.Encode(text)| as int32, pipeFails, outcome)
    {
      if isDisposed {
        return Threw(ObjectDisposed);
      }
      var bytes := Utf8.Encode(text);
      if |bytes| >= 0x8000_0000 {
        // Encoding.GetBytes cannot return more than Int32.MaxValue bytes
        return Threw(ArgumentError);
      }
      outcome := Write(bytes, 0, |bytes| as int32, pipeFails);
    }

    /** Dispose(): Dispose(true). */
    method Dispose()
      requires Valid()
      modifies this
      ensures Valid()
      ensures isDisposed && !connected && !canWrite
      ensures buffer == old(buffer) && sent == old(sent) && messages == old(messages)
      ensures isWaitingForConnection == old(isWaitingForConnection)
    {
      DisposeCore(true);
    }

    /** Dispose(bool): sets the guard; with isDisposing, closes and disposes the pipe stream. */
    method DisposeCore(isDisposing: bool)
      requires Valid()
      modifies this
      ensures Valid()
      ensures isDisposed
      ensures isDisposing ==> !connected && !canWrite
      ensures !isDisposing ==> connected == old(connected) && canWrite == old(canWrite)
      ensures buffer == old(buffer) && sent == old(sent) && messages == old(messages)
      ensures isWaitingForConnection == old(isWaitingForConnection)
    {
      isDisposed := true;
      if isDisposing {
        connected, canWrite := false, false;
      }
    }
  }

  /**
   * The reader at the other end of the pipe splits the byte stream it received back into
   * exactly the messages written, in order: frames never run into each other.
   */
  lemma ReaderRecoversMessages(c: IpcClient)
    requires c.Valid()
    ensures DecodeFrames(c.PipeStream()) == Some(c.messages)
  {
    StreamRoundTrip(c.messages);
  }
}
