/**
 * The byte layout of one IPC message as IpcClient.Write builds it: a 2-byte start marker,
 * the 4-byte payload length, a 2-byte end marker, then the payload. BinaryWriter writes every
 * integer little-endian. The decoder here is the reader's side of the protocol and exists to
 * state what the frame means: the header's length field recovers the payload.
 */
module Framing {
  import opened Primitives
  import opened Wrappers

  /** Size of the reusable message buffer allocated on connect (4 MiB). */
  const MaxMessageBufferSize: nat := 1024 * 1024 * 4
  /** UInt16 written first; on the wire 0xFF 0xA0. */
  const StartMessageHeader: nat := 0xA0FF
  /** UInt16 written after the length; on the wire 0xFF 0xA1. */
  const EndMessageHeader: nat := 0xA1FF
  /** sizeof(UInt16) + sizeof(UInt32) + sizeof(UInt16) */
  const TotalHeaderLength: nat := 2 + 4 + 2

  function Pow256(k: nat): (p: nat)
    ensures p >= 1
  {
    if k == 0 then 1 else 256 * Pow256(k - 1)
  }

  /** The k bytes BinaryWriter emits for an unsigned integer n, least significant first. */
  function LittleEndian(n: nat, k: nat): (r: seq<byte>)
    ensures |r| == k
  {
    if k == 0 then [] else [(n % 256) as byte] + LittleEndian(n / 256, k - 1)
  }

  /** The unsigned integer a little-endian byte sequence denotes. */
  function FromLittleEndian(bs: seq<byte>): (n: nat)
  {
    if bs == [] then 0 else bs[0] as nat + 256 * FromLittleEndian(bs[1..])
  }

  lemma {:induction false} LittleEndianRoundTrip(n: nat, k: nat)
    requires n < Pow256(k)
    ensures FromLittleEndian(LittleEndian(n, k)) == n
  {
    if k > 0 {
      assert n / 256 < Pow256(k - 1);
      LittleEndianRoundTrip(n / 256, k - 1);
      var r := LittleEndian(n, k);
      assert r[1..] == LittleEndian(n / 256, k - 1);
    }
  }

  lemma {:induction false} FromLittleEndianRoundTrip(bs: seq<byte>)
    ensures FromLittleEndian(bs) < Pow256(|bs|)
    ensures LittleEndian(FromLittleEndian(bs), |bs|) == bs
  {
    if bs != [] {
      FromLittleEndianRoundTrip(bs[1..]);
      var n, m := FromLittleEndian(bs), FromLittleEndian(bs[1..]);
      SplitByte(n, m, bs[0] as nat);
      assert Pow256(|bs|) == 256 * Pow256(|bs| - 1);
      assert LittleEndian(n, |bs|) == [bs[0]] + LittleEndian(m, |bs| - 1);
      assert [bs[0]] + bs[1..] == bs;
    }
  }

  /** The low byte and the rest of n = low + 256 * rest. */
  lemma SplitByte(n: nat, rest: nat, low: nat)
    requires low < 256 && n == low + 256 * rest
    ensures n % 256 == low && n / 256 == rest
  {
  }

  /** The 8 header bytes for a payload whose length field is `length`. */
  function Header(length: nat): (h: seq<byte>)
    requires length < UInt32Range
    ensures |h| == TotalHeaderLength
    ensures h[0] == 0xFF && h[1] == 0xA0 && h[6] == 0xFF && h[7] == 0xA1
    ensures FromLittleEndian(h[2..6]) == length
  {
    assert Pow256(4) == UInt32Range;
    LittleEndianRoundTrip(length, 4);
    LittleEndian(StartMessageHeader, 2) + LittleEndian(length, 4) + LittleEndian(EndMessageHeader, 2)
  }

  /** The complete message for one payload: header, then the payload itself. */
  function Frame(payload: seq<byte>): (f: seq<byte>)
    requires |payload| < UInt32Range
    ensures |f| == TotalHeaderLength + |payload|
    ensures f[TotalHeaderLength..] == payload
  {
    Header(|payload|) + payload
  }

  /** Reads one message from the front of a byte stream: its payload and the bytes after it. */
  function DecodeFrame(bytes: seq<byte>): (r: Option<(seq<byte>, seq<byte>)>)
    ensures r.Some? ==> |r.value.1| < |bytes|
  {
    if |bytes| < TotalHeaderLength then None
    else if bytes[0] != 0xFF || bytes[1] != 0xA0 || bytes[6] != 0xFF || bytes[7] != 0xA1 then None
    else
      var n := FromLittleEndian(bytes[2..6]);
      if |bytes| < TotalHeaderLength + n then None
      else Some((bytes[TotalHeaderLength..TotalHeaderLength + n], bytes[TotalHeaderLength + n..]))
  }

  /** Decoding the frame of a payload, followed by anything, yields the payload and that rest. */
  lemma FrameRoundTrip(payload: seq<byte>, rest: seq<byte>)
    requires |payload| < UInt32Range
    ensures DecodeFrame(Frame(payload) + rest) == Some((payload, rest))
  {
    var bytes := Frame(payload) + rest;
    assert bytes[2..6] == Header(|payload|)[2..6];
    assert bytes[TotalHeaderLength..TotalHeaderLength + |payload|] == payload;
    assert bytes[TotalHeaderLength + |payload|..] == rest;
  }

  /** Conversely, a stream the decoder accepts starts with a genuine frame of the decoded payload. */
  lemma DecodeFrameSound(bytes: seq<byte>)
    requires DecodeFrame(bytes).Some?
    ensures |DecodeFrame(bytes).value.0| < UInt32Range
    ensures bytes == Frame(DecodeFrame(bytes).value.0) + DecodeFrame(bytes).value.1
  {
    var (payload, rest) := DecodeFrame(bytes).value;
    FromLittleEndianRoundTrip(bytes[2..6]);
    assert Pow256(4) == UInt32Range;
    assert LittleEndian(StartMessageHeader, 2) == bytes[0..2];
    assert LittleEndian(EndMessageHeader, 2) == bytes[6..8];
    assert Header(|payload|) == bytes[..TotalHeaderLength];
  }

  /** The bytes a sequence of writes puts on the pipe, in order. */
  function Flatten(chunks: seq<seq<byte>>): seq<byte>
  {
    if chunks == [] then [] else chunks[0] + Flatten(chunks[1..])
  }

  /** One frame per payload. */
  function FramesOf(payloads: seq<seq<byte>>): (fs: seq<seq<byte>>)
    requires forall i | 0 <= i < |payloads| :: |payloads[i]| < UInt32Range
    ensures |fs| == |payloads|
    ensures forall i | 0 <= i < |payloads| :: fs[i] == Frame(payloads[i])
  {
    if payloads == [] then [] else [Frame(payloads[0])] + FramesOf(payloads[1..])
  }

  /** Sending one more message appends its frame. */
  lemma FramesOfSnoc(payloads: seq<seq<byte>>, p: seq<byte>)
    requires forall i | 0 <= i < |payloads| :: |payloads[i]| < UInt32Range
    requires |p| < UInt32Range
    ensures FramesOf(payloads + [p]) == FramesOf(payloads) + [Frame(p)]
  {
  }

  /** Splits a whole byte stream into message payloads; None if it is not a sequence of frames. */
  function DecodeFrames(bytes: seq<byte>): Option<seq<seq<byte>>>
    decreases |bytes|
  {
    if bytes == [] then Some([])
    else match DecodeFrame(bytes)
      case None => None
      case Some((payload, rest)) =>
        match DecodeFrames(rest)
        case None => None
        case Some(more) => Some([payload] + more)
  }

  /** Decoding a stream that starts with a frame: its payload, then whatever the rest decodes to. */
  lemma DecodeFramesStep(payload: seq<byte>, rest: seq<byte>)
    requires |payload| < UInt32Range
    requires DecodeFrames(rest).Some?
    ensures DecodeFrames(Frame(payload) + rest) == Some([payload] + DecodeFrames(rest).value)
  {
    FrameRoundTrip(payload, rest);
    assert |Frame(payload) + rest| >= TotalHeaderLength;
  }

  /** The stream of several payloads is the first frame followed by the stream of the others. */
  lemma FlattenFramesCons(payloads: seq<seq<byte>>)
    requires payloads != []
    requires forall i | 0 <= i < |payloads| :: |payloads[i]| < UInt32Range
    ensures Flatten(FramesOf(payloads)) == Frame(payloads[0]) + Flatten(FramesOf(payloads[1..]))
  {
    var fs := FramesOf(payloads);
    assert fs == [Frame(payloads[0])] + FramesOf(payloads[1..]);
    assert fs[1..] == FramesOf(payloads[1..]);
  }

  /**
   * Messages written one after another, each as one whole frame, are read back as exactly
   * those messages: frames never run into each other.
   */
  lemma {:induction false} StreamRoundTrip(payloads: seq<seq<byte>>)
    requires forall i | 0 <= i < |payloads| :: |payloads[i]| < UInt32Range
    ensures DecodeFrames(Flatten(FramesOf(payloads))) == Some(payloads)
  {
    if payloads != [] {
      StreamRoundTrip(payloads[1..]);
      FlattenFramesCons(payloads);
      DecodeFramesStep(payloads[0], Flatten(FramesOf(payloads[1..])));
      assert [payloads[0]] + payloads[1..] == payloads;
    }
  }
}
