/**
 * UTF-8, the encoding IpcClient.Write(string) applies to its text before framing it
 * (Encoding.UTF8.GetBytes). Characters are Unicode scalar values. The strict decoder is the
 * encoder's partner: it recovers the text from its bytes.
 */
module Utf8 {
  import opened Primitives
  import opened Wrappers

  /**
   * The 1 to 4 bytes of one scalar value, shortest form: the value's 6-bit groups from the
   * top, behind the length marker of the first byte.
   */
  function EncodeChar(c: char): (bs: seq<byte>)
    ensures 1 <= |bs| <= 4
    ensures |bs| == 1 <==> c as int < 0x80
  {
    var n := c as int;
    var d0, q0 := n % 0x40, n / 0x40;
    var d1, q1 := q0 % 0x40, q0 / 0x40;
    var d2, q2 := q1 % 0x40, q1 / 0x40;
    if n < 0x80 then [n as byte]
    else if n < 0x800 then [(0xC0 + q0) as byte, (0x80 + d0) as byte]
    else if n < 0x1_0000 then [(0xE0 + q1) as byte, (0x80 + d1) as byte, (0x80 + d0) as byte]
    else [(0xF0 + q2) as byte, (0x80 + d2) as byte, (0x80 + d1) as byte, (0x80 + d0) as byte]
  }

  /** Encoding.UTF8.GetBytes(text) */
  function Encode(text: string): (bs: seq<byte>)
    ensures |text| <= |bs| <= 4 * |text|
  {
    if text == [] then [] else EncodeChar(text[0]) + Encode(text[1..])
  }

  predicate IsContinuation(b: byte) { 0x80 <= b < 0xC0 }

  /** The scalar value at the front of `bs` and how many bytes it took, if well formed. */
  function DecodeChar(bs: seq<byte>): (r: Option<(char, nat)>)
    ensures r.Some? ==> 1 <= r.value.1 <= |bs|
  {
    if bs == [] then None
    else if bs[0] < 0x80 then Some((bs[0] as int as char, 1))
    else if 0xC0 <= bs[0] < 0xE0 then
      if |bs| < 2 || !IsContinuation(bs[1]) then None
      else
        var n := (bs[0] as int - 0xC0) * 0x40 + (bs[1] as int - 0x80);
        if n < 0x80 then None else Some((n as char, 2))
    else if 0xE0 <= bs[0] < 0xF0 then
      if |bs| < 3 || !IsContinuation(bs[1]) || !IsContinuation(bs[2]) then None
      else
        var n := (bs[0] as int - 0xE0) * 0x1000 + (bs[1] as int - 0x80) * 0x40 + (bs[2] as int - 0x80);
        if n < 0x800 || (0xD800 <= n < 0xE000) then None else Some((n as char, 3))
    else if 0xF0 <= bs[0] < 0xF8 then
      if |bs| < 4 || !IsContinuation(bs[1]) || !IsContinuation(bs[2]) || !IsContinuation(bs[3]) then None
      else
        var n := (bs[0] as int - 0xF0) * 0x4_0000 + (bs[1] as int - 0x80) * 0x1000
                 + (bs[2] as int - 0x80) * 0x40 + (bs[3] as int - 0x80);
        if n < 0x1_0000 || n >= 0x11_0000 then None else Some((n as char, 4))
    else None
  }

  function Decode(bs: seq<byte>): Option<string>
    decreases |bs|
  {
    if bs == [] then Some([])
    else match DecodeChar(bs)
      case None => None
      case Some((c, k)) =>
        match Decode(bs[k..])
        case None => None
        case Some(rest) => Some([c] + rest)
  }

  lemma DecodeEncodedChar(c: char, rest: seq<byte>)
    ensures DecodeChar(EncodeChar(c) + rest) == Some((c, |EncodeChar(c)|))
  {
    var n := c as int;
    if n < 0x80 {
    } else if n < 0x800 {
      DecodeTwoBytes(c, rest);
    } else if n < 0x1_0000 {
      DecodeThreeBytes(c, rest);
    } else {
      DecodeFourBytes(c, rest);
    }
  }

  lemma DecodeTwoBytes(c: char, rest: seq<byte>)
    requires 0x80 <= c as int < 0x800
    ensures DecodeChar(EncodeChar(c) + rest) == Some((c, 2))
  {
    var n := c as int;
    var d0, q0 := n % 0x40, n / 0x40;
    var bs := EncodeChar(c) + rest;
    assert bs[0] as int == 0xC0 + q0 && bs[1] as int == 0x80 + d0;
    assert n == q0 * 0x40 + d0;
  }

  lemma DecodeThreeBytes(c: char, rest: seq<byte>)
    requires 0x800 <= c as int < 0x1_0000
    ensures DecodeChar(EncodeChar(c) + rest) == Some((c, 3))
  {
    var n := c as int;
    var d0, q0 := n % 0x40, n / 0x40;
    var d1, q1 := q0 % 0x40, q0 / 0x40;
    var bs := EncodeChar(c) + rest;
    assert bs[0] as int == 0xE0 + q1 && bs[1] as int == 0x80 + d1 && bs[2] as int == 0x80 + d0;
    assert n == q0 * 0x40 + d0 && q0 == q1 * 0x40 + d1;
  }

  lemma DecodeFourBytes(c: char, rest: seq<byte>)
    requires 0x1_0000 <= c as int
    ensures DecodeChar(EncodeChar(c) + rest) == Some((c, 4))
  {
    var n := c as int;
    assert n < 0x11_0000;
    var d0, q0 := n % 0x40, n / 0x40;
    var d1, q1 := q0 % 0x40, q0 / 0x40;
    var d2, q2 := q1 % 0x40, q1 / 0x40;
    var bs := EncodeChar(c) + rest;
    assert bs[0] as int == 0xF0 + q2 && bs[1] as int == 0x80 + d2;
    assert bs[2] as int == 0x80 + d1 && bs[3] as int == 0x80 + d0;
    assert n == q0 * 0x40 + d0 && q0 == q1 * 0x40 + d1 && q1 == q2 * 0x40 + d2;
  }

  /** The bytes Write(string) frames decode back to the text. */
  lemma {:induction false} EncodeRoundTrip(text: string)
    ensures Decode(Encode(text)) == Some(text)
  {
    if text != [] {
      var head := EncodeChar(text[0]);
      var tail := Encode(text[1..]);
      EncodeRoundTrip(text[1..]);
      DecodeEncodedChar(text[0], tail);
      assert (head + tail)[|head|..] == tail;
      assert [text[0]] + text[1..] == text;
    }
  }
}
