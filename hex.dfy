/**
 * Bytes and their lowercase hexadecimal rendering: Python's `bytes.hex()` and C's `%02x`.
 */
module Hex {
  import opened Wrappers

  type byte = x: int | 0 <= x < 256

  predicate IsHexDigit(c: char) { '0' <= c <= '9' || 'a' <= c <= 'f' }

  function HexDigit(d: nat): (c: char)
    requires d < 16
    ensures IsHexDigit(c)
  {
    "0123456789abcdef"[d]
  }

  function HexDigitValue(c: char): (d: nat)
    requires IsHexDigit(c)
    ensures d < 16
  {
    if c <= '9' then c as int - '0' as int else c as int - 'a' as int + 10
  }

  lemma HexDigitRoundTrip(d: nat)
    requires d < 16
    ensures HexDigitValue(HexDigit(d)) == d
  {
  }

  /** One byte as exactly two lowercase hex digits, high nibble first. */
  function ByteToHex(b: byte): (s: string)
    ensures |s| == 2 && IsHexDigit(s[0]) && IsHexDigit(s[1])
    ensures HexDigitValue(s[0]) * 16 + HexDigitValue(s[1]) == b
  {
    HexDigitRoundTrip(b / 16);
    HexDigitRoundTrip(b % 16);
    [HexDigit(b / 16), HexDigit(b % 16)]
  }

  /** A byte string as two lowercase hex digits per byte. */
  function BytesToHex(bs: seq<byte>): (s: string)
    ensures |s| == 2 * |bs|
    ensures forall i | 0 <= i < |s| :: IsHexDigit(s[i])
  {
    if bs == [] then [] else BytesToHex(bs[..|bs| - 1]) + ByteToHex(bs[|bs| - 1])
  }

  /** Byte `i` is rendered at positions `2i` and `2i+1`. */
  lemma {:induction false} BytesToHexAt(bs: seq<byte>, i: nat)
    requires i < |bs|
    ensures BytesToHex(bs)[2 * i..2 * i + 2] == ByteToHex(bs[i])
  {
    if i < |bs| - 1 {
      BytesToHexAt(bs[..|bs| - 1], i);
      assert BytesToHex(bs)[..2 * |bs| - 2] == BytesToHex(bs[..|bs| - 1]);
    }
  }

  /** Decodes a string of lowercase hex-digit pairs; None if the length is odd or a character is not a hex digit. */
  function HexToBytes(s: string): (r: Option<seq<byte>>)
    ensures r.Some? ==> 2 * |r.value| == |s|
  {
    if s == [] then Some([])
    else if |s| < 2 || !IsHexDigit(s[|s| - 2]) || !IsHexDigit(s[|s| - 1]) then None
    else
      match HexToBytes(s[..|s| - 2])
      case None => None
      case Some(init) => Some(init + [HexDigitValue(s[|s| - 2]) * 16 + HexDigitValue(s[|s| - 1])])
  }

  /** Decoding the rendering of a byte string gives the byte string back. */
  lemma {:induction false} BytesHexRoundTrip(bs: seq<byte>)
    ensures HexToBytes(BytesToHex(bs)) == Some(bs)
  {
    if bs != [] {
      var init, b := bs[..|bs| - 1], bs[|bs| - 1];
      var t, last := BytesToHex(init), ByteToHex(b);
      assert BytesToHex(bs) == t + last;
      BytesHexRoundTrip(init);
      assert HexToBytes(t) == Some(init);
      HexToBytesAppend(t, last);
      assert init + [b] == bs;
    }
  }

  /** Decoding one more pair of hex digits appends one byte. */
  lemma HexToBytesAppend(t: string, pair: string)
    requires |pair| == 2 && IsHexDigit(pair[0]) && IsHexDigit(pair[1])
    ensures HexToBytes(t + pair) ==
      if HexToBytes(t).None? then None
      else Some(HexToBytes(t).value + [HexDigitValue(pair[0]) * 16 + HexDigitValue(pair[1])])
  {
    var s := t + pair;
    assert s[..|s| - 2] == t;
  }

  /** The number a string of hex digits denotes, most significant digit first. */
  function HexValue(s: string): nat
    requires forall i | 0 <= i < |s| :: IsHexDigit(s[i])
  {
    if s == [] then 0 else HexValue(s[..|s| - 1]) * 16 + HexDigitValue(s[|s| - 1])
  }

  /** The number a byte string denotes read big-endian. */
  function BigEndianValue(bs: seq<byte>): nat
  {
    if bs == [] then 0 else BigEndianValue(bs[..|bs| - 1]) * 256 + bs[|bs| - 1]
  }

  /** Reading hex digits back gives the big-endian value of the bytes they render. */
  lemma {:induction false} HexValueOfBytes(bs: seq<byte>)
    ensures HexValue(BytesToHex(bs)) == BigEndianValue(bs)
  {
    if bs != [] {
      var t := BytesToHex(bs[..|bs| - 1]);
      var last := ByteToHex(bs[|bs| - 1]);
      HexValueOfBytes(bs[..|bs| - 1]);
      assert BytesToHex(bs) == (t + [last[0]]) + [last[1]];
      HexValueAppend(t, last[0]);
      HexValueAppend(t + [last[0]], last[1]);
    }
  }

  /** One more hex digit multiplies the value by 16 and adds the digit. */
  lemma HexValueAppend(t: string, c: char)
    requires forall i | 0 <= i < |t| :: IsHexDigit(t[i])
    requires IsHexDigit(c)
    ensures HexValue(t + [c]) == HexValue(t) * 16 + HexDigitValue(c)
  {
    assert (t + [c])[..|t|] == t;
  }

  /** Removes leading '0' characters, like Python's `str.lstrip('0')`. */
  function StripLeadingZeros(s: string): (r: string)
    ensures |r| <= |s| && r == s[|s| - |r|..]
    ensures r == [] || r[0] != '0'
    ensures forall i | 0 <= i < |s| - |r| :: s[i] == '0'
  {
    if s != [] && s[0] == '0' then StripLeadingZeros(s[1..]) else s
  }

  /** Leading zeros do not change the value of a hex string. */
  lemma {:induction false} StripLeadingZerosValue(s: string)
    requires forall i | 0 <= i < |s| :: IsHexDigit(s[i])
    ensures HexValue(StripLeadingZeros(s)) == HexValue(s)
  {
    if s != [] && s[0] == '0' {
      var t := s[1..];
      assert StripLeadingZeros(s) == StripLeadingZeros(t);
      StripLeadingZerosValue(t);
      LeadingZeroValue(t);
      assert ['0'] + t == s;
    }
  }

  lemma {:induction false} LeadingZeroValue(s: string)
    requires forall i | 0 <= i < |s| :: IsHexDigit(s[i])
    ensures HexValue(['0'] + s) == HexValue(s)
  {
    if s != [] {
      var t := ['0'] + s;
      assert t[..|t| - 1] == ['0'] + s[..|s| - 1];
      LeadingZeroValue(s[..|s| - 1]);
    }
  }
}
