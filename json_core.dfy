/**
 * The bounded JSON-object writer `json_buffer` of src/user/jsonify/core.c: every write formats one
 * fragment and appends it under the rule of BoundedText, latching the `overflown` flag the first
 * time a fragment does not fit.
 */
module JsonCore {
  import opened Decimal
  import opened Hex
  import opened CStd
  import opened BoundedText
  import opened JsonText

  /** C's `/` on integers: the quotient truncated toward zero. */
  function TruncDiv(a: int, b: int): (q: int)
    requires b > 0
    ensures a >= 0 ==> q == a / b
    ensures a < 0 ==> q == -((-a) / b)
  {
    if a >= 0 then a / b else -((-a) / b)
  }

  /** An integer converted to a 64-bit unsigned type, as `(unsigned long long)` and `%lu` do. */
  function ToU64(v: int): (r: nat)
    ensures r <= ULONG_MAX && (r - v) % 0x1_0000_0000_0000_0000 == 0
    ensures 0 <= v <= ULONG_MAX ==> r == v
  {
    v % 0x1_0000_0000_0000_0000
  }

  /** `%llu.%03lu` of `write_timespec64`: seconds, a dot, and the milliseconds padded to 3 digits. */
  function TimespecText(tvSec: int, tvNsec: int): string
  {
    NatToString(ToU64(tvSec)) + "." + ZeroPad(NatToString(ToU64(TruncDiv(tvNsec, 1000000))), 3)
  }

  /** For a time of day the fraction has exactly three digits and is the whole milliseconds. */
  lemma TimespecMillis(tvSec: int, tvNsec: int)
    requires 0 <= tvNsec < 1000000000
    ensures var frac := ZeroPad(NatToString(ToU64(TruncDiv(tvNsec, 1000000))), 3);
      |frac| == 3 && AllDigits(frac) && DigitsValue(frac) == tvNsec / 1000000
  {
    var ms := tvNsec / 1000000;
    var digits := NatToString(ms);
    var frac := ZeroPad(digits, 3);
    assert ms < 1000;
    NatDigitsAtMostThree(ms);
    NatToStringRoundTrip(ms);
    LeadingZerosValue(frac, |frac| - |digits|);
  }

  lemma NatDigitsAtMostThree(n: nat)
    requires n < 1000
    ensures |NatToString(n)| <= 3
  {
    if n >= 10 {
      NatDigitsAtMostThree(n / 10);
    }
  }

  /** Zeros in front do not change a decimal value. */
  lemma {:induction false} LeadingZerosValue(s: string, z: nat)
    requires z <= |s| && AllDigits(s) && forall i | 0 <= i < z :: s[i] == '0'
    ensures DigitsValue(s) == DigitsValue(s[z..])
    decreases |s|
  {
    if |s| > z {
      var init := s[..|s| - 1];
      LeadingZerosValue(init, z);
      assert s[z..][..|s[z..]| - 1] == init[z..];
    } else {
      assert s[z..] == [];
      AllZerosValue(s);
    }
  }

  lemma {:induction false} AllZerosValue(s: string)
    requires forall i | 0 <= i < |s| :: s[i] == '0'
    ensures DigitsValue(s) == 0
  {
    if s != [] {
      AllZerosValue(s[..|s| - 1]);
    }
  }

  class JsonBuffer {
    var buf: array<char>
    var bufIdx: nat
    var maxBufLen: nat
    var remBufLen: nat
    var overflown: int
    /** What the buffer holds: `buf[..bufIdx]`, `remBufLen`, and any truncated fragment after them. */
    ghost var sink: Sink

    ghost predicate Valid()
      reads this, buf
    {
      buf.Length == maxBufLen + 1 && Layout(buf[..], bufIdx, remBufLen, maxBufLen, sink)
      && (overflown == 0 || overflown == 1) && (overflown == 1 <==> remBufLen == 0 && maxBufLen > 0)
    }

    /** `jsonify_core_init(s, dst, len)`: the whole buffer but one byte is room; nothing written. */
    constructor Init(dst: array<char>, len: nat)
      requires len == dst.Length && 1 <= len <= 0x8000_0000
      modifies dst
      ensures Valid() && buf == dst && maxBufLen == len - 1
      ensures sink == Sink([], len - 1, []) && overflown == 0
    {
      buf := dst;
      maxBufLen := len - 1;
      bufIdx := 0;
      remBufLen := len - 1;
      overflown := 0;
      sink := Sink([], len - 1, []);
      new;
      forall j | 0 <= j < maxBufLen {
        dst[j] := '\0';
      }
    }

    /** The buffer read as a C string holds the committed text and any truncated fragment. */
    lemma Shown()
      requires Valid() && maxBufLen > 0
      ensures CString(buf[..]) == sink.text + sink.spill
    {
      var n := bufIdx + |sink.spill|;
      assert buf[..n] == buf[..bufIdx] + sink.spill;
      NoNulConcat(sink.text, sink.spill);
      CStringAt(buf[..], n);
    }

    /** `jsonify_core_has_overflown`. */
    method HasOverflown() returns (r: int)
      requires Valid()
      ensures r == 1 <==> sink.rem == 0 && maxBufLen > 0
      ensures r == 0 || r == 1
    {
      r := overflown;
    }

    /** `jsonify_core_snprintf` with the formatted fragment: `vsnprintf` into the room left, then the bookkeeping. */
    method Snprintf(frag: string) returns (n: nat)
      requires Valid() && NoNul(frag)
      modifies this, buf
      ensures Valid() && buf == old(buf) && maxBufLen == old(maxBufLen)
      ensures sink == Put(old(sink), frag) && n == Returned(old(sink), frag)
      ensures overflown == (if old(remBufLen) > 0 && |frag| >= old(remBufLen) then 1 else old(overflown))
    {
      if remBufLen == 0 {
        return 0;
      }
      var k;
      n, k := Vsnprintf(buf, bufIdx, remBufLen, frag);
      if n >= remBufLen {
        overflown := 1;
        remBufLen := 0;
        sink := Sink(sink.text, 0, frag[..k]);
      } else {
        assert buf[..bufIdx + n] == buf[..bufIdx] + buf[bufIdx..bufIdx + n];
        NoNulConcat(sink.text, frag);
        remBufLen := remBufLen - n;
        bufIdx := bufIdx + n;
        sink := Sink(sink.text + frag, remBufLen, []);
      }
    }

    /** `jsonify_core_write_element_divider`. */
    method WriteElementDivider() returns (n: nat)
      requires Valid()
      modifies this, buf
      ensures Valid() && buf == old(buf) && maxBufLen == old(maxBufLen)
      ensures sink == PutAll(old(sink), Divider(old(sink))) && n == ReturnedAll(old(sink), Divider(old(sink)))
      ensures old(overflown) == 1 ==> overflown == 1
    {
      if bufIdx > 1 {
        ghost var s0 := sink;
        n := Snprintf(",");
        PutAllSnoc(s0, [], ",");
      } else {
        n := 0;
      }
    }

    /** A divider and then one formatted field, as every keyed writer but `write_bytes` does. */
    method WriteKeyed(frag: string) returns (total: nat)
      requires Valid() && NoNul(frag)
      modifies this, buf
      ensures Valid() && buf == old(buf) && maxBufLen == old(maxBufLen)
      ensures sink == WriteField(old(sink), [frag])
      ensures total == FieldReturned(old(sink), [frag])
      ensures old(overflown) == 1 ==> overflown == 1
    {
      ghost var s0 := sink;
      total := WriteElementDivider();
      var n := Snprintf(frag);
      total := total + n;
      PutAllSnoc(s0, Divider(s0), frag);
    }

    /** `jsonify_core_open_obj`. */
    method OpenObj() returns (n: nat)
      requires Valid()
      modifies this, buf
      ensures Valid() && buf == old(buf) && maxBufLen == old(maxBufLen)
      ensures sink == Put(old(sink), "{") && n == Returned(old(sink), "{")
    {
      n := Snprintf("{");
    }

    /** `jsonify_core_close_obj`. */
    method CloseObj() returns (n: nat)
      requires Valid()
      modifies this, buf
      ensures Valid() && buf == old(buf) && maxBufLen == old(maxBufLen)
      ensures sink == Put(old(sink), "}") && n == Returned(old(sink), "}")
    {
      n := Snprintf("}");
    }

    /** The loop of `jsonify_core_write_bytes`: one `%02x` write per byte. */
    method WriteHexPairs(val: seq<byte>) returns (total: nat)
      requires Valid()
      modifies this, buf
      ensures Valid() && buf == old(buf) && maxBufLen == old(maxBufLen)
      ensures sink == PutAll(old(sink), HexPairs(val)) && total == ReturnedAll(old(sink), HexPairs(val))
    {
      ghost var s0 := sink;
      total := 0;
      var i := 0;
      while i < |val|
        invariant 0 <= i <= |val|
        invariant Valid() && buf == old(buf) && maxBufLen == old(maxBufLen)
        invariant sink == PutAll(s0, HexPairs(val[..i])) && total == ReturnedAll(s0, HexPairs(val[..i]))
      {
        HexIsText(val[i]);
        var n := Snprintf(ByteToHex(val[i]));
        total := total + n;
        HexPairsStep(s0, val, i);
        i := i + 1;
      }
      assert val[..|val|] == val;
    }

    /** `jsonify_core_write_bytes`: `"key":"` , the hex pairs, and the closing quote. */
    method WriteBytes(key: string, val: seq<byte>) returns (total: nat)
      requires Valid() && NoNul(key)
      modifies this, buf
      ensures Valid() && buf == old(buf) && maxBufLen == old(maxBufLen)
      ensures sink == WriteField(old(sink), BytesFrags(key, val))
      ensures total == FieldReturned(old(sink), BytesFrags(key, val))
    {
      ghost var s0 := sink;
      var n1 := WriteKeyed(KeyPrefix(key) + "\"");
      ghost var s1 := sink;
      var n2 := WriteHexPairs(val);
      ghost var s2 := sink;
      var n3 := Snprintf("\"");
      total := n1 + n2 + n3;
      BytesSteps(key, val, s0, s1, s2);
    }

    /** `jsonify_core_write_int`: `"key":<val>` with `%d`. */
    method WriteInt(key: string, val: int) returns (total: nat)
      requires Valid() && NoNul(key) && INT_MIN <= val <= INT_MAX
      modifies this, buf
      ensures Valid() && buf == old(buf) && maxBufLen == old(maxBufLen)
      ensures sink == WriteField(old(sink), [KeyPrefix(key) + IntToString(val)])
      ensures total == FieldReturned(old(sink), [KeyPrefix(key) + IntToString(val)])
    {
      total := WriteKeyed(KeyPrefix(key) + IntToString(val));
    }

    /** `jsonify_core_write_uint`: `"key":<val>` with `%u`. */
    method WriteUint(key: string, val: nat) returns (total: nat)
      requires Valid() && NoNul(key) && val < 0x1_0000_0000
      modifies this, buf
      ensures Valid() && buf == old(buf) && maxBufLen == old(maxBufLen)
      ensures sink == WriteField(old(sink), [KeyPrefix(key) + NatToString(val)])
      ensures total == FieldReturned(old(sink), [KeyPrefix(key) + NatToString(val)])
    {
      total := WriteKeyed(KeyPrefix(key) + NatToString(val));
    }

    /** `jsonify_core_write_str`: `"key":"val"`, the value unescaped. */
    method WriteStr(key: string, val: string) returns (total: nat)
      requires Valid() && NoNul(key) && NoNul(val)
      modifies this, buf
      ensures Valid() && buf == old(buf) && maxBufLen == old(maxBufLen)
      ensures sink == WriteField(old(sink), [KeyPrefix(key) + "\"" + val + "\""])
      ensures total == FieldReturned(old(sink), [KeyPrefix(key) + "\"" + val + "\""])
    {
      total := WriteKeyed(KeyPrefix(key) + "\"" + val + "\"");
    }

    /** `jsonify_core_write_raw`: `"key":val`, the value inserted as it is. */
    method WriteRaw(key: string, val: string) returns (total: nat)
      requires Valid() && NoNul(key) && NoNul(val)
      modifies this, buf
      ensures Valid() && buf == old(buf) && maxBufLen == old(maxBufLen)
      ensures sink == WriteField(old(sink), [KeyPrefix(key) + val])
      ensures total == FieldReturned(old(sink), [KeyPrefix(key) + val])
    {
      total := WriteKeyed(KeyPrefix(key) + val);
    }

    /** `jsonify_core_write_ulong`: `"key":<val>` with `%lu`. */
    method WriteUlong(key: string, val: nat) returns (total: nat)
      requires Valid() && NoNul(key) && val <= ULONG_MAX
      modifies this, buf
      ensures Valid() && buf == old(buf) && maxBufLen == old(maxBufLen)
      ensures sink == WriteField(old(sink), [KeyPrefix(key) + NatToString(val)])
      ensures total == FieldReturned(old(sink), [KeyPrefix(key) + NatToString(val)])
    {
      total := WriteKeyed(KeyPrefix(key) + NatToString(val));
    }

    /** `jsonify_core_write_long`: `"key":<val>` with `%ld`. */
    method WriteLong(key: string, val: int) returns (total: nat)
      requires Valid() && NoNul(key) && LONG_MIN <= val <= LONG_MAX
      modifies this, buf
      ensures Valid() && buf == old(buf) && maxBufLen == old(maxBufLen)
      ensures sink == WriteField(old(sink), [KeyPrefix(key) + IntToString(val)])
      ensures total == FieldReturned(old(sink), [KeyPrefix(key) + IntToString(val)])
    {
      total := WriteKeyed(KeyPrefix(key) + IntToString(val));
    }

    /** `jsonify_core_write_timespec64`: `"key":<sec>.<msec>`. */
    method WriteTimespec64(key: string, tvSec: int, tvNsec: int) returns (total: nat)
      requires Valid() && NoNul(key)
      modifies this, buf
      ensures Valid() && buf == old(buf) && maxBufLen == old(maxBufLen)
      ensures sink == WriteField(old(sink), [KeyPrefix(key) + TimespecText(tvSec, tvNsec)])
      ensures total == FieldReturned(old(sink), [KeyPrefix(key) + TimespecText(tvSec, tvNsec)])
    {
      DigitsNoNul(NatToString(ToU64(tvSec)));
      DigitsNoNul(ZeroPad(NatToString(ToU64(TruncDiv(tvNsec, 1000000))), 3));
      total := WriteKeyed(KeyPrefix(key) + TimespecText(tvSec, tvNsec));
    }
  }
}
