/**
 * The string-buffer writer `str_buffer_state` of src/user/jsonify.c, of which src/jsonify_record.c
 * opens with a copy: the append rule of `json_buffer` without the overflow flag, the keyed writers,
 * and the socket-address sub-object rendered in a buffer of its own.
 */
module StrJson {
  import opened Wrappers
  import opened Decimal
  import opened Hex
  import opened CStd
  import opened BoundedText
  import opened JsonText
  import opened Records

  /** Size of the child buffer a socket-address sub-object is rendered in. */
  const MAX_BUFFER_LEN: nat := 1024

  /** `INET6_ADDRSTRLEN`: room for the longest IPv6 text and its terminator. */
  const INET6_ADDRSTRLEN: nat := 46

  /** `"key":"val"`, the value unescaped. */
  function StrField(key: string, val: string): seq<string>
  {
    [KeyPrefix(key) + "\"" + val + "\""]
  }

  /** `"key":<val>` with `%d` (or `%ld`). */
  function IntField(key: string, val: int): seq<string>
  {
    [KeyPrefix(key) + IntToString(val)]
  }

  /** `"key":<val>` with `%u` (or `%lu`). */
  function NatField(key: string, val: nat): seq<string>
  {
    [KeyPrefix(key) + NatToString(val)]
  }

  /** `"key":val`, the value inserted as it is. */
  function RawField(key: string, val: string): seq<string>
  {
    [KeyPrefix(key) + val]
  }

  /** A field list in which every field's first fragment is non-empty, as every keyed writer's is. */
  predicate Keyed(fields: seq<seq<string>>)
  {
    forall i | 0 <= i < |fields| :: |fields[i]| > 0 && |fields[i][0]| > 0
  }

  /** Keyed fields never render as empty text. */
  lemma KeyedNonEmpty(fields: seq<seq<string>>)
    requires Keyed(fields)
    ensures NonEmptyFields(fields)
  {
    forall i | 0 <= i < |fields|
      ensures Concat(fields[i]) != []
    {
      var f := fields[i];
      assert f == [f[0]] + f[1..];
      ConcatAppend([f[0]], f[1..]);
      ConcatSingle(f[0]);
    }
  }

  /** The outcome of the library calls a socket-address sub-object depends on. */
  datatype AddrEnv = AddrEnv(
    /** whether `malloc` of the child buffer succeeded */
    mallocOk: bool,
    /** what `inet_ntop(AF_INET6, ...)` wrote, `None` when it failed */
    ip6: Option<string>)

  predicate ValidIp6(ip6: Option<string>)
  {
    ip6.Some? ==> NoNul(ip6.value) && |ip6.value| < INET6_ADDRSTRLEN
  }

  /** The port field's value: the stored 16 bits, byte-swapped by `ntohs` when asked. */
  function Port(e: ElemSockaddr, swap: bool): (p: int)
    requires ValidSockaddr(e)
    ensures 0 <= p <= UINT16_MAX
    ensures swap ==> p == 256 * e.addr[2] as int + e.addr[3] as int
    ensures !swap ==> p == e.addr[2] as int + 256 * e.addr[3] as int
  {
    if swap then Ntohs(RawPort(e)) else RawPort(e)
  }

  /** The text `inet_ntop` wrote, or "ERROR" when it failed. */
  function IpText(ip: Option<string>): string
  {
    if ip.Some? then ip.value else "ERROR"
  }

  /** The port, or -1 when the address text is missing. */
  function IpPort(ip: Option<string>, port: int): int
  {
    if ip.Some? then port else -1
  }

  /** `ip` then `port`. */
  function IpFields(ip: Option<string>, port: int): seq<seq<string>>
  {
    [StrField("ip", IpText(ip))] + [IntField("port", IpPort(ip, port))]
  }

  /** The raw fallback: the first `addrlen` address bytes in hex, then `sockaddr_len`. */
  function RawFields(e: ElemSockaddr): seq<seq<string>>
    requires ValidSockaddr(e)
  {
    [BytesFrags("sockaddr", e.addr[..e.addrlen])] + [IntField("sockaddr_len", e.addrlen)]
  }

  /** The fields of the sub-object, chosen by address family. */
  function SockaddrFields(e: ElemSockaddr, swap: bool, ip6: Option<string>): seq<seq<string>>
    requires ValidSockaddr(e)
  {
    if Family(e) == AF_INET then IpFields(Some(Ipv4Text(e)), Port(e, swap))
    else if Family(e) == AF_INET6 then IpFields(ip6, Port(e, swap))
    else if Family(e) == AF_UNIX then [StrField("path", UnixPath(e, 0))]
    else RawFields(e)
  }

  /** The sub-object's text. */
  function SockaddrObject(e: ElemSockaddr, swap: bool, ip6: Option<string>): string
    requires ValidSockaddr(e)
  {
    ObjectText(SockaddrFields(e, swap, ip6))
  }

  /** The field a socket-address writer contributes to its record: none when `malloc` failed. */
  function SockaddrField(key: string, e: ElemSockaddr, swap: bool, env: AddrEnv): seq<seq<string>>
    requires ValidSockaddr(e)
  {
    if env.mallocOk then [RawField(key, SockaddrObject(e, swap, env.ip6))] else []
  }

  lemma OneFieldObject(f: string)
    ensures ObjectText([[f]]) == "{" + f + "}"
  {
    ConcatSingle(f);
  }

  lemma TwoFieldObject(f: seq<string>, g: string)
    ensures ObjectText([f] + [[g]]) == "{" + Concat(f) + "," + g + "}"
  {
    ConcatSingle(g);
    var t := Texts([f] + [[g]]);
    assert t[0] == Concat(f) && t[1] == g;
    assert t[..1] == [Concat(f)];
    assert Joined(t) == Concat(f) + "," + g;
  }

  lemma IpFieldsShort(ip: Option<string>, port: int)
    requires ip.Some? ==> |ip.value| < INET6_ADDRSTRLEN
    requires 0 <= port <= UINT16_MAX
    ensures Keyed(IpFields(ip, port)) && |ObjectText(IpFields(ip, port))| <= 80
  {
    var p := IpPort(ip, port);
    TwoFieldObject(StrField("ip", IpText(ip)), KeyPrefix("port") + IntToString(p));
    ConcatSingle(KeyPrefix("ip") + "\"" + IpText(ip) + "\"");
    if p >= 0 {
      NatToStringWidth(p, 5);
    }
  }

  /** A dotted quad is at most 15 characters, so the IPv4 sub-object is short. */
  lemma Ipv4ObjectShort(e: ElemSockaddr, swap: bool)
    requires ValidSockaddr(e)
    ensures Keyed(IpFields(Some(Ipv4Text(e)), Port(e, swap)))
    ensures |ObjectText(IpFields(Some(Ipv4Text(e)), Port(e, swap)))| <= 80
  {
    NatToStringWidth(e.addr[4], 3);
    NatToStringWidth(e.addr[5], 3);
    NatToStringWidth(e.addr[6], 3);
    NatToStringWidth(e.addr[7], 3);
    IpFieldsShort(Some(Ipv4Text(e)), Port(e, swap));
  }

  /** At most 128 bytes in hex and a three-digit length: the raw sub-object stays under 300 characters. */
  lemma RawObjectShort(e: ElemSockaddr)
    requires ValidSockaddr(e)
    ensures Keyed(RawFields(e)) && |ObjectText(RawFields(e))| <= 300
  {
    var bytes := e.addr[..e.addrlen];
    BytesFragsText("sockaddr", bytes);
    BytesHexLength(bytes);
    TwoFieldObject(BytesFrags("sockaddr", bytes), KeyPrefix("sockaddr_len") + IntToString(e.addrlen));
    NatToStringWidth(e.addrlen, 3);
  }

  /** A path read from the 128-byte address is shorter than it, so the unix sub-object is short. */
  lemma UnixObjectShort(e: ElemSockaddr)
    requires ValidSockaddr(e)
    ensures Keyed([StrField("path", UnixPath(e, 0))])
    ensures |ObjectText([StrField("path", UnixPath(e, 0))])| <= 150
  {
    OneFieldObject(KeyPrefix("path") + "\"" + UnixPath(e, 0) + "\"");
  }

  /**
   * Every socket address fits the child buffer with room to spare, so the sub-object is always
   * written whole.
   */
  lemma SockaddrFits(e: ElemSockaddr, swap: bool, ip6: Option<string>)
    requires ValidSockaddr(e) && ValidIp6(ip6)
    ensures NonEmptyFields(SockaddrFields(e, swap, ip6))
    ensures |SockaddrObject(e, swap, ip6)| < MAX_BUFFER_LEN - 1
  {
    if Family(e) == AF_INET {
      Ipv4ObjectShort(e, swap);
    } else if Family(e) == AF_INET6 {
      IpFieldsShort(ip6, Port(e, swap));
    } else if Family(e) == AF_UNIX {
      UnixObjectShort(e);
    } else {
      RawObjectShort(e);
    }
    KeyedNonEmpty(SockaddrFields(e, swap, ip6));
  }

  lemma {:induction false} BytesHexLength(bs: seq<byte>)
    ensures |BytesToHex(bs)| == 2 * |bs|
  {
    if bs != [] {
      BytesHexLength(bs[1..]);
    }
  }

  /** Starting from `s0`, writes produced `s` with `fields` and returned `total` in sum. */
  predicate Wrote(s: Sink, s0: Sink, fields: seq<seq<string>>, total: int)
  {
    s == WriteFields(s0, fields) && total == FieldsReturned(s0, fields)
  }

  /** Two keyed writes in a row, as one list of fields. */
  lemma Chain2(s0: Sink, s1: Sink, s2: Sink, f: seq<string>, n: int, g: seq<string>, m: int, fields: seq<seq<string>>)
    requires s1 == WriteField(s0, f) && n == FieldReturned(s0, f)
    requires s2 == WriteField(s1, g) && m == FieldReturned(s1, g)
    requires fields == [f] + [g]
    ensures Wrote(s2, s0, fields, n + m)
  {
    WriteFieldsSnoc(s0, [], f);
    WriteFieldsSnoc(s0, [f], g);
  }

  /** One keyed write, as a list of one field. */
  lemma Chain1(s0: Sink, s1: Sink, f: seq<string>, n: int)
    requires s1 == WriteField(s0, f) && n == FieldReturned(s0, f)
    ensures Wrote(s1, s0, [f], n)
  {
    WriteFieldsSnoc(s0, [], f);
  }

  /** Two runs of keyed writes in a row, as one list of fields. */
  lemma WroteAppend(s0: Sink, s1: Sink, s2: Sink, a: seq<seq<string>>, n: int, b: seq<seq<string>>, m: int)
    requires Wrote(s1, s0, a, n) && Wrote(s2, s1, b, m)
    ensures Wrote(s2, s0, a + b, n + m)
  {
    WriteFieldsAppend(s0, a, b);
  }

  /** A run of keyed writes followed by one more. */
  lemma WroteSnoc(s0: Sink, s1: Sink, s2: Sink, a: seq<seq<string>>, n: int, f: seq<string>, m: int)
    requires Wrote(s1, s0, a, n) && s2 == WriteField(s1, f) && m == FieldReturned(s1, f)
    ensures Wrote(s2, s0, a + [f], n + m)
  {
    WriteFieldsSnoc(s0, a, f);
  }

  /** Three keyed writes in a row, as one list of fields. */
  lemma Chain3(s0: Sink, s1: Sink, s2: Sink, s3: Sink, f: seq<string>, n: int, g: seq<string>, m: int,
               h: seq<string>, k: int, fields: seq<seq<string>>)
    requires s1 == WriteField(s0, f) && n == FieldReturned(s0, f)
    requires s2 == WriteField(s1, g) && m == FieldReturned(s1, g)
    requires s3 == WriteField(s2, h) && k == FieldReturned(s2, h)
    requires fields == [f] + [g] + [h]
    ensures Wrote(s3, s0, fields, n + m + k)
  {
    WriteFieldsSnoc(s0, [], f);
    WriteFieldsSnoc(s0, [f], g);
    WriteFieldsSnoc(s0, [f] + [g], h);
  }

  /** Four keyed writes in a row, as one list of fields. */
  lemma Chain4(s0: Sink, s1: Sink, s2: Sink, s3: Sink, s4: Sink, f: seq<string>, n: int, g: seq<string>, m: int,
               h: seq<string>, k: int, e: seq<string>, l: int, fields: seq<seq<string>>)
    requires s1 == WriteField(s0, f) && n == FieldReturned(s0, f)
    requires s2 == WriteField(s1, g) && m == FieldReturned(s1, g)
    requires s3 == WriteField(s2, h) && k == FieldReturned(s2, h)
    requires s4 == WriteField(s3, e) && l == FieldReturned(s3, e)
    requires fields == [f] + [g] + [h] + [e]
    ensures Wrote(s4, s0, fields, n + m + k + l)
  {
    Chain3(s0, s1, s2, s3, f, n, g, m, h, k, [f] + [g] + [h]);
    WroteSnoc(s0, s3, s4, [f] + [g] + [h], n + m + k, e, l);
  }

  /** The name `str_buffer_state_json_write_sys_id` writes: five calls are known, the rest are "UNKNOWN". */
  function SysIdName(sysId: int): (name: string)
    ensures (SYS_ID_FORK <= sysId <= SYS_ID_UNSHARE) <==> name != "UNKNOWN"
    ensures NoNul(name) && name != []
  {
    if sysId == SYS_ID_FORK then "fork"
    else if sysId == SYS_ID_VFORK then "vfork"
    else if sysId == SYS_ID_CLONE then "clone"
    else if sysId == SYS_ID_SETNS then "setns"
    else if sysId == SYS_ID_UNSHARE then "unshare"
    else "UNKNOWN"
  }

  /** `elem_common`: `type_name`, `type_id` (`%d`), then `version`. */
  function CommonFields(c: ElemCommon, name: string): seq<seq<string>>
  {
    [StrField("type_name", name)] + [IntField("type_id", c.recordType)] + [StrField("version", VersionText(c.version))]
  }

  /** `elem_timestamp`: the event id (`%lu`). */
  function TimestampFields(eventId: nat): seq<seq<string>>
  {
    [NatField("event_id", eventId)]
  }

  /** The keys of `elem_common` and `elem_timestamp` are C strings. */
  lemma CommonKeys()
    ensures NoNul("type_name") && NoNul("type_id") && NoNul("version") && NoNul("event_id")
  {
  }

  /** The keys of the socket-address sub-object are C strings. */
  lemma SockaddrKeys()
    ensures NoNul("sockaddr") && NoNul("sockaddr_len") && NoNul("ip") && NoNul("port") && NoNul("path")
  {
  }

  class StrBuffer {
    var buf: array<char>
    var bufIdx: nat
    var maxBufLen: nat
    var remBufLen: nat
    /** What the buffer holds: `buf[..bufIdx]`, `remBufLen`, and any truncated fragment after them. */
    ghost var sink: Sink

    ghost predicate Valid()
      reads this, buf
    {
      buf.Length == maxBufLen + 1 && Layout(buf[..], bufIdx, remBufLen, maxBufLen, sink)
    }

    /** `str_buffer_state_init_json_obj_from_existing_buffer`: all but one byte is room. */
    constructor Init(dst: array<char>, len: nat)
      requires len == dst.Length && 1 <= len <= 0x8000_0000
      modifies dst
      ensures Valid() && buf == dst && maxBufLen == len - 1
      ensures sink == Sink([], len - 1, [])
    {
      buf := dst;
      maxBufLen := len - 1;
      bufIdx := 0;
      remBufLen := len - 1;
      sink := Sink([], len - 1, []);
      new;
      forall j | 0 <= j < maxBufLen {
        dst[j] := '\0';
      }
    }

    /** The buffer read as a C string holds the committed text and any truncated fragment. */
    lemma Shown()
      requires Valid() && maxBufLen > 0
      ensures CString(buf[..]) == sink.text + sink.spill
    {
      var n := bufIdx + |sink.spill|;
      assert buf[..n] == buf[..bufIdx] + sink.spill;
      NoNulConcat(sink.text, sink.spill);
      CStringAt(buf[..], n);
    }

    /** `str_buffer_state_snprintf` with the formatted fragment. */
    method Snprintf(frag: string) returns (n: nat)
      requires Valid() && NoNul(frag)
      modifies this, buf
      ensures Valid() && buf == old(buf) && maxBufLen == old(maxBufLen)
      ensures sink == Put(old(sink), frag) && n == Returned(old(sink), frag)
    {
      if remBufLen == 0 {
        return 0;
      }
      var k;
      n, k := Vsnprintf(buf, bufIdx, remBufLen, frag);
      if n >= remBufLen {
        remBufLen := 0;
        sink := Sink(sink.text, 0, frag[..k]);
      } else {
        assert buf[..bufIdx + n] == buf[..bufIdx] + buf[bufIdx..bufIdx + n];
        NoNulConcat(sink.text, frag);
        remBufLen := remBufLen - n;
        bufIdx := bufIdx + n;
        sink := Sink(sink.text + frag, remBufLen, []);
      }
    }

    /** `str_buffer_state_json_obj_open`. */
    method ObjOpen() returns (n: nat)
      requires Valid()
      modifies this, buf
      ensures Valid() && buf == old(buf) && maxBufLen == old(maxBufLen)
      ensures sink == Put(old(sink), "{") && n == Returned(old(sink), "{")
    {
      n := Snprintf("{");
    }

    /** `str_buffer_state_json_obj_close`. */
    method ObjClose() returns (n: nat)
      requires Valid()
      modifies this, buf
      ensures Valid() && buf == old(buf) && maxBufLen == old(maxBufLen)
      ensures sink == Put(old(sink), "}") && n == Returned(old(sink), "}")
    {
      n := Snprintf("}");
    }

    /** The comma `if (s->bufIdx > 1)` every keyed writer opens with. */
    method WriteComma() returns (n: nat)
      requires Valid()
      modifies this, buf
      ensures Valid() && buf == old(buf) && maxBufLen == old(maxBufLen)
      ensures sink == PutAll(old(sink), Divider(old(sink))) && n == ReturnedAll(old(sink), Divider(old(sink)))
    {
      if bufIdx > 1 {
        ghost var s0 := sink;
        n := Snprintf(",");
        PutAllSnoc(s0, [], ",");
      } else {
        n := 0;
      }
    }

    /** The comma and one formatted field, as every keyed writer but `write_bytes` does. */
    method WriteKeyed(frag: string) returns (total: nat)
      requires Valid() && NoNul(frag)
      modifies this, buf
      ensures Valid() && buf == old(buf) && maxBufLen == old(maxBufLen)
      ensures sink == WriteField(old(sink), [frag]) && total == FieldReturned(old(sink), [frag])
    {
      ghost var s0 := sink;
      total := WriteComma();
      var n := Snprintf(frag);
      total := total + n;
      PutAllSnoc(s0, Divider(s0), frag);
    }

    /** The loop of `str_buffer_state_json_write_bytes`: one `%02x` write per byte. */
    method WriteHexPairs(val: seq<byte>) returns (total: nat)
      requires Valid()
      modifies this, buf
      ensures Valid() && buf == old(buf) && maxBufLen == old(maxBufLen)
      ensures sink == PutAll(old(sink), HexPairs(val)) && total == ReturnedAll(old(sink), HexPairs(val))
    {
      ghost var s0 := sink;
      total := 0;
      var i := 0;
      while i < |val|
        invariant 0 <= i <= |val|
        invariant Valid() && buf == old(buf) && maxBufLen == old(maxBufLen)
        invariant sink == PutAll(s0, HexPairs(val[..i])) && total == ReturnedAll(s0, HexPairs(val[..i]))
      {
        HexIsText(val[i]);
        var n := Snprintf(ByteToHex(val[i]));
        total := total + n;
        HexPairsStep(s0, val, i);
        i := i + 1;
      }
      assert val[..|val|] == val;
    }

    /** `str_buffer_state_json_write_bytes`: `"key":"`, the hex pairs, the closing quote. */
    method WriteBytes(key: string, val: seq<byte>) returns (total: nat)
      requires Valid() && NoNul(key)
      modifies this, buf
      ensures Valid() && buf == old(buf) && maxBufLen == old(maxBufLen)
      ensures sink == WriteField(old(sink), BytesFrags(key, val)) && total == FieldReturned(old(sink), BytesFrags(key, val))
    {
      ghost var s0 := sink;
      var n1 := WriteKeyed(KeyPrefix(key) + "\"");
      ghost var s1 := sink;
      var n2 := WriteHexPairs(val);
      ghost var s2 := sink;
      var n3 := Snprintf("\"");
      total := n1 + n2 + n3;
      BytesSteps(key, val, s0, s1, s2);
    }

    /** `str_buffer_state_json_write_int` (and its `pid` and `record_type` aliases). */
    method WriteInt(key: string, val: int) returns (total: nat)
      requires Valid() && NoNul(key) && INT_MIN <= val <= INT_MAX
      modifies this, buf
      ensures Valid() && buf == old(buf) && maxBufLen == old(maxBufLen)
      ensures sink == WriteField(old(sink), IntField(key, val)) && total == FieldReturned(old(sink), IntField(key, val))
    {
      total := WriteKeyed(KeyPrefix(key) + IntToString(val));
    }

    /** `str_buffer_state_json_write_uint` (and its `uid`, `gid` and `inode` aliases). */
    method WriteUint(key: string, val: nat) returns (total: nat)
      requires Valid() && NoNul(key) && val < 0x1_0000_0000
      modifies this, buf
      ensures Valid() && buf == old(buf) && maxBufLen == old(maxBufLen)
      ensures sink == WriteField(old(sink), NatField(key, val)) && total == FieldReturned(old(sink), NatField(key, val))
    {
      total := WriteKeyed(KeyPrefix(key) + NatToString(val));
    }

    /** `str_buffer_state_json_write_ulong` (and its `event_id` alias). */
    method WriteUlong(key: string, val: nat) returns (total: nat)
      requires Valid() && NoNul(key) && val <= ULONG_MAX
      modifies this, buf
      ensures Valid() && buf == old(buf) && maxBufLen == old(maxBufLen)
      ensures sink == WriteField(old(sink), NatField(key, val)) && total == FieldReturned(old(sink), NatField(key, val))
    {
      total := WriteKeyed(KeyPrefix(key) + NatToString(val));
    }

    /** `str_buffer_state_json_write_str`. */
    method WriteStr(key: string, val: string) returns (total: nat)
      requires Valid() && NoNul(key) && NoNul(val)
      modifies this, buf
      ensures Valid() && buf == old(buf) && maxBufLen == old(maxBufLen)
      ensures sink == WriteField(old(sink), StrField(key, val)) && total == FieldReturned(old(sink), StrField(key, val))
    {
      total := WriteKeyed(KeyPrefix(key) + "\"" + val + "\"");
    }

    /** `str_buffer_state_json_write_raw`. */
    method WriteRaw(key: string, val: string) returns (total: nat)
      requires Valid() && NoNul(key) && NoNul(val)
      modifies this, buf
      ensures Valid() && buf == old(buf) && maxBufLen == old(maxBufLen)
      ensures sink == WriteField(old(sink), RawField(key, val)) && total == FieldReturned(old(sink), RawField(key, val))
    {
      total := WriteKeyed(KeyPrefix(key) + val);
    }

    /** `str_buffer_state_json_write_version`: `"key":"major.minor.patch"`. */
    method WriteVersion(key: string, v: ElemVersion) returns (total: nat)
      requires Valid() && NoNul(key)
      modifies this, buf
      ensures Valid() && buf == old(buf) && maxBufLen == old(maxBufLen)
      ensures sink == WriteField(old(sink), StrField(key, VersionText(v))) && total == FieldReturned(old(sink), StrField(key, VersionText(v)))
    {
      DigitsNoNul(NatToString(v.major));
      DigitsNoNul(NatToString(v.minor));
      DigitsNoNul(NatToString(v.patch));
      total := WriteStr(key, VersionText(v));
    }

    /** `str_buffer_state_json_write_elem_sockaddr_raw`. */
    method WriteSockaddrRaw(e: ElemSockaddr) returns (total: nat)
      requires Valid() && ValidSockaddr(e)
      modifies this, buf
      ensures Valid() && buf == old(buf) && maxBufLen == old(maxBufLen)
      ensures Wrote(sink, old(sink), RawFields(e), total)
    {
      ghost var s0 := sink;
      SockaddrKeys();
      var n := WriteBytes("sockaddr", e.addr[..e.addrlen]);
      ghost var s1 := sink;
      var m := WriteInt("sockaddr_len", e.addrlen);
      Chain2(s0, s1, sink, BytesFrags("sockaddr", e.addr[..e.addrlen]), n, IntField("sockaddr_len", e.addrlen), m, RawFields(e));
      total := n + m;
    }

    /**
     * The IPv4 and IPv6 writers: `ip` then `port`, the port byte-swapped only when `swap` (a
     * NETWORK byte order, or the caller's `do_ntohs`), both replaced when the text is missing.
     */
    method WriteIp(ip: Option<string>, port: int) returns (total: nat)
      requires Valid() && 0 <= port <= UINT16_MAX && (ip.Some? ==> NoNul(ip.value))
      modifies this, buf
      ensures Valid() && buf == old(buf) && maxBufLen == old(maxBufLen)
      ensures Wrote(sink, old(sink), IpFields(ip, port), total)
    {
      ghost var s0 := sink;
      SockaddrKeys();
      var n := WriteStr("ip", IpText(ip));
      ghost var s1 := sink;
      var m := WriteInt("port", IpPort(ip, port));
      Chain2(s0, s1, sink, StrField("ip", IpText(ip)), n, IntField("port", IpPort(ip, port)), m, IpFields(ip, port));
      total := n + m;
    }

    /** The fields of the sub-object, written by family. */
    method WriteSockaddrBody(e: ElemSockaddr, swap: bool, ip6: Option<string>) returns (total: nat)
      requires Valid() && ValidSockaddr(e) && ValidIp6(ip6)
      modifies this, buf
      ensures Valid() && buf == old(buf) && maxBufLen == old(maxBufLen)
      ensures Wrote(sink, old(sink), SockaddrFields(e, swap, ip6), total)
    {
      var family := e.addr[0] as int + 256 * e.addr[1] as int;
      SockaddrKeys();
      if family == AF_INET {
        var text := Ipv4Text(e);
        assert forall i | 0 <= i < |text| :: IsDigit(text[i]) || text[i] == '.';
        total := WriteIp(Some(text), Port(e, swap));
      } else if family == AF_INET6 {
        total := WriteIp(ip6, Port(e, swap));
      } else if family == AF_UNIX {
        ghost var s0 := sink;
        total := WriteStr("path", UnixPath(e, 0));
        Chain1(s0, sink, StrField("path", UnixPath(e, 0)), total);
      } else {
        total := WriteSockaddrRaw(e);
      }
    }

    /**
     * `str_buffer_state_json_write_elem_sockaddr`: the sub-object rendered into a fresh 1024-byte
     * buffer, then written as the raw value of `key`; nothing when the allocation fails.
     */
    method WriteElemSockaddr(key: string, e: ElemSockaddr, swap: bool, env: AddrEnv) returns (total: nat)
      requires Valid() && NoNul(key) && ValidSockaddr(e) && ValidIp6(env.ip6)
      modifies this, buf
      ensures Valid() && buf == old(buf) && maxBufLen == old(maxBufLen)
      ensures Wrote(sink, old(sink), SockaddrField(key, e, swap, env), total)
    {
      if !env.mallocOk {
        return 0;
      }
      var childBuf := new char[MAX_BUFFER_LEN];
      var child := new StrBuffer.Init(childBuf, MAX_BUFFER_LEN);
      var _ := child.ObjOpen();
      var _ := child.WriteSockaddrBody(e, swap, env.ip6);
      var _ := child.ObjClose();
      child.Shown();
      SockaddrFits(e, swap, env.ip6);
      ObjectRendering(MAX_BUFFER_LEN, SockaddrFields(e, swap, env.ip6));
      var text := CString(childBuf[..]);
      ghost var s0 := sink;
      total := WriteRaw(key, text);
      Chain1(s0, sink, RawField(key, text), total);
    }

    /** `str_buffer_state_json_write_sys_id`: the call's name as a string field. */
    method WriteSysId(key: string, sysId: int) returns (total: nat)
      requires Valid() && NoNul(key)
      modifies this, buf
      ensures Valid() && buf == old(buf) && maxBufLen == old(maxBufLen)
      ensures sink == WriteField(old(sink), StrField(key, SysIdName(sysId)))
      ensures total == FieldReturned(old(sink), StrField(key, SysIdName(sysId)))
    {
      var name;
      if sysId == SYS_ID_FORK {
        name := "fork";
      } else if sysId == SYS_ID_VFORK {
        name := "vfork";
      } else if sysId == SYS_ID_CLONE {
        name := "clone";
      } else if sysId == SYS_ID_SETNS {
        name := "setns";
      } else if sysId == SYS_ID_UNSHARE {
        name := "unshare";
      } else {
        name := "UNKNOWN";
      }
      total := WriteStr(key, name);
    }

    /** `str_buffer_state_json_write_elem_common`. */
    method WriteElemCommon(c: ElemCommon, name: string) returns (total: nat)
      requires Valid() && NoNul(name) && INT_MIN <= c.recordType <= INT_MAX
      modifies this, buf
      ensures Valid() && buf == old(buf) && maxBufLen == old(maxBufLen)
      ensures Wrote(sink, old(sink), CommonFields(c, name), total)
    {
      ghost var s0 := sink;
      CommonKeys();
      var n1 := WriteStr("type_name", name);
      ghost var s1 := sink;
      var n2 := WriteInt("type_id", c.recordType);
      ghost var s2 := sink;
      var n3 := WriteVersion("version", c.version);
      Chain1(s0, s1, StrField("type_name", name), n1);
      WroteSnoc(s0, s1, s2, [StrField("type_name", name)], n1, IntField("type_id", c.recordType), n2);
      WroteSnoc(s0, s2, sink, [StrField("type_name", name)] + [IntField("type_id", c.recordType)], n1 + n2,
        StrField("version", VersionText(c.version)), n3);
      total := n1 + n2 + n3;
    }

    /** `str_buffer_state_json_write_elem_timestamp`. */
    method WriteElemTimestamp(eventId: nat) returns (total: nat)
      requires Valid() && eventId <= ULONG_MAX
      modifies this, buf
      ensures Valid() && buf == old(buf) && maxBufLen == old(maxBufLen)
      ensures Wrote(sink, old(sink), TimestampFields(eventId), total)
    {
      ghost var s0 := sink;
      total := WriteUlong("event_id", eventId);
      Chain1(s0, sink, NatField("event_id", eventId), total);
    }
  }
}
