/**
 * The typed writers of src/user/jsonify/types.c on top of `json_buffer`: system-call names, the
 * version string, the socket-address sub-object chosen by family, and the common record header.
 */
module JsonTypes {
  import opened Wrappers
  import opened Decimal
  import opened Hex
  import opened CStd
  import opened BoundedText
  import opened JsonText
  import opened Records
  import opened StrJson
  import opened JsonCore

  /** The size of the local buffer `jsonify_types_write_version` formats into. */
  const VERSION_BUF_LEN: nat := 13

  /** The name `jsonify_types_write_sys_id` writes: nine calls are known, the rest are "UNKNOWN". */
  function TypesSysIdName(sysId: int): (name: string)
    ensures (SYS_ID_FORK <= sysId <= SYS_ID_RECVMSG) <==> name != "UNKNOWN"
    ensures SYS_ID_FORK <= sysId <= SYS_ID_UNSHARE ==> name == SysIdName(sysId)
    ensures NoNul(name) && name != []
  {
    if sysId == SYS_ID_FORK then "fork"
    else if sysId == SYS_ID_VFORK then "vfork"
    else if sysId == SYS_ID_CLONE then "clone"
    else if sysId == SYS_ID_SETNS then "setns"
    else if sysId == SYS_ID_UNSHARE then "unshare"
    else if sysId == SYS_ID_SENDTO then "sendto"
    else if sysId == SYS_ID_SENDMSG then "sendmsg"
    else if sysId == SYS_ID_RECVFROM then "recvfrom"
    else if sysId == SYS_ID_RECVMSG then "recvmsg"
    else "UNKNOWN"
  }

  /** The id a written system-call name stands for, if any. */
  function SysIdOfName(name: string): Option<int>
  {
    if name == "fork" then Some(SYS_ID_FORK)
    else if name == "vfork" then Some(SYS_ID_VFORK)
    else if name == "clone" then Some(SYS_ID_CLONE)
    else if name == "setns" then Some(SYS_ID_SETNS)
    else if name == "unshare" then Some(SYS_ID_UNSHARE)
    else if name == "sendto" then Some(SYS_ID_SENDTO)
    else if name == "sendmsg" then Some(SYS_ID_SENDMSG)
    else if name == "recvfrom" then Some(SYS_ID_RECVFROM)
    else if name == "recvmsg" then Some(SYS_ID_RECVMSG)
    else None
  }

  /** A written name gives back the known id it was written for, and no id at all for "UNKNOWN". */
  lemma SysIdNameRoundTrip(sysId: int)
    ensures SysIdOfName(TypesSysIdName(sysId)) == if SYS_ID_FORK <= sysId <= SYS_ID_RECVMSG then Some(sysId) else None
  {
    if sysId == SYS_ID_FORK {
    } else if sysId == SYS_ID_VFORK {
    } else if sysId == SYS_ID_CLONE {
    } else if sysId == SYS_ID_SETNS {
    } else if sysId == SYS_ID_UNSHARE {
    } else if sysId == SYS_ID_SENDTO {
    } else if sysId == SYS_ID_SENDMSG {
    } else if sysId == SYS_ID_RECVFROM {
    } else if sysId == SYS_ID_RECVMSG {
    } else {
      assert TypesSysIdName(sysId) == "UNKNOWN";
      assert "UNKNOWN"[0] == 'U';
    }
  }

  /**
   * The version text as written: `snprintf` into 13 bytes keeps at most 12 characters of
   * "major.minor.patch", which can be 13 long.
   */
  function TruncatedVersionText(v: ElemVersion): (t: string)
    ensures t <= VersionText(v)
    ensures |t| == if |VersionText(v)| < VERSION_BUF_LEN then |VersionText(v)| else VERSION_BUF_LEN - 1
  {
    var full := VersionText(v);
    if |full| < VERSION_BUF_LEN then full else full[..VERSION_BUF_LEN - 1]
  }

  lemma Digits65535()
    ensures NatToString(65535) == "65535"
  {
    assert NatToString(6553) == "6553" by {
      assert NatToString(655) == "655" by {
        assert NatToString(65) == "65" by {
          assert NatToString(6) == "6";
        }
      }
    }
  }

  lemma Digits25()
    ensures NatToString(25) == "25"
  {
    assert NatToString(2) == "2";
  }

  lemma Digits255And250()
    ensures NatToString(255) == "255" && NatToString(250) == "250"
  {
    Digits25();
    assert NatToString(255) == NatToString(25) + [DigitChar(5)];
    assert NatToString(250) == NatToString(25) + [DigitChar(0)];
  }

  /** The largest version loses its last digit, and two versions then print alike. */
  lemma TruncatedVersionCollides()
    ensures VersionText(ElemVersion(65535, 255, 255)) == "65535.255.255"
    ensures TruncatedVersionText(ElemVersion(65535, 255, 255)) == "65535.255.25"
    ensures TruncatedVersionText(ElemVersion(65535, 255, 250)) == TruncatedVersionText(ElemVersion(65535, 255, 255))
  {
    Digits65535();
    Digits255And250();
    var a := VersionText(ElemVersion(65535, 255, 255));
    var b := VersionText(ElemVersion(65535, 255, 250));
    assert a == "65535.255.255";
    assert b == "65535.255.250";
    assert a[..12] == b[..12];
  }

  /** Without the cut, every version in the C field ranges prints whole and can be read back. */
  lemma VersionTextFitsWhole(v: ElemVersion)
    requires ValidVersion(v)
    ensures |VersionText(v)| <= VERSION_BUF_LEN
  {
    NatToStringWidth(v.major, 5);
    NatToStringWidth(v.minor, 3);
    NatToStringWidth(v.patch, 3);
  }

  /** The IPv4 and IPv6 writers: `family` (`%u`), then `ip` and `port`. */
  function TypesIpFields(family: nat, ip: Option<string>, port: int): seq<seq<string>>
  {
    [NatField("family", family)] + IpFields(ip, port)
  }

  /** An abstract unix socket (`sun_path[0] == 0`) has its name from the next byte on. */
  function PathStart(e: ElemSockaddr): (start: nat)
    requires ValidSockaddr(e)
    ensures start <= 1 && (start == 1 <==> e.addr[2] == 0)
  {
    if e.addr[2] != 0 then 0 else 1
  }

  /** The unix writer: `family`, then `sun_path` from its start. */
  function UnixFields(e: ElemSockaddr): seq<seq<string>>
    requires ValidSockaddr(e)
  {
    [NatField("family", Family(e))] + [StrField("sun_path", UnixPath(e, PathStart(e)))]
  }

  /** The netlink writer: `family`, `pid` (`nl_pid` at 4) and `groups` (`nl_groups` at 8). */
  function NetlinkFields(e: ElemSockaddr): seq<seq<string>>
    requires ValidSockaddr(e)
  {
    [NatField("family", Family(e))] + [NatField("pid", U32At(e.addr, 4))] + [NatField("groups", U32At(e.addr, 8))]
  }

  /** The fields of the sub-object, chosen by address family. */
  function TypesSockaddrFields(e: ElemSockaddr, ip6: Option<string>): seq<seq<string>>
    requires ValidSockaddr(e)
  {
    if Family(e) == AF_INET then TypesIpFields(Family(e), Some(Ipv4Text(e)), Port(e, NetOrder(e)))
    else if Family(e) == AF_INET6 then TypesIpFields(Family(e), ip6, Port(e, NetOrder(e)))
    else if Family(e) == AF_UNIX then UnixFields(e)
    else if Family(e) == AF_NETLINK then NetlinkFields(e)
    else RawFields(e)
  }

  /** The field `jsonify_types_write_elem_sockaddr` contributes: none when `malloc` failed. */
  function TypesSockaddrField(key: string, e: ElemSockaddr, env: AddrEnv): seq<seq<string>>
    requires ValidSockaddr(e)
  {
    if env.mallocOk then [RawField(key, ObjectText(TypesSockaddrFields(e, env.ip6)))] else []
  }

  /** `jsonify_types_write_common`: `record_name`, `record_type`, `record_version`, `event_id`. */
  function TypesCommonFields(c: ElemCommon, eventId: nat, name: string): seq<seq<string>>
  {
    [StrField("record_name", name)] + [IntField("record_type", c.recordType)]
      + [StrField("record_version", TruncatedVersionText(c.version))] + [NatField("event_id", eventId)]
  }

  lemma ThreeFieldObject(f: string, g: string, h: string)
    ensures ObjectText([[f]] + [[g]] + [[h]]) == "{" + f + "," + g + "," + h + "}"
  {
    ConcatSingle(f);
    ConcatSingle(g);
    ConcatSingle(h);
    var t := Texts([[f]] + [[g]] + [[h]]);
    assert t == [f, g, h];
    assert t[..2] == [f, g] && t[..2][..1] == [f];
    assert Joined(t[..2]) == f + "," + g;
  }

  lemma TypesIpShort(family: nat, ip: Option<string>, port: int)
    requires family <= UINT16_MAX && (ip.Some? ==> |ip.value| < INET6_ADDRSTRLEN) && 0 <= port <= UINT16_MAX
    ensures Keyed(TypesIpFields(family, ip, port)) && |ObjectText(TypesIpFields(family, ip, port))| <= 100
  {
    var p := IpPort(ip, port);
    var f := KeyPrefix("family") + NatToString(family);
    var g := KeyPrefix("ip") + "\"" + IpText(ip) + "\"";
    var h := KeyPrefix("port") + IntToString(p);
    assert TypesIpFields(family, ip, port) == [[f]] + [[g]] + [[h]];
    ThreeFieldObject(f, g, h);
    NatToStringWidth(family, 5);
    if p >= 0 {
      NatToStringWidth(p, 5);
    }
  }

  lemma UnixShort(e: ElemSockaddr)
    requires ValidSockaddr(e)
    ensures Keyed(UnixFields(e)) && |ObjectText(UnixFields(e))| <= 200
  {
    var f := KeyPrefix("family") + NatToString(Family(e));
    TwoFieldObject([f], KeyPrefix("sun_path") + "\"" + UnixPath(e, PathStart(e)) + "\"");
    ConcatSingle(f);
    NatToStringWidth(Family(e), 5);
  }

  lemma NetlinkShort(e: ElemSockaddr)
    requires ValidSockaddr(e)
    ensures Keyed(NetlinkFields(e)) && |ObjectText(NetlinkFields(e))| <= 100
  {
    var f := KeyPrefix("family") + NatToString(Family(e));
    var g := KeyPrefix("pid") + NatToString(U32At(e.addr, 4));
    var h := KeyPrefix("groups") + NatToString(U32At(e.addr, 8));
    ThreeFieldObject(f, g, h);
    NatToStringWidth(Family(e), 5);
    NatToStringWidth(U32At(e.addr, 4), 10);
    NatToStringWidth(U32At(e.addr, 8), 10);
  }

  /** Every socket address fits the 1024-byte child buffer, so the sub-object is always written whole. */
  lemma TypesSockaddrFits(e: ElemSockaddr, ip6: Option<string>)
    requires ValidSockaddr(e) && ValidIp6(ip6)
    ensures NonEmptyFields(TypesSockaddrFields(e, ip6))
    ensures |ObjectText(TypesSockaddrFields(e, ip6))| < MAX_BUFFER_LEN - 1
  {
    if Family(e) == AF_INET {
      NatToStringWidth(e.addr[4], 3);
      NatToStringWidth(e.addr[5], 3);
      NatToStringWidth(e.addr[6], 3);
      NatToStringWidth(e.addr[7], 3);
      TypesIpShort(Family(e), Some(Ipv4Text(e)), Port(e, NetOrder(e)));
    } else if Family(e) == AF_INET6 {
      TypesIpShort(Family(e), ip6, Port(e, NetOrder(e)));
    } else if Family(e) == AF_UNIX {
      UnixShort(e);
    } else if Family(e) == AF_NETLINK {
      NetlinkShort(e);
    } else {
      RawObjectShort(e);
    }
    KeyedNonEmpty(TypesSockaddrFields(e, ip6));
  }

  /** The keys types.c passes are C strings. */
  lemma TypesKeys()
    ensures NoNul("family") && NoNul("ip") && NoNul("port") && NoNul("sun_path") && NoNul("pid") && NoNul("groups")
    ensures NoNul("sockaddr") && NoNul("sockaddr_len") && NoNul("sys_id")
    ensures NoNul("record_name") && NoNul("record_type") && NoNul("record_version") && NoNul("event_id")
  {
  }

  /** `jsonify_types_write_version`: the version text as `snprintf` leaves it in the 13-byte local buffer. */
  method WriteVersion(s: JsonBuffer, key: string, v: ElemVersion) returns (total: nat)
    requires s.Valid() && NoNul(key)
    modifies s, s.buf
    ensures s.Valid() && s.buf == old(s.buf) && s.maxBufLen == old(s.maxBufLen)
    ensures s.sink == WriteField(old(s.sink), StrField(key, TruncatedVersionText(v)))
    ensures total == FieldReturned(old(s.sink), StrField(key, TruncatedVersionText(v)))
  {
    DigitsNoNul(NatToString(v.major));
    DigitsNoNul(NatToString(v.minor));
    DigitsNoNul(NatToString(v.patch));
    var text := TruncatedVersionText(v);
    assert NoNul(text) by {
      assert forall i | 0 <= i < |text| :: text[i] == VersionText(v)[i];
    }
    total := s.WriteStr(key, text);
  }

  /** `jsonify_types_write_sys_id`: the call's name under `sys_id`. */
  method WriteSysId(s: JsonBuffer, sysId: int) returns (total: nat)
    requires s.Valid()
    modifies s, s.buf
    ensures s.Valid() && s.buf == old(s.buf) && s.maxBufLen == old(s.maxBufLen)
    ensures s.sink == WriteField(old(s.sink), StrField("sys_id", TypesSysIdName(sysId)))
    ensures total == FieldReturned(old(s.sink), StrField("sys_id", TypesSysIdName(sysId)))
  {
    var name;
    if sysId == SYS_ID_FORK {
      name := "fork";
    } else if sysId == SYS_ID_VFORK {
      name := "vfork";
    } else if sysId == SYS_ID_CLONE {
      name := "clone";
    } else if sysId == SYS_ID_SETNS {
      name := "setns";
    } else if sysId == SYS_ID_UNSHARE {
      name := "unshare";
    } else if sysId == SYS_ID_SENDTO {
      name := "sendto";
    } else if sysId == SYS_ID_SENDMSG {
      name := "sendmsg";
    } else if sysId == SYS_ID_RECVFROM {
      name := "recvfrom";
    } else if sysId == SYS_ID_RECVMSG {
      name := "recvmsg";
    } else {
      name := "UNKNOWN";
    }
    TypesKeys();
    total := s.WriteStr("sys_id", name);
  }

  /** `jsonify_types_write_elem_sockaddr_raw`: the first `addrlen` bytes in hex, then `sockaddr_len`. */
  method WriteSockaddrRaw(s: JsonBuffer, e: ElemSockaddr) returns (total: nat)
    requires s.Valid() && ValidSockaddr(e)
    modifies s, s.buf
    ensures s.Valid() && s.buf == old(s.buf) && s.maxBufLen == old(s.maxBufLen)
    ensures Wrote(s.sink, old(s.sink), RawFields(e), total)
  {
    TypesKeys();
    ghost var p0 := s.sink;
    var n := s.WriteBytes("sockaddr", e.addr[..e.addrlen]);
    ghost var p1 := s.sink;
    var m := s.WriteInt("sockaddr_len", e.addrlen);
    Chain2(p0, p1, s.sink, BytesFrags("sockaddr", e.addr[..e.addrlen]), n, IntField("sockaddr_len", e.addrlen), m, RawFields(e));
    total := n + m;
  }

  /**
   * The IPv4 and IPv6 writers: the family, then the address text and the port, both replaced by
   * "ERROR" and -1 when `inet_ntop` failed.
   */
  method WriteIp(s: JsonBuffer, family: nat, ip: Option<string>, port: int) returns (total: nat)
    requires s.Valid() && family < 0x1_0000_0000 && 0 <= port <= UINT16_MAX && (ip.Some? ==> NoNul(ip.value))
    modifies s, s.buf
    ensures s.Valid() && s.buf == old(s.buf) && s.maxBufLen == old(s.maxBufLen)
    ensures Wrote(s.sink, old(s.sink), TypesIpFields(family, ip, port), total)
  {
    TypesKeys();
    ghost var p0 := s.sink;
    var n1 := s.WriteUint("family", family);
    ghost var p1 := s.sink;
    var n2 := s.WriteStr("ip", IpText(ip));
    ghost var p2 := s.sink;
    var n3 := s.WriteInt("port", IpPort(ip, port));
    Chain3(p0, p1, p2, s.sink, NatField("family", family), n1, StrField("ip", IpText(ip)), n2,
      IntField("port", IpPort(ip, port)), n3, TypesIpFields(family, ip, port));
    total := n1 + n2 + n3;
  }

  /** `jsonify_types_write_sockaddr_un`: the family, then the path from `path_start`. */
  method WriteSockaddrUn(s: JsonBuffer, e: ElemSockaddr) returns (total: nat)
    requires s.Valid() && ValidSockaddr(e)
    modifies s, s.buf
    ensures s.Valid() && s.buf == old(s.buf) && s.maxBufLen == old(s.maxBufLen)
    ensures Wrote(s.sink, old(s.sink), UnixFields(e), total)
  {
    var pathStart := 0;
    if e.addr[2] != 0 {
      pathStart := 0;
    } else {
      pathStart := 1;
    }
    TypesKeys();
    ghost var p0 := s.sink;
    var n1 := s.WriteUint("family", U16At(e.addr, 0));
    ghost var p1 := s.sink;
    var n2 := s.WriteStr("sun_path", UnixPath(e, pathStart));
    Chain2(p0, p1, s.sink, NatField("family", Family(e)), n1, StrField("sun_path", UnixPath(e, pathStart)), n2, UnixFields(e));
    total := n1 + n2;
  }

  /** `jsonify_types_write_sockaddr_nl`: family, port id and multicast groups. */
  method WriteSockaddrNl(s: JsonBuffer, e: ElemSockaddr) returns (total: nat)
    requires s.Valid() && ValidSockaddr(e)
    modifies s, s.buf
    ensures s.Valid() && s.buf == old(s.buf) && s.maxBufLen == old(s.maxBufLen)
    ensures Wrote(s.sink, old(s.sink), NetlinkFields(e), total)
  {
    TypesKeys();
    ghost var p0 := s.sink;
    var n1 := s.WriteUint("family", U16At(e.addr, 0));
    ghost var p1 := s.sink;
    var n2 := s.WriteUint("pid", U32At(e.addr, 4));
    ghost var p2 := s.sink;
    var n3 := s.WriteUint("groups", U32At(e.addr, 8));
    Chain3(p0, p1, p2, s.sink, NatField("family", Family(e)), n1, NatField("pid", U32At(e.addr, 4)), n2,
      NatField("groups", U32At(e.addr, 8)), n3, NetlinkFields(e));
    total := n1 + n2 + n3;
  }

  /** The `switch (sa->sa_family)` of `jsonify_types_write_elem_sockaddr`. */
  method WriteSockaddrBody(s: JsonBuffer, e: ElemSockaddr, ip6: Option<string>) returns (total: nat)
    requires s.Valid() && ValidSockaddr(e) && ValidIp6(ip6)
    modifies s, s.buf
    ensures s.Valid() && s.buf == old(s.buf) && s.maxBufLen == old(s.maxBufLen)
    ensures Wrote(s.sink, old(s.sink), TypesSockaddrFields(e, ip6), total)
  {
    var family := U16At(e.addr, 0);
    var swap := e.byteOrder == BYTE_ORDER_NETWORK;
    if family == AF_INET {
      var text := Ipv4Text(e);
      assert forall i | 0 <= i < |text| :: IsDigit(text[i]) || text[i] == '.';
      total := WriteIp(s, family, Some(text), Port(e, swap));
    } else if family == AF_INET6 {
      total := WriteIp(s, family, ip6, Port(e, swap));
    } else if family == AF_UNIX {
      total := WriteSockaddrUn(s, e);
    } else if family == AF_NETLINK {
      total := WriteSockaddrNl(s, e);
    } else {
      total := WriteSockaddrRaw(s, e);
    }
  }

  /**
   * `jsonify_types_write_elem_sockaddr`: the sub-object rendered into a fresh 1024-byte buffer,
   * then written as the raw value of `key`; nothing when the allocation fails.
   */
  method WriteElemSockaddr(s: JsonBuffer, key: string, e: ElemSockaddr, env: AddrEnv) returns (total: nat)
    requires s.Valid() && NoNul(key) && ValidSockaddr(e) && ValidIp6(env.ip6)
    modifies s, s.buf
    ensures s.Valid() && s.buf == old(s.buf) && s.maxBufLen == old(s.maxBufLen)
    ensures Wrote(s.sink, old(s.sink), TypesSockaddrField(key, e, env), total)
  {
    if !env.mallocOk {
      return 0;
    }
    var text := RenderSockaddr(e, env.ip6);
    ghost var p0 := s.sink;
    total := s.WriteRaw(key, text);
    Chain1(p0, s.sink, RawField(key, text), total);
  }

  /** The sub-object of `jsonify_types_write_elem_sockaddr`, rendered into a fresh 1024-byte buffer and read back. */
  method RenderSockaddr(e: ElemSockaddr, ip6: Option<string>) returns (text: string)
    requires ValidSockaddr(e) && ValidIp6(ip6)
    ensures text == ObjectText(TypesSockaddrFields(e, ip6)) && NoNul(text)
  {
    var childBuf := new char[MAX_BUFFER_LEN];
    var child := new JsonBuffer.Init(childBuf, MAX_BUFFER_LEN);
    var _ := child.OpenObj();
    var _ := WriteSockaddrBody(child, e, ip6);
    var _ := child.CloseObj();
    child.Shown();
    TypesSockaddrFits(e, ip6);
    ObjectRendering(MAX_BUFFER_LEN, TypesSockaddrFields(e, ip6));
    text := CString(childBuf[..]);
  }

  /** `jsonify_types_write_common`: the header every record writer of types.c opens with. */
  method WriteCommon(s: JsonBuffer, c: ElemCommon, eventId: nat, name: string) returns (total: nat)
    requires s.Valid() && NoNul(name) && INT_MIN <= c.recordType <= INT_MAX && eventId <= ULONG_MAX
    modifies s, s.buf
    ensures s.Valid() && s.buf == old(s.buf) && s.maxBufLen == old(s.maxBufLen)
    ensures Wrote(s.sink, old(s.sink), TypesCommonFields(c, eventId, name), total)
  {
    TypesKeys();
    ghost var p0 := s.sink;
    var n1 := s.WriteStr("record_name", name);
    ghost var p1 := s.sink;
    var n2 := s.WriteInt("record_type", c.recordType);
    ghost var p2 := s.sink;
    var n3 := WriteVersion(s, "record_version", c.version);
    ghost var p3 := s.sink;
    var n4 := s.WriteUlong("event_id", eventId);
    Chain4(p0, p1, p2, p3, s.sink, StrField("record_name", name), n1, IntField("record_type", c.recordType), n2,
      StrField("record_version", TruncatedVersionText(c.version)), n3, NatField("event_id", eventId), n4,
      TypesCommonFields(c, eventId, name));
    total := n1 + n2 + n3 + n4;
  }
}
