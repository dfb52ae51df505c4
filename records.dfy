/**
 * The fixed-layout records the kernel side emits (src/common/types.h) as the user-space JSON
 * writers read them, and the socket-address views they take of an `elem_sockaddr`. Multi-byte
 * fields are read in host order, little-endian as on x86-64.
 */
module Records {
  import opened Decimal
  import opened Hex
  import opened CStd

  /** 'ameb' read as a 32-bit integer. */
  const AMEBA_MAGIC: int := 0x616D6562

  const SOCKADDR_MAX_SIZE: nat := 128

  const AF_UNIX: nat := 1
  const AF_INET: nat := 2
  const AF_INET6: nat := 10
  const AF_NETLINK: nat := 16

  const BYTE_ORDER_NETWORK: int := 1
  const BYTE_ORDER_HOST: int := 2

  const RECORD_TYPE_NEW_PROCESS: int := 1
  const RECORD_TYPE_CRED: int := 2
  const RECORD_TYPE_NAMESPACE: int := 3
  const RECORD_TYPE_CONNECT: int := 4
  const RECORD_TYPE_ACCEPT: int := 5
  const RECORD_TYPE_SEND: int := 6

  const SYS_ID_FORK: int := 1
  const SYS_ID_VFORK: int := 2
  const SYS_ID_CLONE: int := 3
  const SYS_ID_SETNS: int := 4
  const SYS_ID_UNSHARE: int := 5
  const SYS_ID_SENDTO: int := 6
  const SYS_ID_SENDMSG: int := 7
  const SYS_ID_RECVFROM: int := 8
  const SYS_ID_RECVMSG: int := 9

  /** `sizeof` of the record structs under the x86-64 System V layout. */
  const ELEM_COMMON_SIZE: nat := 12
  const RECORD_NEW_PROCESS_SIZE: nat := 40
  const RECORD_CRED_SIZE: nat := 64
  const RECORD_NAMESPACE_SIZE: nat := 56
  const RECORD_CONNECT_SIZE: nat := 312
  const RECORD_ACCEPT_SIZE: nat := 304
  const RECORD_SEND_SIZE: nat := 320

  /** `struct elem_version`: an unsigned short and two unsigned chars. */
  datatype ElemVersion = ElemVersion(major: nat, minor: nat, patch: nat)

  predicate ValidVersion(v: ElemVersion)
  {
    v.major <= UINT16_MAX && v.minor < 256 && v.patch < 256
  }

  /** `struct elem_common`, the header every record starts with. */
  datatype ElemCommon = ElemCommon(magic: int, recordType: int, version: ElemVersion)

  /** `struct elem_sockaddr`: the raw address bytes, the length the kernel reported and their byte order. */
  datatype ElemSockaddr = ElemSockaddr(addr: seq<byte>, addrlen: nat, byteOrder: int)

  predicate ValidSockaddr(e: ElemSockaddr)
  {
    |e.addr| == SOCKADDR_MAX_SIZE && e.addrlen <= SOCKADDR_MAX_SIZE
  }

  datatype RecordNewProcess = RecordNewProcess(common: ElemCommon, eventId: nat, ppid: int, pid: int, sysId: int)

  datatype RecordCred = RecordCred(
    common: ElemCommon, eventId: nat, pid: int, sysId: int,
    uid: nat, euid: nat, suid: nat, fsuid: nat, gid: nat, egid: nat, sgid: nat, fsgid: nat)

  datatype RecordNamespace = RecordNamespace(
    common: ElemCommon, eventId: nat, pid: int, sysId: int,
    nsIpc: nat, nsMnt: nat, nsPidChildren: nat, nsNet: nat, nsCgroup: nat, nsUsr: nat)

  datatype RecordConnect = RecordConnect(
    common: ElemCommon, eventId: nat, pid: int, fd: int, ret: int, local: ElemSockaddr, remote: ElemSockaddr)

  datatype RecordAccept = RecordAccept(
    common: ElemCommon, eventId: nat, pid: int, fd: int, local: ElemSockaddr, remote: ElemSockaddr)

  /** An unsigned 16-bit field read in host (little-endian) order. */
  function U16At(bs: seq<byte>, at: nat): (v: nat)
    requires at + 2 <= |bs|
    ensures v <= UINT16_MAX
  {
    bs[at] as int + 256 * bs[at + 1] as int
  }

  /** An unsigned 32-bit field read in host (little-endian) order. */
  function U32At(bs: seq<byte>, at: nat): (v: nat)
    requires at + 4 <= |bs|
    ensures v < 0x1_0000_0000
  {
    U16At(bs, at) + 0x1_0000 * U16At(bs, at + 2)
  }

  /** `ntohs`: swaps the two bytes of a 16-bit value (the host is little-endian). */
  function Ntohs(v: nat): (r: nat)
    requires v <= UINT16_MAX
    ensures r <= UINT16_MAX
  {
    (v % 256) * 256 + v / 256
  }

  /** Swapping twice gives the value back. */
  lemma NtohsInvolution(v: nat)
    requires v <= UINT16_MAX
    ensures Ntohs(Ntohs(v)) == v
  {
    var lo, hi := v % 256, v / 256;
    assert v == hi * 256 + lo;
    assert Ntohs(v) == lo * 256 + hi;
    assert (lo * 256 + hi) % 256 == hi && (lo * 256 + hi) / 256 == lo;
  }

  /** A port stored in network order, read in host order and swapped, is its big-endian value. */
  lemma NtohsReadsBigEndian(bs: seq<byte>, at: nat)
    requires at + 2 <= |bs|
    ensures Ntohs(U16At(bs, at)) == 256 * bs[at] as int + bs[at + 1] as int
  {
  }

  /** `sa_family`, the first field of every socket address. */
  function Family(e: ElemSockaddr): nat
    requires ValidSockaddr(e)
  {
    U16At(e.addr, 0)
  }

  /** `sin_port` / `sin6_port` as the writers first read it: host order. */
  function RawPort(e: ElemSockaddr): nat
    requires ValidSockaddr(e)
  {
    U16At(e.addr, 2)
  }

  /** The IP writers swap the port only for addresses recorded in network byte order. */
  function NetOrder(e: ElemSockaddr): bool
  {
    e.byteOrder == BYTE_ORDER_NETWORK
  }

  /** Four numbers in dotted decimal. */
  function DottedQuad(n0: nat, n1: nat, n2: nat, n3: nat): string
  {
    NatToString(n0) + ("." + (NatToString(n1) + ("." + (NatToString(n2) + ("." + NatToString(n3))))))
  }

  /** `inet_ntop(AF_INET, ...)`: the four address bytes in dotted decimal. */
  function Ipv4Text(e: ElemSockaddr): string
    requires ValidSockaddr(e)
  {
    DottedQuad(e.addr[4], e.addr[5], e.addr[6], e.addr[7])
  }

  /** Bytes read as characters. */
  function Chars(bs: seq<byte>): (s: string)
    ensures |s| == |bs| && forall i | 0 <= i < |bs| :: s[i] as int == bs[i]
  {
    seq(|bs|, i requires 0 <= i < |bs| => bs[i] as char)
  }

  /** The NUL-terminated string at `sun_path[start]` (`sun_path` begins at byte 2). */
  function UnixPath(e: ElemSockaddr, start: nat): (s: string)
    requires ValidSockaddr(e) && start <= 1
    ensures forall i | 0 <= i < |s| :: s[i] != '\0'
  {
    CString(Chars(e.addr[2 + start..]))
  }

  /** `"%u.%u.%u"` of a version. */
  function VersionText(v: ElemVersion): string
  {
    NatToString(v.major) + ("." + (NatToString(v.minor) + ("." + NatToString(v.patch))))
  }

  /** Two digit strings followed by a dot split the same way only if they are equal. */
  lemma DotSplit(a: string, b: string, c: string, d: string)
    requires AllDigits(a) && AllDigits(c) && a + ("." + b) == c + ("." + d)
    ensures a == c && b == d
  {
    var x := a + ("." + b);
    assert x[|a|] == '.' && x[|c|] == '.';
    assert forall i | 0 <= i < |a| :: x[i] == a[i] && IsDigit(x[i]);
    assert forall i | 0 <= i < |c| :: x[i] == c[i] && IsDigit(x[i]);
    assert |a| == |c|;
    assert a == x[..|a|] == c;
    assert b == x[|a| + 1..] == d;
  }

  /** Distinct versions render differently: the text determines the version. */
  lemma VersionTextInjective(v: ElemVersion, w: ElemVersion)
    requires VersionText(v) == VersionText(w)
    ensures v == w
  {
    DotSplit(NatToString(v.major), NatToString(v.minor) + ("." + NatToString(v.patch)),
      NatToString(w.major), NatToString(w.minor) + ("." + NatToString(w.patch)));
    DotSplit(NatToString(v.minor), NatToString(v.patch), NatToString(w.minor), NatToString(w.patch));
    NatToStringInjective(v.major, w.major);
    NatToStringInjective(v.minor, w.minor);
    NatToStringInjective(v.patch, w.patch);
  }

  /** The dotted-decimal text determines the four numbers. */
  lemma DottedQuadInjective(n0: nat, n1: nat, n2: nat, n3: nat, m0: nat, m1: nat, m2: nat, m3: nat)
    requires DottedQuad(n0, n1, n2, n3) == DottedQuad(m0, m1, m2, m3)
    ensures n0 == m0 && n1 == m1 && n2 == m2 && n3 == m3
  {
    var a1, a2, a3 := NatToString(n1), NatToString(n2), NatToString(n3);
    var b1, b2, b3 := NatToString(m1), NatToString(m2), NatToString(m3);
    DotSplit(NatToString(n0), a1 + ("." + (a2 + ("." + a3))), NatToString(m0), b1 + ("." + (b2 + ("." + b3))));
    DotSplit(a1, a2 + ("." + a3), b1, b2 + ("." + b3));
    DotSplit(a2, a3, b2, b3);
    NatToStringInjective(n0, m0);
    NatToStringInjective(n1, m1);
    NatToStringInjective(n2, m2);
    NatToStringInjective(n3, m3);
  }

  /** Distinct IPv4 addresses render differently. */
  lemma Ipv4TextInjective(e: ElemSockaddr, f: ElemSockaddr)
    requires ValidSockaddr(e) && ValidSockaddr(f) && Ipv4Text(e) == Ipv4Text(f)
    ensures e.addr[4..8] == f.addr[4..8]
  {
    DottedQuadInjective(e.addr[4], e.addr[5], e.addr[6], e.addr[7], f.addr[4], f.addr[5], f.addr[6], f.addr[7]);
    assert e.addr[4..8] == [e.addr[4], e.addr[5], e.addr[6], e.addr[7]];
    assert f.addr[4..8] == [f.addr[4], f.addr[5], f.addr[6], f.addr[7]];
  }

  /** A signed 32-bit field in two's complement, host order. */
  function I32At(bs: seq<byte>, at: nat): (v: int)
    requires at + 4 <= |bs|
    ensures INT_MIN <= v <= INT_MAX
    ensures v >= 0 <==> U32At(bs, at) < 0x8000_0000
  {
    var u := U32At(bs, at);
    if u < 0x8000_0000 then u else u - 0x1_0000_0000
  }

  /** An unsigned 64-bit field, host order. */
  function U64At(bs: seq<byte>, at: nat): (v: nat)
    requires at + 8 <= |bs|
    ensures v <= ULONG_MAX
  {
    U32At(bs, at) + 0x1_0000_0000 * U32At(bs, at + 4)
  }

  /** `struct elem_common` at the start of a record: magic, record type, then the version bytes. */
  function DecodeCommon(bs: seq<byte>): (c: ElemCommon)
    requires ELEM_COMMON_SIZE <= |bs|
    ensures ValidVersion(c.version)
  {
    ElemCommon(I32At(bs, 0), I32At(bs, 4), ElemVersion(U16At(bs, 8), bs[10], bs[11]))
  }

  /** `struct elem_sockaddr` (136 bytes) at offset `at`: the address array, `addrlen`, `byte_order`. */
  function DecodeSockaddr(bs: seq<byte>, at: nat): (e: ElemSockaddr)
    requires at + 136 <= |bs|
    ensures |e.addr| == SOCKADDR_MAX_SIZE
  {
    ElemSockaddr(bs[at..at + 128], U32At(bs, at + 128), I32At(bs, at + 132))
  }

  /** `struct record_new_process`: `e_ts` at 16, then `ppid`, `pid`, `sys_id`. */
  function DecodeNewProcess(bs: seq<byte>): (r: RecordNewProcess)
    requires |bs| == RECORD_NEW_PROCESS_SIZE
    ensures ValidVersion(r.common.version) && r.eventId <= ULONG_MAX
    ensures INT_MIN <= r.ppid <= INT_MAX && INT_MIN <= r.pid <= INT_MAX && INT_MIN <= r.sysId <= INT_MAX
  {
    RecordNewProcess(DecodeCommon(bs), U64At(bs, 16), I32At(bs, 24), I32At(bs, 28), I32At(bs, 32))
  }

  /** `struct record_cred`: `pid`, `sys_id` and the eight ids from offset 24. */
  function DecodeCred(bs: seq<byte>): (r: RecordCred)
    requires |bs| == RECORD_CRED_SIZE
    ensures ValidVersion(r.common.version) && r.eventId <= ULONG_MAX
    ensures INT_MIN <= r.pid <= INT_MAX && INT_MIN <= r.sysId <= INT_MAX
    ensures r.uid < 0x1_0000_0000 && r.euid < 0x1_0000_0000 && r.suid < 0x1_0000_0000 && r.fsuid < 0x1_0000_0000
    ensures r.gid < 0x1_0000_0000 && r.egid < 0x1_0000_0000 && r.sgid < 0x1_0000_0000 && r.fsgid < 0x1_0000_0000
  {
    RecordCred(DecodeCommon(bs), U64At(bs, 16), I32At(bs, 24), I32At(bs, 28),
      U32At(bs, 32), U32At(bs, 36), U32At(bs, 40), U32At(bs, 44),
      U32At(bs, 48), U32At(bs, 52), U32At(bs, 56), U32At(bs, 60))
  }

  /** `struct record_namespace`: `pid`, `sys_id` and the six namespace inodes from offset 24. */
  function DecodeNamespace(bs: seq<byte>): (r: RecordNamespace)
    requires |bs| == RECORD_NAMESPACE_SIZE
    ensures ValidVersion(r.common.version) && r.eventId <= ULONG_MAX
    ensures INT_MIN <= r.pid <= INT_MAX && INT_MIN <= r.sysId <= INT_MAX
    ensures r.nsIpc < 0x1_0000_0000 && r.nsMnt < 0x1_0000_0000 && r.nsPidChildren < 0x1_0000_0000
    ensures r.nsNet < 0x1_0000_0000 && r.nsCgroup < 0x1_0000_0000 && r.nsUsr < 0x1_0000_0000
  {
    RecordNamespace(DecodeCommon(bs), U64At(bs, 16), I32At(bs, 24), I32At(bs, 28),
      U32At(bs, 32), U32At(bs, 36), U32At(bs, 40), U32At(bs, 44), U32At(bs, 48), U32At(bs, 52))
  }

  /** `struct record_connect`: `pid`, `fd`, `ret`, then the local and remote addresses at 36 and 172. */
  function DecodeConnect(bs: seq<byte>): (r: RecordConnect)
    requires |bs| == RECORD_CONNECT_SIZE
    ensures |r.local.addr| == SOCKADDR_MAX_SIZE && |r.remote.addr| == SOCKADDR_MAX_SIZE
  {
    RecordConnect(DecodeCommon(bs), U64At(bs, 16), I32At(bs, 24), I32At(bs, 28), I32At(bs, 32),
      DecodeSockaddr(bs, 36), DecodeSockaddr(bs, 172))
  }

  /** `struct record_accept`: `pid`, `fd`, then the local and remote addresses at 32 and 168. */
  function DecodeAccept(bs: seq<byte>): (r: RecordAccept)
    requires |bs| == RECORD_ACCEPT_SIZE
    ensures |r.local.addr| == SOCKADDR_MAX_SIZE && |r.remote.addr| == SOCKADDR_MAX_SIZE
  {
    RecordAccept(DecodeCommon(bs), U64At(bs, 16), I32At(bs, 24), I32At(bs, 28),
      DecodeSockaddr(bs, 32), DecodeSockaddr(bs, 168))
  }
}
