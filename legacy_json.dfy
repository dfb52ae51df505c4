/**
 * `record_data_to_json` of src/jsonify_record.c, the older record renderer: the same
 * `str_buffer_state` writer, a header of type name, type id and event id, and connect as the only
 * record type it knows. Its record layout is the older one of src/record.h.
 */
module LegacyJson {
  import opened Wrappers
  import opened Hex
  import opened CStd
  import opened BoundedText
  import opened JsonText
  import opened Records
  import opened StrJson
  import opened RecordJson

  /** `sizeof(int)`: the record type every record starts with. */
  const INT_SIZE: nat := 4

  /** `sizeof(struct record_connect)` of src/record.h: 16-byte header, three ints, two 132-byte addresses, padding. */
  const LEGACY_CONNECT_SIZE: nat := 296

  /** The older `struct elem_sockaddr`: the 128 address bytes and a signed `addrlen`. */
  datatype LegacySockaddr = LegacySockaddr(addr: seq<byte>, addrlen: int)

  /** The older `struct record_connect`, its `elem_common` flattened into type id and event id. */
  datatype LegacyConnect = LegacyConnect(
    recordType: int, eventId: nat, pid: int, fd: int, ret: int, local: LegacySockaddr, remote: LegacySockaddr)

  /** An address the writers can dump: a full array and a length within it. */
  predicate LenFits(e: LegacySockaddr)
  {
    |e.addr| == SOCKADDR_MAX_SIZE && 0 <= e.addrlen <= SOCKADDR_MAX_SIZE
  }

  /** The address in the form the shared sub-object writer takes; the older struct has no byte order. */
  function AsElem(e: LegacySockaddr): (r: ElemSockaddr)
    requires LenFits(e)
    ensures ValidSockaddr(r) && r.addr == e.addr && r.addrlen == e.addrlen
  {
    ElemSockaddr(e.addr, e.addrlen, BYTE_ORDER_HOST)
  }

  /** `struct elem_sockaddr` (132 bytes) at offset `at`. */
  function DecodeLegacySockaddr(bs: seq<byte>, at: nat): (e: LegacySockaddr)
    requires at + 132 <= |bs|
    ensures |e.addr| == SOCKADDR_MAX_SIZE
  {
    LegacySockaddr(bs[at..at + 128], I32At(bs, at + 128))
  }

  /** The record: type id at 0, event id at 8, `pid`, `fd`, `ret` from 16, the addresses at 28 and 160. */
  function DecodeLegacyConnect(bs: seq<byte>): (r: LegacyConnect)
    requires |bs| == LEGACY_CONNECT_SIZE
    ensures r.recordType == I32At(bs, 0)
    ensures |r.local.addr| == SOCKADDR_MAX_SIZE && |r.remote.addr| == SOCKADDR_MAX_SIZE
  {
    LegacyConnect(I32At(bs, 0), U64At(bs, 8), I32At(bs, 16), I32At(bs, 20), I32At(bs, 24),
      DecodeLegacySockaddr(bs, 28), DecodeLegacySockaddr(bs, 160))
  }

  /** `str_buffer_state_json_write_elem_common` of the older writer: `type_name`, `type_id`, `event_id`. */
  function LegacyCommonFields(recordType: int, eventId: nat, name: string): seq<seq<string>>
  {
    [StrField("type_name", name)] + [IntField("type_id", recordType)] + [NatField("event_id", eventId)]
  }

  /**
   * `record_connect_to_json`: the header, `fd`, `ret`, `pid`, then the local address with its port
   * as stored and the remote address with its port through `ntohs`.
   */
  function LegacyConnectFields(r: LegacyConnect, envs: AddrEnvs): seq<seq<string>>
    requires LenFits(r.local) && LenFits(r.remote)
  {
    LegacyCommonFields(r.recordType, r.eventId, "record_connect")
      + [IntField("fd", r.fd)] + [IntField("ret", r.ret)] + [IntField("pid", r.pid)]
      + SockaddrField("local", AsElem(r.local), false, envs.local)
      + SockaddrField("remote", AsElem(r.remote), true, envs.remote)
  }

  /** The fields of a connect record lie in the ranges of their C types. */
  predicate LegacyFits(r: LegacyConnect)
  {
    INT_MIN <= r.recordType <= INT_MAX && r.eventId <= ULONG_MAX
    && INT_MIN <= r.pid <= INT_MAX && INT_MIN <= r.fd <= INT_MAX && INT_MIN <= r.ret <= INT_MAX
    && |r.local.addr| == SOCKADDR_MAX_SIZE && |r.remote.addr| == SOCKADDR_MAX_SIZE
  }

  /** The keys the older writer passes are C strings. */
  lemma LegacyKeys()
    ensures NoNul("type_name") && NoNul("type_id") && NoNul("event_id")
    ensures NoNul("fd") && NoNul("ret") && NoNul("pid") && NoNul("local") && NoNul("remote")
    ensures NoNul("record_connect")
  {
  }

  /** The older `str_buffer_state_json_write_elem_common`. */
  method WriteLegacyCommon(s: StrBuffer, recordType: int, eventId: nat, name: string) returns (total: nat)
    requires s.Valid() && NoNul(name) && INT_MIN <= recordType <= INT_MAX && eventId <= ULONG_MAX
    modifies s, s.buf
    ensures s.Valid() && s.buf == old(s.buf) && s.maxBufLen == old(s.maxBufLen)
    ensures Wrote(s.sink, old(s.sink), LegacyCommonFields(recordType, eventId, name), total)
  {
    LegacyKeys();
    ghost var p0 := s.sink;
    var n1 := s.WriteStr("type_name", name);
    ghost var p1 := s.sink;
    var n2 := s.WriteInt("type_id", recordType);
    ghost var p2 := s.sink;
    var n3 := s.WriteUlong("event_id", eventId);
    Chain3(p0, p1, p2, s.sink, StrField("type_name", name), n1, IntField("type_id", recordType), n2,
      NatField("event_id", eventId), n3, LegacyCommonFields(recordType, eventId, name));
    total := n1 + n2 + n3;
  }

  /** The writes of the older `record_connect_to_json`, step by step, make up its field list. */
  lemma LegacyConnectSteps(r: LegacyConnect, envs: AddrEnvs, p0: Sink, p1: Sink, p2: Sink, p3: Sink,
                           p4: Sink, p5: Sink, p6: Sink, n1: int, n2: int, n3: int, n4: int, n5: int, n6: int)
    requires LenFits(r.local) && LenFits(r.remote)
    requires Wrote(p1, p0, LegacyCommonFields(r.recordType, r.eventId, "record_connect"), n1)
    requires p2 == WriteField(p1, IntField("fd", r.fd)) && n2 == FieldReturned(p1, IntField("fd", r.fd))
    requires p3 == WriteField(p2, IntField("ret", r.ret)) && n3 == FieldReturned(p2, IntField("ret", r.ret))
    requires p4 == WriteField(p3, IntField("pid", r.pid)) && n4 == FieldReturned(p3, IntField("pid", r.pid))
    requires Wrote(p5, p4, SockaddrField("local", AsElem(r.local), false, envs.local), n5)
    requires Wrote(p6, p5, SockaddrField("remote", AsElem(r.remote), true, envs.remote), n6)
    ensures Wrote(p6, p0, LegacyConnectFields(r, envs), n1 + n2 + n3 + n4 + n5 + n6)
  {
    var acc := LegacyCommonFields(r.recordType, r.eventId, "record_connect");
    WroteSnoc(p0, p1, p2, acc, n1, IntField("fd", r.fd), n2);
    acc := acc + [IntField("fd", r.fd)];
    WroteSnoc(p0, p2, p3, acc, n1 + n2, IntField("ret", r.ret), n3);
    acc := acc + [IntField("ret", r.ret)];
    WroteSnoc(p0, p3, p4, acc, n1 + n2 + n3, IntField("pid", r.pid), n4);
    acc := acc + [IntField("pid", r.pid)];
    WroteAppend(p0, p4, p5, acc, n1 + n2 + n3 + n4, SockaddrField("local", AsElem(r.local), false, envs.local), n5);
    acc := acc + SockaddrField("local", AsElem(r.local), false, envs.local);
    WroteAppend(p0, p5, p6, acc, n1 + n2 + n3 + n4 + n5, SockaddrField("remote", AsElem(r.remote), true, envs.remote), n6);
  }

  /** The keyed writes of the older `record_connect_to_json`, in its order. */
  method WriteLegacyConnect(s: StrBuffer, r: LegacyConnect, envs: AddrEnvs) returns (total: nat)
    requires s.Valid() && LegacyFits(r) && LenFits(r.local) && LenFits(r.remote) && ValidEnvs(envs)
    modifies s, s.buf
    ensures s.Valid() && s.buf == old(s.buf) && s.maxBufLen == old(s.maxBufLen)
    ensures Wrote(s.sink, old(s.sink), LegacyConnectFields(r, envs), total)
  {
    LegacyKeys();
    ghost var p0 := s.sink;
    var n1 := WriteLegacyCommon(s, r.recordType, r.eventId, "record_connect");
    ghost var p1 := s.sink;
    var n2 := s.WriteInt("fd", r.fd);
    ghost var p2 := s.sink;
    var n3 := s.WriteInt("ret", r.ret);
    ghost var p3 := s.sink;
    var n4 := s.WriteInt("pid", r.pid);
    ghost var p4 := s.sink;
    var n5 := s.WriteElemSockaddr("local", AsElem(r.local), false, envs.local);
    ghost var p5 := s.sink;
    var n6 := s.WriteElemSockaddr("remote", AsElem(r.remote), true, envs.remote);
    total := n1 + n2 + n3 + n4 + n5 + n6;
    LegacyConnectSteps(r, envs, p0, p1, p2, p3, p4, p5, s.sink, n1, n2, n3, n4, n5, n6);
  }

  /** The older `record_connect_to_json`: the object opened, the fields, the object closed. */
  method RenderLegacyConnect(dst: array<char>, r: LegacyConnect, envs: AddrEnvs) returns (total: nat)
    requires 1 <= dst.Length <= 0x8000_0000
    requires LegacyFits(r) && LenFits(r.local) && LenFits(r.remote) && ValidEnvs(envs)
    modifies dst
    ensures Rendered(dst[..], total, LegacyConnectFields(r, envs))
  {
    var s := OpenRecord(dst);
    ghost var p0 := s.sink;
    total := WriteLegacyConnect(s, r, envs);
    CloseRecord(s, p0, LegacyConnectFields(r, envs), total);
  }

  /**
   * The guards of `record_data_to_json`, in its order: -1 no destination, -2 an empty one, -3 no
   * data, -4 empty data, -5 shorter than the record type, -6 a connect of the wrong size, -7 any
   * other type; only a connect record of its exact size is decoded.
   */
  function LegacyClassify(dstNull: bool, dstLen: nat, data: Option<seq<byte>>): (r: Result<LegacyConnect, int>)
    ensures r == Err(-1) <==> dstNull
    ensures r == Err(-2) <==> !dstNull && dstLen == 0
    ensures r == Err(-3) <==> !dstNull && dstLen > 0 && data.None?
    ensures r == Err(-4) <==> !dstNull && dstLen > 0 && data.Some? && data.value == []
    ensures r == Err(-5) <==> !dstNull && dstLen > 0 && data.Some? && 0 < |data.value| < INT_SIZE
    ensures r == Err(-6) <==>
      !dstNull && dstLen > 0 && data.Some? && INT_SIZE <= |data.value|
      && I32At(data.value, 0) == RECORD_TYPE_CONNECT && |data.value| != LEGACY_CONNECT_SIZE
    ensures r == Err(-7) <==>
      !dstNull && dstLen > 0 && data.Some? && INT_SIZE <= |data.value| && I32At(data.value, 0) != RECORD_TYPE_CONNECT
    ensures r.Ok? <==>
      !dstNull && dstLen > 0 && data.Some? && |data.value| == LEGACY_CONNECT_SIZE
      && I32At(data.value, 0) == RECORD_TYPE_CONNECT
    ensures r.Ok? ==> LegacyFits(r.value) && r.value.recordType == RECORD_TYPE_CONNECT
  {
    if dstNull then Err(-1)
    else if dstLen == 0 then Err(-2)
    else if data.None? then Err(-3)
    else if |data.value| == 0 then Err(-4)
    else if |data.value| < INT_SIZE then Err(-5)
    else if I32At(data.value, 0) == RECORD_TYPE_CONNECT then
      if |data.value| != LEGACY_CONNECT_SIZE then Err(-6) else Ok(DecodeLegacyConnect(data.value))
    else Err(-7)
  }

  /**
   * `record_data_to_json`: the guards, then the connect writer, whose sum of returns is the
   * result; nothing is written when a guard fails.
   */
  method LegacyRecordDataToJson(dst: array?<char>, dstLen: nat, data: Option<seq<byte>>, envs: AddrEnvs)
    returns (r: int)
    requires dst != null ==> dst.Length == dstLen <= 0x8000_0000
    requires ValidEnvs(envs)
    requires LegacyClassify(dst == null, dstLen, data).Ok? ==>
      LenFits(LegacyClassify(dst == null, dstLen, data).value.local)
      && LenFits(LegacyClassify(dst == null, dstLen, data).value.remote)
    modifies dst
    ensures var c := LegacyClassify(dst == null, dstLen, data);
      && (c.Err? ==> r == c.error < 0 && (dst != null ==> dst[..] == old(dst[..])))
      && (c.Ok? ==> dst != null && 0 <= r && Rendered(dst[..], r, LegacyConnectFields(c.value, envs)))
  {
    var c := LegacyClassify(dst == null, dstLen, data);
    if c.Err? {
      return c.error;
    }
    r := RenderLegacyConnect(dst, c.value, envs);
  }

  lemma LegacyConnectKeyed(r: LegacyConnect, envs: AddrEnvs)
    requires LenFits(r.local) && LenFits(r.remote)
    ensures Keyed(LegacyConnectFields(r, envs))
  {
    var a := LegacyCommonFields(r.recordType, r.eventId, "record_connect");
    KeyedSnoc(a, IntField("fd", r.fd));
    a := a + [IntField("fd", r.fd)];
    KeyedSnoc(a, IntField("ret", r.ret));
    a := a + [IntField("ret", r.ret)];
    KeyedSnoc(a, IntField("pid", r.pid));
    a := a + [IntField("pid", r.pid)];
    SockaddrKeyed("local", AsElem(r.local), false, envs.local);
    KeyedJoin(a, SockaddrField("local", AsElem(r.local), false, envs.local));
    a := a + SockaddrField("local", AsElem(r.local), false, envs.local);
    SockaddrKeyed("remote", AsElem(r.remote), true, envs.remote);
    KeyedJoin(a, SockaddrField("remote", AsElem(r.remote), true, envs.remote));
  }

  /**
   * What the older renderer leaves in the buffer: the whole connect object when it fits with a
   * byte to spare, the result then being its length between the braces; a prefix of it otherwise.
   */
  lemma LegacyRendering(out: seq<char>, total: int, r: LegacyConnect, envs: AddrEnvs)
    requires LenFits(r.local) && LenFits(r.remote) && |out| >= 2 && Rendered(out, total, LegacyConnectFields(r, envs))
    ensures |ObjectText(LegacyConnectFields(r, envs))| < |out| - 1 ==>
      CString(out) == ObjectText(LegacyConnectFields(r, envs)) && total == |ObjectText(LegacyConnectFields(r, envs))| - 2
    ensures CString(out) <= ObjectText(LegacyConnectFields(r, envs))
  {
    LegacyConnectKeyed(r, envs);
    RenderedObject(out, total, LegacyConnectFields(r, envs));
  }
}
