/**
 * `jsonify_record_data_to_json` of src/user/jsonify.c: the guards that decide whether a byte
 * buffer is a record it can render, and the five record writers that render one as a JSON object
 * into the caller's buffer through a `str_buffer_state`.
 */
module RecordJson {
  import opened Wrappers
  import opened Decimal
  import opened Hex
  import opened CStd
  import opened BoundedText
  import opened JsonText
  import opened Records
  import opened StrJson

  /** The error codes of src/user/error.h and of the data converter's header. */
  const ERR_DST_INVALID: int := -1
  const ERR_DST_INSUFFICIENT: int := -2
  const ERR_DATA_INVALID: int := -3
  const ERR_DATA_INVALID_HEADER: int := -4
  const ERR_DATA_INVALID_MAGIC: int := -5
  const ERR_DATA_SIZE_MISMATCH: int := -6
  const ERR_DATA_UNKNOWN: int := -7

  /** What `malloc` and `inet_ntop` do for the local and the remote address of a record. */
  datatype AddrEnvs = AddrEnvs(local: AddrEnv, remote: AddrEnv)

  predicate ValidEnvs(envs: AddrEnvs)
  {
    ValidIp6(envs.local.ip6) && ValidIp6(envs.remote.ip6)
  }

  /** `elem_common` then `elem_timestamp`, the fields every record opens with. */
  function HeaderFields(c: ElemCommon, name: string, eventId: nat): seq<seq<string>>
  {
    CommonFields(c, name) + TimestampFields(eventId)
  }

  function ConnectFields(r: RecordConnect, envs: AddrEnvs): seq<seq<string>>
    requires ValidSockaddr(r.local) && ValidSockaddr(r.remote)
  {
    HeaderFields(r.common, "record_connect", r.eventId)
      + [IntField("pid", r.pid)] + [IntField("fd", r.fd)] + [IntField("ret", r.ret)]
      + SockaddrField("local", r.local, NetOrder(r.local), envs.local)
      + SockaddrField("remote", r.remote, NetOrder(r.remote), envs.remote)
  }

  function AcceptFields(r: RecordAccept, envs: AddrEnvs): seq<seq<string>>
    requires ValidSockaddr(r.local) && ValidSockaddr(r.remote)
  {
    HeaderFields(r.common, "record_accept", r.eventId)
      + [IntField("pid", r.pid)] + [IntField("fd", r.fd)]
      + SockaddrField("local", r.local, NetOrder(r.local), envs.local)
      + SockaddrField("remote", r.remote, NetOrder(r.remote), envs.remote)
  }

  /** The six namespace inodes of `record_namespace_to_json`, each `%u`. */
  function NamespaceIdFields(r: RecordNamespace): seq<seq<string>>
  {
    [NatField("ns_ipc", r.nsIpc)] + [NatField("ns_mnt", r.nsMnt)] + [NatField("ns_pid_children", r.nsPidChildren)]
      + [NatField("ns_net", r.nsNet)] + [NatField("ns_cgroup", r.nsCgroup)] + [NatField("ns_usr", r.nsUsr)]
  }

  function NamespaceFields(r: RecordNamespace): seq<seq<string>>
  {
    HeaderFields(r.common, "record_namespace", r.eventId)
      + [IntField("pid", r.pid)] + [StrField("sys_id", SysIdName(r.sysId))] + NamespaceIdFields(r)
  }

  function NewProcessFields(r: RecordNewProcess): seq<seq<string>>
  {
    HeaderFields(r.common, "record_new_process", r.eventId)
      + [IntField("pid", r.pid)] + [IntField("ppid", r.ppid)] + [StrField("sys_id", SysIdName(r.sysId))]
  }

  /** The user ids of `record_cred_to_json`, each `%u`. */
  function UidFields(r: RecordCred): seq<seq<string>>
  {
    [NatField("uid", r.uid)] + [NatField("euid", r.euid)] + [NatField("suid", r.suid)] + [NatField("fsuid", r.fsuid)]
  }

  /** The group ids of `record_cred_to_json`, each `%u`. */
  function GidFields(r: RecordCred): seq<seq<string>>
  {
    [NatField("gid", r.gid)] + [NatField("egid", r.egid)] + [NatField("sgid", r.sgid)] + [NatField("fsgid", r.fsgid)]
  }

  function CredFields(r: RecordCred): seq<seq<string>>
  {
    HeaderFields(r.common, "record_cred", r.eventId)
      + [IntField("pid", r.pid)] + [StrField("sys_id", SysIdName(r.sysId))] + UidFields(r) + GidFields(r)
  }

  /**
   * A record writer's outcome in a buffer of `|out|` bytes: it returns the sum over its keyed
   * writes, and the buffer read as a C string shows what the bounded appends left.
   */
  ghost predicate Rendered(out: seq<char>, total: int, fields: seq<seq<string>>)
    requires |out| >= 1
  {
    total == FieldsReturned(Opened(|out|), fields)
    && (|out| >= 2 ==> CString(out) == ObjectSink(|out|, fields).text + ObjectSink(|out|, fields).spill)
  }

  /**
   * What a rendered record means: the whole object when it fits with a byte to spare, the writers
   * then returning the length of its text between the braces; otherwise a prefix of it.
   */
  lemma RenderedObject(out: seq<char>, total: int, fields: seq<seq<string>>)
    requires |out| >= 2 && Keyed(fields) && Rendered(out, total, fields)
    ensures |ObjectText(fields)| < |out| - 1 ==> CString(out) == ObjectText(fields) && total == |ObjectText(fields)| - 2
    ensures CString(out) <= ObjectText(fields)
  {
    KeyedNonEmpty(fields);
    ObjectRendering(|out|, fields);
  }

  /** The keys and names the socket record writers pass are C strings. */
  lemma RecordKeys()
    ensures NoNul("pid") && NoNul("fd") && NoNul("ret") && NoNul("local") && NoNul("remote")
    ensures NoNul("record_connect") && NoNul("record_accept")
  {
  }

  /** The keys and names the process record writers pass are C strings. */
  lemma ProcessKeys()
    ensures NoNul("pid") && NoNul("ppid") && NoNul("sys_id")
    ensures NoNul("record_new_process") && NoNul("record_namespace") && NoNul("record_cred")
  {
  }

  /** The namespace inode keys are C strings. */
  lemma NamespaceKeys()
    ensures NoNul("ns_ipc") && NoNul("ns_mnt") && NoNul("ns_pid_children")
    ensures NoNul("ns_net") && NoNul("ns_cgroup") && NoNul("ns_usr")
  {
  }

  /** The credential keys are C strings. */
  lemma CredKeys()
    ensures NoNul("uid") && NoNul("euid") && NoNul("suid") && NoNul("fsuid")
    ensures NoNul("gid") && NoNul("egid") && NoNul("sgid") && NoNul("fsgid")
  {
  }

  /** `str_buffer_state_init_json_obj_from_existing_buffer` and `..._json_obj_open` on `dst`. */
  method OpenRecord(dst: array<char>) returns (s: StrBuffer)
    requires 1 <= dst.Length <= 0x8000_0000
    modifies dst
    ensures fresh(s) && s.Valid() && s.buf == dst && s.maxBufLen == dst.Length - 1
    ensures s.sink == Opened(dst.Length)
  {
    s := new StrBuffer.Init(dst, dst.Length);
    var _ := s.ObjOpen();
  }

  /** `str_buffer_state_json_obj_close`, after which the buffer shows the rendered record. */
  method CloseRecord(s: StrBuffer, ghost start: Sink, ghost fields: seq<seq<string>>, ghost total: nat)
    requires s.Valid() && 1 <= s.buf.Length && start == Opened(s.buf.Length)
    requires Wrote(s.sink, start, fields, total)
    modifies s, s.buf
    ensures s.Valid() && s.buf == old(s.buf) && s.maxBufLen == old(s.maxBufLen)
    ensures Rendered(s.buf[..], total, fields)
  {
    var _ := s.ObjClose();
    if s.maxBufLen > 0 {
      s.Shown();
    }
  }

  /** `elem_common` then `elem_timestamp`, as every record writer opens. */
  method WriteHeader(s: StrBuffer, c: ElemCommon, name: string, eventId: nat) returns (total: nat)
    requires s.Valid() && NoNul(name) && INT_MIN <= c.recordType <= INT_MAX && eventId <= ULONG_MAX
    modifies s, s.buf
    ensures s.Valid() && s.buf == old(s.buf) && s.maxBufLen == old(s.maxBufLen)
    ensures Wrote(s.sink, old(s.sink), HeaderFields(c, name, eventId), total)
  {
    ghost var p0 := s.sink;
    var n1 := s.WriteElemCommon(c, name);
    ghost var p1 := s.sink;
    var n2 := s.WriteElemTimestamp(eventId);
    WroteAppend(p0, p1, s.sink, CommonFields(c, name), n1, TimestampFields(eventId), n2);
    total := n1 + n2;
  }

  /** The writes of `record_connect_to_json`, step by step, make up its field list. */
  lemma ConnectSteps(r: RecordConnect, envs: AddrEnvs, p0: Sink, p2: Sink, p3: Sink, p4: Sink,
                     p5: Sink, p6: Sink, p7: Sink, n2: int, n3: int, n4: int, n5: int, n6: int, n7: int)
    requires ValidSockaddr(r.local) && ValidSockaddr(r.remote)
    requires Wrote(p2, p0, HeaderFields(r.common, "record_connect", r.eventId), n2)
    requires p3 == WriteField(p2, IntField("pid", r.pid)) && n3 == FieldReturned(p2, IntField("pid", r.pid))
    requires p4 == WriteField(p3, IntField("fd", r.fd)) && n4 == FieldReturned(p3, IntField("fd", r.fd))
    requires p5 == WriteField(p4, IntField("ret", r.ret)) && n5 == FieldReturned(p4, IntField("ret", r.ret))
    requires Wrote(p6, p5, SockaddrField("local", r.local, NetOrder(r.local), envs.local), n6)
    requires Wrote(p7, p6, SockaddrField("remote", r.remote, NetOrder(r.remote), envs.remote), n7)
    ensures Wrote(p7, p0, ConnectFields(r, envs), n2 + n3 + n4 + n5 + n6 + n7)
  {
    var acc := HeaderFields(r.common, "record_connect", r.eventId);
    WroteSnoc(p0, p2, p3, acc, n2, IntField("pid", r.pid), n3);
    acc := acc + [IntField("pid", r.pid)];
    WroteSnoc(p0, p3, p4, acc, n2 + n3, IntField("fd", r.fd), n4);
    acc := acc + [IntField("fd", r.fd)];
    WroteSnoc(p0, p4, p5, acc, n2 + n3 + n4, IntField("ret", r.ret), n5);
    acc := acc + [IntField("ret", r.ret)];
    WroteAppend(p0, p5, p6, acc, n2 + n3 + n4 + n5, SockaddrField("local", r.local, NetOrder(r.local), envs.local), n6);
    acc := acc + SockaddrField("local", r.local, NetOrder(r.local), envs.local);
    WroteAppend(p0, p6, p7, acc, n2 + n3 + n4 + n5 + n6, SockaddrField("remote", r.remote, NetOrder(r.remote), envs.remote), n7);
  }

  /** The keyed writes of `record_connect_to_json`, in its order. */
  method WriteConnect(s: StrBuffer, r: RecordConnect, envs: AddrEnvs) returns (total: nat)
    requires s.Valid()
    requires INT_MIN <= r.common.recordType <= INT_MAX && r.eventId <= ULONG_MAX
    requires INT_MIN <= r.pid <= INT_MAX && INT_MIN <= r.fd <= INT_MAX && INT_MIN <= r.ret <= INT_MAX
    requires ValidSockaddr(r.local) && ValidSockaddr(r.remote) && ValidEnvs(envs)
    modifies s, s.buf
    ensures s.Valid() && s.buf == old(s.buf) && s.maxBufLen == old(s.maxBufLen)
    ensures Wrote(s.sink, old(s.sink), ConnectFields(r, envs), total)
  {
    RecordKeys();
    ghost var p0 := s.sink;
    var n2 := WriteHeader(s, r.common, "record_connect", r.eventId);
    ghost var p2 := s.sink;
    var n3 := s.WriteInt("pid", r.pid);
    ghost var p3 := s.sink;
    var n4 := s.WriteInt("fd", r.fd);
    ghost var p4 := s.sink;
    var n5 := s.WriteInt("ret", r.ret);
    ghost var p5 := s.sink;
    var n6 := s.WriteElemSockaddr("local", r.local, NetOrder(r.local), envs.local);
    ghost var p6 := s.sink;
    var n7 := s.WriteElemSockaddr("remote", r.remote, NetOrder(r.remote), envs.remote);
    total := n2 + n3 + n4 + n5 + n6 + n7;
    ConnectSteps(r, envs, p0, p2, p3, p4, p5, p6, s.sink, n2, n3, n4, n5, n6, n7);
  }

  /** `record_connect_to_json`. */
  method RenderConnect(dst: array<char>, r: RecordConnect, envs: AddrEnvs) returns (total: nat)
    requires 1 <= dst.Length <= 0x8000_0000
    requires INT_MIN <= r.common.recordType <= INT_MAX && r.eventId <= ULONG_MAX
    requires INT_MIN <= r.pid <= INT_MAX && INT_MIN <= r.fd <= INT_MAX && INT_MIN <= r.ret <= INT_MAX
    requires ValidSockaddr(r.local) && ValidSockaddr(r.remote) && ValidEnvs(envs)
    modifies dst
    ensures Rendered(dst[..], total, ConnectFields(r, envs))
  {
    var s := OpenRecord(dst);
    ghost var p0 := s.sink;
    total := WriteConnect(s, r, envs);
    CloseRecord(s, p0, ConnectFields(r, envs), total);
  }

  /** The writes of `record_accept_to_json`, step by step, make up its field list. */
  lemma AcceptSteps(r: RecordAccept, envs: AddrEnvs, p0: Sink, p2: Sink, p3: Sink, p4: Sink, p5: Sink, p6: Sink,
                    n2: int, n3: int, n4: int, n5: int, n6: int)
    requires ValidSockaddr(r.local) && ValidSockaddr(r.remote)
    requires Wrote(p2, p0, HeaderFields(r.common, "record_accept", r.eventId), n2)
    requires p3 == WriteField(p2, IntField("pid", r.pid)) && n3 == FieldReturned(p2, IntField("pid", r.pid))
    requires p4 == WriteField(p3, IntField("fd", r.fd)) && n4 == FieldReturned(p3, IntField("fd", r.fd))
    requires Wrote(p5, p4, SockaddrField("local", r.local, NetOrder(r.local), envs.local), n5)
    requires Wrote(p6, p5, SockaddrField("remote", r.remote, NetOrder(r.remote), envs.remote), n6)
    ensures Wrote(p6, p0, AcceptFields(r, envs), n2 + n3 + n4 + n5 + n6)
  {
    var acc := HeaderFields(r.common, "record_accept", r.eventId);
    WroteSnoc(p0, p2, p3, acc, n2, IntField("pid", r.pid), n3);
    acc := acc + [IntField("pid", r.pid)];
    WroteSnoc(p0, p3, p4, acc, n2 + n3, IntField("fd", r.fd), n4);
    acc := acc + [IntField("fd", r.fd)];
    WroteAppend(p0, p4, p5, acc, n2 + n3 + n4, SockaddrField("local", r.local, NetOrder(r.local), envs.local), n5);
    acc := acc + SockaddrField("local", r.local, NetOrder(r.local), envs.local);
    WroteAppend(p0, p5, p6, acc, n2 + n3 + n4 + n5, SockaddrField("remote", r.remote, NetOrder(r.remote), envs.remote), n6);
  }

  /** The keyed writes of `record_accept_to_json`, in its order. */
  method WriteAccept(s: StrBuffer, r: RecordAccept, envs: AddrEnvs) returns (total: nat)
    requires s.Valid()
    requires INT_MIN <= r.common.recordType <= INT_MAX && r.eventId <= ULONG_MAX
    requires INT_MIN <= r.pid <= INT_MAX && INT_MIN <= r.fd <= INT_MAX
    requires ValidSockaddr(r.local) && ValidSockaddr(r.remote) && ValidEnvs(envs)
    modifies s, s.buf
    ensures s.Valid() && s.buf == old(s.buf) && s.maxBufLen == old(s.maxBufLen)
    ensures Wrote(s.sink, old(s.sink), AcceptFields(r, envs), total)
  {
    RecordKeys();
    ghost var p0 := s.sink;
    var n2 := WriteHeader(s, r.common, "record_accept", r.eventId);
    ghost var p2 := s.sink;
    var n3 := s.WriteInt("pid", r.pid);
    ghost var p3 := s.sink;
    var n4 := s.WriteInt("fd", r.fd);
    ghost var p4 := s.sink;
    var n5 := s.WriteElemSockaddr("local", r.local, NetOrder(r.local), envs.local);
    ghost var p5 := s.sink;
    var n6 := s.WriteElemSockaddr("remote", r.remote, NetOrder(r.remote), envs.remote);
    total := n2 + n3 + n4 + n5 + n6;
    AcceptSteps(r, envs, p0, p2, p3, p4, p5, s.sink, n2, n3, n4, n5, n6);
  }

  /** `record_accept_to_json`. */
  method RenderAccept(dst: array<char>, r: RecordAccept, envs: AddrEnvs) returns (total: nat)
    requires 1 <= dst.Length <= 0x8000_0000
    requires INT_MIN <= r.common.recordType <= INT_MAX && r.eventId <= ULONG_MAX
    requires INT_MIN <= r.pid <= INT_MAX && INT_MIN <= r.fd <= INT_MAX
    requires ValidSockaddr(r.local) && ValidSockaddr(r.remote) && ValidEnvs(envs)
    modifies dst
    ensures Rendered(dst[..], total, AcceptFields(r, envs))
  {
    var s := OpenRecord(dst);
    ghost var p0 := s.sink;
    total := WriteAccept(s, r, envs);
    CloseRecord(s, p0, AcceptFields(r, envs), total);
  }

  /** The writes of `record_new_process_to_json`, step by step, make up its field list. */
  lemma NewProcessSteps(r: RecordNewProcess, p0: Sink, p2: Sink, p3: Sink, p4: Sink, p5: Sink, n2: int, n3: int, n4: int, n5: int)
    requires Wrote(p2, p0, HeaderFields(r.common, "record_new_process", r.eventId), n2)
    requires p3 == WriteField(p2, IntField("pid", r.pid)) && n3 == FieldReturned(p2, IntField("pid", r.pid))
    requires p4 == WriteField(p3, IntField("ppid", r.ppid)) && n4 == FieldReturned(p3, IntField("ppid", r.ppid))
    requires p5 == WriteField(p4, StrField("sys_id", SysIdName(r.sysId)))
    requires n5 == FieldReturned(p4, StrField("sys_id", SysIdName(r.sysId)))
    ensures Wrote(p5, p0, NewProcessFields(r), n2 + n3 + n4 + n5)
  {
    var acc := HeaderFields(r.common, "record_new_process", r.eventId);
    WroteSnoc(p0, p2, p3, acc, n2, IntField("pid", r.pid), n3);
    acc := acc + [IntField("pid", r.pid)];
    WroteSnoc(p0, p3, p4, acc, n2 + n3, IntField("ppid", r.ppid), n4);
    acc := acc + [IntField("ppid", r.ppid)];
    WroteSnoc(p0, p4, p5, acc, n2 + n3 + n4, StrField("sys_id", SysIdName(r.sysId)), n5);
  }

  /** The keyed writes of `record_new_process_to_json`, in its order. */
  method WriteNewProcess(s: StrBuffer, r: RecordNewProcess) returns (total: nat)
    requires s.Valid()
    requires INT_MIN <= r.common.recordType <= INT_MAX && r.eventId <= ULONG_MAX
    requires INT_MIN <= r.pid <= INT_MAX && INT_MIN <= r.ppid <= INT_MAX
    modifies s, s.buf
    ensures s.Valid() && s.buf == old(s.buf) && s.maxBufLen == old(s.maxBufLen)
    ensures Wrote(s.sink, old(s.sink), NewProcessFields(r), total)
  {
    ProcessKeys();
    ghost var p0 := s.sink;
    var n2 := WriteHeader(s, r.common, "record_new_process", r.eventId);
    ghost var p2 := s.sink;
    var n3 := s.WriteInt("pid", r.pid);
    ghost var p3 := s.sink;
    var n4 := s.WriteInt("ppid", r.ppid);
    ghost var p4 := s.sink;
    var n5 := s.WriteSysId("sys_id", r.sysId);
    total := n2 + n3 + n4 + n5;
    NewProcessSteps(r, p0, p2, p3, p4, s.sink, n2, n3, n4, n5);
  }

  /** `record_new_process_to_json`. */
  method RenderNewProcess(dst: array<char>, r: RecordNewProcess) returns (total: nat)
    requires 1 <= dst.Length <= 0x8000_0000
    requires INT_MIN <= r.common.recordType <= INT_MAX && r.eventId <= ULONG_MAX
    requires INT_MIN <= r.pid <= INT_MAX && INT_MIN <= r.ppid <= INT_MAX
    modifies dst
    ensures Rendered(dst[..], total, NewProcessFields(r))
  {
    var s := OpenRecord(dst);
    ghost var p0 := s.sink;
    total := WriteNewProcess(s, r);
    CloseRecord(s, p0, NewProcessFields(r), total);
  }

  /** The six inode writes, step by step, make up their field list. */
  lemma NamespaceIdSteps(r: RecordNamespace, p0: Sink, p1: Sink, p2: Sink, p3: Sink, p4: Sink, p5: Sink, p6: Sink,
                         n1: int, n2: int, n3: int, n4: int, n5: int, n6: int)
    requires p1 == WriteField(p0, NatField("ns_ipc", r.nsIpc)) && n1 == FieldReturned(p0, NatField("ns_ipc", r.nsIpc))
    requires p2 == WriteField(p1, NatField("ns_mnt", r.nsMnt)) && n2 == FieldReturned(p1, NatField("ns_mnt", r.nsMnt))
    requires p3 == WriteField(p2, NatField("ns_pid_children", r.nsPidChildren))
    requires n3 == FieldReturned(p2, NatField("ns_pid_children", r.nsPidChildren))
    requires p4 == WriteField(p3, NatField("ns_net", r.nsNet)) && n4 == FieldReturned(p3, NatField("ns_net", r.nsNet))
    requires p5 == WriteField(p4, NatField("ns_cgroup", r.nsCgroup)) && n5 == FieldReturned(p4, NatField("ns_cgroup", r.nsCgroup))
    requires p6 == WriteField(p5, NatField("ns_usr", r.nsUsr)) && n6 == FieldReturned(p5, NatField("ns_usr", r.nsUsr))
    ensures Wrote(p6, p0, NamespaceIdFields(r), n1 + n2 + n3 + n4 + n5 + n6)
  {
    var acc := [NatField("ns_ipc", r.nsIpc)] + [NatField("ns_mnt", r.nsMnt)] + [NatField("ns_pid_children", r.nsPidChildren)]
      + [NatField("ns_net", r.nsNet)];
    Chain4(p0, p1, p2, p3, p4, NatField("ns_ipc", r.nsIpc), n1, NatField("ns_mnt", r.nsMnt), n2,
      NatField("ns_pid_children", r.nsPidChildren), n3, NatField("ns_net", r.nsNet), n4, acc);
    WroteSnoc(p0, p4, p5, acc, n1 + n2 + n3 + n4, NatField("ns_cgroup", r.nsCgroup), n5);
    WroteSnoc(p0, p5, p6, acc + [NatField("ns_cgroup", r.nsCgroup)], n1 + n2 + n3 + n4 + n5, NatField("ns_usr", r.nsUsr), n6);
  }

  /** The six inode writes of `record_namespace_to_json`. */
  method WriteNamespaceIds(s: StrBuffer, r: RecordNamespace) returns (total: nat)
    requires s.Valid()
    requires r.nsIpc < 0x1_0000_0000 && r.nsMnt < 0x1_0000_0000 && r.nsPidChildren < 0x1_0000_0000
    requires r.nsNet < 0x1_0000_0000 && r.nsCgroup < 0x1_0000_0000 && r.nsUsr < 0x1_0000_0000
    modifies s, s.buf
    ensures s.Valid() && s.buf == old(s.buf) && s.maxBufLen == old(s.maxBufLen)
    ensures Wrote(s.sink, old(s.sink), NamespaceIdFields(r), total)
  {
    NamespaceKeys();
    ghost var p0 := s.sink;
    var n1 := s.WriteUint("ns_ipc", r.nsIpc);
    ghost var p1 := s.sink;
    var n2 := s.WriteUint("ns_mnt", r.nsMnt);
    ghost var p2 := s.sink;
    var n3 := s.WriteUint("ns_pid_children", r.nsPidChildren);
    ghost var p3 := s.sink;
    var n4 := s.WriteUint("ns_net", r.nsNet);
    ghost var p4 := s.sink;
    var n5 := s.WriteUint("ns_cgroup", r.nsCgroup);
    ghost var p5 := s.sink;
    var n6 := s.WriteUint("ns_usr", r.nsUsr);
    NamespaceIdSteps(r, p0, p1, p2, p3, p4, p5, s.sink, n1, n2, n3, n4, n5, n6);
    total := n1 + n2 + n3 + n4 + n5 + n6;
  }

  /** The writes of `record_namespace_to_json`, step by step, make up its field list. */
  lemma NamespaceSteps(r: RecordNamespace, p0: Sink, p2: Sink, p3: Sink, p4: Sink, p5: Sink, n2: int, n3: int, n4: int, n5: int)
    requires Wrote(p2, p0, HeaderFields(r.common, "record_namespace", r.eventId), n2)
    requires p3 == WriteField(p2, IntField("pid", r.pid)) && n3 == FieldReturned(p2, IntField("pid", r.pid))
    requires p4 == WriteField(p3, StrField("sys_id", SysIdName(r.sysId)))
    requires n4 == FieldReturned(p3, StrField("sys_id", SysIdName(r.sysId)))
    requires Wrote(p5, p4, NamespaceIdFields(r), n5)
    ensures Wrote(p5, p0, NamespaceFields(r), n2 + n3 + n4 + n5)
  {
    var acc := HeaderFields(r.common, "record_namespace", r.eventId);
    WroteSnoc(p0, p2, p3, acc, n2, IntField("pid", r.pid), n3);
    acc := acc + [IntField("pid", r.pid)];
    WroteSnoc(p0, p3, p4, acc, n2 + n3, StrField("sys_id", SysIdName(r.sysId)), n4);
    acc := acc + [StrField("sys_id", SysIdName(r.sysId))];
    WroteAppend(p0, p4, p5, acc, n2 + n3 + n4, NamespaceIdFields(r), n5);
  }

  /** The keyed writes of `record_namespace_to_json`, in its order. */
  method WriteNamespace(s: StrBuffer, r: RecordNamespace) returns (total: nat)
    requires s.Valid()
    requires INT_MIN <= r.common.recordType <= INT_MAX && r.eventId <= ULONG_MAX && INT_MIN <= r.pid <= INT_MAX
    requires r.nsIpc < 0x1_0000_0000 && r.nsMnt < 0x1_0000_0000 && r.nsPidChildren < 0x1_0000_0000
    requires r.nsNet < 0x1_0000_0000 && r.nsCgroup < 0x1_0000_0000 && r.nsUsr < 0x1_0000_0000
    modifies s, s.buf
    ensures s.Valid() && s.buf == old(s.buf) && s.maxBufLen == old(s.maxBufLen)
    ensures Wrote(s.sink, old(s.sink), NamespaceFields(r), total)
  {
    ProcessKeys();
    ghost var p0 := s.sink;
    var n2 := WriteHeader(s, r.common, "record_namespace", r.eventId);
    ghost var p2 := s.sink;
    var n3 := s.WriteInt("pid", r.pid);
    ghost var p3 := s.sink;
    var n4 := s.WriteSysId("sys_id", r.sysId);
    ghost var p4 := s.sink;
    var n5 := WriteNamespaceIds(s, r);
    total := n2 + n3 + n4 + n5;
    NamespaceSteps(r, p0, p2, p3, p4, s.sink, n2, n3, n4, n5);
  }

  /** `record_namespace_to_json`. */
  method RenderNamespace(dst: array<char>, r: RecordNamespace) returns (total: nat)
    requires 1 <= dst.Length <= 0x8000_0000
    requires INT_MIN <= r.common.recordType <= INT_MAX && r.eventId <= ULONG_MAX && INT_MIN <= r.pid <= INT_MAX
    requires r.nsIpc < 0x1_0000_0000 && r.nsMnt < 0x1_0000_0000 && r.nsPidChildren < 0x1_0000_0000
    requires r.nsNet < 0x1_0000_0000 && r.nsCgroup < 0x1_0000_0000 && r.nsUsr < 0x1_0000_0000
    modifies dst
    ensures Rendered(dst[..], total, NamespaceFields(r))
  {
    var s := OpenRecord(dst);
    ghost var p0 := s.sink;
    total := WriteNamespace(s, r);
    CloseRecord(s, p0, NamespaceFields(r), total);
  }

  /** The four user id writes of `record_cred_to_json`. */
  method WriteUids(s: StrBuffer, r: RecordCred) returns (total: nat)
    requires s.Valid()
    requires r.uid < 0x1_0000_0000 && r.euid < 0x1_0000_0000 && r.suid < 0x1_0000_0000 && r.fsuid < 0x1_0000_0000
    modifies s, s.buf
    ensures s.Valid() && s.buf == old(s.buf) && s.maxBufLen == old(s.maxBufLen)
    ensures Wrote(s.sink, old(s.sink), UidFields(r), total)
  {
    CredKeys();
    ghost var p0 := s.sink;
    var n1 := s.WriteUint("uid", r.uid);
    ghost var p1 := s.sink;
    var n2 := s.WriteUint("euid", r.euid);
    ghost var p2 := s.sink;
    var n3 := s.WriteUint("suid", r.suid);
    ghost var p3 := s.sink;
    var n4 := s.WriteUint("fsuid", r.fsuid);
    Chain4(p0, p1, p2, p3, s.sink, NatField("uid", r.uid), n1, NatField("euid", r.euid), n2,
      NatField("suid", r.suid), n3, NatField("fsuid", r.fsuid), n4, UidFields(r));
    total := n1 + n2 + n3 + n4;
  }

  /** The four group id writes of `record_cred_to_json`. */
  method WriteGids(s: StrBuffer, r: RecordCred) returns (total: nat)
    requires s.Valid()
    requires r.gid < 0x1_0000_0000 && r.egid < 0x1_0000_0000 && r.sgid < 0x1_0000_0000 && r.fsgid < 0x1_0000_0000
    modifies s, s.buf
    ensures s.Valid() && s.buf == old(s.buf) && s.maxBufLen == old(s.maxBufLen)
    ensures Wrote(s.sink, old(s.sink), GidFields(r), total)
  {
    CredKeys();
    ghost var p0 := s.sink;
    var n1 := s.WriteUint("gid", r.gid);
    ghost var p1 := s.sink;
    var n2 := s.WriteUint("egid", r.egid);
    ghost var p2 := s.sink;
    var n3 := s.WriteUint("sgid", r.sgid);
    ghost var p3 := s.sink;
    var n4 := s.WriteUint("fsgid", r.fsgid);
    Chain4(p0, p1, p2, p3, s.sink, NatField("gid", r.gid), n1, NatField("egid", r.egid), n2,
      NatField("sgid", r.sgid), n3, NatField("fsgid", r.fsgid), n4, GidFields(r));
    total := n1 + n2 + n3 + n4;
  }

  /** The writes of `record_cred_to_json`, step by step, make up its field list. */
  lemma CredSteps(r: RecordCred, p0: Sink, p2: Sink, p3: Sink, p4: Sink, p5: Sink, p6: Sink,
                  n2: int, n3: int, n4: int, n5: int, n6: int)
    requires Wrote(p2, p0, HeaderFields(r.common, "record_cred", r.eventId), n2)
    requires p3 == WriteField(p2, IntField("pid", r.pid)) && n3 == FieldReturned(p2, IntField("pid", r.pid))
    requires p4 == WriteField(p3, StrField("sys_id", SysIdName(r.sysId)))
    requires n4 == FieldReturned(p3, StrField("sys_id", SysIdName(r.sysId)))
    requires Wrote(p5, p4, UidFields(r), n5) && Wrote(p6, p5, GidFields(r), n6)
    ensures Wrote(p6, p0, CredFields(r), n2 + n3 + n4 + n5 + n6)
  {
    var acc := HeaderFields(r.common, "record_cred", r.eventId);
    WroteSnoc(p0, p2, p3, acc, n2, IntField("pid", r.pid), n3);
    acc := acc + [IntField("pid", r.pid)];
    WroteSnoc(p0, p3, p4, acc, n2 + n3, StrField("sys_id", SysIdName(r.sysId)), n4);
    acc := acc + [StrField("sys_id", SysIdName(r.sysId))];
    WroteAppend(p0, p4, p5, acc, n2 + n3 + n4, UidFields(r), n5);
    acc := acc + UidFields(r);
    WroteAppend(p0, p5, p6, acc, n2 + n3 + n4 + n5, GidFields(r), n6);
  }

  /** The keyed writes of `record_cred_to_json`, in its order. */
  method WriteCred(s: StrBuffer, r: RecordCred) returns (total: nat)
    requires s.Valid()
    requires INT_MIN <= r.common.recordType <= INT_MAX && r.eventId <= ULONG_MAX && INT_MIN <= r.pid <= INT_MAX
    requires r.uid < 0x1_0000_0000 && r.euid < 0x1_0000_0000 && r.suid < 0x1_0000_0000 && r.fsuid < 0x1_0000_0000
    requires r.gid < 0x1_0000_0000 && r.egid < 0x1_0000_0000 && r.sgid < 0x1_0000_0000 && r.fsgid < 0x1_0000_0000
    modifies s, s.buf
    ensures s.Valid() && s.buf == old(s.buf) && s.maxBufLen == old(s.maxBufLen)
    ensures Wrote(s.sink, old(s.sink), CredFields(r), total)
  {
    ProcessKeys();
    ghost var p0 := s.sink;
    var n2 := WriteHeader(s, r.common, "record_cred", r.eventId);
    ghost var p2 := s.sink;
    var n3 := s.WriteInt("pid", r.pid);
    ghost var p3 := s.sink;
    var n4 := s.WriteSysId("sys_id", r.sysId);
    ghost var p4 := s.sink;
    var n5 := WriteUids(s, r);
    ghost var p5 := s.sink;
    var n6 := WriteGids(s, r);
    total := n2 + n3 + n4 + n5 + n6;
    CredSteps(r, p0, p2, p3, p4, p5, s.sink, n2, n3, n4, n5, n6);
  }

  /** `record_cred_to_json`. */
  method RenderCred(dst: array<char>, r: RecordCred) returns (total: nat)
    requires 1 <= dst.Length <= 0x8000_0000
    requires INT_MIN <= r.common.recordType <= INT_MAX && r.eventId <= ULONG_MAX && INT_MIN <= r.pid <= INT_MAX
    requires r.uid < 0x1_0000_0000 && r.euid < 0x1_0000_0000 && r.suid < 0x1_0000_0000 && r.fsuid < 0x1_0000_0000
    requires r.gid < 0x1_0000_0000 && r.egid < 0x1_0000_0000 && r.sgid < 0x1_0000_0000 && r.fsgid < 0x1_0000_0000
    modifies dst
    ensures Rendered(dst[..], total, CredFields(r))
  {
    var s := OpenRecord(dst);
    ghost var p0 := s.sink;
    total := WriteCred(s, r);
    CloseRecord(s, p0, CredFields(r), total);
  }

  /** A record `jsonify_record_data_to_json` accepted, decoded from its bytes. */
  datatype Decoded =
    | Connect(connect: RecordConnect)
    | Accept(accept: RecordAccept)
    | Namespace(namespace: RecordNamespace)
    | NewProcess(newProcess: RecordNewProcess)
    | Cred(cred: RecordCred)

  predicate CommonFits(c: ElemCommon, eventId: nat)
  {
    INT_MIN <= c.recordType <= INT_MAX && eventId <= ULONG_MAX
  }

  /** The fields of a decoded record lie in the ranges of their C types. */
  predicate Fits(d: Decoded)
  {
    match d
    case Connect(r) =>
      CommonFits(r.common, r.eventId) && INT_MIN <= r.pid <= INT_MAX && INT_MIN <= r.fd <= INT_MAX
      && INT_MIN <= r.ret <= INT_MAX && |r.local.addr| == SOCKADDR_MAX_SIZE && |r.remote.addr| == SOCKADDR_MAX_SIZE
    case Accept(r) =>
      CommonFits(r.common, r.eventId) && INT_MIN <= r.pid <= INT_MAX && INT_MIN <= r.fd <= INT_MAX
      && |r.local.addr| == SOCKADDR_MAX_SIZE && |r.remote.addr| == SOCKADDR_MAX_SIZE
    case Namespace(r) =>
      CommonFits(r.common, r.eventId) && INT_MIN <= r.pid <= INT_MAX
      && r.nsIpc < 0x1_0000_0000 && r.nsMnt < 0x1_0000_0000 && r.nsPidChildren < 0x1_0000_0000
      && r.nsNet < 0x1_0000_0000 && r.nsCgroup < 0x1_0000_0000 && r.nsUsr < 0x1_0000_0000
    case NewProcess(r) =>
      CommonFits(r.common, r.eventId) && INT_MIN <= r.pid <= INT_MAX && INT_MIN <= r.ppid <= INT_MAX
    case Cred(r) =>
      CommonFits(r.common, r.eventId) && INT_MIN <= r.pid <= INT_MAX
      && r.uid < 0x1_0000_0000 && r.euid < 0x1_0000_0000 && r.suid < 0x1_0000_0000 && r.fsuid < 0x1_0000_0000
      && r.gid < 0x1_0000_0000 && r.egid < 0x1_0000_0000 && r.sgid < 0x1_0000_0000 && r.fsgid < 0x1_0000_0000
  }

  /**
   * The socket addresses of a connect or accept record report at most the 128 bytes of their
   * array; the writers hex-dump `addrlen` bytes of it.
   */
  predicate AddrLensFit(d: Decoded)
  {
    match d
    case Connect(r) => r.local.addrlen <= SOCKADDR_MAX_SIZE && r.remote.addrlen <= SOCKADDR_MAX_SIZE
    case Accept(r) => r.local.addrlen <= SOCKADDR_MAX_SIZE && r.remote.addrlen <= SOCKADDR_MAX_SIZE
    case _ => true
  }

  /** The keyed fields the writer of the record's type renders, in its order. */
  function DecodedFields(d: Decoded, envs: AddrEnvs): seq<seq<string>>
    requires Fits(d) && AddrLensFit(d)
  {
    match d
    case Connect(r) => ConnectFields(r, envs)
    case Accept(r) => AcceptFields(r, envs)
    case Namespace(r) => NamespaceFields(r)
    case NewProcess(r) => NewProcessFields(r)
    case Cred(r) => CredFields(r)
  }

  /** `sizeof` of the record struct for each type the converter knows, nothing for the others. */
  function RecordSize(recordType: int): Option<nat>
  {
    if recordType == RECORD_TYPE_CONNECT then Some(RECORD_CONNECT_SIZE)
    else if recordType == RECORD_TYPE_ACCEPT then Some(RECORD_ACCEPT_SIZE)
    else if recordType == RECORD_TYPE_NAMESPACE then Some(RECORD_NAMESPACE_SIZE)
    else if recordType == RECORD_TYPE_NEW_PROCESS then Some(RECORD_NEW_PROCESS_SIZE)
    else if recordType == RECORD_TYPE_CRED then Some(RECORD_CRED_SIZE)
    else None
  }

  /**
   * The guards of `jsonify_record_data_to_json` over the destination (null or not, its length)
   * and the data (null, or its bytes): the first failing check decides the error, and a record
   * of a known type and its exact size is decoded.
   */
  function Classify(dstNull: bool, dstLen: nat, data: Option<seq<byte>>): (r: Result<Decoded, int>)
    ensures r == Err(ERR_DST_INVALID) <==> dstNull
    ensures r == Err(ERR_DST_INSUFFICIENT) <==> !dstNull && dstLen == 0
    ensures r == Err(ERR_DATA_INVALID) <==> !dstNull && dstLen > 0 && (data.None? || data.value == [])
    ensures r == Err(ERR_DATA_INVALID_HEADER) <==>
      !dstNull && dstLen > 0 && data.Some? && 0 < |data.value| < ELEM_COMMON_SIZE
    ensures r == Err(ERR_DATA_INVALID_MAGIC) <==>
      !dstNull && dstLen > 0 && data.Some? && ELEM_COMMON_SIZE <= |data.value|
      && DecodeCommon(data.value).magic != AMEBA_MAGIC
    ensures r.Ok? <==>
      !dstNull && dstLen > 0 && data.Some? && ELEM_COMMON_SIZE <= |data.value|
      && DecodeCommon(data.value).magic == AMEBA_MAGIC
      && RecordSize(DecodeCommon(data.value).recordType) == Some(|data.value|)
    ensures r == Err(ERR_DATA_SIZE_MISMATCH) <==>
      !dstNull && dstLen > 0 && data.Some? && ELEM_COMMON_SIZE <= |data.value|
      && DecodeCommon(data.value).magic == AMEBA_MAGIC
      && RecordSize(DecodeCommon(data.value).recordType).Some?
      && RecordSize(DecodeCommon(data.value).recordType) != Some(|data.value|)
    ensures r == Err(ERR_DATA_UNKNOWN) <==>
      !dstNull && dstLen > 0 && data.Some? && ELEM_COMMON_SIZE <= |data.value|
      && DecodeCommon(data.value).magic == AMEBA_MAGIC
      && RecordSize(DecodeCommon(data.value).recordType).None?
    ensures r.Ok? ==> Fits(r.value)
  {
    if dstNull then Err(ERR_DST_INVALID)
    else if dstLen == 0 then Err(ERR_DST_INSUFFICIENT)
    else if data.None? || |data.value| == 0 then Err(ERR_DATA_INVALID)
    else if |data.value| < ELEM_COMMON_SIZE then Err(ERR_DATA_INVALID_HEADER)
    else
      var bs := data.value;
      var c := DecodeCommon(bs);
      if c.magic != AMEBA_MAGIC then Err(ERR_DATA_INVALID_MAGIC)
      else if c.recordType == RECORD_TYPE_CONNECT then
        if |bs| != RECORD_CONNECT_SIZE then Err(ERR_DATA_SIZE_MISMATCH) else Ok(Connect(DecodeConnect(bs)))
      else if c.recordType == RECORD_TYPE_ACCEPT then
        if |bs| != RECORD_ACCEPT_SIZE then Err(ERR_DATA_SIZE_MISMATCH) else Ok(Accept(DecodeAccept(bs)))
      else if c.recordType == RECORD_TYPE_NAMESPACE then
        if |bs| != RECORD_NAMESPACE_SIZE then Err(ERR_DATA_SIZE_MISMATCH) else Ok(Namespace(DecodeNamespace(bs)))
      else if c.recordType == RECORD_TYPE_NEW_PROCESS then
        if |bs| != RECORD_NEW_PROCESS_SIZE then Err(ERR_DATA_SIZE_MISMATCH) else Ok(NewProcess(DecodeNewProcess(bs)))
      else if c.recordType == RECORD_TYPE_CRED then
        if |bs| != RECORD_CRED_SIZE then Err(ERR_DATA_SIZE_MISMATCH) else Ok(Cred(DecodeCred(bs)))
      else Err(ERR_DATA_UNKNOWN)
  }

  /**
   * `jsonify_record_data_to_json`: the guards, then the writer of the record's type, whose sum of
   * returns is the result; nothing is written when a guard fails.
   */
  method RecordDataToJson(dst: array?<char>, dstLen: nat, data: Option<seq<byte>>, envs: AddrEnvs) returns (r: int)
    requires dst != null ==> dst.Length == dstLen <= 0x8000_0000
    requires ValidEnvs(envs)
    requires Classify(dst == null, dstLen, data).Ok? ==> AddrLensFit(Classify(dst == null, dstLen, data).value)
    modifies dst
    ensures var c := Classify(dst == null, dstLen, data);
      && (c.Err? ==> r == c.error < 0 && (dst != null ==> dst[..] == old(dst[..])))
      && (c.Ok? ==> dst != null && 0 <= r && Rendered(dst[..], r, DecodedFields(c.value, envs)))
  {
    var c := Classify(dst == null, dstLen, data);
    if c.Err? {
      return c.error;
    }
    match c.value
    case Connect(rec) =>
      r := RenderConnect(dst, rec, envs);
    case Accept(rec) =>
      r := RenderAccept(dst, rec, envs);
    case Namespace(rec) =>
      r := RenderNamespace(dst, rec);
    case NewProcess(rec) =>
      r := RenderNewProcess(dst, rec);
    case Cred(rec) =>
      r := RenderCred(dst, rec);
  }

  /** Field lists of keyed writes stay keyed when joined. */
  lemma KeyedJoin(a: seq<seq<string>>, b: seq<seq<string>>)
    requires Keyed(a) && Keyed(b)
    ensures Keyed(a + b)
  {
    forall i | 0 <= i < |a + b|
      ensures |(a + b)[i]| > 0 && |(a + b)[i][0]| > 0
    {
      if i >= |a| {
        assert (a + b)[i] == b[i - |a|];
      }
    }
  }

  /** A keyed field list with one more keyed write. */
  lemma KeyedSnoc(a: seq<seq<string>>, f: seq<string>)
    requires Keyed(a) && |f| > 0 && |f[0]| > 0
    ensures Keyed(a + [f])
  {
    KeyedJoin(a, [f]);
  }

  lemma HeaderKeyed(c: ElemCommon, name: string, eventId: nat)
    ensures Keyed(HeaderFields(c, name, eventId))
  {
  }

  lemma SockaddrKeyed(key: string, e: ElemSockaddr, swap: bool, env: AddrEnv)
    requires ValidSockaddr(e)
    ensures Keyed(SockaddrField(key, e, swap, env))
  {
  }

  lemma ConnectKeyed(r: RecordConnect, envs: AddrEnvs)
    requires ValidSockaddr(r.local) && ValidSockaddr(r.remote)
    ensures Keyed(ConnectFields(r, envs))
  {
    var a := HeaderFields(r.common, "record_connect", r.eventId);
    HeaderKeyed(r.common, "record_connect", r.eventId);
    KeyedSnoc(a, IntField("pid", r.pid));
    a := a + [IntField("pid", r.pid)];
    KeyedSnoc(a, IntField("fd", r.fd));
    a := a + [IntField("fd", r.fd)];
    KeyedSnoc(a, IntField("ret", r.ret));
    a := a + [IntField("ret", r.ret)];
    SockaddrKeyed("local", r.local, NetOrder(r.local), envs.local);
    KeyedJoin(a, SockaddrField("local", r.local, NetOrder(r.local), envs.local));
    a := a + SockaddrField("local", r.local, NetOrder(r.local), envs.local);
    SockaddrKeyed("remote", r.remote, NetOrder(r.remote), envs.remote);
    KeyedJoin(a, SockaddrField("remote", r.remote, NetOrder(r.remote), envs.remote));
  }

  lemma AcceptKeyed(r: RecordAccept, envs: AddrEnvs)
    requires ValidSockaddr(r.local) && ValidSockaddr(r.remote)
    ensures Keyed(AcceptFields(r, envs))
  {
    var a := HeaderFields(r.common, "record_accept", r.eventId);
    HeaderKeyed(r.common, "record_accept", r.eventId);
    KeyedSnoc(a, IntField("pid", r.pid));
    a := a + [IntField("pid", r.pid)];
    KeyedSnoc(a, IntField("fd", r.fd));
    a := a + [IntField("fd", r.fd)];
    SockaddrKeyed("local", r.local, NetOrder(r.local), envs.local);
    KeyedJoin(a, SockaddrField("local", r.local, NetOrder(r.local), envs.local));
    a := a + SockaddrField("local", r.local, NetOrder(r.local), envs.local);
    SockaddrKeyed("remote", r.remote, NetOrder(r.remote), envs.remote);
    KeyedJoin(a, SockaddrField("remote", r.remote, NetOrder(r.remote), envs.remote));
  }

  lemma NamespaceIdsKeyed(r: RecordNamespace)
    ensures Keyed(NamespaceIdFields(r))
  {
  }

  lemma NamespaceKeyed(r: RecordNamespace)
    ensures Keyed(NamespaceFields(r))
  {
    var a := HeaderFields(r.common, "record_namespace", r.eventId);
    HeaderKeyed(r.common, "record_namespace", r.eventId);
    KeyedSnoc(a, IntField("pid", r.pid));
    a := a + [IntField("pid", r.pid)];
    KeyedSnoc(a, StrField("sys_id", SysIdName(r.sysId)));
    a := a + [StrField("sys_id", SysIdName(r.sysId))];
    NamespaceIdsKeyed(r);
    KeyedJoin(a, NamespaceIdFields(r));
  }

  lemma NewProcessKeyed(r: RecordNewProcess)
    ensures Keyed(NewProcessFields(r))
  {
    var a := HeaderFields(r.common, "record_new_process", r.eventId);
    HeaderKeyed(r.common, "record_new_process", r.eventId);
    KeyedSnoc(a, IntField("pid", r.pid));
    a := a + [IntField("pid", r.pid)];
    KeyedSnoc(a, IntField("ppid", r.ppid));
    a := a + [IntField("ppid", r.ppid)];
    KeyedSnoc(a, StrField("sys_id", SysIdName(r.sysId)));
  }

  lemma IdsKeyed(r: RecordCred)
    ensures Keyed(UidFields(r)) && Keyed(GidFields(r))
  {
  }

  lemma CredKeyed(r: RecordCred)
    ensures Keyed(CredFields(r))
  {
    var a := HeaderFields(r.common, "record_cred", r.eventId);
    HeaderKeyed(r.common, "record_cred", r.eventId);
    KeyedSnoc(a, IntField("pid", r.pid));
    a := a + [IntField("pid", r.pid)];
    KeyedSnoc(a, StrField("sys_id", SysIdName(r.sysId)));
    a := a + [StrField("sys_id", SysIdName(r.sysId))];
    IdsKeyed(r);
    KeyedJoin(a, UidFields(r));
    KeyedJoin(a + UidFields(r), GidFields(r));
  }

  lemma DecodedKeyed(d: Decoded, envs: AddrEnvs)
    requires Fits(d) && AddrLensFit(d)
    ensures Keyed(DecodedFields(d, envs))
  {
    match d
    case Connect(r) => ConnectKeyed(r, envs);
    case Accept(r) => AcceptKeyed(r, envs);
    case Namespace(r) => NamespaceKeyed(r);
    case NewProcess(r) => NewProcessKeyed(r);
    case Cred(r) => CredKeyed(r);
  }

  /**
   * What `jsonify_record_data_to_json` leaves in `dst` for an accepted record: the JSON object of
   * the record's fields, or a prefix of it when it does not fit with a byte to spare.
   */
  lemma RecordRendering(out: seq<char>, total: int, d: Decoded, envs: AddrEnvs)
    requires Fits(d) && AddrLensFit(d) && |out| >= 2 && Rendered(out, total, DecodedFields(d, envs))
    ensures |ObjectText(DecodedFields(d, envs))| < |out| - 1 ==>
      CString(out) == ObjectText(DecodedFields(d, envs)) && total == |ObjectText(DecodedFields(d, envs))| - 2
    ensures CString(out) <= ObjectText(DecodedFields(d, envs))
  {
    DecodedKeyed(d, envs);
    RenderedObject(out, total, DecodedFields(d, envs));
  }
}
