/**
 * The SPADE line formatters of bin/transform_log_to_spade.py: which record pairs belong together
 * (syscall categories), and the `get_spade_record_*` templates.
 */
module SpadeFormat {
  import opened Wrappers
  import opened SpadeRecords

  /** The correlation categories of `process_buffer`, one per detail record type. */
  datatype Category = Namespaces | Bind | SendRecv | Connect | Accept | Kill

  /** The detail record type an AuditLogExit of this category pairs with. */
  function DetailType(c: Category): int
  {
    match c
    case Namespaces => NAMESPACE
    case Bind => BIND
    case SendRecv => SEND_RECV
    case Connect => CONNECT
    case Accept => ACCEPT
    case Kill => KILL
  }

  /** The system-call numbers of each category. */
  function Syscalls(c: Category): set<int>
  {
    match c
    case Namespaces => {SYS_SETNS, SYS_UNSHARE, SYS_CLONE, SYS_CLONE3}
    case Bind => {SYS_BIND}
    case SendRecv => {SYS_SENDTO, SYS_SENDMSG, SYS_RECVFROM, SYS_RECVMSG}
    case Connect => {SYS_CONNECT}
    case Accept => {SYS_ACCEPT, SYS_ACCEPT4}
    case Kill => {SYS_KILL}
  }

  /** `syscall_number in [...]` for the category's list. */
  predicate InCategory(syscall: Value, c: Category)
  {
    syscall.VInt? && syscall.i in Syscalls(c)
  }

  /** The `elif` chain an AuditLogExit head goes through. */
  function CategoryOfSyscall(syscall: Value): Option<Category>
  {
    if InCategory(syscall, Namespaces) then Some(Namespaces)
    else if InCategory(syscall, Bind) then Some(Bind)
    else if InCategory(syscall, SendRecv) then Some(SendRecv)
    else if InCategory(syscall, Connect) then Some(Connect)
    else if InCategory(syscall, Accept) then Some(Accept)
    else if InCategory(syscall, Kill) then Some(Kill)
    else None
  }

  /** The `elif` chain a detail head goes through. */
  function CategoryOfDetailType(recordType: Value): Option<Category>
  {
    if recordType == VInt(NAMESPACE) then Some(Namespaces)
    else if recordType == VInt(BIND) then Some(Bind)
    else if recordType == VInt(SEND_RECV) then Some(SendRecv)
    else if recordType == VInt(CONNECT) then Some(Connect)
    else if recordType == VInt(ACCEPT) then Some(Accept)
    else if recordType == VInt(KILL) then Some(Kill)
    else None
  }

  /**
   * The two chains agree: the categories' syscall sets are disjoint, so an AuditLogExit head picks
   * category `c` exactly when its syscall is in `c`'s set; and a detail head of type
   * `DetailType(c)` picks `c`, while AuditLogExit, Cred and NewProcess pick none.
   */
  lemma CategoriesAgree(syscall: Value, c: Category)
    ensures CategoryOfSyscall(syscall) == Some(c) <==> InCategory(syscall, c)
    ensures CategoryOfDetailType(VInt(DetailType(c))) == Some(c)
    ensures CategoryOfDetailType(VInt(AUDIT_LOG_EXIT)).None? && CategoryOfDetailType(VInt(CRED)).None?
      && CategoryOfDetailType(VInt(NEW_PROCESS)).None?
  {
  }

  /** Python's `record[k1][k2]`. */
  function Index2(record: Value, k1: string, k2: string): Result<Value, PyError>
  {
    var inner :- Index(record, k1);
    Index(inner, k2)
  }

  /** `type=USER msg=audit(<time>:<event id>):`, taken from the AuditLogExit's `las_audit`. */
  function Preamble(time: Value, eventId: Value): string
  {
    "type=USER msg=audit(" + Show(time) + ":" + Show(eventId) + "):"
  }

  /** The `ns_operation` suffix: an integer `sys_id` CLONE/SETNS/UNSHARE, else Python's `None`. */
  function NamespaceOperation(sysId: Value): (op: string)
    ensures op == "NEWPROCESS" <==> sysId == VInt(SYS_ID_CLONE)
    ensures op == "SETNS" <==> sysId == VInt(SYS_ID_SETNS)
    ensures op == "UNSHARE" <==> sysId == VInt(SYS_ID_UNSHARE)
    ensures op == "None" <==> sysId !in {VInt(SYS_ID_CLONE), VInt(SYS_ID_SETNS), VInt(SYS_ID_UNSHARE)}
  {
    if sysId == VInt(SYS_ID_CLONE) then "NEWPROCESS"
    else if sysId == VInt(SYS_ID_SETNS) then "SETNS"
    else if sysId == VInt(SYS_ID_UNSHARE) then "UNSHARE"
    else "None"
  }

  /** Every field `get_spade_record_namespace` reads from the namespace record is there. */
  predicate NamespaceReadable(ns: Value)
  {
    Index(ns, "sys_id").Ok? && Index(ns, "pid").Ok? && Index(ns, "ns_mnt").Ok? && Index(ns, "ns_net").Ok?
    && Index(ns, "ns_pid").Ok? && Index(ns, "ns_pid_children").Ok? && Index(ns, "ns_usr").Ok? && Index(ns, "ns_ipc").Ok?
  }

  /** `get_spade_record_namespace(r_ale, r_namespace)`. */
  function FormatNamespace(ale: Value, ns: Value): (r: Result<string, PyError>)
    ensures r.Ok? <==>
              LasEventIdAndTime(ale).Ok? && Index(ale, "syscall_number").Ok? && Index(ale, "exit").Ok?
              && NamespaceReadable(ns)
  {
    var las :- LasEventIdAndTime(ale);
    var sysId :- Index(ns, "sys_id");
    var syscall :- Index(ale, "syscall_number");
    var nsPid :- Index(ale, "exit");
    var hostPid :- Index(ns, "pid");
    var mnt :- Index(ns, "ns_mnt");
    var net :- Index(ns, "ns_net");
    var pidNs :- Index(ns, "ns_pid");
    var pidChildren :- Index(ns, "ns_pid_children");
    var usr :- Index(ns, "ns_usr");
    var ipc :- Index(ns, "ns_ipc");
    Ok(Preamble(las.1, las.0) + NamespaceBody(syscall, sysId, nsPid, hostPid, mnt, net, pidNs, pidChildren, usr, ipc))
  }

  function NamespaceBody(syscall: Value, sysId: Value, nsPid: Value, hostPid: Value, mnt: Value, net: Value,
                         pidNs: Value, pidChildren: Value, usr: Value, ipc: Value): string
  {
    " ns_syscall=" + Show(syscall)
      + " ns_subtype=ns_namespaces"
      + " ns_operation=ns_" + NamespaceOperation(sysId)
      + " ns_ns_pid=" + Show(nsPid)
      + " ns_host_pid=" + Show(hostPid)
      + " ns_inum_mnt=" + Show(mnt)
      + " ns_inum_net=" + Show(net)
      + " ns_inum_pid=" + Show(pidNs)
      + " ns_inum_pid_children=" + Show(pidChildren)
      + " ns_inum_usr=" + Show(usr)
      + " ns_inum_ipc=" + Show(ipc)
  }

  /** The values a network-I/O line is built from, and which record each comes from. */
  datatype NetioArgs = NetioArgs(
    time: Value, eventId: Value, syscall: Value, exitVal: Value, fd: Value, pid: Value,
    sockType: Value, localSaddr: Value, remoteSaddr: Value, remoteSaddrSize: Value, netNs: Value)

  predicate IsNetio(c: Category) { c in {Bind, SendRecv, Connect, Accept} }

  /**
   * The field reads of `get_spade_record_bind/send_recv/connect/accept`, in their order. The exit
   * value and syscall come from the AuditLogExit, everything else from the detail record; the
   * remote size is the LOCAL address length; a bind has an empty remote address.
   */
  function NetioArgsOf(c: Category, ale: Value, detail: Value): (r: Result<NetioArgs, PyError>)
    requires IsNetio(c)
    ensures r.Ok? ==>
      Index(ale, "syscall_number") == Ok(r.value.syscall) && Index(ale, "exit") == Ok(r.value.exitVal)
      && Index(detail, "pid") == Ok(r.value.pid) && Index(detail, "fd") == Ok(r.value.fd)
      && Index2(detail, "local", "sockaddr") == Ok(r.value.localSaddr)
      && Index2(detail, "local", "sockaddr_len") == Ok(r.value.remoteSaddrSize)
      && (c == Bind ==> r.value.remoteSaddr == VStr(""))
      && (c != Bind ==> Index2(detail, "remote", "sockaddr") == Ok(r.value.remoteSaddr))
  {
    var las :- LasEventIdAndTime(ale);
    var syscall :- Index(ale, "syscall_number");
    var pid :- Index(detail, "pid");
    var fd :- Index(detail, "fd");
    var exitVal :- Index(ale, "exit");
    var sockType :- Index(detail, "sock_type");
    var localSaddr :- Index2(detail, "local", "sockaddr");
    var remoteSaddr :- if c == Bind then Ok(VStr("")) else Index2(detail, "remote", "sockaddr");
    var remoteSize :- Index2(detail, "local", "sockaddr_len");
    var netNs :- Index(detail, "ns_net");
    Ok(NetioArgs(las.1, las.0, syscall, exitVal, fd, pid, sockType, localSaddr, remoteSaddr, remoteSize, netNs))
  }

  /** `get_spade_record_netio_intercepted`, with `success=1` and the pid's enrichment after `pid=`. */
  function RenderNetio(a: NetioArgs, enrichment: string): string
  {
    Preamble(a.time, a.eventId) + NetioBody(a, enrichment)
  }

  function NetioBody(a: NetioArgs, enrichment: string): string
  {
    " netio_intercepted="
      + "\""
      + "syscall=" + Show(a.syscall)
      + " exit=" + Show(a.exitVal)
      + " success=1"
      + " fd=" + Show(a.fd)
      + " pid=" + Show(a.pid)
      + enrichment
      + " socktype=" + Show(a.sockType)
      + " local_saddr=" + Show(a.localSaddr)
      + " remote_saddr=" + Show(a.remoteSaddr)
      + " remote_saddr_size=" + Show(a.remoteSaddrSize)
      + " net_ns_inum=" + Show(a.netNs)
      + "\""
  }

  /** A network-I/O category's formatter: gather, read `task_ctx_id`, enrich, render. */
  function FormatNetio(c: Category, ale: Value, detail: Value, infos: ProcInfos): (r: Result<string, PyError>)
    requires IsNetio(c)
    ensures NetioArgsOf(c, ale, detail).Ok? && MustGet(detail, "task_ctx_id").Err? ==> r.Err?
    ensures r.Ok? ==> Index(detail, "pid").Ok? && Enrichment(infos, Index(detail, "pid").value).Ok?
  {
    var a :- NetioArgsOf(c, ale, detail);
    var _ :- MustGet(detail, "task_ctx_id");
    var enrichment :- Enrichment(infos, a.pid);
    Ok(RenderNetio(a, enrichment))
  }

  /** The values of a kill line. */
  datatype KillArgs = KillArgs(
    time: Value, eventId: Value, syscall: Value, exitVal: Value, success: string,
    a0: string, a1: string, a2: string, a3: string, items: int, pid: Value)

  /**
   * The reads and conversions of `get_spade_record_kill`: `success` is "yes" exactly when the exit
   * value is 0; a0/a1 are the hex encodings of the target pid and the signal; a2 = a3 = "0";
   * items = 0; the acting pid is the line's pid.
   */
  function KillArgsOf(ale: Value, kill: Value): (r: Result<KillArgs, PyError>)
    ensures r.Ok? ==>
      Index(ale, "exit") == Ok(r.value.exitVal)
      && (r.value.success == "yes" <==> r.value.exitVal == VInt(0))
      && (r.value.success == "no" <==> r.value.exitVal != VInt(0))
      && Index(kill, "target_pid").Ok? && LongToHexStr(Index(kill, "target_pid").value) == Ok(r.value.a0)
      && Index(kill, "sig").Ok? && LongToHexStr(Index(kill, "sig").value) == Ok(r.value.a1)
      && r.value.a2 == "0" && r.value.a3 == "0" && r.value.items == 0
      && Index(kill, "acting_pid") == Ok(r.value.pid)
  {
    var las :- LasEventIdAndTime(ale);
    var syscall :- Index(ale, "syscall_number");
    var exitVal :- Index(ale, "exit");
    var success := if exitVal == VInt(0) then "yes" else "no";
    var targetPid :- Index(kill, "target_pid");
    var sig :- Index(kill, "sig");
    var pid :- Index(kill, "acting_pid");
    var a0 :- LongToHexStr(targetPid);
    var a1 :- LongToHexStr(sig);
    var a2 := LongToHexStr(VInt(0)).value;
    var a3 := LongToHexStr(VInt(0)).value;
    Ok(KillArgs(las.1, las.0, syscall, exitVal, success, a0, a1, a2, a3, 0, pid))
  }

  function RenderKill(a: KillArgs, enrichment: string): string
  {
    Preamble(a.time, a.eventId) + KillBody(a, enrichment)
  }

  function KillBody(a: KillArgs, enrichment: string): string
  {
    " ubsi_intercepted="
      + "\""
      + "syscall=" + Show(a.syscall)
      + " success=" + a.success
      + " exit=" + Show(a.exitVal)
      + " a0=" + a.a0
      + " a1=" + a.a1
      + " a2=" + a.a2
      + " a3=" + a.a3
      + " items=" + Decimal.IntToString(a.items)
      + " pid=" + Show(a.pid)
      + enrichment
      + "\""
  }

  /** `get_spade_record_kill(r_ale, r_kill)`. */
  function FormatKill(ale: Value, kill: Value, infos: ProcInfos): (r: Result<string, PyError>)
    ensures r.Ok? ==> Index(kill, "target_pid").Ok? && Index(kill, "target_pid").value.VInt?
                      && -0x8000_0000 <= Index(kill, "target_pid").value.i <= 0x7fff_ffff
    ensures r.Ok? ==> Index(kill, "sig").Ok? && Index(kill, "sig").value.VInt?
                      && -0x8000_0000 <= Index(kill, "sig").value.i <= 0x7fff_ffff
    ensures r.Ok? ==> Index(kill, "acting_pid").Ok? && Enrichment(infos, Index(kill, "acting_pid").value).Ok?
  {
    var a :- KillArgsOf(ale, kill);
    var enrichment :- Enrichment(infos, a.pid);
    Ok(RenderKill(a, enrichment))
  }

  /** The formatter `process_buffer` calls for a category, always with the AuditLogExit first. */
  function FormatPair(c: Category, ale: Value, detail: Value, infos: ProcInfos): (r: Result<string, PyError>)
    ensures r.Ok? ==> LasEventIdAndTime(ale).Ok? && Index(ale, "syscall_number").Ok? && Index(ale, "exit").Ok?
  {
    match c
    case Namespaces => FormatNamespace(ale, detail)
    case Kill => FormatKill(ale, detail, infos)
    case _ => FormatNetio(c, ale, detail, infos)
  }

  /**
   * Every SPADE line starts with the audit preamble built from the AuditLogExit's `las_audit`
   * time and event id, whichever record type the detail is.
   */
  lemma FormatPairPreamble(c: Category, ale: Value, detail: Value, infos: ProcInfos)
    requires FormatPair(c, ale, detail, infos).Ok?
    ensures LasEventIdAndTime(ale).Ok?
    ensures var las := LasEventIdAndTime(ale).value; var p := Preamble(las.1, las.0);
      var line := FormatPair(c, ale, detail, infos).value;
      |p| <= |line| && line[..|p|] == p
  {
    var las := LasEventIdAndTime(ale).value;
    var p := Preamble(las.1, las.0);
    var body := PairBody(c, ale, detail, infos);
    assert (p + body)[..|p|] == p;
  }

  /** The part of a SPADE line after the preamble. */
  ghost function PairBody(c: Category, ale: Value, detail: Value, infos: ProcInfos): (body: string)
    requires FormatPair(c, ale, detail, infos).Ok?
    ensures LasEventIdAndTime(ale).Ok?
    ensures var las := LasEventIdAndTime(ale).value;
      FormatPair(c, ale, detail, infos).value == Preamble(las.1, las.0) + body
  {
    match c
    case Namespaces => NamespacePairBody(ale, detail)
    case Kill => KillPairBody(ale, detail, infos)
    case _ => NetioPairBody(c, ale, detail, infos)
  }

  ghost function NamespacePairBody(ale: Value, ns: Value): (body: string)
    requires FormatNamespace(ale, ns).Ok?
    ensures LasEventIdAndTime(ale).Ok?
    ensures var las := LasEventIdAndTime(ale).value;
      FormatNamespace(ale, ns).value == Preamble(las.1, las.0) + body
  {
    NamespaceBody(Index(ale, "syscall_number").value, Index(ns, "sys_id").value, Index(ale, "exit").value,
      Index(ns, "pid").value, Index(ns, "ns_mnt").value, Index(ns, "ns_net").value, Index(ns, "ns_pid").value,
      Index(ns, "ns_pid_children").value, Index(ns, "ns_usr").value, Index(ns, "ns_ipc").value)
  }

  ghost function KillPairBody(ale: Value, kill: Value, infos: ProcInfos): (body: string)
    requires FormatKill(ale, kill, infos).Ok?
    ensures LasEventIdAndTime(ale).Ok?
    ensures var las := LasEventIdAndTime(ale).value;
      FormatKill(ale, kill, infos).value == Preamble(las.1, las.0) + body
  {
    var a := KillArgsOf(ale, kill).value;
    KillBody(a, Enrichment(infos, a.pid).value)
  }

  ghost function NetioPairBody(c: Category, ale: Value, detail: Value, infos: ProcInfos): (body: string)
    requires IsNetio(c) && FormatNetio(c, ale, detail, infos).Ok?
    ensures LasEventIdAndTime(ale).Ok?
    ensures var las := LasEventIdAndTime(ale).value;
      FormatNetio(c, ale, detail, infos).value == Preamble(las.1, las.0) + body
  {
    var a := NetioArgsOf(c, ale, detail).value;
    NetioBody(a, Enrichment(infos, a.pid).value)
  }
}
