/**
 * The superseded correlator of src/utils/transform/to_spade.py: records other than AuditLogExit are
 * buffered; an AuditLogExit of `clone` (syscall 220) pulls one Cred, one Namespace and one
 * NewProcess of its task context out of the buffer with a tail-first pop-and-re-append search, and
 * prints a namespace line (or Python's `None`). There is no end-of-input drain.
 */
module LegacyCorrelator {
  import opened Wrappers
  import opened Decimal
  import opened SpadeRecords
  import opened SpadeFormat

  /** `SysNum.CLONE`, the only syscall this correlator handles. */
  const LEGACY_SYS_CLONE: int := 220

  /** One input line after `strip()`: text `json.loads` accepts, or text it rejects. */
  datatype Line = Json(value: Value) | Malformed

  /** What the program prints: a namespace line, Python's `None`, the missing-file message, or a caught error. */
  datatype Printed = Spade(text: string) | NoneLine | FileNotFound(path: string) | ReadError(error: PyError)

  /** The module-level `buffer` and everything printed so far. */
  datatype LegacyState = LegacyState(buffer: seq<Value>, output: seq<Printed>)

  datatype Run = Run(state: LegacyState, error: Option<PyError>)

  /** Python truthiness of a decoded JSON value. */
  predicate Truthy(v: Value)
  {
    match v
    case VInt(i) => i != 0
    case VStr(s) => s != ""
    case VObj(m) => m != map[]
  }

  /** `s` read back to front. */
  function Reverse<T>(s: seq<T>): (r: seq<T>)
    ensures |r| == |s|
  {
    if s == [] then [] else [s[|s| - 1]] + Reverse(s[..|s| - 1])
  }

  lemma {:induction false} ReverseMultiset<T>(s: seq<T>)
    ensures multiset(Reverse(s)) == multiset(s)
  {
    if s != [] {
      ReverseMultiset(s[..|s| - 1]);
      assert s == s[..|s| - 1] + [s[|s| - 1]];
    }
  }

  /** One test of `find_and_remove_record`: the type first, then the task context id. */
  function LegacyProbe(r: Value, recordType: int, taskCtxId: Value): Result<bool, PyError>
  {
    var rType :- Index(r, "record_type");
    if rType == VInt(recordType) then
      var ctx :- Index(r, "task_ctx_id");
      Ok(ctx == taskCtxId)
    else Ok(false)
  }

  /** The outcome of `find_and_remove_record`: its result (or exception) and the buffer it leaves. */
  datatype Removal = Removal(result: Result<Option<Value>, PyError>, buffer: seq<Value>)

  /**
   * The pop loop of `find_and_remove_record`, `remaining` being what is left of `buffer` and
   * `collected` the records popped so far. An exception escapes with the popped records lost.
   */
  function Scan(remaining: seq<Value>, collected: seq<Value>, recordType: int, taskCtxId: Value): Removal
    decreases |remaining|
  {
    if remaining == [] then Removal(Ok(None), collected)
    else
      var r := remaining[|remaining| - 1];
      var rest := remaining[..|remaining| - 1];
      match LegacyProbe(r, recordType, taskCtxId)
      case Err(e) => Removal(Err(e), rest)
      case Ok(true) => Removal(Ok(Some(r)), rest + collected)
      case Ok(false) => Scan(rest, collected + [r], recordType, taskCtxId)
  }

  function FindAndRemoveSpec(buffer: seq<Value>, recordType: int, taskCtxId: Value): Removal
  {
    Scan(buffer, [], recordType, taskCtxId)
  }

  /** The index where the tail-first search stops: the last record that matches or cannot be read, or -1. */
  function ScanStop(remaining: seq<Value>, recordType: int, taskCtxId: Value): (m: int)
    ensures -1 <= m < |remaining|
    ensures m >= 0 ==> LegacyProbe(remaining[m], recordType, taskCtxId) != Ok(false)
    ensures forall k | m < k < |remaining| :: LegacyProbe(remaining[k], recordType, taskCtxId) == Ok(false)
    decreases |remaining|
  {
    if remaining == [] then -1
    else if LegacyProbe(remaining[|remaining| - 1], recordType, taskCtxId) != Ok(false) then |remaining| - 1
    else
      var rest := remaining[..|remaining| - 1];
      var m := ScanStop(rest, recordType, taskCtxId);
      assert forall k | m < k < |rest| :: rest[k] == remaining[k];
      m
  }

  /** With no match the search leaves the collected records followed by the buffer reversed. */
  lemma {:induction false} ScanNoneShape(remaining: seq<Value>, collected: seq<Value>, recordType: int, taskCtxId: Value)
    requires Scan(remaining, collected, recordType, taskCtxId).result == Ok(None)
    ensures ScanStop(remaining, recordType, taskCtxId) == -1
    ensures Scan(remaining, collected, recordType, taskCtxId).buffer == collected + Reverse(remaining)
    decreases |remaining|
  {
    if remaining != [] {
      var n := |remaining|;
      var rest := remaining[..n - 1];
      ScanNoneShape(rest, collected + [remaining[n - 1]], recordType, taskCtxId);
      assert Reverse(remaining) == [remaining[n - 1]] + Reverse(rest);
    }
  }

  /**
   * With a match the search returns the LAST matching record; the records before it stay in place
   * and the records after it come back reversed, after the collected ones.
   */
  lemma {:induction false} ScanFoundShape(remaining: seq<Value>, collected: seq<Value>, recordType: int, taskCtxId: Value)
    requires Scan(remaining, collected, recordType, taskCtxId).result.Ok?
    requires Scan(remaining, collected, recordType, taskCtxId).result.value.Some?
    ensures var r := Scan(remaining, collected, recordType, taskCtxId); var m := ScanStop(remaining, recordType, taskCtxId);
      0 <= m && r.result.value.value == remaining[m]
      && LegacyProbe(remaining[m], recordType, taskCtxId) == Ok(true)
      && r.buffer == remaining[..m] + collected + Reverse(remaining[m + 1..])
    decreases |remaining|
  {
    var n := |remaining|;
    var last := remaining[n - 1];
    var rest := remaining[..n - 1];
    if LegacyProbe(last, recordType, taskCtxId) == Ok(true) {
      assert ScanStop(remaining, recordType, taskCtxId) == n - 1;
      assert remaining[n..] == [];
    } else {
      ScanFoundShape(rest, collected + [last], recordType, taskCtxId);
      ScanFoundStep(remaining, collected, recordType, taskCtxId);
    }
  }

  /** The step case of ScanFoundShape: a last record that does not match moves to the collected records. */
  lemma ScanFoundStep(remaining: seq<Value>, collected: seq<Value>, recordType: int, taskCtxId: Value)
    requires |remaining| > 0
    requires LegacyProbe(remaining[|remaining| - 1], recordType, taskCtxId) == Ok(false)
    requires var rest := remaining[..|remaining| - 1]; var c := collected + [remaining[|remaining| - 1]];
      var r := Scan(rest, c, recordType, taskCtxId); var m := ScanStop(rest, recordType, taskCtxId);
      r.result.Ok? && r.result.value.Some?
      && 0 <= m && r.result.value.value == rest[m]
      && LegacyProbe(rest[m], recordType, taskCtxId) == Ok(true)
      && r.buffer == rest[..m] + c + Reverse(rest[m + 1..])
    ensures var r := Scan(remaining, collected, recordType, taskCtxId); var m := ScanStop(remaining, recordType, taskCtxId);
      0 <= m && r.result.value.value == remaining[m]
      && LegacyProbe(remaining[m], recordType, taskCtxId) == Ok(true)
      && r.buffer == remaining[..m] + collected + Reverse(remaining[m + 1..])
  {
    var n := |remaining|;
    var rest := remaining[..n - 1];
    var m := ScanStop(rest, recordType, taskCtxId);
    assert ScanStop(remaining, recordType, taskCtxId) == m;
    SplitLast(remaining, m);
  }

  /** Cutting the last element off a sequence, seen from index `m`. */
  lemma SplitLast<T>(s: seq<T>, m: nat)
    requires m < |s| - 1
    ensures s[..|s| - 1][..m] == s[..m]
    ensures Reverse(s[m + 1..]) == [s[|s| - 1]] + Reverse(s[..|s| - 1][m + 1..])
  {
    var tail := s[m + 1..];
    if tail != [] {
      assert tail[..|tail| - 1] == s[..|s| - 1][m + 1..];
    }
  }

  /** An exception escapes the search with only a proper prefix of the buffer left: the popped records are lost. */
  lemma {:induction false} ScanErrorShape(remaining: seq<Value>, collected: seq<Value>, recordType: int, taskCtxId: Value)
    requires Scan(remaining, collected, recordType, taskCtxId).result.Err?
    ensures var m := ScanStop(remaining, recordType, taskCtxId);
      0 <= m && Scan(remaining, collected, recordType, taskCtxId).buffer == remaining[..m]
    decreases |remaining|
  {
    var n := |remaining|;
    var rest := remaining[..n - 1];
    if LegacyProbe(remaining[n - 1], recordType, taskCtxId).Err? {
      assert remaining[..n - 1] == rest;
    } else {
      ScanErrorShape(rest, collected + [remaining[n - 1]], recordType, taskCtxId);
      var m := ScanStop(rest, recordType, taskCtxId);
      assert rest[..m] == remaining[..m];
    }
  }

  function Found(r: Option<Value>): seq<Value>
  {
    if r.Some? then [r.value] else []
  }

  /**
   * Without an exception no record is lost: the buffer keeps every record except the one returned,
   * which matches. With an exception records are only lost.
   */
  lemma FindAndRemoveAccounts(buffer: seq<Value>, recordType: int, taskCtxId: Value)
    ensures var r := FindAndRemoveSpec(buffer, recordType, taskCtxId);
      (r.result.Ok? ==> multiset(r.buffer) + multiset(Found(r.result.value)) == multiset(buffer)
                        && |r.buffer| + |Found(r.result.value)| == |buffer|)
      && (r.result.Ok? && r.result.value.Some? ==> LegacyProbe(r.result.value.value, recordType, taskCtxId) == Ok(true))
      && (r.result.Err? ==> multiset(r.buffer) <= multiset(buffer) && |r.buffer| < |buffer|)
  {
    var r := FindAndRemoveSpec(buffer, recordType, taskCtxId);
    if r.result == Ok(None) {
      NothingFoundAccounts(buffer, recordType, taskCtxId);
    } else if r.result.Ok? {
      FoundAccounts(buffer, recordType, taskCtxId);
    } else {
      ErrorAccounts(buffer, recordType, taskCtxId);
    }
  }

  lemma NothingFoundAccounts(buffer: seq<Value>, recordType: int, taskCtxId: Value)
    requires FindAndRemoveSpec(buffer, recordType, taskCtxId).result == Ok(None)
    ensures var r := FindAndRemoveSpec(buffer, recordType, taskCtxId);
      multiset(r.buffer) == multiset(buffer) && |r.buffer| == |buffer|
  {
    ScanNoneShape(buffer, [], recordType, taskCtxId);
    assert [] + Reverse(buffer) == Reverse(buffer);
    ReverseMultiset(buffer);
  }

  lemma ErrorAccounts(buffer: seq<Value>, recordType: int, taskCtxId: Value)
    requires FindAndRemoveSpec(buffer, recordType, taskCtxId).result.Err?
    ensures var r := FindAndRemoveSpec(buffer, recordType, taskCtxId);
      multiset(r.buffer) <= multiset(buffer) && |r.buffer| < |buffer|
  {
    ScanErrorShape(buffer, [], recordType, taskCtxId);
    var m := ScanStop(buffer, recordType, taskCtxId);
    assert buffer == buffer[..m] + buffer[m..];
  }

  lemma FoundAccounts(buffer: seq<Value>, recordType: int, taskCtxId: Value)
    requires FindAndRemoveSpec(buffer, recordType, taskCtxId).result.Ok?
    requires FindAndRemoveSpec(buffer, recordType, taskCtxId).result.value.Some?
    ensures var r := FindAndRemoveSpec(buffer, recordType, taskCtxId);
      multiset(r.buffer) + multiset{r.result.value.value} == multiset(buffer)
      && |r.buffer| + 1 == |buffer|
      && LegacyProbe(r.result.value.value, recordType, taskCtxId) == Ok(true)
  {
    ScanFoundShape(buffer, [], recordType, taskCtxId);
    var m := ScanStop(buffer, recordType, taskCtxId);
    assert buffer[..m] + [] + Reverse(buffer[m + 1..]) == buffer[..m] + Reverse(buffer[m + 1..]);
    ReversedTailMultiset(buffer, m);
  }

  /** Taking out element `m` and reversing what follows it keeps every other element. */
  lemma ReversedTailMultiset<T>(s: seq<T>, m: nat)
    requires m < |s|
    ensures multiset(s[..m] + Reverse(s[m + 1..])) + multiset{s[m]} == multiset(s)
  {
    ReverseMultiset(s[m + 1..]);
    assert s == s[..m] + [s[m]] + s[m + 1..];
  }

  /** With no match anywhere the whole buffer comes back reversed. */
  lemma FindNothingReverses(buffer: seq<Value>, recordType: int, taskCtxId: Value)
    requires FindAndRemoveSpec(buffer, recordType, taskCtxId).result == Ok(None)
    ensures FindAndRemoveSpec(buffer, recordType, taskCtxId).buffer == Reverse(buffer)
    ensures forall k | 0 <= k < |buffer| :: LegacyProbe(buffer[k], recordType, taskCtxId) == Ok(false)
  {
    ScanNoneShape(buffer, [], recordType, taskCtxId);
  }

  /**
   * A match returns the last matching record (every later record fails the test); the records
   * before it stay in place and the records after it come back reversed.
   */
  lemma FindReturnsLastMatch(buffer: seq<Value>, recordType: int, taskCtxId: Value)
    requires FindAndRemoveSpec(buffer, recordType, taskCtxId).result.Ok?
    requires FindAndRemoveSpec(buffer, recordType, taskCtxId).result.value.Some?
    ensures var r := FindAndRemoveSpec(buffer, recordType, taskCtxId); var m := ScanStop(buffer, recordType, taskCtxId);
      0 <= m && r.result.value.value == buffer[m]
      && LegacyProbe(buffer[m], recordType, taskCtxId) == Ok(true)
      && (forall k | m < k < |buffer| :: LegacyProbe(buffer[k], recordType, taskCtxId) == Ok(false))
      && r.buffer == buffer[..m] + Reverse(buffer[m + 1..])
  {
    ScanFoundShape(buffer, [], recordType, taskCtxId);
    var m := ScanStop(buffer, recordType, taskCtxId);
    assert buffer[..m] + [] + Reverse(buffer[m + 1..]) == buffer[..m] + Reverse(buffer[m + 1..]);
  }

  /** `get_spade_record_namespace_clone`'s `ns_operation`: the STRING `sys_id` names, else Python's `None`. */
  function LegacyOperation(sysId: Value): (op: string)
    ensures op == "NEWPROCESS" <==> sysId == VStr("clone")
    ensures op == "SETNS" <==> sysId == VStr("setns")
    ensures op == "UNSHARE" <==> sysId == VStr("unshare")
    ensures op == "None" <==> sysId !in {VStr("clone"), VStr("setns"), VStr("unshare")}
  {
    if sysId == VStr("clone") then "NEWPROCESS"
    else if sysId == VStr("setns") then "SETNS"
    else if sysId == VStr("unshare") then "UNSHARE"
    else "None"
  }

  lemma PrefixOfConcat(p: string, rest: string)
    ensures (p + rest)[..|p|] == p
  {
  }

  /** `get_spade_record_namespace_clone`: None without a Namespace record, else the namespace line. */
  function NamespaceClone(lasEventId: Value, lasTime: Value, ale: Value, ns: Option<Value>): (r: Result<Option<string>, PyError>)
    ensures ns.None? ==> r == Ok(None)
    ensures r.Ok? && r.value.Some? ==>
      ns.Some? && Index(ns.value, "sys_id").Ok?
      && var p := Preamble(lasTime, lasEventId) + " ns_syscall=";
      |p| <= |r.value.value| && r.value.value[..|p|] == p
  {
    if !Truthy(ale) then Ok(None)
    else if ns.None? || !Truthy(ns.value) then Ok(None)
    else
      var n := ns.value;
      var sysId :- Index(n, "sys_id");
      var syscall :- Index(ale, "syscall_number");
      var nsPid :- Index(ale, "exit");
      var hostPid :- Index(n, "pid");
      var mnt :- Index(n, "ns_mnt");
      var net :- Index(n, "ns_net");
      var pidNs :- Index(n, "ns_pid");
      var pidChildren :- Index(n, "ns_pid_children");
      var usr :- Index(n, "ns_usr");
      var ipc :- Index(n, "ns_ipc");
      var p := Preamble(lasTime, lasEventId) + " ns_syscall=";
      var rest := Show(syscall)
        + " ns_subtype=ns_namespaces"
        + " ns_operation=ns_" + LegacyOperation(sysId)
        + " ns_ns_pid=" + Show(nsPid)
        + " ns_host_pid=" + Show(hostPid)
        + " ns_inum_mnt=" + Show(mnt)
        + " ns_inum_net=" + Show(net)
        + " ns_inum_pid=" + Show(pidNs)
        + " ns_inum_pid_children=" + Show(pidChildren)
        + " ns_inum_usr=" + Show(usr)
        + " ns_inum_ipc=" + Show(ipc);
      PrefixOfConcat(p, rest);
      Ok(Some(p + rest))
  }

  function Shown(line: Option<string>): Printed
  {
    if line.Some? then Spade(line.value) else NoneLine
  }

  /** The records the clone correlation pulled out of the buffer, each None when absent. */
  datatype CloneFinds = CloneFinds(cred: Option<Value>, namespace: Option<Value>, newProcess: Option<Value>)

  /** The three removals' outcome and the buffer they leave. */
  datatype Search = Search(result: Result<CloneFinds, PyError>, buffer: seq<Value>)

  /** The three `find_and_remove_record` calls, in the order Cred, Namespace, NewProcess. */
  function CloneSearch(buffer: seq<Value>, taskCtxId: Value): Search
  {
    var cred := FindAndRemoveSpec(buffer, CRED, taskCtxId);
    if cred.result.Err? then Search(Err(cred.result.error), cred.buffer)
    else
      var ns := FindAndRemoveSpec(cred.buffer, NAMESPACE, taskCtxId);
      if ns.result.Err? then Search(Err(ns.result.error), ns.buffer)
      else
        var np := FindAndRemoveSpec(ns.buffer, NEW_PROCESS, taskCtxId);
        if np.result.Err? then Search(Err(np.result.error), np.buffer)
        else Search(Ok(CloneFinds(cred.result.value, ns.result.value, np.result.value)), np.buffer)
  }

  /** `process_record_audit_log_exit_for_clone`: the three removals, then one print. */
  function CloneStep(s: LegacyState, ale: Value, lasEventId: Value, lasTime: Value, taskCtxId: Value): Run
  {
    var search := CloneSearch(s.buffer, taskCtxId);
    match search.result
    case Err(e) => Run(s.(buffer := search.buffer), Some(e))
    case Ok(finds) =>
      match NamespaceClone(lasEventId, lasTime, ale, finds.namespace)
      case Err(e) => Run(s.(buffer := search.buffer), Some(e))
      case Ok(line) => Run(LegacyState(search.buffer, s.output + [Shown(line)]), None)
  }

  /** The fields `process_record_audit_log_exit` reads, in its order: (syscall, las event id, las time, task context id). */
  function ExitFields(obj: Value): Result<(Value, Value, Value, Value), PyError>
  {
    var syscall :- Index(obj, "syscall_number");
    var _ :- Index(obj, "pid");
    var lasEventId :- Index2(obj, "las_audit", "event_id");
    var lasTime :- Index2(obj, "las_audit", "time");
    var ctx :- Index(obj, "task_ctx_id");
    var _ :- Index(obj, "event_id");
    Ok((syscall, lasEventId, lasTime, ctx))
  }

  /** `process_record_audit_log_exit`: discarded on an empty buffer, correlated only for `clone`. */
  function ExitStep(s: LegacyState, obj: Value): Run
  {
    match ExitFields(obj)
    case Err(e) => Run(s, Some(e))
    case Ok(f) =>
      if |s.buffer| == 0 then Run(s, None)
      else if f.0 == VInt(LEGACY_SYS_CLONE) then CloneStep(s, obj, f.1, f.2, f.3)
      else Run(s, None)
  }

  /** `process_line(line)`: an AuditLogExit is handled at once, every other record is buffered. */
  function LineStep(s: LegacyState, line: Line): Run
  {
    match line
    case Malformed => Run(s, Some(JsonDecodeError))
    case Json(obj) =>
      match Index(obj, "record_type")
      case Err(e) => Run(s, Some(e))
      case Ok(t) =>
        if t == VInt(AUDIT_LOG_EXIT) then ExitStep(s, obj)
        else Run(s.(buffer := s.buffer + [obj]), None)
  }

  function ReadLines(s: LegacyState, lines: seq<Line>): Run
    decreases |lines|
  {
    if lines == [] then Run(s, None)
    else
      var r := LineStep(s, lines[0]);
      if r.error.Some? then r else ReadLines(r.state, lines[1..])
  }

  /** `process_file(path)`: a missing file or a caught exception prints one message; nothing follows the read loop. */
  function FileRun(s: LegacyState, file: Option<seq<Line>>, path: string): LegacyState
  {
    match file
    case None => s.(output := s.output + [FileNotFound(path)])
    case Some(lines) =>
      var r := ReadLines(s, lines);
      if r.error.Some? then r.state.(output := r.state.output + [ReadError(r.error.value)]) else r.state
  }

  // ---------------------------------------------------------------------------------------------
  // Properties

  /** Every record other than an AuditLogExit is appended; an AuditLogExit is never buffered. */
  lemma LineStepBuffering(s: LegacyState, obj: Value)
    requires Index(obj, "record_type").Ok?
    ensures var r := LineStep(s, Json(obj));
      if Index(obj, "record_type") == Ok(VInt(AUDIT_LOG_EXIT))
      then |r.state.buffer| <= |s.buffer| && multiset(r.state.buffer) <= multiset(s.buffer)
      else r == Run(LegacyState(s.buffer + [obj], s.output), None)
  {
    if Index(obj, "record_type") == Ok(VInt(AUDIT_LOG_EXIT)) {
      var f := ExitFields(obj);
      if f.Ok? && |s.buffer| > 0 && f.value.0 == VInt(LEGACY_SYS_CLONE) {
        CloneSearchRemovesOnlyMatches(s.buffer, f.value.3);
      }
    }
  }

  /**
   * The clone correlation removes at most one Cred, one Namespace and one NewProcess record of its
   * task context, and adds none; an exception only loses records.
   */
  lemma CloneSearchRemovesOnlyMatches(buffer: seq<Value>, taskCtxId: Value)
    ensures var r := CloneSearch(buffer, taskCtxId);
      multiset(r.buffer) <= multiset(buffer) && |r.buffer| <= |buffer|
      && (r.result.Ok? ==>
            var f := r.result.value;
            multiset(r.buffer) + multiset(Found(f.cred) + Found(f.namespace) + Found(f.newProcess)) == multiset(buffer)
            && (f.cred.Some? ==> LegacyProbe(f.cred.value, CRED, taskCtxId) == Ok(true))
            && (f.namespace.Some? ==> LegacyProbe(f.namespace.value, NAMESPACE, taskCtxId) == Ok(true))
            && (f.newProcess.Some? ==> LegacyProbe(f.newProcess.value, NEW_PROCESS, taskCtxId) == Ok(true)))
  {
    var c := FindAndRemoveSpec(buffer, CRED, taskCtxId);
    FindAndRemoveAccounts(buffer, CRED, taskCtxId);
    if c.result.Ok? {
      Shrinks(buffer, c.buffer, Found(c.result.value));
      var n := FindAndRemoveSpec(c.buffer, NAMESPACE, taskCtxId);
      FindAndRemoveAccounts(c.buffer, NAMESPACE, taskCtxId);
      if n.result.Ok? {
        Shrinks(c.buffer, n.buffer, Found(n.result.value));
        var p := FindAndRemoveSpec(n.buffer, NEW_PROCESS, taskCtxId);
        FindAndRemoveAccounts(n.buffer, NEW_PROCESS, taskCtxId);
        if p.result.Ok? {
          Shrinks(n.buffer, p.buffer, Found(p.result.value));
          ChainAccounts(buffer, c.buffer, n.buffer, p.buffer, Found(c.result.value), Found(n.result.value), Found(p.result.value));
        }
      }
    }
  }

  /** A removal that is accounted for leaves a sub-multiset. */
  lemma Shrinks<T>(before: seq<T>, after: seq<T>, removed: seq<T>)
    requires multiset(after) + multiset(removed) == multiset(before)
    ensures multiset(after) <= multiset(before)
  {
  }

  /** Three removals in a row, each accounted for, account for the whole. */
  lemma ChainAccounts<T>(b0: seq<T>, b1: seq<T>, b2: seq<T>, b3: seq<T>, f1: seq<T>, f2: seq<T>, f3: seq<T>)
    requires multiset(b1) + multiset(f1) == multiset(b0)
    requires multiset(b2) + multiset(f2) == multiset(b1)
    requires multiset(b3) + multiset(f3) == multiset(b2)
    ensures multiset(b3) + multiset(f1 + f2 + f3) == multiset(b0)
  {
    assert multiset(f1 + f2 + f3) == multiset(f1) + multiset(f2) + multiset(f3);
  }

  /** A record that passes the search's test carries the searched type and task context id. */
  lemma ProbeMatch(x: Value, recordType: int, taskCtxId: Value)
    requires LegacyProbe(x, recordType, taskCtxId) == Ok(true)
    ensures Index(x, "record_type") == Ok(VInt(recordType)) && Index(x, "task_ctx_id") == Ok(taskCtxId)
  {
  }

  /** An AuditLogExit arriving on an empty buffer, or for a syscall other than `clone`, changes nothing. */
  lemma ExitDiscarded(s: LegacyState, obj: Value)
    requires ExitFields(obj).Ok?
    requires |s.buffer| == 0 || ExitFields(obj).value.0 != VInt(LEGACY_SYS_CLONE)
    ensures ExitStep(s, obj) == Run(s, None)
  {
  }

  /** A clone AuditLogExit prints exactly one line, "None" when no Namespace record of its context is buffered. */
  lemma CloneWithoutNamespacePrintsNone(s: LegacyState, ale: Value, lasEventId: Value, lasTime: Value, taskCtxId: Value)
    requires CloneSearch(s.buffer, taskCtxId).result.Ok?
    requires CloneSearch(s.buffer, taskCtxId).result.value.namespace.None?
    ensures CloneStep(s, ale, lasEventId, lasTime, taskCtxId)
      == Run(LegacyState(CloneSearch(s.buffer, taskCtxId).buffer, s.output + [NoneLine]), None)
  {
  }

  /**
   * There is no drain: a file of records that are not AuditLogExit leaves them all buffered, in
   * order, and prints nothing.
   */
  lemma {:induction false} NoDrain(s: LegacyState, lines: seq<Line>)
    requires forall k | 0 <= k < |lines| ::
      lines[k].Json? && Index(lines[k].value, "record_type").Ok? && Index(lines[k].value, "record_type") != Ok(VInt(AUDIT_LOG_EXIT))
    ensures FileRun(s, Some(lines), "") == LegacyState(s.buffer + Values(lines), s.output)
    decreases |lines|
  {
    if lines != [] {
      var s1 := LegacyState(s.buffer + [lines[0].value], s.output);
      assert LineStep(s, lines[0]) == Run(s1, None);
      NoDrain(s1, lines[1..]);
      assert Values(lines) == [lines[0].value] + Values(lines[1..]);
    }
  }

  function Values(lines: seq<Line>): seq<Value>
    requires forall k | 0 <= k < |lines| :: lines[k].Json?
  {
    if lines == [] then [] else [lines[0].value] + Values(lines[1..])
  }

  // ---------------------------------------------------------------------------------------------
  // The module-level `buffer` and the functions that mutate it

  class Correlator {
    var buffer: seq<Value>
    var output: seq<Printed>

    function Snapshot(): LegacyState
      reads this
    {
      LegacyState(buffer, output)
    }

    constructor ()
      ensures Snapshot() == LegacyState([], [])
    {
      buffer := [];
      output := [];
    }

    /** `find_and_remove_record(record_type, task_ctx_id)`: pop from the tail until a match, then re-append the popped records. */
    method FindAndRemove(recordType: int, taskCtxId: Value) returns (r: Result<Option<Value>, PyError>)
      modifies this
      ensures Removal(r, buffer) == FindAndRemoveSpec(old(buffer), recordType, taskCtxId)
      ensures output == old(output)
    {
      var collected: seq<Value> := [];
      var result: Option<Value> := None;
      while |buffer| > 0 && result.None?
        invariant result.None? ==> Scan(buffer, collected, recordType, taskCtxId) == FindAndRemoveSpec(old(buffer), recordType, taskCtxId)
        invariant result.Some? ==> FindAndRemoveSpec(old(buffer), recordType, taskCtxId) == Removal(Ok(result), buffer + collected)
        invariant output == old(output)
        decreases |buffer|
      {
        var item := buffer[|buffer| - 1];
        buffer := buffer[..|buffer| - 1];
        var itemType :- Index(item, "record_type");
        if itemType == VInt(recordType) {
          var ctx :- Index(item, "task_ctx_id");
          if ctx == taskCtxId {
            result := Some(item);
          }
        }
        if result.None? {
          collected := collected + [item];
        }
      }
      ghost var base := buffer;
      var i := 0;
      while i < |collected|
        invariant 0 <= i <= |collected|
        invariant buffer == base + collected[..i]
        invariant output == old(output)
      {
        buffer := buffer + [collected[i]];
        i := i + 1;
      }
      assert collected[..i] == collected;
      r := Ok(result);
    }

    /** The three `find_and_remove_record` calls of `process_record_audit_log_exit_for_clone`. */
    method SearchClone(taskCtxId: Value) returns (r: Result<CloneFinds, PyError>)
      modifies this
      ensures buffer == CloneSearch(old(buffer), taskCtxId).buffer
      ensures r == CloneSearch(old(buffer), taskCtxId).result
      ensures output == old(output)
    {
      var cred :- FindAndRemove(CRED, taskCtxId);
      var ns :- FindAndRemove(NAMESPACE, taskCtxId);
      var np :- FindAndRemove(NEW_PROCESS, taskCtxId);
      r := Ok(CloneFinds(cred, ns, np));
    }

    method ProcessExitForClone(ale: Value, lasEventId: Value, lasTime: Value, taskCtxId: Value) returns (r: Result<(), PyError>)
      modifies this
      ensures Snapshot() == CloneStep(old(Snapshot()), ale, lasEventId, lasTime, taskCtxId).state
      ensures r.Err? <==> CloneStep(old(Snapshot()), ale, lasEventId, lasTime, taskCtxId).error.Some?
      ensures r.Err? ==> CloneStep(old(Snapshot()), ale, lasEventId, lasTime, taskCtxId).error == Some(r.error)
    {
      var finds :- SearchClone(taskCtxId);
      var line :- NamespaceClone(lasEventId, lasTime, ale, finds.namespace);
      output := output + [Shown(line)];
      r := Ok(());
    }

    /** `process_record_audit_log_exit`. */
    method ProcessExit(obj: Value) returns (r: Result<(), PyError>)
      modifies this
      ensures Snapshot() == ExitStep(old(Snapshot()), obj).state
      ensures r.Err? <==> ExitStep(old(Snapshot()), obj).error.Some?
      ensures r.Err? ==> ExitStep(old(Snapshot()), obj).error == Some(r.error)
    {
      var fields :- ExitFields(obj);
      var (syscall, lasEventId, lasTime, ctx) := fields;
      if |buffer| == 0 {
        return Ok(());
      }
      if syscall == VInt(LEGACY_SYS_CLONE) {
        r := ProcessExitForClone(obj, lasEventId, lasTime, ctx);
      } else {
        r := Ok(());
      }
    }

    /** `process_line(line)`. */
    method ProcessLine(line: Line) returns (r: Result<(), PyError>)
      modifies this
      ensures Snapshot() == LineStep(old(Snapshot()), line).state
      ensures r.Err? <==> LineStep(old(Snapshot()), line).error.Some?
      ensures r.Err? ==> LineStep(old(Snapshot()), line).error == Some(r.error)
    {
      if line.Malformed? {
        return Err(JsonDecodeError);
      }
      var recordType :- Index(line.value, "record_type");
      if recordType == VInt(AUDIT_LOG_EXIT) {
        r := ProcessExit(line.value);
      } else {
        buffer := buffer + [line.value];
        r := Ok(());
      }
    }

    /** `process_file(path)`. */
    method ProcessFile(file: Option<seq<Line>>, path: string)
      modifies this
      ensures Snapshot() == FileRun(old(Snapshot()), file, path)
    {
      ghost var s0 := Snapshot();
      match file {
        case None =>
          output := output + [FileNotFound(path)];
        case Some(lines) =>
          var i := 0;
          var failed := false;
          while i < |lines| && !failed
            invariant 0 <= i <= |lines|
            invariant !failed ==> ReadLines(s0, lines) == ReadLines(Snapshot(), lines[i..])
            invariant failed ==> Snapshot() == FileRun(s0, file, path)
            decreases |lines| - i, if failed then 0 else 1
          {
            assert lines[i..][0] == lines[i] && lines[i..][1..] == lines[i + 1..];
            var res := ProcessLine(lines[i]);
            if res.Err? {
              output := output + [ReadError(res.error)];
              failed := true;
            } else {
              i := i + 1;
            }
          }
      }
    }
  }
}
