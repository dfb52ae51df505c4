/**
 * Records of the SPADE transformer (bin/transform_log_to_spade.py) as decoded JSON values, the
 * exceptions their field accesses can raise, the per-pid process-information cache, and the
 * value encodings the SPADE lines use (`long_to_hex_str`, ASCII-hex `comm`).
 */
module SpadeRecords {
  import opened Wrappers
  import opened Decimal
  import opened Hex

  /** Record type tags (`RecordType`). */
  const NEW_PROCESS: int := 1
  const CRED: int := 2
  const NAMESPACE: int := 3
  const CONNECT: int := 4
  const ACCEPT: int := 5
  const SEND_RECV: int := 6
  const BIND: int := 7
  const KILL: int := 8
  const AUDIT_LOG_EXIT: int := 9

  /** `SysId` values a Namespace record carries in `sys_id`. */
  const SYS_ID_CLONE: int := 3
  const SYS_ID_SETNS: int := 4
  const SYS_ID_UNSHARE: int := 5

  /** x86-64 system-call numbers (`SysNum`). */
  const SYS_CLONE: int := 220
  const SYS_SETNS: int := 268
  const SYS_UNSHARE: int := 97
  const SYS_CLONE3: int := 435
  const SYS_SENDTO: int := 206
  const SYS_SENDMSG: int := 211
  const SYS_RECVFROM: int := 207
  const SYS_RECVMSG: int := 212
  const SYS_ACCEPT: int := 202
  const SYS_ACCEPT4: int := 242
  const SYS_BIND: int := 200
  const SYS_CONNECT: int := 203
  const SYS_KILL: int := 129

  /** A decoded JSON value: an integer, a string or an object. */
  datatype Value = VInt(i: int) | VStr(s: string) | VObj(fields: map<string, Value>)

  /** The Python exceptions the transformer can raise while reading records. */
  datatype PyError =
    | NotAnObject                                   // must_get_value on a non-dict
    | MissingKey(key: string, eventId: Option<Value>) // must_get_value on a dict without the key
    | KeyError(key: string)                         // record[key] on a dict without the key
    | NotSubscriptable                              // record[key] on an int or a str
    | Unhashable                                    // a dict used as a proc_infos key
    | NoEncodeOrToBytes                             // .encode / .to_bytes on a value of the wrong type
    | UnicodeEncodeError                            // comm with a non-ASCII character
    | OverflowError                                 // to_bytes(4, signed=True) out of range
    | JsonDecodeError                               // json.loads on a malformed line

  /** `str(v)` as an f-string prints it. A nested object prints as a fixed placeholder. */
  function Show(v: Value): string
  {
    match v
    case VInt(i) => IntToString(i)
    case VStr(s) => s
    case VObj(_) => "{...}"
  }

  /** `must_get_value(record, key)`: the value under `key`, or the RuntimeError it raises. */
  function MustGet(record: Value, key: string): (r: Result<Value, PyError>)
    ensures r.Ok? <==> record.VObj? && key in record.fields
    ensures r.Ok? ==> r.value == record.fields[key]
    ensures r.Err? && record.VObj? ==> r.error.MissingKey? && r.error.key == key
  {
    if !record.VObj? then Err(NotAnObject)
    else if key !in record.fields then
      Err(MissingKey(key, if "event_id" in record.fields then Some(record.fields["event_id"]) else None))
    else Ok(record.fields[key])
  }

  /** Python's `record[key]` on a decoded value. */
  function Index(record: Value, key: string): (r: Result<Value, PyError>)
    ensures r.Ok? <==> record.VObj? && key in record.fields
    ensures r.Ok? ==> r.value == record.fields[key]
  {
    match record
    case VObj(fields) => if key in fields then Ok(fields[key]) else Err(KeyError(key))
    case _ => Err(NotSubscriptable)
  }

  /** `get_las_event_id_and_time`: (event id, time) of the record's `las_audit` object. */
  function LasEventIdAndTime(r: Value): Result<(Value, Value), PyError>
  {
    var las :- MustGet(r, "las_audit");
    var eventId :- MustGet(las, "event_id");
    var time :- MustGet(las, "time");
    Ok((eventId, time))
  }

  /** `long_to_hex_str`'s bytes: `to_bytes(4, 'big')` of a value already reduced modulo 2^32. */
  function BigEndian4(u: nat): (bs: seq<byte>)
    requires u < 0x1_0000_0000
    ensures |bs| == 4
  {
    [u / 0x100 / 0x100 / 0x100, u / 0x100 / 0x100 % 0x100, u / 0x100 % 0x100, u % 0x100]
  }

  lemma BigEndian4Value(u: nat)
    requires u < 0x1_0000_0000
    ensures BigEndianValue(BigEndian4(u)) == u
  {
    var bs := BigEndian4(u);
    var b0, b1, b2, b3: int := bs[0], bs[1], bs[2], bs[3];
    assert bs[..1][..0] == [];
    assert BigEndianValue(bs[..1]) == b0;
    assert bs[..2][..1] == bs[..1];
    assert BigEndianValue(bs[..2]) == b0 * 0x100 + b1;
    assert bs[..3][..2] == bs[..2];
    assert BigEndianValue(bs[..3]) == (b0 * 0x100 + b1) * 0x100 + b2;
    assert bs[..4] == bs;
    assert BigEndianValue(bs) == ((b0 * 0x100 + b1) * 0x100 + b2) * 0x100 + b3;
  }

  /**
   * `long_to_hex_str(v)`: "0" for zero; otherwise the lowercase hex of the 4-byte big-endian
   * two's-complement encoding with leading '0' characters stripped. A value outside the signed
   * 32-bit range raises OverflowError, a non-integer has no `to_bytes`.
   */
  function LongToHexStr(v: Value): (r: Result<string, PyError>)
    ensures r.Ok? <==> v.VInt? && -0x8000_0000 <= v.i <= 0x7fff_ffff
    ensures r.Err? ==> (r.error == OverflowError <==> v.VInt?)
  {
    if v == VInt(0) then Ok("0")
    else if !v.VInt? then Err(NoEncodeOrToBytes)
    else if v.i < -0x8000_0000 || v.i > 0x7fff_ffff then Err(OverflowError)
    else Ok(StripLeadingZeros(BytesToHex(BigEndian4(v.i % 0x1_0000_0000))))
  }

  /** Reads a hex string back as a signed 32-bit value. */
  function Signed32(u: nat): int
  {
    if u >= 0x8000_0000 then u - 0x1_0000_0000 else u
  }

  /**
   * The encoding is exact and as short as possible: a non-zero value in range gives 1 to 8 hex
   * digits without a leading '0', and reading them as a 32-bit two's-complement number gives the
   * value back. Negative values always use all 8 digits.
   */
  lemma LongToHexStrRoundTrip(n: int)
    requires -0x8000_0000 <= n <= 0x7fff_ffff
    ensures LongToHexStr(VInt(n)).Ok?
    ensures var s := LongToHexStr(VInt(n)).value;
      1 <= |s| <= 8 && (s[0] == '0' <==> n == 0)
      && (forall i | 0 <= i < |s| :: IsHexDigit(s[i]))
      && Signed32(HexValue(s)) == n
      && (n < 0 ==> |s| == 8)
  {
    if n != 0 {
      var u := n % 0x1_0000_0000;
      PatternOf(n);
      assert LongToHexStr(VInt(n)).value == StripLeadingZeros(BytesToHex(BigEndian4(u)));
      StrippedHex(u);
    }
  }

  /** The 32-bit pattern of a non-zero value in range, and its signed reading. */
  lemma PatternOf(n: int)
    requires -0x8000_0000 <= n <= 0x7fff_ffff && n != 0
    ensures var u := n % 0x1_0000_0000;
      0 < u < 0x1_0000_0000 && Signed32(u) == n && (n < 0 <==> u >= 0x8000_0000)
  {
    if n < 0 {
      assert n % 0x1_0000_0000 == n + 0x1_0000_0000;
    } else {
      assert n % 0x1_0000_0000 == n;
    }
  }

  /** The stripped encoding of a non-zero 32-bit pattern: 1 to 8 hex digits, no leading '0', all 8 when the top bit is set. */
  lemma StrippedHex(u: nat)
    requires 0 < u < 0x1_0000_0000
    ensures var s := StripLeadingZeros(BytesToHex(BigEndian4(u)));
      1 <= |s| <= 8 && s[0] != '0' && (forall i | 0 <= i < |s| :: IsHexDigit(s[i])) && HexValue(s) == u
      && (u >= 0x8000_0000 ==> |s| == 8)
  {
    var hex := BytesToHex(BigEndian4(u));
    HexEncodingValue(u);
    StrippedDigits(hex);
    if u >= 0x8000_0000 {
      NegativeHexFull(u);
    }
  }

  /** Stripping leading zeros keeps a string of hex digits a string of hex digits. */
  lemma StrippedDigits(hex: string)
    requires forall i | 0 <= i < |hex| :: IsHexDigit(hex[i])
    ensures var s := StripLeadingZeros(hex);
      forall i | 0 <= i < |s| :: IsHexDigit(s[i])
  {
    var s := StripLeadingZeros(hex);
    forall i | 0 <= i < |s|
      ensures IsHexDigit(s[i])
    {
      assert s[i] == hex[|hex| - |s| + i];
    }
  }

  lemma HexEncodingValue(u: nat)
    requires u < 0x1_0000_0000
    ensures HexValue(StripLeadingZeros(BytesToHex(BigEndian4(u)))) == u
  {
    HexValueOfBytes(BigEndian4(u));
    BigEndian4Value(u);
    StripLeadingZerosValue(BytesToHex(BigEndian4(u)));
  }

  lemma NegativeHexFull(u: nat)
    requires 0x8000_0000 <= u < 0x1_0000_0000
    ensures StripLeadingZeros(BytesToHex(BigEndian4(u))) == BytesToHex(BigEndian4(u))
  {
    var bs := BigEndian4(u);
    BytesToHexAt(bs, 0);
    assert bs[0] >= 0x80;
    assert BytesToHex(bs)[0] == ByteToHex(bs[0])[0];
  }

  /** `comm.encode('ascii').hex()`: two lowercase hex digits per character; a non-ASCII character or a non-string fails. */
  function CommHex(comm: Value): (r: Result<string, PyError>)
    ensures r.Ok? ==> comm.VStr? && |r.value| == 2 * |comm.s|
  {
    if !comm.VStr? then Err(NoEncodeOrToBytes)
    else if exists i | 0 <= i < |comm.s| :: comm.s[i] as int >= 128 then Err(UnicodeEncodeError)
    else Ok(BytesToHex(seq(|comm.s|, i requires 0 <= i < |comm.s| => comm.s[i] as int)))
  }

  /** Decoding the `comm` field recovers the process name's character codes. */
  lemma CommHexRoundTrip(comm: string)
    requires forall i | 0 <= i < |comm| :: comm[i] as int < 128
    ensures CommHex(VStr(comm)).Ok?
    ensures HexToBytes(CommHex(VStr(comm)).value) == Some(seq(|comm|, i requires 0 <= i < |comm| => comm[i] as int))
  {
    BytesHexRoundTrip(seq(|comm|, i requires 0 <= i < |comm| => comm[i] as int));
  }

  /** A pid's cache entry: the last NewProcess record and the last Cred record seen for it. */
  datatype ProcInfo = ProcInfo(newProcess: Option<Value>, cred: Option<Value>)

  type ProcInfos = map<Value, ProcInfo>

  /**
   * `proc_infos_set(r)` for a Cred or NewProcess record: stores `r` under its pid and type,
   * replacing any earlier record of that type for that pid. A dict pid is unhashable.
   */
  function ProcInfosSet(infos: ProcInfos, r: Value): (res: Result<ProcInfos, PyError>)
  {
    var rType :- MustGet(r, "record_type");
    var pid :- MustGet(r, "pid");
    if pid.VObj? then Err(Unhashable)
    else
      var entry := if pid in infos then infos[pid] else ProcInfo(None, None);
      Ok(infos[pid := if rType == VInt(CRED) then entry.(cred := Some(r)) else entry.(newProcess := Some(r))])
  }

  /** Last write wins: the record is now the entry of its type for its pid, and nothing else changed. */
  lemma ProcInfosSetLastWriteWins(infos: ProcInfos, r: Value)
    requires r.VObj? && "record_type" in r.fields && "pid" in r.fields && !r.fields["pid"].VObj?
    requires r.fields["record_type"] in {VInt(CRED), VInt(NEW_PROCESS)}
    ensures ProcInfosSet(infos, r).Ok?
    ensures var updated := ProcInfosSet(infos, r).value; var pid := r.fields["pid"];
      pid in updated
      && (r.fields["record_type"] == VInt(CRED) ==>
            updated[pid].cred == Some(r) && updated[pid].newProcess == (if pid in infos then infos[pid].newProcess else None))
      && (r.fields["record_type"] == VInt(NEW_PROCESS) ==>
            updated[pid].newProcess == Some(r) && updated[pid].cred == (if pid in infos then infos[pid].cred else None))
      && (forall p | p in infos && p != pid :: p in updated && updated[p] == infos[p])
      && updated.Keys == infos.Keys + {pid}
  {
  }

  /** ` key=value` for each key, read from `record` in order (`cred_obj["uid"]`, ...). */
  function KeyedFields(record: Value, keys: seq<string>): Result<string, PyError>
  {
    if keys == [] then Ok("")
    else
      var v :- Index(record, keys[0]);
      var rest :- KeyedFields(record, keys[1..]);
      Ok(" " + keys[0] + "=" + Show(v) + rest)
  }

  const CRED_KEYS: seq<string> := ["uid", "euid", "suid", "fsuid", "gid", "egid", "sgid", "fsgid"]

  /** The ppid and ASCII-hex comm of a NewProcess record. */
  function NewProcessFields(np: Value): Result<string, PyError>
  {
    var ppid :- Index(np, "ppid");
    var comm :- Index(np, "comm");
    var hex :- CommHex(comm);
    Ok(" ppid=" + Show(ppid) + " comm=" + hex)
  }

  /**
   * `get_proc_info_for_spade_record(pid)`: "" for a pid never cached; otherwise the eight
   * credential fields if a Cred record is cached, then ppid and comm if a NewProcess record is.
   */
  function Enrichment(infos: ProcInfos, pid: Value): Result<string, PyError>
  {
    if pid.VObj? then Err(Unhashable)
    else if pid !in infos then Ok("")
    else
      var credPart :- if infos[pid].cred.Some? then KeyedFields(infos[pid].cred.value, CRED_KEYS) else Ok("");
      var procPart :- if infos[pid].newProcess.Some? then NewProcessFields(infos[pid].newProcess.value) else Ok("");
      Ok(credPart + procPart)
  }

  /**
   * What the enrichment holds: nothing for an unknown pid or an empty entry; the credential
   * fields (starting " uid=") exactly when a Cred record is cached, followed by the ppid/comm
   * fields exactly when a NewProcess record is cached; the ppid/comm fields alone (starting
   * " ppid=") when only a NewProcess record is cached.
   */
  lemma EnrichmentParts(infos: ProcInfos, pid: Value)
    requires Enrichment(infos, pid).Ok?
    ensures var e := Enrichment(infos, pid).value;
      (pid !in infos ==> e == "")
      && (pid in infos && infos[pid].cred.None? && infos[pid].newProcess.None? ==> e == "")
      && (pid in infos && infos[pid].cred.Some? ==> |e| >= 5 && e[..5] == " uid=")
      && (pid in infos && infos[pid].cred.Some? && infos[pid].newProcess.None? ==>
            e == KeyedFields(infos[pid].cred.value, CRED_KEYS).value)
      && (pid in infos && infos[pid].cred.Some? && infos[pid].newProcess.Some? ==>
            KeyedFields(infos[pid].cred.value, CRED_KEYS).Ok? && NewProcessFields(infos[pid].newProcess.value).Ok?
            && e == KeyedFields(infos[pid].cred.value, CRED_KEYS).value + NewProcessFields(infos[pid].newProcess.value).value)
      && (pid in infos && infos[pid].cred.None? && infos[pid].newProcess.Some? ==>
            |e| >= 6 && e[..6] == " ppid=" && e == NewProcessFields(infos[pid].newProcess.value).value)
  {
    if pid in infos {
      var info := infos[pid];
      if info.cred.Some? {
        CredFieldsStart(info.cred.value);
      }
    }
  }

  /** The credential fields start with " uid=". */
  lemma CredFieldsStart(cred: Value)
    requires KeyedFields(cred, CRED_KEYS).Ok?
    ensures var t := KeyedFields(cred, CRED_KEYS).value; |t| >= 5 && t[..5] == " uid="
  {
    var v := Index(cred, "uid").value;
    var rest := KeyedFields(cred, CRED_KEYS[1..]).value;
    assert KeyedFields(cred, CRED_KEYS).value == " uid=" + (Show(v) + rest);
  }
}
