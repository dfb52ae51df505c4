/**
 * The rotating directory writer (`record_writer_dir`): records go to `ameba_log_NNN.log` files in
 * one directory, and a write that would take the current file over its byte budget first moves on
 * to the file whose index the directory listing selects.
 *
 * The directory listing, `stat`/`mkdir` and the underlying file writer's answers are parameters;
 * the writer's static state is a class whose methods are proved against step functions on its value.
 */
module LogRotation {
  import opened Wrappers
  import opened Decimal
  import opened CStd
  import opened LogOptions

  const U32: nat := 0x1_0000_0000
  const U64: nat := 0x1_0000_0000_0000_0000

  /** The literal text before the `%03u` conversion in `"ameba_log_%03u.log"`. */
  const LOG_PREFIX: string := "ameba_log_"
  const LOG_SUFFIX: string := ".log"

  // ---------------------------------------------------------------------------------------------
  // File names

  /** The `%3u` conversion on `s`: white space is skipped, then at most three characters (an optional
    * sign and digits) are read, and a '-' negates modulo 2^32.  `None` when no digit is read. */
  function ScanUnsigned(s: string): (r: Option<nat>)
    ensures r.Some? ==> r.value < U32
  {
    var t := s[LeadingSpaces(s)..];
    var w := if |t| < 3 then t else t[..3];
    var signed := |w| > 0 && (w[0] == '+' || w[0] == '-');
    var ds := if signed then w[1..] else w;
    var k := LeadingDigits(ds);
    if k == 0 then None
    else
      var v := DigitsValue(ds[..k]) % 0x1_0000_0000;
      Some(if signed && w[0] == '-' then (0x1_0000_0000 - v) % 0x1_0000_0000 else v)
  }

  /** `sscanf(name, "ameba_log_%03u.log", &idx)`: `Some(idx)` when it returns 1, `None` otherwise.
    * The prefix must match exactly.  Nothing after the number is required to match, since the
    * conversion count is already 1 when the ".log" suffix is compared. */
  function ScanIndex(name: string): (r: Option<nat>)
    ensures r.Some? ==> r.value < U32
    ensures r.Some? ==> |name| > |LOG_PREFIX| && name[..|LOG_PREFIX|] == LOG_PREFIX
  {
    if |name| <= |LOG_PREFIX| || name[..|LOG_PREFIX|] != LOG_PREFIX then None
    else ScanUnsigned(name[|LOG_PREFIX|..])
  }

  /** The file name `"ameba_log_%03u.log"` gives index `i`. */
  function LogName(i: nat): string
  {
    LOG_PREFIX + (ZeroPad(NatToString(i), 3) + LOG_SUFFIX)
  }

  /** `snprintf(path, len, "%s/ameba_log_%03u.log", dir, i)` before truncation. */
  function LogPath(dir: string, i: nat): (p: string)
    ensures p == dir + "/" + LogName(i)
    ensures |p| == |dir| + 18 + (if i < 1000 then 0 else |NatToString(i)| - 3)
  {
    assert |ZeroPad(NatToString(i), 3)| == if i < 1000 then 3 else |NatToString(i)| by {
      if i < 1000 {
        assert i < Pow10(3);
        NatToStringWidth(i, 3);
      } else {
        assert i >= Pow10(3);
        NatToStringWidthAtLeast(i, 4);
      }
    }
    dir + "/" + LogName(i)
  }

  /** Zeros in front of a digit string do not change its value. */
  lemma {:induction false} DigitsValueLeadingZeros(z: nat, s: string)
    requires AllDigits(s)
    ensures AllDigits(Zeros(z) + s)
    ensures DigitsValue(Zeros(z) + s) == DigitsValue(s)
    decreases |s|
  {
    var zs := Zeros(z);
    assert AllDigits(zs + s) by {
      assert forall i | 0 <= i < |zs + s| :: IsDigit((zs + s)[i]);
    }
    if s == [] {
      assert zs + s == zs;
      ZerosValue(z);
    } else {
      var t := zs + s;
      assert t[..|t| - 1] == zs + s[..|s| - 1];
      DigitsValueLeadingZeros(z, s[..|s| - 1]);
    }
  }

  /** A run of zeros is worth 0. */
  lemma {:induction false} ZerosValue(z: nat)
    ensures AllDigits(Zeros(z))
    ensures DigitsValue(Zeros(z)) == 0
  {
    if z > 0 {
      assert Zeros(z)[..z - 1] == Zeros(z - 1);
      ZerosValue(z - 1);
    }
  }

  /** The three-digit field of `LogName(i)` reads back as `i`. */
  lemma ZeroPadValue(i: nat)
    requires i < 1000
    ensures |ZeroPad(NatToString(i), 3)| == 3
    ensures AllDigits(ZeroPad(NatToString(i), 3))
    ensures DigitsValue(ZeroPad(NatToString(i), 3)) == i
  {
    var s := NatToString(i);
    assert i < Pow10(3);
    NatToStringWidth(i, 3);
    NatToStringRoundTrip(i);
    DigitsValueLeadingZeros(3 - |s|, s);
    assert ZeroPad(s, 3) == Zeros(3 - |s|) + s;
  }

  /** Three digits followed by anything convert to their value. */
  lemma ScanUnsignedOfField(field: string, tail: string)
    requires |field| == 3 && AllDigits(field) && DigitsValue(field) < U32
    ensures ScanUnsigned(field + tail) == Some(DigitsValue(field))
  {

    var s := field + tail;
    assert IsDigit(s[0]);
    assert LeadingSpaces(s) == 0;
    assert s[0..][..3] == field;
    LeadingDigitsAll(field);
    assert field[..3] == field;
  }

  /** Behind the exact prefix, the number is read as `%3u` reads it. */
  lemma ScanIndexPrefixed(t: string)
    requires |t| > 0
    ensures ScanIndex(LOG_PREFIX + t) == ScanUnsigned(t)
  {
    assert (LOG_PREFIX + t)[..|LOG_PREFIX|] == LOG_PREFIX;
    assert (LOG_PREFIX + t)[|LOG_PREFIX|..] == t;
  }

  /** Whatever follows the three-digit field is ignored: "ameba_log_123" and "ameba_log_1234.log" both give 123. */
  lemma ScanIndexIgnoresTail(i: nat, tail: string)
    requires i < 1000
    ensures ScanIndex(LOG_PREFIX + (ZeroPad(NatToString(i), 3) + tail)) == Some(i)
  {
    var field := ZeroPad(NatToString(i), 3);
    ZeroPadValue(i);
    ScanIndexPrefixed(field + tail);
    ScanUnsignedOfField(field, tail);
  }

  /** Reading back a generated file name gives its index, for the three-digit indices. */
  lemma ScanIndexOfLogName(i: nat)
    requires i < 1000
    ensures ScanIndex(LogName(i)) == Some(i)
  {
    ScanIndexIgnoresTail(i, LOG_SUFFIX);
  }

  /** A name with another prefix, or with no digit after it, selects no index. */
  lemma ScanIndexRefuses()
    ensures ScanIndex("other.log") == None
    ensures ScanIndex("ameba_log_.log") == None
  {
    var a := "other.log";
    assert a[0] != LOG_PREFIX[0];
    assert "ameba_log_.log" == LOG_PREFIX + ".log";
    ScanIndexPrefixed(".log");
    assert LeadingSpaces(".log") == 0;
    assert ".log"[..3] == ".lo";
    assert LeadingDigits(".lo") == 0;
  }

  // ---------------------------------------------------------------------------------------------
  // Index selection

  /** The greatest index below `maxFiles` that a name of the listing carries, if any. */
  function MaxIndex(names: seq<string>, maxFiles: nat): (r: Option<nat>)
    ensures r.Some? ==> r.value < maxFiles
  {
    if names == [] then None
    else Keep(MaxIndex(names[..|names| - 1], maxFiles), ScanIndex(names[|names| - 1]), maxFiles)
  }

  /** The maximum is carried by some name of the listing, and no name carries a greater index below the file count. */
  lemma {:induction false} MaxIndexIsGreatest(names: seq<string>, maxFiles: nat)
    ensures var r := MaxIndex(names, maxFiles);
            (r.Some? ==> exists k | 0 <= k < |names| :: ScanIndex(names[k]) == Some(r.value))
            && forall k | 0 <= k < |names| && ScanIndex(names[k]).Some? && ScanIndex(names[k]).value < maxFiles ::
                 r.Some? && ScanIndex(names[k]).value <= r.value
  {
    if names != [] {
      var front := names[..|names| - 1];
      MaxIndexIsGreatest(front, maxFiles);
      assert forall k | 0 <= k < |names| - 1 :: front[k] == names[k];
    }
  }

  /** One `readdir` step: an index below the file count replaces a smaller (or missing) maximum. */
  function Keep(best: Option<nat>, idx: Option<nat>, maxFiles: nat): Option<nat>
  {
    if idx.Some? && idx.value < maxFiles && (best.None? || idx.value > best.value) then idx else best
  }

  /** The maximum over one more name is one more `Keep` step. */
  lemma MaxIndexStep(names: seq<string>, n: nat, maxFiles: nat)
    requires n < |names|
    ensures MaxIndex(names[..n + 1], maxFiles) == Keep(MaxIndex(names[..n], maxFiles), ScanIndex(names[n]), maxFiles)
  {
    assert names[..n + 1][..n] == names[..n];
  }

  lemma ModSmall(m: nat, n: nat)
    requires m < n
    ensures m % n == m
  {
  }

  /** `state.file_index` as line 75 sets it: the greatest index seen, modulo the file count. */
  function ChosenIndex(names: seq<string>, maxFiles: nat): (i: nat)
    ensures maxFiles == 0 ==> i == 0
    ensures maxFiles > 0 ==> i < maxFiles
  {
    match MaxIndex(names, maxFiles)
    case Some(m) => m % maxFiles
    case None => 0
  }

  /** The index chosen is the newest existing one: the modulo never changes it. */
  lemma ChosenIsNewest(names: seq<string>, maxFiles: nat)
    requires MaxIndex(names, maxFiles).Some?
    ensures ChosenIndex(names, maxFiles) == MaxIndex(names, maxFiles).value
    ensures exists k | 0 <= k < |names| :: ScanIndex(names[k]) == Some(ChosenIndex(names, maxFiles))
  {
    ModSmall(MaxIndex(names, maxFiles).value, maxFiles);
    MaxIndexIsGreatest(names, maxFiles);
  }

  /** Once the chosen file exists in the listing, the next choice is that same file again. */
  lemma {:induction false} RotationStaysOnNewest(names: seq<string>, maxFiles: nat)
    requires maxFiles <= 1000
    ensures var i := ChosenIndex(names, maxFiles);
            maxFiles > 0 ==> ChosenIndex(names + [LogName(i)], maxFiles) == i
  {
    var i := ChosenIndex(names, maxFiles);
    if maxFiles > 0 {
      var more := names + [LogName(i)];
      ScanIndexOfLogName(i);
      assert more[..|more| - 1] == names;
      assert ScanIndex(more[|more| - 1]) == Some(i);
      var before := MaxIndex(names, maxFiles);
      if before.Some? {
        ModSmall(before.value, maxFiles);
        assert i == before.value;
      }
      assert MaxIndex(more, maxFiles) == Some(i);
      ModSmall(i, maxFiles);
    }
  }

  /** An empty directory starts at file 000. */
  lemma EmptyDirectoryStartsAtZero(maxFiles: nat)
    ensures ChosenIndex([], maxFiles) == 0
  {
  }

  // ---------------------------------------------------------------------------------------------
  // The underlying file writer

  /** `record_writer_file.set_init_args` (file.c) accepts a path buffer length exactly when it is below PATH_MAX. */
  predicate FileArgsAcceptedAsWritten(ptrLen: nat) { ptrLen < PATH_MAX }

  /** The corrected acceptance: a buffer of PATH_MAX bytes fits the PATH_MAX-byte path. */
  predicate FileArgsAccepted(ptrLen: nat) { ptrLen <= PATH_MAX }

  /** The directory writer hands the file writer a PATH_MAX-byte buffer, which the check as written refuses. */
  lemma DirPathBufferRefusedAsWritten()
    ensures !FileArgsAcceptedAsWritten(PATH_MAX)
    ensures FileArgsAccepted(PATH_MAX)
  {
  }

  // ---------------------------------------------------------------------------------------------
  // Step functions

  /** The writer's static state, plus the path last handed to the file writer. */
  datatype Rotation = Rotation(dir: string, maxBytes: nat, maxFiles: nat, currentBytes: nat,
                               fileIndex: nat, initialized: bool, target: string)

  /** `state = {0}`. */
  function InitialRotation(): Rotation
  {
    Rotation("", 0, 0, 0, 0, false, "")
  }

  /** What `stat` (and `mkdir` after ENOENT) found at the directory path. */
  datatype DirStatus = IsDirectory | NotDirectory | Missing(created: bool) | StatFailed

  /** `set_init_args_rotate`: a wrong length or an empty or unterminated path is refused;
    * otherwise the directory and the limits are stored and the writer is not yet initialized. */
  function SetInitArgsStep(s: Rotation, lengthOk: bool, input: LogArgs): (r: (Rotation, int))
    requires Sized(input) && 0 <= input.logFileSizeBytes < U64 && 0 <= input.logFileCount < U32
    ensures r.1 == 0 <==> lengthOk && 0 < |CString(input.logDirPath)| < PATH_MAX
    ensures r.1 != 0 ==> r == (s, -1)
    ensures r.1 == 0 ==> r.0.dir == CString(input.logDirPath) && !r.0.initialized && r.0.currentBytes == 0
                         && r.0.maxBytes == input.logFileSizeBytes && r.0.maxFiles == input.logFileCount
  {
    var dir := CString(input.logDirPath);
    if !lengthOk || |dir| == 0 || |dir| >= PATH_MAX then (s, -1)
    else (Rotation(dir, input.logFileSizeBytes, input.logFileCount, 0, 0, false, s.target), 0)
  }

  /** `generate_log_path(path, PATH_MAX)`: the listing is `None` when `opendir` fails. */
  function GenerateStep(s: Rotation, listing: Option<seq<string>>): (r: (Rotation, int, string))
    ensures listing.None? ==> r.0 == s && r.1 == -1
    ensures listing.Some? ==> r.0 == s.(fileIndex := ChosenIndex(listing.value, s.maxFiles))
                              && r.2 == LogPath(s.dir, r.0.fileIndex)
                              && (r.1 == 0 <==> |r.2| < PATH_MAX)
  {
    match listing
    case None => (s, -1, "")
    case Some(names) =>
      var i := ChosenIndex(names, s.maxFiles);
      var p := LogPath(s.dir, i);
      (s.(fileIndex := i), if |p| >= PATH_MAX then -1 else 0, p)
  }

  /**
   * `rotate_and_init_file`. `argsOk` is the file writer's answer to `set_init_args` with the
   * PATH_MAX-byte buffer (false as written, see DirPathBufferRefusedAsWritten) and `initOk` its
   * answer to `init`.
   */
  function RotateWith(s: Rotation, listing: Option<seq<string>>, argsOk: bool, initOk: bool): (r: (Rotation, int))
    ensures r.1 == 0 || r.1 == -1
    ensures r.1 == 0 ==> argsOk && initOk && r.0.initialized && r.0.currentBytes == 0
    ensures r.1 != 0 ==> r.0.initialized == s.initialized && r.0.currentBytes == s.currentBytes
  {
    var g := GenerateStep(s, listing);
    var t := g.0;
    if g.1 != 0 || !argsOk then (t, -1)
    else if !initOk then (t.(target := g.2), -1)
    else (t.(currentBytes := 0, fileIndex := t.fileIndex + 1, initialized := true, target := g.2), 0)
  }

  /** The rotation as the source is written: the file writer refuses the buffer, so every rotation fails. */
  function RotateStepAsWritten(s: Rotation, listing: Option<seq<string>>, initOk: bool): (r: (Rotation, int))
    ensures r.1 == -1 && r.0.initialized == s.initialized && r.0.currentBytes == s.currentBytes
  {
    RotateWith(s, listing, FileArgsAcceptedAsWritten(PATH_MAX), initOk)
  }

  /** The rotation with the corrected file-writer check: a success starts the chosen file with the counter at 0. */
  function RotateStep(s: Rotation, listing: Option<seq<string>>, initOk: bool): (r: (Rotation, int))
    ensures r.1 == 0 ==> r.0.initialized && r.0.currentBytes == 0
  {
    RotateWith(s, listing, FileArgsAccepted(PATH_MAX), initOk)
  }

  /** `init_rotate`: the directory must exist (or be created), then the first file is opened. */
  function InitWith(s: Rotation, status: DirStatus, listing: Option<seq<string>>, argsOk: bool, initOk: bool): (r: (Rotation, int))
    ensures r.1 == 0 ==> (status.IsDirectory? || status == Missing(true)) && argsOk && initOk && r.0.initialized
  {
    match status
    case IsDirectory => RotateWith(s, listing, argsOk, initOk)
    case Missing(created) => if created then RotateWith(s, listing, argsOk, initOk) else (s, -1)
    case NotDirectory => (s, -1)
    case StatFailed => (s, -1)
  }

  /** `init_rotate` as written: it fails whatever it finds, and leaves the writer as initialized as it was. */
  function InitStep(s: Rotation, status: DirStatus, listing: Option<seq<string>>, initOk: bool): (r: (Rotation, int))
    ensures r.1 == -1 && r.0.initialized == s.initialized
  {
    InitWith(s, status, listing, FileArgsAcceptedAsWritten(PATH_MAX), initOk)
  }

  /** `unsigned long long` addition, which wraps modulo 2^64. */
  function AddU64(a: nat, b: nat): (r: nat)
    ensures r < U64
    ensures a + b < U64 ==> r == a + b
  {
    var r := (a + b) % 0x1_0000_0000_0000_0000;
    assert a + b < U64 ==> r == a + b by {
      if a + b < U64 {
        ModSmall(a + b, 0x1_0000_0000_0000_0000);
      }
    }
    r
  }

  /** The tail of `write_rotate`: the file writer's answer is passed on and a positive one is counted. */
  function Record(t: Rotation, written: int): (r: (Rotation, int))
    ensures r.1 == written
  {
    if written > 0 then (t.(currentBytes := AddU64(t.currentBytes, written)), written) else (t, written)
  }

  /**
   * `write_rotate` of `len` bytes; `written` is the file writer's answer for the record and
   * `argsOk`, `initOk` its answers when the write rotates.
   */
  function WriteWith(s: Rotation, len: nat, listing: Option<seq<string>>, argsOk: bool, initOk: bool, written: int): (r: (Rotation, int))
    ensures !s.initialized ==> r == (s, -2)
    ensures s.initialized ==> r.1 == -1 || r.1 == written
  {
    if !s.initialized then (s, -2)
    else if AddU64(s.currentBytes, len) <= s.maxBytes then Record(s, written)
    else
      var rot := RotateWith(s, listing, argsOk, initOk);
      if rot.1 != 0 then (rot.0, -1) else Record(rot.0, written)
  }

  /** `write_rotate` as written: a record over the budget fails with -1, since the rotation always fails. */
  function WriteStep(s: Rotation, len: nat, listing: Option<seq<string>>, initOk: bool, written: int): (r: (Rotation, int))
    ensures s.initialized && AddU64(s.currentBytes, len) > s.maxBytes ==> r.1 == -1 && r.0.initialized
  {
    WriteWith(s, len, listing, FileArgsAcceptedAsWritten(PATH_MAX), initOk, written)
  }

  /** `close_rotate`: the writer stops accepting writes; the answer is the file writer's. */
  function CloseStep(s: Rotation, closed: int): (Rotation, int)
  {
    (s.(initialized := false), closed)
  }

  // ---------------------------------------------------------------------------------------------
  // Properties

  /** With the corrected check, a rotation succeeds exactly when the directory can be read, the path fits and the file opens;
    * then the counter restarts on the chosen file. */
  lemma RotationSucceeds(s: Rotation, listing: Option<seq<string>>, initOk: bool)
    ensures var (t, err) := RotateStep(s, listing, initOk);
            (err == 0 <==> listing.Some? && |LogPath(s.dir, ChosenIndex(listing.value, s.maxFiles))| < PATH_MAX && initOk)
            && (err == 0 ==> t.initialized && t.currentBytes == 0
                             && t.target == LogPath(s.dir, ChosenIndex(listing.value, s.maxFiles))
                             && t.fileIndex == ChosenIndex(listing.value, s.maxFiles) + 1
                             && t.dir == s.dir && t.maxBytes == s.maxBytes && t.maxFiles == s.maxFiles)
            && (err != 0 ==> t.initialized == s.initialized && t.currentBytes == s.currentBytes)
  {
    DirPathBufferRefusedAsWritten();
  }

  /** A directory that is not there and cannot be created, or a path that is not a directory, fails `init`. */
  lemma InitNeedsDirectory(s: Rotation, status: DirStatus, listing: Option<seq<string>>, argsOk: bool, initOk: bool)
    requires !(status.IsDirectory? || status == Missing(true))
    ensures InitWith(s, status, listing, argsOk, initOk) == (s, -1)
  {
  }

  /** Before `init` succeeds, and after `close`, every write answers -2 and changes nothing. */
  lemma WriteNeedsInit(s: Rotation, len: nat, listing: Option<seq<string>>, argsOk: bool, initOk: bool, written: int, closed: int)
    ensures var c := CloseStep(s, closed).0;
            WriteWith(c, len, listing, argsOk, initOk, written) == (c, -2)
  {
  }

  /** As written, the writer never becomes initialized after `set_init_args` and `init`, so every write answers -2. */
  lemma {:induction false} WritesRefusedAsWritten(s: Rotation, lengthOk: bool, input: LogArgs, status: DirStatus,
                                                  listing: Option<seq<string>>, initOk: bool, len: nat, written: int)
    requires Sized(input) && 0 <= input.logFileSizeBytes < U64 && 0 <= input.logFileCount < U32
    requires !s.initialized
    ensures var a := SetInitArgsStep(s, lengthOk, input);
            var i := InitStep(a.0, status, listing, initOk);
            a.0.initialized == false && i.1 == -1 && WriteStep(i.0, len, listing, initOk, written) == (i.0, -2)
  {
    var a := SetInitArgsStep(s, lengthOk, input).0;
    assert !a.initialized;
    var i := InitStep(a, status, listing, initOk).0;
    assert !i.initialized;
  }

  /** The byte budget: a file never holds more than `maxBytes` bytes from this writer when no single record exceeds it
    * and the file writer writes at most what it is given. */
  lemma WriteKeepsBudget(s: Rotation, len: nat, listing: Option<seq<string>>, argsOk: bool, initOk: bool, written: int)
    requires s.initialized && s.currentBytes <= s.maxBytes < U64 && len <= s.maxBytes && s.maxBytes + len < U64
    requires written <= len
    ensures WriteWith(s, len, listing, argsOk, initOk, written).0.currentBytes <= s.maxBytes
    ensures WriteWith(s, len, listing, argsOk, initOk, written).0.maxBytes == s.maxBytes
  {
    if s.currentBytes + len > s.maxBytes {
      var rot := RotateWith(s, listing, argsOk, initOk);
      assert rot.0.maxBytes == s.maxBytes;
    }
  }

  /** A write that fits adds exactly what the file writer wrote to the counter, on the same file. */
  lemma WriteCountsBytes(s: Rotation, len: nat, listing: Option<seq<string>>, argsOk: bool, initOk: bool, written: int)
    requires s.initialized && s.currentBytes + len <= s.maxBytes < U64
    requires 0 < written <= len
    ensures WriteWith(s, len, listing, argsOk, initOk, written) == (s.(currentBytes := s.currentBytes + written), written)
  {
  }

  /** With the corrected check, a write that does not fit starts the next file: on success the counter holds only this write. */
  lemma {:induction false} WriteOverBudgetRotates(s: Rotation, len: nat, names: seq<string>, written: int)
    requires s.initialized && s.currentBytes + len < U64 && s.currentBytes + len > s.maxBytes
    requires |LogPath(s.dir, ChosenIndex(names, s.maxFiles))| < PATH_MAX
    requires 0 < written <= len
    ensures var r := WriteWith(s, len, Some(names), FileArgsAccepted(PATH_MAX), true, written);
            r.1 == written && r.0.currentBytes == written
            && r.0.target == LogPath(s.dir, ChosenIndex(names, s.maxFiles))
  {
    RotationSucceeds(s, Some(names), true);
  }

  /** A write arriving when the directory cannot be read and the file is full fails with -1. */
  lemma WriteFailsWhenRotationFails(s: Rotation, len: nat, argsOk: bool, initOk: bool, written: int)
    requires s.initialized && s.currentBytes + len < U64 && s.currentBytes + len > s.maxBytes
    ensures WriteWith(s, len, None, argsOk, initOk, written).1 == -1
  {
  }

  // ---------------------------------------------------------------------------------------------
  // The writer's static state

  /** The `readdir` loop of `generate_log_path`: the greatest index below the file count, modulo that count. */
  method NewestIndex(names: seq<string>, maxFiles: nat) returns (i: nat)
    ensures i == ChosenIndex(names, maxFiles)
  {
    var maxSeen: nat := 0;
    var foundAny := false;
    var n := 0;
    while n < |names|
      invariant n <= |names|
      invariant (if foundAny then Some(maxSeen) else None) == MaxIndex(names[..n], maxFiles)
    {
      var idx := ScanIndex(names[n]);
      MaxIndexStep(names, n, maxFiles);
      if idx.Some? && idx.value < maxFiles {
        if !foundAny || idx.value > maxSeen {
          maxSeen := idx.value;
          foundAny := true;
        }
      }
      n := n + 1;
    }
    assert names[..n] == names;
    i := if foundAny then maxSeen % maxFiles else 0;
  }

  /**
   * The `state` struct of dir.c, and the path the file writer holds. The file writer's answers are
   * parameters: `argsOk` to `set_init_args` with the PATH_MAX-byte buffer (false as written, see
   * InitStep and WriteStep), `initOk` to `init`, `written` to `write` and `closed` to `close`.
   */
  class DirWriter {
    var dir: string
    var maxBytes: nat
    var maxFiles: nat
    var currentBytes: nat
    var fileIndex: nat
    var initialized: bool
    var target: string

    function Value(): Rotation
      reads this
    {
      Rotation(dir, maxBytes, maxFiles, currentBytes, fileIndex, initialized, target)
    }

    /** `state = {0}`. */
    constructor ()
      ensures Value() == InitialRotation()
    {
      dir, maxBytes, maxFiles, currentBytes, fileIndex, initialized, target := "", 0, 0, 0, 0, false, "";
    }

    /** `set_init_args_rotate`. */
    method SetInitArgs(lengthOk: bool, input: LogArgs) returns (r: int)
      requires Sized(input) && 0 <= input.logFileSizeBytes < U64 && 0 <= input.logFileCount < U32
      modifies this
      ensures (Value(), r) == SetInitArgsStep(old(Value()), lengthOk, input)
    {
      var len := |CString(input.logDirPath)|;
      if !lengthOk || len == 0 || len >= PATH_MAX {
        return -1;
      }
      dir := CString(input.logDirPath);
      maxBytes := input.logFileSizeBytes;
      maxFiles := input.logFileCount;
      currentBytes := 0;
      fileIndex := 0;
      initialized := false;
      r := 0;
    }

    /** `generate_log_path`: the newest index of the listing, modulo the file count, names the next path. */
    method GenerateLogPath(listing: Option<seq<string>>) returns (r: int, path: string)
      modifies this
      ensures (Value(), r, path) == GenerateStep(old(Value()), listing)
    {
      if listing.None? {
        return -1, "";
      }
      var i := NewestIndex(listing.value, maxFiles);
      fileIndex := i;
      path := LogPath(dir, i);
      r := if |path| >= PATH_MAX then -1 else 0;
    }

    /** `rotate_and_init_file`. */
    method RotateAndInitFile(listing: Option<seq<string>>, argsOk: bool, initOk: bool) returns (r: int)
      modifies this
      ensures (Value(), r) == RotateWith(old(Value()), listing, argsOk, initOk)
    {
      ghost var g := GenerateStep(Value(), listing);
      var err, path := GenerateLogPath(listing);
      assert Value() == g.0 && err == g.1 && path == g.2;
      if err < 0 || !argsOk {
        return -1;
      }
      target := path;
      if !initOk {
        return -1;
      }
      ghost var t := g.0.(currentBytes := 0, fileIndex := g.0.fileIndex + 1, initialized := true, target := g.2);
      assert RotateWith(old(Value()), listing, argsOk, initOk) == (t, 0);
      currentBytes := 0;
      fileIndex := fileIndex + 1;
      initialized := true;
      r := 0;
      assert Value() == t;
    }

    /** `init_rotate`. */
    method Init(status: DirStatus, listing: Option<seq<string>>, argsOk: bool, initOk: bool) returns (r: int)
      modifies this
      ensures (Value(), r) == InitWith(old(Value()), status, listing, argsOk, initOk)
    {
      match status {
        case IsDirectory =>
        case Missing(created) =>
          if !created {
            return -1;
          }
        case NotDirectory =>
          return -1;
        case StatFailed =>
          return -1;
      }
      r := RotateAndInitFile(listing, argsOk, initOk);
    }

    /** `write_rotate`. */
    method Write(len: nat, listing: Option<seq<string>>, argsOk: bool, initOk: bool, written: int) returns (r: int)
      modifies this
      ensures (Value(), r) == WriteWith(old(Value()), len, listing, argsOk, initOk, written)
    {
      if !initialized {
        return -2;
      }
      if AddU64(currentBytes, len) > maxBytes {
        ghost var rot := RotateWith(Value(), listing, argsOk, initOk);
        var err := RotateAndInitFile(listing, argsOk, initOk);
        assert Value() == rot.0 && err == rot.1;
        if err < 0 {
          return -1;
        }
      }
      if written > 0 {
        currentBytes := AddU64(currentBytes, written);
      }
      r := written;
    }

    /** `close_rotate`; `closed` is the file writer's answer. */
    method Close(closed: int) returns (r: int)
      modifies this
      ensures (Value(), r) == CloseStep(old(Value()), closed)
    {
      initialized := false;
      r := closed;
    }
  }
}
