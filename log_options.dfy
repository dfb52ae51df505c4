/**
 * The log options both ameba parsers share (src/user/arg/ameba.c and src/user/args/ameba.c): the
 * log directory (-o), the size of one log file in bytes (-s) and the number of log files (-c),
 * their checks as each option arrives, the final check at the end of parsing, and the parser's
 * answer to every key except the ones a single parser adds. The two files hold identical copies
 * of these operations; this module models them once.
 */
module LogOptions {
  import opened Wrappers
  import opened Decimal
  import opened CStd
  import opened BoundedText
  import opened ParseState
  import opened Control

  const MIN_LOG_FILE_SIZE_BYTES: int := 100 * 1024 * 1024
  const MAX_LOG_FILE_SIZE_BYTES: int := 10 * 1024 * 1024 * 1024
  const MIN_LOG_FILE_COUNT: int := 1
  const MAX_LOG_FILE_COUNT: int := 100

  /** The value of a `struct arg_ameba` / `struct ameba_input`: a PATH_MAX-byte buffer and two numbers. */
  datatype LogArgs = LogArgs(logDirPath: seq<char>, logFileSizeBytes: int, logFileCount: int)

  predicate Sized(v: LogArgs) { |v.logDirPath| == PATH_MAX }

  /** `n` NUL characters. */
  function Nuls(n: nat): (z: seq<char>)
    ensures |z| == n && forall i | 0 <= i < n :: z[i] == '\0'
  {
    seq(n, _ => '\0')
  }

  /** The all-zero struct `memset` leaves. */
  function ZeroLogArgs(): (v: LogArgs)
    ensures Sized(v)
  {
    LogArgs(Nuls(PATH_MAX), 0, 0)
  }

  // ---------------------------------------------------------------------------------------------
  // The log directory

  /** `strncpy(buf, src, n)` on the buffer's contents: `n` characters of `src`, NUL-padded past its end. */
  function StrNCpyText(buf: seq<char>, src: string, n: nat): (r: seq<char>)
    requires n <= |buf|
    ensures |r| == |buf| && r[n..] == buf[n..]
    ensures forall i | 0 <= i < n :: r[i] == (if i < |src| then src[i] else '\0')
  {
    (if n <= |src| then src[..n] else src + Nuls(n - |src|)) + buf[n..]
  }

  /** Why a log directory is refused. */
  datatype DirError = MissingPath | NotAbsolute | TooLong

  /** The checks of `parse_arg_log_dir_path` as written: a path of exactly PATH_MAX bytes passes. */
  function DirCheckAsWritten(path: string): (e: Option<DirError>)
    ensures e.None? <==> 0 < |path| <= PATH_MAX && path[0] == '/'
  {
    if |path| == 0 then Some(MissingPath)
    else if path[0] != '/' then Some(NotAbsolute)
    else if |path| > PATH_MAX then Some(TooLong)
    else None
  }

  /** The checks with room left for the terminating NUL: the path must be shorter than PATH_MAX. */
  function DirCheck(path: string): (e: Option<DirError>)
    ensures e.None? <==> 0 < |path| < PATH_MAX && path[0] == '/'
    ensures e.None? ==> DirCheckAsWritten(path).None?
  {
    if |path| == 0 then Some(MissingPath)
    else if path[0] != '/' then Some(NotAbsolute)
    else if |path| >= PATH_MAX then Some(TooLong)
    else None
  }

  /**
   * The copy as written, `strncpy(buf, path, strnlen(path, PATH_MAX))`: exactly the path's own
   * characters, so no NUL is written and the old buffer's tail stays behind them.
   */
  function SetDirAsWritten(buf: seq<char>, path: string): (r: seq<char>)
    requires |buf| == PATH_MAX && DirCheckAsWritten(path).None?
    ensures r == path + buf[|path|..]
  {
    StrNCpyText(buf, path, |path|)
  }

  /** The corrected copy, `strncpy(buf, path, PATH_MAX)` after the stricter length check: the path, NUL-padded. */
  function SetDir(buf: seq<char>, path: string): (r: seq<char>)
    requires |buf| == PATH_MAX && DirCheck(path).None?
    ensures |r| == PATH_MAX
  {
    StrNCpyText(buf, path, PATH_MAX)
  }

  /** After the corrected copy the buffer holds the path as a C string, whatever it held before. */
  lemma SetDirReadsBack(buf: seq<char>, path: string)
    requires |buf| == PATH_MAX && DirCheck(path).None? && NoNul(path)
    ensures CString(SetDir(buf, path)) == path
  {
    var r := SetDir(buf, path);
    assert r == path + r[|path|..];
    CStringAppend(path, r[|path|..]);
    assert r[|path|..][0] == '\0';
  }

  /** A configured directory of the form a later -o option replaces. */
  function OldLogDir(): (buf: seq<char>)
    ensures |buf| == PATH_MAX
  {
    "/var/log/ameba" + Nuls(PATH_MAX - 14)
  }

  /** The copy of "/tmp" over the initial directory keeps its tail, "/log/ameba" and the NULs. */
  lemma OldLogDirOverwritten()
    ensures SetDirAsWritten(OldLogDir(), "/tmp") == "/tmp/log/ameba" + Nuls(PATH_MAX - 14)
  {
    var tail := "/var/log/ameba"[4..];
    assert tail == "/log/ameba";
    assert OldLogDir()[4..] == tail + Nuls(PATH_MAX - 14);
    assert "/tmp" + (tail + Nuls(PATH_MAX - 14)) == ("/tmp" + tail) + Nuls(PATH_MAX - 14);
    assert "/tmp" + tail == "/tmp/log/ameba";
  }

  /** Text without NULs followed by at least one NUL reads back as that text. */
  lemma CStringNulPadded(t: string, n: nat)
    requires NoNul(t) && n > 0
    ensures CString(t + Nuls(n)) == t
  {
    CStringAppend(t, Nuls(n));
    assert CString(Nuls(n)) == [];
  }

  /**
   * The copy as written leaves the previous directory's tail behind a shorter path: over
   * "/var/log/ameba", `-o /tmp` yields the C string "/tmp/log/ameba".
   */
  lemma ShortPathKeepsOldTail()
    ensures CString(SetDirAsWritten(OldLogDir(), "/tmp")) == "/tmp/log/ameba"
    ensures CString(SetDir(OldLogDir(), "/tmp")) == "/tmp"
  {
    OldLogDirOverwritten();
    assert NoNul("/tmp/log/ameba");
    CStringNulPadded("/tmp/log/ameba", PATH_MAX - 14);
    SetDirReadsBack(OldLogDir(), "/tmp");
  }

  /**
   * A path of exactly PATH_MAX bytes passes the check as written and fills the whole buffer with
   * no terminating NUL; the corrected check refuses it.
   */
  lemma FullLengthPathUnterminated(buf: seq<char>, path: string)
    requires |buf| == PATH_MAX && |path| == PATH_MAX && path[0] == '/' && NoNul(path)
    ensures DirCheckAsWritten(path).None?
    ensures SetDirAsWritten(buf, path) == path && NoNul(SetDirAsWritten(buf, path))
    ensures DirCheck(path) == Some(TooLong)
  {
    assert buf[|path|..] == [];
  }

  // ---------------------------------------------------------------------------------------------
  // The two numbers

  /**
   * The number checks of the size and count options: a non-empty argument that `strtoull`/`strtoul`
   * (both 64-bit here) converts in full, without overflow.
   */
  function WholeNumber(arg: string): (r: Option<int>)
    ensures r.Some? ==> 0 <= r.value <= ULONG_MAX && StrToULL(arg) == Conversion(r.value, |arg|, false)
    ensures r.None? ==> |arg| == 0 || StrToULL(arg).outOfRange || StrToULL(arg).end != |arg|
  {
    if |arg| == 0 then None
    else
      var c := StrToULL(arg);
      if c.outOfRange || c.end == 0 || c.end != |arg| then None
      else Some(c.value)
  }

  /** What `parse_arg_log_file_size_bytes` stores, or None when it refuses the argument. */
  function SizeOf(arg: string): (r: Option<int>)
    ensures r.Some? ==> MIN_LOG_FILE_SIZE_BYTES <= r.value <= MAX_LOG_FILE_SIZE_BYTES
  {
    match WholeNumber(arg)
    case None => None
    case Some(n) => if n < MIN_LOG_FILE_SIZE_BYTES || n > MAX_LOG_FILE_SIZE_BYTES then None else Some(n)
  }

  /** What `parse_arg_log_file_count` stores, or None when it refuses the argument. */
  function CountOf(arg: string): (r: Option<int>)
    ensures r.Some? ==> MIN_LOG_FILE_COUNT <= r.value <= MAX_LOG_FILE_COUNT
  {
    match WholeNumber(arg)
    case None => None
    case Some(n) => if n < MIN_LOG_FILE_COUNT || n > MAX_LOG_FILE_COUNT then None else Some(n)
  }

  /** Every rendered natural number up to ULONG_MAX is a whole number, and no larger one is. */
  lemma WholeNumberOfNatString(n: nat)
    ensures WholeNumber(NatToString(n)) == if n <= ULONG_MAX then Some(n) else None
  {
    StrToULLOfNatString(n);
  }

  /** The size option takes back exactly the rendered sizes between 100 MiB and 10 GiB. */
  lemma SizeRoundTrip(n: nat)
    ensures SizeOf(NatToString(n)) == if MIN_LOG_FILE_SIZE_BYTES <= n <= MAX_LOG_FILE_SIZE_BYTES then Some(n) else None
  {
    WholeNumberOfNatString(n);
  }

  /** The count option takes back exactly the rendered counts between 1 and 100. */
  lemma CountRoundTrip(n: nat)
    ensures CountOf(NatToString(n)) == if MIN_LOG_FILE_COUNT <= n <= MAX_LOG_FILE_COUNT then Some(n) else None
  {
    WholeNumberOfNatString(n);
  }

  /** Words and trailing text are not numbers. */
  lemma NotNumbers()
    ensures WholeNumber("onehundred") == None
    ensures WholeNumber("5x") == None
  {
    assert LeadingDigits("onehundred") == 0;
    assert LeadingDigits("5x"[0..]) == 1;
  }

  /** A minus sign wraps the count around to a huge number, which is refused. */
  lemma NegativeCountRefused()
    ensures CountOf("-5") == None
  {
    assert LeadingDigits("-5"[1..]) == 1 && "-5"[1..2] == "5";
  }

  /** A plus sign and leading blanks are accepted. */
  lemma SignedAndBlankCounts()
    ensures CountOf("+5") == Some(5)
    ensures CountOf(" 5") == Some(5)
  {
    assert LeadingDigits("+5"[1..]) == 1 && "+5"[1..2] == "5";
    assert LeadingSpaces(" 5") == 1;
    assert LeadingDigits(" 5"[1..]) == 1 && " 5"[1..2] == "5";
  }

  /** The final check of `validate_arg` / `validate_ameba_input`: a directory and both numbers in range. */
  predicate Validated(v: LogArgs)
    requires Sized(v)
  {
    v.logDirPath[0] != '\0'
    && MIN_LOG_FILE_SIZE_BYTES <= v.logFileSizeBytes <= MAX_LOG_FILE_SIZE_BYTES
    && MIN_LOG_FILE_COUNT <= v.logFileCount <= MAX_LOG_FILE_COUNT
  }

  // ---------------------------------------------------------------------------------------------
  // One parser call

  /** A parse state's two fields and the log options. */
  datatype Parsed = Parsed(exit: int, code: int, log: LogArgs)

  /** The letters whose option only informs: version, help, usage. */
  predicate InfoOption(c: char) { c in {'v', '?', 'u'} }

  /**
   * What one `parse_opt` call does to the shared part of the target (the call itself always
   * answers 0): a refused option, a positional argument, an argp error and a failed final check
   * record exit status -1; help, usage and version record a clean exit.
   */
  function Step(p: Parsed, initial: LogArgs, key: Key, arg: string): (q: Parsed)
    requires Sized(p.log) && Sized(initial)
    ensures Sized(q.log)
  {
    match key
    case Opt(c) =>
      if c == 'o' then
        if DirCheckAsWritten(arg).None? then p.(log := p.log.(logDirPath := SetDirAsWritten(p.log.logDirPath, arg)))
        else p.(exit := 1, code := -1)
      else if c == 's' then
        if SizeOf(arg).Some? then p.(log := p.log.(logFileSizeBytes := SizeOf(arg).value))
        else p.(exit := 1, code := -1)
      else if c == 'c' then
        if CountOf(arg).Some? then p.(log := p.log.(logFileCount := CountOf(arg).value))
        else p.(exit := 1, code := -1)
      else if InfoOption(c) then p.(exit := 1, code := 0)
      else p
    case KeyInit => Parsed(0, 0, initial)
    case KeyError => p.(exit := 1, code := -1)
    case KeyArg => p.(exit := 1, code := -1)
    case KeyEnd => if Validated(p.log) then p else p.(exit := 1, code := -1)
    case KeyOther => p
  }

  /** The final check lets the parse end cleanly exactly when nothing stopped it and the options are usable. */
  lemma EndMeaning(p: Parsed, initial: LogArgs)
    requires Sized(p.log) && Sized(initial)
    ensures var q := Step(p, initial, KeyEnd, "");
      q.log == p.log && (q.exit == 0 <==> p.exit == 0 && Validated(p.log))
      && (!Validated(p.log) ==> q.exit == 1 && q.code == -1)
  {
  }

  /** A refused option stops the parse with status -1 and leaves the options as they were. */
  lemma RefusedOptionKeepsValue(p: Parsed, initial: LogArgs, c: char, arg: string)
    requires Sized(p.log) && Sized(initial)
    requires (c == 'o' && DirCheckAsWritten(arg).Some?) || (c == 's' && SizeOf(arg).None?) || (c == 'c' && CountOf(arg).None?)
    ensures Step(p, initial, Opt(c), arg) == Parsed(1, -1, p.log)
  {
  }

  /**
   * An accepted -o writes the path's own characters over the front of the buffer and leaves the
   * status and the numbers alone. The directory then reads as the path followed by the C string the
   * old buffer held behind it, so it reads as the path alone exactly when the path fills the buffer
   * or the old buffer had a NUL right behind it (a zeroed buffer, say).
   */
  lemma DirOptionMeaning(p: Parsed, initial: LogArgs, arg: string)
    requires Sized(p.log) && Sized(initial) && DirCheckAsWritten(arg).None? && NoNul(arg)
    ensures var q := Step(p, initial, Opt('o'), arg);
      q.exit == p.exit && q.code == p.code
      && q.log.logFileSizeBytes == p.log.logFileSizeBytes && q.log.logFileCount == p.log.logFileCount
      && CString(q.log.logDirPath) == arg + CString(p.log.logDirPath[|arg|..])
      && (CString(q.log.logDirPath) == arg <==> |arg| == PATH_MAX || p.log.logDirPath[|arg|] == '\0')
  {
    var tail := p.log.logDirPath[|arg|..];
    CStringAppend(arg, tail);
    if |arg| < PATH_MAX {
      assert tail[0] == p.log.logDirPath[|arg|];
      assert tail[0] == '\0' ==> CString(tail) == [];
      assert CString(tail) == [] ==> tail[0] == '\0';
    } else {
      assert tail == [];
    }
  }

  // ---------------------------------------------------------------------------------------------
  // The state

  /** `struct arg_ameba` / `struct ameba_input`. */
  class LogFields {
    const logDirPath: array<char>
    var logFileSizeBytes: int
    var logFileCount: int

    ghost predicate Valid()
      reads this
    {
      logDirPath.Length == PATH_MAX
    }

    ghost function Repr(): set<object>
      reads this
    {
      {this, logDirPath}
    }

    function Value(): LogArgs
      reads this, logDirPath
    {
      LogArgs(logDirPath[..], logFileSizeBytes, logFileCount)
    }

    /** A zero-initialised struct, as a static variable starts. */
    constructor ()
      ensures Valid() && fresh(Repr()) && Value() == ZeroLogArgs()
    {
      logDirPath := new char[PATH_MAX](_ => '\0');
      logFileSizeBytes := 0;
      logFileCount := 0;
      new;
      assert logDirPath[..] == Nuls(PATH_MAX);
    }

    /** `memcpy` of a whole struct. */
    method CopyFrom(src: LogFields)
      requires Valid() && src.Valid() && Repr() !! src.Repr()
      modifies this, logDirPath
      ensures Valid() && Value() == old(src.Value())
    {
      forall i | 0 <= i < PATH_MAX {
        logDirPath[i] := src.logDirPath[i];
      }
      logFileSizeBytes := src.logFileSizeBytes;
      logFileCount := src.logFileCount;
    }

    /** `memset` of a whole struct to zero. */
    method Zero()
      requires Valid()
      modifies this, logDirPath
      ensures Valid() && Value() == ZeroLogArgs()
    {
      forall i | 0 <= i < PATH_MAX {
        logDirPath[i] := '\0';
      }
      logFileSizeBytes := 0;
      logFileCount := 0;
    }
  }

  /** `strncpy(dst, src, n)` into a buffer. */
  method StrNCpy(dst: array<char>, src: string, n: nat)
    requires n <= dst.Length
    modifies dst
    ensures dst[..] == StrNCpyText(old(dst[..]), src, n)
  {
    forall i | 0 <= i < n {
      dst[i] := if i < |src| then src[i] else '\0';
    }
  }

  /** `parse_arg_log_dir_path` as written: a PATH_MAX-byte path passes, and only the path's own characters are copied. */
  method ParseLogDirPath(st: State, v: LogFields, path: string)
    requires v.Valid()
    modifies st, v.logDirPath
    ensures v.Valid()
    ensures DirCheckAsWritten(path).None? ==> (st.exit == old(st.exit) && st.code == old(st.code)
      && v.Value() == old(v.Value()).(logDirPath := SetDirAsWritten(old(v.logDirPath[..]), path)))
    ensures DirCheckAsWritten(path).Some? ==> st.exit == 1 && st.code == -1 && v.Value() == old(v.Value())
  {
    if |path| == 0 {
      SetExitError(st, -1);
      return;
    }
    if path[0] != '/' {
      SetExitError(st, -1);
      return;
    }
    if |path| > PATH_MAX {
      SetExitError(st, -1);
      return;
    }
    StrNCpy(v.logDirPath, path, |path|);
  }

  /** `parse_arg_log_file_size_bytes`. */
  method ParseLogFileSizeBytes(st: State, v: LogFields, arg: string)
    modifies st, v
    ensures SizeOf(arg).Some? ==> (st.exit == old(st.exit) && st.code == old(st.code)
      && v.Value() == old(v.Value()).(logFileSizeBytes := SizeOf(arg).value))
    ensures SizeOf(arg).None? ==> st.exit == 1 && st.code == -1 && v.Value() == old(v.Value())
  {
    if |arg| == 0 {
      SetExitError(st, -1);
      return;
    }
    var c := StrToULL(arg);
    if c.outOfRange || c.end == 0 || c.end != |arg| {
      SetExitError(st, -1);
      return;
    }
    if c.value < MIN_LOG_FILE_SIZE_BYTES {
      SetExitError(st, -1);
      return;
    }
    if c.value > MAX_LOG_FILE_SIZE_BYTES {
      SetExitError(st, -1);
      return;
    }
    v.logFileSizeBytes := c.value;
  }

  /** `parse_arg_log_file_count`; the accepted count fits the struct's `unsigned int` unchanged. */
  method ParseLogFileCount(st: State, v: LogFields, arg: string)
    modifies st, v
    ensures CountOf(arg).Some? ==> (st.exit == old(st.exit) && st.code == old(st.code)
      && v.Value() == old(v.Value()).(logFileCount := CountOf(arg).value))
    ensures CountOf(arg).None? ==> st.exit == 1 && st.code == -1 && v.Value() == old(v.Value())
  {
    if |arg| == 0 {
      SetExitError(st, -1);
      return;
    }
    var c := StrToULL(arg);
    if c.outOfRange || c.end == 0 || c.end != |arg| {
      SetExitError(st, -1);
      return;
    }
    if c.value < MIN_LOG_FILE_COUNT {
      SetExitError(st, -1);
      return;
    }
    if c.value > MAX_LOG_FILE_COUNT {
      SetExitError(st, -1);
      return;
    }
    v.logFileCount := c.value % 0x1_0000_0000;
  }

  /** `validate_arg` / `validate_ameba_input`: exit status -1 unless the options pass the final check. */
  method ValidateLog(st: State, v: LogFields)
    requires v.Valid()
    modifies st
    ensures Validated(v.Value()) ==> st.exit == old(st.exit) && st.code == old(st.code)
    ensures !Validated(v.Value()) ==> st.exit == 1 && st.code == -1
  {
    if v.logDirPath[0] == '\0' {
      SetExitError(st, -1);
      return;
    }
    if v.logFileSizeBytes < MIN_LOG_FILE_SIZE_BYTES {
      SetExitError(st, -1);
      return;
    }
    if v.logFileSizeBytes > MAX_LOG_FILE_SIZE_BYTES {
      SetExitError(st, -1);
      return;
    }
    if v.logFileCount < MIN_LOG_FILE_COUNT {
      SetExitError(st, -1);
      return;
    }
    if v.logFileCount > MAX_LOG_FILE_COUNT {
      SetExitError(st, -1);
      return;
    }
  }

  /**
   * The part of `parse_opt` both parsers share, on a parse state and the log options, for every key
   * but ARGP_KEY_INIT (which each parser handles with its own initial value).
   */
  method ParseLogOpt(st: State, v: LogFields, initial: LogArgs, key: Key, arg: string)
    requires v.Valid() && key != KeyInit && Sized(initial)
    modifies st, v, v.logDirPath
    ensures v.Valid()
    ensures Parsed(st.exit, st.code, v.Value()) == Step(Parsed(old(st.exit), old(st.code), old(v.Value())), initial, key, arg)
  {
    match key
    case Opt(c) =>
      if c == 'o' {
        ParseLogDirPath(st, v, arg);
      } else if c == 's' {
        ParseLogFileSizeBytes(st, v, arg);
      } else if c == 'c' {
        ParseLogFileCount(st, v, arg);
      } else if InfoOption(c) {
        SetExitNoError(st);
      }
    case KeyEnd =>
      ValidateLog(st, v);
    case KeyError =>
      SetExitError(st, -1);
    case KeyArg =>
      SetExitError(st, -1);
    case KeyOther =>
  }
}
