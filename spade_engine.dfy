/**
 * The correlation engine of bin/transform_log_to_spade.py: a window of buffered records whose head
 * is paired with the earliest companion of the same task context, a per-pid cache of Cred and
 * NewProcess records, and the end-of-input drain.
 *
 * The pure functions below (HeadStep, LineStep, ReadLines, Drain, FileRun) specify each step on an
 * `EngineState`; the `Correlator` class holds the same state in fields that its methods update in
 * place, and each method is proved to perform exactly the step its function describes.
 */
module SpadeEngine {
  import opened Wrappers
  import opened SpadeRecords
  import opened SpadeFormat

  /** `BUFFER_WINDOW`: the buffer length at which the head is processed. */
  const BUFFER_WINDOW: nat := 50

  /** One input line after `strip()`: text `json.loads` accepts, or text it rejects. */
  datatype Line = Json(value: Value) | Malformed

  /** What the program prints: a SPADE line, the missing-file message, or a caught read error. */
  datatype Printed = SpadeLine(text: string) | FileNotFound(path: string) | ReadError(error: PyError)

  /** The module-level state: `buffer`, `proc_infos`, and everything printed so far. */
  datatype EngineState = EngineState(buffer: seq<Value>, infos: ProcInfos, output: seq<Printed>)

  /** The state after a step, and the exception that ended it, if any. */
  datatype Run = Run(state: EngineState, error: Option<PyError>)

  /** `del s[i]`: every other element keeps its relative order. */
  function Without<T>(s: seq<T>, i: nat): (r: seq<T>)
    requires i < |s|
    ensures |r| == |s| - 1
    ensures forall k | 0 <= k < i :: r[k] == s[k]
    ensures forall k | i <= k < |r| :: r[k] == s[k + 1]
    ensures multiset(r) + multiset{s[i]} == multiset(s)
  {
    assert s == s[..i] + [s[i]] + s[i + 1..];
    s[..i] + s[i + 1..]
  }

  /** One iteration of `buffer_get_next_record`: does this record match (context id, then type)? */
  function Probe(r: Value, taskCtxId: Value, recordType: int): Result<bool, PyError>
  {
    var ctx :- MustGet(r, "task_ctx_id");
    if ctx == taskCtxId then
      var rType :- MustGet(r, "record_type");
      Ok(rType == VInt(recordType))
    else Ok(false)
  }

  /** `buffer_get_next_record` from index `i`: (index, record) of the first match, or (-1, None). */
  function NextFrom(items: seq<Value>, taskCtxId: Value, recordType: int, i: nat): (r: Result<(int, Option<Value>), PyError>)
    requires i <= |items|
    ensures r.Ok? ==> -1 <= r.value.0 < |items| && (r.value.0 == -1 <==> r.value.1.None?)
    ensures r.Ok? && r.value.1.Some? ==> i <= r.value.0 && r.value.1.value == items[r.value.0]
    decreases |items| - i
  {
    if i == |items| then Ok((-1, None))
    else
      match Probe(items[i], taskCtxId, recordType)
      case Err(e) => Err(e)
      case Ok(true) => Ok((i, Some(items[i])))
      case Ok(false) => NextFrom(items, taskCtxId, recordType, i + 1)
  }

  /**
   * `buffer_get_next_record`: the index and record of the earliest record with the task context id
   * and record type, or (-1, None).
   */
  function NextRecord(items: seq<Value>, taskCtxId: Value, recordType: int): (r: Result<(int, Option<Value>), PyError>)
    ensures r.Ok? ==> -1 <= r.value.0 < |items| && (r.value.0 == -1 <==> r.value.1.None?)
    ensures r.Ok? && r.value.1.Some? ==>
              r.value.1.value == items[r.value.0] && Probe(items[r.value.0], taskCtxId, recordType) == Ok(true)
              && forall j | 0 <= j < r.value.0 :: Probe(items[j], taskCtxId, recordType) == Ok(false)
    ensures r.Ok? && r.value.1.None? ==> forall j | 0 <= j < |items| :: Probe(items[j], taskCtxId, recordType) == Ok(false)
  {
    NextFromIsEarliest(items, taskCtxId, recordType, 0);
    NextFrom(items, taskCtxId, recordType, 0)
  }

  /**
   * The search returns the LOWEST matching index with its record, or (-1, None) when no record
   * matches; it raises the error of the first record it cannot read, if that comes before any match.
   */
  lemma {:induction false} NextFromIsEarliest(items: seq<Value>, taskCtxId: Value, recordType: int, i: nat)
    requires i <= |items|
    ensures var r := NextFrom(items, taskCtxId, recordType, i);
      (r.Ok? && r.value.1.Some? ==>
         (Probe(items[r.value.0], taskCtxId, recordType) == Ok(true)
          && forall j | i <= j < r.value.0 :: Probe(items[j], taskCtxId, recordType) == Ok(false)))
      && (r.Ok? && r.value.1.None? ==> forall j | i <= j < |items| :: Probe(items[j], taskCtxId, recordType) == Ok(false))
      && (r.Err? ==>
            exists j | i <= j < |items| ::
              (Probe(items[j], taskCtxId, recordType) == Err(r.error)
               && forall k | i <= k < j :: Probe(items[k], taskCtxId, recordType) == Ok(false)))
    decreases |items| - i
  {
    if i < |items| && Probe(items[i], taskCtxId, recordType) == Ok(false) {
      NextFromIsEarliest(items, taskCtxId, recordType, i + 1);
    }
  }

  /** An AuditLogExit record and the detail record of one category, in the formatter's argument order. */
  datatype Pair = Pair(category: Category, ale: Value, detail: Value)

  /** What `process_buffer` decides about its head before formatting: the companion index, the pair to print, the cache. */
  datatype Decision = Decision(companion: int, pair: Option<Pair>, infos: ProcInfos)

  /**
   * The searching part of `process_buffer` after `buffer_remove(0)`; `rest` is the buffer without
   * the head. Formatting the pair is left to `HeadStep`: an exception raised there has the same
   * effect as one raised here (only the head is gone).
   */
  function Decide(head: Value, rest: seq<Value>, infos: ProcInfos): (r: Result<Decision, PyError>)
    ensures r.Ok? ==> -1 <= r.value.companion < |rest|
    ensures r.Ok? && r.value.pair.Some? ==> r.value.companion > -1 && r.value.infos == infos
  {
    var headType :- MustGet(head, "record_type");
    var ctx :- MustGet(head, "task_ctx_id");
    if headType == VInt(AUDIT_LOG_EXIT) then
      var syscall :- MustGet(head, "syscall_number");
      match CategoryOfSyscall(syscall)
      case None => Ok(Decision(-1, None, infos))
      case Some(c) =>
        var found :- NextRecord(rest, ctx, DetailType(c));
        if found.1.None? then Ok(Decision(found.0, None, infos))
        else Ok(Decision(found.0, Some(Pair(c, head, found.1.value)), infos))
    else
      match CategoryOfDetailType(headType)
      case Some(c) =>
        var found :- NextRecord(rest, ctx, AUDIT_LOG_EXIT);
        if found.1.None? then Ok(Decision(found.0, None, infos))
        else
          var syscall :- MustGet(found.1.value, "syscall_number");
          if InCategory(syscall, c) then Ok(Decision(found.0, Some(Pair(c, found.1.value, head)), infos))
          else Ok(Decision(found.0, None, infos))
      case None =>
        if headType == VInt(CRED) || headType == VInt(NEW_PROCESS) then
          var updated :- ProcInfosSet(infos, head);
          Ok(Decision(-1, None, updated))
        else Ok(Decision(-1, None, infos))
  }

  /** The `print(spade_record)` of `process_buffer`: nothing without a pair, else the formatted line. */
  function Render(pair: Option<Pair>, infos: ProcInfos): (r: Result<seq<Printed>, PyError>)
    ensures r.Ok? ==> (pair.None? <==> r.value == [])
    ensures r.Ok? && pair.Some? ==> exists line :: r.value == [SpadeLine(line)] && FormatPair(pair.value.category, pair.value.ale, pair.value.detail, infos) == Ok(line)
  {
    match pair
    case None => Ok([])
    case Some(p) =>
      var line :- FormatPair(p.category, p.ale, p.detail, infos);
      Ok([SpadeLine(line)])
  }

  /**
   * `process_buffer()`: the head is always removed; on success the companion (if any) is removed
   * after the line (if any) is printed. An exception leaves the head removed and nothing else changed.
   */
  function HeadStep(s: EngineState): (r: Run)
    requires |s.buffer| > 0
    ensures |s.buffer| - 2 <= |r.state.buffer| < |s.buffer|
    ensures r.error.Some? ==> r.state == EngineState(s.buffer[1..], s.infos, s.output)
  {
    var rest := s.buffer[1..];
    match Decide(s.buffer[0], rest, s.infos)
    case Err(e) => Run(EngineState(rest, s.infos, s.output), Some(e))
    case Ok(d) =>
      match Render(d.pair, d.infos)
      case Err(e) => Run(EngineState(rest, s.infos, s.output), Some(e))
      case Ok(printed) =>
        Run(EngineState(if d.companion > -1 then Without(rest, d.companion) else rest, d.infos, s.output + printed), None)
  }

  /** `process_line(line)`: decode, append, and process the head once if the window is full. */
  function LineStep(s: EngineState, line: Line): Run
  {
    match line
    case Malformed => Run(s, Some(JsonDecodeError))
    case Json(v) =>
      var appended := s.(buffer := s.buffer + [v]);
      if |appended.buffer| >= BUFFER_WINDOW then HeadStep(appended) else Run(appended, None)
  }

  /** The `for line in f.readlines()` loop: stops at the first exception. */
  function ReadLines(s: EngineState, lines: seq<Line>): Run
    decreases |lines|
  {
    if lines == [] then Run(s, None)
    else
      var r := LineStep(s, lines[0]);
      if r.error.Some? then r else ReadLines(r.state, lines[1..])
  }

  /** The end-of-input `while` loop: process heads until the buffer is empty; an exception escapes it. */
  function Drain(s: EngineState): Run
    decreases |s.buffer|
  {
    if s.buffer == [] then Run(s, None)
    else
      var r := HeadStep(s);
      if r.error.Some? then r else Drain(r.state)
  }

  /** The state `process_file` reaches before its drain loop: a missing file or a caught exception prints one message. */
  function AfterRead(s: EngineState, file: Option<seq<Line>>, path: string): EngineState
  {
    match file
    case None => s.(output := s.output + [FileNotFound(path)])
    case Some(lines) =>
      var r := ReadLines(s, lines);
      if r.error.Some? then r.state.(output := r.state.output + [ReadError(r.error.value)]) else r.state
  }

  /** `process_file(path)`, the file's lines given as `file` (None when the file does not exist). */
  function FileRun(s: EngineState, file: Option<seq<Line>>, path: string): Run
  {
    Drain(AfterRead(s, file, path))
  }

  // ---------------------------------------------------------------------------------------------
  // Properties of the engine

  /**
   * A head step removes the head and at most one more record, one whose task context id is the
   * head's.
   */
  lemma HeadStepRemovesAtMostCompanion(s: EngineState)
    requires |s.buffer| > 0
    ensures var r := HeadStep(s); var rest := s.buffer[1..];
      r.state.buffer == rest
      || exists j | 0 <= j < |rest| :: r.state.buffer == Without(rest, j)
           && MustGet(s.buffer[0], "task_ctx_id").Ok? && MustGet(rest[j], "task_ctx_id") == MustGet(s.buffer[0], "task_ctx_id")
           && forall k | 0 <= k < j :: MustGet(rest[k], "task_ctx_id").Ok?
  {
    var rest := s.buffer[1..];
    var d := Decide(s.buffer[0], rest, s.infos);
    if HeadStep(s).error.None? && d.value.companion > -1 {
      var ctx := MustGet(s.buffer[0], "task_ctx_id").value;
      var j := d.value.companion;
      CompanionWasSearched(s.buffer[0], rest, s.infos);
      var t :| NextRecord(rest, ctx, t) == Ok((j, Some(rest[j])));
      NextFromIsEarliest(rest, ctx, t, 0);
      assert Probe(rest[j], ctx, t) == Ok(true);
      forall k | 0 <= k < j ensures MustGet(rest[k], "task_ctx_id").Ok? {
        assert Probe(rest[k], ctx, t) == Ok(false);
      }
      assert HeadStep(s).state.buffer == Without(rest, j);
    }
  }

  /** A companion index other than -1 is the result of a search of `rest` for the head's task context id. */
  lemma CompanionWasSearched(head: Value, rest: seq<Value>, infos: ProcInfos)
    requires Decide(head, rest, infos).Ok? && Decide(head, rest, infos).value.companion > -1
    ensures MustGet(head, "task_ctx_id").Ok?
    ensures var j := Decide(head, rest, infos).value.companion;
      exists t: int :: NextRecord(rest, MustGet(head, "task_ctx_id").value, t) == Ok((j, Some(rest[j])))
  {
    var ctx := MustGet(head, "task_ctx_id").value;
    var j := Decide(head, rest, infos).value.companion;
    if MustGet(head, "record_type") == Ok(VInt(AUDIT_LOG_EXIT)) {
      var syscall := MustGet(head, "syscall_number").value;
      assert CategoryOfSyscall(syscall).Some?;
      var t := DetailType(CategoryOfSyscall(syscall).value);
      var found := NextRecord(rest, ctx, t);
      assert found.Ok? && found.value.0 == j;
      assert NextRecord(rest, ctx, t) == Ok((j, Some(rest[j])));
    } else {
      var found := NextRecord(rest, ctx, AUDIT_LOG_EXIT);
      assert found.Ok? && found.value.0 == j;
      assert NextRecord(rest, ctx, AUDIT_LOG_EXIT) == Ok((j, Some(rest[j])));
    }
  }

  /**
   * A pair of one category: an AuditLogExit whose syscall is in the category, and a record of the
   * category's detail type, with the same task context id.
   */
  predicate IsPair(p: Pair)
  {
    MustGet(p.ale, "record_type") == Ok(VInt(AUDIT_LOG_EXIT))
    && MustGet(p.detail, "record_type") == Ok(VInt(DetailType(p.category)))
    && MustGet(p.ale, "syscall_number").Ok? && InCategory(MustGet(p.ale, "syscall_number").value, p.category)
    && MustGet(p.ale, "task_ctx_id").Ok? && MustGet(p.ale, "task_ctx_id") == MustGet(p.detail, "task_ctx_id")
  }

  /** An AuditLogExit head is paired only with its detail companion, and is the pair's first record. */
  lemma ExitHeadPair(head: Value, rest: seq<Value>, infos: ProcInfos)
    requires MustGet(head, "record_type") == Ok(VInt(AUDIT_LOG_EXIT))
    requires Decide(head, rest, infos).Ok? && Decide(head, rest, infos).value.pair.Some?
    ensures var d := Decide(head, rest, infos).value;
      IsPair(d.pair.value) && d.pair.value.ale == head && d.pair.value.detail == rest[d.companion]
  {
    var d := Decide(head, rest, infos).value;
    var ctx := MustGet(head, "task_ctx_id").value;
    var syscall := MustGet(head, "syscall_number").value;
    var c := CategoryOfSyscall(syscall).value;
    CategoriesAgree(syscall, c);
    NextFromIsEarliest(rest, ctx, DetailType(c), 0);
    assert Probe(rest[d.companion], ctx, DetailType(c)) == Ok(true);
  }

  /** A detail head is paired only with its AuditLogExit companion, which comes first in the pair. */
  lemma DetailHeadPair(head: Value, rest: seq<Value>, infos: ProcInfos)
    requires MustGet(head, "record_type") != Ok(VInt(AUDIT_LOG_EXIT))
    requires Decide(head, rest, infos).Ok? && Decide(head, rest, infos).value.pair.Some?
    ensures var d := Decide(head, rest, infos).value;
      IsPair(d.pair.value) && d.pair.value.ale == rest[d.companion] && d.pair.value.detail == head
  {
    var d := Decide(head, rest, infos).value;
    var ctx := MustGet(head, "task_ctx_id").value;
    var headType := MustGet(head, "record_type").value;
    assert CategoryOfDetailType(headType).Some?;
    var c := CategoryOfDetailType(headType).value;
    CategoriesAgree(VInt(0), c);
    assert headType == VInt(DetailType(c));
    NextFromIsEarliest(rest, ctx, AUDIT_LOG_EXIT, 0);
    assert Probe(rest[d.companion], ctx, AUDIT_LOG_EXIT) == Ok(true);
  }

  /**
   * A line is printed only for a head and its companion of one category, which is then removed with
   * it; the AuditLogExit is the formatter's first argument whichever of the two was the head.
   */
  lemma SpadeLineNeedsPair(s: EngineState)
    requires |s.buffer| > 0
    requires HeadStep(s).state.output != s.output
    ensures var rest := s.buffer[1..]; var head := s.buffer[0]; var d := Decide(head, rest, s.infos);
      d.Ok? && d.value.pair.Some? && 0 <= d.value.companion < |rest|
      && var p := d.value.pair.value; var j := d.value.companion;
      IsPair(p)
      && (if MustGet(head, "record_type") == Ok(VInt(AUDIT_LOG_EXIT)) then p.ale == head && p.detail == rest[j]
          else p.ale == rest[j] && p.detail == head)
      && exists line ::
           FormatPair(p.category, p.ale, p.detail, s.infos) == Ok(line)
           && HeadStep(s) == Run(EngineState(Without(rest, j), s.infos, s.output + [SpadeLine(line)]), None)
  {
    var rest := s.buffer[1..];
    var head := s.buffer[0];
    if MustGet(head, "record_type") == Ok(VInt(AUDIT_LOG_EXIT)) {
      ExitHeadPair(head, rest, s.infos);
    } else {
      DetailHeadPair(head, rest, s.infos);
    }
  }

  /**
   * A detail head whose companion AuditLogExit has a syscall outside its category prints nothing,
   * yet that AuditLogExit is still removed.
   */
  lemma UnmatchedExitStillConsumed(s: EngineState, c: Category)
    requires |s.buffer| > 0
    requires MustGet(s.buffer[0], "record_type") == Ok(VInt(DetailType(c))) && MustGet(s.buffer[0], "task_ctx_id").Ok?
    requires var found := NextRecord(s.buffer[1..], MustGet(s.buffer[0], "task_ctx_id").value, AUDIT_LOG_EXIT);
      found.Ok? && found.value.1.Some?
      && MustGet(found.value.1.value, "syscall_number").Ok?
      && !InCategory(MustGet(found.value.1.value, "syscall_number").value, c)
    ensures var j := NextRecord(s.buffer[1..], MustGet(s.buffer[0], "task_ctx_id").value, AUDIT_LOG_EXIT).value.0;
      0 <= j < |s.buffer| - 1 && HeadStep(s) == Run(EngineState(Without(s.buffer[1..], j), s.infos, s.output), None)
  {
    CategoriesAgree(VInt(0), c);
  }

  /** A Cred or NewProcess head prints nothing, removes only itself, and becomes its pid's cache entry. */
  lemma CacheHeadStep(s: EngineState)
    requires |s.buffer| > 0
    requires MustGet(s.buffer[0], "record_type") in {Ok(VInt(CRED)), Ok(VInt(NEW_PROCESS))}
    requires MustGet(s.buffer[0], "task_ctx_id").Ok?
    ensures var r := ProcInfosSet(s.infos, s.buffer[0]);
      HeadStep(s) == if r.Ok? then Run(EngineState(s.buffer[1..], r.value, s.output), None)
                     else Run(EngineState(s.buffer[1..], s.infos, s.output), Some(r.error))
  {
  }

  /** A buffer kept below the window by `process_line` stays below it: at most 49 records before means at most 49 after. */
  lemma LineStepKeepsWindow(s: EngineState, line: Line)
    requires |s.buffer| < BUFFER_WINDOW
    ensures |LineStep(s, line).state.buffer| < BUFFER_WINDOW
  {
  }

  /** Over a whole file, starting below the window, the buffer never reaches it. */
  lemma {:induction false} ReadLinesKeepsWindow(s: EngineState, lines: seq<Line>)
    requires |s.buffer| < BUFFER_WINDOW
    ensures |ReadLines(s, lines).state.buffer| < BUFFER_WINDOW
    decreases |lines|
  {
    if lines != [] {
      LineStepKeepsWindow(s, lines[0]);
      ReadLinesKeepsWindow(LineStep(s, lines[0]).state, lines[1..]);
    }
  }

  /** The drain ends with an empty buffer unless an exception escapes it, and it only ever appends output. */
  lemma {:induction false} DrainEmptiesBuffer(s: EngineState)
    ensures Drain(s).error.None? ==> Drain(s).state.buffer == []
    ensures s.output <= Drain(s).state.output
    decreases |s.buffer|
  {
    if s.buffer != [] {
      var r := HeadStep(s);
      if r.error.None? {
        DrainEmptiesBuffer(r.state);
      }
    }
  }

  // ---------------------------------------------------------------------------------------------
  // The module-level state and the functions that update it in place

  class Correlator {
    var buffer: seq<Value>
    var procInfos: ProcInfos
    var output: seq<Printed>

    function Snapshot(): EngineState
      reads this
    {
      EngineState(buffer, procInfos, output)
    }

    constructor ()
      ensures Snapshot() == EngineState([], map[], [])
    {
      buffer := [];
      procInfos := map[];
      output := [];
    }

    /** `buffer_append(item)`. */
    method Append(item: Value)
      modifies this
      ensures buffer == old(buffer) + [item] && procInfos == old(procInfos) && output == old(output)
    {
      buffer := buffer + [item];
    }

    /** `buffer_is_window_full()`. */
    predicate IsWindowFull()
      reads this
    {
      |buffer| >= BUFFER_WINDOW
    }

    /** `buffer_is_empty()`. */
    predicate IsEmpty()
      reads this
    {
      |buffer| == 0
    }

    /** `buffer_remove(index)`: returns the element and deletes it, keeping the others in order. */
    method Remove(index: nat) returns (item: Value)
      requires index < |buffer|
      modifies this
      ensures item == old(buffer)[index] && buffer == Without(old(buffer), index)
      ensures procInfos == old(procInfos) && output == old(output)
    {
      item := buffer[index];
      buffer := buffer[..index] + buffer[index + 1..];
    }

    /** `buffer_get_next_record(task_ctx_id, record_type)`: the scanning loop. */
    method GetNextRecord(taskCtxId: Value, recordType: int) returns (r: Result<(int, Option<Value>), PyError>)
      ensures r == NextRecord(buffer, taskCtxId, recordType)
    {
      var i := 0;
      while i < |buffer|
        invariant 0 <= i <= |buffer|
        invariant NextFrom(buffer, taskCtxId, recordType, i) == NextRecord(buffer, taskCtxId, recordType)
      {
        var item := buffer[i];
        var ctx :- MustGet(item, "task_ctx_id");
        if ctx == taskCtxId {
          var itemType :- MustGet(item, "record_type");
          if itemType == VInt(recordType) {
            return Ok((i, Some(item)));
          }
        }
        i := i + 1;
      }
      return Ok((-1, None));
    }

    /**
     * The body of `process_buffer()` between removing the head and printing: the search for the
     * companion, the formatting, and the new cache. It changes nothing.
     */
    method Correlate(head: Value) returns (r: Result<(int, Option<string>, ProcInfos), PyError>)
      ensures var d := Decide(head, buffer, procInfos);
        r.Err? <==> d.Err? || Render(d.value.pair, d.value.infos).Err?
      ensures var d := Decide(head, buffer, procInfos);
        r.Err? ==> if d.Err? then r.error == d.error else Render(d.value.pair, d.value.infos) == Err(r.error)
      ensures var d := Decide(head, buffer, procInfos);
        r.Ok? ==>
          d.Ok? && r.value.0 == d.value.companion && r.value.2 == d.value.infos
          && Render(d.value.pair, d.value.infos) == Ok(if r.value.1.Some? then [SpadeLine(r.value.1.value)] else [])
    {
      var headType :- MustGet(head, "record_type");
      var ctx :- MustGet(head, "task_ctx_id");
      var companion := -1;
      var line: Option<string> := None;
      var infos := procInfos;
      if headType == VInt(AUDIT_LOG_EXIT) {
        var syscall :- MustGet(head, "syscall_number");
        var category := CategoryOfSyscall(syscall);
        if category.Some? {
          var found :- GetNextRecord(ctx, DetailType(category.value));
          companion := found.0;
          if found.1.Some? {
            var text :- FormatPair(category.value, head, found.1.value, procInfos);
            line := Some(text);
          }
        }
      } else if CategoryOfDetailType(headType).Some? {
        var category := CategoryOfDetailType(headType).value;
        var found :- GetNextRecord(ctx, AUDIT_LOG_EXIT);
        companion := found.0;
        if found.1.Some? {
          var syscall :- MustGet(found.1.value, "syscall_number");
          if InCategory(syscall, category) {
            var text :- FormatPair(category, found.1.value, head, procInfos);
            line := Some(text);
          }
        }
      } else if headType == VInt(CRED) || headType == VInt(NEW_PROCESS) {
        infos :- ProcInfosSet(procInfos, head);
      }
      return Ok((companion, line, infos));
    }

    /** `process_buffer()`. */
    method ProcessBuffer() returns (r: Result<(), PyError>)
      requires |buffer| > 0
      modifies this
      ensures Snapshot() == HeadStep(old(Snapshot())).state
      ensures r.Err? <==> HeadStep(old(Snapshot())).error.Some?
      ensures r.Err? ==> HeadStep(old(Snapshot())).error == Some(r.error)
    {
      ghost var s0 := Snapshot();
      var head := Remove(0);
      assert head == s0.buffer[0] && buffer == s0.buffer[1..];
      ghost var d := Decide(head, buffer, procInfos);
      var decision :- Correlate(head);
      var (companion, line, infos) := decision;
      assert Render(d.value.pair, d.value.infos) == Ok(if line.Some? then [SpadeLine(line.value)] else []);
      procInfos := infos;
      if line.Some? {
        output := output + [SpadeLine(line.value)];
      }
      if companion > -1 {
        var _ := Remove(companion);
      }
      r := Ok(());
    }

    /** `process_line(line)`. */
    method ProcessLine(line: Line) returns (r: Result<(), PyError>)
      modifies this
      ensures Snapshot() == LineStep(old(Snapshot()), line).state
      ensures r.Err? <==> LineStep(old(Snapshot()), line).error.Some?
      ensures r.Err? ==> LineStep(old(Snapshot()), line).error == Some(r.error)
    {
      if line.Malformed? {
        return Err(JsonDecodeError);
      }
      Append(line.value);
      if IsWindowFull() {
        r := ProcessBuffer();
      } else {
        r := Ok(());
      }
    }

    /** `process_file(path)`: read every line (a missing file or an exception prints one message), then drain. */
    method ProcessFile(file: Option<seq<Line>>, path: string) returns (r: Result<(), PyError>)
      modifies this
      ensures Snapshot() == FileRun(old(Snapshot()), file, path).state
      ensures r.Err? <==> FileRun(old(Snapshot()), file, path).error.Some?
      ensures r.Err? ==> FileRun(old(Snapshot()), file, path).error == Some(r.error)
    {
      ghost var s0 := Snapshot();
      match file {
        case None =>
          output := output + [FileNotFound(path)];
        case Some(lines) =>
          var i := 0;
          var failed := false;
          while i < |lines| && !failed
            invariant 0 <= i <= |lines|
            invariant !failed ==> ReadLines(s0, lines) == ReadLines(Snapshot(), lines[i..])
            invariant failed ==> Snapshot() == AfterRead(s0, file, path)
            decreases |lines| - i, if failed then 0 else 1
          {
            ghost var before := Snapshot();
            assert lines[i..][0] == lines[i] && lines[i..][1..] == lines[i + 1..];
            var res := ProcessLine(lines[i]);
            if res.Err? {
              output := output + [ReadError(res.error)];
              failed := true;
            } else {
              i := i + 1;
            }
          }
      }
      assert Snapshot() == AfterRead(s0, file, path);
      while !IsEmpty()
        invariant Drain(Snapshot()) == FileRun(s0, file, path)
        decreases |buffer|
      {
        var res := ProcessBuffer();
        if res.Err? {
          return res;
        }
      }
      r := Ok(());
    }
  }
}
